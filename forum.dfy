// The orchestration transcript: an append-only list of messages, each with
// a role (system, user or agent), an optional agent name and its content.

module Forum {
  import opened Common

  /** The three roles `Message.role` admits. */
  datatype Role = System | User | Agent

  function RoleName(r: Role): string
  {
    match r
    case System => "system"
    case User => "user"
    case Agent => "agent"
  }

  /** Validating a role string: exactly the three names are accepted. */
  function ParseRole(s: string): (r: Option<Role>)
    ensures r.Some? <==> s == "system" || s == "user" || s == "agent"
    ensures r.Some? ==> RoleName(r.value) == s
  {
    if s == "system" then Some(System)
    else if s == "user" then Some(User)
    else if s == "agent" then Some(Agent)
    else None
  }

  /** Every role survives printing and parsing back. */
  lemma ParseRoleName(r: Role)
    ensures ParseRole(RoleName(r)) == Some(r)
  {
  }

  datatype Message = Message(role: Role, agent: Option<string>, content: string)

  /** A message as `model_dump(mode="json")` gives it (the timestamp is not
      modelled). */
  function MessageToJson(m: Message): Json
  {
    JObj([("role", JStr(RoleName(m.role))),
          ("agent", if m.agent.Some? then JStr(m.agent.value) else JNull),
          ("content", JStr(m.content))])
  }

  /** Reading a serialised message back: the inverse of `MessageToJson`. A
      missing field, a field of the wrong type or an unknown role reads as
      nothing. */
  function MessageFromJson(j: Json): (r: Option<Message>)
    ensures r.Some? ==> j.JObj? && Get(j.fields, "role") == Some(JStr(RoleName(r.value.role)))
    ensures r.Some? ==> Get(j.fields, "content") == Some(JStr(r.value.content))
  {
    if !j.JObj? then None
    else
      var role := Get(j.fields, "role");
      var agent := Get(j.fields, "agent");
      var content := Get(j.fields, "content");
      if role.Some? && role.value.JStr? && ParseRole(role.value.s).Some? &&
         agent.Some? && (agent.value.JNull? || agent.value.JStr?) &&
         content.Some? && content.value.JStr?
      then Some(Message(ParseRole(role.value.s).value, if agent.value.JStr? then Some(agent.value.s) else None, content.value.s))
      else None
  }

  lemma MessageJsonRoundTrip(m: Message)
    ensures MessageFromJson(MessageToJson(m)) == Some(m)
  {
    MessageFieldsRead(m);
    ParseRoleName(m.role);
  }

  /** Each field of a serialised message reads back as written. */
  lemma MessageFieldsRead(m: Message)
    ensures var f := MessageToJson(m).fields;
      Get(f, "role") == Some(JStr(RoleName(m.role))) &&
      Get(f, "agent") == Some(f[1].1) &&
      Get(f, "content") == Some(JStr(m.content))
  {
    var f := MessageToJson(m).fields;
    assert Get(f[1..], "agent") == Some(f[1].1);
    assert Get(f[2..], "content") == Some(JStr(m.content));
    assert Get(f[1..], "content") == Get(f[2..], "content");
  }

  class Forum {
    var messages: seq<Message>

    constructor ()
      ensures messages == []
    {
      messages := [];
    }

    /** `post`: validate the role, append exactly one message at the end and
        return it; a bad role raises and leaves the transcript as it was. */
    method Post(role: string, content: string, agent: Option<string>) returns (r: Result<Message>)
      modifies this
      ensures ParseRole(role).Some? <==> r.Ok?
      ensures r.Ok? ==> r.value == Message(ParseRole(role).value, agent, content) && messages == old(messages) + [r.value]
      ensures r.Err? ==> r.kind == "ValidationError" && messages == old(messages)
    {
      var parsed := ParseRole(role);
      if parsed.None? {
        return Err("ValidationError", "role must be one of system, user, agent");
      }
      var msg := Message(parsed.value, agent, content);
      messages := messages + [msg];
      r := Ok(msg);
    }

    /** `messages()`: a copy, which in Dafny is the sequence value itself, so
        later posts cannot change what a caller already holds. */
    method Messages() returns (r: seq<Message>)
      ensures |r| == |messages| && forall k :: 0 <= k < |r| ==> r[k] == messages[k]
    {
      r := messages;
    }

    /** `to_dict()`: one dictionary per message, same length and order, each
        of which reads back as the message it came from. */
    method ToDict() returns (r: seq<Json>)
      ensures |r| == |messages|
      ensures forall k :: 0 <= k < |r| ==> MessageFromJson(r[k]) == Some(messages[k])
    {
      r := [];
      var i := 0;
      while i < |messages|
        invariant 0 <= i <= |messages| && |r| == i
        invariant forall k :: 0 <= k < i ==> r[k] == MessageToJson(messages[k])
      {
        r := r + [MessageToJson(messages[i])];
        i := i + 1;
      }
      forall k | 0 <= k < |r| ensures MessageFromJson(r[k]) == Some(messages[k]) {
        MessageJsonRoundTrip(messages[k]);
      }
    }
  }
}
