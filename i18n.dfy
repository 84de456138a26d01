// The message catalogue for the command line: a current language (English
// or Polish), a fixed table of templates per key and language, and
// `str.format`-style filling of `{name}` fields.

module I18n {
  import opened Common

  /** `_messages`: key, then language, then template. */
  const Catalogue: map<string, map<string, string>> := map[
    "agent_not_found" := map[
      "en" := "Agent '{agent}' not found. Available: {available}",
      "pl" := "Agent '{agent}' nie został znaleziony. Dostępni: {available}"],
    "no_history" := map[
      "en" := "No history for date: {date}",
      "pl" := "Brak historii dla daty: {date}"],
    "clearing_refused" := map[
      "en" := "Refusing to clear without --yes",
      "pl" := "Odmowa czyszczenia bez parametru --yes"],
    "pruning_refused" := map[
      "en" := "Refusing to prune without --yes",
      "pl" := "Odmowa przycinania bez parametru --yes"]
  ]

  /** `set_language`'s normalisation: empty gives English, anything else is
      lower-cased and kept only when it is "en" or "pl". */
  function NormalizeLanguage(s: string): (r: string)
    ensures r == "en" || r == "pl"
    ensures r == "pl" <==> Lower(s) == "pl"
    ensures s != [] && Lower(s) == "en" ==> r == "en"
  {
    if s == [] then "en"
    else
      var norm := Lower(s);
      if norm != "en" && norm != "pl" then "en" else norm
  }

  /** Setting a language that is already normal changes nothing, so
      normalising twice is normalising once. */
  lemma NormalizeLanguageIdempotent(s: string)
    ensures NormalizeLanguage(NormalizeLanguage(s)) == NormalizeLanguage(s)
  {
    var r := NormalizeLanguage(s);
    assert Lower(r) == r by {
      if r == "en" {
        assert Lower(r) == [LowerChar('e'), LowerChar('n')];
      } else {
        assert Lower(r) == [LowerChar('p'), LowerChar('l')];
      }
    }
  }

  /** The dictionary `get` with Python's `or`: a missing or empty entry
      counts as absent. */
  function Lookup(m: map<string, string>, k: string): Option<string>
  {
    if k in m && m[k] != "" then Some(m[k]) else None
  }

  /** The template `translate` formats: the current language's, else the
      English one, else the key itself. */
  function Template(lang: string, key: string): (r: string)
    ensures key !in Catalogue ==> r == key
    ensures key in Catalogue && Lookup(Catalogue[key], lang).Some? ==> r == Catalogue[key][lang]
    ensures key in Catalogue && Lookup(Catalogue[key], lang).None? && Lookup(Catalogue[key], "en").Some? ==> r == Catalogue[key]["en"]
  {
    var bundle := if key in Catalogue then Catalogue[key] else map[];
    var current := Lookup(bundle, lang);
    var english := Lookup(bundle, "en");
    if current.Some? then current.value
    else if english.Some? then english.value
    else key
  }

  /** Every key of the catalogue has a template in both languages, so a
      known key never falls back to itself once the language is
      normalised. */
  lemma TemplateKnown(lang: string, key: string)
    requires lang == "en" || lang == "pl"
    requires key in Catalogue
    ensures Template(lang, key) == Catalogue[key][lang]
  {
  }

  // `str.format(**kwargs)` on the field syntax the templates use.

  function Prepend(s: string, o: Option<string>): Option<string>
  {
    if o.Some? then Some(s + o.value) else None
  }

  predicate IsBrace(c: char)
  {
    c == '{' || c == '}'
  }

  predicate NoBraces(s: string)
  {
    forall k :: 0 <= k < |s| ==> !IsBrace(s[k])
  }

  predicate AllDigits(s: string)
  {
    forall k :: 0 <= k < |s| ==> IsDigit(s[k])
  }

  /** A keyword field name: not empty, not numeric (those are positional
      and no positional arguments are passed) and without braces. */
  predicate IsFieldName(name: string)
  {
    name != [] && !AllDigits(name) && NoBraces(name)
  }

  /** Fill the `{name}` fields of a template from `args`; `{{` and `}}`
      stand for single braces. `None` is the exception `format` raises: a
      field whose name is missing from `args`, an unclosed `{`, a lone `}`,
      an empty or numeric field name. */
  function Format(t: string, args: map<string, string>): (r: Option<string>)
    decreases |t|
  {
    if t == [] then Some([])
    else if t[0] == '{' && |t| >= 2 && t[1] == '{' then Prepend("{", Format(t[2..], args))
    else if t[0] == '}' then
      if |t| >= 2 && t[1] == '}' then Prepend("}", Format(t[2..], args)) else None
    else if t[0] == '{' then
      var close := IndexOf(t[1..], '}');
      if close == |t| - 1 then None
      else
        var name := t[1..close + 1];
        if !IsFieldName(name) || name !in args then None
        else Prepend(args[name], Format(t[close + 2..], args))
    else Prepend([t[0]], Format(t[1..], args))
  }

  lemma FormatPlain(c: char, rest: string, args: map<string, string>)
    requires !IsBrace(c)
    ensures Format([c] + rest, args) == Prepend([c], Format(rest, args))
  {
    assert ([c] + rest)[0] == c && ([c] + rest)[1..] == rest;
  }

  /** Text without braces formats to itself. */
  lemma {:induction false} FormatLiteral(t: string, rest: string, args: map<string, string>)
    requires NoBraces(t)
    ensures Format(t + rest, args) == Prepend(t, Format(rest, args))
    decreases |t|
  {
    var f := Format(rest, args);
    if t != [] {
      assert t + rest == [t[0]] + (t[1..] + rest);
      assert !IsBrace(t[0]);
      FormatPlain(t[0], t[1..] + rest, args);
      FormatLiteral(t[1..], rest, args);
      if f.Some? {
        assert [t[0]] + (t[1..] + f.value) == t + f.value;
      }
    } else {
      assert t + rest == rest;
      if f.Some? {
        assert t + f.value == f.value;
      }
    }
  }

  /** A field is replaced by its argument's value. */
  lemma FormatField(name: string, rest: string, args: map<string, string>)
    requires IsFieldName(name) && name in args
    ensures Format("{" + name + "}" + rest, args) == Prepend(args[name], Format(rest, args))
  {
    var t := "{" + name + "}" + rest;
    assert t[1..] == name + "}" + rest;
    assert IndexOf(t[1..], '}') == |name| by {
      assert t[1..][|name|] == '}';
      assert forall k :: 0 <= k < |name| ==> t[1..][k] == name[k];
    }
    assert t[1..|name| + 1] == name;
    assert t[|name| + 2..] == rest;
  }

  /** A field whose argument is missing makes the whole format fail. */
  lemma FormatFieldMissing(name: string, rest: string, args: map<string, string>)
    requires NoBraces(name) && name !in args
    ensures Format("{" + name + "}" + rest, args) == None
  {
    var t := "{" + name + "}" + rest;
    assert t[1..] == name + "}" + rest;
    assert IndexOf(t[1..], '}') == |name| by {
      assert t[1..][|name|] == '}';
      assert forall k :: 0 <= k < |name| ==> t[1..][k] == name[k];
    }
    assert t[1..|name| + 1] == name;
  }

  lemma FormatLiteralAll(t: string, args: map<string, string>)
    requires NoBraces(t)
    ensures Format(t, args) == Some(t)
  {
    FormatLiteral(t, [], args);
    assert t + [] == t;
  }

  /** `format`, and on any exception the raw template. */
  function FormatOrRaw(template: string, args: map<string, string>): (r: string)
    ensures Format(template, args).None? ==> r == template
  {
    var f := Format(template, args);
    if f.Some? then f.value else template
  }

  /** `I18N`: the class-level language setting. */
  class I18N {
    var lang: string

    constructor ()
      ensures lang == "en"
    {
      lang := "en";
    }

    method SetLanguage(s: string)
      modifies this
      ensures lang == NormalizeLanguage(s)
      ensures lang == "en" || lang == "pl"
    {
      if s == [] {
        lang := "en";
        return;
      }
      var norm := Lower(s);
      if norm != "en" && norm != "pl" {
        norm := "en";
      }
      lang := norm;
    }

    method GetLanguage() returns (r: string)
      ensures r == lang
    {
      r := lang;
    }

    /** `translate`: the template for the current language, formatted. */
    function Translate(key: string, args: map<string, string>): (r: string)
      reads this
      ensures Format(Template(lang, key), args).Some? ==> r == Format(Template(lang, key), args).value
      ensures Format(Template(lang, key), args).None? ==> r == Template(lang, key)
    {
      FormatOrRaw(Template(lang, key), args)
    }
  }

  /** `t`: the module-level shortcut for `I18N.translate`, so a key
      outside the catalogue comes back as itself when it has no braces. */
  function T(i18n: I18N, key: string, args: map<string, string>): (r: string)
    reads i18n
    ensures Format(Template(i18n.lang, key), args).Some? ==> r == Format(Template(i18n.lang, key), args).value
    ensures Format(Template(i18n.lang, key), args).None? ==> r == Template(i18n.lang, key)
    ensures key !in Catalogue && NoBraces(key) ==> r == key
  {
    UnknownKeyWhenFree(i18n.lang, key, args);
    i18n.Translate(key, args)
  }

  lemma UnknownKeyWhenFree(lang: string, key: string, args: map<string, string>)
    ensures key !in Catalogue && NoBraces(key) ==> FormatOrRaw(Template(lang, key), args) == key
  {
    if key !in Catalogue && NoBraces(key) {
      UnknownKey(lang, key, args);
    }
  }

  /** With the date supplied, the English "no_history" message reads
      "No history for date: " followed by it. */
  lemma NoHistoryMessage(date: string)
    ensures FormatOrRaw(Template("en", "no_history"), map["date" := date]) == "No history for date: " + date
  {
    var args := map["date" := date];
    NoHistoryTemplate();
    DateIsFieldName();
    FormatLiteral("No history for date: ", "{" + "date" + "}" + "", args);
    FormatField("date", "", args);
  }

  /** Without the date the format fails and the template comes back
      unformatted. */
  lemma NoHistoryMissingDate()
    ensures FormatOrRaw(Template("en", "no_history"), map[]) == "No history for date: {date}"
  {
    NoHistoryTemplate();
    var tm := Template("en", "no_history");
    assert Format(tm, map[]) == None by {
      DateIsFieldName();
      FormatLiteral("No history for date: ", "{" + "date" + "}" + "", map[]);
      FormatFieldMissing("date", "", map[]);
    }
    assert tm == "No history for date: {date}";
  }

  lemma DateIsFieldName()
    ensures IsFieldName("date")
  {
    assert !IsDigit("date"[0]);
    forall k | 0 <= k < |"date"| ensures !IsBrace("date"[k]) {
    }
  }

  lemma NoHistoryTemplate()
    ensures Template("en", "no_history") == "No history for date: " + ("{" + "date" + "}" + "")
    ensures NoBraces("No history for date: ")
  {
    var pre := "No history for date: ";
    forall k | 0 <= k < |pre| ensures !IsBrace(pre[k]) {
    }
  }

  /** A key outside the catalogue comes back as itself when it has no
      braces, whatever the language and arguments. */
  lemma UnknownKey(lang: string, key: string, args: map<string, string>)
    requires key !in Catalogue && NoBraces(key)
    ensures FormatOrRaw(Template(lang, key), args) == key
  {
    FormatLiteralAll(key, args);
  }
}
