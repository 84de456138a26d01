# ftSystem core, modelled in Dafny

ftSystem is a small multi-agent orchestration system. A `MasterAgent` reads its configuration, picks sub-agents from a registry, filters them through a security policy and runs them for a number of rounds. Every step is recorded in a forum transcript whose text is redacted first. The result is a payload of the last round's results, latencies and success flags, and it can be exported in the Prometheus text format. Around the orchestrator are a local retrieval index (RAG), an English/Polish message catalogue and five rule-based agents: coder, researcher, summarizer, critic and analyst.

The project has one Dafny module per source file:

- `Common` (common.dfy): the shared vocabulary. It holds option and result wrappers, the string operations Python provides (lower-casing, stripping, splitting, joining, slicing with negative bounds), decimal rendering and parsing of integers, and a JSON-like value type whose objects keep their key order.
- `Security` (security.dfy): `SecurityPolicy` is a value built from two environment strings. `Redactor` is a class whose level the program changes in place. Its `Redact` method applies the base rules and then, at the strict level, the strict rules in order.
- `Forum` (forum.dfy): the transcript as a class holding a sequence of messages. Messages are only ever appended, and the transcript serialises to dictionaries that parse back to the same messages.
- `I18n` (i18n.dfy): the current language as a class field that only ever holds English or Polish. Translation falls back from the current language's template to the English one and then to the key itself. Plain `{name}` fields are filled from the arguments, `{{` and `}}` stand for single braces, and the raw template is kept when a field is missing or malformed.
- `Metrics` (metrics.dfy): the lines the Prometheus exporter writes for each payload shape. The duration lines are always present, the rounds lines appear only for a numeric `rounds`, and each latency and success section has one sample per numeric entry.
- `Master` (master.dfy): `MasterAgent.run`, which covers:
  - lenient coercion of `rounds` and `timeout_seconds`;
  - candidate selection and the registry default;
  - allow-list filtering and the empty-selection short-circuit;
  - the rounds loop, the per-round results, latencies and success flags;
  - the shape of the transcript.
- `Rag` (rag.dfy): tokenising, packing paragraphs into chunks with an overlapping tail, numbering chunks per file, scoring a chunk against a query, and ranking by score with ties kept in file order.
- `Coder`, `Researcher`, `Summarizer`, `Critic` and `Analyst`: the five agents' `run` pipelines with their error conditions, caps, orderings, fallbacks and score formulas.

The scheduler, the regular-expression engine, number formatting and the file system are parameters of the model; "## Left out" lists them. Scores and confidences are exact numbers. They are either `real` values or integers in hundredths or ten-thousandths, as each module says.

## Model

| member | source | states |
|---|---|---|
| Common.SplitOn | src/core/security.py:23 | `str.split` on one character: at least one piece, no piece contains the separator, and joining the pieces with it gives back the text |
| Common.TrimLeft | src/core/security.py:23 | `str.lstrip`: a suffix of the text that does not start with whitespace, and every character removed in front of it is whitespace |
| Common.TrimRight | src/core/security.py:23 | `str.rstrip`: a prefix of the text that does not end with whitespace, and every character removed after it is whitespace |
| Common.Strip | src/core/security.py:23 | `str.strip`: the result is no longer than the text and neither starts nor ends with whitespace |
| Common.StripIsInfix | src/core/security.py:23 | the stripped text is the slice of the text after its leading whitespace, and everything before and after that slice is whitespace |
| Common.StripKeepsChars | src/core/security.py:23 | stripping adds no character the text did not have |
| Common.ParseIntOfIntToString | src/core/security.py:24 | `int(str(i)) == i` for every integer |
| Common.PyTakeSeq | src/agents/researcher_agent.py:152 | `s[:k]` is a prefix of `s`, of length `k` when `0 <= k <= len(s)`, all of `s` beyond, and Python's length for a negative `k` |
| Common.PyFrom | src/rag/simple.py:36 | `s[k:]` is a suffix of `s`, with Python's length for every `k`, including the whole text for `k == 0` (so `joined[-0:]` is the whole chunk) |
| Common.Lower | src/rag/simple.py:11-15 | lower-casing keeps the length and lower-cases every character |
| Security.SetOf | src/core/security.py:14 | the allow-list set holds exactly the names of the list it was built from |
| Security.NewPolicy | src/core/security.py:12-15 | an absent or empty allow-list means no restriction, any other holds exactly the given names; the cap is `max(1, max_rounds)` |
| Security.StrippedEntries | src/core/security.py:23 | every kept entry is non-blank, stripped and comma-free, and there are no more entries than pieces |
| Security.ParseAllowList | src/core/security.py:22-23 | every entry parsed from the allow-list variable is non-blank, stripped and comma-free |
| Security.SplitOnCons | src/core/security.py:23 | splitting on commas peels off a comma-free first entry |
| Security.SplitOnNone | src/core/security.py:23 | text without a comma splits into itself alone |
| Security.ParseAllowListRoundTrip | src/core/security.py:22-23 | a non-empty list of well-formed entries joined with commas parses back to the same list |
| Security.StrippedEntriesCons | src/core/security.py:23 | a well-formed entry in front is kept unchanged |
| Security.IndexOfFirst | src/core/security.py:23 | the first comma of the text is where the split happens |
| Security.FromEnv | src/core/security.py:17-25 | the policy is built unless the rounds variable is not an integer (ValueError); an unset cap gives 5 and a set one `max(1, int(v))`; the allow-list is unrestricted exactly when the variable is unset or parses to no entry, and otherwise holds exactly the parsed entries |
| Security.FilterNames | src/core/security.py:27-31 | without an allow-list the names come back unchanged; otherwise a name is kept iff it is listed and allowed |
| Security.FilterNamesCount | src/core/security.py:31 | an allowed name is kept as many times as it occurs, a disallowed one never |
| Security.FilterNamesAppend | src/core/security.py:31 | filtering a concatenation filters each part, so relative order is kept |
| Security.CapRounds | src/core/security.py:33-39 | the result lies in [1, max_rounds]; a request already in range is returned; below 1 gives 1, above the cap gives the cap |
| Security.NormalizeLevel | src/core/security.py:84-86 | the level is "normal" or "strict", and "strict" exactly when the stripped, lower-cased request is "strict" |
| Security.NormalizeLevelIdempotent | src/core/security.py:84-87 | setting an already normal level again does not change it |
| Security.LowerStripFixed | src/core/security.py:84 | a lower-case word is unchanged by strip-then-lower |
| Security.LowerUnchanged | src/core/security.py:84 | lower-casing lower-case text leaves it unchanged |
| Security.ActiveRules | src/core/security.py:100-102 | the base rules always come first; the strict rules follow at "strict" only |
| Security.ApplyRulesAppend | src/core/security.py:103-104 | applying two lists of rules is applying the first, then the second to its output |
| Security.StrictAppliesBaseFirst | src/core/security.py:100-104 | at "strict" the strict rules rewrite the output of the base rules |
| Security.Redactor.constructor | src/core/security.py:51 | the level starts as "normal" |
| Security.Redactor.SetLevel | src/core/security.py:81-87 | the new level is the normalised request, always "normal" or "strict" |
| Security.Redactor.GetLevel | src/core/security.py:89-92 | the level read back is the one stored, "normal" or "strict" |
| Security.Redactor.Redact | src/core/security.py:94-105 | None maps to None; otherwise the text is rewritten by each active rule in list order |
| Forum.ParseRole | src/agents/base.py:65 | a role is accepted iff it is "system", "user" or "agent", and it names itself back |
| Forum.ParseRoleName | src/agents/base.py:65 | every role survives printing and parsing |
| Forum.MessageFromJson | src/agents/base.py:61-67 | a message read back has the role and content fields of the dictionary it came from |
| Forum.MessageJsonRoundTrip | src/core/forum.py:25-28 | a serialised message reads back as itself |
| Forum.MessageFieldsRead | src/core/forum.py:25-28 | each field of a serialised message reads back as written |
| Forum.Forum.constructor | src/core/forum.py:11-13 | a new forum has no messages |
| Forum.Forum.Post | src/core/forum.py:15-19 | a valid role appends exactly that message at the end and returns it; an invalid one raises ValidationError and leaves the transcript as it was |
| Forum.Forum.Messages | src/core/forum.py:21-23 | the copy has the transcript's messages, in order |
| Forum.Forum.ToDict | src/core/forum.py:25-28 | one dictionary per message, same order, each reading back as its message |
| I18n.NormalizeLanguage | src/core/i18n.py:38-46 | the language is "en" or "pl"; "pl" exactly when the lower-cased request is "pl"; empty or unknown falls back to "en" |
| I18n.NormalizeLanguageIdempotent | src/core/i18n.py:38-46 | setting an already normal language again does not change it |
| I18n.Template | src/core/i18n.py:56-57 | an unknown key is its own template; a known key gives the current language's template, else the English one |
| I18n.TemplateKnown | src/core/i18n.py:18-35 | every catalogue key has a template in both languages, so a known key never falls back |
| I18n.FormatPlain | src/core/i18n.py:59 | a character that is not a brace is copied to the output |
| I18n.FormatLiteral | src/core/i18n.py:59 | text without braces is copied unchanged in front of the rest |
| I18n.FormatField | src/core/i18n.py:59 | a `{name}` field is replaced by that argument's value |
| I18n.FormatFieldMissing | src/core/i18n.py:59 | a field whose argument is missing makes the format fail |
| I18n.FormatLiteralAll | src/core/i18n.py:59 | text without braces formats to itself |
| I18n.FormatOrRaw | src/core/i18n.py:58-61 | when formatting fails the raw template is returned |
| I18n.I18N.constructor | src/core/i18n.py:17 | the language starts as "en" |
| I18n.I18N.SetLanguage | src/core/i18n.py:37-46 | the new language is the normalised request, always "en" or "pl" |
| I18n.I18N.GetLanguage | src/core/i18n.py:48-51 | the language read back is the one stored |
| I18n.I18N.Translate | src/core/i18n.py:53-61 | the current language's template, formatted with the arguments, or raw when formatting fails |
| I18n.UnknownKey | src/core/i18n.py:56-61 | a brace-free key outside the catalogue translates to itself in any language |
| I18n.T | src/core/i18n.py:64-66 | the shortcut translates with the current language: the template formatted with the arguments, the raw template when formatting fails, and a brace-free unknown key unchanged |
| Metrics.Payload | src/core/metrics.py:36-46 | a dictionary is used as is, a model by its dump, a failing `dict()` or a non-dictionary plain value as empty; the run fails (AttributeError) exactly when `dict()` returns something other than a dictionary |
| Metrics.Rendered | src/core/metrics.py:49-78 | one text line per exposition line, rendered in the Prometheus text format |
| Metrics.Numeric | src/core/metrics.py:65-66 | only entries of the dictionary whose values are numbers are kept |
| Metrics.NumericComplete | src/core/metrics.py:65-66 | every numeric entry of the dictionary is kept |
| Metrics.Samples | src/core/metrics.py:65-78 | every line of a section's loop is a sample of that section's metric |
| Metrics.SamplesNumeric | src/core/metrics.py:65-78 | one sample per numeric entry, in dictionary order, labelled with the entry's key and showing its value |
| Metrics.RoundsSection | src/core/metrics.py:53-57 | the rounds block only speaks about the rounds metric |
| Metrics.DictSection | src/core/metrics.py:62-78 | a latency or success block only speaks about its metric, and its HELP line is written iff the value is a dictionary |
| Metrics.LatencySection | src/core/metrics.py:59-69 | the latency block only speaks about the latency metric |
| Metrics.SuccessSection | src/core/metrics.py:70-78 | the success block only speaks about the success metric |
| Metrics.DurationSection | src/core/metrics.py:49-51 | the duration block only speaks about the duration metric |
| Metrics.ExpositionFrame | src/core/metrics.py:49-81 | the output always starts with the three duration lines and ends with a newline |
| Metrics.InSection | src/core/metrics.py:48-81 | a line of one metric is in the output iff it is in that metric's block |
| Metrics.RoundsPresent | src/core/metrics.py:53-57 | the rounds block is written iff the payload's `rounds` is a number |
| Metrics.LatencyPresent | src/core/metrics.py:59-69 | the latency block is written iff `metrics` is a dictionary whose `latency` is a dictionary |
| Metrics.SuccessPresent | src/core/metrics.py:59-78 | the success block is written iff `metrics` is a dictionary whose `success` is a dictionary |
| Metrics.PlainValueOnlyDuration | src/core/metrics.py:37-51 | a result that is neither a dictionary nor a model gives only the duration lines and the final newline |
| Metrics.AppendSamples | src/core/metrics.py:65-69 | the loop appends exactly the section's samples after the lines already there |
| Metrics.SamplesStep | src/core/metrics.py:65-69 | one more dictionary entry adds its sample exactly when its value is numeric |
| Metrics.WriteMetrics | src/core/metrics.py:17-81 | fails with AttributeError exactly when the payload cannot be read; otherwise the file text is the duration, rounds, latency and success blocks joined with newlines, ending with an empty line |
| Metrics.AppendMetrics | src/core/metrics.py:59-78 | appends the latency block, then the success block |
| Metrics.AppendSection | src/core/metrics.py:62-78 | appends the HELP and TYPE pair and the samples exactly when the value is a dictionary |
| Master.Param | src/agents/master_agent.py:36-41 | a parameter is read only when the parameters are present and non-empty |
| Master.CoerceRounds | src/agents/master_agent.py:34-39 | an integer `rounds` is taken with 0 read as 1; any other value keeps the default 1, so the result is never 0 |
| Master.CoerceTimeout | src/agents/master_agent.py:35-43 | the timeout is the numeric value, the parse of a string, or none when absent or when `float` raises |
| Master.StrAll | src/agents/master_agent.py:67 | one `str(n)` per requested entry, in order |
| Master.Wanted | src/agents/master_agent.py:65-67 | the requested names are the `subagents` list's items, each stringified, in order, when it is a list, else none |
| Master.Resolve | src/agents/master_agent.py:70-76 | a name is resolved iff it was requested, is not the orchestrator and is in the registry |
| Master.ResolveAppend | src/agents/master_agent.py:71-76 | resolution keeps request order |
| Master.NonMaster | src/agents/master_agent.py:79-87 | the registry's names without the orchestrator's: a subsequence of the registry (registry order kept), every other name as many times as in the registry, the orchestrator never |
| Master.DefaultSelection | src/agents/master_agent.py:79-88 | the first two registry entries other than the orchestrator (fewer when the registry has fewer) |
| Master.Selection | src/agents/master_agent.py:65-89 | the resolved request when it is non-empty, else the default selection; never the orchestrator, only registered names |
| Master.Select | src/agents/master_agent.py:65-89 | the loop computes exactly the selection |
| Master.Admitted | src/agents/master_agent.py:92 | a selected name is kept iff the policy returned it |
| Master.AdmittedIsFilter | src/agents/master_agent.py:91-92 | filtering the selection by the policy's answer is the policy's own filter |
| Master.Chosen | src/agents/master_agent.py:65-92 | the sub-agents a round runs: the policy filter of the selection, registered, never the orchestrator, and all allowed |
| Master.ErrorObjIsError | src/agents/master_agent.py:112-118 | an error dictionary with a non-empty message counts as a failure |
| Master.RaisedMessage | src/agents/master_agent.py:60-63 | the message stored for a raising handler is never empty, so it counts as a failure |
| Master.RoundOutcomes | src/agents/master_agent.py:49-118 | every chosen handler has a result and a success flag of 0 or 1: a return stores its value and latency and succeeds unless the value is itself an error dictionary; a raise stores the error message and 0.0; a timeout stores "timeout", no latency and 0.0 |
| Master.ReturnedCount | src/agents/master_agent.py:56-57 | at most one post per chosen handler |
| Master.AgentPosts | src/agents/master_agent.py:57 | a round posts exactly once per handler that returned |
| Master.AgentPostsStep | src/agents/master_agent.py:101 | running one more handler appends its post, if any |
| Master.AgentPostsShape | src/agents/master_agent.py:57 | every post of a round is an agent message naming a chosen handler that returned |
| Master.RunHandlers | src/agents/master_agent.py:49-114 | after the handlers run, results and latencies record every outcome, and the transcript gains exactly their posts in order |
| Master.GatheredStep | src/agents/master_agent.py:49-63 | one handler's outcome extends what was gathered for the handlers before it |
| Master.RunOne | src/agents/master_agent.py:49-63 | a return stores the value and latency and posts the redacted text; a raise stores the error dictionary; an unfinished handler stores nothing |
| Master.MarkTimeouts | src/agents/master_agent.py:102-112 | after a timeout every chosen handler has a result, the unfinished ones `{"error": "timeout"}` |
| Master.SuccessFlags | src/agents/master_agent.py:116-118 | one flag per result: 0.0 for an error dictionary, 1.0 otherwise |
| Master.Choose | src/agents/master_agent.py:65-92 | the method computes exactly the chosen sub-agents |
| Master.RunRound | src/agents/master_agent.py:45-124 | one round's results, latencies and flags match the outcomes of the chosen handlers (an empty selection gives three empty dictionaries), and the transcript gains their posts |
| Master.UserPosts | src/agents/master_agent.py:32-33 | one user message exactly when the input is truthy |
| Master.RoundsPostsShape | src/agents/master_agent.py:134-136 | every post of the rounds is an agent message naming a chosen handler |
| Master.TranscriptShape | src/agents/master_agent.py:31-137 | the transcript starts with the system message, has a user message iff the input is truthy, then only agent posts of chosen handlers, and ends with "Synthesis complete" |
| Master.RunRounds | src/agents/master_agent.py:133-136 | every round runs in turn; the transcript gains the posts of all rounds and the kept result is the last round's |
| Master.RoundsPostsStep | src/agents/master_agent.py:134-136 | one more round appends that round's posts |
| Master.Open | src/agents/master_agent.py:23-33 | a fresh transcript gets the start message and, for truthy input, the redacted user message |
| Master.Run | src/agents/master_agent.py:21-144 | fails exactly when reading the policy from the environment fails; otherwise reports the capped number of rounds, the last round's dictionaries for the chosen sub-agents and the full transcript |
| Master.Orchestrate | src/agents/master_agent.py:126-144 | the payload reports the rounds, the last round and a transcript that reads back as the run's messages |
| Rag.TokenLength | src/rag/simple.py:11 | a token is the longest run of token characters at that point |
| Rag.Tokenize | src/rag/simple.py:11-15 | every token is a non-empty run of lower-cased token characters |
| Rag.TokenizeEmpty | src/rag/simple.py:14-15 | text gives no token exactly when it holds no token character |
| Rag.TokenizeSplit | src/rag/simple.py:11-15 | a character outside the token class separates tokens: the tokens of `a + [c] + b` are those of `a` followed by those of `b` |
| Rag.TokenizeWord | src/rag/simple.py:11-15 | a non-empty run of token characters is one token, the run lower-cased |
| Rag.RunBreakEnd | src/rag/simple.py:20 | the greedy `\s*` of the separator ends just after the LAST line break of the whitespace run that starts there: 0 exactly when that run has no line break, otherwise no line break is left between the end and the end of the run |
| Rag.RunBreakEndGreedy | src/rag/simple.py:20 | after the greedy end no further line break run starts, so the next piece cannot begin with one |
| Rag.NextBlankLine | src/rag/simple.py:20 | the FIRST match of `\n\s*\n` at or after the start: a line break followed by whitespace holding another line break, and no match anywhere before it |
| Rag.SplitFromPieces | src/rag/simple.py:20 | the pieces and separators cut from a position split the rest of the text as `re.split` does (`SplitOfText`): joined back they give the text, every separator is whitespace from a line break to a line break, no piece holds a match even with the next line break, and no piece after a separator starts with a line break run the separator could have taken |
| Rag.BlankLineSplit | src/rag/simple.py:20 | `re.split(r"\n\s*\n", text)`: at least one piece, and the pieces with the separators between them form a leftmost, greedy split of the text (`SplitOfText`) |
| Rag.NonBlankStripped | src/rag/simple.py:20 | `[p.strip() for p in pieces if p.strip()]`: exactly the stripped pieces that are not empty, in order (`Filter(StripAll(pieces), NonEmpty)`) |
| Rag.NonBlankStrippedEnds | src/rag/simple.py:20 | every kept paragraph is non-empty, starts and ends with a non-whitespace character, and the paragraphs keep the order of the pieces |
| Rag.Paragraphs | src/rag/simple.py:20 | every paragraph is non-empty |
| Rag.TrimLeftEmpty | src/rag/simple.py:20 | stripping the left side empties a piece exactly when it is all whitespace |
| Rag.TrimRightEmpty | src/rag/simple.py:20 | stripping the right side empties a piece exactly when it is all whitespace |
| Rag.StripEmpty | src/rag/simple.py:20 | a piece strips to nothing exactly when it is all whitespace |
| Rag.AllBlankCons | src/rag/simple.py:20 | a list of pieces is blank iff its first piece and the rest are |
| Rag.SplitFromSpace | src/rag/simple.py:20 | the separators are whitespace, so the text is blank iff every piece is |
| Rag.SpaceAround | src/rag/simple.py:20 | removing a separator does not change whether the text is blank |
| Rag.BlankLineSplitSpace | src/rag/simple.py:20 | the text is all whitespace iff every piece of the split is |
| Rag.NonBlankStrippedEmpty | src/rag/simple.py:20 | no paragraph is kept iff every piece is blank |
| Rag.ParagraphsEmpty | src/rag/simple.py:20-22 | a text has no paragraph exactly when it is all whitespace |
| Rag.Overlap | src/rag/simple.py:33-41 | the overlap carried into the next buffer is at most one piece |
| Rag.PackAllStep | src/rag/simple.py:26-41 | reading one more paragraph is one more loop iteration |
| Rag.PackStepCases | src/rag/simple.py:27-41 | a paragraph that fits, or meets an empty buffer, is appended; otherwise the buffer is flushed and restarted with the overlap tail and the paragraph |
| Rag.AppendPartitioned | src/rag/simple.py:27-29 | appending keeps every paragraph read in exactly one group, in order |
| Rag.FlushPartitioned | src/rag/simple.py:30-41 | flushing keeps every paragraph read in exactly one group, in order |
| Rag.FlushAssembled | src/rag/simple.py:31 | a flushed chunk is its overlap tail and its paragraphs joined by blank lines |
| Rag.FlushOverlapping | src/rag/simple.py:33-41 | after a flush the new buffer starts with the tail of the chunk just written |
| Rag.AppendBudgeted | src/rag/simple.py:27-29 | `cur` stays the buffer's size, and a buffer of two or more paragraphs stays within the target |
| Rag.FlushBudgeted | src/rag/simple.py:30-41 | after a flush `cur` is the new buffer's size, and the flushed chunk was closed because the paragraph did not fit |
| Rag.StepInvariant | src/rag/simple.py:26-41 | one loop iteration keeps the whole packing invariant |
| Rag.PackAllInvariant | src/rag/simple.py:26-41 | the packing invariant holds after every prefix of the paragraphs |
| Rag.FinishedPartition | src/rag/simple.py:42-44 | after the final flush the chunks' own paragraphs, read in turn, are the paragraphs |
| Rag.FinishedOverlap | src/rag/simple.py:42-44 | after the final flush each chunk but the first starts with the previous chunk's tail |
| Rag.FinishedBudget | src/rag/simple.py:42-44 | after the final flush every multi-paragraph chunk is within the target and every chunk but the last was closed on overflow |
| Rag.ChunksPartition | src/rag/simple.py:18-44 | every paragraph enters exactly one chunk, whole and in order, and each chunk is its overlap tail and its paragraphs joined by blank lines |
| Rag.ChunksOverlap | src/rag/simple.py:32-41 | each chunk after the first starts with the last `overlap` characters of the one before when that is longer than `overlap`, else with nothing |
| Rag.ChunksBudget | src/rag/simple.py:27-41 | a chunk with two or more paragraphs of its own stays within the target, and a chunk is closed only when the next paragraph would not fit |
| Rag.ChunksFirst | src/rag/simple.py:21-44 | there are chunks exactly when there are paragraphs, and the first chunk starts with the first paragraph |
| Rag.PackParagraphs | src/rag/simple.py:23-44 | the packing loop computes exactly the specified chunks of the paragraphs |
| Rag.ChunkParagraphs | src/rag/simple.py:18-44 | the loop computes exactly the specified chunks, and there are none exactly when the text is all whitespace |
| Rag.Score | src/rag/simple.py:95-102 | the score is positive iff both token lists are non-empty, and then lies above the number of shared distinct tokens by at most 0.1 |
| Rag.ScoreSharedFirst | src/rag/simple.py:101-102 | sharing more distinct tokens always scores higher, whatever the lengths |
| Rag.ScoreLengthHint | src/rag/simple.py:102 | with equal shared tokens a longer document scores at least as high, strictly below 100 tokens, equally beyond |
| Rag.Scored | src/rag/simple.py:111-119 | every hit has a positive score equal to its record's score and comes from a line that parsed |
| Rag.ScoredComplete | src/rag/simple.py:112-119 | every parsed line with a positive score is a hit |
| Rag.InsertDesc | src/rag/simple.py:120 | inserting adds exactly that hit |
| Rag.SortDesc | src/rag/simple.py:120 | the sort is a permutation |
| Rag.InsertSorted | src/rag/simple.py:120 | inserting into a descending list keeps it descending |
| Rag.WithScoreAppend | src/rag/simple.py:120 | the hits of one score in a concatenation are those of each part |
| Rag.WithScoreAbove | src/rag/simple.py:120 | a list scoring below a value has no hit of that score |
| Rag.InsertStable | src/rag/simple.py:120 | an inserted hit goes after the hits of equal score |
| Rag.SortDescSorted | src/rag/simple.py:120 | the sort orders scores descending |
| Rag.SortDescStable | src/rag/simple.py:120 | the sort is stable: hits of equal score keep their file order |
| Rag.RankedTop | src/rag/simple.py:117-121 | the answer holds `max(1, top_k)` hits or all of them when fewer, best first, each positive and from the index |
| Rag.RankedBest | src/rag/simple.py:120-121 | no hit left out scores higher than one kept |
| Rag.QueryIndex | src/rag/simple.py:105-121 | a missing index raises FileNotFoundError with the message "Index not found: " and the index path; otherwise the answer is the ranking of the query's tokens against the lines that parse |
| Rag.NumberChunks | src/rag/simple.py:70-78 | one record per chunk |
| Rag.NumberChunksConsecutive | src/rag/simple.py:70-78 | chunk records are numbered from 0 in order, each with its chunk's text, tokens, the file's path and id `<name>:<i>` |
| Rag.ChunkIdParses | src/rag/simple.py:71 | the number after the file name in a chunk id reads back as the chunk index |
| Rag.ChunkIdsDistinct | src/rag/simple.py:71 | ids of different chunks of one file differ |
| Rag.NumberChunksStep | src/rag/simple.py:70-80 | one more chunk writes one more record |
| Rag.IndexRecordsStep | src/rag/simple.py:67-80 | one more file appends its chunk records |
| Rag.WriteChunks | src/rag/simple.py:70-80 | the inner loop writes exactly the numbered records of the file's chunks |
| Rag.IndexFile | src/rag/simple.py:70-80 | the records of one file are its chunks, with the default size 600 and overlap 100, numbered from 0 |
| Rag.BuildIndex | src/rag/simple.py:63-81 | the records written are, file by file, the numbered records of each file's chunks with the default size 600 and overlap 100 |
| Coder.NormalizeLanguage | src/agents/coder_agent.py:56-60 | the language used is always supported: the lower-cased request when supported, "python" otherwise |
| Coder.PythonName | src/agents/coder_agent.py:202 | the Python function name has the task's length and is, position by position, the task's character lower-cased with a space turned into `_`; so no spaces and no upper-case letters |
| Coder.CamelAndPascal | src/agents/coder_agent.py:221-240 | the JavaScript name is the Java class name with its first letter lower-cased instead of capitalised, and both are empty exactly when the task has no words |
| Coder.FirstWordCase | src/agents/coder_agent.py:221-240 | the first word lower-cased and capitalised differ only in the first letter |
| Coder.LowerTail | src/agents/coder_agent.py:221-240 | `lower()` and `capitalize()` of a word agree after the first letter |
| Coder.JoinContains | src/agents/coder_agent.py:238-257 | a line of a template that contains a text makes the template contain it |
| Coder.JoinStarts | src/agents/coder_agent.py:200-257 | a template starts with its first line |
| Coder.TemplateHeads | src/agents/coder_agent.py:202-241 | each template opens with the declaration of the name derived from the task |
| Coder.JavaTemplatePrints | src/agents/coder_agent.py:254 | the Java template prints with `System.out.println` |
| Coder.Generate | src/agents/coder_agent.py:86-107 | JavaScript and Java get their own template, every other language the Python one; the code is never empty and the explanation names the language and task |
| Coder.Refactor | src/agents/coder_agent.py:109-124 | the refactoring is the two-line header, a blank line and the original code unchanged at the end |
| Coder.HasSeverityAppend | src/agents/coder_agent.py:150-154 | a severity occurs in joined warning lists iff it occurs in one of them |
| Coder.HasSeverityAt | src/agents/coder_agent.py:72 | "some warning has this severity" read recursively and by index agree |
| Coder.ValidatePython | src/agents/coder_agent.py:158-174 | the issues are those `PythonIssues` lists: no error; a warning iff "import" occurs but the code does not start with an import; an info iff the code is longer than 1000 characters |
| Coder.ValidateJavaScript | src/agents/coder_agent.py:176-186 | the one warning about `var` exactly when the code contains "var ", nothing else |
| Coder.ValidateJava | src/agents/coder_agent.py:188-198 | the one logging hint exactly when the code contains `System.out.println`, nothing else |
| Coder.ValidateCode | src/agents/coder_agent.py:126-156 | the issues are those `CodeIssues` lists: an error exactly for code without lines, first; warnings and infos exactly as the language's checks say; languages without checks add nothing |
| Coder.Run | src/agents/coder_agent.py:27-84 | an empty task raises ValueError; otherwise the language is the normalised one, existing code is refactored and kept at the end with the refactoring's explanation, else a template is generated with the generation's explanation; the warnings are `CodeIssues` of the resulting code, and the result is always syntactically valid |
| Coder.Produce | src/agents/coder_agent.py:65-69 | existing code is refactored, otherwise a template is generated; the code is never empty |
| Coder.JavaGenerationHint | src/agents/coder_agent.py:192-254 | generated Java code always draws the logging hint, and no other issue |
| Researcher.Slug | src/agents/researcher_agent.py:98 | the URL slug has the query's length, `_` at every position where the query has a space, and every other character unchanged |
| Researcher.BaseSourcesSorted | src/agents/researcher_agent.py:95-129 | the canned sources are already in strictly descending relevance, so sorting leaves them in place |
| Researcher.GatherSources | src/agents/researcher_agent.py:83-130 | the sources are a prefix of the canned list, `max_sources` of them (all five when more are asked), in strictly descending relevance |
| Researcher.GatherKeepsBest | src/agents/researcher_agent.py:128-130 | no source left out is more relevant than one kept |
| Researcher.Fixed2 | src/agents/researcher_agent.py:147 | `:.2f` of a relevance: the whole part, a point and exactly two digits |
| Researcher.ExtractFindings | src/agents/researcher_agent.py:132-156 | one finding per source, numbered from 1, then one finding about the query, cut to 30 characters when the query is longer than 20 |
| Researcher.SummaryLines | src/agents/researcher_agent.py:158-185 | the loop builds exactly the lines `SummaryText` gives |
| Researcher.Bullets | src/agents/researcher_agent.py:179-180 | one bullet line per finding, in order |
| Researcher.SummaryTextShape | src/agents/researcher_agent.py:158-185 | the header, the number of findings, the context when given, "Key findings:", and a count of the rest when there are more than three findings |
| Researcher.SummaryTextFindings | src/agents/researcher_agent.py:178-180 | the first three findings (or all, when fewer) follow the "Key findings:" line, in order |
| Researcher.Confidence | src/agents/researcher_agent.py:69 | the confidence lies in [0.5, 1.0] and is 1.0 exactly from two findings on |
| Researcher.Run | src/agents/researcher_agent.py:27-81 | an empty query raises ValueError; otherwise the sources are the gathered ones (three by default), the depth is their number, the findings are one per source numbered from 1 and then the query finding, the summary is the newline join of `SummaryText`, and the confidence is 1.0 exactly when some source was kept |
| Summarizer.PointCap | src/agents/summarizer_agent.py:100-101 | three key points for "concise", seven for "detailed", five for any other style |
| Summarizer.MainIdea | src/agents/summarizer_agent.py:108-110 | the main idea holds no full stop and is stripped |
| Summarizer.Candidates | src/agents/summarizer_agent.py:103-112 | at most one key point per input |
| Summarizer.CandidatesSound | src/agents/summarizer_agent.py:103-112 | every key point is the main idea of some input, longer than ten characters, labelled with that input's position from 1 |
| Summarizer.CandidatesComplete | src/agents/summarizer_agent.py:103-112 | every input whose main idea is longer than ten characters gives its key point |
| Summarizer.AllPoints | src/agents/summarizer_agent.py:103-112 | one labelled main idea per input, at the input's position, labelled from 1 |
| Summarizer.CandidatesInOrder | src/agents/summarizer_agent.py:103-112 | the key points keep input order: they are a subsequence of every input's labelled main idea |
| Summarizer.ExtractKeyPoints | src/agents/summarizer_agent.py:87-122 | the loop and cap produce exactly `KeyPoints` |
| Summarizer.KeyPoints | src/agents/summarizer_agent.py:87-122 | the first candidates up to the style's cap, in order, then the synthesis point exactly when there is more than one input |
| Summarizer.Header | src/agents/summarizer_agent.py:141-149 | the executive and detailed titles are underlined with 40 `=` or `-`, any other style has a single title line |
| Summarizer.NumberPoints | src/agents/summarizer_agent.py:155-157 | the loop produces exactly `Numbered` |
| Summarizer.Numbered | src/agents/summarizer_agent.py:155-157 | at most five key points, numbered from 1 in order |
| Summarizer.SummaryParts | src/agents/summarizer_agent.py:139-163 | the parts are `Parts`: the header, the number of inputs, "Key Findings:", at most five numbered points, and the synthesis insight, in that order |
| Summarizer.SynthesizeSummary | src/agents/summarizer_agent.py:124-173 | the summary is `Summary`, the joined parts capped; never longer than `max_length` plus the three dots |
| Summarizer.Truncate | src/agents/summarizer_agent.py:168-170 | a summary within the limit is unchanged; a longer one keeps its first `max_length` characters and gains "..." |
| Summarizer.ContextConclusion | src/agents/summarizer_agent.py:201-208 | at most one context conclusion: technical before business before research, none for an empty context |
| Summarizer.Drawn | src/agents/summarizer_agent.py:188-208 | the count conclusion iff there are key points, the multi-source one iff a point mentions "source", the common-themes one iff a point mentions "common", and the context's |
| Summarizer.DrawnInOrder | src/agents/summarizer_agent.py:188-208 | the drawn conclusions keep the order of the checks: count, multi-source, common themes, context |
| Summarizer.ClosedInOrder | src/agents/summarizer_agent.py:210-214 | the unified conclusion in place of nothing, then the closing one, keep that order |
| Summarizer.Choose | src/agents/summarizer_agent.py:188-214 | the unified-perspective conclusion exactly when nothing else applies, the closing recommendation always last and only there, and everything in the order of the checks |
| Summarizer.Conclusions | src/agents/summarizer_agent.py:175-217 | the closing recommendation is last; each other conclusion is present exactly when its condition on the key points or the context holds, in the order of the checks |
| Summarizer.Texts | src/agents/summarizer_agent.py:186-214 | one text per conclusion, in order |
| Summarizer.ConclusionTexts | src/agents/summarizer_agent.py:175-217 | at least two conclusions, the last the closing recommendation |
| Summarizer.StyleDescription | src/agents/summarizer_agent.py:241-257 | an unknown style is described as "Standard summary" |
| Summarizer.ValidateInputs | src/agents/summarizer_agent.py:219-239 | the inputs are valid exactly when there is at least one |
| Summarizer.Run | src/agents/summarizer_agent.py:27-85 | no inputs raise ValueError; otherwise topic and style take their defaults, the source count is the number of inputs, the key points are `KeyPoints` of the inputs and style, the summary is `Summary` of them with the limit (500 by default), the word count counts the summary's words, the default summary is at most 503 characters, and the conclusions follow from the key points and context |
| Critic.BaseScores | src/agents/critic_agent.py:99-119 | accuracy 0.85, consistency 0.90 and structure 0.82 are fixed; completeness loses 0.15 for content under 50 characters and 0.20 for TODO/FIXME; clarity loses 0.10 for content over 5000 characters and 0.15 for unclear passages |
| Critic.Shift | src/agents/critic_agent.py:122-127 | every dimension moved by the same amount stays between 0 and 1 |
| Critic.Adjust | src/agents/critic_agent.py:121-127 | strict review lowers every score by 0.05 (not below 0), lenient raises it by 0.05 (not above 1), any other level keeps it |
| Critic.Quality | src/agents/critic_agent.py:88-130 | every score lies between 0 and 1 |
| Critic.StrictnessMonotone | src/agents/critic_agent.py:121-127 | strict review never scores a dimension above balanced review, and lenient never below it |
| Critic.Found | src/agents/critic_agent.py:145-175 | a kind of issue is found exactly when its check fires, at most four, in the order of the checks |
| Critic.KindListed | src/agents/critic_agent.py:145-175 | every kind of issue has its check |
| Critic.Issues | src/agents/critic_agent.py:132-178 | at most four issues, each with the severity of its kind: unfinished work is an error only under strict review |
| Critic.IssueKindsDetected | src/agents/critic_agent.py:145-175 | an issue of a kind is reported exactly when its check fires |
| Critic.SeveritiesKeepKinds | src/agents/critic_agent.py:145-175 | attaching severities keeps exactly the kinds found |
| Critic.WithSeverities | src/agents/critic_agent.py:147-175 | one issue per kind found, in order, each with its kind's severity |
| Critic.CountSeverityZero | src/agents/critic_agent.py:245-246 | the count of a severity is zero exactly when no issue has it |
| Critic.Suggestions | src/agents/critic_agent.py:195-222 | a suggestion is made exactly when its condition holds (a score below 0.85, an issue of its kind, or "code" or "report" in the context), in the order of the checks |
| Critic.FallbackExactly | src/agents/critic_agent.py:224-226 | no suggestion is made exactly when no condition holds, which is when the fallback is given |
| Critic.SuggestionListed | src/agents/critic_agent.py:195-222 | every suggestion has its check |
| Critic.SuggestionTexts | src/agents/critic_agent.py:195-222 | one text per suggestion, in order |
| Critic.Thresholds | src/agents/critic_agent.py:248-257 | approval and rejection thresholds are 0.85/0.70 strict, 0.70/0.50 lenient, 0.80/0.60 otherwise |
| Critic.Approval | src/agents/critic_agent.py:231-270 | any error rejects; approved iff no error, a mean at the approval threshold and at most one warning; needs revision iff no error, not approved and a mean at the rejection threshold |
| Critic.Preview | src/agents/critic_agent.py:74 | content up to 100 characters is shown whole, longer content as its first 100 characters and "..." |
| Critic.Run | src/agents/critic_agent.py:27-86 | empty content raises ValueError; otherwise, with "balanced" as the default strictness, the preview, scores, issues and status are `Preview`, `Quality`, `Issues` and `Approval` of the content, the suggestions are the applicable ones or else the fallback alone, the scores lie between 0 and 1, the overall score is their mean, and an error means rejection |
| Critic.StrictMarkersRejected | src/agents/critic_agent.py:154-261 | TODO/FIXME markers always get content rejected under strict review |
| Critic.CleanContentStatus | src/agents/critic_agent.py:99-267 | content of ordinary length with no checked defect has no issue, is approved under balanced and lenient review and needs revision under strict review |
| Analyst.AssessQuality | src/agents/analyst_agent.py:84-117 | the quality is the one `QualityOf` gives: always valid with consistency 1.0 and the data's length as size; completeness is 0.95 exactly for a non-empty dict, 0.90 exactly for a list of more than 100 items, 0.85 exactly for other data and 1.0 otherwise; the type is "dict", "list" or "other" |
| Analyst.Make | src/agents/analyst_agent.py:140-198 | a pattern built for a kind has that kind |
| Analyst.MakeAll | src/agents/analyst_agent.py:119-160 | one pattern per kind, in the order of the kinds |
| Analyst.PatternsFound | src/agents/analyst_agent.py:119-198 | key distribution exactly for dicts, large dataset exactly for dicts of more than 10 keys, sequence pattern exactly for lists, high cardinality exactly for lists of more than 50 items, and the trend, outlier and correlation patterns exactly for the analysis types "trend", "anomaly" and "correlation"; never more than three, at least one for dict and list data |
| Analyst.PatternCount | src/agents/analyst_agent.py:119-160 | at most three patterns, and at least one for dict or list data |
| Analyst.TypePatternLast | src/agents/analyst_agent.py:140-157 | for a special analysis type the last pattern is that type's pattern |
| Analyst.IdentifyPatterns | src/agents/analyst_agent.py:119-160 | returns the data patterns followed by the type pattern, as specified by `Patterns` |
| Analyst.DataPatterns | src/agents/analyst_agent.py:162-198 | returns the patterns of the dict or list shape and size, in order |
| Analyst.MakeAllAppend | src/agents/analyst_agent.py:119-160 | building the patterns of two runs of kinds is building each and concatenating |
| Analyst.PatternLines | src/agents/analyst_agent.py:215-217 | one insight line per pattern, in order |
| Analyst.TypeInsights | src/agents/analyst_agent.py:219-225 | one insight exactly when the analysis type is "trend", "anomaly" or "correlation", none otherwise |
| Analyst.SizeInsights | src/agents/analyst_agent.py:227-228 | one size insight exactly when the data is a non-empty dict or list |
| Analyst.Insights | src/agents/analyst_agent.py:200-231 | between one insight per pattern and two more than that |
| Analyst.InsightsFollowPatterns | src/agents/analyst_agent.py:215-217 | the insights begin with the patterns' lines, in order |
| Analyst.ExtractInsights | src/agents/analyst_agent.py:200-231 | returns the pattern lines, then the type insight, then the size insight, as specified by `Insights` |
| Analyst.DescribePatterns | src/agents/analyst_agent.py:215-217 | the loop produces exactly the pattern lines |
| Analyst.PatternLinesSnoc | src/agents/analyst_agent.py:215-217 | appending a pattern appends its line |
| Analyst.RecommendationTexts | src/agents/analyst_agent.py:233-264 | one text per recommendation, in order |
| Analyst.RecommendationsEnd | src/agents/analyst_agent.py:233-264 | the methodology advice always comes, last and only there; the review advice comes first exactly when there are insights |
| Analyst.RecommendationsChosen | src/agents/analyst_agent.py:233-264 | review exactly when there are insights, forecasting exactly when an insight mentions "trend", outlier investigation exactly when the outlier test holds, statistical tests exactly when an insight mentions "correlation", context exactly when a context is given |
| Analyst.AdviceChosen | src/agents/analyst_agent.py:245-258 | the conditional recommendations: each present exactly when its condition holds, the review advice first when present, never the methodology advice |
| Analyst.GenerateRecommendations | src/agents/analyst_agent.py:233-264 | as written: the recommendations `Recommendations` gives, with the outlier advice decided by "anomaly" occurring in an insight |
| Analyst.AbsentChar | src/agents/analyst_agent.py:246-256 | a text lacking one character of a word does not contain the word |
| Analyst.LineMentionsType | src/agents/analyst_agent.py:215-217 | a word in a pattern's type name appears in that pattern's insight line |
| Analyst.TypeLineInInsights | src/agents/analyst_agent.py:140-157 | the type pattern's line, and so any word of its type name, is among the insights |
| Analyst.InsightOfPattern | src/agents/analyst_agent.py:215-217 | a word in any pattern's line is mentioned by the insights |
| Analyst.TrendRecommended | src/agents/analyst_agent.py:249-250 | a trend analysis always mentions "trend", so forecasting is always recommended |
| Analyst.CorrelationRecommended | src/agents/analyst_agent.py:255-256 | a correlation analysis always mentions "correlation", so statistical tests are always recommended |
| Analyst.AnomalyRecommended | src/agents/analyst_agent.py:146-149 | the insights of every anomaly analysis mention "outlier" (through the outlier pattern's type name) |
| Analyst.AnomalyCheckMisses | src/agents/analyst_agent.py:252-253 | as written, for every data and every analysis type no insight contains "anomaly", so the outlier advice is never given, although every anomaly analysis mentions outliers |
| Analyst.IntendedOutlierAdvice | src/agents/analyst_agent.py:252-253 | with the intended test (the insights mention "outlier"), every anomaly analysis recommends investigating outliers |
| Analyst.AnomalyNeverMentioned | src/agents/analyst_agent.py:200-231 | no insight of any analysis contains "anomaly" |
| Analyst.LacksAnoNoAnomaly | src/agents/analyst_agent.py:252 | a text in which no "ano" occurs does not contain "anomaly" |
| Analyst.LacksAnoAppend | src/agents/analyst_agent.py:252 | joining two texts without "ano" creates none when the seam cannot start one |
| Analyst.LacksAnoMissing | src/agents/analyst_agent.py:252 | a text missing one of the letters a, n, o has no "ano" |
| Analyst.NumeralLacksAno | src/agents/analyst_agent.py:168 | a decimal numeral has no "ano" |
| Analyst.PatternLineNoAnomaly | src/agents/analyst_agent.py:215-217 | no pattern line contains "anomaly", whatever its kind and size |
| Analyst.KeyLineNoAnomaly | src/agents/analyst_agent.py:166-170 | the key-distribution line contains no "anomaly" for any number of keys |
| Analyst.CardinalityLineNoAnomaly | src/agents/analyst_agent.py:191-196 | the high-cardinality line contains no "anomaly" |
| Analyst.SequenceLineNoAnomaly | src/agents/analyst_agent.py:185-189 | the sequence line contains no "anomaly" for any length |
| Analyst.FixedLineLacksY | src/agents/analyst_agent.py:140-157 | the large-dataset, trend, outlier and correlation lines contain no "anomaly" |
| Analyst.LineLacksY | src/agents/analyst_agent.py:215-217 | a pattern line whose type and description lack a 'y' contains no "anomaly" |
| Analyst.CorrelationLineLacksY | src/agents/analyst_agent.py:152-157 | the correlation pattern's type and description contain no 'y' |
| Analyst.TypeInsightNoAnomaly | src/agents/analyst_agent.py:219-225 | no type insight contains "anomaly" |
| Analyst.TrendInsightNoAnomaly | src/agents/analyst_agent.py:221 | the trend insight contains no "anomaly" |
| Analyst.OutlierInsightNoAnomaly | src/agents/analyst_agent.py:223 | the outlier insight contains no "anomaly" |
| Analyst.CorrelationHeadLacksAno | src/agents/analyst_agent.py:225 | the opening words of the correlation insight have no "ano" |
| Analyst.CorrelationInsightLacksAno | src/agents/analyst_agent.py:225 | the correlation insight has no "ano" |
| Analyst.SizeInsightNoAnomaly | src/agents/analyst_agent.py:227-228 | the size insight contains no "anomaly" for any size |
| Analyst.Confidence | src/agents/analyst_agent.py:266-294 | the confidence lies between 0.5 and 1.0, and at most 0.95 with at most three patterns and completeness at most 1 |
| Analyst.ConfidenceMonotone | src/agents/analyst_agent.py:266-294 | more patterns, more insights or more complete data never lower the confidence |
| Analyst.DescribedBounds | src/agents/analyst_agent.py:27-82 | an analysis of dict or list data finds a pattern, has at least as many insights as patterns, and its confidence lies between 0.5 and 0.95 |
| Analyst.DescribedEnd | src/agents/analyst_agent.py:233-264 | the recommendation texts of an analysis end with the methodology advice |
| Analyst.RecommendationLines | src/agents/analyst_agent.py:233-264 | the texts of the recommendations drawn, as written, from the insights and context |
| Analyst.Findings | src/agents/analyst_agent.py:65-69 | the quality is `QualityOf(data)`; the patterns and insights are those of the data and analysis type |
| Analyst.Run | src/agents/analyst_agent.py:27-82 | fails with ValueError exactly when no data is given; otherwise the analysis type defaults to "general", and the quality, patterns, insights, confidence and recommendation texts are those the specification functions give for the data, type and context |

## Left out

- Concurrency: the asyncio tasks, `to_thread`, `wait_for` and cancellation in `MasterAgent.run` are replaced by an oracle `out(round, name)`. For each round and sub-agent it says whether the handler returned (with its value and latency), raised (with the exception type and message) or was still running when the timeout fired. Completion order is not modelled: agent messages are posted in selection order.
- Master.Run: its precondition says that without an active timeout no handler is reported unfinished. This is an assumption about the oracle: without `wait_for` the original awaits every handler.
- Wall-clock latencies and durations are inputs, not measured.
- Registry discovery through `pkgutil`/`inspect` and agent construction are left out. The registry is an ordered sequence of names.
- Regular expressions: each redaction rule's pattern is kept as text, and its substitution is the parameter `sub(rule, text)`.
- Number rendering is a parameter: `show` for `str(value)` and Prometheus sample values. The duration's `{:.6f}` text is an input, and `float(...)` of a timeout string is the parameter `parseFloat`.
- Floating point: scores, confidences, thresholds and significances are exact `real` values or scaled integers. Where a Python float lands exactly on a threshold, its rounding could decide the other way; the model makes no claim about that.
- Reading environment variables: the model takes the two variables' values as optional strings.
- File I/O: the exporter's directory creation and file write, the index's JSON file, `rglob` over the source directory and the encoding fallback of `_read_text_file` are left out. The index is built from in-memory (file name, text) pairs, and queries rank an in-memory list of chunk records.
- JSON serialisation (`json.dumps`/`json.loads`, pydantic `model_dump`) is modelled as the JSON-like value type. Byte-level formatting is not modelled.
- Unicode: lower-casing, capitalisation and the token character class cover ASCII and the Polish letters only. Whitespace (for stripping and splitting) is the ASCII whitespace Python recognises, including the separators 0x1C to 0x1F; non-ASCII whitespace such as U+00A0 is not treated as whitespace.
- Python's `int` also accepts `_` digit separators and non-ASCII digits; the model's integer parsing accepts ASCII digits only.
- Configuration parameters of a type the source does not expect (for example a non-string `language`) are not modelled. `rounds` is the exception, because its coercion is explicit.
- Parameters that are only logged are not modelled: the critic's `criteria` and `confidence_threshold`, and the analyst's `min_confidence`.
- Analyst data is reduced to its Python type and its length, because the agent reads nothing else.
- Analyst recommendations test whether a word is `in str(insights)`. The model tests whether one of the insights contains the word, which is the same for the plain words it looks for.
- Message timestamps are not modelled: the default is evaluated once, at class definition.
- Logging calls are not modelled.
- The voice module, the PDF extraction script, the command-line entry point and the hello, slow and config-echo agents are not part of this model.
- Critic.Quality: its contract states only the range of the scores. Their values are stated by `Critic.BaseScores` and `Critic.Adjust`.
- I18n.FormatOrRaw: only plain `{name}` fields and the `{{`/`}}` escapes are modelled. A field with a conversion (`{date!r}`), a format spec (`{date:>12}`), an attribute (`{date.year}`) or an index (`{items[0]}`) is read as a field whose name is the whole text between the braces. That name is never among the arguments, so the model returns the raw template where `str.format` would format the field. The catalogue's own templates use only plain fields.
- Master.Run: a sub-agent name requested twice is selected twice, and the source starts two tasks for it, which write the same entry of the results and latency dictionaries. The oracle is keyed by round and name, so both runs share one outcome; two differing outcomes for one name are not modelled.

## Findings

| source | as written | input that shows it | evidently intended | confidence | as-written member | corrected member |
|---|---|---|---|---|---|---|
| src/agents/analyst_agent.py:252-253 | the outlier recommendation is given when `"anomaly"` occurs in `str(insights)` | any data with `analysis_type` "anomaly", e.g. data that is neither a dict nor a list. No insight of any analysis contains "anomaly": the outlier pattern's line says "outlier_detection" and "Anomalous values identified" (which, lower-cased, reads "anomalo…" and differs from "anomaly" at its seventh letter, 'o' against 'y'), and the outlier insight says "Outliers". So the advice is never given. | an anomaly analysis, whose insights speak of outliers, recommends investigating them | high; not executed | Analyst.AnomalyCheckMisses | Analyst.IntendedOutlierAdvice |
