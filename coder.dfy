// The rule-based coding agent: it normalises the language, generates a
// template for the task (or wraps the existing code in a refactoring
// header), and validates the result with a few per-language checks.

module Coder {
  import opened Common

  const SupportedLanguages: seq<string> := ["python", "javascript", "java", "csharp", "go", "rust"]

  /** The language actually used: lower-cased when supported, "python"
      otherwise. */
  function NormalizeLanguage(language: string): (r: string)
    ensures r in SupportedLanguages
    ensures Lower(language) in SupportedLanguages ==> r == Lower(language)
    ensures Lower(language) !in SupportedLanguages ==> r == "python"
  {
    var lang := Lower(language);
    if lang !in SupportedLanguages then "python" else lang
  }

  // Names derived from the task.

  /** The Python function name: spaces become underscores, then the
      whole is lower-cased. */
  function PythonName(task: string): (r: string)
    ensures |r| == |task|
    ensures forall k :: 0 <= k < |r| ==> r[k] != ' ' && !IsAsciiUpper(r[k]) && !IsPolishUpper(r[k])
    ensures forall k :: 0 <= k < |r| ==> r[k] == LowerChar(if task[k] == ' ' then '_' else task[k])
  {
    var r := Lower(ReplaceChar(task, ' ', '_'));
    assert forall k :: 0 <= k < |r| ==> r[k] != ' ' && !IsAsciiUpper(r[k]) && !IsPolishUpper(r[k]) by {
      forall k | 0 <= k < |r| ensures r[k] != ' ' && !IsAsciiUpper(r[k]) && !IsPolishUpper(r[k]) {
        var c := ReplaceChar(task, ' ', '_')[k];
        assert c != ' ';
        assert r[k] == LowerChar(c);
      }
    }
    r
  }

  /** The words, each capitalised, run together. */
  function CapitalizeAll(words: seq<string>): string
    decreases |words|
  {
    if words == [] then "" else Capitalize(words[0]) + CapitalizeAll(words[1..])
  }

  /** The Java class name: every word of the task capitalised. */
  function JavaClassName(task: string): string
  {
    CapitalizeAll(Words(task))
  }

  /** The JavaScript function name: the first word lower-cased, the rest
      capitalised. */
  function JavaScriptName(task: string): string
  {
    var words := Words(task);
    if words == [] then "" else Lower(words[0]) + CapitalizeAll(words[1..])
  }

  /** The JavaScript name is the Java class name with its first letter
      lower-cased instead of upper-cased: camelCase against PascalCase. */
  lemma CamelAndPascal(task: string)
    ensures |JavaScriptName(task)| == |JavaClassName(task)|
    ensures Words(task) == [] <==> JavaClassName(task) == []
    ensures Words(task) != [] ==>
      JavaScriptName(task)[0] == LowerChar(Words(task)[0][0]) &&
      JavaClassName(task)[0] == UpperChar(Words(task)[0][0]) &&
      JavaScriptName(task)[1..] == JavaClassName(task)[1..]
  {
    var words := Words(task);
    if words != [] {
      FirstWordCase(words[0], CapitalizeAll(words[1..]));
    }
  }

  /** The first word spelt both ways, followed by the same rest. */
  lemma FirstWordCase(w: string, rest: string)
    requires w != []
    ensures |Lower(w) + rest| == |Capitalize(w) + rest| > 0
    ensures (Lower(w) + rest)[0] == LowerChar(w[0])
    ensures (Capitalize(w) + rest)[0] == UpperChar(w[0])
    ensures (Lower(w) + rest)[1..] == (Capitalize(w) + rest)[1..]
  {
    LowerTail(w);
    SameTail(Lower(w), Capitalize(w), rest);
  }

  lemma LowerTail(w: string)
    requires w != []
    ensures Lower(w)[1..] == Capitalize(w)[1..]
  {
    assert Lower(w) == [LowerChar(w[0])] + Lower(w[1..]);
  }

  lemma SameTail(a: string, b: string, rest: string)
    requires |a| == |b| > 0 && a[1..] == b[1..]
    ensures (a + rest)[1..] == (b + rest)[1..]
  {
    assert (a + rest)[1..] == a[1..] + rest;
    assert (b + rest)[1..] == b[1..] + rest;
  }

  // Templates. Each is a list of lines joined by newlines; the last line is
  // empty, so the code ends with a newline.

  /** A line that contains `sub` makes the joined text contain it. */
  lemma {:induction false} JoinContains(lines: seq<string>, sep: string, i: nat, sub: string)
    requires i < |lines| && Contains(lines[i], sub)
    ensures Contains(Join(lines, sep), sub)
    decreases |lines|
  {
    if |lines| > 1 {
      var rest := Join(lines[1..], sep);
      assert Join(lines, sep) == lines[0] + (sep + rest);
      if i == 0 {
        ContainsPrefix(lines[0], sep + rest, sub);
      } else {
        JoinContains(lines[1..], sep, i - 1, sub);
        ContainsAppend(sep, rest, sub);
        ContainsAppend(lines[0], sep + rest, sub);
      }
    }
  }

  /** The joined text starts with the first line. */
  lemma JoinStarts(lines: seq<string>, sep: string)
    requires lines != []
    ensures StartsWith(Join(lines, sep), lines[0])
  {
    if |lines| > 1 {
      assert Join(lines, sep) == lines[0] + (sep + Join(lines[1..], sep));
    }
  }

  function PythonLines(task: string): seq<string>
  {
    var name := PythonName(task);
    ["def " + name + "():",
     "    \"\"\"",
     "    " + task,
     "    ",
     "    Returns:",
     "        Result of the operation.",
     "    \"\"\"",
     "    # Implementation here",
     "    result = None",
     "    return result",
     "",
     "",
     "if __name__ == \"__main__\":",
     "    result = " + name + "()",
     "    print(f\"Task result: {result}\")",
     ""]
  }

  function PythonTemplate(task: string): string
  {
    Join(PythonLines(task), "\n")
  }

  function JavaScriptLines(task: string): seq<string>
  {
    var name := JavaScriptName(task);
    ["function " + name + "() {",
     "    /**",
     "     * " + task,
     "     * @returns {*} Result of the operation.",
     "     */",
     "    let result = null;",
     "    // Implementation here",
     "    return result;",
     "}",
     "",
     "// Execute function",
     "const result = " + name + "();",
     "console.log(\"Task result:\", result);",
     ""]
  }

  function JavaScriptTemplate(task: string): string
  {
    Join(JavaScriptLines(task), "\n")
  }

  const PrintLn := "System.out.println"

  /** The line of the Java template that prints the result. */
  const JavaPrintLine := "        " + PrintLn + "(\"Task result: \" + result);"

  function JavaLines(task: string): seq<string>
  {
    ["public class " + JavaClassName(task) + " {",
     "    /**",
     "     * " + task,
     "     * @return Result of the operation.",
     "     */",
     "    public static Object execute() {",
     "        Object result = null;",
     "        // Implementation here",
     "        return result;",
     "    }",
     "",
     "    public static void main(String[] args) {",
     "        Object result = execute();",
     JavaPrintLine,
     "    }",
     "}",
     ""]
  }

  function JavaTemplate(task: string): string
  {
    Join(JavaLines(task), "\n")
  }

  /** Each template opens with the declaration of the name derived from
      the task. */
  lemma TemplateHeads(task: string)
    ensures StartsWith(PythonTemplate(task), "def " + PythonName(task) + "():")
    ensures StartsWith(JavaScriptTemplate(task), "function " + JavaScriptName(task) + "() {")
    ensures StartsWith(JavaTemplate(task), "public class " + JavaClassName(task) + " {")
  {
    JoinStarts(PythonLines(task), "\n");
    JoinStarts(JavaScriptLines(task), "\n");
    JoinStarts(JavaLines(task), "\n");
  }

  /** The Java template prints with `System.out.println`. */
  lemma JavaTemplatePrints(task: string)
    ensures Contains(JavaTemplate(task), PrintLn)
  {
    var pad := "        ";
    var tail := "(\"Task result: \" + result);";
    assert JavaPrintLine == pad + (PrintLn + tail);
    assert PrintLn <= PrintLn + tail;
    ContainsAppend(pad, PrintLn + tail, PrintLn);
    JoinContains(JavaLines(task), "\n", 13, PrintLn);
  }

  /** `_generate_code`: the template for the language, the Python one for
      languages without a template of their own. */
  function Generate(task: string, language: string): (r: (string, string))
    ensures language == "javascript" ==> r.0 == JavaScriptTemplate(task)
    ensures language == "java" ==> r.0 == JavaTemplate(task)
    ensures language != "javascript" && language != "java" ==> r.0 == PythonTemplate(task)
    ensures r.0 != []
    ensures r.1 == "Generated " + language + " code to: " + task
  {
    TemplateHeads(task);
    var code := if language == "javascript" then JavaScriptTemplate(task)
                else if language == "java" then JavaTemplate(task)
                else PythonTemplate(task);
    (code, "Generated " + language + " code to: " + task)
  }

  function RefactorHeader(code: string, task: string): string
  {
    "# Refactored: " + task + "\n# Original lines: " + IntToString(LineCount(code)) + "\n\n"
  }

  /** `_refactor_code`: a two-line comment header, a blank line, then the
      code unchanged; so the result ends with the code and is longer. */
  function Refactor(code: string, task: string, language: string): (r: (string, string))
    ensures r.0 == RefactorHeader(code, task) + code
    ensures |r.0| > |code| && r.0[|r.0| - |code|..] == code
    ensures r.1 == "Refactored " + language + " code to improve: " + task
  {
    var header := RefactorHeader(code, task);
    var refactored := header + code;
    assert refactored[|header|..] == code;
    (refactored, "Refactored " + language + " code to improve: " + task)
  }

  // Validation.

  datatype Severity = Error | Warning | Info

  datatype Issue = Issue(severity: Severity, line: Option<int>, message: string)

  const EmptyCode := Issue(Error, Some(1), "Empty code")
  const MisplacedImports := Issue(Warning, None, "Imports should be at the top of the file")
  const LongCode := Issue(Info, None, "Consider breaking this into smaller functions")
  const VarDeclaration := Issue(Warning, None, "Use 'let' or 'const' instead of 'var' for better scoping")
  const PrintLogging := Issue(Info, None, "Consider using a logging framework for production code")

  /** Some issue of the list has severity `s`. */
  predicate HasSeverity(issues: seq<Issue>, s: Severity)
    decreases |issues|
  {
    issues != [] && (issues[0].severity == s || HasSeverity(issues[1..], s))
  }

  lemma {:induction false} HasSeverityAppend(a: seq<Issue>, b: seq<Issue>, s: Severity)
    ensures HasSeverity(a + b, s) <==> HasSeverity(a, s) || HasSeverity(b, s)
    decreases |a|
  {
    if a == [] {
      assert a + b == b;
    } else {
      assert (a + b)[1..] == a[1..] + b;
      HasSeverityAppend(a[1..], b, s);
    }
  }

  /** The recursive definition agrees with "some index holds an issue of
      that severity". */
  lemma {:induction false} HasSeverityAt(issues: seq<Issue>, s: Severity)
    ensures HasSeverity(issues, s) <==> exists k :: 0 <= k < |issues| && issues[k].severity == s
    decreases |issues|
  {
    if issues != [] {
      HasSeverityAt(issues[1..], s);
      if HasSeverity(issues[1..], s) {
        var k :| 0 <= k < |issues[1..]| && issues[1..][k].severity == s;
        assert issues[k + 1].severity == s;
      }
      if exists k :: 0 <= k < |issues| && issues[k].severity == s {
        var k :| 0 <= k < |issues| && issues[k].severity == s;
        if k > 0 {
          assert issues[1..][k - 1].severity == s;
        }
      }
    }
  }

  /** "import" occurs but the code does not start with an import. */
  predicate ImportNotAtTop(code: string)
  {
    Contains(code, "import") && !StartsWith(code, "import") && !StartsWith(code, "from")
  }

  /** The issues `_validate_python` reports, in order. */
  function PythonIssues(code: string): seq<Issue>
  {
    (if ImportNotAtTop(code) then [MisplacedImports] else []) + (if |code| > 1000 then [LongCode] else [])
  }

  /** The issues `_validate_code` reports for `code` in `language`, in order. */
  function CodeIssues(code: string, language: string): seq<Issue>
  {
    (if code == [] then [EmptyCode] else []) +
    (if language == "python" then PythonIssues(code)
     else if language == "javascript" then (if Contains(code, "var ") then [VarDeclaration] else [])
     else if language == "java" then (if Contains(code, PrintLn) then [PrintLogging] else [])
     else [])
  }

  /** `_validate_python`. */
  method ValidatePython(code: string) returns (issues: seq<Issue>)
    ensures issues == PythonIssues(code)
    ensures !HasSeverity(issues, Error)
    ensures HasSeverity(issues, Warning) <==> ImportNotAtTop(code)
    ensures HasSeverity(issues, Info) <==> |code| > 1000
    ensures |issues| == (if ImportNotAtTop(code) then 1 else 0) + (if |code| > 1000 then 1 else 0)
  {
    issues := [];
    if Contains(code, "import") && !StartsWith(code, "import") && !StartsWith(code, "from") {
      issues := issues + [MisplacedImports];
    }
    if |code| > 1000 {
      issues := issues + [LongCode];
    }
    HasSeverityAt(issues, Error);
  }

  /** `_validate_javascript`. */
  method ValidateJavaScript(code: string) returns (issues: seq<Issue>)
    ensures issues == if Contains(code, "var ") then [VarDeclaration] else []
    ensures !HasSeverity(issues, Error) && !HasSeverity(issues, Info)
    ensures HasSeverity(issues, Warning) <==> Contains(code, "var ")
    ensures |issues| <= 1
  {
    issues := [];
    if Contains(code, "var ") {
      issues := issues + [VarDeclaration];
    }
  }

  /** `_validate_java`. */
  method ValidateJava(code: string) returns (issues: seq<Issue>)
    ensures issues == if Contains(code, PrintLn) then [PrintLogging] else []
    ensures !HasSeverity(issues, Error) && !HasSeverity(issues, Warning)
    ensures HasSeverity(issues, Info) <==> Contains(code, PrintLn)
    ensures |issues| <= 1
  {
    issues := [];
    if Contains(code, PrintLn) {
      issues := issues + [PrintLogging];
    }
  }

  /** `_validate_code`: an error exactly for code without lines, then the
      checks of the language; languages without checks add nothing. */
  method ValidateCode(code: string, language: string) returns (issues: seq<Issue>)
    ensures issues == CodeIssues(code, language)
    ensures HasSeverity(issues, Error) <==> code == []
    ensures code == [] ==> issues != [] && issues[0] == EmptyCode
    ensures HasSeverity(issues, Warning) <==>
      (language == "python" && ImportNotAtTop(code)) || (language == "javascript" && Contains(code, "var "))
    ensures HasSeverity(issues, Info) <==>
      (language == "python" && |code| > 1000) || (language == "java" && Contains(code, PrintLn))
    ensures language != "python" && language != "javascript" && language != "java" ==>
      issues == if code == [] then [EmptyCode] else []
  {
    issues := [];
    LineCountZero(code);
    if LineCount(code) == 0 {
      issues := issues + [EmptyCode];
    }
    ghost var first := issues;
    var extra: seq<Issue> := [];
    if language == "python" {
      extra := ValidatePython(code);
    } else if language == "javascript" {
      extra := ValidateJavaScript(code);
    } else if language == "java" {
      extra := ValidateJava(code);
    }
    issues := issues + extra;
    HasSeverityAppend(first, extra, Error);
    HasSeverityAppend(first, extra, Warning);
    HasSeverityAppend(first, extra, Info);
  }

  datatype CoderResult = CoderResult(task: string, language: string, code: string, explanation: string,
                                     warnings: seq<Issue>, syntaxValid: bool)

  /** `CoderAgent.run`. An empty task raises `ValueError`. The language is
      always a supported one; existing code is kept at the end of the
      result; and since neither a template nor a refactoring is ever empty,
      the result is always syntactically valid. */
  method Run(task: string, language: string, code: string) returns (r: Result<CoderResult>)
    ensures r.Err? <==> task == []
    ensures r.Err? ==> r.kind == "ValueError"
    ensures r.Ok? ==> r.value.task == task && r.value.language == NormalizeLanguage(language)
    ensures r.Ok? ==> r.value.language in SupportedLanguages
    ensures r.Ok? && code != [] ==> r.value.code == RefactorHeader(code, task) + code
    ensures r.Ok? && code == [] ==> r.value.code == Generate(task, r.value.language).0
    ensures r.Ok? && code != [] ==> r.value.explanation == Refactor(code, task, r.value.language).1
    ensures r.Ok? && code == [] ==> r.value.explanation == Generate(task, r.value.language).1
    ensures r.Ok? ==> r.value.warnings == CodeIssues(r.value.code, r.value.language)
    ensures r.Ok? ==> r.value.syntaxValid && !HasSeverity(r.value.warnings, Error)
  {
    if task == [] {
      return Err("ValueError", "Coding task is required (provide 'task' in kwargs)");
    }
    var lang := Lower(language);
    if lang !in SupportedLanguages {
      lang := "python";
    }
    var out, explanation := Produce(task, lang, code);
    var warnings := ValidateCode(out, lang);
    var syntaxValid := |warnings| == 0 || forall k :: 0 <= k < |warnings| ==> warnings[k].severity != Error;
    HasSeverityAt(warnings, Error);
    r := Ok(CoderResult(task, lang, out, explanation, warnings, syntaxValid));
  }

  /** The refactoring of existing code, or else a generated template; never
      empty. */
  method Produce(task: string, lang: string, code: string) returns (out: string, explanation: string)
    ensures code != [] ==> (out, explanation) == Refactor(code, task, lang)
    ensures code == [] ==> (out, explanation) == Generate(task, lang)
    ensures out != []
  {
    if code != [] {
      var refactored := Refactor(code, task, lang);
      out, explanation := refactored.0, refactored.1;
    } else {
      var generated := Generate(task, lang);
      out, explanation := generated.0, generated.1;
    }
  }

  /** Generating Java code always draws the logging hint, and nothing
      else, because the Java template prints its result. */
  lemma JavaGenerationHint(task: string)
    ensures Contains(Generate(task, "java").0, PrintLn)
    ensures CodeIssues(Generate(task, "java").0, "java") == [PrintLogging]
  {
    JavaTemplatePrints(task);
  }
}
