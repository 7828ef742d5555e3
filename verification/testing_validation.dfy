/**
 * The testing and validation commands. Three generators send the selection (or
 * the whole document) with a fixed system prompt: unit tests and edge-case
 * tests come back as code, the untested/risky-logic analysis as a markdown
 * report. The static checks pick the command-line tools for the file's
 * extension, judge each tool's output, and summarise the verdicts.
 *
 * The tools' processes are abstract: `run` gives the standard output and error
 * each tool would print.
 */
module TestingValidation {
  import opened Wrappers
  import opened Text
  import opened Seqs
  import Settings
  import OpenAIClient
  import CodeGenerator
  import Document
  import opened Commands

  // ---------------------------------------------------------------------------
  // the three generators

  const UnitTestSystem: string :=
    "You are an expert at writing unit tests. Given code (or a selection), generate focused unit tests that:\n\n1. Cover the main behavior and public API.\n2. Use the project's test framework if detectable (e.g. Jest, Vitest, PHPUnit, pytest); otherwise choose the standard for the language.\n3. Follow the project's style (same language, naming, and structure as the rest of the codebase).\n4. Keep tests clear and maintainable; one logical assertion per test when practical.\n\nOutput only the test code in a single block, with minimal commentary. If the snippet is too small to test meaningfully, suggest a short test file structure and one example test."
  const EdgeCaseSystem: string :=
    "You are an expert at finding and testing edge cases. Given code (or a selection), generate test cases that cover:\n\n1. **Boundaries** – Empty input, null/undefined, zero, negative numbers, max length, empty arrays/strings.\n2. **Invalid input** – Wrong types, malformed data, missing required fields.\n3. **Edge behavior** – First/last element, single element, duplicates, whitespace-only strings.\n4. **Error paths** – Exceptions, error returns, validation failures.\n\nUse the project's test framework when obvious (Jest, PHPUnit, pytest, etc.). Output test code in a single block with brief comments per case. Keep it concise."
  const FlagRiskySystem: string :=
    "You are a QA-focused reviewer. Analyze the provided code and flag:\n\n1. **Untested or hard-to-test logic** – Complex conditionals, global state, side effects, no clear seams for mocking.\n2. **Risky patterns** – Unchecked null/undefined, missing error handling, silent failures, race conditions, resource leaks.\n3. **Missing edge-case handling** – No validation of inputs, no handling of empty/negative/overflow cases.\n4. **Fragile or opaque code** – Magic numbers, deep nesting, unclear invariants that could break under change.\n\nOutput a short markdown report: for each finding give severity (High/Medium/Low), location (e.g. \"line 12\"), what's risky, and a one-line recommendation. If nothing stands out, say \"No obvious untested or risky logic found.\" Keep it concise."

  /** The notice of these commands when no key is available. */
  const TestingNoKeyNotice: string := "SmartDevIDE: No API key. Set smartdevide.models.openai.apiKey."

  const RiskyReportTitle: string := "Untested / Risky Logic"

  datatype Generator = UnitTests | EdgeCases | FlagRisky
  {
    function System(): string {
      match this
      case UnitTests => UnitTestSystem
      case EdgeCases => EdgeCaseSystem
      case FlagRisky => FlagRiskySystem
    }

    /** The label of the code block in the user message. */
    function CodeLabel(): string {
      match this
      case UnitTests => "Code to test:"
      case EdgeCases => "Code to cover with edge cases:"
      case FlagRisky => "Code to analyze:"
    }

    /** The request closing the user message. */
    function Ask(): string {
      match this
      case UnitTests => "Generate unit tests for this code. Output only the test code."
      case EdgeCases => "Generate edge-case tests. Output only the test code."
      case FlagRisky => "Flag untested or risky logic. Output a short markdown report."
    }

    /** The reply's token budget. */
    function MaxTokens(): int {
      match this
      case UnitTests => 4096
      case EdgeCases => 4096
      case FlagRisky => 1024
    }

    /** The notice text when the reply is blank. */
    function NothingReturned(): string {
      match this
      case UnitTests => "No tests generated"
      case EdgeCases => "No edge-case tests generated"
      case FlagRisky => "No analysis returned"
    }
  }

  /** The user message: language, the labelled fenced code, then the request. */
  function GeneratorUserContent(g: Generator, languageId: string, code: string): (r: string)
    ensures StartsWith(r, "Language: " + languageId) && EndsWith(r, g.Ask())
  {
    var head := "Language: " + languageId;
    var middle := "\n\n" + g.CodeLabel() + "\n```\n" + code + "\n```\n\n";
    Framed(head, middle, g.Ask());
    head + middle + g.Ask()
  }

  /** What a generator did: the request, the code or report it produced, or the notice it showed. */
  datatype Generated = Generated(request: Option<OpenAIClient.ChatRequest>, output: Option<string>,
                                 notice: Option<Notice>)

  /** The output of a usable reply: the trimmed code, or for the analysis a markdown report. */
  function GeneratorOutput(g: Generator, doc: Document.Document, content: string): (r: string)
    ensures g != FlagRisky ==> r == Trim(content)
    ensures g == FlagRisky ==> r == Report(RiskyReportTitle, doc.fileName, doc.languageId, content)
  {
    if g == FlagRisky then Report(RiskyReportTitle, doc.fileName, doc.languageId, content) else Trim(content)
  }

  /** `generateUnitTests`, `generateEdgeCases` or `flagUntestedOrRisky`. */
  function RunGenerator(g: Generator, settings: Settings.UserSettings, defaultKey: string, modelId: string,
                        doc: Document.Document, range: Option<Document.Range>, http: OpenAIClient.HttpOutcome)
    : (r: Generated)
    ensures CodeGenerator.GetOpenAIKey(settings, defaultKey).None? ==>
      r.request.None? && r.output.None? && r.notice == Some(Error(TestingNoKeyNotice))
    ensures CodeGenerator.GetOpenAIKey(settings, defaultKey).Some? ==>
      r.request.Some? && r.request.value.apiKey == CodeGenerator.GetOpenAIKey(settings, defaultKey).value
      && r.request.value.model == OpenAIClient.AliasModel(OpenAIClient.ChatModelOrDefault(modelId))
      && r.request.value.maxTokens == g.MaxTokens()
      && r.request.value.messages == [
        OpenAIClient.ChatMessage(OpenAIClient.System, g.System()),
        OpenAIClient.ChatMessage(OpenAIClient.User, GeneratorUserContent(g, doc.languageId, doc.SelectedText(range)))]
    ensures r.output.Some? <==> r.notice.None?
    ensures r.output.Some? ==>
      r.request.Some? && Usable(OpenAIClient.Interpret(r.request.value, http))
      && r.output.value == GeneratorOutput(g, doc, OpenAIClient.Interpret(r.request.value, http).content)
    ensures r.request.Some? && !Usable(OpenAIClient.Interpret(r.request.value, http)) ==>
      r.notice == Some(FailureNotice(OpenAIClient.Interpret(r.request.value, http), g.NothingReturned()))
  {
    match CodeGenerator.GetOpenAIKey(settings, defaultKey)
    case None => Generated(None, None, Some(Error(TestingNoKeyNotice)))
    case Some(apiKey) =>
      var messages := [
        OpenAIClient.ChatMessage(OpenAIClient.System, g.System()),
        OpenAIClient.ChatMessage(OpenAIClient.User, GeneratorUserContent(g, doc.languageId, doc.SelectedText(range)))];
      var (request, result) := OpenAIClient.CompleteChat(apiKey, OpenAIClient.ChatModelOrDefault(modelId), messages,
        g.MaxTokens(), http);
      if !Usable(result) then Generated(Some(request), None, Some(FailureNotice(result, g.NothingReturned())))
      else Generated(Some(request), Some(GeneratorOutput(g, doc, result.content)), None)
  }

  /** Generated tests are never blank: a blank reply yields no output at all. */
  lemma GeneratedTestsNotBlank(g: Generator, settings: Settings.UserSettings, defaultKey: string, modelId: string,
                               doc: Document.Document, range: Option<Document.Range>, http: OpenAIClient.HttpOutcome)
    requires g != FlagRisky
    ensures var r := RunGenerator(g, settings, defaultKey, modelId, doc, range, http);
      r.output.Some? ==> r.output.value != "" && IsTrimmed(r.output.value)
  {
    var r := RunGenerator(g, settings, defaultKey, modelId, doc, range, http);
    if r.output.Some? {
      TrimIdempotent(OpenAIClient.Interpret(r.request.value, http).content);
    }
  }

  // ---------------------------------------------------------------------------
  // static checks

  /** Node's `path.extname` of a '/'-separated path: from the last dot of the base name, if that dot is not leading. */
  function Extname(path: string): (r: string)
    ensures r == "" || (r[0] == '.' && EndsWith(path, r) && '/' !in r)
  {
    var base := LastSegment(path);
    match LastIndexOf(base, ".")
    case None => ""
    case Some(d) =>
      if forall k :: 0 <= k < d ==> base[k] == '.' then
        if d == 0 || base == ".." then "" else Suffix(path, base, d)
      else Suffix(path, base, d)
  }

  /** The base name's tail from index `d`, which is a tail of the path too. */
  function Suffix(path: string, base: string, d: nat): (r: string)
    requires base == LastSegment(path) && d < |base| && base[d] == '.'
    ensures r == base[d..] && r[0] == '.' && EndsWith(path, r) && '/' !in r
  {
    LastSegmentIsSuffix(path);
    assert forall c :: c in base[d..] ==> c in base;
    base[d..]
  }

  /** `path.extname(filePath).toLowerCase()`. */
  function Extension(path: string): string {
    ToLower(Extname(path))
  }

  const EslintExtensions: seq<string> := [".js", ".jsx", ".ts", ".tsx", ".vue", ".mjs", ".cjs"]
  const TscExtensions: seq<string> := [".ts", ".tsx"]

  datatype Tool = ESLint | Tsc | PhpLint | Placeholder
  {
    function Name(): string {
      match this
      case ESLint => "ESLint"
      case Tsc => "TypeScript (tsc)"
      case PhpLint => "PHP (php -l)"
      case Placeholder => "Static checks"
    }
  }

  /** The tools run for a file extension, in order; the placeholder only when no tool applies. */
  function ToolsFor(ext: string): (r: seq<Tool>)
    ensures 1 <= |r| <= 3
    ensures ESLint in r <==> ext in EslintExtensions
    ensures Tsc in r <==> ext in TscExtensions
    ensures PhpLint in r <==> ext == ".php"
    ensures Placeholder in r <==> r == [Placeholder]
    ensures Placeholder in r <==> ext !in EslintExtensions && ext !in TscExtensions && ext != ".php"
    ensures forall i, j :: 0 <= i < j < |r| ==> r[i] != r[j]
    ensures ESLint in r && Tsc in r ==> r == [ESLint, Tsc]
  {
    var tools := (if ext in EslintExtensions then [ESLint] else [])
      + (if ext in TscExtensions then [Tsc] else [])
      + (if ext == ".php" then [PhpLint] else []);
    assert ext in TscExtensions ==> ext in EslintExtensions;
    assert ext == ".php" ==> ext !in EslintExtensions;
    if tools == [] then [Placeholder] else tools
  }

  /** What a tool printed. */
  datatype Printed = Printed(stdout: string, stderr: string)

  /** `(stdout || stderr || '').trim()`. */
  function Output(p: Printed): (r: string)
    ensures IsTrimmed(r)
    ensures p.stdout != "" ==> r == Trim(p.stdout)
    ensures p.stdout == "" ==> r == Trim(p.stderr)
  {
    TrimIdempotent(if p.stdout != "" then p.stdout else p.stderr);
    Trim(if p.stdout != "" then p.stdout else p.stderr)
  }

  /** ESLint's verdict as written: `!out || out.includes('0 problems')`. */
  predicate EslintOkAsWritten(out: string) {
    out == "" || Contains(out, "0 problems")
  }

  /** ESLint's verdict as intended: no output, or a problem count that is exactly zero. */
  predicate EslintOk(out: string) {
    out == "" || exists i :: 0 <= i < |out| && OccursAt(out, "0 problems", i) && (i == 0 || !IsDigit(out[i - 1]))
  }

  predicate TscOk(out: string) {
    out == ""
  }

  predicate PhpOk(out: string) {
    Contains(out, "No syntax errors")
  }

  datatype StaticCheckResult = StaticCheckResult(tool: string, ok: bool, output: string, error: Option<string>)

  /** The result of one tool for the file with extension `ext`. */
  function CheckResult(tool: Tool, ext: string, p: Printed): (r: StaticCheckResult)
    ensures r.tool == tool.Name()
    ensures r.error.Some? <==> !r.ok
    ensures r.error.Some? ==> r.error.value == Output(p)
    ensures tool == ESLint ==> (r.ok <==> EslintOk(Output(p)))
    ensures tool == Tsc ==> (r.ok <==> Output(p) == "")
    ensures tool == PhpLint ==> (r.ok <==> PhpOk(Output(p)))
    ensures tool == Placeholder ==> r.ok
    ensures tool != Placeholder && Output(p) != "" ==> r.output == Output(p)
  {
    var out := Output(p);
    match tool
    case ESLint =>
      var ok := EslintOk(out);
      StaticCheckResult("ESLint", ok, if out != "" then out else "No issues.", if ok then None else Some(out))
    case Tsc =>
      var ok := TscOk(out);
      StaticCheckResult("TypeScript (tsc)", ok, if out != "" then out else "No type errors.", if ok then None else Some(out))
    case PhpLint =>
      var ok := PhpOk(out);
      StaticCheckResult("PHP (php -l)", ok, out, if ok then None else Some(out))
    case Placeholder =>
      StaticCheckResult("Static checks", true,
        "No runner configured for " + ext + ". Use ESLint/Prettier/PHP-CS-Fixer from the command line if needed.", None)
  }

  /** `runStaticChecks(root, document)`: one result per selected tool, in order. */
  function RunStaticChecks(filePath: string, run: Tool -> Printed): (r: seq<StaticCheckResult>)
    ensures |r| == |ToolsFor(Extension(filePath))|
    ensures forall i :: 0 <= i < |r| ==>
      r[i] == CheckResult(ToolsFor(Extension(filePath))[i], Extension(filePath), run(ToolsFor(Extension(filePath))[i]))
  {
    var ext := Extension(filePath);
    var tools := ToolsFor(ext);
    seq(|tools|, i requires 0 <= i < |tools| => CheckResult(tools[i], ext, run(tools[i])))
  }

  /** `s.split('\n')[0]`. */
  function FirstLine(s: string): (r: string)
    ensures '\n' !in r && StartsWith(s, r)
    ensures r == s || (|r| < |s| && s[|r|] == '\n')
  {
    var lines := Split(s, '\n');
    JoinSplitPrefix(s, '\n', 1);
    SplitFirstPiece(s, '\n');
    assert lines[..1] == [lines[0]];
    lines[0]
  }

  /** The `filter` condition of `showStaticCheckResults`. */
  predicate Failed(x: StaticCheckResult) {
    !x.ok
  }

  /** `tool: firstLine(error || output)` for a failed result. */
  function FailureLine(r: StaticCheckResult): string {
    r.tool + ": " + FirstLine(if r.error.Some? && r.error.value != "" then r.error.value else r.output)
  }

  /** `showStaticCheckResults`: an information message naming the tools, or a warning listing the failures. */
  function SummarizeStaticChecks(results: seq<StaticCheckResult>): (r: Notice)
    ensures r.Info? <==> forall i :: 0 <= i < |results| ==> results[i].ok
    ensures r.Warning? <==> exists i :: 0 <= i < |results| && !results[i].ok
    ensures r.Info? ==>
      r.text == "SmartDevIDE: Static checks passed ("
                + Join(seq(|results|, i requires 0 <= i < |results| => results[i].tool), ", ") + ")."
    ensures r.Warning? ==> StartsWith(r.text, "SmartDevIDE: Static check issues: ")
    ensures r.Warning? ==> forall i :: 0 <= i < |results| && !results[i].ok ==> Contains(r.text, FailureLine(results[i]))
  {
    var failed := Filter(results, Failed);
    FilterHead(results, Failed);
    if failed == [] then
      Info("SmartDevIDE: Static checks passed ("
        + Join(seq(|results|, i requires 0 <= i < |results| => results[i].tool), ", ") + ").")
    else
      var lines := seq(|failed|, i requires 0 <= i < |failed| => FailureLine(failed[i]));
      var head := "SmartDevIDE: Static check issues: ";
      Framed(head, Join(lines, "; "), "");
      assert head + Join(lines, "; ") + "" == head + Join(lines, "; ");
      forall i | 0 <= i < |results| && !results[i].ok
        ensures Contains(head + Join(lines, "; "), FailureLine(results[i]))
      {
        var k :| 0 <= k < |failed| && failed[k] == results[i];
        JoinContainsPart(lines, "; ", k);
        ContainsInSuffix(head, Join(lines, "; "), FailureLine(results[i]));
      }
      Warning(head + Join(lines, "; "))
  }

  /** The warning lists one line per failed result, in the order of the results. */
  lemma FailuresInOrder(results: seq<StaticCheckResult>) returns (idx: seq<nat>)
    ensures forall k :: 0 <= k < |idx| ==> idx[k] < |results| && !results[idx[k]].ok
    ensures forall k, l :: 0 <= k < l < |idx| ==> idx[k] < idx[l]
    ensures forall j :: 0 <= j < |results| && !results[j].ok ==> j in idx
    ensures SummarizeStaticChecks(results).Warning? ==>
      SummarizeStaticChecks(results).text == "SmartDevIDE: Static check issues: "
        + Join(seq(|idx|, k requires 0 <= k < |idx| && idx[k] < |results| => FailureLine(results[idx[k]])), "; ")
  {
    var failed := Filter(results, Failed);
    idx := FilterIndices(results, Failed);
    forall j | 0 <= j < |results| && !results[j].ok
      ensures j in idx
    {
      assert Failed(results[j]);
    }
    assert seq(|failed|, i requires 0 <= i < |failed| => FailureLine(failed[i]))
        == seq(|idx|, k requires 0 <= k < |idx| && idx[k] < |results| => FailureLine(results[idx[k]]));
  }

  // ---------------------------------------------------------------------------
  // properties

  /** A TypeScript file runs ESLint and then tsc. */
  lemma TypeScriptRunsBoth()
    ensures ToolsFor(".ts") == [ESLint, Tsc]
  {
    assert EslintExtensions[2] == ".ts" && TscExtensions[0] == ".ts";
  }

  /** A PHP file runs only `php -l`. */
  lemma PhpRunsLint()
    ensures ToolsFor(".php") == [PhpLint]
  {
    assert ".php"[1] == 'p';
    assert forall k :: 0 <= k < |EslintExtensions| ==> EslintExtensions[k][1] != 'p';
  }

  /** A base name whose only dot leads (`.eslintrc`) has no extension. */
  lemma DotFileHasNoExtension(path: string)
    requires var base := LastSegment(path);
      |base| > 0 && base[0] == '.' && forall k :: 0 < k < |base| ==> base[k] != '.'
    ensures Extname(path) == ""
  {
    var base := LastSegment(path);
    assert OccursAt(base, ".", 0);
    var d := LastIndexOf(base, ".");
    assert d.Some?;
    assert base[d.value..d.value + 1] == ".";
    assert d.value == 0;
  }

  /** The extension runs from the base name's last dot when a non-dot character precedes that dot. */
  lemma ExtensionFromLastDot(path: string, d: nat)
    requires var base := LastSegment(path);
      0 < d < |base| && base[d] == '.' && base[d - 1] != '.' && forall k :: d < k < |base| ==> base[k] != '.'
    ensures Extname(path) == LastSegment(path)[d..]
    ensures Extension(path) == ToLower(LastSegment(path)[d..])
  {
    var base := LastSegment(path);
    assert base[d..d + 1] == ".";
    assert OccursAt(base, ".", d);
    var e := LastIndexOf(base, ".");
    assert e.Some? && e.value >= d;
    assert e.value + 1 <= |base| && base[e.value..e.value + 1] == ".";
    assert base[e.value] == '.';
    assert e.value <= d;
  }

  /** Every file gets at least one result, and a file no tool handles gets exactly the passing placeholder. */
  lemma AlwaysAResult(filePath: string, run: Tool -> Printed)
    ensures |RunStaticChecks(filePath, run)| >= 1
    ensures ToolsFor(Extension(filePath)) == [Placeholder] ==>
      |RunStaticChecks(filePath, run)| == 1 && RunStaticChecks(filePath, run)[0].ok
  {
  }

  /**
   * As written, ESLint's summary line for ten problems contains "0 problems",
   * so the check passes; the intended verdict rejects it.
   */
  lemma TenProblemsAcceptedAsWritten()
    ensures EslintOkAsWritten("10 problems")
    ensures !EslintOk("10 problems")
  {
    var s := "10 problems";
    assert OccursAt(s, "0 problems", 1);
    ContainsIff(s, "0 problems");
    forall i | 0 <= i < |s| && OccursAt(s, "0 problems", i)
      ensures i != 0 && IsDigit(s[i - 1])
    {
      assert s[i] == '0';
    }
  }

  /** The two verdicts agree whenever every "0 problems" in the output starts the output or follows a non-digit. */
  lemma VerdictsAgreeWithoutLargerCounts(out: string)
    requires forall i :: 0 < i < |out| && OccursAt(out, "0 problems", i) ==> !IsDigit(out[i - 1])
    ensures EslintOk(out) <==> EslintOkAsWritten(out)
  {
    ContainsIff(out, "0 problems");
    if Contains(out, "0 problems") {
      var i :| OccursAt(out, "0 problems", i);
      assert 0 <= i < |out|;
    }
  }

  /** The intended verdict never accepts more than the written one. */
  lemma IntendedVerdictStricter(out: string)
    ensures EslintOk(out) ==> EslintOkAsWritten(out)
  {
    ContainsIff(out, "0 problems");
  }
}
