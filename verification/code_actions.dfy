/**
 * The Quick-Fix provider and its two commands. For every diagnostic in range
 * the provider offers "Fix with AI" and "Explain", both carrying the snippet and
 * up to fifteen lines of context on each side. The fix command asks for a
 * minimal replacement and writes it over the diagnostic's range; the explain
 * command opens the answer as a markdown document.
 *
 * The editor is abstract: whether a visible editor shows the document (and its
 * line count), and whether the edit is accepted, are parameters.
 */
module CodeActions {
  import opened Wrappers
  import opened Text
  import opened Types
  import Settings
  import RoleManager
  import Sanitizer
  import SuggestionMode
  import ProjectStyle
  import Security
  import OpenAIClient
  import CodeGenerator
  import Document
  import opened Commands
  import Seqs

  const FixTitle: string := "SmartDevIDE: Fix with AI"
  const ExplainTitle: string := "SmartDevIDE: Explain"
  const FixCommand: string := "smartdevide.fixWithAI"
  const ExplainCommand: string := "smartdevide.explainWithAI"

  /** Lines of context taken on each side of a diagnostic. */
  const LinesContext: nat := 15

  /** Token budget of both commands. */
  const ActionMaxTokens: int := 1024

  const ActionBias: string := "Clear, correct code."

  const StaleNotice: string := "SmartDevIDE: Fix could not be applied (document changed). Run Fix with AI again."
  const AppliedNotice: string := "SmartDevIDE: Fix applied."
  const EditorRefusedNotice: string := "SmartDevIDE: Could not apply fix. Run Fix with AI again or save the file first."
  const WorkspaceRefusedNotice: string := "SmartDevIDE: Could not apply fix. Ensure the file is open and try again."
  const ExplanationHeading: string := "# SmartDevIDE: Explanation\n\n"

  const FixTask: string := "Apply the MINIMAL fix for the reported issue. Fixes should align with this role's practices. "
  const FixRules: string :=
    "\n\nRules:\n- Read the FULL context (code before and after the snippet) to understand structure. Check for unclosed { ( [ or tags; add missing closes, do not remove code.\n- Prefer adding missing characters (closing braces }, semicolons ;, parentheses) over removing or rewriting.\n- NEVER remove <?php or ?> or valid code. NEVER replace large sections. Fix only what the error says. No duplicate blocks.\n- Output formatted code: logical indentation, consistent spacing. Add a brief next-line comment only when it clarifies the fix.\n- If the issue is \"missing closing brace\" or \"expected }\", output the snippet WITH the closing brace added (or only the missing } if that is the minimal fix).\n- Output ONLY the replacement for the [SNIPPET] section. No markdown, no code fences, no explanation. Same or fewer lines.\n- "
  const ExplainTask: string :=
    "Explain the issue and how to fix it in clear, concise language. Use markdown. Tailor the explanation to this role's focus."

  datatype Diagnostic = Diagnostic(range: Document.Range, message: string)

  /** The arguments both commands receive. */
  datatype FixExplainArgs = FixExplainArgs(
    uri: string,
    startLine: nat,
    startChar: nat,
    endLine: nat,
    endChar: nat,
    message: string,
    code: string,
    languageId: string,
    contextBefore: string,
    contextAfter: string)

  datatype ActionKind = FixAction | ExplainAction

  datatype CodeAction = CodeAction(title: string, kind: ActionKind, command: string, diagnostic: Diagnostic,
                                   args: FixExplainArgs)

  // ---------------------------------------------------------------------------
  // the provider

  /** `Math.max(0, start - LINES_CONTEXT)`. */
  function ContextStart(line: nat): (r: nat)
    ensures r <= line && line - r <= LinesContext
    ensures line >= LinesContext ==> line - r == LinesContext
  {
    if line >= LinesContext then line - LinesContext else 0
  }

  /** One past `Math.min(lineCount - 1, end + LINES_CONTEXT)`: the line where the context after stops. */
  function ContextStop(lineCount: nat, line: nat): (r: nat)
    ensures r <= lineCount && r <= line + LinesContext + 1
    ensures r == lineCount || r == line + LinesContext + 1
  {
    Min(lineCount, line + LinesContext + 1)
  }

  /** The command arguments for one diagnostic. */
  function ArgsFor(uri: string, doc: Document.Document, d: Diagnostic): (r: FixExplainArgs)
    ensures r.code == doc.GetText(d.range.start, d.range.end) && r.message == d.message
    ensures r.startLine == d.range.start.line && r.startChar == d.range.start.character
    ensures r.endLine == d.range.end.line && r.endChar == d.range.end.character
    ensures r.contextBefore == doc.GetText(Document.Position(ContextStart(d.range.start.line), 0),
                                           Document.Position(d.range.start.line, 0))
    ensures r.contextAfter == doc.GetText(Document.Position(d.range.end.line + 1, 0),
                                          Document.Position(ContextStop(doc.LineCount(), d.range.end.line), 0))
  {
    var s := d.range.start;
    var e := d.range.end;
    FixExplainArgs(uri, s.line, s.character, e.line, e.character, d.message, doc.GetText(s, e), doc.languageId,
      doc.GetText(Document.Position(ContextStart(s.line), 0), Document.Position(s.line, 0)),
      doc.GetText(Document.Position(e.line + 1, 0), Document.Position(ContextStop(doc.LineCount(), e.line), 0)))
  }

  function FixActionFor(uri: string, doc: Document.Document, d: Diagnostic): CodeAction {
    CodeAction(FixTitle, FixAction, FixCommand, d, ArgsFor(uri, doc, d))
  }

  function ExplainActionFor(uri: string, doc: Document.Document, d: Diagnostic): CodeAction {
    CodeAction(ExplainTitle, ExplainAction, ExplainCommand, d, ArgsFor(uri, doc, d))
  }

  /** `provideCodeActions`: nothing without a key, else a fix and an explain action per diagnostic, in order. */
  function ProvideCodeActions(settings: Settings.UserSettings, defaultKey: string, uri: string,
                              doc: Document.Document, diagnostics: seq<Diagnostic>): (r: seq<CodeAction>)
    ensures CodeGenerator.GetOpenAIKey(settings, defaultKey).None? ==> r == []
    ensures CodeGenerator.GetOpenAIKey(settings, defaultKey).Some? ==> |r| == 2 * |diagnostics|
    ensures forall i :: 0 <= i < |diagnostics| && 2 * i + 1 < |r| ==>
      r[2 * i].kind == FixAction && r[2 * i].title == FixTitle && r[2 * i].command == FixCommand
      && r[2 * i + 1].kind == ExplainAction && r[2 * i + 1].title == ExplainTitle
      && r[2 * i + 1].command == ExplainCommand
      && r[2 * i].diagnostic == r[2 * i + 1].diagnostic == diagnostics[i]
      && r[2 * i].args == r[2 * i + 1].args == ArgsFor(uri, doc, diagnostics[i])
  {
    if CodeGenerator.GetOpenAIKey(settings, defaultKey).None? then []
    else Seqs.Pairs(diagnostics, d => FixActionFor(uri, doc, d), d => ExplainActionFor(uri, doc, d))
  }

  // ---------------------------------------------------------------------------
  // the two commands

  /** `roleMeta?.promptBias ?? 'Clear, correct code.'`. */
  function ActionRoleBias(catalog: seq<RoleMetadata>, role: string): (r: string)
    ensures RoleManager.FindByName(catalog, role).Some? ==> r == RoleManager.FindByName(catalog, role).value.promptBias
    ensures RoleManager.FindByName(catalog, role).None? ==> r == ActionBias
  {
    match RoleManager.FindByName(catalog, role)
    case Some(meta) => meta.promptBias
    case None => ActionBias
  }

  /** The shared opening of both system prompts. */
  function RoleLine(catalog: seq<RoleMetadata>, role: string): string {
    "You are an expert developer in the role: " + role + ". Your approach: " + ActionRoleBias(catalog, role)
  }

  /** `projectStyle ? base + '\n\n' + projectStyle : base`. */
  function AppendStyle(base: string, style: string): (r: string)
    ensures StartsWith(r, base)
    ensures style == "" ==> r == base
    ensures style != "" ==> EndsWith(r, "\n\n" + style) && |r| == |base| + 2 + |style|
  {
    if style != "" then
      Framed(base, "", "\n\n" + style);
      assert base + "" + ("\n\n" + style) == base + "\n\n" + style;
      base + "\n\n" + style
    else
      assert base[..|base|] == base;
      base
  }

  /** The fix system prompt: role, the fix task with the fix-mode instructions, the rules, the security block, the style. */
  function FixSystemPrompt(settings: Settings.UserSettings, catalog: seq<RoleMetadata>, role: string, style: string)
    : (r: string)
    ensures StartsWith(r, RoleLine(catalog, role))
    ensures style == "" ==> EndsWith(r, Security.SecurityPromptBlock)
  {
    var middle := "\n\n" + FixTask + SuggestionMode.GetSuggestionModeInstructions(settings, SuggestionMode.Fix) + FixRules;
    FramedWithStyle(RoleLine(catalog, role), middle, Security.SecurityPromptBlock, style)
  }

  /** `head + middle + tail`, then the style; keeps the head in front, and the tail last when there is no style. */
  function FramedWithStyle(head: string, middle: string, tail: string, style: string): (r: string)
    ensures StartsWith(r, head)
    ensures style == "" ==> EndsWith(r, tail)
  {
    Framed(head, middle, tail);
    var r := AppendStyle(head + middle + tail, style);
    StartsWithTrans(r, head + middle + tail, head);
    r
  }

  /** The fix request's user message: the issue, the language, the context before, the snippet, the context after. */
  function FixUserContent(args: FixExplainArgs): (r: string)
    ensures StartsWith(r, "Issue: " + args.message)
  {
    var head := "Issue: " + args.message;
    var rest := "\n\nLanguage: " + args.languageId + "\n\nCode BEFORE the snippet:\n```\n" + args.contextBefore
      + "\n```\n\n[SNIPPET TO FIX]:\n```\n" + args.code + "\n```\n\nCode AFTER the snippet:\n```\n"
      + args.contextAfter + "\n```\n\nOutput only the fixed snippet (minimal change, preserve structure):";
    Framed(head, rest, "");
    assert head + rest + "" == head + rest;
    head + rest
  }

  /** The explain system prompt: role and the explanation task, then the style. */
  function ExplainSystemPrompt(catalog: seq<RoleMetadata>, role: string, style: string): (r: string)
    ensures StartsWith(r, RoleLine(catalog, role) + "\n\n" + ExplainTask)
  {
    AppendStyle(RoleLine(catalog, role) + "\n\n" + ExplainTask, style)
  }

  function ExplainUserContent(args: FixExplainArgs): (r: string)
    ensures StartsWith(r, "Issue: " + args.message)
  {
    var head := "Issue: " + args.message;
    var rest := "\n\nLanguage: " + args.languageId + "\n\nCode:\n```\n" + args.code
      + "\n```\n\nExplain the problem and the fix:";
    Framed(head, rest, "");
    assert head + rest + "" == head + rest;
    head + rest
  }

  /** Where the fix is written: a visible editor showing the document (with its line count), or a workspace edit. */
  datatype EditTarget = VisibleEditor(lineCount: nat) | WorkspaceEdit

  /** What the fix command did: the request it sent, the text written over the range, and the notice shown. */
  datatype FixOutcome = FixOutcome(request: Option<OpenAIClient.ChatRequest>, written: Option<string>, notice: Notice)

  /** What happens to a reply: the text written over the diagnostic's range, if any, and the notice. */
  datatype Applied = Applied(written: Option<string>, notice: Notice)

  /**
   * The second half of `runFixWithAI`: refuse an unusable reply, sanitize the
   * rest, refuse a range the open document no longer has, then write the text
   * if the editor accepts the edit.
   */
  function ApplyFix(result: OpenAIClient.ChatResult, args: FixExplainArgs, target: EditTarget, accepted: bool)
    : (r: Applied)
    ensures !Usable(result) ==> r.written.None? && r.notice == FailureNotice(result, "No fix returned")
    ensures (Usable(result) && target.VisibleEditor?
             && (args.startLine >= target.lineCount || args.endLine >= target.lineCount)) ==>
      r.written.None? && r.notice == Error(StaleNotice)
    ensures r.written.Some? <==> r.notice == Info(AppliedNotice)
    ensures r.written.Some? ==>
      accepted && Usable(result) && r.written.value == Sanitizer.SanitizeFix(result.content, args.code)
      && CountLines(r.written.value) <= Sanitizer.FixLineCap(args.code)
    ensures (Usable(result) && accepted
             && (target.VisibleEditor? ==> args.startLine < target.lineCount && args.endLine < target.lineCount)) ==>
      r.written.Some?
  {
    if !Usable(result) then Applied(None, FailureNotice(result, "No fix returned"))
    else
      var text := Sanitizer.SanitizeFix(result.content, args.code);
      match target
      case VisibleEditor(lineCount) =>
        if args.startLine >= lineCount || args.endLine >= lineCount then Applied(None, Error(StaleNotice))
        else if accepted then Applied(Some(text), Info(AppliedNotice))
        else Applied(None, Error(EditorRefusedNotice))
      case WorkspaceEdit =>
        if accepted then Applied(Some(text), Info(AppliedNotice))
        else Applied(None, Error(WorkspaceRefusedNotice))
  }

  /** The two messages of a fix request. */
  function FixMessages(settings: Settings.UserSettings, catalog: seq<RoleMetadata>, role: string,
                       args: FixExplainArgs, style: string): (r: seq<OpenAIClient.ChatMessage>)
  {
    OpenAIClient.Exchange(FixSystemPrompt(settings, catalog, role, style), FixUserContent(args))
  }

  /**
   * The part of `runFixWithAI(args)` that does not depend on the prompt: find
   * the key, send `messages`, and apply the reply.
   */
  function SendFix(settings: Settings.UserSettings, defaultKey: string, modelId: string,
                   messages: seq<OpenAIClient.ChatMessage>, args: FixExplainArgs, http: OpenAIClient.HttpOutcome,
                   target: EditTarget, accepted: bool): (r: FixOutcome)
    ensures CodeGenerator.GetOpenAIKey(settings, defaultKey).None? ==>
      r.request.None? && r.written.None? && r.notice == Error(NoKeyNotice)
    ensures CodeGenerator.GetOpenAIKey(settings, defaultKey).Some? ==>
      r.request.Some? && r.request.value.apiKey == CodeGenerator.GetOpenAIKey(settings, defaultKey).value
      && r.request.value.model == OpenAIClient.AliasModel(OpenAIClient.ChatModelOrDefault(modelId))
      && r.request.value.maxTokens == ActionMaxTokens
      && r.request.value.messages == messages
    ensures r.request.Some? ==>
      Applied(r.written, r.notice) == ApplyFix(OpenAIClient.Interpret(r.request.value, http), args, target, accepted)
  {
    match CodeGenerator.GetOpenAIKey(settings, defaultKey)
    case None => FixOutcome(None, None, Error(NoKeyNotice))
    case Some(apiKey) =>
      var (request, result) := OpenAIClient.CompleteChat(apiKey, OpenAIClient.ChatModelOrDefault(modelId),
        messages, ActionMaxTokens, http);
      var applied := ApplyFix(result, args, target, accepted);
      FixOutcome(Some(request), applied.written, applied.notice)
  }

  /**
   * `runFixWithAI(args)`. `style` is the project style of the document's
   * workspace ("" when it has none), `target` where the document is shown and
   * `accepted` whether the editor accepts the edit.
   */
  function RunFix(settings: Settings.UserSettings, defaultKey: string, catalog: seq<RoleMetadata>, role: string,
                  modelId: string, args: FixExplainArgs, style: string, http: OpenAIClient.HttpOutcome,
                  target: EditTarget, accepted: bool): (r: FixOutcome)
    ensures CodeGenerator.GetOpenAIKey(settings, defaultKey).None? ==>
      r.request.None? && r.written.None? && r.notice == Error(NoKeyNotice)
    ensures CodeGenerator.GetOpenAIKey(settings, defaultKey).Some? ==>
      r.request.Some? && r.request.value.apiKey == CodeGenerator.GetOpenAIKey(settings, defaultKey).value
      && r.request.value.model == OpenAIClient.AliasModel(OpenAIClient.ChatModelOrDefault(modelId))
      && r.request.value.maxTokens == ActionMaxTokens
      && r.request.value.messages == FixMessages(settings, catalog, role, args, style)
    ensures r.request.Some? ==>
      Applied(r.written, r.notice) == ApplyFix(OpenAIClient.Interpret(r.request.value, http), args, target, accepted)
  {
    SendFix(settings, defaultKey, modelId, FixMessages(settings, catalog, role, args, style), args, http, target,
      accepted)
  }

  /** What the explain command did: the request, the markdown document it opened, or the notice it showed. */
  datatype ExplainOutcome = ExplainOutcome(request: Option<OpenAIClient.ChatRequest>, document: Option<string>,
                                           notice: Option<Notice>)

  /** The two messages of an explain request. */
  function ExplainMessages(catalog: seq<RoleMetadata>, role: string, args: FixExplainArgs, style: string)
    : seq<OpenAIClient.ChatMessage>
  {
    OpenAIClient.Exchange(ExplainSystemPrompt(catalog, role, style), ExplainUserContent(args))
  }

  /**
   * The part of `runExplainWithAI(args)` that does not depend on the prompt:
   * find the key, send `messages`, and turn a usable reply into the document.
   */
  function SendExplain(settings: Settings.UserSettings, defaultKey: string, modelId: string,
                       messages: seq<OpenAIClient.ChatMessage>, http: OpenAIClient.HttpOutcome): (r: ExplainOutcome)
    ensures CodeGenerator.GetOpenAIKey(settings, defaultKey).None? ==>
      r.request.None? && r.document.None? && r.notice == Some(Error(NoKeyNotice))
    ensures CodeGenerator.GetOpenAIKey(settings, defaultKey).Some? ==>
      r.request.Some? && r.request.value.maxTokens == ActionMaxTokens
      && r.request.value.model == OpenAIClient.AliasModel(OpenAIClient.ChatModelOrDefault(modelId))
      && r.request.value.messages == messages
    ensures r.document.Some? <==> r.notice.None?
    ensures r.document.Some? ==>
      r.request.Some? && Usable(OpenAIClient.Interpret(r.request.value, http))
      && r.document.value == ExplanationHeading + Trim(OpenAIClient.Interpret(r.request.value, http).content)
    ensures r.request.Some? && !Usable(OpenAIClient.Interpret(r.request.value, http)) ==>
      r.notice == Some(FailureNotice(OpenAIClient.Interpret(r.request.value, http), "No explanation returned"))
  {
    match CodeGenerator.GetOpenAIKey(settings, defaultKey)
    case None => ExplainOutcome(None, None, Some(Error(NoKeyNotice)))
    case Some(apiKey) =>
      var (request, result) := OpenAIClient.CompleteChat(apiKey, OpenAIClient.ChatModelOrDefault(modelId), messages,
        ActionMaxTokens, http);
      if !Usable(result) then ExplainOutcome(Some(request), None, Some(FailureNotice(result, "No explanation returned")))
      else ExplainOutcome(Some(request), Some(ExplanationHeading + Trim(result.content)), None)
  }

  /** `runExplainWithAI(args)`. */
  function RunExplain(settings: Settings.UserSettings, defaultKey: string, catalog: seq<RoleMetadata>, role: string,
                      modelId: string, args: FixExplainArgs, style: string, http: OpenAIClient.HttpOutcome)
    : (r: ExplainOutcome)
    ensures CodeGenerator.GetOpenAIKey(settings, defaultKey).None? ==>
      r.request.None? && r.document.None? && r.notice == Some(Error(NoKeyNotice))
    ensures CodeGenerator.GetOpenAIKey(settings, defaultKey).Some? ==>
      r.request.Some? && r.request.value.maxTokens == ActionMaxTokens
      && r.request.value.model == OpenAIClient.AliasModel(OpenAIClient.ChatModelOrDefault(modelId))
      && r.request.value.messages == [
        OpenAIClient.ChatMessage(OpenAIClient.System, ExplainSystemPrompt(catalog, role, style)),
        OpenAIClient.ChatMessage(OpenAIClient.User, ExplainUserContent(args))]
    ensures r.document.Some? <==> r.notice.None?
    ensures r.document.Some? ==>
      r.request.Some? && Usable(OpenAIClient.Interpret(r.request.value, http))
      && r.document.value == ExplanationHeading + Trim(OpenAIClient.Interpret(r.request.value, http).content)
    ensures r.request.Some? && !Usable(OpenAIClient.Interpret(r.request.value, http)) ==>
      r.notice == Some(FailureNotice(OpenAIClient.Interpret(r.request.value, http), "No explanation returned"))
  {
    SendExplain(settings, defaultKey, modelId, ExplainMessages(catalog, role, args, style), http)
  }

  // ---------------------------------------------------------------------------
  // properties

  /**
   * The context before a diagnostic is the lines from the window's first line up
   * to the diagnostic's line, each with its newline: at most fifteen full lines.
   */
  lemma ContextBeforeWindow(uri: string, doc: Document.Document, d: Diagnostic)
    requires doc.Valid() && d.range.start.line < |doc.lines|
    ensures var a := ContextStart(d.range.start.line);
      ArgsFor(uri, doc, d).contextBefore == Join(doc.lines[a..d.range.start.line] + [""], "\n")
    ensures CountLines(ArgsFor(uri, doc, d).contextBefore) == d.range.start.line - ContextStart(d.range.start.line) + 1
    ensures CountLines(ArgsFor(uri, doc, d).contextBefore) <= LinesContext + 1
  {
    var a := ContextStart(d.range.start.line);
    var l := d.range.start.line;
    Document.TextBetween(doc.lines, a, l, 0);
    Document.TextBetween(doc.lines, l, l, 0);
    assert doc.lines[l][..0] == "";
    Document.WindowLineCount(doc.lines, a, l, 0);
  }

  /** Fix and explain receive the same arguments: the diagnostic's own text and message. */
  lemma ActionsShareArguments(settings: Settings.UserSettings, defaultKey: string, uri: string,
                              doc: Document.Document, diagnostics: seq<Diagnostic>, i: nat)
    requires CodeGenerator.GetOpenAIKey(settings, defaultKey).Some? && i < |diagnostics|
    ensures var r := ProvideCodeActions(settings, defaultKey, uri, doc, diagnostics);
      r[2 * i].args.code == r[2 * i + 1].args.code == doc.GetText(diagnostics[i].range.start, diagnostics[i].range.end)
      && r[2 * i].args.message == diagnostics[i].message
  {
  }

  /**
   * A reply that is only an empty fence pair passes the blank check, which runs
   * before sanitizing, so the fix writes the empty string over the snippet.
   */
  lemma EmptyFenceReplyErasesSnippet(result: OpenAIClient.ChatResult, args: FixExplainArgs, target: EditTarget)
    requires result.error.None? && result.content == "```\n```"
    requires target.VisibleEditor? ==> args.startLine < target.lineCount && args.endLine < target.lineCount
    ensures ApplyFix(result, args, target, true).written == Some("")
  {
    FenceReplyUsable(result);
    Sanitizer.EmptyFenceBlock(args.code);
  }

  lemma FenceReplyUsable(result: OpenAIClient.ChatResult)
    requires result.error.None? && result.content == "```\n```"
    ensures Usable(result)
  {
    assert result.content[0] == '`';
    BlankIffAllSpace(result.content);
  }

  /** A successful explanation opens the heading followed by the reply. */
  lemma ExplanationDocument(settings: Settings.UserSettings, defaultKey: string, catalog: seq<RoleMetadata>,
                            role: string, modelId: string, args: FixExplainArgs, style: string,
                            body: OpenAIClient.ResponseBody)
    requires CodeGenerator.GetOpenAIKey(settings, defaultKey).Some?
    requires body.firstChoiceContent.Some? && !IsBlank(body.firstChoiceContent.value)
    ensures RunExplain(settings, defaultKey, catalog, role, modelId, args, style,
                       OpenAIClient.Responded(true, "OK", body)).document
         == Some(ExplanationHeading + Trim(body.firstChoiceContent.value))
  {
    ExplainReplyDocument(settings, defaultKey, modelId, ExplainMessages(catalog, role, args, style), body);
  }

  /** The same, for any messages sent. */
  lemma ExplainReplyDocument(settings: Settings.UserSettings, defaultKey: string, modelId: string,
                             messages: seq<OpenAIClient.ChatMessage>, body: OpenAIClient.ResponseBody)
    requires CodeGenerator.GetOpenAIKey(settings, defaultKey).Some?
    requires body.firstChoiceContent.Some? && !IsBlank(body.firstChoiceContent.value)
    ensures SendExplain(settings, defaultKey, modelId, messages, OpenAIClient.Responded(true, "OK", body)).document
         == Some(ExplanationHeading + Trim(body.firstChoiceContent.value))
  {
    TrimIdempotent(body.firstChoiceContent.value);
  }
}
