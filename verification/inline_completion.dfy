/**
 * The inline ("ghost text") completion provider: the gates that decide whether
 * a request is made at all, the code window above the cursor, the role-aware
 * system prompt with the suggestion-mode instructions and project style, and
 * the post-processing that turns the reply into at most three lines.
 *
 * The two cancellation checks are the values of the editor's cancellation token
 * before and after the chat call; the project-style inputs are what the
 * workspace scan found.
 */
module InlineCompletion {
  import opened Wrappers
  import opened Text
  import opened Types
  import Settings
  import RoleManager
  import Sanitizer
  import SuggestionMode
  import ProjectStyle
  import Security
  import OpenAIClient
  import CodeGenerator
  import Document

  /** How many lines above the cursor are sent as context. */
  const LinesAbove: nat := 18

  /** The model used when the fast-model setting is on. */
  const FastModel: string := "gpt-3.5-turbo"

  const DefaultFocus: string := "best practices"

  const InlineRules: string :=
    "Suggest code that matches this role. E.g. Laravel Developer → Laravel/Eloquent patterns; React Developer → hooks, JSX; Core PHP → plain PHP, PDO; Backend → APIs, validation, security.\n\nRules:\n- Output 1-3 lines only. Plain code—no markdown, no code fences, no explanation.\n- Format cleanly: logical indentation, consistent spacing (prettier-style). Same style as the file.\n- Add a brief comment on the line above when it clarifies (e.g. // validate input). Comments on next line only where helpful.\n- Ensure every opened brace { bracket ( [ or tag you add has a matching close; do not leave unclosed. Check existing code for unclosed opens.\n- NEVER repeat or duplicate existing code. Minimal, required-only suggestions.\n- Do not add <?php or ?> unless the cursor is clearly starting a new PHP block.\n- "

  /** Whether the editor asked explicitly or the provider was triggered by typing. */
  datatype TriggerKind = Invoke | Automatic

  /** The model an inline request uses: the fast model when configured, else the chat model or its fallback. */
  function InlineModel(settings: Settings.UserSettings, modelId: string): (r: string)
    ensures StartsWith(r, "gpt-")
    ensures Settings.InlineUseFastModel(settings) ==> r == FastModel
    ensures !Settings.InlineUseFastModel(settings) ==> r == OpenAIClient.ChatModelOrDefault(modelId)
  {
    if Settings.InlineUseFastModel(settings) then FastModel else OpenAIClient.ChatModelOrDefault(modelId)
  }

  /** The text of the cursor's line up to the cursor. */
  function LinePrefix(doc: Document.Document, pos: Document.Position): string {
    doc.GetText(Document.Position(pos.line, 0), pos)
  }

  /** An automatic trigger whose trimmed line prefix is shorter than the configured minimum is skipped. */
  predicate PrefixTooShort(settings: Settings.UserSettings, doc: Document.Document, pos: Document.Position,
                           trigger: TriggerKind) {
    |Trim(LinePrefix(doc, pos))| < Settings.InlineMinPrefixLength(settings) && trigger == Automatic
  }

  /** `Math.max(0, position.line - LINES_ABOVE)`. */
  function WindowStart(line: nat): (r: nat)
    ensures r <= line && line - r <= LinesAbove
    ensures line >= LinesAbove ==> line - r == LinesAbove
    ensures line < LinesAbove ==> r == 0
  {
    if line >= LinesAbove then line - LinesAbove else 0
  }

  /** The code sent as context: from the start of the window's first line to the cursor. */
  function ContextText(doc: Document.Document, pos: Document.Position): string {
    doc.GetText(Document.Position(WindowStart(pos.line), 0), pos)
  }

  /** `roleMeta?.promptBias ?? 'Write clear, correct code.'`: an empty bias is kept. */
  function InlineBias(catalog: seq<RoleMetadata>, role: string): (r: string)
    ensures RoleManager.FindByName(catalog, role).Some? ==> r == RoleManager.FindByName(catalog, role).value.promptBias
    ensures RoleManager.FindByName(catalog, role).None? ==> r == CodeGenerator.DefaultBias
  {
    match RoleManager.FindByName(catalog, role)
    case Some(meta) => meta.promptBias
    case None => CodeGenerator.DefaultBias
  }

  /** The role's focus areas joined with commas, or `best practices` when there are none. */
  function FocusAreas(catalog: seq<RoleMetadata>, role: string): (r: string)
    ensures RoleManager.FindByName(catalog, role).Some? && |RoleManager.FindByName(catalog, role).value.focusAreas| > 0 ==>
      r == Join(RoleManager.FindByName(catalog, role).value.focusAreas, ", ")
    ensures RoleManager.FindByName(catalog, role).None? || RoleManager.FindByName(catalog, role).value.focusAreas == [] ==>
      r == DefaultFocus
  {
    match RoleManager.FindByName(catalog, role)
    case Some(meta) => if |meta.focusAreas| > 0 then Join(meta.focusAreas, ", ") else DefaultFocus
    case None => DefaultFocus
  }

  /** The first line of the inline system prompt, naming the role. */
  function InlineIntro(role: string): string {
    "You are an expert developer in the role: " + role + "."
  }

  /** The role-aware system prompt; it always closes with the secure-defaults block. */
  function InlineSystemPrompt(catalog: seq<RoleMetadata>, role: string): (r: string)
    ensures StartsWith(r, InlineIntro(role))
    ensures EndsWith(r, Security.SecurityPromptBlock)
    ensures Contains(r, "\n\nYour focus: " + InlineBias(catalog, role) + "\n")
    ensures Contains(r, "Focus areas for this role: " + FocusAreas(catalog, role) + "\n\n")
  {
    var focus := "\n\nYour focus: " + InlineBias(catalog, role) + "\n";
    var areas := "Focus areas for this role: " + FocusAreas(catalog, role) + "\n\n";
    var body := focus + areas + InlineRules;
    Framed(InlineIntro(role), body, Security.SecurityPromptBlock);
    BothPieces(InlineIntro(role), focus, areas, InlineRules, Security.SecurityPromptBlock);
    InlineIntro(role) + body + Security.SecurityPromptBlock
  }

  /** Two neighbouring pieces of a text are both contained in it. */
  lemma BothPieces(a: string, x: string, y: string, c: string, d: string)
    ensures Contains(a + (x + y + c) + d, x) && Contains(a + (x + y + c) + d, y)
  {
    assert a + (x + y + c) + d == a + x + (y + c + d);
    ContainsPiece(a, x, y + c + d);
    assert a + (x + y + c) + d == (a + x) + y + (c + d);
    ContainsPiece(a + x, y, c + d);
  }

  /** The prompt names the catalog bias and focus areas of a known role, or the defaults for an unknown one. */
  lemma InlinePromptCarriesRole(catalog: seq<RoleMetadata>, role: string)
    ensures RoleManager.FindByName(catalog, role).Some? ==>
      Contains(InlineSystemPrompt(catalog, role), "\n\nYour focus: " + RoleManager.FindByName(catalog, role).value.promptBias + "\n")
    ensures RoleManager.FindByName(catalog, role).Some? && RoleManager.FindByName(catalog, role).value.focusAreas != [] ==>
      Contains(InlineSystemPrompt(catalog, role),
               "Focus areas for this role: " + Join(RoleManager.FindByName(catalog, role).value.focusAreas, ", ") + "\n\n")
    ensures RoleManager.FindByName(catalog, role).None? ==>
      Contains(InlineSystemPrompt(catalog, role), "\n\nYour focus: " + CodeGenerator.DefaultBias + "\n")
      && Contains(InlineSystemPrompt(catalog, role), "Focus areas for this role: " + DefaultFocus + "\n\n")
  {
  }

  /** The system prompt, then the mode instructions, then the project style when there is one. */
  function WithStyle(system: string, mode: string, style: string): (r: string)
    ensures StartsWith(r, system + "\n\n" + mode)
    ensures style == "" ==> r == system + "\n\n" + mode
    ensures style != "" ==> EndsWith(r, "\n\n" + style)
  {
    var base := system + "\n\n" + mode;
    if style != "" then
      Framed(base, "", "\n\n" + style);
      assert base + "" + ("\n\n" + style) == base + "\n\n" + style;
      base + "\n\n" + style
    else
      assert base[..|base|] == base;
      base
  }

  /** The user message: language, the fenced code up to the cursor, and the request for 1-3 lines. */
  function UserContent(languageId: string, contextText: string, role: string): (r: string)
    ensures StartsWith(r, "Language: " + languageId)
  {
    var head := "Language: " + languageId;
    var rest := "\n\nCode up to cursor:\n```\n" + contextText + "\n```\n\nSuggest only the next 1-3 lines (role: "
      + role + ", no duplication):";
    Framed(head, rest, "");
    assert head + rest + "" == head + rest;
    head + rest
  }

  /** The provider's answer, with the request it sent when it sent one. */
  datatype InlineOutcome = InlineOutcome(request: Option<OpenAIClient.ChatRequest>, suggestion: Option<string>)

  /** The two messages of an inline request. */
  function InlineMessages(settings: Settings.UserSettings, catalog: seq<RoleMetadata>, role: string,
                          doc: Document.Document, pos: Document.Position, style: string)
    : (r: seq<OpenAIClient.ChatMessage>)
    ensures |r| == 2 && r[0].role == OpenAIClient.System && r[1].role == OpenAIClient.User
    ensures StartsWith(r[0].content, InlineSystemPrompt(catalog, role) + "\n\n"
      + SuggestionMode.GetSuggestionModeInstructions(settings, SuggestionMode.Inline))
    ensures r[1].content == UserContent(doc.languageId, ContextText(doc, pos), role)
  {
    var system := WithStyle(InlineSystemPrompt(catalog, role),
      SuggestionMode.GetSuggestionModeInstructions(settings, SuggestionMode.Inline), style);
    [OpenAIClient.ChatMessage(OpenAIClient.System, system),
     OpenAIClient.ChatMessage(OpenAIClient.User, UserContent(doc.languageId, ContextText(doc, pos), role))]
  }

  /** The suggestion for a reply: None on an error or a blank reply, else the sanitized text if any is left. */
  function Suggestion(result: OpenAIClient.ChatResult): (r: Option<string>)
    ensures r.Some? ==> !Truthy(result.error) && !IsBlank(result.content)
    ensures r.Some? ==> r.value != "" && IsTrimmed(r.value) && CountLines(r.value) <= Sanitizer.InlineMaxLines
    ensures !Truthy(result.error) && !IsBlank(result.content) ==> r == Sanitizer.SanitizeInline(result.content)
  {
    if Truthy(result.error) || result.content == "" || Trim(result.content) == "" then None
    else Sanitizer.SanitizeInline(result.content)
  }

  /**
   * `provideInlineCompletionItems`: None unless the feature is on, a key exists,
   * the prefix gate passes, the request is not cancelled on either side of the
   * call, the call succeeds and something is left after sanitizing.
   */
  function ProvideInlineCompletionItems(
    settings: Settings.UserSettings, defaultKey: string, catalog: seq<RoleMetadata>, role: string, modelId: string,
    doc: Document.Document, pos: Document.Position, trigger: TriggerKind,
    hasRoot: bool, discovered: ProjectStyle.Discovered,
    cancelledBefore: bool, cancelledAfter: bool, http: OpenAIClient.HttpOutcome): (r: InlineOutcome)
    ensures (!Settings.InlineEnabled(settings) || CodeGenerator.GetOpenAIKey(settings, defaultKey).None?
             || PrefixTooShort(settings, doc, pos, trigger) || cancelledBefore) ==> r.request.None?
    ensures r.request.None? ==> r.suggestion.None?
    ensures r.request.Some? ==>
      r.request.value.apiKey == CodeGenerator.GetOpenAIKey(settings, defaultKey).value
      && r.request.value.model == OpenAIClient.AliasModel(InlineModel(settings, modelId))
      && r.request.value.maxTokens == Settings.InlineMaxTokens(settings)
      && r.request.value.messages ==
        InlineMessages(settings, catalog, role, doc, pos, ProjectStyle.GetProjectStyle(hasRoot, settings, discovered))
    ensures r.suggestion.Some? ==> r.request.Some? && !cancelledAfter
    ensures r.suggestion.Some? ==>
      r.suggestion == Suggestion(OpenAIClient.Interpret(r.request.value, http))
      && r.suggestion.value != "" && IsTrimmed(r.suggestion.value)
      && CountLines(r.suggestion.value) <= Sanitizer.InlineMaxLines
  {
    if !Settings.InlineEnabled(settings) then InlineOutcome(None, None)
    else match CodeGenerator.GetOpenAIKey(settings, defaultKey)
    case None => InlineOutcome(None, None)
    case Some(apiKey) =>
      if PrefixTooShort(settings, doc, pos, trigger) || cancelledBefore then InlineOutcome(None, None)
      else
        var style := ProjectStyle.GetProjectStyle(hasRoot, settings, discovered);
        SendInline(settings, apiKey, modelId, InlineMessages(settings, catalog, role, doc, pos, style),
                   cancelledAfter, http)
  }

  /**
   * The call itself, for whatever messages are sent: one request with the
   * inline model and budget, and a suggestion only when the request was not
   * cancelled meanwhile and the reply survives sanitizing.
   */
  function SendInline(settings: Settings.UserSettings, apiKey: string, modelId: string,
                      messages: seq<OpenAIClient.ChatMessage>, cancelledAfter: bool, http: OpenAIClient.HttpOutcome)
    : (r: InlineOutcome)
    ensures r.request.Some? && r.request.value.apiKey == apiKey
      && r.request.value.model == OpenAIClient.AliasModel(InlineModel(settings, modelId))
      && r.request.value.maxTokens == Settings.InlineMaxTokens(settings)
      && r.request.value.messages == messages
    ensures cancelledAfter ==> r.suggestion.None?
    ensures !cancelledAfter ==> r.suggestion == Suggestion(OpenAIClient.Interpret(r.request.value, http))
    ensures r.suggestion.Some? ==>
      r.suggestion.value != "" && IsTrimmed(r.suggestion.value) && CountLines(r.suggestion.value) <= Sanitizer.InlineMaxLines
  {
    var (request, result) := OpenAIClient.CompleteChat(apiKey, InlineModel(settings, modelId), messages,
      Settings.InlineMaxTokens(settings), http);
    if cancelledAfter then InlineOutcome(Some(request), None)
    else InlineOutcome(Some(request), Suggestion(result))
  }

  // ---------------------------------------------------------------------------
  // properties

  /**
   * An explicit request is never held back by the prefix gate: with the feature
   * on, a key, and no cancellation before the call, a request is sent even on an
   * empty line.
   */
  lemma InvokeAlwaysAsks(
    settings: Settings.UserSettings, defaultKey: string, catalog: seq<RoleMetadata>, role: string, modelId: string,
    doc: Document.Document, pos: Document.Position, hasRoot: bool, discovered: ProjectStyle.Discovered,
    cancelledAfter: bool, http: OpenAIClient.HttpOutcome)
    requires Settings.InlineEnabled(settings) && CodeGenerator.GetOpenAIKey(settings, defaultKey).Some?
    ensures ProvideInlineCompletionItems(settings, defaultKey, catalog, role, modelId, doc, pos, Invoke,
      hasRoot, discovered, false, cancelledAfter, http).request.Some?
  {
  }

  /** A successful, non-blank reply that is not cancelled is shown exactly as sanitized. */
  lemma ReplyShownWhenNotCancelled(
    settings: Settings.UserSettings, defaultKey: string, catalog: seq<RoleMetadata>, role: string, modelId: string,
    doc: Document.Document, pos: Document.Position, trigger: TriggerKind,
    hasRoot: bool, discovered: ProjectStyle.Discovered, body: OpenAIClient.ResponseBody)
    requires Settings.InlineEnabled(settings) && CodeGenerator.GetOpenAIKey(settings, defaultKey).Some?
    requires !PrefixTooShort(settings, doc, pos, trigger)
    requires body.firstChoiceContent.Some? && !IsBlank(body.firstChoiceContent.value)
    ensures ProvideInlineCompletionItems(settings, defaultKey, catalog, role, modelId, doc, pos, trigger,
      hasRoot, discovered, false, false, OpenAIClient.Responded(true, "OK", body)).suggestion
      == Sanitizer.SanitizeInline(Trim(body.firstChoiceContent.value))
  {
    var http := OpenAIClient.Responded(true, "OK", body);
    var r := ProvideInlineCompletionItems(settings, defaultKey, catalog, role, modelId, doc, pos, trigger,
      hasRoot, discovered, false, false, http);
    assert r.request.Some?;
    var result := OpenAIClient.Interpret(r.request.value, http);
    assert result.error.None? && result.content == Trim(body.firstChoiceContent.value);
    TrimIdempotent(body.firstChoiceContent.value);
    assert r.suggestion == Suggestion(result);
  }

  /** With nothing configured, inline requests use the fast model and a 64-token budget. */
  lemma DefaultsUseFastModel(modelId: string)
    ensures InlineModel(Settings.Unset, modelId) == FastModel
    ensures Settings.InlineMaxTokens(Settings.Unset) == 64
    ensures Settings.InlineMinPrefixLength(Settings.Unset) == 1
  {
  }

  /** The line prefix is the cursor's line up to the (clamped) cursor column. */
  lemma LinePrefixIsLineStart(doc: Document.Document, pos: Document.Position)
    requires pos.line < |doc.lines|
    ensures LinePrefix(doc, pos) == doc.lines[pos.line][..Min(pos.character, |doc.lines[pos.line]|)]
  {
    var l := pos.line;
    var c := Min(pos.character, |doc.lines[l]|);
    Document.TextBetween(doc.lines, l, l, c);
    assert doc.lines[l..l] + [doc.lines[l][..c]] == [doc.lines[l][..c]];
  }

  /**
   * The context window is the lines from the window's first line to the cursor,
   * at most nineteen of them: the cursor's line and the eighteen above it.
   */
  lemma ContextWindow(doc: Document.Document, pos: Document.Position)
    requires doc.Valid() && pos.line < |doc.lines|
    ensures var c := Min(pos.character, |doc.lines[pos.line]|);
      ContextText(doc, pos) == Join(doc.lines[WindowStart(pos.line)..pos.line] + [doc.lines[pos.line][..c]], "\n")
    ensures CountLines(ContextText(doc, pos)) == pos.line - WindowStart(pos.line) + 1 <= LinesAbove + 1
  {
    var a := WindowStart(pos.line);
    var l := pos.line;
    var c := Min(pos.character, |doc.lines[l]|);
    Document.TextBetween(doc.lines, a, l, c);
    Document.WindowLineCount(doc.lines, a, l, c);
  }
}
