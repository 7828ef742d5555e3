/**
 * The security-review command: the selection (or the whole document) is sent
 * to the chat model together with the labels of the quick heuristic scan, and
 * the answer is opened as a markdown report.
 */
module SecurityReview {
  import opened Wrappers
  import opened Text
  import Security
  import Settings
  import OpenAIClient
  import CodeGenerator
  import Document
  import opened Commands

  const ReviewerSystem: string :=
    "You are a security-focused code reviewer. Analyze the provided code snippet for:\n\n1. **SQL injection** – User input (e.g. $_GET, $_POST, request params) concatenated into SQL. Recommend parameterized queries / prepared statements.\n2. **Insecure auth** – Plain-text or weak hashing (MD5, SHA1) for passwords; missing CSRF; session issues. Recommend password_hash/bcrypt, CSRF tokens.\n3. **Hardcoded secrets** – API keys, passwords, tokens in source. Recommend environment variables or secure config.\n4. **Other** – XSS, path traversal, insecure deserialization, or missing validation where relevant.\n\nOutput a short markdown report: for each finding give severity (High/Medium/Low), what’s wrong, and a one-line fix or recommendation. If nothing stands out, say \"No obvious issues found.\" Keep it concise."

  const ReviewMaxTokens: int := 1024

  const HintsHeading: string := "\nQuick-scan hints (check these):\n"

  const ReportTitle: string := "Security Review"

  /** The hint block of the user message: empty without hints, else a heading and one `- ` line per hint. */
  function HintBlock(hints: seq<string>): (r: string)
    ensures r == "" <==> hints == []
    ensures hints != [] ==> StartsWith(r, HintsHeading) && EndsWith(r, "\n")
    ensures forall i :: 0 <= i < |hints| ==> Contains(r, "- " + hints[i])
  {
    if hints == [] then ""
    else
      var lines := Join(PrefixEach("- ", hints), "\n");
      Framed(HintsHeading, lines, "\n");
      forall i | 0 <= i < |hints|
        ensures Contains(HintsHeading + lines + "\n", "- " + hints[i])
      {
        JoinContainsPart(PrefixEach("- ", hints), "\n", i);
        ContainsInSuffix(HintsHeading, lines, "- " + hints[i]);
        ContainsInPrefix(HintsHeading + lines, "\n", "- " + hints[i]);
      }
      HintsHeading + lines + "\n"
  }

  const Closing: string := "\n\nProvide a short security review (markdown)."

  /** The user message up to the hint block: the language and the fenced code. */
  function CodePart(languageId: string, code: string): (r: string)
    ensures StartsWith(r, "Language: " + languageId)
  {
    var head := "Language: " + languageId;
    var rest := "\n\nCode to review:\n```\n" + code + "\n```\n";
    Framed(head, rest, "");
    assert head + rest + "" == head + rest;
    head + rest
  }

  /** The user message for `code` with the given hints: the code part, the hint block, the request. */
  function UserContentWith(languageId: string, code: string, hints: seq<string>): (r: string)
    ensures StartsWith(r, CodePart(languageId, code)) && EndsWith(r, Closing)
  {
    Framed(CodePart(languageId, code), HintBlock(hints), Closing);
    CodePart(languageId, code) + HintBlock(hints) + Closing
  }

  /** The user message: the code with the quick scan's labels as hints. */
  function ReviewUserContent(languageId: string, code: string): (r: string)
    ensures StartsWith(r, CodePart(languageId, code)) && EndsWith(r, Closing)
    ensures Security.Risks(code) == [] ==> r == CodePart(languageId, code) + Closing
    ensures Security.Risks(code) != [] ==> Contains(r, HintsHeading)
    ensures forall i :: 0 <= i < |Security.Risks(code)| ==> Contains(r, "- " + Security.Risks(code)[i].Label())
  {
    var hints := Security.QuickScan(code);
    HintsIffAny(languageId, code, hints);
    AllHintsListed(languageId, code, hints);
    UserContentWith(languageId, code, hints)
  }

  /** What the command did: the request it sent, the report it opened, or the notice it showed. */
  datatype ReviewOutcome = ReviewOutcome(request: Option<OpenAIClient.ChatRequest>, report: Option<string>,
                                         notice: Option<Notice>)

  /** `runSecurityReview(document, range)`. */
  function RunSecurityReview(settings: Settings.UserSettings, defaultKey: string, modelId: string,
                             doc: Document.Document, range: Option<Document.Range>, http: OpenAIClient.HttpOutcome)
    : (r: ReviewOutcome)
    ensures CodeGenerator.GetOpenAIKey(settings, defaultKey).None? ==>
      r.request.None? && r.report.None? && r.notice == Some(Error(NoKeyNotice))
    ensures CodeGenerator.GetOpenAIKey(settings, defaultKey).Some? ==>
      r.request.Some? && r.request.value.apiKey == CodeGenerator.GetOpenAIKey(settings, defaultKey).value
      && r.request.value.model == OpenAIClient.AliasModel(OpenAIClient.ChatModelOrDefault(modelId))
      && r.request.value.maxTokens == ReviewMaxTokens
      && r.request.value.messages == [
        OpenAIClient.ChatMessage(OpenAIClient.System, ReviewerSystem),
        OpenAIClient.ChatMessage(OpenAIClient.User, ReviewUserContent(doc.languageId, doc.SelectedText(range)))]
    ensures r.report.Some? <==> r.notice.None?
    ensures r.report.Some? ==>
      r.request.Some? && Usable(OpenAIClient.Interpret(r.request.value, http))
      && r.report.value == Report(ReportTitle, doc.fileName, doc.languageId,
                                  OpenAIClient.Interpret(r.request.value, http).content)
    ensures r.request.Some? && !Usable(OpenAIClient.Interpret(r.request.value, http)) ==>
      r.notice == Some(FailureNotice(OpenAIClient.Interpret(r.request.value, http), "No review returned"))
  {
    match CodeGenerator.GetOpenAIKey(settings, defaultKey)
    case None => ReviewOutcome(None, None, Some(Error(NoKeyNotice)))
    case Some(apiKey) =>
      var messages := [
        OpenAIClient.ChatMessage(OpenAIClient.System, ReviewerSystem),
        OpenAIClient.ChatMessage(OpenAIClient.User, ReviewUserContent(doc.languageId, doc.SelectedText(range)))];
      var (request, result) := OpenAIClient.CompleteChat(apiKey, OpenAIClient.ChatModelOrDefault(modelId), messages,
        ReviewMaxTokens, http);
      if !Usable(result) then ReviewOutcome(Some(request), None, Some(FailureNotice(result, "No review returned")))
      else ReviewOutcome(Some(request), Some(Report(ReportTitle, doc.fileName, doc.languageId, result.content)), None)
  }

  // ---------------------------------------------------------------------------
  // properties

  /** The hint heading is in the user message exactly when there are hints. */
  lemma HintsIffAny(languageId: string, code: string, hints: seq<string>)
    ensures hints == [] ==> UserContentWith(languageId, code, hints) == CodePart(languageId, code) + Closing
    ensures hints != [] ==> Contains(UserContentWith(languageId, code, hints), HintsHeading)
  {
    var pre := CodePart(languageId, code);
    var block := HintBlock(hints);
    if hints == [] {
      assert pre + block + Closing == pre + Closing;
    } else {
      assert OccursAt(block, HintsHeading, 0);
      ContainsIff(block, HintsHeading);
      ContainsInSuffix(pre, block, HintsHeading);
      ContainsInPrefix(pre + block, Closing, HintsHeading);
    }
  }

  /** All hints are listed as `- ` lines of the user message. */
  lemma AllHintsListed(languageId: string, code: string, hints: seq<string>)
    ensures forall i :: 0 <= i < |hints| ==> Contains(UserContentWith(languageId, code, hints), "- " + hints[i])
  {
    forall i | 0 <= i < |hints|
      ensures Contains(UserContentWith(languageId, code, hints), "- " + hints[i])
    {
      HintListed(languageId, code, hints, i);
    }
  }

  /** Every hint is listed as a `- ` line of the user message. */
  lemma HintListed(languageId: string, code: string, hints: seq<string>, i: nat)
    requires i < |hints|
    ensures Contains(UserContentWith(languageId, code, hints), "- " + hints[i])
  {
    var pre := CodePart(languageId, code);
    var block := HintBlock(hints);
    ContainsInSuffix(pre, block, "- " + hints[i]);
    ContainsInPrefix(pre + block, Closing, "- " + hints[i]);
  }

  /** The hint heading appears exactly when the quick scan finds a risk, and each risk found is listed. */
  lemma ScanDrivesHints(languageId: string, code: string, i: nat)
    requires i < |Security.Risks(code)|
    ensures Contains(ReviewUserContent(languageId, code), HintsHeading)
    ensures Contains(ReviewUserContent(languageId, code), "- " + Security.Risks(code)[i].Label())
  {
    var hints := Security.QuickScan(code);
    HintsIffAny(languageId, code, hints);
    HintListed(languageId, code, hints, i);
  }

  /** Without a risk the message carries no hint block at all. */
  lemma NoRiskNoHints(languageId: string, code: string)
    requires Security.Risks(code) == []
    ensures ReviewUserContent(languageId, code) == CodePart(languageId, code) + Closing
  {
    HintsIffAny(languageId, code, Security.QuickScan(code));
  }

  /** Without a selection the whole document is reviewed. */
  lemma WholeDocumentWithoutSelection(settings: Settings.UserSettings, defaultKey: string, modelId: string,
                                      doc: Document.Document, http: OpenAIClient.HttpOutcome)
    requires CodeGenerator.GetOpenAIKey(settings, defaultKey).Some?
    ensures RunSecurityReview(settings, defaultKey, modelId, doc, None, http).request.value.messages[1].content
         == ReviewUserContent(doc.languageId, doc.FullText())
  {
  }
}
