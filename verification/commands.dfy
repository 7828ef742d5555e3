/**
 * What the editor commands that make one chat call have in common: the notice
 * shown to the user, the test that a reply is worth showing, and the markdown
 * report layout of the review commands.
 */
module Commands {
  import opened Wrappers
  import opened Text
  import OpenAIClient

  /** A message shown to the user. */
  datatype Notice = Info(text: string) | Warning(text: string) | Error(text: string)

  /** The notice of the Quick-Fix and security-review commands when no key is available. */
  const NoKeyNotice: string := "SmartDevIDE: No API key. Set smartdevide.models.openai.apiKey or use the extension default."

  /** `result.error || !result.content?.trim()` is false: no error and a non-blank reply. */
  predicate Usable(result: OpenAIClient.ChatResult) {
    !Truthy(result.error) && !IsBlank(result.content)
  }

  /** `SmartDevIDE: ${result.error || fallback}`: the notice for a failed or blank reply. */
  function FailureNotice(result: OpenAIClient.ChatResult, fallback: string): (r: Notice)
    ensures r.Error?
    ensures Truthy(result.error) ==> r.text == "SmartDevIDE: " + result.error.value
    ensures !Truthy(result.error) ==> r.text == "SmartDevIDE: " + fallback
  {
    Error("SmartDevIDE: " + (if Truthy(result.error) then result.error.value else fallback))
  }

  /** The header of a report: its title, the file and the language. */
  function ReportHeader(title: string, fileName: string, languageId: string): string {
    "# SmartDevIDE: " + title + "\n\n**File:** " + fileName + "\n**Language:** " + languageId + "\n\n---\n\n"
  }

  /** A markdown report: the header, then the trimmed reply. */
  function Report(title: string, fileName: string, languageId: string, content: string): (r: string)
    ensures StartsWith(r, ReportHeader(title, fileName, languageId))
    ensures EndsWith(r, Trim(content))
  {
    Framed(ReportHeader(title, fileName, languageId), "", Trim(content));
    assert ReportHeader(title, fileName, languageId) + "" + Trim(content)
        == ReportHeader(title, fileName, languageId) + Trim(content);
    ReportHeader(title, fileName, languageId) + Trim(content)
  }

  /** A report always shows the reply in full after its header, so no reply is lost or altered beyond the trim. */
  lemma ReportRecoversReply(title: string, fileName: string, languageId: string, content: string)
    ensures Report(title, fileName, languageId, content)[|ReportHeader(title, fileName, languageId)|..] == Trim(content)
  {
  }
}
