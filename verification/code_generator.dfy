/**
 * Code generation from a prompt: the role's system prompt, the API key chosen
 * from the user's setting or the built-in key, and the single chat call whose
 * result becomes `{content, error}`.
 */
module CodeGenerator {
  import opened Wrappers
  import opened Text
  import opened Types
  import Settings
  import RoleManager
  import ModelManager
  import Defaults
  import OpenAIClient

  const DefaultBias: string := "Write clear, correct code."

  const RulesBlock: string :=
    "Rules:\n- Output only the requested code or content. No extra commentary before or after unless the user asks for explanation.\n- Use the language and framework appropriate to the current file and project.\n- Follow best practices and keep code production-ready.\n- If the request is ambiguous, make a reasonable choice and keep the response focused."

  const NoKeyError: string :=
    "OpenAI API key not available. You can set your own in Settings (smartdevide.models.openai.apiKey) or use the extension as-is."

  /** `meta?.promptBias || 'Write clear, correct code.'` for the catalog entry named `role`. */
  function RoleBias(catalog: seq<RoleMetadata>, role: string): (r: string)
    ensures r != ""
    ensures (exists k :: 0 <= k < |catalog| && catalog[k].name == role) <==> RoleManager.FindByName(catalog, role).Some?
    ensures RoleManager.FindByName(catalog, role).Some? && RoleManager.FindByName(catalog, role).value.promptBias != "" ==>
      r == RoleManager.FindByName(catalog, role).value.promptBias
    ensures RoleManager.FindByName(catalog, role).None? ==> r == DefaultBias
  {
    match RoleManager.FindByName(catalog, role)
    case Some(meta) => if meta.promptBias != "" then meta.promptBias else DefaultBias
    case None => DefaultBias
  }

  /** The first line of the system prompt, naming the role. */
  function Intro(role: string): string {
    "You are an expert developer acting as: " + role + "."
  }

  /** `getSystemPromptForRole(role)`. */
  function GetSystemPromptForRole(catalog: seq<RoleMetadata>, role: string): (r: string)
    ensures StartsWith(r, Intro(role))
    ensures EndsWith(r, RulesBlock)
    ensures Contains(r, "\n\nYour approach: " + RoleBias(catalog, role) + "\n\n")
  {
    var body := "\n\nYour approach: " + RoleBias(catalog, role) + "\n\n";
    Framed(Intro(role), body, RulesBlock);
    ContainsPiece(Intro(role), body, RulesBlock);
    Intro(role) + body + RulesBlock
  }

  /** The prompt states the catalog bias of a known role when it has one, and the generic bias otherwise. */
  lemma PromptCarriesBias(catalog: seq<RoleMetadata>, role: string)
    ensures RoleManager.FindByName(catalog, role).Some? && RoleManager.FindByName(catalog, role).value.promptBias != "" ==>
      Contains(GetSystemPromptForRole(catalog, role),
               "\n\nYour approach: " + RoleManager.FindByName(catalog, role).value.promptBias + "\n\n")
    ensures RoleManager.FindByName(catalog, role).None? ==>
      Contains(GetSystemPromptForRole(catalog, role), "\n\nYour approach: " + DefaultBias + "\n\n")
  {
  }

  /** `getOpenAIKey()`: the trimmed user key when it is not blank, else the trimmed built-in key when that is not blank. */
  function GetOpenAIKey(settings: Settings.UserSettings, defaultKey: string): (r: Option<string>)
    ensures r.Some? ==> r.value != "" && IsTrimmed(r.value)
    ensures Truthy(settings.openaiApiKey) && !IsBlank(settings.openaiApiKey.value) ==>
      r == Some(Trim(settings.openaiApiKey.value))
    ensures !(Truthy(settings.openaiApiKey) && !IsBlank(settings.openaiApiKey.value)) && !IsBlank(defaultKey) ==>
      r == Some(Trim(defaultKey))
    ensures !(Truthy(settings.openaiApiKey) && !IsBlank(settings.openaiApiKey.value)) && IsBlank(defaultKey) ==>
      r.None?
  {
    var userKey := settings.openaiApiKey;
    if Truthy(userKey) && Trim(userKey.value) != "" then Some(Trim(userKey.value))
    else if Trim(defaultKey) != "" then Some(Trim(defaultKey))
    else None
  }

  /** `enhancedPrompt && enhancedPrompt.trim() !== '' ? enhancedPrompt : userPrompt`. */
  function PromptToSend(userPrompt: string, enhancedPrompt: Option<string>): (r: string)
    ensures enhancedPrompt.Some? && !IsBlank(enhancedPrompt.value) ==> r == enhancedPrompt.value
    ensures enhancedPrompt.None? || IsBlank(enhancedPrompt.value) ==> r == userPrompt
  {
    if Truthy(enhancedPrompt) && Trim(enhancedPrompt.value) != "" then enhancedPrompt.value else userPrompt
  }

  /** What `generateCode` hands back, with the request it sent when it sent one. */
  datatype Generated = Generated(request: Option<OpenAIClient.ChatRequest>, content: string, error: Option<string>)

  /** `generateCode(userPrompt, role, modelId, enhancedPrompt)`; `http` is the outcome of the one chat call. */
  function GenerateCode(settings: Settings.UserSettings, defaultKey: string, catalog: seq<RoleMetadata>,
                        userPrompt: string, role: string, modelId: string, enhancedPrompt: Option<string>,
                        http: OpenAIClient.HttpOutcome): (r: Generated)
    ensures GetOpenAIKey(settings, defaultKey).None? ==>
      r.request.None? && r.content == "" && r.error == Some(NoKeyError)
    ensures GetOpenAIKey(settings, defaultKey).Some? ==>
      r.request.Some? && r.request.value.apiKey == GetOpenAIKey(settings, defaultKey).value
      && r.request.value.messages == [
        OpenAIClient.ChatMessage(OpenAIClient.System, GetSystemPromptForRole(catalog, role)),
        OpenAIClient.ChatMessage(OpenAIClient.User, PromptToSend(userPrompt, enhancedPrompt))]
      && r.request.value.maxTokens == OpenAIClient.DefaultMaxTokens
      && r.request.value.model == OpenAIClient.AliasModel(modelId)
    ensures r.request.Some? ==>
      r.error == OpenAIClient.Interpret(r.request.value, http).error
      && (r.error.None? ==> r.content == OpenAIClient.Interpret(r.request.value, http).content)
    ensures r.error.Some? ==> r.content == ""
  {
    match GetOpenAIKey(settings, defaultKey)
    case None => Generated(None, "", Some(NoKeyError))
    case Some(apiKey) =>
      var messages := [
        OpenAIClient.ChatMessage(OpenAIClient.System, GetSystemPromptForRole(catalog, role)),
        OpenAIClient.ChatMessage(OpenAIClient.User, PromptToSend(userPrompt, enhancedPrompt))];
      var (request, result) := OpenAIClient.CompleteChat(apiKey, modelId, messages, OpenAIClient.DefaultMaxTokens, http);
      if Truthy(result.error) then Generated(Some(request), "", result.error)
      else Generated(Some(request), result.content, None)
  }

  // ---------------------------------------------------------------------------
  // properties

  /** The key generation uses is the key the configuration record reports for OpenAI. */
  lemma KeyMatchesConfig(settings: Settings.UserSettings, defaultKey: string)
    ensures GetOpenAIKey(settings, defaultKey) == ModelManager.OpenAIConfigKey(settings.openaiApiKey, defaultKey)
  {
  }

  /** In a catalog with unique names, every entry with a bias is prompted with its own bias. */
  lemma OwnBias(catalog: seq<RoleMetadata>, k: nat)
    requires k < |catalog| && catalog[k].promptBias != ""
    requires forall i, j :: 0 <= i < j < |catalog| ==> catalog[i].name != catalog[j].name
    ensures RoleBias(catalog, catalog[k].name) == catalog[k].promptBias
  {
    var found := RoleManager.FindByName(catalog, catalog[k].name);
    assert found.Some?;
    var j :| 0 <= j < |catalog| && catalog[j] == found.value;
    assert j == k;
  }

  /** The default role setting names no catalog entry, so generation falls back to the generic bias. */
  lemma DefaultRoleGetsGenericBias()
    ensures RoleBias(Defaults.DefaultRoles, Settings.DefaultRole(Settings.Unset)) == DefaultBias
  {
    RoleManager.DefaultRoleHasNoMetadata();
  }

  /** A blank enhanced prompt is ignored: the user's own prompt is sent. */
  lemma BlankEnhancementIgnored(settings: Settings.UserSettings, defaultKey: string, catalog: seq<RoleMetadata>,
                                userPrompt: string, role: string, modelId: string, blank: string,
                                http: OpenAIClient.HttpOutcome)
    requires IsBlank(blank) && GetOpenAIKey(settings, defaultKey).Some?
    ensures GenerateCode(settings, defaultKey, catalog, userPrompt, role, modelId, Some(blank), http).request
         == GenerateCode(settings, defaultKey, catalog, userPrompt, role, modelId, None, http).request
  {
  }
}
