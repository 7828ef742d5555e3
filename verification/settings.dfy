/**
 * The user-facing `smartdevide.*` settings. Each field is None when the user has
 * not set that key; the accessors below apply the default the code passes to
 * `config.get(key, default)`, so every default is declared once, here.
 */
module Settings {
  import opened Wrappers
  import Types

  datatype UserSettings = UserSettings(
    defaultRole: Option<string>,
    defaultModel: Option<string>,
    autoPromptEnhancement: Option<bool>,
    contextAwareness: Option<bool>,
    roleAutoSwitch: Option<bool>,
    showRoleInStatusBar: Option<bool>,
    showModelInStatusBar: Option<bool>,
    telemetryEnabled: Option<bool>,
    openaiApiKey: Option<string>,
    openaiOrganization: Option<string>,
    openaiEnabled: Option<bool>,
    openaiDefaultModel: Option<string>,
    anthropicApiKey: Option<string>,
    anthropicEnabled: Option<bool>,
    anthropicDefaultModel: Option<string>,
    googleApiKey: Option<string>,
    googleEnabled: Option<bool>,
    googleDefaultModel: Option<string>,
    cursorEnabled: Option<bool>,
    cursorDefaultModel: Option<string>,
    enhancementEnabled: Option<bool>,
    enhancementContextAwareness: Option<bool>,
    enhancementRoleBased: Option<bool>,
    enhancementCodePatterns: Option<bool>,
    enhancementBestPractices: Option<bool>,
    enhancementSecurityChecks: Option<bool>,
    inlineEnabled: Option<bool>,
    inlineDebug: Option<bool>,
    inlineUseFastModel: Option<bool>,
    inlineMinPrefixLength: Option<int>,
    inlineMaxTokens: Option<int>,
    suggestionMode: Option<string>,
    suggestionReasoningHint: Option<bool>,
    projectStyleEnabled: Option<bool>)

  /** No key set: every accessor returns its default. */
  const Unset: UserSettings := UserSettings(
    None, None, None, None, None, None, None, None,
    None, None, None, None,
    None, None, None,
    None, None, None,
    None, None,
    None, None, None, None, None, None,
    None, None, None, None, None,
    None, None,
    None)

  /** Default for `inlineCompletion.maxTokens`. */
  const MaxSuggestionTokens: int := 64

  function DefaultRole(s: UserSettings): string { s.defaultRole.GetOr("backend") }
  function DefaultModel(s: UserSettings): string { s.defaultModel.GetOr("gpt-4-turbo") }
  function AutoPromptEnhancement(s: UserSettings): bool { s.autoPromptEnhancement.GetOr(true) }
  function InlineEnabled(s: UserSettings): bool { s.inlineEnabled.GetOr(true) }
  function InlineUseFastModel(s: UserSettings): bool { s.inlineUseFastModel.GetOr(true) }
  function InlineMinPrefixLength(s: UserSettings): int { s.inlineMinPrefixLength.GetOr(1) }
  function InlineMaxTokens(s: UserSettings): int { s.inlineMaxTokens.GetOr(MaxSuggestionTokens) }
  function SuggestionModeSetting(s: UserSettings): string { s.suggestionMode.GetOr("safe") }
  function SuggestionReasoningHint(s: UserSettings): bool { s.suggestionReasoningHint.GetOr(false) }
  function ProjectStyleEnabled(s: UserSettings): bool { s.projectStyleEnabled.GetOr(true) }

  /** The `promptEnhancement.*` switches, each on by default. */
  function EnhancementConfig(s: UserSettings): Types.PromptEnhancementConfig {
    Types.PromptEnhancementConfig(
      s.enhancementEnabled.GetOr(true),
      s.enhancementContextAwareness.GetOr(true),
      s.enhancementRoleBased.GetOr(true),
      s.enhancementCodePatterns.GetOr(true),
      s.enhancementBestPractices.GetOr(true),
      s.enhancementSecurityChecks.GetOr(true))
  }
}
