/** The records of the extension's type definitions (roles, models, configuration, prompts). */
module Types {
  import opened Wrappers

  /** The developer-role enumeration; each value's string is the role's display name. */
  datatype DeveloperRole = Backend | Laravel | CorePhp | React | Frontend | Qa | TechLead | Pm
  {
    function Name(): string {
      match this
      case Backend => "Backend Developer"
      case Laravel => "Laravel Developer"
      case CorePhp => "Core PHP Developer"
      case React => "React Developer"
      case Frontend => "Frontend Developer"
      case Qa => "QA Engineer"
      case TechLead => "Tech Lead"
      case Pm => "Project Manager"
    }
  }

  /** One persona of the role catalog. */
  datatype RoleMetadata = RoleMetadata(
    code: string,
    name: string,
    icon: string,
    description: string,
    focusAreas: seq<string>,
    filePatterns: seq<string>,
    promptBias: string)

  datatype Provider = OpenAI | Anthropic | Google | Cursor | Local
  {
    /** The provider's configuration key. */
    function Id(): string {
      match this
      case OpenAI => "openai"
      case Anthropic => "anthropic"
      case Google => "google"
      case Cursor => "cursor"
      case Local => "local"
    }
  }

  /** Price in dollars per million tokens. */
  datatype Pricing = Pricing(input: real, output: real)

  /** One entry of the model catalog. */
  datatype Model = Model(
    id: string,
    name: string,
    displayName: string,
    provider: Provider,
    description: string,
    capabilities: seq<string>,
    contextWindow: nat,
    pricing: Option<Pricing>,
    maxTokens: Option<nat>,
    supportsStreaming: bool,
    supportsFunctions: bool)

  datatype ModelProviderConfig = ModelProviderConfig(
    id: Provider,
    name: string,
    apiKey: Option<string>,
    organization: Option<string>,
    defaultModel: Option<string>,
    enabled: bool)

  datatype PromptEnhancementConfig = PromptEnhancementConfig(
    enabled: bool,
    contextAwareness: bool,
    roleBasedEnhancement: bool,
    codePatternSuggestions: bool,
    bestPracticesInjection: bool,
    securityChecks: bool)

  /** The configuration record; `models` holds only the providers that have a configuration. */
  datatype ExtensionConfig = ExtensionConfig(
    defaultRole: string,
    defaultModel: string,
    autoPromptEnhancement: bool,
    contextAwareness: bool,
    roleAutoSwitch: bool,
    showRoleInStatusBar: bool,
    showModelInStatusBar: bool,
    telemetryEnabled: bool,
    models: map<Provider, ModelProviderConfig>,
    promptEnhancement: PromptEnhancementConfig)

  /** What the prompt enhancer gathers from the editor and workspace. */
  datatype PromptContext = PromptContext(
    currentFile: Option<string>,
    fileType: Option<string>,
    projectType: Option<string>,
    recentFiles: seq<string>,
    openFiles: seq<string>,
    selectedCode: Option<string>,
    workspaceRoot: Option<string>)

  datatype EnhancementType = ContextKind | RoleKind | PatternKind | SecurityKind | BestPracticeKind

  datatype Impact = Low | Medium | High

  datatype Enhancement = Enhancement(
    kind: EnhancementType,
    description: string,
    impact: Impact,
    addedContent: Option<string>)

  datatype EnhancedPrompt = EnhancedPrompt(
    originalPrompt: string,
    enhancedPrompt: string,
    context: PromptContext,
    role: string,
    model: string,
    enhancements: seq<Enhancement>)
}
