/** The shipped catalogs: roles, models, the default configuration and the built-in API key. */
module Defaults {
  import opened Wrappers
  import opened Types

  /** The built-in OpenAI key used when the user sets none; shipped empty. */
  const DefaultOpenAIApiKey: string := ""

  const DefaultRoles: seq<RoleMetadata> := [
    RoleMetadata("backend", "Backend Developer", "🔧",
      "Focus on server-side logic, APIs, databases, and scalability",
      ["APIs", "Databases", "Architecture", "Performance", "Security"],
      ["*.controller.ts", "*.service.ts", "*.repository.ts", "routes/*"],
      "Production-ready code with error handling, transactions, caching, and scalability considerations"),
    RoleMetadata("laravel", "Laravel Developer", "🎸",
      "Laravel framework expertise with Eloquent, Blade, and ecosystem",
      ["Eloquent ORM", "Blade Templates", "Artisan", "Middleware", "Laravel Packages"],
      ["*.php", "app/*", "routes/*.php", "resources/views/*.blade.php"],
      "Laravel conventions, Eloquent patterns, service containers, and framework best practices"),
    RoleMetadata("corephp", "Core PHP Developer", "🐘",
      "Pure PHP without frameworks, focusing on performance and fundamentals",
      ["PHP Core", "Performance", "Security", "PDO", "Sessions"],
      ["*.php", "index.php", "config.php"],
      "Clean, efficient PHP code without framework dependencies, focusing on performance and security"),
    RoleMetadata("react", "React Developer", "⚛️",
      "React specialist with hooks, state management, and modern patterns",
      ["React Hooks", "State Management", "Component Design", "TypeScript", "Performance"],
      ["*.tsx", "*.jsx", "components/*", "hooks/*"],
      "Modern React patterns with hooks, TypeScript, proper state management, and component composition"),
    RoleMetadata("frontend", "Frontend Developer", "🎨",
      "UI/UX focused with styling, accessibility, and user experience",
      ["UI/UX", "Responsive Design", "Accessibility", "CSS", "User Experience"],
      ["*.html", "*.css", "*.scss", "*.tsx", "*.jsx"],
      "User-friendly interfaces with accessibility, responsive design, and excellent UX"),
    RoleMetadata("qa", "QA Engineer", "🧪",
      "Testing, validation, security, and quality assurance",
      ["Testing", "Edge Cases", "Security", "Validation", "Coverage"],
      ["*.test.ts", "*.spec.ts", "__tests__/*", "tests/*"],
      "Comprehensive test coverage with edge cases, security validation, and quality assurance"),
    RoleMetadata("techlead", "Tech Lead", "🏗️",
      "Architecture, system design, and technical decision-making",
      ["Architecture", "System Design", "Trade-offs", "Scalability", "Team Leadership"],
      ["*"],
      "Architectural decisions with trade-off analysis, scalability planning, and system design"),
    RoleMetadata("pm", "Project Manager", "📋",
      "Planning, documentation, coordination, and project management",
      ["Planning", "Documentation", "Requirements", "Coordination", "Timelines"],
      ["*.md", "README*", "CHANGELOG*", "docs/*"],
      "Clear documentation, project planning, requirement analysis, and stakeholder communication")
  ]

  const AvailableModels: seq<Model> := [
    Model("gpt-4-turbo", "gpt-4-turbo-preview", "GPT-4 Turbo", OpenAI,
      "Most capable model, best for complex tasks", ["coding", "reasoning", "analysis"],
      128000, Some(Pricing(10.0, 30.0)), Some(4096), true, true),
    Model("gpt-4", "gpt-4", "GPT-4", OpenAI,
      "Reliable and powerful for most tasks", ["coding", "reasoning", "analysis"],
      8192, Some(Pricing(30.0, 60.0)), Some(4096), true, true),
    Model("gpt-3.5-turbo", "gpt-3.5-turbo", "GPT-3.5 Turbo", OpenAI,
      "Fast and cost-effective", ["coding", "general"],
      16385, Some(Pricing(0.5, 1.5)), Some(4096), true, true),
    Model("claude-3-opus", "claude-3-opus-20240229", "Claude 3 Opus", Anthropic,
      "Most intelligent, best for complex analysis", ["coding", "reasoning", "analysis", "long-context"],
      200000, Some(Pricing(15.0, 75.0)), Some(4096), true, true),
    Model("claude-3-sonnet", "claude-3-sonnet-20240229", "Claude 3 Sonnet", Anthropic,
      "Balanced performance and cost", ["coding", "reasoning", "analysis"],
      200000, Some(Pricing(3.0, 15.0)), Some(4096), true, true),
    Model("claude-3-haiku", "claude-3-haiku-20240307", "Claude 3 Haiku", Anthropic,
      "Fast and affordable", ["coding", "general"],
      200000, Some(Pricing(0.25, 1.25)), Some(4096), true, true),
    Model("gemini-pro", "gemini-pro", "Gemini Pro", Google,
      "Google's advanced AI model", ["coding", "reasoning", "multimodal"],
      32768, Some(Pricing(0.5, 1.5)), Some(2048), true, true),
    Model("cursor-default", "cursor-default", "Cursor Default", Cursor,
      "Cursor's native AI model", ["coding", "ide-integration"],
      100000, None, Some(4096), true, false)
  ]

  const DefaultConfig: ExtensionConfig := ExtensionConfig(
    "backend", "gpt-4-turbo", true, true, false, true, true, true,
    map[
      OpenAI := ModelProviderConfig(OpenAI, "OpenAI", None, None, Some("gpt-4-turbo"), false),
      Anthropic := ModelProviderConfig(Anthropic, "Anthropic", None, None, Some("claude-3-sonnet"), false),
      Google := ModelProviderConfig(Google, "Google", None, None, Some("gemini-pro"), false),
      Cursor := ModelProviderConfig(Cursor, "Cursor", None, None, Some("cursor-default"), true)
    ],
    PromptEnhancementConfig(true, true, true, true, true, true))

  /** The enumeration in declaration order, matching the catalog's order. */
  const RoleOrder: seq<DeveloperRole> := [Backend, Laravel, CorePhp, React, Frontend, Qa, TechLead, Pm]

  // ---------------------------------------------------------------------------
  // facts about the shipped catalogs

  /** Role codes are unique, role names are unique, and the names are the enumeration's strings in order. */
  lemma RoleCatalogWellFormed()
    ensures |DefaultRoles| == |RoleOrder| == 8
    ensures forall i :: 0 <= i < |DefaultRoles| ==> DefaultRoles[i].name == RoleOrder[i].Name()
    ensures forall i, j :: 0 <= i < j < |DefaultRoles| ==> DefaultRoles[i].code != DefaultRoles[j].code
    ensures forall i, j :: 0 <= i < j < |DefaultRoles| ==> DefaultRoles[i].name != DefaultRoles[j].name
  {
    RoleInitials();
    forall i, j | 0 <= i < j < |DefaultRoles|
      ensures DefaultRoles[i].code != DefaultRoles[j].code && DefaultRoles[i].name != DefaultRoles[j].name
    {
      assert DefaultRoles[i].code[0] == CodeInitials[i] != CodeInitials[j] == DefaultRoles[j].code[0];
      assert DefaultRoles[i].name[0] == NameInitials[i] != NameInitials[j] == DefaultRoles[j].name[0];
    }
  }

  /** First letters of the catalog's codes and names, in catalog order; no letter repeats. */
  const CodeInitials: string := "blcrfqtp"
  const NameInitials: string := "BLCRFQTP"

  lemma RoleInitials()
    ensures |DefaultRoles| == |RoleOrder| == |CodeInitials| == |NameInitials| == 8
    ensures forall i :: 0 <= i < |DefaultRoles| ==> DefaultRoles[i].name == RoleOrder[i].Name()
    ensures forall i :: 0 <= i < |DefaultRoles| ==>
      |DefaultRoles[i].code| > 0 && DefaultRoles[i].code[0] == CodeInitials[i]
      && |DefaultRoles[i].name| > 0 && DefaultRoles[i].name[0] == NameInitials[i]
  {
  }

  /** Role names start with a capital letter; role codes do not. */
  lemma RoleNamesCapitalised()
    ensures forall k :: 0 <= k < |DefaultRoles| ==>
      |DefaultRoles[k].name| > 0 && 'A' <= DefaultRoles[k].name[0] <= 'Z'
  {
  }

  /** Tech Lead's only pattern is the catch-all `*`, and Tech Lead precedes Project Manager. */
  lemma TechLeadIsCatchAll()
    ensures DefaultRoles[6].name == "Tech Lead" && DefaultRoles[6].filePatterns == ["*"]
    ensures DefaultRoles[7].name == "Project Manager"
  {
  }

  /** Model ids are unique, so a lookup by id is well defined. */
  lemma ModelIdsUnique()
    ensures forall i, j :: 0 <= i < j < |AvailableModels| ==> AvailableModels[i].id != AvailableModels[j].id
  {
  }

  /** `cursor-default` is the only model without pricing; every price is non-negative. */
  lemma PricingFacts()
    ensures forall i :: 0 <= i < |AvailableModels| ==>
      (AvailableModels[i].pricing.None? <==> AvailableModels[i].id == "cursor-default")
    ensures forall i :: 0 <= i < |AvailableModels| && AvailableModels[i].pricing.Some? ==>
      AvailableModels[i].pricing.value.input >= 0.0 && AvailableModels[i].pricing.value.output >= 0.0
  {
  }

  /** `claude-3-opus` is the only model with the long-context capability. */
  lemma LongContextOnlyOpus()
    ensures forall i :: 0 <= i < |AvailableModels| ==>
      ("long-context" in AvailableModels[i].capabilities <==> AvailableModels[i].id == "claude-3-opus")
  {
  }

  /** Only the key-less `cursor` provider is enabled by default, and the built-in key is empty. */
  lemma DefaultConfigFacts()
    ensures forall p :: p in DefaultConfig.models ==> (DefaultConfig.models[p].enabled <==> p == Cursor)
    ensures Local !in DefaultConfig.models
    ensures DefaultOpenAIApiKey == ""
  {
  }
}
