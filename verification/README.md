# SmartDevIDE core, modelled in Dafny

SmartDevIDE is a VS Code extension. It holds developer roles and AI models, builds prompts and sends them to one chat-completion endpoint. It shows the replies as inline suggestions, Quick-Fix edits, explanations, security reviews, generated tests and static-check summaries. Almost all of the extension is editor glue around that one HTTP call. This project models the deterministic logic underneath:

- the shipped catalogs: roles, models, default configuration;
- role detection from file-name globs, and the role and model selection state;
- model availability, validation, cost and recommendation;
- prompt assembly:
  - suggestion-mode instructions;
  - role system prompts and key precedence;
  - the five-stage prompt enhancer;
  - the project-style suffix;
  - the security quick-scan hints;
- the chat client's model aliasing, request fields and result interpretation;
- the reply sanitiser used by inline suggestions and Quick-Fix;
- each editor feature, as a function from its inputs (settings, document, cancellation flags, the HTTP outcome, the edit target) to the request it sends and what it shows or writes;
- the static-check tool choice, verdicts and summary.

The editor, the configuration store and the network become explicit parameters:

- `Settings.UserSettings` holds one `Option` per setting key. The code's defaults are applied in one place in `settings.dfy`.
- `Document.Document` is a sequence of lines with a file name and language id.
- `OpenAIClient.HttpOutcome` is the result of the HTTP exchange: it threw, or a response with status and parsed body arrived.
- Cancellation is two booleans: before the call and after it.
- `CodeActions.EditTarget` plus an `accepted` flag stand for the editor or workspace edit.
- The process runner of the static checks is a function `Tool -> Printed`.
- The workspace scan of the project-style builder is `ProjectStyle.Discovered`.

Modules follow the source files. `text.dfy` and `seqs.dfy` model the JavaScript string and array operations the code uses: `trim` over the full JavaScript whitespace set, `split`, `join`, `includes`, `lastIndexOf`, ASCII `toLowerCase`, `find` and `filter`. The modules are:

- `glob.dfy`: the role-pattern matcher;
- `document.dfy`: `getText` over a range;
- `sanitizer.dfy`: the fence strip and line caps;
- `commands.dfy`: the notices and report documents shared by the commands.

## Model

| member | source | states |
|---|---|---|
| Defaults.RoleCatalogWellFormed | out/config/defaults.js:6-79 | the catalog has eight roles whose names are the `DeveloperRole` strings in order, with unique codes and unique names |
| Defaults.TechLeadIsCatchAll | out/config/defaults.js:62-77 | Tech Lead's only pattern is `*`, and it comes just before Project Manager |
| Defaults.ModelIdsUnique | out/config/defaults.js:80-188 | no two models share an id, so lookup by id is well defined |
| Defaults.PricingFacts | out/config/defaults.js:80-188 | `cursor-default` is the only model without pricing; every price is non-negative |
| Defaults.LongContextOnlyOpus | out/config/defaults.js:121-133 | exactly `claude-3-opus` has the `long-context` capability |
| Defaults.DefaultConfigFacts | out/config/defaults.js:189-232 | in the default configuration only `cursor` is enabled and the default key is empty |
| Glob.Compile | src/roleManager.ts:121-128 | a pattern compiles token for token: `*` becomes any-run, `?` and `.` become any-character, everything else a literal |
| Glob.ParseSource | src/roleManager.ts:123-126 | parsing the rewritten regex source (`*`→`.*`, `?`→`.`) yields exactly the compiled pattern |
| Glob.TestIff | src/roleManager.ts:127 | an unanchored regex test succeeds iff some substring of the file name matches the whole pattern |
| Glob.StarMatchesAll | src/roleManager.ts:124-127 | the pattern `*` matches every file name |
| Glob.LiteralMatchesAnywhere | src/roleManager.ts:123-127 | a wildcard-free pattern matches any name containing it, in any letter case |
| RoleManager.SetRole | src/roleManager.ts:56-60 | after setting, the current role and the persisted value are exactly the given role |
| RoleManager.FindByName | src/roleManager.ts:72-74 | returns the first catalog entry with that name (`Array.find`), and none exactly when no entry has it |
| RoleManager.GetRoleByCode | src/roleManager.ts:79-81 | returns the first catalog entry with that code, and none exactly when no entry has it |
| RoleManager.GetCurrentRoleMetadata | src/roleManager.ts:72-74 | the metadata found has the current role's name; none iff no entry has that name |
| RoleManager.FirstMatchingRole | src/roleManager.ts:96-102 | the first role, in catalog order, with some pattern matching the file name; none iff no role matches |
| RoleManager.AutoDetectRole | src/roleManager.ts:86-116 | no editor gives no role; else the first matching role's name; else the language table's entry, if any |
| RoleManager.LoadSelectedRole | src/roleManager.ts:133-137 | a truthy saved value wins, otherwise the configured default role |
| RoleManager.SetRoleUnvalidated | src/roleManager.ts:56-74 | a role not in the catalog is accepted and then has no metadata |
| RoleManager.ShippedCatalogAlwaysDetects | src/roleManager.ts:96-102 | with the shipped catalog every open file gets a role from the first seven entries, never Project Manager |
| RoleManager.FallbackToLanguage | src/roleManager.ts:105-115 | when no pattern matches, the result is the language table's role or nothing |
| RoleManager.FallbackExamples | src/roleManager.ts:105-115 | `php` falls back to Core PHP Developer, `markdown` to Project Manager, `plaintext` to nothing |
| RoleManager.DefaultRoleHasNoMetadata | src/roleManager.ts:133-137 | the default `backend` is a code: name lookup finds nothing, code lookup finds the entry |
| Seqs.FilterIndices | src/models/modelManager.ts:41 | a filter's result is the matching elements at strictly increasing positions, and every matching position is among them |
| ModelManager.GetModelById | src/models/modelManager.ts:32-34 | returns the first catalog model with that id (`Array.find`); none iff no model has it |
| ModelManager.GetAvailableModels | src/models/modelManager.ts:39-45 | keeps exactly the catalog models whose provider is configured and enabled; its head is the first such model of the catalog |
| ModelManager.AvailableInCatalogOrder | src/models/modelManager.ts:39-45 | the available models are catalog entries at strictly increasing catalog positions, so catalog order is kept |
| ModelManager.SetModel | src/models/modelManager.ts:99-123 | unknown id fails with `Model not found: id`; disabled provider changes nothing; otherwise current and persisted become the id |
| ModelManager.ValidateModel | src/models/modelManager.ts:128-190 | `Model not found`, then `Provider X not configured` (enabled, and a truthy key unless cursor/local), else valid |
| ModelManager.CalculateCost | src/models/modelManager.ts:155-165 | undefined iff the model or its pricing is missing; non-negative for non-negative tokens and prices |
| ModelManager.CostOfUnits | src/models/modelManager.ts:155-165 | prices are per million tokens: a million input tokens cost the input price, a million output tokens the output price, nothing costs zero |
| ModelManager.CostAdditive | src/models/modelManager.ts:155-165 | the cost of two requests' summed token counts is the sum of their costs |
| ModelManager.Gpt4Cost | src/models/modelManager.ts:155-165 | with the shipped catalog, 1000 input and 500 output tokens of `gpt-4` cost 0.06 |
| ModelManager.SortByWindowDesc | src/models/modelManager.ts:207 | a permutation of its input ordered by descending context window |
| ModelManager.SortHeadIsFirstMax | src/models/modelManager.ts:207-208 | the head of the sort is the earliest model of maximal context window (stable sort) |
| ModelManager.GetRecommendedModel | src/models/modelManager.ts:195-209 | the result is an available model, and none iff nothing is available |
| ModelManager.RecommendedModelSpec | src/models/modelManager.ts:195-209 | no suitable model gives the first available one; otherwise a suitable model of maximal window that precedes, in the suitable list, every other of that window |
| ModelManager.RecommendedInCatalogOrder | src/models/modelManager.ts:195-209 | in catalog terms: the suitable catalog model of maximal window with the smallest catalog position; with none suitable, the first enabled catalog model |
| ModelManager.LoadSelectedModel | src/models/modelManager.ts:245-249 | a truthy saved id wins, otherwise the configured default model |
| ModelManager.OpenAIConfigKey | src/models/modelManager.ts:269 | the trimmed user key if non-blank, else the trimmed default key if non-blank, else none |
| ModelManager.GetConfig | src/models/modelManager.ts:254-304 | the Anthropic and Google keys passed through, the OpenAI key derivation, and each provider's enabled flag with its default |
| ModelManager.LookupUnique | src/models/modelManager.ts:32-34 | with unique ids, looking up a model's own id returns that model |
| ModelManager.ValidImpliesSelectable | src/models/modelManager.ts:99-123 | a model that validates can always be selected |
| ModelManager.EnabledButUnconfigured | src/models/modelManager.ts:178-190 | an enabled provider without a key: selection succeeds while validation fails |
| ModelManager.SelectableButInvalid | src/models/modelManager.ts:178-190 | concretely, OpenAI enabled with no key: `gpt-4` is selected yet reported `Provider openai not configured` |
| ModelManager.KeylessOpenAI | src/models/modelManager.ts:128-142 | enabling OpenAI without any key leaves it enabled but not configured |
| ModelManager.DefaultAvailability | src/models/modelManager.ts:39-45 | with default settings and the empty default key only Cursor models are available |
| ModelManager.ShippedCosts | src/models/modelManager.ts:155-165 | among catalog ids, cost is undefined exactly for `cursor-default` and otherwise non-negative |
| SuggestionMode.ConfiguredMode | src/ai/suggestionMode.ts:18 | the configured mode, an unset or empty value counting as `safe` |
| SuggestionMode.ValidMode | src/ai/suggestionMode.ts:19 | one of the three modes: the given one if it is a mode, else `safe` (corrected lookup) |
| SuggestionMode.InstructionParts | src/ai/suggestionMode.ts:20-25 | anti-hallucination text, the mode's instruction, and the hint iff enabled and not a fix |
| SuggestionMode.GetSuggestionModeInstructions | src/ai/suggestionMode.ts:16-27 | always starts with the anti-hallucination text and a space |
| SuggestionMode.InstructionsShape | src/ai/suggestionMode.ts:22-26 | the exact space-joined text, with the hint sentence exactly when asked for |
| SuggestionMode.FixHasNoHint | src/ai/suggestionMode.ts:23 | a fix request never carries the reasoning hint |
| SuggestionMode.DefaultsToSafe | src/ai/suggestionMode.ts:18-19 | an unset or unknown mode selects the safe instruction |
| SuggestionMode.ValidModeAsWritten | src/ai/suggestionMode.ts:19 | as written: modes and inherited object members pass, everything else becomes `safe` |
| SuggestionMode.InstructionsAsWritten | src/ai/suggestionMode.ts:16-27 | the instructions as the code computes them still start with the anti-hallucination text |
| SuggestionMode.AsWrittenAgreesOffPrototype | src/ai/suggestionMode.ts:19-26 | off the inherited member names the code and the corrected lookup agree |
| SuggestionMode.ToStringLookup | src/ai/suggestionMode.ts:19-22 | the lookup as written keeps `toString` and prints a native function for it; the corrected lookup turns it into `safe` |
| SuggestionMode.ToStringModeAccepted | src/ai/suggestionMode.ts:19-22 | mode `toString` sends a printed native function instead of an instruction, where `safe` was intended |
| Security.Pick | src/ai/security.ts:12-24 | the selected risks, each once, in the fixed order SQL, auth, secret |
| Security.Risks | src/ai/security.ts:14-23 | each risk is reported iff its own condition holds; at most three, in order |
| Security.QuickScan | src/ai/security.ts:11-25 | one label per risk found, in the scan's order |
| Security.LabelsDistinct | src/ai/security.ts:16-22 | different risks have different labels |
| Security.NoTriggerWordsNoHints | src/ai/security.ts:11-25 | code without SQL verbs, `password`, `api`, `secret` or `sk-` gets no label |
| Security.NoSecretNameNoSecret | src/ai/security.ts:21 | neither secret regex can match without a secret name or `sk-` |
| Security.SafeHashingNotFlagged | src/ai/security.ts:18 | any `password_hash` or `bcrypt` silences the auth label |
| Security.PreparedQueryNotFlagged | src/ai/security.ts:14-15 | no superglobals and no `+` means no SQL-injection label |
| Security.QuotedPasswordFlagged | src/ai/security.ts:21 | `password='…'` after a non-word character is labelled a hardcoded secret |
| Security.WordBoundaryRequired | src/ai/security.ts:21 | a secret name glued to a preceding word character does not match there |
| ProjectStyle.NamingDisjoint | src/ai/projectStyle.ts:50-64 | the four naming shapes are pairwise exclusive |
| ProjectStyle.Classify | src/ai/projectStyle.ts:83-86 | the label given is exactly the shape the name has, none iff it has no shape |
| ProjectStyle.StripExtension | src/ai/projectStyle.ts:80 | drops a final `.ext` with a non-empty dot-free extension, and nothing else |
| ProjectStyle.StripExtensionExamples | src/ai/projectStyle.ts:80 | `UserController.php` becomes `UserController`; `README` is unchanged |
| ProjectStyle.Sampled | src/ai/projectStyle.ts:75-79 | at most 25 names are taken from each directory |
| ProjectStyle.NamingHints | src/ai/projectStyle.ts:79-87 | every hint pushed is one of the four labels |
| ProjectStyle.Unique | src/ai/projectStyle.ts:91 | deduplication keeps each element once and loses none |
| ProjectStyle.UniqueInOrder | src/ai/projectStyle.ts:91 | the kept elements are first occurrences, in their input order |
| ProjectStyle.NamingSection | src/ai/projectStyle.ts:91-93 | one sentence when there are hints, nothing otherwise |
| ProjectStyle.InferNaming | src/ai/projectStyle.ts:70-94 | the loop computes the deduplicated label sentence of the sampled names |
| ProjectStyle.NamingSectionKeepsAll | src/ai/projectStyle.ts:91-92 | at most four distinct labels exist, so the four-item cap never drops one |
| ProjectStyle.TopFolders | src/ai/projectStyle.ts:29 | at most 20 folders, none hidden or `node_modules`, and all kept ones when they fit |
| ProjectStyle.TopFoldersInOrder | src/ai/projectStyle.ts:29 | the folders keep directory order, and no kept folder is skipped before the last one shown |
| ProjectStyle.StyleParts | src/ai/projectStyle.ts:234-289 | the discovered config lines come first, then naming and folders |
| ProjectStyle.ContextParts | src/ai/projectStyle.ts:293-301 | optional framework and key-path lines followed by the two fixed rules |
| ProjectStyle.StyleBlock | src/ai/projectStyle.ts:303-305 | empty iff there are no parts; otherwise it opens with the style header |
| ProjectStyle.ContextWithRule | src/ai/projectStyle.ts:306-308 | opens with the context header and ends with the style-guide rule |
| ProjectStyle.Assemble | src/ai/projectStyle.ts:309-312 | always ends with the context block; opens with the style header iff there are style parts |
| ProjectStyle.GetProjectStyle | src/ai/projectStyle.ts:229-313 | empty without a root or when disabled; otherwise ends with the context block and the rule |
| ProjectStyle.HeadersDiffer | src/ai/projectStyle.ts:303-310 | a text opening with the context header does not open with the style header |
| ProjectStyle.EndsWithStyleGuideRule | src/ai/projectStyle.ts:308-310 | an enabled project style always ends with the style-guide rule line |
| ProjectStyle.EmptyWorkspace | src/ai/projectStyle.ts:306-310 | with nothing discovered the result is the context block alone |
| PromptEnhancer.ContextStage | src/prompt/promptEnhancer.ts:104-147 | one context enhancement per present item; text exactly when something is recorded; with file and language known it opens with the heading and the file's last path segment |
| PromptEnhancer.ContextStageLines | src/prompt/promptEnhancer.ts:112-136 | with file and language known the block opens with the heading, file and language lines, and otherwise does not open with a blank line; the `- Project Type:` line is inside it; the `- Selected Code: Yes (n lines)` line, n the number of backslash-n pieces, closes it |
| PromptEnhancer.RoleStage | src/prompt/promptEnhancer.ts:152-172 | one role enhancement iff the role name is in the catalog, recording exactly the text added; no text otherwise |
| PromptEnhancer.RoleStageNamesRole | src/prompt/promptEnhancer.ts:161 | for a catalog role the text opens with `Role Context: You are acting as a <name>.`, holds the comma-joined focus areas and ends with `Approach: <bias>` |
| PromptEnhancer.PatternStage | src/prompt/promptEnhancer.ts:177-237 | one pattern enhancement iff the role has a pattern list, recording exactly the text added; no text otherwise |
| PromptEnhancer.PatternStageLists | src/prompt/promptEnhancer.ts:219-227 | a role's pattern text opens with the `Code Patterns to Follow:` heading and has a `- p` line for every pattern p of the role |
| PromptEnhancer.PatternTableShape | src/prompt/promptEnhancer.ts:182-219 | six roles have exactly four patterns each; Tech Lead and Project Manager have none |
| PromptEnhancer.BestPracticeStage | src/prompt/promptEnhancer.ts:242-265 | exactly one best-practice enhancement carrying the text it adds |
| PromptEnhancer.SecurityStage | src/prompt/promptEnhancer.ts:270-292 | exactly one security enhancement carrying the text it adds |
| PromptEnhancer.NoBackslashOnePiece | src/prompt/promptEnhancer.ts:135 | a selection without a backslash counts as one line, because the split is on a literal backslash-n |
| PromptEnhancer.EnhancePrompt | src/prompt/promptEnhancer.ts:15-80 | the original prompt is always a prefix; with enhancement off the prompt is unchanged and nothing is recorded |
| PromptEnhancer.EnabledStagesAppear | src/prompt/promptEnhancer.ts:37-70 | with enhancement on: the context block follows the user's prompt directly, each switched-on role, pattern and best-practice text is in the result, and the security text ends it |
| PromptEnhancer.EnhancedTextFromRecord | src/prompt/promptEnhancer.ts:37-79 | the enhanced prompt is the user's prompt, then the context block when that stage runs, then the added content of every later recorded enhancement in recording order |
| PromptEnhancer.EnhancementsInStageOrder | src/prompt/promptEnhancer.ts:37-70 | enhancements appear in stage order: context, role, patterns, best practices, security |
| PromptEnhancer.StageEnhancementCounts | src/prompt/promptEnhancer.ts:44-70 | the context stage records one enhancement per known item when on; each later stage contributes exactly when its flag (and, for role and patterns, its table) allows |
| OpenAIClient.AliasModel | src/ai/openaiClient.ts:26-31 | only `gpt-4-turbo` is renamed (to `gpt-4-turbo-preview`); every other id passes through |
| OpenAIClient.ChatModelOrDefault | src/ai/inlineCompletionProvider.ts:42-47 | the result starts with `gpt-`, and equals the input iff the input does |
| OpenAIClient.BuildRequest | src/ai/openaiClient.ts:31-38 | aliased model, temperature 0.3, messages and token budget passed through |
| OpenAIClient.VendorErrorDetail | src/ai/openaiClient.ts:58 | error message, else error code, else status text |
| OpenAIClient.Interpret | src/ai/openaiClient.ts:57-74 | error iff not an OK response; errors carry empty content and a prefixed message; success trims the first choice and prefers the response model |
| OpenAIClient.ErrorShape | src/ai/openaiClient.ts:57-74 | every error has empty content and one of the two prefixes |
| Sanitizer.LeadingFenceLength | src/ai/inlineCompletionProvider.ts:121 | length of the match of ```` ^```\w*\n? ````, zero iff the text does not open with a fence |
| Sanitizer.CapLines | src/ai/inlineCompletionProvider.ts:129-131 | trimmed, at most n lines, and the plain trim when the text already fits |
| Sanitizer.CapLinesIsPrefix | src/ai/inlineCompletionProvider.ts:129-131 | the capped text is the trim of a prefix of the input |
| Sanitizer.SanitizeInline | src/ai/inlineCompletionProvider.ts:119-134 | a suggestion is never empty, is trimmed and has at most three lines |
| Sanitizer.FixLineCap | src/ai/codeActionsProvider.ts:150-151 | the fix cap lies between 1 and 12 and is at most the snippet's line count plus 3 |
| Sanitizer.SanitizeFix | src/ai/codeActionsProvider.ts:144-155 | at most the cap's lines; a fitting reply is left untrimmed, a longer one is cut and trimmed |
| Sanitizer.StripFencesUnwraps | src/ai/inlineCompletionProvider.ts:119-128 | a fenced block with a language tag comes back as its body |
| Sanitizer.StripFencesExample | src/ai/inlineCompletionProvider.ts:119-128 | ```` ```ts\ncode\n``` ```` becomes `code` |
| Sanitizer.StripFencesFenceFree | src/ai/inlineCompletionProvider.ts:119-128 | fence-free text is only trimmed |
| Sanitizer.InlineKeepsShortReply | src/ai/inlineCompletionProvider.ts:119-134 | a fence-free, non-blank reply of at most three lines comes back as its trim |
| Sanitizer.EmptyFenceBlock | src/ai/codeActionsProvider.ts:139-155 | an empty fenced block yields no inline suggestion but an empty fix text |
| Sanitizer.FixKeepsIndentation | src/ai/codeActionsProvider.ts:144-155 | a fix that fits keeps its leading indentation, which the inline path trims away |
| Commands.FailureNotice | src/ai/securityReview.ts:42-45 | an error notice with the reply's error, or the fallback text when there is none |
| Commands.Report | src/ai/securityReview.ts:47 | the report is the header with file and language followed by the trimmed reply |
| Commands.ReportRecoversReply | src/ai/securityReview.ts:47 | removing the header from a report gives back exactly the trimmed reply |
| CodeGenerator.RoleBias | src/ai/codeGenerator.ts:11-12 | the catalog bias of a role with that name when non-empty, else the generic bias |
| CodeGenerator.GetSystemPromptForRole | src/ai/codeGenerator.ts:10-22 | opens with the role introduction, carries the role's bias in the `Your approach:` paragraph and ends with the fixed rules |
| CodeGenerator.PromptCarriesBias | src/ai/codeGenerator.ts:10-22 | a catalog role's own non-empty bias, and for an unknown role the generic bias, appears in the prompt |
| CodeGenerator.GetOpenAIKey | src/ai/codeGenerator.ts:28-37 | the trimmed user key if non-blank, else the trimmed default key if non-blank, else none |
| CodeGenerator.KeyMatchesConfig | src/ai/codeGenerator.ts:28-37 | the same key as the model manager's OpenAI configuration |
| CodeGenerator.PromptToSend | src/ai/codeGenerator.ts:54 | the enhanced prompt if non-blank, else the user prompt |
| CodeGenerator.GenerateCode | src/ai/codeGenerator.ts:42-66 | no key: no call and the key error; else the system and user messages are sent and an error empties the content |
| CodeGenerator.OwnBias | src/ai/codeGenerator.ts:11-12 | with unique names, a role with a non-empty bias gets that bias |
| CodeGenerator.DefaultRoleGetsGenericBias | src/ai/codeGenerator.ts:11-12 | the default role value `backend` is not a name, so it gets the generic bias |
| CodeGenerator.BlankEnhancementIgnored | src/ai/codeGenerator.ts:54 | a blank enhanced prompt sends the same request as none at all |
| InlineCompletion.InlineModel | src/ai/inlineCompletionProvider.ts:42-51 | the fast model when that setting is on, else the `gpt-` fallback of the current model |
| InlineCompletion.WindowStart | src/ai/inlineCompletionProvider.ts:62 | `max(0, line - 18)` |
| InlineCompletion.InlineBias | src/ai/inlineCompletionProvider.ts:67-68 | the catalog bias, even empty, else the generic bias |
| InlineCompletion.FocusAreas | src/ai/inlineCompletionProvider.ts:69 | the role's focus areas comma-joined, else `best practices` |
| InlineCompletion.InlineSystemPrompt | src/ai/inlineCompletionProvider.ts:71-85 | opens with the role line, carries the `Your focus:` bias line and the focus-area line, and ends with the security block |
| InlineCompletion.InlinePromptCarriesRole | src/ai/inlineCompletionProvider.ts:66-85 | a catalog role's bias and comma-joined focus areas appear in the prompt; an unknown role gets the generic bias and `best practices` |
| InlineCompletion.WithStyle | src/ai/inlineCompletionProvider.ts:90-91 | the mode instructions follow the system prompt; the style is appended only when non-empty |
| InlineCompletion.UserContent | src/ai/inlineCompletionProvider.ts:93 | opens with the language line |
| InlineCompletion.InlineMessages | src/ai/inlineCompletionProvider.ts:87-98 | exactly a system and a user message, with the styled system prompt and the context text |
| InlineCompletion.Suggestion | src/ai/inlineCompletionProvider.ts:113-134 | a suggestion only for an error-free, non-blank reply, and then the sanitised text |
| InlineCompletion.SendInline | src/ai/inlineCompletionProvider.ts:100-136 | one request with the key, aliased inline model, the inline token budget and the messages; cancellation after the call hides the reply; a suggestion is non-empty, trimmed and capped |
| InlineCompletion.ProvideInlineCompletionItems | src/ai/inlineCompletionProvider.ts:20-142 | disabled, keyless, too-short-prefix or cancelled-before means no call; the request fields; a suggestion only when not cancelled after |
| InlineCompletion.InvokeAlwaysAsks | src/ai/inlineCompletionProvider.ts:53-58 | an explicit invocation is never gated by the prefix length |
| InlineCompletion.ReplyShownWhenNotCancelled | src/ai/inlineCompletionProvider.ts:100-136 | an OK, non-blank reply with no cancellation is shown, sanitised |
| InlineCompletion.DefaultsUseFastModel | src/ai/inlineCompletionProvider.ts:11-53 | by default the fast model, 64 tokens and a minimum prefix of 1 |
| InlineCompletion.LinePrefixIsLineStart | src/ai/inlineCompletionProvider.ts:54 | the line prefix is the current line up to the cursor |
| InlineCompletion.ContextWindow | src/ai/inlineCompletionProvider.ts:62-63 | the context runs from the window start to the cursor and spans at most 19 lines |
| Document.SelectedText | src/ai/securityReview.ts:29 | the range's text when a range is given, else the whole document |
| Document.Offset | src/ai/codeActionsProvider.ts:60-61 | a position past the last line is the end of the text; a character past its line's end is that line's end; otherwise line start plus character |
| Document.GetTextSpansLines | src/ai/codeActionsProvider.ts:60-61 | the text from the start of line a to character c of line l is lines a to l joined by `\n`, the last cut at c, whichever end comes first |
| CodeActions.ContextStart | src/ai/codeActionsProvider.ts:58 | `max(0, line - 15)` |
| CodeActions.ContextStop | src/ai/codeActionsProvider.ts:59-61 | the exclusive end line `min(lineCount - 1, line + 15) + 1` |
| CodeActions.ArgsFor | src/ai/codeActionsProvider.ts:56-73 | the arguments record: diagnostic text, message, range and the two context windows |
| CodeActions.ProvideCodeActions | src/ai/codeActionsProvider.ts:38-94 | no key gives no actions; else fix then explain for each diagnostic, sharing one argument record |
| CodeActions.ActionRoleBias | src/ai/codeActionsProvider.ts:111-112 | the catalog bias, else `Clear, correct code.` |
| CodeActions.AppendStyle | src/ai/codeActionsProvider.ts:129 | the base alone when the style is empty, else base, blank line, style |
| CodeActions.FixSystemPrompt | src/ai/codeActionsProvider.ts:117-129 | opens with the role line; without a style it ends with the security block |
| CodeActions.FixUserContent | src/ai/codeActionsProvider.ts:130 | opens with the issue line |
| CodeActions.ExplainSystemPrompt | src/ai/codeActionsProvider.ts:218-221 | the role line followed by the explain task |
| CodeActions.ExplainUserContent | src/ai/codeActionsProvider.ts:222 | opens with the issue line |
| CodeActions.ApplyFix | src/ai/codeActionsProvider.ts:139-191 | an unusable reply or stale range writes nothing; a write happens iff `Fix applied.` is shown and carries the capped fix |
| CodeActions.SendFix | src/ai/codeActionsProvider.ts:103-191 | for whatever messages are sent: no key means no call and the key error; otherwise one 1024-token request with the aliased model and the outcome of applying the reply |
| CodeActions.RunFix | src/ai/codeActionsProvider.ts:97-197 | no key: no call and the key error; else the request fields and the outcome of applying the reply |
| CodeActions.SendExplain | src/ai/codeActionsProvider.ts:205-240 | for whatever messages are sent: no key means no call; otherwise a document iff the reply is usable, else the failure notice |
| CodeActions.RunExplain | src/ai/codeActionsProvider.ts:199-246 | no key: no call; a document iff the reply is usable, holding the heading and the trimmed reply |
| CodeActions.ContextBeforeWindow | src/ai/codeActionsProvider.ts:58-60 | the text before a diagnostic spans at most 16 lines, ending at the diagnostic's line start |
| CodeActions.ActionsShareArguments | src/ai/codeActionsProvider.ts:57-90 | both actions of a diagnostic carry its text and message |
| CodeActions.EmptyFenceReplyErasesSnippet | src/ai/codeActionsProvider.ts:139-171 | a reply that is an empty fenced block passes the check and replaces the snippet with nothing |
| CodeActions.ExplanationDocument | src/ai/codeActionsProvider.ts:236-239 | an OK, non-blank reply opens a document with the heading and the trimmed reply |
| CodeActions.ExplainReplyDocument | src/ai/codeActionsProvider.ts:229-239 | whatever the messages, an OK, non-blank reply opens the heading followed by the trimmed reply |
| SecurityReview.HintBlock | src/ai/securityReview.ts:33 | empty iff there are no hints; otherwise the heading and one `- hint` line per hint |
| SecurityReview.CodePart | src/ai/securityReview.ts:33 | opens with the language line |
| SecurityReview.UserContentWith | src/ai/securityReview.ts:33 | code part first, closing request last |
| SecurityReview.ReviewUserContent | src/ai/securityReview.ts:31-33 | opens with the code part and ends with the closing request; no risk gives exactly those two; any risk adds the hint heading and a `- label` bullet for each risk found |
| SecurityReview.RunSecurityReview | src/ai/securityReview.ts:15-55 | no key: no call; else fallback model, 1024 tokens and both messages; a report iff the reply is usable |
| SecurityReview.HintsIffAny | src/ai/securityReview.ts:33 | no hints: no hint section at all; any hint: the hint heading is present |
| SecurityReview.HintListed | src/ai/securityReview.ts:33 | every hint appears as a bullet |
| SecurityReview.ScanDrivesHints | src/ai/securityReview.ts:31-33 | each risk found by the scan appears as a bullet under the hint heading |
| SecurityReview.NoRiskNoHints | src/ai/securityReview.ts:31-33 | code with no risk gets no hint section |
| SecurityReview.WholeDocumentWithoutSelection | src/ai/securityReview.ts:29 | without a range the whole document is reviewed |
| TestingValidation.GeneratorUserContent | src/ai/testingValidation.ts:52 | opens with the language line and ends with the generator's request |
| TestingValidation.GeneratorOutput | src/ai/testingValidation.ts:66 | the test generators return the trimmed reply; the risk analysis returns a report |
| TestingValidation.RunGenerator | src/ai/testingValidation.ts:36-158 | no key: no call; else fallback model, the generator's budget and messages; output iff the reply is usable |
| TestingValidation.GeneratedTestsNotBlank | src/ai/testingValidation.ts:61-108 | generated tests are never blank and are trimmed |
| TestingValidation.Extname | src/ai/testingValidation.ts:179 | empty, or a dotted suffix of the path's last segment |
| TestingValidation.DotFileHasNoExtension | src/ai/testingValidation.ts:179 | a dot-file name without another dot has no extension |
| TestingValidation.ExtensionFromLastDot | src/ai/testingValidation.ts:179 | the extension runs from the last dot of the file name, lower-cased |
| TestingValidation.ToolsFor | src/ai/testingValidation.ts:195-221 | ESLint for JS-like files, then tsc for TypeScript, `php -l` for PHP, else only the placeholder |
| TestingValidation.TypeScriptRunsBoth | src/ai/testingValidation.ts:196-204 | a `.ts` file runs ESLint then tsc |
| TestingValidation.PhpRunsLint | src/ai/testingValidation.ts:212 | a `.php` file runs only `php -l` |
| TestingValidation.Output | src/ai/testingValidation.ts:198-214 | trimmed standard output when non-empty, else trimmed standard error |
| TestingValidation.CheckResult | src/ai/testingValidation.ts:198-220 | each tool's verdict (for ESLint the corrected `EslintOk` count check, not the substring test of line 199; see Findings), an error iff not ok, and the output text |
| TestingValidation.RunStaticChecks | src/ai/testingValidation.ts:171-228 | one result per selected tool, in order |
| TestingValidation.AlwaysAResult | src/ai/testingValidation.ts:219-221 | there is always a result; the placeholder alone is ok |
| TestingValidation.FirstLine | src/ai/testingValidation.ts:239 | the newline-free prefix that is the whole text or stops right before its first newline |
| TestingValidation.SummarizeStaticChecks | src/ai/testingValidation.ts:233-245 | success iff every result is ok, listing the tools; else a warning naming each failure's first line |
| TestingValidation.FailuresInOrder | src/ai/testingValidation.ts:233-245 | the warning lists exactly the failed results, in result order, each as tool and first line, joined by `; ` |
| TestingValidation.TenProblemsAcceptedAsWritten | src/ai/testingValidation.ts:199 | the verdict as written accepts `10 problems`; the corrected one rejects it |
| TestingValidation.VerdictsAgreeWithoutLargerCounts | src/ai/testingValidation.ts:199 | the two verdicts agree unless `0 problems` follows a digit |
| TestingValidation.IntendedVerdictStricter | src/ai/testingValidation.ts:199 | the corrected verdict accepts only outputs the written one accepts |

## Left out

- The HTTP `fetch`, `child_process`, the workspace file system and all VS Code UI are not modelled. This covers status bars, quick picks, message boxes, output channels, `showTextDocument` and `openTextDocument`. They are parameters (`HttpOutcome`, `run`, `Discovered`, `EditTarget`, `accepted`) or absent. Debug logging is absent.
- Exceptions thrown by editor calls inside the commands' `try` blocks are not modelled. A thrown `completeChat` is covered by `HttpOutcome.Threw`.
- The workspace scans of the project-style builder are inputs to `ProjectStyle.GetProjectStyle`. This covers reading config files, `parsePrettierStyle`, `parseEslintStyle`, `parsePhpCsFixerStyle`, `getSubdirs` and framework detection.
- `getWorkspaceRootForDocument` is a `hasRoot` flag.
- The static templates, the demo panel, the IDE adapter and the extension activation code are UI glue and static text.
- `ModelManager.CalculateCost`: uses Dafny `real`, not IEEE doubles. The amount is exact (`CostOfUnits`, `CostAdditive`, `Gpt4Cost`); the model claims nothing about the rounding of the JavaScript arithmetic.
- `Document.Document`: positions, lengths and cut points count Dafny characters (code points). VS Code positions and JavaScript `length` and `substring` count UTF-16 code units, so columns differ on lines with characters outside the Basic Multilingual Plane. `Document.FullText` joins lines with `\n`, while `getText` joins them with the document's end-of-line sequence, so a CRLF document's text differs from the model's.
- Case folding is ASCII-only. Non-ASCII letters are left unchanged by `Text.ToLower`, which matters only for non-ASCII file names and code.
- `Glob.Compile`: regex metacharacters other than `*`, `?` and `.` are treated as literals. The shipped catalog's patterns use no others.
- Inherited prototype members are modelled only for the suggestion-mode table (see Findings). The other object-literal lookups are modelled as own-key maps, since their keys come from the editor and the catalog:
  - the model alias map;
  - the language-to-role table;
  - the pattern table.
- `OpenAIClient.CompleteChat` carries no contract of its own. It only pairs `BuildRequest` and `Interpret`, whose contracts state its behaviour.
- `TestingValidation.Extname` covers Node's `path.extname` for `/`-separated paths. Trailing separators and Windows back-slash paths are not modelled.
- `TestingValidation.CheckResult` states the `output` field only for a non-empty tool output. The default texts shown for an empty output are constants in the body.
- `Sanitizer.StripFences` states only that it does not lengthen its input. Its meaning is given by `StripFencesUnwraps`, `StripFencesFenceFree` and `StripFencesExample`.
- `ProjectStyle.StyleParts` states only that the discovered config lines come first. The naming and folder lines are `InferNaming` and `TopFolders`.
- `InlineCompletion.UserContent`, `CodeActions.FixUserContent`, `CodeActions.ExplainUserContent` and `SecurityReview.CodePart` state only their opening line. The rest is fixed prose around the code text.
- `Security.SecretRisk` models the two secret regexes directly over strings:
  - `\s` is taken as the whitespace set that `trim` removes;
  - the `i` flag is ASCII case folding;
  - a quoted value is one or more non-quote characters between quotes.
- Exact prompt wording is carried as constants. Contracts speak about structure, order and presence, not prose.

## Findings

| source | as written | input that shows it | evidently intended | confidence | as-written member | corrected member |
|---|---|---|---|---|---|---|
| src/ai/testingValidation.ts:199 | ESLint is judged ok when its output contains `0 problems` | an output reporting `10 problems (10 errors, 0 warnings)` is judged ok | accept only a `0 problems` count that is not part of a larger number | high (not executed) | TestingValidation.TenProblemsAcceptedAsWritten | TestingValidation.CheckResult |
| src/ai/suggestionMode.ts:19 | `MODE_INSTRUCTIONS[mode] ? mode : 'safe'` also accepts inherited object members | `suggestionMode` set to `toString` sends `function toString() { [native code] }` instead of a mode instruction | fall back to `safe` for every name that is not one of the three modes | high (not executed) | SuggestionMode.ToStringModeAccepted | SuggestionMode.ValidMode |
