/**
 * The suggestion-mode instructions appended to system prompts: the
 * anti-hallucination text, the instruction of the configured mode, and, for
 * inline and generate requests, an optional reasoning-hint sentence, joined
 * with single spaces.
 *
 * The mode table is a JavaScript object literal. Looking a key up in it also
 * finds the members every object inherits (`toString`, `constructor`, ...), so
 * the code as written accepts those names as modes. `ValidModeAsWritten` models
 * that lookup; `ValidMode`, used everywhere else, falls back to `safe` for every
 * name that is not one of the three modes.
 */
module SuggestionMode {
  import opened Wrappers
  import opened Text
  import Settings

  /** Which feature asks for the instructions. */
  datatype RequestKind = Inline | Generate | Fix

  const SafeInstruction: string :=
    "Suggestion mode: SAFE. Use only well-documented, standard APIs and framework methods that actually exist. Do not invent or hallucinate method names, classes, or APIs. When uncertain, suggest the most conservative, minimal option that is guaranteed to work. Prefer 1-2 line suggestions."
  const MinimalInstruction: string :=
    "Suggestion mode: MINIMAL. Suggest the shortest possible completion (1 line when possible). Avoid long blocks; they are riskier. No speculative or invented APIs."
  const VerboseInstruction: string :=
    "Suggestion mode: VERBOSE. May suggest longer blocks if they are clearly correct. Still prefer real, documented APIs only; do not invent methods."

  const AntiHallucination: string :=
    "Do not hallucinate or make up APIs, functions, or class names. Use only real, existing APIs from the language standard library or the project's framework (e.g. Laravel, React). Prefer short, precise suggestions over long risky blocks."

  const ReasoningHint: string :=
    "When helpful, add a single short comment above the first line of the suggestion as a reasoning hint (e.g. // uses Array.map, or // Laravel Eloquent). Keep the hint to a few words."

  /** The mode table's own keys. */
  const ModeInstructions: map<string, string> := map[
    "safe" := SafeInstruction,
    "minimal" := MinimalInstruction,
    "verbose" := VerboseInstruction
  ]

  /** `config.get('suggestionMode', 'safe') || 'safe'`: the configured mode, an empty string counting as unset. */
  function ConfiguredMode(settings: Settings.UserSettings): (r: string)
    ensures r != ""
    ensures Truthy(settings.suggestionMode) ==> r == settings.suggestionMode.value
  {
    var m := Settings.SuggestionModeSetting(settings);
    if m != "" then m else "safe"
  }

  /** The mode actually used: the configured one if it is a mode, else `safe`. */
  function ValidMode(mode: string): (r: string)
    ensures r in ModeInstructions
    ensures mode in ModeInstructions ==> r == mode
    ensures mode !in ModeInstructions ==> r == "safe"
  {
    if mode in ModeInstructions then mode else "safe"
  }

  /** The parts that are joined: anti-hallucination text, one mode instruction, and maybe the hint. */
  function InstructionParts(settings: Settings.UserSettings, kind: RequestKind): (r: seq<string>)
    ensures 2 <= |r| <= 3
    ensures r[0] == AntiHallucination
    ensures r[1] == ModeInstructions[ValidMode(ConfiguredMode(settings))]
    ensures |r| == 3 <==> Settings.SuggestionReasoningHint(settings) && kind != Fix
    ensures |r| == 3 ==> r[2] == ReasoningHint
  {
    var parts := [AntiHallucination, ModeInstructions[ValidMode(ConfiguredMode(settings))]];
    if Settings.SuggestionReasoningHint(settings) && kind != Fix then
      parts + [ReasoningHint]
    else
      assert |parts| == 2;
      parts
  }

  /** `getSuggestionModeInstructions(kind)`. */
  function GetSuggestionModeInstructions(settings: Settings.UserSettings, kind: RequestKind): (r: string)
    ensures StartsWith(r, AntiHallucination + " ")
  {
    var parts := InstructionParts(settings, kind);
    assert Join(parts, " ") == AntiHallucination + " " + Join(parts[1..], " ");
    Join(parts, " ")
  }

  // ---------------------------------------------------------------------------
  // properties

  /** The text is the anti-hallucination sentence, the mode instruction, and the hint exactly when asked for. */
  lemma InstructionsShape(settings: Settings.UserSettings, kind: RequestKind)
    ensures var instr := ModeInstructions[ValidMode(ConfiguredMode(settings))];
      GetSuggestionModeInstructions(settings, kind) ==
        if Settings.SuggestionReasoningHint(settings) && kind != Fix
        then AntiHallucination + " " + instr + " " + ReasoningHint
        else AntiHallucination + " " + instr
  {
    var parts := InstructionParts(settings, kind);
    if |parts| == 3 {
      assert parts == [parts[0], parts[1], parts[2]];
      JoinThree(parts[0], parts[1], parts[2], " ");
    } else {
      assert parts == [parts[0], parts[1]];
      JoinTwo(parts[0], parts[1], " ");
    }
  }

  /** A fix request never gets the reasoning hint, whatever the settings say. */
  lemma FixHasNoHint(settings: Settings.UserSettings)
    ensures GetSuggestionModeInstructions(settings, Fix) ==
      AntiHallucination + " " + ModeInstructions[ValidMode(ConfiguredMode(settings))]
  {
    InstructionsShape(settings, Fix);
  }

  /** With nothing configured the mode is `safe`, and so it is for any name that is not a mode. */
  lemma DefaultsToSafe(settings: Settings.UserSettings)
    requires settings.suggestionMode.None? || settings.suggestionMode.value !in ModeInstructions
    ensures InstructionParts(settings, Fix)[1] == SafeInstruction
  {
  }

  // ---------------------------------------------------------------------------
  // the lookup as written

  /** The members every object literal inherits from `Object.prototype`. */
  const InheritedKeys: set<string> := {
    "constructor", "hasOwnProperty", "isPrototypeOf", "propertyIsEnumerable",
    "toLocaleString", "toString", "valueOf", "__defineGetter__", "__defineSetter__",
    "__lookupGetter__", "__lookupSetter__", "__proto__"
  }

  /** How `join` prints an inherited member: a native function, or `Object.prototype` itself. */
  function InheritedText(key: string): string {
    if key == "__proto__" then "[object Object]"
    else if key == "constructor" then "function Object() { [native code] }"
    else "function " + key + "() { [native code] }"
  }

  /** `MODE_INSTRUCTIONS[mode] ? mode : 'safe'`: inherited members are truthy, so they pass. */
  function ValidModeAsWritten(mode: string): (r: string)
    ensures mode in ModeInstructions || mode in InheritedKeys ==> r == mode
    ensures mode !in ModeInstructions && mode !in InheritedKeys ==> r == "safe"
  {
    if mode in ModeInstructions || mode in InheritedKeys then mode else "safe"
  }

  /** `MODE_INSTRUCTIONS[validMode]` as `join` prints it. */
  function ModeTextAsWritten(mode: string): string {
    if mode in ModeInstructions then ModeInstructions[mode]
    else if mode in InheritedKeys then InheritedText(mode)
    else ""
  }

  /** The instructions as the code computes them. */
  function InstructionsAsWritten(settings: Settings.UserSettings, kind: RequestKind): (r: string)
    ensures StartsWith(r, AntiHallucination + " ")
  {
    var parts := [AntiHallucination, ModeTextAsWritten(ValidModeAsWritten(ConfiguredMode(settings)))];
    var all := if Settings.SuggestionReasoningHint(settings) && kind != Fix then parts + [ReasoningHint] else parts;
    assert Join(all, " ") == AntiHallucination + " " + Join(all[1..], " ");
    Join(all, " ")
  }

  /** For the three modes and for every other non-inherited name, the code agrees with `ValidMode`. */
  lemma AsWrittenAgreesOffPrototype(settings: Settings.UserSettings, kind: RequestKind)
    requires ConfiguredMode(settings) !in InheritedKeys
    ensures InstructionsAsWritten(settings, kind) == GetSuggestionModeInstructions(settings, kind)
  {
    var parts := InstructionParts(settings, kind);
    assert ModeTextAsWritten(ValidModeAsWritten(ConfiguredMode(settings))) == parts[1];
  }

  /** `toString` is an inherited member and not one of the three modes. */
  lemma ToStringInherited()
    ensures "toString" in InheritedKeys && "toString" !in ModeInstructions
  {
    assert "toString" != "safe" && "toString" != "minimal" && "toString" != "verbose";
  }

  /** `toString` is an inherited member and not a mode: the lookup as written keeps it, `ValidMode` does not. */
  lemma ToStringLookup()
    ensures ValidModeAsWritten("toString") == "toString"
    ensures ModeTextAsWritten("toString") == "function toString() { [native code] }"
    ensures ValidMode("toString") == "safe"
  {
    ToStringInherited();
    assert "toString" != "__proto__" && "toString" != "constructor";
  }

  /**
   * The mode `toString` passes the lookup: no mode instruction is sent, only the
   * printed form of a native function, where `safe` was evidently intended.
   */
  lemma ToStringModeAccepted(settings: Settings.UserSettings)
    requires settings.suggestionMode == Some("toString")
    ensures ValidModeAsWritten(ConfiguredMode(settings)) == "toString"
    ensures InstructionsAsWritten(settings, Fix) ==
      AntiHallucination + " " + "function toString() { [native code] }"
    ensures GetSuggestionModeInstructions(settings, Fix) == AntiHallucination + " " + SafeInstruction
  {
    assert ConfiguredMode(settings) == "toString" by { assert "toString" != ""; }
    ToStringLookup();
    JoinTwo(AntiHallucination, "function toString() { [native code] }", " ");
    FixHasNoHint(settings);
  }
}
