/**
 * The role manager: the selected role (held in memory and persisted), catalog
 * lookups by name and by code, auto-detection from the active file, and the
 * initial role. The role catalog is a parameter so that both the shipped catalog
 * and catalogs where no pattern matches can be reasoned about.
 */
module RoleManager {
  import opened Wrappers
  import opened Text
  import opened Types
  import opened Seqs
  import Glob
  import Defaults
  import Settings

  /** The in-memory role and the value persisted in global state. */
  datatype RoleState = RoleState(current: string, persisted: Option<string>)

  /** `setRole(role)`: the role is stored and persisted without consulting the catalog. */
  function SetRole(st: RoleState, role: string): (r: RoleState)
    ensures GetCurrentRole(r) == role && r.persisted == Some(role)
  {
    RoleState(role, Some(role))
  }

  function GetCurrentRole(st: RoleState): string {
    st.current
  }

  /** `DEFAULT_ROLES.find(r => r.name === name)`. */
  function FindByName(catalog: seq<RoleMetadata>, name: string): (r: Option<RoleMetadata>)
    ensures r.Some? ==> r.value in catalog && r.value.name == name
    ensures r.None? <==> forall k :: 0 <= k < |catalog| ==> catalog[k].name != name
    ensures r.Some? ==> exists k :: 0 <= k < |catalog| && catalog[k] == r.value && forall j :: 0 <= j < k ==> catalog[j].name != name
  {
    Find(catalog, (m: RoleMetadata) => m.name == name)
  }

  /** `getRoleByCode(code)`: `DEFAULT_ROLES.find(r => r.code === code)`. */
  function GetRoleByCode(catalog: seq<RoleMetadata>, code: string): (r: Option<RoleMetadata>)
    ensures r.Some? ==> r.value in catalog && r.value.code == code
    ensures r.None? <==> forall k :: 0 <= k < |catalog| ==> catalog[k].code != code
    ensures r.Some? ==> exists k :: 0 <= k < |catalog| && catalog[k] == r.value && forall j :: 0 <= j < k ==> catalog[j].code != code
  {
    Find(catalog, (m: RoleMetadata) => m.code == code)
  }

  /** `getCurrentRoleMetadata()`: the catalog entry whose name is the current role. */
  function GetCurrentRoleMetadata(catalog: seq<RoleMetadata>, st: RoleState): (r: Option<RoleMetadata>)
    ensures r.Some? ==> r.value.name == GetCurrentRole(st)
    ensures r.None? <==> forall k :: 0 <= k < |catalog| ==> catalog[k].name != GetCurrentRole(st)
  {
    FindByName(catalog, st.current)
  }

  /** Some pattern of the list matches the file name. */
  predicate AnyPatternMatches(patterns: seq<string>, fileName: string) {
    exists k :: 0 <= k < |patterns| && Glob.MatchesPattern(fileName, patterns[k])
  }

  /** The fallback table from the editor's language id to a role. */
  const LanguageRole: map<string, DeveloperRole> := map[
    "php" := CorePhp,
    "javascript" := Frontend,
    "typescript" := Backend,
    "typescriptreact" := React,
    "javascriptreact" := React,
    "python" := Backend,
    "markdown" := Pm
  ]

  /** The active editor's document, when there is one. */
  datatype ActiveFile = ActiveFile(fileName: string, languageId: string)

  /** The position in the catalog of the first role with a pattern matching the file name. */
  function FirstMatchingRole(catalog: seq<RoleMetadata>, fileName: string): (r: Option<nat>)
    ensures r.Some? ==> r.value < |catalog| && AnyPatternMatches(catalog[r.value].filePatterns, fileName)
    ensures r.Some? ==> forall k :: 0 <= k < r.value ==> !AnyPatternMatches(catalog[k].filePatterns, fileName)
    ensures r.None? <==> forall k :: 0 <= k < |catalog| ==> !AnyPatternMatches(catalog[k].filePatterns, fileName)
  {
    FindFirst(catalog, (m: RoleMetadata) => AnyPatternMatches(m.filePatterns, fileName))
  }

  /** `autoDetectRole()`: the first matching role's name, else the language table's role, else None. */
  function AutoDetectRole(catalog: seq<RoleMetadata>, editor: Option<ActiveFile>): (r: Option<string>)
    ensures editor.None? ==> r.None?
    ensures editor.Some? && FirstMatchingRole(catalog, editor.value.fileName).Some? ==>
      r == Some(catalog[FirstMatchingRole(catalog, editor.value.fileName).value].name)
    ensures editor.Some? && FirstMatchingRole(catalog, editor.value.fileName).None? ==>
      (r.Some? <==> editor.value.languageId in LanguageRole)
  {
    match editor
    case None => None
    case Some(file) =>
      match FirstMatchingRole(catalog, file.fileName)
      case Some(k) => Some(catalog[k].name)
      case None =>
        if file.languageId in LanguageRole then Some(LanguageRole[file.languageId].Name()) else None
  }

  /** `loadSelectedRole()`: the persisted role if it is a non-empty string, else the configured default. */
  function LoadSelectedRole(saved: Option<string>, settings: Settings.UserSettings): (r: string)
    ensures Truthy(saved) ==> r == saved.value
    ensures !Truthy(saved) ==> r == Settings.DefaultRole(settings)
  {
    if Truthy(saved) then saved.value else Settings.DefaultRole(settings)
  }

  // ---------------------------------------------------------------------------
  // properties

  /** Any value is accepted by `setRole`, including one that names no catalog role. */
  lemma SetRoleUnvalidated(catalog: seq<RoleMetadata>, st: RoleState, role: string)
    requires forall k :: 0 <= k < |catalog| ==> catalog[k].name != role
    ensures GetCurrentRole(SetRole(st, role)) == role
    ensures GetCurrentRoleMetadata(catalog, SetRole(st, role)).None?
  {
  }

  /**
   * With the shipped catalog every open file resolves to a role from the first
   * seven (Tech Lead's `*` matches everything), so the language table is never
   * consulted and Project Manager is never detected.
   */
  lemma ShippedCatalogAlwaysDetects(file: ActiveFile)
    ensures var r := AutoDetectRole(Defaults.DefaultRoles, Some(file));
      r.Some? &&
      (exists k :: 0 <= k <= 6 && r.value == Defaults.DefaultRoles[k].name) &&
      r.value != Pm.Name()
  {
    var catalog := Defaults.DefaultRoles;
    Defaults.TechLeadIsCatchAll();
    Defaults.RoleCatalogWellFormed();
    Glob.StarMatchesAll(file.fileName);
    assert catalog[6].filePatterns[0] == "*";
    assert AnyPatternMatches(catalog[6].filePatterns, file.fileName);
    var m := FirstMatchingRole(catalog, file.fileName);
    assert m.Some? && m.value <= 6;
  }

  /** When no pattern matches, the language table decides. */
  lemma FallbackToLanguage(catalog: seq<RoleMetadata>, file: ActiveFile)
    requires forall k :: 0 <= k < |catalog| ==> !AnyPatternMatches(catalog[k].filePatterns, file.fileName)
    ensures AutoDetectRole(catalog, Some(file)) ==
      (if file.languageId in LanguageRole then Some(LanguageRole[file.languageId].Name()) else None)
  {
  }

  /** Examples of the fallback: `php` gives Core PHP Developer, `markdown` Project Manager, `plaintext` nothing. */
  lemma FallbackExamples(catalog: seq<RoleMetadata>, fileName: string)
    requires forall k :: 0 <= k < |catalog| ==> !AnyPatternMatches(catalog[k].filePatterns, fileName)
    ensures AutoDetectRole(catalog, Some(ActiveFile(fileName, "php"))) == Some("Core PHP Developer")
    ensures AutoDetectRole(catalog, Some(ActiveFile(fileName, "markdown"))) == Some("Project Manager")
    ensures AutoDetectRole(catalog, Some(ActiveFile(fileName, "plaintext"))) == None
  {
    FallbackToLanguage(catalog, ActiveFile(fileName, "php"));
    FallbackToLanguage(catalog, ActiveFile(fileName, "markdown"));
    FallbackToLanguage(catalog, ActiveFile(fileName, "plaintext"));
  }

  /**
   * The default role setting is the code `backend`, not a name, so when nothing is
   * persisted the initial role has no metadata in the shipped catalog.
   */
  lemma DefaultRoleHasNoMetadata()
    ensures LoadSelectedRole(None, Settings.Unset) == "backend"
    ensures FindByName(Defaults.DefaultRoles, LoadSelectedRole(None, Settings.Unset)).None?
    ensures GetRoleByCode(Defaults.DefaultRoles, LoadSelectedRole(None, Settings.Unset)).Some?
  {
    var name := LoadSelectedRole(None, Settings.Unset);
    assert name == "backend" by {
      assert Settings.Unset.defaultRole == None;
    }
    Defaults.RoleNamesCapitalised();
    forall k | 0 <= k < |Defaults.DefaultRoles|
      ensures Defaults.DefaultRoles[k].name != name
    {
      assert name[0] == 'b';
    }
    assert Defaults.DefaultRoles[0].code == name;
  }
}
