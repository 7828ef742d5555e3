/**
 * The project-style suffix added to system prompts: naming conventions
 * inferred from sampled file names, the top-level folder list, and the
 * assembly of the style block and the always-present context block. Reading
 * the workspace (config files, directory listings, framework detection) is
 * outside the model: its results are parameters.
 */
module ProjectStyle {
  import opened Wrappers
  import opened Text
  import opened Seqs
  import Settings

  const StyleHeader: string := "Project style (follow exactly; never fight this):"
  const ContextHeader: string := "Project context (whole-project; use this, never break it):"
  const StyleGuideRule: string :=
    "Never fight the project's style guide. Generated code must comply with the project's linter/formatter (ESLint, Prettier, PHP-CS-Fixer) when present."

  const PascalLabel: string := "PascalCase (files/classes)"
  const SnakeLabel: string := "snake_case (files)"
  const KebabLabel: string := "kebab-case (files)"
  const CamelLabel: string := "camelCase (files)"

  /** Entries sampled from each listed directory. */
  const SampleSize: nat := 25

  /** Top-level folders reported. */
  const MaxFolders: nat := 20

  // ---------------------------------------------------------------------------
  // naming predicates

  /** `/^[A-Z][a-zA-Z0-9]*$/` and longer than one character. */
  predicate IsPascalCase(s: string) {
    |s| > 1 && IsUpper(s[0]) && forall i :: 1 <= i < |s| ==> IsAlnum(s[i])
  }

  /** `/^[a-z][a-z0-9_]*$/` and containing `_`. */
  predicate IsSnakeCase(s: string) {
    |s| > 0 && IsLower(s[0]) && (forall i :: 1 <= i < |s| ==> IsLower(s[i]) || IsDigit(s[i]) || s[i] == '_')
    && '_' in s
  }

  /** `/^[a-z][a-z0-9-]*$/` and containing `-`. */
  predicate IsKebabCase(s: string) {
    |s| > 0 && IsLower(s[0]) && (forall i :: 1 <= i < |s| ==> IsLower(s[i]) || IsDigit(s[i]) || s[i] == '-')
    && '-' in s
  }

  /** `/^[a-z][a-zA-Z0-9]*$/` and containing an upper-case letter. */
  predicate IsCamelCase(s: string) {
    |s| > 0 && IsLower(s[0]) && (forall i :: 1 <= i < |s| ==> IsAlnum(s[i]))
    && exists i :: 0 <= i < |s| && IsUpper(s[i])
  }

  /** No name has two of the four shapes. */
  lemma NamingDisjoint(s: string)
    ensures IsPascalCase(s) ==> !IsSnakeCase(s) && !IsKebabCase(s) && !IsCamelCase(s)
    ensures IsSnakeCase(s) ==> !IsKebabCase(s) && !IsCamelCase(s)
    ensures IsKebabCase(s) ==> !IsCamelCase(s)
  {
  }

  /** The label of a name's shape, checked Pascal, snake, kebab, camel. */
  function Classify(base: string): (r: Option<string>)
    ensures r == Some(PascalLabel) <==> IsPascalCase(base)
    ensures r == Some(SnakeLabel) <==> IsSnakeCase(base)
    ensures r == Some(KebabLabel) <==> IsKebabCase(base)
    ensures r == Some(CamelLabel) <==> IsCamelCase(base)
    ensures r.None? <==> !IsPascalCase(base) && !IsSnakeCase(base) && !IsKebabCase(base) && !IsCamelCase(base)
  {
    NamingDisjoint(base);
    LabelsDistinct();
    if IsPascalCase(base) then Some(PascalLabel)
    else if IsSnakeCase(base) then Some(SnakeLabel)
    else if IsKebabCase(base) then Some(KebabLabel)
    else if IsCamelCase(base) then Some(CamelLabel)
    else None
  }

  lemma LabelsDistinct()
    ensures PascalLabel != SnakeLabel && PascalLabel != KebabLabel && PascalLabel != CamelLabel
    ensures SnakeLabel != KebabLabel && SnakeLabel != CamelLabel && KebabLabel != CamelLabel
  {
    assert PascalLabel[0] == 'P' && SnakeLabel[0] == 's' && KebabLabel[0] == 'k' && CamelLabel[0] == 'c';
  }

  predicate IsLabel(h: string) {
    h == PascalLabel || h == SnakeLabel || h == KebabLabel || h == CamelLabel
  }

  // ---------------------------------------------------------------------------
  // naming inference

  /** `name.replace(/\.[^.]+$/, '')`: drops a final extension of at least one character. */
  function StripExtension(name: string): (r: string)
    ensures StartsWith(name, r)
    ensures r != name ==> |r| + 1 < |name| && name[|r|] == '.' && '.' !in name[|r| + 1..]
    ensures r == name <==> '.' !in name || name[|name| - 1] == '.'
  {
    match LastIndexOf(name, ".")
    case Some(p) =>
      assert name[p] == '.' by { assert name[p..p + 1] == "."; }
      NoLaterDot(name, p);
      if p + 1 < |name| then name[..p] else name
    case None =>
      NoDot(name);
      name
  }

  lemma NoLaterDot(name: string, p: nat)
    requires p < |name| && forall j :: p < j ==> !OccursAt(name, ".", j)
    ensures '.' !in name[p + 1..]
  {
    forall j | p + 1 <= j < |name|
      ensures name[j] != '.'
    {
      assert !OccursAt(name, ".", j);
      assert name[j..j + 1] == [name[j]];
    }
  }

  lemma NoDot(name: string)
    requires forall j :: !OccursAt(name, ".", j)
    ensures '.' !in name
  {
    forall j | 0 <= j < |name|
      ensures name[j] != '.'
    {
      assert !OccursAt(name, ".", j);
      assert name[j..j + 1] == [name[j]];
    }
  }

  /** The first 25 entries of each listed directory, in order. */
  function Sampled(listings: seq<seq<string>>): (r: seq<string>)
    ensures |r| <= SampleSize * |listings|
  {
    if |listings| == 0 then []
    else listings[0][..Min(SampleSize, |listings[0]|)] + Sampled(listings[1..])
  }

  /**
   * The labels pushed while walking `names`: a base name shorter than two
   * characters or already seen is skipped; any other one is recorded as seen and
   * contributes its label, if it has a shape.
   */
  function NamingHints(names: seq<string>, seen: set<string>): (r: seq<string>)
    ensures forall k :: 0 <= k < |r| ==> IsLabel(r[k])
  {
    if |names| == 0 then []
    else
      var base := StripExtension(names[0]);
      if |base| < 2 || base in seen then NamingHints(names[1..], seen)
      else
        match Classify(base)
        case Some(h) => [h] + NamingHints(names[1..], seen + {base})
        case None => NamingHints(names[1..], seen + {base})
  }

  /** `[...new Set(xs)]`: the first occurrence of each element, in order. */
  function Unique(xs: seq<string>, seen: set<string>): (r: seq<string>)
    ensures forall k :: 0 <= k < |r| ==> r[k] in xs && r[k] !in seen
    ensures forall k :: 0 <= k < |xs| && xs[k] !in seen ==> xs[k] in r
    ensures forall i, j :: 0 <= i < j < |r| ==> r[i] != r[j]
  {
    if |xs| == 0 then []
    else if xs[0] in seen then Unique(xs[1..], seen)
    else
      var rest := Unique(xs[1..], seen + {xs[0]});
      assert forall k :: 1 <= k < |xs| ==> xs[k] == xs[1..][k - 1];
      [xs[0]] + rest
  }

  /**
   * `Set` keeps insertion order: the kept elements sit at increasing positions
   * of `xs`, each at the first position holding that element.
   */
  lemma {:induction false} UniqueInOrder(xs: seq<string>, seen: set<string>) returns (idx: seq<nat>)
    ensures InOrder(xs, Unique(xs, seen), idx)
    ensures forall k, j :: 0 <= k < |idx| && 0 <= j < idx[k] ==> xs[j] != xs[idx[k]]
  {
    if |xs| == 0 {
      idx := [];
    } else if xs[0] in seen {
      var rest := UniqueInOrder(xs[1..], seen);
      idx := ShiftInOrder(xs, Unique(xs, seen), rest);
      forall k, j | 0 <= k < |idx| && 0 <= j < idx[k]
        ensures xs[j] != xs[idx[k]]
      {
        assert xs[idx[k]] == Unique(xs, seen)[k];
        if j > 0 {
          assert xs[j] == xs[1..][j - 1] && xs[idx[k]] == xs[1..][rest[k]];
        }
      }
    } else {
      var tail := Unique(xs[1..], seen + {xs[0]});
      var rest := UniqueInOrder(xs[1..], seen + {xs[0]});
      var shifted := ShiftInOrder(xs, tail, rest);
      idx := PrependInOrder(xs, tail, shifted);
      forall k, j | 0 <= k < |idx| && 0 <= j < idx[k]
        ensures xs[j] != xs[idx[k]]
      {
        assert idx[k] == shifted[k - 1] == rest[k - 1] + 1;
        assert xs[idx[k]] == tail[k - 1];
        if j > 0 {
          assert xs[j] == xs[1..][j - 1] && xs[idx[k]] == xs[1..][rest[k - 1]];
        }
      }
    }
  }

  /** The naming section for a sequence of distinct labels: empty, or one sentence. */
  function NamingSection(unique: seq<string>): (r: seq<string>)
    ensures |r| <= 1
    ensures r == [] <==> unique == []
  {
    if |unique| > 0 then
      ["Naming (inferred): " + Join(unique[..Min(4, |unique|)], ", ") + ". Match existing file/class names."]
    else []
  }

  /** `inferNamingConventions`: the labels of the sampled names, deduplicated, as one sentence. */
  method InferNaming(listings: seq<seq<string>>) returns (section: seq<string>)
    ensures section == NamingSection(Unique(NamingHints(Sampled(listings), {}), {}))
    ensures |section| <= 1
  {
    var names := Sampled(listings);
    var hints: seq<string> := [];
    var seen: set<string> := {};
    var i := 0;
    while i < |names|
      invariant 0 <= i <= |names|
      invariant hints + NamingHints(names[i..], seen) == NamingHints(names, {})
    {
      var base := StripExtension(names[i]);
      HintsStep(names, i, seen, hints);
      if |base| >= 2 && base !in seen {
        var shape := Classify(base);
        if shape.Some? {
          hints := hints + [shape.value];
        }
        seen := seen + {base};
      }
      i := i + 1;
    }
    assert names[i..] == [];
    assert hints == NamingHints(names, {});
    var unique := Unique(hints, {});
    section := NamingSection(unique);
  }

  /**
   * One step of the naming scan: the name at `i` adds its label, and its base
   * becomes seen, unless the base is short or already seen.
   */
  lemma HintsStep(names: seq<string>, i: nat, seen: set<string>, hints: seq<string>)
    requires i < |names|
    ensures var base := StripExtension(names[i]);
      var grows := |base| >= 2 && base !in seen;
      var added := if grows && Classify(base).Some? then [Classify(base).value] else [];
      hints + NamingHints(names[i..], seen)
        == (hints + added) + NamingHints(names[i + 1..], if grows then seen + {base} else seen)
  {
    assert names[i..][0] == names[i];
    assert names[i..][1..] == names[i + 1..];
    var base := StripExtension(names[i]);
    if |base| >= 2 && base !in seen && Classify(base).None? {
      assert hints + [] == hints;
    }
  }

  /** Distinct labels number at most four, so the section never drops one. */
  lemma NamingSectionKeepsAll(hints: seq<string>)
    requires forall k :: 0 <= k < |hints| ==> IsLabel(hints[k])
    ensures |Unique(hints, {})| <= 4
    ensures var u := Unique(hints, {}); u[..Min(4, |u|)] == u
  {
    var u := Unique(hints, {});
    var labels := {PascalLabel, SnakeLabel, KebabLabel, CamelLabel};
    assert forall k :: 0 <= k < |u| ==> u[k] in labels;
    DistinctWithin(u, labels);
    assert |labels| <= 4;
  }

  /** A sequence of distinct elements drawn from a set is no longer than the set. */
  lemma {:induction false} DistinctWithin(u: seq<string>, s: set<string>)
    requires forall k :: 0 <= k < |u| ==> u[k] in s
    requires forall i, j :: 0 <= i < j < |u| ==> u[i] != u[j]
    ensures |u| <= |s|
  {
    if |u| > 0 {
      var rest := u[1..];
      forall k | 0 <= k < |rest|
        ensures rest[k] in s - {u[0]}
      {
        assert rest[k] == u[k + 1];
      }
      DistinctWithin(rest, s - {u[0]});
    }
  }

  // ---------------------------------------------------------------------------
  // folders and assembly

  /** Folders reported at the top level: not hidden and not `node_modules`. */
  predicate KeepFolder(d: string) {
    !StartsWith(d, ".") && d != "node_modules"
  }

  /** The folder filter of `getFolderStructure`: kept folders in order, at most 20. */
  function TopFolders(dirs: seq<string>): (r: seq<string>)
    ensures |r| <= MaxFolders
    ensures forall k :: 0 <= k < |r| ==> r[k] in dirs && KeepFolder(r[k])
    ensures |Filter(dirs, KeepFolder)| <= MaxFolders ==>
      forall k :: 0 <= k < |dirs| && KeepFolder(dirs[k]) ==> dirs[k] in r
  {
    var kept := Filter(dirs, KeepFolder);
    kept[..Min(MaxFolders, |kept|)]
  }

  /**
   * `filter` then `slice(0, 20)`: the listed folders keep the listing's order, and
   * every kept folder listed before a reported one is reported too.
   */
  lemma TopFoldersInOrder(dirs: seq<string>) returns (idx: seq<nat>)
    ensures InOrder(dirs, TopFolders(dirs), idx)
    ensures forall k, j :: 0 <= k < |idx| && 0 <= j < idx[k] && KeepFolder(dirs[j]) ==> j in idx
  {
    var kept := Filter(dirs, KeepFolder);
    var all := FilterIndices(dirs, KeepFolder);
    var m := Min(MaxFolders, |kept|);
    InOrderPrefix(dirs, kept, all, m);
    CoveredBefore(dirs, KeepFolder, all, m);
    idx := all[..m];
  }

  /** The discovered facts about the workspace that the assembly combines. */
  datatype Discovered = Discovered(
    configParts: seq<string>,
    listings: seq<seq<string>>,
    topDirs: seq<string>,
    framework: string,
    structure: seq<string>)

  /** The style parts: config lines, the naming sentence, and the folder list when there is one. */
  function StyleParts(d: Discovered): (r: seq<string>)
    ensures |r| >= |d.configParts| && r[..|d.configParts|] == d.configParts
  {
    var folders := TopFolders(d.topDirs);
    d.configParts
    + NamingSection(Unique(NamingHints(Sampled(d.listings), {}), {}))
    + (if |folders| > 0 then ["Folder structure: " + Join(folders, ", ")] else [])
  }

  const RespectPatterns: string := "Respect existing patterns, naming, and architecture. Match conventions used elsewhere in the project."
  const KeepFlows: string :=
    "Do not suggest code that breaks existing flows, duplicates logic, or contradicts patterns already in the project."
  const NamingRule: string := "Naming and formatting must match existing project files."

  /** The context block's bullet lines: framework and key paths when known, then two fixed rules. */
  function ContextParts(framework: string, structure: seq<string>): (r: seq<string>)
    ensures 2 <= |r| <= 4
    ensures r[|r| - 2..] == [RespectPatterns, KeepFlows]
  {
    var known :=
      (if framework != "" then ["Framework: " + framework + ". Use its conventions and project structure."] else [])
      + (if |structure| > 0 then ["Key paths: " + Join(structure, ", ") + ". Respect this layout and naming."] else []);
    known + [RespectPatterns, KeepFlows]
  }

  /** The style block, present when there is at least one style part. */
  function StyleBlock(parts: seq<string>): (r: string)
    ensures r == "" <==> parts == []
    ensures parts != [] ==> StartsWith(r, StyleHeader)
  {
    if |parts| > 0 then
      var r := StyleHeader + ("\n- " + Join(parts, "\n- ") + "\n- " + NamingRule + "\n- " + StyleGuideRule);
      assert r[..|StyleHeader|] == StyleHeader;
      r
    else ""
  }

  /** The context block followed by the style-guide rule line. */
  function ContextWithRule(contextParts: seq<string>): (r: string)
    ensures StartsWith(r, ContextHeader)
    ensures EndsWith(r, "\n- " + StyleGuideRule)
  {
    var contextBlock := ContextHeader + ("\n- " + Join(contextParts, "\n- "));
    assert contextBlock != "" && contextBlock[..|ContextHeader|] == ContextHeader;
    var r := contextBlock + (if contextBlock != "" then "\n- " + StyleGuideRule else "");
    assert r[|r| - |"\n- " + StyleGuideRule|..] == "\n- " + StyleGuideRule;
    r
  }

  /** The style block and the context block, separated by a blank line when both are present. */
  function Assemble(styleParts: seq<string>, contextParts: seq<string>): (r: string)
    ensures EndsWith(r, ContextWithRule(contextParts))
    ensures StartsWith(r, StyleHeader) <==> styleParts != []
  {
    var styleBlock := StyleBlock(styleParts);
    var contextWithRule := ContextWithRule(contextParts);
    HeadersDiffer(contextWithRule);
    if styleBlock != "" then
      Framed(styleBlock, "\n\n", contextWithRule);
      StartsWithTrans(styleBlock + "\n\n" + contextWithRule, styleBlock, StyleHeader);
      styleBlock + "\n\n" + contextWithRule
    else contextWithRule
  }

  /** `getProjectStyle(root)`. */
  function GetProjectStyle(hasRoot: bool, settings: Settings.UserSettings, d: Discovered): (r: string)
    ensures !hasRoot || !Settings.ProjectStyleEnabled(settings) ==> r == ""
    ensures hasRoot && Settings.ProjectStyleEnabled(settings) ==>
      EndsWith(r, ContextWithRule(ContextParts(d.framework, d.structure)))
    ensures hasRoot && Settings.ProjectStyleEnabled(settings) ==>
      (StartsWith(r, StyleHeader) <==> StyleParts(d) != [])
  {
    if !hasRoot || !Settings.ProjectStyleEnabled(settings) then ""
    else Assemble(StyleParts(d), ContextParts(d.framework, d.structure))
  }

  /** A text that starts with the context header does not start with the style header. */
  lemma HeadersDiffer(s: string)
    requires StartsWith(s, ContextHeader)
    ensures !StartsWith(s, StyleHeader)
  {
    assert |StyleHeader| == 49;
    assert ContextHeader[48] == 'b' && StyleHeader[48] == ':';
    assert s[48] == ContextHeader[48];
  }

  // ---------------------------------------------------------------------------
  // properties

  /** With the feature on, the result always ends with the style-guide rule line. */
  lemma EndsWithStyleGuideRule(settings: Settings.UserSettings, d: Discovered)
    requires Settings.ProjectStyleEnabled(settings)
    ensures EndsWith(GetProjectStyle(true, settings, d), "\n- " + StyleGuideRule)
  {
    EndsWithTrans(GetProjectStyle(true, settings, d), ContextWithRule(ContextParts(d.framework, d.structure)),
                  "\n- " + StyleGuideRule);
  }

  /** An empty workspace still gets the two fixed context rules and the style-guide rule. */
  lemma EmptyWorkspace(settings: Settings.UserSettings)
    requires Settings.ProjectStyleEnabled(settings)
    ensures var r := GetProjectStyle(true, settings, Discovered([], [], [], "", []));
      StartsWith(r, ContextHeader)
  {
    var d := Discovered([], [], [], "", []);
    assert Sampled(d.listings) == [];
    assert TopFolders(d.topDirs) == [];
    assert StyleParts(d) == [];
  }

  /** A name with a one-character extension loses it; a trailing dot or a dot-free name is kept. */
  lemma StripExtensionExamples()
    ensures StripExtension("UserController.php") == "UserController"
    ensures StripExtension("README") == "README"
  {
    var n := "UserController.php";
    var r := StripExtension(n);
    assert n[14] == '.' && n[15] == 'p' && n[16] == 'h' && n[17] == 'p';
    assert r != n;
    assert |r| >= 14 by {
      assert forall j :: |r| + 1 <= j < |n| ==> n[j] != '.';
    }
    assert |r| == 14;
    assert n[..14] == "UserController";
    assert StripExtension("README") == "README" by {
      assert '.' !in "README";
    }
  }
}
