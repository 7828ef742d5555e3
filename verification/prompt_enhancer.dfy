/**
 * The prompt enhancer: when automatic enhancement is on, up to five stages
 * (context, role, code patterns, best practices, security) each append a block
 * of text to the prompt and record what they added. The templates write their
 * line breaks as `\\n` inside template literals, so every separator in the
 * enhanced prompt is the two characters backslash and `n`, not a newline; the
 * selected-code line count splits on that same two-character sequence.
 */
module PromptEnhancer {
  import opened Wrappers
  import opened Text
  import opened Types
  import Settings
  import RoleManager

  /** The two characters `\` and `n` the templates use as a line break. */
  const Nl: string := "\\n"

  /** Text one stage appends and the enhancements it records. */
  datatype Addition = Addition(text: string, enhancements: seq<Enhancement>)

  const Nothing: Addition := Addition("", [])

  /** Every recorded enhancement has kind `k`. */
  predicate AllOfKind(es: seq<Enhancement>, k: EnhancementType) {
    forall i :: 0 <= i < |es| ==> es[i].kind == k
  }

  // ---------------------------------------------------------------------------
  // the selected-code line count

  /** Non-overlapping occurrences of `t`, scanning left to right as `split` does. */
  function Occurrences(s: string, t: string): nat
    requires |t| > 0
    decreases |s|
  {
    if |s| < |t| then 0
    else if s[..|t|] == t then 1 + Occurrences(s[|t|..], t)
    else Occurrences(s[1..], t)
  }

  /** `s.split(t).length` for a non-empty separator. */
  function PieceCount(s: string, t: string): nat
    requires |t| > 0
  {
    Occurrences(s, t) + 1
  }

  /** Real newlines do not separate pieces: a selection without a backslash counts as one line. */
  lemma {:induction false} NoBackslashOnePiece(s: string)
    requires '\\' !in s
    ensures PieceCount(s, Nl) == 1
    decreases |s|
  {
    if |s| >= 2 {
      assert s[..2] != Nl by { assert s[0] != '\\'; }
      NoBackslashOnePiece(s[1..]);
    }
  }

  // ---------------------------------------------------------------------------
  // the stages

  function Flag(b: bool): nat {
    if b then 1 else 0
  }

  /** One `- key: value` line of the context block. */
  function ContextLine(key: string, value: string): string {
    Nl + "- " + key + ": " + value
  }

  /** The opening of the file block: a blank line, the heading, and the file's last path segment. */
  function FileHeading(path: string): string {
    Nl + Nl + "Current Context:" + ContextLine("File", LastSegment(path))
  }

  /** A context line opens with a line break and a dash, never with a blank line. */
  lemma ContextLinesOpen()
    ensures forall key, value :: StartsWith(ContextLine(key, value), Nl + "-")
  {
    forall key, value
      ensures StartsWith(ContextLine(key, value), Nl + "-")
    {
      assert ContextLine(key, value)[..3] == Nl + "-";
    }
  }

  /** Text made of lines that each open with `\n-`, or nothing, does not open with a blank line. */
  lemma LineNotBlank(x: string, y: string)
    requires x == "" || StartsWith(x, Nl + "-")
    requires y == "" || StartsWith(y, Nl + "-")
    ensures !StartsWith(x + y, Nl + Nl)
  {
    if x != "" {
      assert (x + y)[2] == x[2] == '-';
    } else if y != "" {
      assert (x + y)[2] == y[2] == '-';
    }
  }

  /** The text of the selected-code line: the line count of the selection. */
  function SelectionValue(code: string): string {
    "Yes (" + NatToString(PieceCount(code, Nl)) + " lines)"
  }

  /** One line (or none) of the context block, with its single enhancement when present. */
  predicate IsContextLine(x: Addition, on: bool) {
    |x.enhancements| == Flag(on) && AllOfKind(x.enhancements, ContextKind)
    && (x.text == "" <==> !on) && (x.text == "" || StartsWith(x.text, Nl + "-"))
  }

  /** The file and language lines, when both are known. */
  function FileBlock(ctx: PromptContext): (a: Addition)
    ensures |a.enhancements| == Flag(Truthy(ctx.currentFile) && Truthy(ctx.fileType)) && AllOfKind(a.enhancements, ContextKind)
    ensures a.text == "" <==> a.enhancements == []
    ensures Truthy(ctx.currentFile) && Truthy(ctx.fileType) ==>
      a.text == FileHeading(ctx.currentFile.value) + ContextLine("Language", ctx.fileType.value)
  {
    if Truthy(ctx.currentFile) && Truthy(ctx.fileType) then
      Addition(FileHeading(ctx.currentFile.value) + ContextLine("Language", ctx.fileType.value),
               [Enhancement(ContextKind, "Added current file context", Medium, Some("File: " + ctx.fileType.value))])
    else Nothing
  }

  /** The project-type line, when a project type is known. */
  function ProjectBlock(ctx: PromptContext): (a: Addition)
    ensures IsContextLine(a, Truthy(ctx.projectType))
    ensures Truthy(ctx.projectType) ==> a.text == ContextLine("Project Type", ctx.projectType.value)
  {
    ContextLinesOpen();
    if Truthy(ctx.projectType) then
      Addition(ContextLine("Project Type", ctx.projectType.value),
               [Enhancement(ContextKind, "Added project type context", High, Some("Project: " + ctx.projectType.value))])
    else Nothing
  }

  /** The selected-code line, when code is selected. */
  function SelectionBlock(ctx: PromptContext): (a: Addition)
    ensures IsContextLine(a, Truthy(ctx.selectedCode))
    ensures Truthy(ctx.selectedCode) ==> a.text == ContextLine("Selected Code", SelectionValue(ctx.selectedCode.value))
  {
    ContextLinesOpen();
    if Truthy(ctx.selectedCode) then
      Addition(ContextLine("Selected Code", SelectionValue(ctx.selectedCode.value)),
               [Enhancement(ContextKind, "Added selected code context", High, None)])
    else Nothing
  }

  /** Three additions one after the other. */
  function Concat3(f: Addition, p: Addition, q: Addition): Addition {
    Addition(f.text + p.text + q.text, f.enhancements + p.enhancements + q.enhancements)
  }

  /** Three context blocks in a row record one enhancement per present line, and text exactly when they record. */
  lemma ThreeBlocksRecord(f: Addition, p: Addition, q: Addition, pOn: bool, qOn: bool)
    requires AllOfKind(f.enhancements, ContextKind) && (f.text == "" <==> f.enhancements == [])
    requires IsContextLine(p, pOn) && IsContextLine(q, qOn)
    ensures var r := Concat3(f, p, q);
      && AllOfKind(r.enhancements, ContextKind)
      && |r.enhancements| == |f.enhancements| + Flag(pOn) + Flag(qOn)
      && (r.text == "" <==> r.enhancements == [])
      && StartsWith(r.text, f.text)
  {
    Framed(f.text, p.text, q.text);
  }

  /** In three blocks in a row the first opens the text, the second is inside it, the third closes it. */
  lemma ThreeBlocksText(f: Addition, p: Addition, q: Addition, pOn: bool, qOn: bool)
    requires IsContextLine(p, pOn) && IsContextLine(q, qOn)
    ensures var r := Concat3(f, p, q);
      && StartsWith(r.text, f.text) && EndsWith(r.text, q.text) && Contains(r.text, p.text)
      && (f.text == "" ==> !StartsWith(r.text, Nl + Nl))
  {
    Framed(f.text, p.text, q.text);
    ContainsPiece(f.text, p.text, q.text);
    if f.text == "" {
      LineNotBlank(p.text, q.text);
      assert f.text + p.text + q.text == p.text + q.text;
    }
  }

  /**
   * `addContextEnhancement`: the file name (last `/` segment) and language when
   * both are known, the project type, and the selected code's line count.
   */
  function ContextStage(ctx: PromptContext): (r: Addition)
    ensures AllOfKind(r.enhancements, ContextKind)
    ensures |r.enhancements| ==
      Flag(Truthy(ctx.currentFile) && Truthy(ctx.fileType)) + Flag(Truthy(ctx.projectType)) + Flag(Truthy(ctx.selectedCode))
    ensures r.text == "" <==> r.enhancements == []
    ensures Truthy(ctx.currentFile) && Truthy(ctx.fileType) ==> StartsWith(r.text, FileHeading(ctx.currentFile.value))
  {
    var f := FileBlock(ctx);
    var p := ProjectBlock(ctx);
    var q := SelectionBlock(ctx);
    ThreeBlocksRecord(f, p, q, Truthy(ctx.projectType), Truthy(ctx.selectedCode));
    FileBlockOpens(ctx, Concat3(f, p, q).text);
    Concat3(f, p, q)
  }

  /** Text that opens with the file block opens with the file heading. */
  lemma FileBlockOpens(ctx: PromptContext, s: string)
    requires StartsWith(s, FileBlock(ctx).text)
    ensures Truthy(ctx.currentFile) && Truthy(ctx.fileType) ==> StartsWith(s, FileHeading(ctx.currentFile.value))
  {
    if Truthy(ctx.currentFile) && Truthy(ctx.fileType) {
      var h := FileHeading(ctx.currentFile.value);
      Framed(h, ContextLine("Language", ctx.fileType.value), "");
      assert h + ContextLine("Language", ctx.fileType.value) + "" == FileBlock(ctx).text;
      StartsWithTrans(s, FileBlock(ctx).text, h);
    }
  }

  /**
   * The context block's lines: the file heading opens it exactly when both the
   * file and its language are known, the project type is inside it, and the
   * selected-code line with the selection's line count closes it.
   */
  lemma ContextStageLines(ctx: PromptContext)
    ensures var r := ContextStage(ctx);
      && (Truthy(ctx.currentFile) && Truthy(ctx.fileType) ==>
            StartsWith(r.text, FileHeading(ctx.currentFile.value) + ContextLine("Language", ctx.fileType.value)))
      && (!(Truthy(ctx.currentFile) && Truthy(ctx.fileType)) ==> !StartsWith(r.text, Nl + Nl))
      && (Truthy(ctx.projectType) ==> Contains(r.text, ContextLine("Project Type", ctx.projectType.value)))
      && (Truthy(ctx.selectedCode) ==>
            EndsWith(r.text, ContextLine("Selected Code", SelectionValue(ctx.selectedCode.value))))
  {
    var f, p, q := FileBlock(ctx), ProjectBlock(ctx), SelectionBlock(ctx);
    assert ContextStage(ctx) == Concat3(f, p, q);
    ThreeBlocksText(f, p, q, Truthy(ctx.projectType), Truthy(ctx.selectedCode));
  }

  /** `addRoleEnhancement`: the catalog role with that name, its focus areas and bias; nothing for an unknown name. */
  function RoleStage(catalog: seq<RoleMetadata>, role: string): (r: Addition)
    ensures AllOfKind(r.enhancements, RoleKind)
    ensures |r.enhancements| <= 1
    ensures r.enhancements == [] <==> RoleManager.FindByName(catalog, role).None?
    ensures r.text == "" <==> r.enhancements == []
    ensures r.enhancements != [] ==> r.enhancements[0].addedContent == Some(r.text)
  {
    match RoleManager.FindByName(catalog, role)
    case None => Nothing
    case Some(m) =>
      var instruction := RoleWho(m) + RoleFocus(m) + RoleApproach(m);
      Addition(instruction, [Enhancement(RoleKind, "Added " + m.name + " context", High, Some(instruction))])
  }

  /** The three lines of the role block. */
  function RoleWho(m: RoleMetadata): string {
    Nl + Nl + "Role Context: You are acting as a " + m.name + "."
  }

  function RoleFocus(m: RoleMetadata): string {
    Nl + "Focus on: " + Join(m.focusAreas, ", ") + "."
  }

  function RoleApproach(m: RoleMetadata): string {
    Nl + "Approach: " + m.promptBias
  }

  /** The role block names the catalog role, lists its focus areas and closes with its bias. */
  lemma RoleStageNamesRole(catalog: seq<RoleMetadata>, role: string, m: RoleMetadata)
    requires RoleManager.FindByName(catalog, role) == Some(m)
    ensures var r := RoleStage(catalog, role);
      && StartsWith(r.text, Nl + Nl + "Role Context: You are acting as a " + m.name + ".")
      && Contains(r.text, Nl + "Focus on: " + Join(m.focusAreas, ", ") + ".")
      && EndsWith(r.text, Nl + "Approach: " + m.promptBias)
  {
    Framed(RoleWho(m), RoleFocus(m), RoleApproach(m));
    ContainsPiece(RoleWho(m), RoleFocus(m), RoleApproach(m));
  }

  /** The pattern table of `addCodePatternSuggestions`, keyed by role name. */
  const PatternTable: map<string, seq<string>> := map[
    "Laravel Developer" := [
      "Use Eloquent ORM for database operations",
      "Follow Laravel naming conventions",
      "Use Service Container for dependency injection",
      "Implement proper validation using Form Requests"],
    "Core PHP Developer" := [
      "Use PDO with prepared statements",
      "Implement proper error handling",
      "Use strict types (declare(strict_types=1))",
      "Follow PSR-12 coding standards"],
    "React Developer" := [
      "Use functional components with hooks",
      "Implement proper TypeScript types",
      "Use React Query for server state",
      "Optimize with useMemo and useCallback"],
    "Backend Developer" := [
      "Implement proper error handling and logging",
      "Use database transactions for data integrity",
      "Add input validation and sanitization",
      "Consider caching strategies"],
    "Frontend Developer" := [
      "Ensure responsive design",
      "Implement proper accessibility",
      "Optimize images and assets",
      "Follow UI/UX best practices"],
    "QA Engineer" := [
      "Write comprehensive test cases",
      "Include edge cases and boundary conditions",
      "Test for security vulnerabilities",
      "Validate error handling"]
  ]

  /** A titled list: a blank separator line, the title, then one `- item` line per item. */
  function Bullets(title: string, items: seq<string>): string {
    Nl + Nl + title + Nl + Join(PrefixEach("- ", items), Nl)
  }

  /** A joined list starts with its first part. */
  lemma JoinStartsWithHead(parts: seq<string>, sep: string)
    requires |parts| >= 1
    ensures StartsWith(Join(parts, sep), parts[0])
  {
    if |parts| > 1 {
      assert Join(parts, sep)[..|parts[0]|] == parts[0];
    }
  }

  /** Every part after the first follows a separator in the joined list. */
  lemma {:induction false} JoinSepPart(parts: seq<string>, sep: string, i: nat)
    requires 0 < i < |parts|
    ensures Contains(Join(parts, sep), sep + parts[i])
  {
    var rest := Join(parts[1..], sep);
    assert Join(parts, sep) == parts[0] + sep + rest;
    if i == 1 {
      JoinStartsWithHead(parts[1..], sep);
      var tail := rest[|parts[1]|..];
      assert rest == parts[1] + tail;
      assert Join(parts, sep) == parts[0] + (sep + parts[1]) + tail;
      ContainsPiece(parts[0], sep + parts[1], tail);
    } else {
      JoinSepPart(parts[1..], sep, i - 1);
      assert parts[1..][i - 1] == parts[i];
      ContainsInSuffix(parts[0] + sep, rest, sep + parts[i]);
    }
  }

  /** A titled list opens with its title and shows every item on a `- item` line. */
  lemma BulletsListAll(title: string, items: seq<string>)
    requires |items| > 0
    ensures StartsWith(Bullets(title, items), Nl + Nl + title + Nl)
    ensures forall p :: p in items ==> Contains(Bullets(title, items), Nl + "- " + p)
  {
    var lines := PrefixEach("- ", items);
    var body := Join(lines, Nl);
    var head := Nl + Nl + title;
    assert Bullets(title, items) == head + (Nl + body);
    assert Bullets(title, items)[..|head + Nl|] == head + Nl;
    forall p | p in items
      ensures Contains(Bullets(title, items), Nl + "- " + p)
    {
      var i :| 0 <= i < |items| && items[i] == p;
      if i == 0 {
        JoinStartsWithHead(lines, Nl);
        assert StartsWith(Nl + body, Nl + lines[0]);
      } else {
        JoinSepPart(lines, Nl, i);
        ContainsInSuffix(Nl, body, Nl + lines[i]);
      }
      assert Nl + lines[i] == Nl + "- " + p;
      ContainsInSuffix(head, Nl + body, Nl + "- " + p);
    }
  }

  /** `addCodePatternSuggestions`: the role's four patterns, or nothing for a role without any. */
  function PatternStage(role: string): (r: Addition)
    ensures AllOfKind(r.enhancements, PatternKind)
    ensures |r.enhancements| <= 1
    ensures r.enhancements == [] <==> role !in PatternTable
    ensures r.text == "" <==> r.enhancements == []
    ensures r.enhancements != [] ==> r.enhancements[0].addedContent == Some(r.text)
  {
    var patterns := if role in PatternTable then PatternTable[role] else [];
    if |patterns| == 0 then Nothing
    else
      var text := Bullets("Code Patterns to Follow:", patterns);
      Addition(text, [Enhancement(PatternKind, "Added " + NatToString(|patterns|) + " code patterns", Medium, Some(text))])
  }

  /** The pattern block opens with its title and shows each of the role's patterns on a `- pattern` line. */
  lemma PatternStageLists(role: string)
    requires role in PatternTable
    ensures var r := PatternStage(role);
      StartsWith(r.text, Nl + Nl + "Code Patterns to Follow:" + Nl)
      && forall p :: p in PatternTable[role] ==> Contains(r.text, Nl + "- " + p)
  {
    assert |PatternTable[role]| > 0;
    BulletsListAll("Code Patterns to Follow:", PatternTable[role]);
  }

  const BestPractices: seq<string> := [
    "Write clean, maintainable code",
    "Add appropriate comments for complex logic",
    "Follow SOLID principles",
    "Implement proper error handling",
    "Consider performance implications"
  ]

  const SecurityGuidelines: seq<string> := [
    "Validate and sanitize all user inputs",
    "Use parameterized queries to prevent SQL injection",
    "Implement proper authentication and authorization",
    "Protect against XSS attacks",
    "Use HTTPS and secure connections"
  ]

  /** `addBestPractices`: always the same five bullets and one enhancement. */
  function BestPracticeStage(): (r: Addition)
    ensures |r.enhancements| == 1 && AllOfKind(r.enhancements, BestPracticeKind)
    ensures r.enhancements[0].addedContent == Some(r.text)
  {
    var text := Bullets("Best Practices:", BestPractices);
    Addition(text, [Enhancement(BestPracticeKind, "Added general best practices", Medium, Some(text))])
  }

  /** `addSecurityGuidelines`: always the same five bullets and one enhancement. */
  function SecurityStage(): (r: Addition)
    ensures |r.enhancements| == 1 && AllOfKind(r.enhancements, SecurityKind)
    ensures r.enhancements[0].addedContent == Some(r.text)
  {
    var text := Bullets("Security Considerations:", SecurityGuidelines);
    Addition(text, [Enhancement(SecurityKind, "Added security guidelines", High, Some(text))])
  }

  // ---------------------------------------------------------------------------
  // the pipeline

  /** Stage order: context, role, patterns, best practices, security. */
  function Rank(k: EnhancementType): nat {
    match k
    case ContextKind => 0
    case RoleKind => 1
    case PatternKind => 2
    case BestPracticeKind => 3
    case SecurityKind => 4
  }

  /** Recorded enhancements come in stage order. */
  predicate InStageOrder(es: seq<Enhancement>) {
    forall i, j :: 0 <= i < j < |es| ==> Rank(es[i].kind) <= Rank(es[j].kind)
  }

  /** The number of recorded enhancements of kind `k`. */
  function CountKind(es: seq<Enhancement>, k: EnhancementType): nat {
    if |es| == 0 then 0 else (if es[0].kind == k then 1 else 0) + CountKind(es[1..], k)
  }

  /** A stage's addition when its switch is on, else nothing. */
  function When(on: bool, a: Addition): Addition {
    if on then a else Nothing
  }

  /** The five stages' additions, in order, for the given switches. */
  function Stages(flags: PromptEnhancementConfig, catalog: seq<RoleMetadata>, role: string, ctx: PromptContext): (r: seq<Addition>)
    ensures |r| == 5
  {
    [When(flags.contextAwareness, ContextStage(ctx)),
     When(flags.roleBasedEnhancement, RoleStage(catalog, role)),
     When(flags.codePatternSuggestions, PatternStage(role)),
     When(flags.bestPracticesInjection, BestPracticeStage()),
     When(flags.securityChecks, SecurityStage())]
  }

  /** Where each of five appended pieces sits in the result. */
  lemma FiveParts(u: string, t0: string, t1: string, t2: string, t3: string, t4: string)
    ensures var s := u + (t0 + t1 + t2 + t3 + t4);
      StartsWith(s, u + t0) && Contains(s, t1) && Contains(s, t2) && Contains(s, t3) && EndsWith(s, t4)
  {
    var s := u + (t0 + t1 + t2 + t3 + t4);
    assert s == (u + t0) + t1 + (t2 + t3 + t4);
    Framed(u + t0, t1, t2 + t3 + t4);
    ContainsPiece(u + t0, t1, t2 + t3 + t4);
    assert s == (u + t0 + t1) + t2 + (t3 + t4);
    ContainsPiece(u + t0 + t1, t2, t3 + t4);
    assert s == (u + t0 + t1 + t2) + t3 + t4;
    ContainsPiece(u + t0 + t1 + t2, t3, t4);
    Framed(u + t0 + t1 + t2, t3, t4);
  }

  /** `enhancePrompt(userPrompt, role, modelId)`; the editor context is a parameter. */
  function EnhancePrompt(settings: Settings.UserSettings, catalog: seq<RoleMetadata>, ctx: PromptContext,
                         userPrompt: string, role: string, modelId: string): (r: EnhancedPrompt)
    ensures r.originalPrompt == userPrompt && r.role == role && r.model == modelId && r.context == ctx
    ensures StartsWith(r.enhancedPrompt, userPrompt)
    ensures !Settings.AutoPromptEnhancement(settings) ==> r.enhancedPrompt == userPrompt && r.enhancements == []
  {
    if !Settings.AutoPromptEnhancement(settings) then
      EnhancedPrompt(userPrompt, userPrompt, ctx, role, modelId, [])
    else
      var a := Stages(Settings.EnhancementConfig(settings), catalog, role, ctx);
      var text := a[0].text + a[1].text + a[2].text + a[3].text + a[4].text;
      assert (userPrompt + text)[..|userPrompt|] == userPrompt;
      EnhancedPrompt(userPrompt, userPrompt + text, ctx, role, modelId,
        a[0].enhancements + a[1].enhancements + a[2].enhancements + a[3].enhancements + a[4].enhancements)
  }

  // ---------------------------------------------------------------------------
  // properties

  lemma {:induction false} CountKindConcat(a: seq<Enhancement>, b: seq<Enhancement>, k: EnhancementType)
    ensures CountKind(a + b, k) == CountKind(a, k) + CountKind(b, k)
  {
    if |a| > 0 {
      assert (a + b)[1..] == a[1..] + b;
      CountKindConcat(a[1..], b, k);
    } else {
      assert a + b == b;
    }
  }

  lemma {:induction false} CountOfKind(es: seq<Enhancement>, k: EnhancementType, j: EnhancementType)
    requires AllOfKind(es, k)
    ensures CountKind(es, j) == if j == k then |es| else 0
  {
    if |es| > 0 {
      CountOfKind(es[1..], k, j);
    }
  }

  /** Blocks of single kinds, each ranked no lower than the last, are in stage order. */
  lemma AppendInOrder(a: seq<Enhancement>, b: seq<Enhancement>, k: EnhancementType)
    requires InStageOrder(a) && forall i :: 0 <= i < |a| ==> Rank(a[i].kind) <= Rank(k)
    requires AllOfKind(b, k)
    ensures InStageOrder(a + b)
    ensures forall i :: 0 <= i < |a + b| ==> Rank((a + b)[i].kind) <= Rank(k)
  {
  }

  /** The five additions' enhancements, concatenated in stage order, are in stage order. */
  lemma StagesInOrder(a: seq<Addition>)
    requires |a| == 5
    requires AllOfKind(a[0].enhancements, ContextKind) && AllOfKind(a[1].enhancements, RoleKind)
    requires AllOfKind(a[2].enhancements, PatternKind) && AllOfKind(a[3].enhancements, BestPracticeKind)
    requires AllOfKind(a[4].enhancements, SecurityKind)
    ensures InStageOrder(a[0].enhancements + a[1].enhancements + a[2].enhancements + a[3].enhancements + a[4].enhancements)
  {
    var e0, e1, e2, e3, e4 := a[0].enhancements, a[1].enhancements, a[2].enhancements, a[3].enhancements, a[4].enhancements;
    AppendInOrder([], e0, ContextKind);
    assert [] + e0 == e0;
    AppendInOrder(e0, e1, RoleKind);
    AppendInOrder(e0 + e1, e2, PatternKind);
    AppendInOrder(e0 + e1 + e2, e3, BestPracticeKind);
    AppendInOrder(e0 + e1 + e2 + e3, e4, SecurityKind);
  }

  /** The recorded enhancements follow the stage order. */
  lemma EnhancementsInStageOrder(settings: Settings.UserSettings, catalog: seq<RoleMetadata>, ctx: PromptContext,
                                 userPrompt: string, role: string, modelId: string)
    ensures InStageOrder(EnhancePrompt(settings, catalog, ctx, userPrompt, role, modelId).enhancements)
  {
    if Settings.AutoPromptEnhancement(settings) {
      StagesInOrder(Stages(Settings.EnhancementConfig(settings), catalog, role, ctx));
    }
  }

  /** How many enhancements of kind `k` the five additions record together. */
  lemma CountAcrossStages(a: seq<Addition>, k: EnhancementType)
    requires |a| == 5
    requires AllOfKind(a[0].enhancements, ContextKind) && AllOfKind(a[1].enhancements, RoleKind)
    requires AllOfKind(a[2].enhancements, PatternKind) && AllOfKind(a[3].enhancements, BestPracticeKind)
    requires AllOfKind(a[4].enhancements, SecurityKind)
    ensures CountKind(a[0].enhancements + a[1].enhancements + a[2].enhancements + a[3].enhancements + a[4].enhancements, k)
      == (match k
          case ContextKind => |a[0].enhancements|
          case RoleKind => |a[1].enhancements|
          case PatternKind => |a[2].enhancements|
          case BestPracticeKind => |a[3].enhancements|
          case SecurityKind => |a[4].enhancements|)
  {
    var e0, e1, e2, e3, e4 := a[0].enhancements, a[1].enhancements, a[2].enhancements, a[3].enhancements, a[4].enhancements;
    CountKindConcat(e0 + e1 + e2 + e3, e4, k);
    CountKindConcat(e0 + e1 + e2, e3, k);
    CountKindConcat(e0 + e1, e2, k);
    CountKindConcat(e0, e1, k);
    CountOfKind(e0, ContextKind, k);
    CountOfKind(e1, RoleKind, k);
    CountOfKind(e2, PatternKind, k);
    CountOfKind(e3, BestPracticeKind, k);
    CountOfKind(e4, SecurityKind, k);
  }

  /** Each kind's count in the five additions' record is the size of that kind's own stage. */
  lemma StageCounts(a: seq<Addition>)
    requires |a| == 5
    requires AllOfKind(a[0].enhancements, ContextKind) && AllOfKind(a[1].enhancements, RoleKind)
    requires AllOfKind(a[2].enhancements, PatternKind) && AllOfKind(a[3].enhancements, BestPracticeKind)
    requires AllOfKind(a[4].enhancements, SecurityKind)
    ensures var es := a[0].enhancements + a[1].enhancements + a[2].enhancements + a[3].enhancements + a[4].enhancements;
      && CountKind(es, ContextKind) == |a[0].enhancements|
      && CountKind(es, RoleKind) == |a[1].enhancements|
      && CountKind(es, PatternKind) == |a[2].enhancements|
      && CountKind(es, BestPracticeKind) == |a[3].enhancements|
      && CountKind(es, SecurityKind) == |a[4].enhancements|
  {
    CountAcrossStages(a, ContextKind);
    CountAcrossStages(a, RoleKind);
    CountAcrossStages(a, PatternKind);
    CountAcrossStages(a, BestPracticeKind);
    CountAcrossStages(a, SecurityKind);
  }

  /**
   * Each stage records its enhancement exactly when its switch is on and it has
   * something to add: the role stage needs a catalog name, the pattern stage a
   * role in the pattern table, and the last two stages always add one.
   */
  lemma StageEnhancementCounts(settings: Settings.UserSettings, catalog: seq<RoleMetadata>, ctx: PromptContext,
                               userPrompt: string, role: string, modelId: string)
    requires Settings.AutoPromptEnhancement(settings)
    ensures var es := EnhancePrompt(settings, catalog, ctx, userPrompt, role, modelId).enhancements;
      var flags := Settings.EnhancementConfig(settings);
      && CountKind(es, ContextKind) == (if flags.contextAwareness then
           Flag(Truthy(ctx.currentFile) && Truthy(ctx.fileType)) + Flag(Truthy(ctx.projectType)) + Flag(Truthy(ctx.selectedCode))
         else 0)
      && CountKind(es, RoleKind) == (if flags.roleBasedEnhancement && RoleManager.FindByName(catalog, role).Some? then 1 else 0)
      && CountKind(es, PatternKind) == (if flags.codePatternSuggestions && role in PatternTable then 1 else 0)
      && CountKind(es, BestPracticeKind) == (if flags.bestPracticesInjection then 1 else 0)
      && CountKind(es, SecurityKind) == (if flags.securityChecks then 1 else 0)
  {
    var flags := Settings.EnhancementConfig(settings);
    var a := Stages(flags, catalog, role, ctx);
    StageSizes(flags, catalog, role, ctx);
    StageCounts(a);
  }

  /** How many enhancements each of the five stages records under the given switches. */
  lemma StageSizes(flags: PromptEnhancementConfig, catalog: seq<RoleMetadata>, role: string, ctx: PromptContext)
    ensures var a := Stages(flags, catalog, role, ctx);
      && |a[0].enhancements| == (if flags.contextAwareness then
           Flag(Truthy(ctx.currentFile) && Truthy(ctx.fileType)) + Flag(Truthy(ctx.projectType)) + Flag(Truthy(ctx.selectedCode))
         else 0)
      && |a[1].enhancements| == (if flags.roleBasedEnhancement && RoleManager.FindByName(catalog, role).Some? then 1 else 0)
      && |a[2].enhancements| == (if flags.codePatternSuggestions && role in PatternTable then 1 else 0)
      && |a[3].enhancements| == (if flags.bestPracticesInjection then 1 else 0)
      && |a[4].enhancements| == (if flags.securityChecks then 1 else 0)
  {
  }

  /**
   * With enhancement on, each switched-on stage's text is in the enhanced
   * prompt: the context block right after the user's prompt, the security
   * block at its end.
   */
  lemma EnabledStagesAppear(settings: Settings.UserSettings, catalog: seq<RoleMetadata>, ctx: PromptContext,
                            userPrompt: string, role: string, modelId: string)
    requires Settings.AutoPromptEnhancement(settings)
    ensures var r := EnhancePrompt(settings, catalog, ctx, userPrompt, role, modelId);
      var flags := Settings.EnhancementConfig(settings);
      && (flags.contextAwareness ==> StartsWith(r.enhancedPrompt, userPrompt + ContextStage(ctx).text))
      && (flags.roleBasedEnhancement ==> Contains(r.enhancedPrompt, RoleStage(catalog, role).text))
      && (flags.codePatternSuggestions ==> Contains(r.enhancedPrompt, PatternStage(role).text))
      && (flags.bestPracticesInjection ==> Contains(r.enhancedPrompt, BestPracticeStage().text))
      && (flags.securityChecks ==> EndsWith(r.enhancedPrompt, SecurityStage().text))
  {
    var a := Stages(Settings.EnhancementConfig(settings), catalog, role, ctx);
    FiveParts(userPrompt, a[0].text, a[1].text, a[2].text, a[3].text, a[4].text);
  }

  /** The recorded `addedContent` texts, in order, an enhancement without one adding nothing. */
  function AddedText(es: seq<Enhancement>): string {
    if |es| == 0 then ""
    else (match es[0].addedContent case Some(t) => t case None => "") + AddedText(es[1..])
  }

  lemma {:induction false} AddedTextConcat(a: seq<Enhancement>, b: seq<Enhancement>)
    ensures AddedText(a + b) == AddedText(a) + AddedText(b)
  {
    if |a| > 0 {
      assert (a + b)[1..] == a[1..] + b;
      AddedTextConcat(a[1..], b);
    } else {
      assert a + b == b;
    }
  }

  /** A stage that records at most one enhancement, and that one carries the stage's whole text. */
  predicate RecordsOwnText(x: Addition) {
    |x.enhancements| <= 1 && (x.text == "" <==> x.enhancements == [])
    && (x.enhancements != [] ==> x.enhancements[0].addedContent == Some(x.text))
  }

  lemma StageRecordsText(x: Addition)
    requires RecordsOwnText(x)
    ensures AddedText(x.enhancements) == x.text
  {
    if |x.enhancements| == 1 {
      assert x.enhancements[1..] == [];
    }
  }

  /** A prompt followed by a first block and the recorded rest, the first block being empty when it is off. */
  lemma RecordedText(u: string, t0: string, rest: string, e0: seq<Enhancement>, later: seq<Enhancement>, ctxOn: bool)
    requires AddedText(later) == rest
    requires !ctxOn ==> t0 == "" && e0 == []
    ensures var n := if ctxOn then |e0| else 0;
      n <= |e0 + later| && u + (t0 + rest) == u + (if ctxOn then t0 else "") + AddedText((e0 + later)[n..])
  {
    DropFirst(e0, later, ctxOn);
    assert !ctxOn ==> u + (t0 + rest) == u + "" + rest;
  }

  /** Five blocks regrouped as the first and the other four. */
  lemma Regroup(x0: Addition, x1: Addition, x2: Addition, x3: Addition, x4: Addition)
    ensures x0.enhancements + x1.enhancements + x2.enhancements + x3.enhancements + x4.enhancements
      == x0.enhancements + (x1.enhancements + x2.enhancements + x3.enhancements + x4.enhancements)
    ensures x0.text + x1.text + x2.text + x3.text + x4.text == x0.text + (x1.text + x2.text + x3.text + x4.text)
  {
  }

  /** Dropping the first block, or an empty one, leaves the rest. */
  lemma DropFirst<T>(first: seq<T>, rest: seq<T>, on: bool)
    requires !on ==> first == []
    ensures var n := if on then |first| else 0;
      n <= |first + rest| && (first + rest)[n..] == rest
  {
    if !on {
      assert first + rest == rest;
    }
  }

  /** Four stages that record their own text record, together, their texts in order. */
  lemma FourRecorded(x1: Addition, x2: Addition, x3: Addition, x4: Addition)
    requires RecordsOwnText(x1) && RecordsOwnText(x2) && RecordsOwnText(x3) && RecordsOwnText(x4)
    ensures AddedText(x1.enhancements + x2.enhancements + x3.enhancements + x4.enhancements)
      == x1.text + x2.text + x3.text + x4.text
  {
    var e1, e2, e3, e4 := x1.enhancements, x2.enhancements, x3.enhancements, x4.enhancements;
    StageRecordsText(x1);
    StageRecordsText(x2);
    StageRecordsText(x3);
    StageRecordsText(x4);
    AddedTextConcat(e1 + e2 + e3, e4);
    AddedTextConcat(e1 + e2, e3);
    AddedTextConcat(e1, e2);
  }

  /** The four later stages record their own text; a switched-off context stage adds nothing. */
  lemma StagesRecordOwnText(flags: PromptEnhancementConfig, catalog: seq<RoleMetadata>, role: string, ctx: PromptContext)
    ensures var a := Stages(flags, catalog, role, ctx);
      && RecordsOwnText(a[1]) && RecordsOwnText(a[2]) && RecordsOwnText(a[3]) && RecordsOwnText(a[4])
      && (flags.contextAwareness ==> a[0] == ContextStage(ctx))
      && (!flags.contextAwareness ==> a[0].text == "" && a[0].enhancements == [])
  {
    var a := Stages(flags, catalog, role, ctx);
    StageRecords(RoleStage(catalog, role));
    StageRecords(PatternStage(role));
    StageRecords(BestPracticeStage());
    StageRecords(SecurityStage());
    WhenRecords(flags.roleBasedEnhancement, RoleStage(catalog, role), a[1]);
    WhenRecords(flags.codePatternSuggestions, PatternStage(role), a[2]);
    WhenRecords(flags.bestPracticesInjection, BestPracticeStage(), a[3]);
    WhenRecords(flags.securityChecks, SecurityStage(), a[4]);
  }

  /** A stage that records one enhancement carrying its text when it adds any. */
  lemma StageRecords(x: Addition)
    requires |x.enhancements| <= 1 && (x.text == "" <==> x.enhancements == [])
    requires x.enhancements != [] ==> x.enhancements[0].addedContent == Some(x.text)
    ensures RecordsOwnText(x)
  {
  }

  lemma WhenRecords(on: bool, x: Addition, y: Addition)
    requires RecordsOwnText(x) && y == When(on, x)
    ensures RecordsOwnText(y)
  {
  }

  /**
   * The enhanced prompt is the user's prompt, then the context block when that
   * stage is on, then the added content of the other recorded enhancements in
   * the order they were recorded.
   */
  lemma EnhancedTextFromRecord(settings: Settings.UserSettings, catalog: seq<RoleMetadata>, ctx: PromptContext,
                               userPrompt: string, role: string, modelId: string)
    ensures var r := EnhancePrompt(settings, catalog, ctx, userPrompt, role, modelId);
      var ctxOn := Settings.AutoPromptEnhancement(settings) && Settings.EnhancementConfig(settings).contextAwareness;
      var n := if ctxOn then |ContextStage(ctx).enhancements| else 0;
      n <= |r.enhancements|
      && r.enhancedPrompt == userPrompt + (if ctxOn then ContextStage(ctx).text else "") + AddedText(r.enhancements[n..])
  {
    if Settings.AutoPromptEnhancement(settings) {
      var flags := Settings.EnhancementConfig(settings);
      var a := Stages(flags, catalog, role, ctx);
      StagesRecordOwnText(flags, catalog, role, ctx);
      FourRecorded(a[1], a[2], a[3], a[4]);
      Regroup(a[0], a[1], a[2], a[3], a[4]);
      RecordedText(userPrompt, a[0].text, a[1].text + a[2].text + a[3].text + a[4].text,
                   a[0].enhancements, a[1].enhancements + a[2].enhancements + a[3].enhancements + a[4].enhancements,
                   flags.contextAwareness);
    } else {
      assert EnhancePrompt(settings, catalog, ctx, userPrompt, role, modelId).enhancements[0..] == [];
    }
  }

  /** Every pattern-table role gets exactly four patterns; Tech Lead and Project Manager get none. */
  lemma PatternTableShape()
    ensures forall r :: r in PatternTable ==> |PatternTable[r]| == 4
    ensures TechLead.Name() !in PatternTable && Pm.Name() !in PatternTable
    ensures forall r: DeveloperRole :: r != TechLead && r != Pm ==> r.Name() in PatternTable
  {
  }
}
