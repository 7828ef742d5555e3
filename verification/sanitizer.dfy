/**
 * Clean-up of a chat reply before it is shown as code: the reply is trimmed, a
 * leading markdown fence (three backticks, a language tag, an optional newline)
 * is dropped, the text is cut before its last closing fence, and the number of
 * lines is capped. The inline-suggestion path and the Quick-Fix path use two
 * copies of this logic that differ in the cap and in the final trim.
 */
module Sanitizer {
  import opened Wrappers
  import opened Text

  const Fence: string := "```"

  /** Line cap of an inline suggestion. */
  const InlineMaxLines: nat := 3

  /** Upper bound of the Quick-Fix line cap. */
  const FixMaxLines: nat := 12

  /** Extra lines a fix may have beyond the snippet it replaces. */
  const FixExtraLines: nat := 3

  /** Length of the longest run of `\w` characters at the start of `s`. */
  function WordRun(s: string): (n: nat)
    ensures n <= |s|
    ensures forall i :: 0 <= i < n ==> IsWordChar(s[i])
    ensures n < |s| ==> !IsWordChar(s[n])
  {
    if |s| > 0 && IsWordChar(s[0]) then
      var n := 1 + WordRun(s[1..]);
      assert forall i :: 1 <= i < n ==> s[i] == s[1..][i - 1];
      n
    else 0
  }

  /** Length of the match of the regex `^```\w*\n?` in `s`, 0 when it does not match. */
  function LeadingFenceLength(s: string): (n: nat)
    ensures n <= |s|
    ensures n == 0 <==> !StartsWith(s, Fence)
    ensures n > 0 ==> forall i :: |Fence| <= i < n ==> IsWordChar(s[i]) || (i == n - 1 && s[i] == '\n')
    ensures 0 < n < |s| && s[n - 1] != '\n' ==> !IsWordChar(s[n]) && s[n] != '\n'
  {
    if !StartsWith(s, Fence) then 0
    else
      var w := |Fence| + WordRun(s[|Fence|..]);
      assert forall i :: |Fence| <= i < w ==> s[i] == s[|Fence|..][i - |Fence|];
      if w < |s| && s[w] == '\n' then w + 1 else w
  }

  /** The fence handling shared by both paths: trim, drop a leading fence, cut before the last fence. */
  function StripFences(raw: string): (r: string)
    ensures |r| <= |raw|
  {
    var text := Trim(raw);
    var body := text[LeadingFenceLength(text)..];
    match LastIndexOf(body, Fence)
    case None => body
    case Some(e) => Trim(body[..e])
  }

  /** The first `n` lines of `text`, re-joined and trimmed. */
  function CapLines(text: string, n: nat): (r: string)
    ensures IsTrimmed(r)
    ensures n >= 1 ==> CountLines(r) <= n
    ensures CountLines(text) <= n ==> r == Trim(text)
  {
    var lines := Split(text, '\n');
    var kept := lines[..Min(n, |lines|)];
    if |lines| <= n then
      assert kept == lines;
      JoinSplit(text, '\n');
      TrimCount(text, '\n');
      Trim(Join(kept, "\n"))
    else if n >= 1 then
      KeptLines(lines, n);
      Trim(Join(kept, "\n"))
    else
      Trim(Join(kept, "\n"))
  }

  /** Re-joining `n` pieces free of '\n' and trimming gives at most `n` lines. */
  lemma KeptLines(lines: seq<string>, n: nat)
    requires 1 <= n <= |lines|
    requires forall k :: 0 <= k < |lines| ==> '\n' !in lines[k]
    ensures CountLines(Trim(Join(lines[..n], "\n"))) <= n
  {
    var kept := lines[..n];
    assert forall k :: 0 <= k < |kept| ==> kept[k] == lines[k];
    JoinCount(kept, '\n');
    TrimCount(Join(kept, "\n"), '\n');
  }

  /** The capped text is the trim of a prefix of the original text. */
  lemma CapLinesIsPrefix(text: string, n: nat)
    requires n >= 1
    ensures exists p :: StartsWith(text, p) && CapLines(text, n) == Trim(p)
  {
    var lines := Split(text, '\n');
    JoinSplitPrefix(text, '\n', Min(n, |lines|));
  }

  /** The inline suggestion for a non-blank reply, or None when nothing is left to show. */
  function SanitizeInline(content: string): (r: Option<string>)
    ensures r.Some? ==> r.value != "" && IsTrimmed(r.value) && CountLines(r.value) <= InlineMaxLines
  {
    var text := CapLines(StripFences(content), InlineMaxLines);
    if text == "" then None else Some(text)
  }

  /** The maximum number of lines of a fix for a snippet of `code`. */
  function FixLineCap(code: string): (m: nat)
    ensures 1 <= m <= FixMaxLines
    ensures m <= CountLines(code) + FixExtraLines
  {
    Min(CountLines(code) + FixExtraLines, FixMaxLines)
  }

  /** The replacement text of a Quick-Fix; the cap applies only when it is exceeded, and an empty result stays. */
  function SanitizeFix(content: string, code: string): (r: string)
    ensures CountLines(r) <= FixLineCap(code)
    ensures CountLines(StripFences(content)) <= FixLineCap(code) ==> r == StripFences(content)
    ensures CountLines(StripFences(content)) > FixLineCap(code) ==> IsTrimmed(r)
  {
    var text := StripFences(content);
    var cap := FixLineCap(code);
    if CountLines(text) > cap then CapLines(text, cap) else text
  }

  // ---------------------------------------------------------------------------
  // properties

  lemma TrimAppendNewline(b: string)
    requires IsTrimmed(b)
    ensures Trim(b + "\n") == b
  {
    if |b| == 0 {
      assert TrimStart("\n") == TrimStart("");
    } else {
      assert TrimStart(b + "\n") == b + "\n";
      assert (b + "\n")[..|b|] == b;
      assert TrimEnd(b + "\n") == TrimEnd(b);
      TrimOfTrimmed(b);
    }
  }

  lemma WordRunOfWord(tag: string, tail: string)
    requires forall i :: 0 <= i < |tag| ==> IsWordChar(tag[i])
    requires |tail| > 0 && !IsWordChar(tail[0])
    ensures WordRun(tag + tail) == |tag|
  {
    assert (tag + tail)[|tag|] == tail[0];
  }

  /** An opening fence with a language tag and a newline is matched in full. */
  lemma LeadingFenceOfTag(tag: string, rest: string)
    requires forall i :: 0 <= i < |tag| ==> IsWordChar(tag[i])
    ensures LeadingFenceLength(Fence + tag + "\n" + rest) == |Fence| + |tag| + 1
  {
    var s := Fence + tag + "\n" + rest;
    assert s[..|Fence|] == Fence;
    assert s[|Fence|..] == tag + ("\n" + rest);
    WordRunOfWord(tag, "\n" + rest);
    assert s[|Fence| + |tag|] == '\n';
  }

  /** A string that ends with `t` has its last occurrence of `t` right there. */
  lemma LastIndexOfSuffix(s: string, t: string)
    ensures LastIndexOf(s + t, t) == Some(|s|)
  {
    assert (s + t)[|s + t| - |t|..] == t;
  }

  /**
   * Wrapping a trimmed body in a fenced block with a language tag and stripping
   * the fences gives the body back.
   */
  lemma StripFencesUnwraps(tag: string, b: string)
    requires forall i :: 0 <= i < |tag| ==> IsWordChar(tag[i])
    requires IsTrimmed(b)
    ensures StripFences(Fence + tag + "\n" + b + "\n" + Fence) == b
  {
    var rest := b + "\n" + Fence;
    var raw := Fence + tag + "\n" + rest;
    assert raw == Fence + tag + "\n" + b + "\n" + Fence;
    assert raw[0] == '`' && raw[|raw| - 1] == '`';
    TrimOfTrimmed(raw);
    LeadingFenceOfTag(tag, rest);
    assert raw[|Fence| + |tag| + 1..] == rest;
    LastIndexOfSuffix(b + "\n", Fence);
    assert rest[..|b| + 1] == b + "\n";
    TrimAppendNewline(b);
  }

  /** The documented example: a fenced TypeScript block becomes its code. */
  lemma StripFencesExample()
    ensures StripFences("```ts\ncode\n```") == "code"
  {
    assert "```ts\ncode\n```" == Fence + "ts" + "\n" + "code" + "\n" + Fence;
    StripFencesUnwraps("ts", "code");
  }

  /** Text without any fence is only trimmed. */
  lemma StripFencesFenceFree(raw: string)
    requires !Contains(raw, Fence)
    ensures StripFences(raw) == Trim(raw)
  {
    var i, j := TrimIsSlice(raw);
    var text := Trim(raw);
    ContainsIff(raw, Fence);
    forall k | OccursAt(text, Fence, k) ensures false {
      OccursInSlice(raw, i, j, Fence, k);
    }
    assert !OccursAt(text, Fence, 0);
    assert text[0..] == text;
  }

  /** A fence-free reply of at most three lines is suggested as its trim. */
  lemma InlineKeepsShortReply(content: string)
    requires !Contains(content, Fence)
    requires CountLines(content) <= InlineMaxLines
    requires !IsBlank(content)
    ensures SanitizeInline(content) == Some(Trim(content))
  {
    StripFencesFenceFree(content);
    TrimCount(content, '\n');
    TrimIdempotent(content);
  }

  lemma StripEmptyBlock()
    ensures StripFences("```\n```") == ""
  {
    var raw := Fence + "" + "\n" + Fence;
    assert raw == "```\n```";
    assert raw[0] == '`' && raw[|raw| - 1] == '`';
    TrimOfTrimmed(raw);
    LeadingFenceOfTag("", Fence);
    assert raw[|Fence| + 1..] == "" + Fence;
    LastIndexOfSuffix("", Fence);
  }

  /** A reply that is only a pair of fences yields no inline suggestion but an empty fix. */
  lemma EmptyFenceBlock(code: string)
    ensures SanitizeInline("```\n```") == None
    ensures SanitizeFix("```\n```", code) == ""
  {
    StripEmptyBlock();
    assert Split("", '\n') == [""];
  }

  /** An opening fence with no closing one: stripping leaves the text after the opening line. */
  lemma StripFencesUnclosed(tag: string, rest: string)
    requires forall i :: 0 <= i < |tag| ==> IsWordChar(tag[i])
    requires IsTrimmed(Fence + tag + "\n" + rest)
    requires LastIndexOf(rest, Fence).None?
    ensures StripFences(Fence + tag + "\n" + rest) == rest
  {
    var raw := Fence + tag + "\n" + rest;
    TrimOfTrimmed(raw);
    LeadingFenceOfTag(tag, rest);
    assert raw[|Fence| + |tag| + 1..] == rest;
  }

  /** The indented example is an untagged opening fence before `  x`, and it is trimmed. */
  lemma IndentedBlockShape()
    ensures "```\n  x" == Fence + "" + "\n" + "  x"
    ensures IsTrimmed(Fence + "" + "\n" + "  x")
  {
    var raw := Fence + "" + "\n" + "  x";
    assert raw == "```\n  x";
    assert raw[0] == '`' && raw[|raw| - 1] == 'x';
  }

  /** `  x` holds no fence. */
  lemma IndentedHasNoFence()
    ensures LastIndexOf("  x", Fence).None?
  {
    assert "  x"[0] != Fence[0];
  }

  lemma StripIndentedBlock()
    ensures StripFences("```\n  x") == "  x"
  {
    IndentedBlockShape();
    IndentedHasNoFence();
    StripFencesUnclosed("", "  x");
  }

  lemma TrimIndented()
    ensures Trim("  x") == "x"
  {
    assert "  x"[1..] == " x" && " x"[1..] == "x";
    assert TrimStart("  x") == "x";
  }

  /** A short fix keeps its leading indentation where the inline path trims it. */
  lemma FixKeepsIndentation()
    ensures SanitizeFix("```\n  x", "y") == "  x"
    ensures SanitizeInline("```\n  x") == Some("x")
  {
    StripIndentedBlock();
    SplitAbsent("  x", '\n');
    SplitAbsent("y", '\n');
    TrimIndented();
  }
}
