/**
 * String helpers with the semantics of the JavaScript built-ins the extension
 * uses: `trim`, `split`, `join`, `includes`, `startsWith`, `lastIndexOf`,
 * `toLowerCase` (ASCII letters only) and number-to-string.
 */
module Text {
  import opened Wrappers

  /** The characters `String.prototype.trim` removes: WhiteSpace and LineTerminator. */
  predicate IsSpace(c: char) {
    c == ' ' || c == '\t' || c == '\n' || c == '\r' || c == '\U{B}' || c == '\U{C}'
    || c == '\U{A0}' || c == '\U{1680}' || ('\U{2000}' <= c <= '\U{200A}')
    || c == '\U{2028}' || c == '\U{2029}' || c == '\U{202F}' || c == '\U{205F}'
    || c == '\U{3000}' || c == '\U{FEFF}'
  }

  /** A JavaScript LineTerminator: the characters a regex `.` does not match. */
  predicate IsLineTerminator(c: char) {
    c == '\n' || c == '\r' || c == '\U{2028}' || c == '\U{2029}'
  }

  /** JavaScript truthiness of a possibly-undefined string: defined and not empty. */
  predicate Truthy(s: Option<string>) {
    s.Some? && s.value != ""
  }

  predicate IsDigit(c: char) {
    '0' <= c <= '9'
  }

  predicate IsUpper(c: char) {
    'A' <= c <= 'Z'
  }

  predicate IsLower(c: char) {
    'a' <= c <= 'z'
  }

  /** The regex class `[a-zA-Z0-9]`. */
  predicate IsAlnum(c: char) {
    IsUpper(c) || IsLower(c) || IsDigit(c)
  }

  /** The regex class `\w`: ASCII letters, digits and underscore. */
  predicate IsWordChar(c: char) {
    IsAlnum(c) || c == '_'
  }

  function Min(a: int, b: int): int {
    if a <= b then a else b
  }

  function Max(a: int, b: int): int {
    if a >= b then a else b
  }

  // ---------------------------------------------------------------------------
  // trim

  function TrimStart(s: string): (r: string)
    ensures |r| <= |s| && r == s[|s| - |r|..]
    ensures |r| > 0 ==> !IsSpace(r[0])
    ensures forall i :: 0 <= i < |s| - |r| ==> IsSpace(s[i])
  {
    if |s| > 0 && IsSpace(s[0]) then TrimStart(s[1..]) else s
  }

  /** Text that does not open with whitespace is its own `trimStart`. */
  lemma TrimStartUnchanged(s: string)
    requires |s| > 0 && !IsSpace(s[0])
    ensures TrimStart(s) == s
  {
  }

  function TrimEnd(s: string): (r: string)
    ensures |r| <= |s| && r == s[..|r|]
    ensures |r| > 0 ==> !IsSpace(r[|r| - 1])
    ensures forall i :: |r| <= i < |s| ==> IsSpace(s[i])
  {
    if |s| > 0 && IsSpace(s[|s| - 1]) then TrimEnd(s[..|s| - 1]) else s
  }

  /** `s.trim()`: the longest slice of `s` without whitespace at either end. */
  function Trim(s: string): (r: string)
    ensures |r| <= |s|
    ensures |r| > 0 ==> !IsSpace(r[0]) && !IsSpace(r[|r| - 1])
  {
    TrimEnd(TrimStart(s))
  }

  /** True when `s` has no whitespace at either end. */
  predicate IsTrimmed(s: string) {
    |s| == 0 || (!IsSpace(s[0]) && !IsSpace(s[|s| - 1]))
  }

  lemma TrimOfTrimmed(s: string)
    requires IsTrimmed(s)
    ensures Trim(s) == s
  {
  }

  /** Trimming twice is trimming once. */
  lemma TrimIdempotent(s: string)
    ensures Trim(Trim(s)) == Trim(s)
  {
    TrimOfTrimmed(Trim(s));
  }

  /** The trimmed text is a slice of the original. */
  lemma TrimIsSlice(s: string) returns (i: nat, j: nat)
    ensures i <= j <= |s| && Trim(s) == s[i..j]
  {
    var t := TrimStart(s);
    i := |s| - |t|;
    j := i + |Trim(s)|;
    assert Trim(s) == t[..|Trim(s)|];
  }

  /** `s.trim() === ''`: the string is empty or all whitespace. */
  predicate IsBlank(s: string) {
    Trim(s) == ""
  }

  lemma {:induction false} TrimStartAllSpace(s: string)
    requires forall i :: 0 <= i < |s| ==> IsSpace(s[i])
    ensures TrimStart(s) == ""
  {
    if |s| > 0 {
      TrimStartAllSpace(s[1..]);
    }
  }

  lemma BlankIffAllSpace(s: string)
    ensures IsBlank(s) <==> forall i :: 0 <= i < |s| ==> IsSpace(s[i])
  {
    if forall i :: 0 <= i < |s| ==> IsSpace(s[i]) {
      TrimStartAllSpace(s);
    }
  }

  // ---------------------------------------------------------------------------
  // counting, splitting and joining

  /** Number of occurrences of the character `c` in `s`. */
  function Count(s: string, c: char): nat {
    if |s| == 0 then 0 else (if s[0] == c then 1 else 0) + Count(s[1..], c)
  }

  lemma {:induction false} CountConcat(a: string, b: string, c: char)
    ensures Count(a + b, c) == Count(a, c) + Count(b, c)
  {
    if |a| == 0 {
      assert a + b == b;
    } else {
      assert (a + b)[1..] == a[1..] + b;
      CountConcat(a[1..], b, c);
    }
  }

  lemma {:induction false} CountSlice(s: string, i: nat, j: nat, c: char)
    requires i <= j <= |s|
    ensures Count(s[i..j], c) <= Count(s, c)
  {
    assert s == s[..i] + s[i..j] + s[j..];
    CountConcat(s[..i] + s[i..j], s[j..], c);
    CountConcat(s[..i], s[i..j], c);
  }

  lemma {:induction false} CountAbsent(s: string, c: char)
    requires c !in s
    ensures Count(s, c) == 0
  {
    if |s| > 0 {
      assert c !in s[1..];
      CountAbsent(s[1..], c);
    }
  }

  /** Trimming never adds a newline. */
  lemma TrimCount(s: string, c: char)
    ensures Count(Trim(s), c) <= Count(s, c)
  {
    var i, j := TrimIsSlice(s);
    CountSlice(s, i, j, c);
  }

  /** `parts.join(sep)`. */
  function Join(parts: seq<string>, sep: string): string {
    if |parts| == 0 then ""
    else if |parts| == 1 then parts[0]
    else parts[0] + sep + Join(parts[1..], sep)
  }

  /** A slice of a slice is a slice of the whole. */
  lemma SliceOfSlice(s: string, i: int, j: int, a: int, b: int)
    requires 0 <= i <= j <= |s| && 0 <= a <= b <= j - i
    ensures s[i..j][a..b] == s[i + a..i + b]
  {
    forall k | 0 <= k < b - a
      ensures s[i..j][a..b][k] == s[i + a..i + b][k]
    {
    }
  }

  /** Two parts joined: the separator between them. */
  lemma JoinTwo(a: string, b: string, sep: string)
    ensures Join([a, b], sep) == a + sep + b
  {
    assert [a, b][1..] == [b];
  }

  /** Three parts joined: the separator between each neighbouring pair. */
  lemma JoinThree(a: string, b: string, c: string, sep: string)
    ensures Join([a, b, c], sep) == a + sep + b + sep + c
  {
    assert [a, b, c][1..] == [b, c];
    JoinTwo(b, c, sep);
  }

  /** `s.split(c)` for a one-character separator: never empty, pieces free of `c`. */
  function Split(s: string, c: char): (r: seq<string>)
    ensures |r| == Count(s, c) + 1
    ensures forall k :: 0 <= k < |r| ==> c !in r[k]
  {
    if |s| == 0 then [""]
    else
      var rest := Split(s[1..], c);
      if s[0] == c then [""] + rest
      else [[s[0]] + rest[0]] + rest[1..]
  }

  /** The first piece of a split runs to the first `c`, or is the whole string when there is none. */
  lemma {:induction false} SplitFirstPiece(s: string, c: char)
    ensures var first := Split(s, c)[0];
      first == s || (|first| < |s| && s[|first|] == c)
  {
    if |s| > 0 && s[0] != c {
      var rest := Split(s[1..], c);
      SplitFirstPiece(s[1..], c);
      assert Split(s, c)[0] == [s[0]] + rest[0];
      if rest[0] == s[1..] {
        assert [s[0]] + s[1..] == s;
      } else {
        assert s[1..][|rest[0]|] == s[|rest[0]| + 1];
      }
    }
  }

  /** `s.split('\n').length`: the number of lines of a text. */
  function CountLines(s: string): nat {
    |Split(s, '\n')|
  }

  /** A string without the character `c` has one piece when split on it. */
  lemma SplitAbsent(s: string, c: char)
    requires c !in s
    ensures |Split(s, c)| == 1
  {
    CountAbsent(s, c);
  }

  /** An occurrence inside a slice is an occurrence in the whole string. */
  lemma OccursInSlice(s: string, i: nat, j: nat, t: string, k: int)
    requires i <= j <= |s| && OccursAt(s[i..j], t, k)
    ensures OccursAt(s, t, i + k)
  {
    var a := s[i..j][k..k + |t|];
    var b := s[i + k..i + k + |t|];
    forall m | 0 <= m < |t| ensures a[m] == b[m] {
    }
    assert a == b;
  }

  /** Splitting on `c` and joining with `c` gives the original string back. */
  lemma {:induction false} JoinSplit(s: string, c: char)
    ensures Join(Split(s, c), [c]) == s
  {
    if |s| > 0 {
      var rest := Split(s[1..], c);
      JoinSplit(s[1..], c);
      if s[0] == c {
        assert Split(s, c) == [""] + rest;
        assert ([""] + rest)[1..] == rest;
      } else {
        var r := Split(s, c);
        assert r == [[s[0]] + rest[0]] + rest[1..];
        if |rest| == 1 {
          assert r == [[s[0]] + rest[0]];
        } else {
          assert r[1..] == rest[1..];
          assert Join(rest, [c]) == rest[0] + [c] + Join(rest[1..], [c]);
        }
      }
    }
  }

  /** Joining pieces free of `c` with `c` yields exactly one `c` per gap. */
  lemma {:induction false} JoinCount(parts: seq<string>, c: char)
    requires |parts| >= 1
    requires forall k :: 0 <= k < |parts| ==> c !in parts[k]
    ensures Count(Join(parts, [c]), c) == |parts| - 1
  {
    if |parts| == 1 {
      CountAbsent(parts[0], c);
    } else {
      JoinCount(parts[1..], c);
      CountAbsent(parts[0], c);
      CountConcat(parts[0] + [c], Join(parts[1..], [c]), c);
      CountConcat(parts[0], [c], c);
    }
  }

  /** Joining the first `k` pieces of a split rebuilds a prefix of the original. */
  lemma {:induction false} JoinSplitPrefix(s: string, c: char, k: nat)
    requires 1 <= k <= |Split(s, c)|
    ensures StartsWith(s, Join(Split(s, c)[..k], [c]))
  {
    var r := Split(s, c);
    if |s| > 0 {
      var rest := Split(s[1..], c);
      if s[0] == c {
        assert r == [""] + rest;
        if k == 1 {
          assert r[..k] == [""];
        } else {
          JoinSplitPrefix(s[1..], c, k - 1);
          assert r[..k] == [""] + rest[..k - 1];
          assert r[..k][1..] == rest[..k - 1];
          assert Join(r[..k], [c]) == "" + [c] + Join(rest[..k - 1], [c]);
          assert s == [c] + s[1..];
        }
      } else {
        assert r == [[s[0]] + rest[0]] + rest[1..];
        JoinSplitPrefix(s[1..], c, k);
        var j := Join(rest[..k], [c]);
        if k == 1 {
          assert r[..k] == [[s[0]] + rest[0]];
          assert rest[..k] == [rest[0]];
        } else {
          assert r[..k][1..] == rest[..k][1..];
          assert Join(r[..k], [c]) == [s[0]] + rest[0] + [c] + Join(rest[..k][1..], [c]);
          assert j == rest[0] + [c] + Join(rest[..k][1..], [c]);
        }
        assert Join(r[..k], [c]) == [s[0]] + j;
        assert s == [s[0]] + s[1..];
      }
    } else {
      assert r[..k] == [""];
    }
  }

  // ---------------------------------------------------------------------------
  // searching

  /** `s.startsWith(p)`. */
  predicate StartsWith(s: string, p: string) {
    |p| <= |s| && s[..|p|] == p
  }

  /** `s.endsWith(p)`. */
  predicate EndsWith(s: string, p: string) {
    |p| <= |s| && s[|s| - |p|..] == p
  }

  /** A prefix of a prefix is a prefix. */
  lemma StartsWithTrans(s: string, p: string, q: string)
    requires StartsWith(s, p) && StartsWith(p, q)
    ensures StartsWith(s, q)
  {
    assert s[..|q|] == p[..|q|];
  }

  /** A suffix of a suffix is a suffix. */
  lemma EndsWithTrans(s: string, p: string, q: string)
    requires EndsWith(s, p) && EndsWith(p, q)
    ensures EndsWith(s, q)
  {
    assert s[|s| - |q|..] == p[|p| - |q|..];
  }

  /** A concatenation starts with its first piece and ends with its last. */
  lemma Framed(a: string, b: string, c: string)
    ensures StartsWith(a + b + c, a) && EndsWith(a + b + c, c)
  {
    assert (a + b + c)[..|a|] == a;
    assert (a + b + c)[|a + b|..] == c;
  }

  /** True when `t` occurs in `s` at index `i`. */
  predicate OccursAt(s: string, t: string, i: int) {
    0 <= i && i + |t| <= |s| && s[i..i + |t|] == t
  }

  /** `s.includes(t)`. */
  predicate Contains(s: string, t: string) {
    StartsWith(s, t) || (|s| > 0 && Contains(s[1..], t))
  }

  lemma {:induction false} ContainsIff(s: string, t: string)
    ensures Contains(s, t) <==> exists i :: OccursAt(s, t, i)
  {
    if StartsWith(s, t) {
      assert OccursAt(s, t, 0);
    } else if |s| > 0 {
      ContainsIff(s[1..], t);
      if Contains(s[1..], t) {
        var i :| OccursAt(s[1..], t, i);
        assert s[1..][i..i + |t|] == s[i + 1..i + 1 + |t|];
        assert OccursAt(s, t, i + 1);
      }
      if exists i :: OccursAt(s, t, i) {
        var i :| OccursAt(s, t, i);
        assert i != 0;
        assert s[1..][i - 1..i - 1 + |t|] == s[i..i + |t|];
        assert OccursAt(s[1..], t, i - 1);
      }
    }
  }

  /** A string contains every piece it is assembled from. */
  lemma ContainsPiece(a: string, t: string, b: string)
    ensures Contains(a + t + b, t)
  {
    ContainsIff(a + t + b, t);
    assert (a + t + b)[|a|..|a| + |t|] == t;
    assert OccursAt(a + t + b, t, |a|);
  }

  /** An occurrence in the second piece of a concatenation is an occurrence in the whole. */
  lemma ContainsInSuffix(x: string, y: string, t: string)
    requires Contains(y, t)
    ensures Contains(x + y, t)
  {
    ContainsIff(y, t);
    var k :| OccursAt(y, t, k);
    assert (x + y)[|x| + k..|x| + k + |t|] == y[k..k + |t|];
    assert OccursAt(x + y, t, |x| + k);
    ContainsIff(x + y, t);
  }

  /** An occurrence in the first piece of a concatenation is an occurrence in the whole. */
  lemma ContainsInPrefix(x: string, y: string, t: string)
    requires Contains(x, t)
    ensures Contains(x + y, t)
  {
    ContainsIff(x, t);
    var k :| OccursAt(x, t, k);
    assert (x + y)[k..k + |t|] == x[k..k + |t|];
    assert OccursAt(x + y, t, k);
    ContainsIff(x + y, t);
  }

  /** Every part occurs in the joined text. */
  lemma {:induction false} JoinContainsPart(parts: seq<string>, sep: string, i: nat)
    requires i < |parts|
    ensures Contains(Join(parts, sep), parts[i])
  {
    if |parts| == 1 {
      ContainsPiece("", parts[0], "");
      assert "" + parts[0] + "" == parts[0];
    } else if i == 0 {
      ContainsPiece("", parts[0], sep + Join(parts[1..], sep));
      assert "" + parts[0] + (sep + Join(parts[1..], sep)) == Join(parts, sep);
    } else {
      JoinContainsPart(parts[1..], sep, i - 1);
      ContainsInSuffix(parts[0] + sep, Join(parts[1..], sep), parts[i]);
    }
  }

  /** `s.lastIndexOf(t)`: the last index where `t` occurs, or None (JavaScript's -1). */
  function LastIndexOf(s: string, t: string): (r: Option<nat>)
    ensures r.Some? ==> OccursAt(s, t, r.value)
    ensures r.Some? ==> forall j :: r.value < j ==> !OccursAt(s, t, j)
    ensures r.None? ==> forall j :: !OccursAt(s, t, j)
    decreases |s|
  {
    if |s| < |t| then None
    else if s[|s| - |t|..] == t then Some(|s| - |t|)
    else
      var r := LastIndexOf(s[..|s| - 1], t);
      assert forall j :: OccursAt(s, t, j) && j + |t| < |s| ==> OccursAt(s[..|s| - 1], t, j) by {
        forall j | OccursAt(s, t, j) && j + |t| < |s| ensures OccursAt(s[..|s| - 1], t, j) {
          assert s[..|s| - 1][j..j + |t|] == s[j..j + |t|];
        }
      }
      if r.Some? then
        assert s[..|s| - 1][r.value..r.value + |t|] == s[r.value..r.value + |t|];
        r
      else r
  }

  // ---------------------------------------------------------------------------
  // case and numbers

  /** ASCII `toLowerCase` of one character. */
  function LowerChar(c: char): char {
    if 'A' <= c <= 'Z' then (c as int + 32) as char else c
  }

  /** `s.toLowerCase()` restricted to ASCII letters. */
  function ToLower(s: string): (r: string)
    ensures |r| == |s|
    ensures forall i :: 0 <= i < |s| ==> r[i] == LowerChar(s[i])
  {
    seq(|s|, i requires 0 <= i < |s| => LowerChar(s[i]))
  }

  function DigitChar(d: nat): char
    requires d < 10
  {
    "0123456789"[d]
  }

  /** Decimal rendering of a natural number, as a template literal prints it. */
  function NatToString(n: nat): (r: string)
    ensures |r| >= 1
    ensures forall i :: 0 <= i < |r| ==> IsDigit(r[i])
  {
    if n < 10 then [DigitChar(n)] else NatToString(n / 10) + [DigitChar(n % 10)]
  }

  /** `xs.map(x => prefix + x)`. */
  function PrefixEach(prefix: string, xs: seq<string>): (r: seq<string>)
    ensures |r| == |xs|
    ensures forall i :: 0 <= i < |xs| ==> r[i] == prefix + xs[i]
  {
    seq(|xs|, i requires 0 <= i < |xs| => prefix + xs[i])
  }

  /** `path.split('/').pop()`: the text after the last '/'. */
  function LastSegment(path: string): (r: string)
    ensures '/' !in r
  {
    var parts := Split(path, '/');
    parts[|parts| - 1]
  }

  lemma {:induction false} JoinEndsWithLast(parts: seq<string>, sep: string)
    requires |parts| >= 1
    ensures EndsWith(Join(parts, sep), parts[|parts| - 1])
  {
    if |parts| > 1 {
      JoinEndsWithLast(parts[1..], sep);
      assert parts[1..][|parts| - 2] == parts[|parts| - 1];
    }
  }

  /** The last segment is the part of the path after its last '/'. */
  lemma LastSegmentIsSuffix(path: string)
    ensures EndsWith(path, LastSegment(path))
    ensures |LastSegment(path)| < |path| ==> path[|path| - |LastSegment(path)| - 1] == '/'
  {
    JoinSplit(path, '/');
    var parts := Split(path, '/');
    JoinEndsWithLast(parts, "/");
    if |parts| > 1 {
      LastSegmentSeparator(parts, "/");
    }
  }

  lemma {:induction false} LastSegmentSeparator(parts: seq<string>, sep: string)
    requires |parts| >= 2
    ensures var j := Join(parts, sep); var l := parts[|parts| - 1];
      |l| + |sep| <= |j| && j[|j| - |l| - |sep|..|j| - |l|] == sep
  {
    if |parts| > 2 {
      LastSegmentSeparator(parts[1..], sep);
      assert parts[1..][|parts| - 2] == parts[|parts| - 1];
    }
  }
}
