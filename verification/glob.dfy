/**
 * The role manager's file-pattern test. A pattern becomes regex source by
 * replacing every `*` with `.*` and every `?` with `.`; a `.` already in the
 * pattern is not escaped, so it matches any character. The regex is tested
 * case-insensitively and unanchored: it holds when some substring of the file
 * name matches. Patterns are modelled over literals, `.` and `.*`.
 */
module Glob {
  import opened Text

  /** One regex atom: a literal character, `.`, or `.*`. */
  datatype Token = Lit(c: char) | Any | AnyStar

  /** The regex source: every `*` replaced by `.*`, then every `?` by `.`. */
  function RegexSource(pattern: string): (r: string)
    ensures |r| >= |pattern|
    ensures |r| > 0 ==> r[0] != '*'
    ensures '?' !in r
  {
    if |pattern| == 0 then ""
    else
      var head := if pattern[0] == '*' then ".*" else if pattern[0] == '?' then "." else [pattern[0]];
      head + RegexSource(pattern[1..])
  }

  /** Reading regex source made of literals, `.` and `.*` into tokens. */
  function Parse(src: string): (r: seq<Token>)
    ensures |r| <= |src|
  {
    if |src| == 0 then []
    else if src[0] == '.' && |src| > 1 && src[1] == '*' then [AnyStar] + Parse(src[2..])
    else if src[0] == '.' then [Any] + Parse(src[1..])
    else [Lit(src[0])] + Parse(src[1..])
  }

  /** The token each pattern character stands for once the regex is built. */
  function Compile(pattern: string): (r: seq<Token>)
    ensures |r| == |pattern|
    ensures forall i :: 0 <= i < |pattern| ==> (r[i] == AnyStar <==> pattern[i] == '*')
    ensures forall i :: 0 <= i < |pattern| ==> (r[i] == Any <==> pattern[i] == '.' || pattern[i] == '?')
  {
    seq(|pattern|, i requires 0 <= i < |pattern| =>
      if pattern[i] == '*' then AnyStar else if pattern[i] in ".?" then Any else Lit(pattern[i]))
  }

  /** Parsing the rewritten source gives one token per pattern character. */
  lemma {:induction false} ParseSource(pattern: string)
    ensures Parse(RegexSource(pattern)) == Compile(pattern)
  {
    if |pattern| > 0 {
      var rest := RegexSource(pattern[1..]);
      ParseSource(pattern[1..]);
      assert Compile(pattern) == [Compile(pattern)[0]] + Compile(pattern[1..]);
      if pattern[0] == '*' {
        assert (".*" + rest)[2..] == rest;
      } else if pattern[0] == '?' {
        assert ("." + rest)[1..] == rest;
      } else {
        assert ([pattern[0]] + rest)[1..] == rest;
      }
    }
  }

  /** The regex `i` flag: characters are compared after ASCII lower-casing. */
  predicate SameLetter(a: char, b: char) {
    LowerChar(a) == LowerChar(b)
  }

  /** What `.` accepts: anything but a line terminator. */
  predicate Dot(c: char) {
    !IsLineTerminator(c)
  }

  /** The whole of `s` matches `toks`. */
  predicate Matches(toks: seq<Token>, s: string)
    decreases |toks| + |s|
  {
    if |toks| == 0 then s == ""
    else match toks[0]
      case Lit(c) => |s| > 0 && SameLetter(s[0], c) && Matches(toks[1..], s[1..])
      case Any => |s| > 0 && Dot(s[0]) && Matches(toks[1..], s[1..])
      case AnyStar => Matches(toks[1..], s) || (|s| > 0 && Dot(s[0]) && Matches(toks, s[1..]))
  }

  /** Some prefix of `s` matches `toks`: the regex anchored at the start only. */
  predicate MatchPrefix(toks: seq<Token>, s: string)
    decreases |toks| + |s|
  {
    if |toks| == 0 then true
    else match toks[0]
      case Lit(c) => |s| > 0 && SameLetter(s[0], c) && MatchPrefix(toks[1..], s[1..])
      case Any => |s| > 0 && Dot(s[0]) && MatchPrefix(toks[1..], s[1..])
      case AnyStar => MatchPrefix(toks[1..], s) || (|s| > 0 && Dot(s[0]) && MatchPrefix(toks, s[1..]))
  }

  /** `regex.test(s)`: the match may start anywhere. */
  predicate Test(toks: seq<Token>, s: string)
    decreases |s|
  {
    MatchPrefix(toks, s) || (|s| > 0 && Test(toks, s[1..]))
  }

  /** `matchesPattern(fileName, pattern)`. */
  predicate MatchesPattern(fileName: string, pattern: string) {
    Test(Parse(RegexSource(pattern)), fileName)
  }

  // ---------------------------------------------------------------------------
  // the search procedures against the whole-string match

  lemma {:induction false} MatchPrefixIff(toks: seq<Token>, s: string)
    ensures MatchPrefix(toks, s) <==> exists j :: 0 <= j <= |s| && Matches(toks, s[..j])
    decreases |toks| + |s|
  {
    if |toks| == 0 {
      assert Matches(toks, s[..0]);
    } else {
      match toks[0]
      case Lit(c) => {
        if |s| > 0 {
          MatchPrefixIff(toks[1..], s[1..]);
          PrefixStep(toks, s);
        } else {
          NoMatchOfEmpty(toks);
        }
      }
      case Any => {
        if |s| > 0 {
          MatchPrefixIff(toks[1..], s[1..]);
          PrefixStep(toks, s);
        } else {
          NoMatchOfEmpty(toks);
        }
      }
      case AnyStar => {
        MatchPrefixIff(toks[1..], s);
        if |s| > 0 {
          MatchPrefixIff(toks, s[1..]);
        }
        StarPrefixStep(toks, s);
      }
    }
  }

  lemma NoMatchOfEmpty(toks: seq<Token>)
    requires |toks| > 0 && !toks[0].AnyStar?
    ensures forall j :: 0 <= j <= 0 ==> !Matches(toks, ""[..j])
  {
    assert ""[..0] == "";
  }

  /** One literal or `.` step: prefixes of `s` matching `toks` are one longer than those of `s[1..]` matching the rest. */
  lemma PrefixStep(toks: seq<Token>, s: string)
    requires |toks| > 0 && !toks[0].AnyStar? && |s| > 0
    ensures (exists j :: 0 <= j <= |s| && Matches(toks, s[..j])) <==>
      (Head(toks[0], s[0]) && exists j :: 0 <= j <= |s| - 1 && Matches(toks[1..], s[1..][..j]))
  {
    if exists j :: 0 <= j <= |s| && Matches(toks, s[..j]) {
      var j :| 0 <= j <= |s| && Matches(toks, s[..j]);
      assert j > 0;
      assert s[..j][1..] == s[1..][..j - 1];
    }
    if Head(toks[0], s[0]) && exists j :: 0 <= j <= |s| - 1 && Matches(toks[1..], s[1..][..j]) {
      var j :| 0 <= j <= |s| - 1 && Matches(toks[1..], s[1..][..j]);
      assert s[..j + 1][1..] == s[1..][..j];
      assert s[..j + 1][0] == s[0];
      assert Matches(toks, s[..j + 1]);
    }
  }

  /** The first character of a match against a literal or `.` token. */
  predicate Head(t: Token, c: char) {
    match t
    case Lit(x) => SameLetter(c, x)
    case Any => Dot(c)
    case AnyStar => true
  }

  lemma StarPrefixStep(toks: seq<Token>, s: string)
    requires |toks| > 0 && toks[0].AnyStar?
    ensures (exists j :: 0 <= j <= |s| && Matches(toks, s[..j])) <==>
      ((exists j :: 0 <= j <= |s| && Matches(toks[1..], s[..j])) ||
       (|s| > 0 && Dot(s[0]) && exists j :: 0 <= j <= |s| - 1 && Matches(toks, s[1..][..j])))
  {
    if exists j :: 0 <= j <= |s| && Matches(toks, s[..j]) {
      var j :| 0 <= j <= |s| && Matches(toks, s[..j]);
      if !Matches(toks[1..], s[..j]) {
        assert j > 0;
        assert s[..j][1..] == s[1..][..j - 1];
      }
    }
    if |s| > 0 && Dot(s[0]) && exists j :: 0 <= j <= |s| - 1 && Matches(toks, s[1..][..j]) {
      var j :| 0 <= j <= |s| - 1 && Matches(toks, s[1..][..j]);
      assert s[..j + 1][1..] == s[1..][..j];
      assert s[..j + 1][0] == s[0];
      assert Matches(toks, s[..j + 1]);
    }
  }

  /** `regex.test(s)` holds exactly when some substring of `s` matches. */
  lemma {:induction false} TestIff(toks: seq<Token>, s: string)
    ensures Test(toks, s) <==> exists i, j :: 0 <= i <= j <= |s| && Matches(toks, s[i..j])
    decreases |s|
  {
    MatchPrefixIff(toks, s);
    if MatchPrefix(toks, s) {
      var j :| 0 <= j <= |s| && Matches(toks, s[..j]);
      assert s[0..j] == s[..j];
    }
    if |s| > 0 {
      TestIff(toks, s[1..]);
      if Test(toks, s[1..]) {
        var i, j :| 0 <= i <= j <= |s| - 1 && Matches(toks, s[1..][i..j]);
        assert s[1..] == s[1..|s|];
        SliceOfSlice(s, 1, |s|, i, j);
        assert Matches(toks, s[i + 1..j + 1]);
      }
    }
    if exists i, j :: 0 <= i <= j <= |s| && Matches(toks, s[i..j]) {
      var i, j :| 0 <= i <= j <= |s| && Matches(toks, s[i..j]);
      if i == 0 {
        assert s[i..j] == s[..j];
      } else {
        assert s[1..] == s[1..|s|];
        SliceOfSlice(s, 1, |s|, i - 1, j - 1);
        assert Matches(toks, s[1..][i - 1..j - 1]);
      }
    }
  }

  /** The pattern `*` matches every file name: its regex `.*` matches the empty substring. */
  lemma StarMatchesAll(fileName: string)
    ensures MatchesPattern(fileName, "*")
  {
    assert RegexSource("*") == ".*";
    assert Parse(".*") == [AnyStar];
    assert MatchPrefix([AnyStar][1..], fileName);
  }

  /** A pattern without wildcards matches when it occurs anywhere in the name, in any letter case. */
  lemma LiteralMatchesAnywhere(a: string, lit: string, b: string)
    requires forall i :: 0 <= i < |lit| ==> lit[i] !in "*?."
    ensures MatchesPattern(a + ToLower(lit) + b, lit)
  {
    ParseSource(lit);
    var toks := Compile(lit);
    var s := a + ToLower(lit) + b;
    LiteralMatches(lit);
    assert s[|a|..|a| + |lit|] == ToLower(lit);
    TestIff(toks, s);
  }

  lemma {:induction false} LiteralMatches(lit: string)
    requires forall i :: 0 <= i < |lit| ==> lit[i] !in "*?."
    ensures Matches(Compile(lit), ToLower(lit))
  {
    if |lit| > 0 {
      LiteralMatches(lit[1..]);
      assert Compile(lit)[1..] == Compile(lit[1..]);
      assert ToLower(lit)[1..] == ToLower(lit[1..]);
      assert Compile(lit)[0] == Lit(lit[0]);
      assert LowerChar(LowerChar(lit[0])) == LowerChar(lit[0]);
    }
  }
}
