/**
 * The slice of the host editor's text-document interface the extension reads:
 * lines, `lineCount`, `languageId`, `fileName`, and `getText(range)` with the
 * editor's position validation (a line past the end means the end of the
 * document; a character past the end of its line means the end of that line).
 */
module Document {
  import opened Wrappers
  import opened Text

  datatype Position = Position(line: nat, character: nat)

  datatype Range = Range(start: Position, end: Position)

  /** A document as a sequence of lines without their '\n' terminators. */
  datatype Document = Document(lines: seq<string>, languageId: string, fileName: string)
  {
    /** What the editor guarantees: at least one line, and no line holds a '\n'. */
    ghost predicate Valid() {
      |lines| >= 1 && forall i :: 0 <= i < |lines| ==> '\n' !in lines[i]
    }

    function LineCount(): nat {
      |lines|
    }

    /** `document.getText()`: the whole text. */
    function FullText(): string {
      Join(lines, "\n")
    }

    /** The offset in `FullText()` of a position, after the editor's validation. */
    function Offset(p: Position): (o: nat)
      ensures o <= |FullText()|
      ensures |lines| > 0 && p.line >= |lines| ==> o == |FullText()|
      ensures p.line < |lines| ==> LineStart(lines, p.line) <= o <= LineStart(lines, p.line) + |lines[p.line]|
      ensures p.line < |lines| && p.character <= |lines[p.line]| ==> o == LineStart(lines, p.line) + p.character
    {
      if |lines| == 0 then 0
      else if p.line >= |lines| then |FullText()|
      else
        LineStartBound(lines, p.line);
        LineStart(lines, p.line) + Min(p.character, |lines[p.line]|)
    }

    /** `range ? document.getText(range) : document.getText()`: the selection, or the whole text. */
    function SelectedText(range: Option<Range>): (r: string)
      ensures range.None? ==> r == FullText()
      ensures range.Some? ==> r == GetText(range.value.start, range.value.end)
    {
      match range
      case None => FullText()
      case Some(rg) => GetText(rg.start, rg.end)
    }

    /** `document.getText(new Range(a, b))`; the range is ordered whichever end comes first. */
    function GetText(a: Position, b: Position): (r: string)
      ensures |r| <= |FullText()|
    {
      var oa := Offset(a);
      var ob := Offset(b);
      if oa <= ob then FullText()[oa..ob] else FullText()[ob..oa]
    }
  }

  /** Offset of the first character of line `l` in `Join(lines, "\n")`. */
  function LineStart(lines: seq<string>, l: nat): nat
    requires l < |lines|
  {
    if l == 0 then 0 else |lines[0]| + 1 + LineStart(lines[1..], l - 1)
  }

  lemma {:induction false} LineStartBound(lines: seq<string>, l: nat)
    requires l < |lines|
    ensures LineStart(lines, l) + |lines[l]| <= |Join(lines, "\n")|
  {
    if l > 0 {
      LineStartBound(lines[1..], l - 1);
    }
  }

  lemma {:induction false} LineStartMono(lines: seq<string>, a: nat, l: nat)
    requires a <= l < |lines|
    ensures LineStart(lines, a) <= LineStart(lines, l)
  {
    if a > 0 {
      LineStartMono(lines[1..], a - 1, l - 1);
    }
  }

  /** The text up to character `c` of line `l` is lines `0..l-1` and the first `c` characters of line `l`. */
  lemma {:induction false} TextUpTo(lines: seq<string>, l: nat, c: nat)
    requires l < |lines| && c <= |lines[l]|
    ensures LineStart(lines, l) + c <= |Join(lines, "\n")|
    ensures Join(lines, "\n")[..LineStart(lines, l) + c] == Join(lines[..l] + [lines[l][..c]], "\n")
  {
    LineStartBound(lines, l);
    var j := Join(lines, "\n");
    if l == 0 {
      if |lines| > 1 {
        assert j == lines[0] + "\n" + Join(lines[1..], "\n");
      }
      assert j[..c] == lines[0][..c];
      assert lines[..l] + [lines[l][..c]] == [lines[0][..c]];
    } else {
      var tail := lines[1..];
      var head := lines[0] + "\n";
      assert j == head + Join(tail, "\n");
      TextUpTo(tail, l - 1, c);
      var w := Join(tail[..l - 1] + [tail[l - 1][..c]], "\n");
      var n := LineStart(tail, l - 1) + c;
      assert j[..|head| + n] == head + Join(tail, "\n")[..n];
      var ws := lines[..l] + [lines[l][..c]];
      assert ws[1..] == tail[..l - 1] + [tail[l - 1][..c]];
      assert Join(ws, "\n") == ws[0] + "\n" + Join(ws[1..], "\n");
    }
  }

  lemma SliceAfter(x: string, y: string, s: nat, e: nat)
    requires s <= e <= |y|
    ensures (x + y)[|x| + s..|x| + e] == y[s..e]
  {
  }

  /** Lines `a` to `l` of a text are lines `a - 1` to `l - 1` of its tail. */
  lemma TailSlice(lines: seq<string>, a: nat, l: nat)
    requires 1 <= a <= l < |lines|
    ensures lines[1..][a - 1..l - 1] == lines[a..l] && lines[1..][l - 1] == lines[l]
  {
    forall k | 0 <= k < l - a ensures lines[1..][a - 1..l - 1][k] == lines[a..l][k] {
      assert lines[1..][a - 1..l - 1][k] == lines[a + k];
    }
  }

  /**
   * The text between the start of line `a` and character `c` of line `l` is
   * lines `a` to `l - 1` in full followed by the first `c` characters of line `l`.
   */
  lemma {:induction false} TextBetween(lines: seq<string>, a: nat, l: nat, c: nat)
    requires a <= l < |lines| && c <= |lines[l]|
    ensures LineStart(lines, a) <= LineStart(lines, l) + c <= |Join(lines, "\n")|
    ensures Join(lines, "\n")[LineStart(lines, a)..LineStart(lines, l) + c]
         == Join(lines[a..l] + [lines[l][..c]], "\n")
  {
    LineStartBound(lines, l);
    LineStartMono(lines, a, l);
    if a == 0 {
      TextUpTo(lines, l, c);
    } else {
      var tail := lines[1..];
      var head := lines[0] + "\n";
      assert Join(lines, "\n") == head + Join(tail, "\n");
      TextBetween(tail, a - 1, l - 1, c);
      SliceAfter(head, Join(tail, "\n"), LineStart(tail, a - 1), LineStart(tail, l - 1) + c);
      TailSlice(lines, a, l);
    }
  }

  /**
   * `getText` of a range from the start of line `a` to character `c` of line
   * `l` is those lines joined by '\n', the last one cut at `c`, whichever end
   * the range is given from.
   */
  lemma GetTextSpansLines(doc: Document, a: nat, l: nat, c: nat)
    requires a <= l < |doc.lines| && c <= |doc.lines[l]|
    ensures doc.GetText(Position(a, 0), Position(l, c)) == Join(doc.lines[a..l] + [doc.lines[l][..c]], "\n")
    ensures doc.GetText(Position(l, c), Position(a, 0)) == Join(doc.lines[a..l] + [doc.lines[l][..c]], "\n")
  {
    TextBetween(doc.lines, a, l, c);
  }

  /** A window from the start of line `a` to a position on line `l` spans `l - a + 1` lines. */
  lemma WindowLineCount(lines: seq<string>, a: nat, l: nat, c: nat)
    requires a <= l < |lines| && c <= |lines[l]|
    requires forall i :: 0 <= i < |lines| ==> '\n' !in lines[i]
    ensures |Split(Join(lines[a..l] + [lines[l][..c]], "\n"), '\n')| == l - a + 1
  {
    var ws := lines[a..l] + [lines[l][..c]];
    forall k | 0 <= k < |ws| ensures '\n' !in ws[k] {
      if k < l - a {
        assert ws[k] == lines[a + k];
      } else {
        assert ws[k] == lines[l][..c];
        assert forall x :: x in lines[l][..c] ==> x in lines[l];
      }
    }
    JoinCount(ws, '\n');
  }
}
