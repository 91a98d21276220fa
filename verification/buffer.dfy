/**
 * The editor buffer as the command language sees it: a non-empty sequence of
 * lines and a cursor. Multi-line scans (brackets, arguments) work on the
 * buffer's text, the lines joined by line breaks, addressed by offset; this
 * module converts between the two views and proves the conversions inverse.
 */
module Buffer {

  type Lines = seq<string>

  /**
   * The unnamed register: empty, characterwise text (possibly spanning
   * lines) or whole lines.
   */
  datatype Register = Empty | Chars(text: string) | Linewise(lines: seq<string>)

  /** A cursor position: zero-based line and column. */
  datatype Pos = Pos(line: nat, col: nat)

  predicate NoNewline(s: string) {
    forall i | 0 <= i < |s| :: s[i] != '\n'
  }

  /** A buffer never becomes empty, and no line holds a line break. */
  predicate WellFormed(ls: Lines) {
    |ls| >= 1 && forall k | 0 <= k < |ls| :: NoNewline(ls[k])
  }

  /** No line of a block of lines holds a line break. */
  predicate BreakFree(ls: seq<string>) {
    forall k | 0 <= k < |ls| :: NoNewline(ls[k])
  }

  /** Lines cut out of a break-free block are break-free. */
  lemma BreakFreeParts(ls: seq<string>, i: nat, j: nat)
    requires BreakFree(ls) && i <= j <= |ls|
    ensures BreakFree(ls[..j]) && BreakFree(ls[i..]) && BreakFree(ls[i..j])
  {
    assert forall k | 0 <= k < j :: ls[..j][k] == ls[k];
    assert forall k | 0 <= k < |ls| - i :: ls[i..][k] == ls[i + k];
    assert forall k | 0 <= k < j - i :: ls[i..j][k] == ls[i + k];
  }

  /** Break-free blocks put together are break-free. */
  lemma BreakFreeJoin(a: seq<string>, b: seq<string>)
    requires BreakFree(a) && BreakFree(b)
    ensures BreakFree(a + b)
  {
    forall k | 0 <= k < |a + b| ensures NoNewline((a + b)[k]) {
      if k < |a| {
        assert (a + b)[k] == a[k];
      } else {
        assert (a + b)[k] == b[k - |a|];
      }
    }
  }

  /** A position on a line or just past its last character. */
  predicate ValidPos(ls: Lines, p: Pos) {
    p.line < |ls| && p.col <= |ls[p.line]|
  }

  predicate IsBlank(c: char) {
    c == ' ' || c == '\t'
  }

  /** Blank characters including the line break. */
  predicate IsWhite(c: char) {
    c == ' ' || c == '\t' || c == '\n'
  }

  /** Offsets in strictly increasing order. */
  predicate Increasing(xs: seq<nat>) {
    forall j, k | 0 <= j < k < |xs| :: xs[j] < xs[k]
  }

  /** The buffer's text: its lines separated by single line breaks. */
  function Join(ls: Lines): string
  {
    if |ls| == 0 then "" else if |ls| == 1 then ls[0] else ls[0] + "\n" + Join(ls[1..])
  }

  /** The first line break at or after `i`, or `|s|` when there is none. */
  function NewlineIndex(s: string, i: nat): (r: nat)
    requires i <= |s|
    ensures i <= r <= |s|
    ensures r < |s| ==> s[r] == '\n'
    ensures forall k | i <= k < r :: s[k] != '\n'
    decreases |s| - i
  {
    if i == |s| || s[i] == '\n' then i else NewlineIndex(s, i + 1)
  }

  /** The lines of a text: the pieces between its line breaks. */
  function Split(s: string): (ls: Lines)
    ensures WellFormed(ls)
    decreases |s|
  {
    var i := NewlineIndex(s, 0);
    if i == |s| then [s] else [s[..i]] + Split(s[i + 1..])
  }

  lemma {:induction false} JoinSplit(s: string)
    ensures Join(Split(s)) == s
    decreases |s|
  {
    var i := NewlineIndex(s, 0);
    if i < |s| {
      var rest := Split(s[i + 1..]);
      JoinSplit(s[i + 1..]);
      assert Split(s) == [s[..i]] + rest;
      assert ([s[..i]] + rest)[1..] == rest;
      assert s == s[..i] + "\n" + s[i + 1..];
    }
  }

  lemma {:induction false} SplitJoin(ls: Lines)
    requires WellFormed(ls)
    ensures Split(Join(ls)) == ls
    decreases |ls|
  {
    var s := Join(ls);
    if |ls| == 1 {
      assert NewlineIndex(s, 0) == |s|;
    } else {
      var tail := ls[1..];
      assert WellFormed(tail) by {
        forall k | 0 <= k < |tail| ensures NoNewline(tail[k]) {
          assert tail[k] == ls[k + 1];
        }
      }
      assert s == ls[0] + "\n" + Join(tail);
      assert s[|ls[0]|] == '\n';
      assert forall k | 0 <= k < |ls[0]| :: s[k] == ls[0][k];
      assert NewlineIndex(s, 0) == |ls[0]|;
      assert s[..|ls[0]|] == ls[0];
      assert s[|ls[0]| + 1..] == Join(tail);
      SplitJoin(tail);
      assert ls == [ls[0]] + tail;
    }
  }

  /** Two well-formed buffers are equal exactly when their texts are. */
  lemma JoinInjective(a: Lines, b: Lines)
    requires WellFormed(a) && WellFormed(b)
    ensures Join(a) == Join(b) <==> a == b
  {
    if Join(a) == Join(b) {
      SplitJoin(a);
      SplitJoin(b);
    }
  }

  /** Splicing a line-free text into a line-free text leaves no line break. */
  lemma SpliceNoNewline(s: string, a: nat, b: nat, mid: string)
    requires a <= b <= |s| && NoNewline(s) && NoNewline(mid)
    ensures NoNewline(s[..a] + mid + s[b..])
  {
    var r := s[..a] + mid + s[b..];
    forall k | 0 <= k < |r| ensures r[k] != '\n' {
      if k < a {
        assert r[k] == s[k];
      } else if k >= a + |mid| {
        assert r[k] == s[k - a - |mid| + b];
      } else {
        assert r[k] == mid[k - a];
      }
    }
  }

  /** The character at a position, a line break standing for the end of a line. */
  function CharAt(ls: Lines, p: Pos): char
    requires ValidPos(ls, p)
  {
    if p.col < |ls[p.line]| then ls[p.line][p.col] else '\n'
  }

  /** The offset of a position in the buffer's text. */
  function Offset(ls: Lines, p: Pos): (r: nat)
    requires ValidPos(ls, p)
    ensures r <= |Join(ls)|
    ensures r < |Join(ls)| ==> Join(ls)[r] == CharAt(ls, p)
    ensures r == |Join(ls)| <==> p.line == |ls| - 1 && p.col == |ls[p.line]|
    decreases p.line
  {
    if p.line == 0 then
      p.col
    else
      var tail := ls[1..];
      var q := Pos(p.line - 1, p.col);
      assert tail[q.line] == ls[p.line];
      var r := |ls[0]| + 1 + Offset(tail, q);
      assert Join(ls) == ls[0] + "\n" + Join(tail);
      r
  }

  /** The position at an offset of the buffer's text. */
  function PosAt(ls: Lines, off: nat): (p: Pos)
    requires |ls| >= 1 && off <= |Join(ls)|
    ensures ValidPos(ls, p) && Offset(ls, p) == off
    decreases |ls|
  {
    if |ls| == 1 || off <= |ls[0]| then
      Pos(0, off)
    else
      var tail := ls[1..];
      assert Join(ls) == ls[0] + "\n" + Join(tail);
      var q := PosAt(tail, off - |ls[0]| - 1);
      assert tail[q.line] == ls[q.line + 1];
      Pos(q.line + 1, q.col)
  }

  /** Offsets and positions are in one-to-one correspondence. */
  lemma {:induction false} PosAtOffset(ls: Lines, p: Pos)
    requires ValidPos(ls, p)
    ensures PosAt(ls, Offset(ls, p)) == p
    decreases p.line
  {
    if p.line > 0 {
      var tail := ls[1..];
      var q := Pos(p.line - 1, p.col);
      assert tail[q.line] == ls[p.line];
      PosAtOffset(tail, q);
    }
  }

  /** Replace the text between two offsets, keeping the buffer well formed. */
  function Replace(ls: Lines, a: nat, b: nat, ins: string): (r: Lines)
    requires a <= b <= |Join(ls)|
    ensures WellFormed(r)
    ensures Join(r) == Join(ls)[..a] + ins + Join(ls)[b..]
    ensures |Join(r)| == a + |ins| + (|Join(ls)| - b)
    ensures ins == "" ==> Join(r) == Join(ls)[..a] + Join(ls)[b..]
  {
    var s := Join(ls)[..a] + ins + Join(ls)[b..];
    assert ins == "" ==> s == Join(ls)[..a] + Join(ls)[b..];
    JoinSplit(s);
    Split(s)
  }

  /** The column of the first non-blank character of a line (its length if all blank). */
  function FirstNonBlank(s: string): (c: nat)
    ensures c <= |s|
    ensures forall k | 0 <= k < c :: IsBlank(s[k])
    ensures c < |s| ==> !IsBlank(s[c])
  {
    FirstNonBlankFrom(s, 0)
  }

  function FirstNonBlankFrom(s: string, i: nat): (c: nat)
    requires i <= |s|
    ensures i <= c <= |s|
    ensures forall k | i <= k < c :: IsBlank(s[k])
    ensures c < |s| ==> !IsBlank(s[c])
    decreases |s| - i
  {
    if i == |s| || !IsBlank(s[i]) then i else FirstNonBlankFrom(s, i + 1)
  }

  /**
   * Where Normal mode puts the cursor on a line: on a character, never past
   * the last one (column 0 on an empty line).
   */
  function NormalCol(s: string, c: nat): (r: nat)
    ensures r <= c
    ensures |s| == 0 ==> r == 0
    ensures |s| > 0 ==> r < |s| && (c < |s| ==> r == c)
  {
    if |s| == 0 then 0 else if c < |s| then c else |s| - 1
  }

  /** The Normal-mode cursor for a line: its first non-blank, or its last character. */
  function LineHome(ls: Lines, line: nat): (p: Pos)
    requires line < |ls|
    ensures p.line == line && ValidPos(ls, p)
  {
    Pos(line, NormalCol(ls[line], FirstNonBlank(ls[line])))
  }
}
