/**
 * Linewise commands: `[count]dd` / `d[count]d`, `[count]Y` / `[count]yy` and
 * putting a linewise register with `p` and `P`. A count larger than the
 * number of lines left is cut down to them; deleting every line leaves one
 * empty line, since a buffer is never empty.
 */
module LineCommands {
  import opened Buffer
  import N = Numbers

  /** How many lines a count covers from `line` on: never past the last line. */
  function Span(ls: Lines, line: nat, count: nat): (m: nat)
    requires line < |ls| && count >= 1
    ensures 1 <= m <= count && line + m <= |ls|
    ensures m < count ==> line + m == |ls|
  {
    N.Min(count, |ls| - line)
  }

  /** The outcome of a linewise delete: the buffer, the cursor and the deleted lines. */
  datatype Deleted = Deleted(lines: Lines, cursor: Pos, removed: seq<string>)

  /**
   * `[count]dd`: remove the clamped span of lines. The cursor goes to the
   * first non-blank of the line that took the first deleted line's place, or
   * of the new last line when the span reached the end.
   */
  function DeleteLines(ls: Lines, line: nat, count: nat): (r: Deleted)
    requires WellFormed(ls) && line < |ls| && count >= 1
    ensures WellFormed(r.lines)
    ensures r.removed == Yank(ls, line, count)
    ensures |r.removed| < |ls| ==> r.lines == ls[..line] + ls[line + |r.removed|..]
    ensures |r.removed| == |ls| ==> r.lines == [""]
    ensures r.cursor == LineHome(r.lines, N.Min(line, |r.lines| - 1))
    ensures ValidPos(r.lines, r.cursor) && |r.removed| >= 1 && BreakFree(r.removed)
  {
    var m := Span(ls, line, count);
    assert BreakFree(ls);
    var rest := ls[..line] + ls[line + m..];
    var after := if |rest| == 0 then [""] else rest;
    assert WellFormed(after) by {
      if |rest| > 0 {
        BreakFreeParts(ls, line + m, line + m);
        BreakFreeParts(ls, line, line);
        BreakFreeJoin(ls[..line], ls[line + m..]);
      } else {
        assert NoNewline("");
      }
    }
    Deleted(after, LineHome(after, N.Min(line, |after| - 1)), ls[line..line + m])
  }

  /**
   * `[count]Y` / `[count]yy`: the lines the count covers from `line` on, as
   * many as there are when the count runs past the end.
   */
  function Yank(ls: Lines, line: nat, count: nat): (ys: seq<string>)
    requires line < |ls| && count >= 1
    ensures 1 <= |ys| <= count && line + |ys| <= |ls|
    ensures |ys| < count ==> line + |ys| == |ls|
    ensures forall k | 0 <= k < |ys| :: ys[k] == ls[line + k]
    ensures BreakFree(ls) ==> BreakFree(ys)
  {
    var m := Span(ls, line, count);
    CutBreakFree(ls, line, line + m);
    ls[line..line + m]
  }

  lemma CutBreakFree(ls: seq<string>, i: nat, j: nat)
    requires i <= j <= |ls|
    ensures BreakFree(ls) ==> BreakFree(ls[i..j])
  {
    if BreakFree(ls) {
      BreakFreeParts(ls, i, j);
    }
  }

  /** n copies of a block of lines, one after the other. */
  function Repeat(ys: seq<string>, n: nat): (r: seq<string>)
    ensures n >= 1 ==> |r| >= |ys| && r[..|ys|] == ys
    ensures n == 1 ==> r == ys
    ensures n == 0 ==> r == []
  {
    if n == 0 then [] else ys + Repeat(ys, n - 1)
  }

  lemma {:induction false} RepeatBreakFree(ys: seq<string>, n: nat)
    requires BreakFree(ys)
    ensures BreakFree(Repeat(ys, n))
  {
    if n > 0 {
      RepeatBreakFree(ys, n - 1);
      BreakFreeJoin(ys, Repeat(ys, n - 1));
    }
  }

  /**
   * `[count]p` (below the cursor's line) and `[count]P` (above it) with a
   * linewise register: the lines go in as whole lines, count times, and the
   * cursor goes to the first non-blank of the first put line.
   */
  function PutLines(ls: Lines, line: nat, ys: seq<string>, below: bool, count: nat): (r: (Lines, Pos))
    requires WellFormed(ls) && line < |ls| && |ys| >= 1 && count >= 1
    requires forall k | 0 <= k < |ys| :: NoNewline(ys[k])
    ensures var at := if below then line + 1 else line;
      var m := |Repeat(ys, count)|;
      && WellFormed(r.0) && |r.0| == |ls| + m && at + m <= |r.0|
      && r.0[..at] == ls[..at]
      && r.0[at..at + m] == Repeat(ys, count)
      && r.0[at + m..] == ls[at..]
      && r.0[at] == ys[0]
      && r.1 == Pos(at, NormalCol(ys[0], FirstNonBlank(ys[0])))
  {
    var at := if below then line + 1 else line;
    var ins := Repeat(ys, count);
    var after := ls[..at] + ins + ls[at..];
    assert WellFormed(after) by {
      BreakFreeParts(ls, at, at);
      RepeatBreakFree(ys, count);
      BreakFreeJoin(ls[..at], ins);
      BreakFreeJoin(ls[..at] + ins, ls[at..]);
    }
    assert after[..at] == ls[..at];
    assert after[at..at + |ins|] == ins;
    assert after[at + |ins|..] == ls[at..];
    assert after[at] == ins[0];
    (after, LineHome(after, at))
  }

  /** A put is the old lines up to `at`, the copies, then the rest of the old lines. */
  lemma PutShape(ls: Lines, line: nat, ys: seq<string>, below: bool, count: nat)
    requires WellFormed(ls) && line < |ls| && |ys| >= 1 && count >= 1
    requires forall k | 0 <= k < |ys| :: NoNewline(ys[k])
    ensures var at := if below then line + 1 else line;
      PutLines(ls, line, ys, below, count).0 == ls[..at] + Repeat(ys, count) + ls[at..]
  {
    var at := if below then line + 1 else line;
    var r := PutLines(ls, line, ys, below, count).0;
    var m := |Repeat(ys, count)|;
    assert r == r[..at] + r[at..at + m] + r[at + m..];
  }

  /** `[count]p` puts the register's lines in count times over: count * |ys| lines. */
  lemma {:induction false} RepeatLength(ys: seq<string>, n: nat)
    ensures |Repeat(ys, n)| == n * |ys|
  {
    if n > 0 {
      RepeatLength(ys, n - 1);
      assert n * |ys| == (n - 1) * |ys| + |ys|;
    }
  }

  /** The copies split anywhere: j copies, one more, and the remaining ones. */
  lemma {:induction false} RepeatSplit(ys: seq<string>, n: nat, j: nat)
    requires j < n
    ensures Repeat(ys, n) == Repeat(ys, j) + ys + Repeat(ys, n - j - 1)
  {
    if j > 0 {
      RepeatSplit(ys, n - 1, j - 1);
      var before, after := Repeat(ys, j - 1), Repeat(ys, n - j - 1);
      calc {
        Repeat(ys, n);
        ys + Repeat(ys, n - 1);
        ys + (before + ys + after);
        { Regroup(ys, before, ys, after); }
        (ys + before) + ys + after;
      }
    } else {
      assert Repeat(ys, 0) + ys == ys;
    }
  }

  /** Concatenation regrouped; a separate step, since in a larger context the solver finds it slowly. */
  lemma Regroup(a: seq<string>, b: seq<string>, c: seq<string>, d: seq<string>)
    ensures a + (b + c + d) == (a + b) + c + d
  {
  }

  /**
   * `ddP` undoes `dd` when lines remain below the deleted ones: the deleted
   * lines go back above the line the cursor landed on.
   */
  lemma DeleteThenPutAbove(ls: Lines, line: nat, count: nat)
    requires WellFormed(ls) && line < |ls| && count >= 1
    requires line + count < |ls|
    ensures var d := DeleteLines(ls, line, count);
      && d.cursor.line == line
      && PutLines(d.lines, d.cursor.line, d.removed, false, 1).0 == ls
  {
    var d := DeleteLines(ls, line, count);
    assert |d.removed| == count;
    assert Repeat(d.removed, 1) == d.removed;
    var rest := d.lines;
    assert rest[..line] == ls[..line];
    assert rest[line..] == ls[line + count..];
    assert ls == ls[..line] + ls[line..line + count] + ls[line + count..];
  }

  /**
   * `ddp` undoes `dd` on the last lines of a buffer that keeps lines above
   * them: the cursor lands on the new last line and the lines go back below it.
   */
  lemma DeleteLastThenPutBelow(ls: Lines, line: nat, count: nat)
    requires WellFormed(ls) && 0 < line < |ls| && count >= 1
    requires line + count >= |ls|
    ensures var d := DeleteLines(ls, line, count);
      && d.cursor.line == line - 1
      && PutLines(d.lines, d.cursor.line, d.removed, true, 1).0 == ls
  {
    var d := DeleteLines(ls, line, count);
    assert |d.removed| == |ls| - line;
    assert d.removed == ls[line..];
    assert d.lines == ls[..line];
    assert d.cursor.line == line - 1;
    var p := PutLines(d.lines, line - 1, d.removed, true, 1);
    assert p.0 == d.lines + d.removed;
    assert ls == ls[..line] + ls[line..];
  }

  /** `ddp` on a line with a line below it swaps the two lines. */
  lemma DeleteThenPutSwaps(ls: Lines, line: nat)
    requires WellFormed(ls) && line + 1 < |ls|
    ensures var d := DeleteLines(ls, line, 1);
      var p := PutLines(d.lines, d.cursor.line, d.removed, true, 1);
      && p.0 == ls[..line] + [ls[line + 1], ls[line]] + ls[line + 2..]
      && p.1 == LineHome(p.0, line + 1)
  {
    var d := DeleteLines(ls, line, 1);
    assert d.removed == [ls[line]];
    assert Repeat(d.removed, 1) == d.removed;
    var rest := d.lines;
    assert rest == ls[..line] + ls[line + 1..];
    assert rest[..line + 1] == ls[..line] + [ls[line + 1]];
    assert rest[line + 1..] == ls[line + 2..];
  }

  /**
   * `[count]Yp`: the yanked lines `ls[line..line + |ys|]` go in right below
   * line `line`, and the cursor goes to the first put line.
   */
  lemma YankThenPut(ls: Lines, line: nat, count: nat)
    requires WellFormed(ls) && line < |ls| && count >= 1
    ensures var ys := Yank(ls, line, count);
      var p := PutLines(ls, line, ys, true, 1);
      && p.0 == ls[..line + 1] + ls[line..line + |ys|] + ls[line + 1..]
      && p.1 == LineHome(p.0, line + 1)
  {
    var ys := Yank(ls, line, count);
    assert Repeat(ys, 1) == ys;
    assert ys == ls[line..line + |ys|];
  }

  /** Deleting every line from the first on leaves a single empty line. */
  lemma DeleteAll(ls: Lines, count: nat)
    requires WellFormed(ls) && count >= |ls|
    ensures DeleteLines(ls, 0, count).lines == [""]
    ensures DeleteLines(ls, 0, count).cursor == Pos(0, 0)
  {
  }
}
