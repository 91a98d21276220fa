/**
 * `<C-a>` / `<C-x>` on the buffer: in Normal mode on the cursor's line, in
 * the three Visual modes on every selected line, restricted to the columns
 * the selection covers on that line. `g<C-a>` makes the amount grow from
 * line to line.
 */
module Increment {
  import opened Wrappers
  import opened Buffer
  import opened Numbers

  /**
   * Normal-mode `[count]<C-a>` (delta = count) or `[count]<C-x>`
   * (delta = -count). None when the cursor's line holds no number ending
   * after the cursor: then nothing changes.
   */
  function IncrementAt(ls: Lines, p: Pos, delta: int): (r: Option<(Lines, Pos)>)
    requires WellFormed(ls) && p.line < |ls|
    ensures r.None? <==> forall k | 0 <= k < |Literals(ls[p.line])| :: Literals(ls[p.line])[k].end <= p.col
    ensures r.Some? ==>
      var (after, q) := r.value;
      && WellFormed(after) && |after| == |ls|
      && (forall i | 0 <= i < |ls| && i != p.line :: after[i] == ls[i])
      && q.line == p.line && q.col < |after[p.line]|
      && var c := IncrementLine(ls[p.line], p.col, delta).value;
      && after[p.line] == c.line && q.col == c.cursor
  {
    match IncrementLine(ls[p.line], p.col, delta)
    case None => None
    case Some(c) =>
      var after := ls[p.line := c.line];
      var l := Literals(ls[p.line])[c.index];
      SpliceNoNewline(ls[p.line], l.start, l.end, c.text);
      Some((after, Pos(p.line, c.cursor)))
  }

  datatype VisualKind = Visual | VisualLine | VisualBlock

  /** A selection is given by where it was started (anchor) and where the cursor is (active). */
  predicate Before(a: Pos, b: Pos) {
    a.line < b.line || (a.line == b.line && a.col <= b.col)
  }

  /**
   * The columns [a, b) of line i that the selection covers, cut to the
   * line's length. Characterwise: from the start column on the first line,
   * through the end column on the last, whole lines between. Linewise: the
   * whole line. Blockwise: the block's columns, inclusive at both sides.
   */
  function Window(kind: VisualKind, anchor: Pos, active: Pos, i: nat, len: nat): (w: (nat, nat))
    ensures w.0 <= w.1 <= len
    ensures kind == VisualLine ==> w == (0, len)
    ensures kind == VisualBlock ==>
      var left := Min(anchor.col, active.col);
      var right := Max(anchor.col, active.col) + 1;
      w == (Min(left, len), Min(right, len))
  {
    match kind
    case VisualLine => (0, len)
    case VisualBlock =>
      (Min(Min(anchor.col, active.col), len), Min(Max(anchor.col, active.col) + 1, len))
    case Visual =>
      var (s, e) := if Before(anchor, active) then (anchor, active) else (active, anchor);
      var a := if i == s.line then Min(s.col, len) else 0;
      var b := if i == e.line then Min(e.col + 1, len) else len;
      if a <= b then (a, b) else (a, a)
  }

  /**
   * r is s with the window s[a..b] changed as `<C-a>` changes a line whose
   * cursor is at its start, and the characters before and after the window
   * kept.
   */
  predicate WindowChanged(s: string, a: nat, b: nat, delta: int, r: string)
    requires a <= b <= |s|
  {
    r == s[..a] + Changed(s[a..b], delta) + s[b..]
  }

  /** A piece of text after `<C-a>` with the cursor at its start: unchanged when it holds no number. */
  function Changed(w: string, delta: int): string {
    match IncrementLine(w, 0, delta)
    case None => w
    case Some(c) => c.line
  }

  /** Increment the first number of s[a..b]. */
  function IncrementWindow(s: string, a: nat, b: nat, delta: int): (r: string)
    requires a <= b <= |s|
    ensures WindowChanged(s, a, b, delta, r)
    ensures IncrementLine(s[a..b], 0, delta).None? ==> r == s
    ensures NoNewline(s) ==> NoNewline(r)
  {
    match IncrementLine(s[a..b], 0, delta)
    case None =>
      assert s[..a] + s[a..b] + s[b..] == s;
      s
    case Some(c) =>
      SpliceWindow(s, a, b, c.line);
      ChangeNoNewline(s[a..b], delta);
      s[..a] + c.line + s[b..]
  }

  /** Text spliced in between s[..a] and s[b..] leaves both of them in place. */
  lemma SpliceWindow(s: string, a: nat, b: nat, mid: string)
    requires a <= b <= |s|
    ensures var r := s[..a] + mid + s[b..];
      && a <= |r| - (|s| - b) && r[..a] == s[..a]
      && r[|r| - (|s| - b)..] == s[b..] && r[a..|r| - (|s| - b)] == mid
      && (NoNewline(s) ==> NoNewline(s[a..b]))
      && (NoNewline(s) && NoNewline(mid) ==> NoNewline(r))
  {
    var r := s[..a] + mid + s[b..];
    assert r[..a] == s[..a];
    assert r[|r| - (|s| - b)..] == s[b..];
    assert r[a..|r| - (|s| - b)] == mid;
    if NoNewline(s) {
      assert forall k | 0 <= k < b - a :: s[a..b][k] == s[a + k];
      if NoNewline(mid) {
        SpliceNoNewline(s, a, b, mid);
      }
    }
  }

  /** A changed number leaves a line without line breaks without them. */
  lemma ChangeNoNewline(w: string, delta: int)
    requires IncrementLine(w, 0, delta).Some?
    ensures NoNewline(w) ==> NoNewline(IncrementLine(w, 0, delta).value.line)
  {
    if NoNewline(w) {
      var c := IncrementLine(w, 0, delta).value;
      var l := Literals(w)[c.index];
      SpliceNoNewline(w, l.start, l.end, c.text);
    }
  }

  /**
   * Visual `[count]<C-a>` / `[count]g<C-a>` (and their `<C-x>` forms) over
   * the lines between anchor and active: on each selected line the first
   * number within the columns the selection covers changes, by delta, or,
   * for `g<C-a>`, by k * delta on the k-th selected line. The cursor is left
   * at the start of the selection: its first character, column 0 of its
   * first line when linewise, its upper-left corner when blockwise.
   */
  function VisualIncrement(ls: Lines, kind: VisualKind, anchor: Pos, active: Pos, delta: int, progressive: bool): (r: (Lines, Pos))
    requires WellFormed(ls) && anchor.line < |ls| && active.line < |ls|
    ensures WellFormed(r.0) && |r.0| == |ls|
    ensures forall i | 0 <= i < |ls| :: LineChanged(ls, kind, anchor, active, delta, progressive, i, r.0[i])
    ensures kind == Visual ==> (r.1 == anchor || r.1 == active) && Before(r.1, anchor) && Before(r.1, active)
    ensures kind == VisualLine ==> r.1 == Pos(Min(anchor.line, active.line), 0)
    ensures kind == VisualBlock ==> r.1 == Pos(Min(anchor.line, active.line), Min(anchor.col, active.col))
  {
    var after := seq(|ls|, i requires 0 <= i < |ls| => SelectedLine(ls, kind, anchor, active, delta, progressive, i));
    forall i | 0 <= i < |after| ensures NoNewline(after[i]) && after[i] == SelectedLine(ls, kind, anchor, active, delta, progressive, i) {
      assert NoNewline(ls[i]);
    }
    var cursor := match kind
      case Visual => if Before(anchor, active) then anchor else active
      case VisualLine => Pos(Min(anchor.line, active.line), 0)
      case VisualBlock => Pos(Min(anchor.line, active.line), Min(anchor.col, active.col));
    (after, cursor)
  }

  /**
   * The amount for the k-th selected line, counting from 1: `g<C-a>`
   * multiplies delta by k.
   */
  function Amount(delta: int, k: nat, progressive: bool): int {
    if progressive then Times(delta, k) else delta
  }

  /** k times delta, as repeated addition. */
  function Times(delta: int, k: nat): int {
    if k == 0 then 0 else Times(delta, k - 1) + delta
  }

  /** Repeated addition is multiplication: under `g<C-a>` the k-th selected line changes by k * delta. */
  lemma {:induction false} TimesIsProduct(delta: int, k: nat)
    ensures Times(delta, k) == k * delta
    ensures Amount(delta, k, true) == k * delta
  {
    if k > 0 {
      TimesIsProduct(delta, k - 1);
    }
  }

  /**
   * Line i after a visual increment is `line`: a line outside the selection
   * is kept; the k-th selected line has the number in the columns the
   * selection covers changed by delta, or by k * delta for `g<C-a>`.
   */
  predicate LineChanged(ls: Lines, kind: VisualKind, anchor: Pos, active: Pos, delta: int, progressive: bool, i: nat, line: string)
    requires i < |ls|
  {
    if Selected(anchor, active, i) then
      WindowChanged(ls[i], Window(kind, anchor, active, i, |ls[i]|).0, Window(kind, anchor, active, i, |ls[i]|).1,
        LineAmount(anchor, active, delta, progressive, i), line)
    else
      line == ls[i]
  }

  /** Line i lies between the anchor's line and the active end's line. */
  predicate Selected(anchor: Pos, active: Pos, i: nat) {
    Min(anchor.line, active.line) <= i <= Max(anchor.line, active.line)
  }

  /** The amount selected line i changes by: it is the k-th selected line, counting from 1. */
  function LineAmount(anchor: Pos, active: Pos, delta: int, progressive: bool, i: nat): int
    requires Selected(anchor, active, i)
  {
    Amount(delta, i - Min(anchor.line, active.line) + 1, progressive)
  }

  /** Line i after a visual increment: changed inside its window when selected. */
  function SelectedLine(ls: Lines, kind: VisualKind, anchor: Pos, active: Pos, delta: int, progressive: bool, i: nat): (r: string)
    requires i < |ls|
    ensures NoNewline(ls[i]) ==> NoNewline(r)
    ensures LineChanged(ls, kind, anchor, active, delta, progressive, i, r)
  {
    if Selected(anchor, active, i) then
      IncrementWindow(ls[i], Window(kind, anchor, active, i, |ls[i]|).0, Window(kind, anchor, active, i, |ls[i]|).1,
        LineAmount(anchor, active, delta, progressive, i))
    else
      ls[i]
  }

  /**
   * A blockwise increment touches nothing outside the block: on every line,
   * the characters left of the block and those right of it are kept.
   */
  lemma BlockKeepsOutside(ls: Lines, anchor: Pos, active: Pos, delta: int, progressive: bool, i: nat)
    requires WellFormed(ls) && anchor.line < |ls| && active.line < |ls| && i < |ls|
    ensures var after := VisualIncrement(ls, VisualBlock, anchor, active, delta, progressive).0;
      var left := Min(Min(anchor.col, active.col), |ls[i]|);
      var right := Min(Max(anchor.col, active.col) + 1, |ls[i]|);
      && after[i][..left] == ls[i][..left]
      && |after[i]| >= |ls[i]| - right
      && after[i][|after[i]| - (|ls[i]| - right)..] == ls[i][right..]
  {
    var after := VisualIncrement(ls, VisualBlock, anchor, active, delta, progressive).0;
    var w := Window(VisualBlock, anchor, active, i, |ls[i]|);
    assert LineChanged(ls, VisualBlock, anchor, active, delta, progressive, i, after[i]);
    if Selected(anchor, active, i) {
      KeepsOutside(ls[i], w.0, w.1, LineAmount(anchor, active, delta, progressive, i), after[i]);
    } else {
      KeepsOutside(ls[i], w.0, w.1, 0, after[i]);
    }
  }

  /** A changed window keeps what lies left and right of it. */
  lemma KeepsOutside(s: string, a: nat, b: nat, delta: int, r: string)
    requires a <= b <= |s|
    requires WindowChanged(s, a, b, delta, r) || r == s
    ensures |r| >= |s| - b && r[..a] == s[..a] && r[|r| - (|s| - b)..] == s[b..]
  {
    if r != s {
      SpliceWindow(s, a, b, Changed(s[a..b], delta));
    }
  }

  /** A line whose covered columns hold no number is left as it is. */
  lemma NoNumberNoChange(ls: Lines, kind: VisualKind, anchor: Pos, active: Pos, delta: int, progressive: bool, i: nat)
    requires WellFormed(ls) && anchor.line < |ls| && active.line < |ls| && i < |ls|
    requires var (a, b) := Window(kind, anchor, active, i, |ls[i]|);
      Literals(ls[i][a..b]) == []
    ensures VisualIncrement(ls, kind, anchor, active, delta, progressive).0[i] == ls[i]
  {
  }

  /** A window that is the whole line changes the whole line. */
  lemma WholeWindow(s: string, delta: int, r: string)
    requires WindowChanged(s, 0, |s|, delta, r)
    ensures r == Changed(s, delta)
  {
    assert s[0..|s|] == s;
    assert r[0..|r| - 0] == r;
  }

  /** `after` is the buffer Normal-mode `<C-a>` leaves with the cursor at the start of line i. */
  predicate AsNormal(ls: Lines, i: nat, delta: int, after: Lines)
    requires WellFormed(ls) && i < |ls|
  {
    match IncrementAt(ls, Pos(i, 0), delta)
    case None => after == ls
    case Some(r) => after == r.0
  }

  /**
   * Linewise Visual on a single line is Normal-mode `<C-a>` with the cursor
   * at the line's start.
   */
  lemma LinewiseIsNormal(ls: Lines, i: nat, delta: int)
    requires WellFormed(ls) && i < |ls|
    ensures AsNormal(ls, i, delta, VisualIncrement(ls, VisualLine, Pos(i, 0), Pos(i, 0), delta, false).0)
  {
    var after := VisualIncrement(ls, VisualLine, Pos(i, 0), Pos(i, 0), delta, false).0;
    var line := Changed(ls[i], delta);
    forall j | 0 <= j < |ls| ensures after[j] == if j == i then line else ls[j] {
      assert LineChanged(ls, VisualLine, Pos(i, 0), Pos(i, 0), delta, false, j, after[j]);
      if j == i {
        WholeWindow(ls[i], delta, after[i]);
      }
    }
    Agrees(ls, i, delta, after, line);
  }

  /** A buffer that differs from ls only by line i, changed as `<C-a>` changes it, is what Normal mode leaves. */
  lemma Agrees(ls: Lines, i: nat, delta: int, after: Lines, line: string)
    requires WellFormed(ls) && i < |ls|
    requires line == Changed(ls[i], delta)
    requires |after| == |ls| && forall j | 0 <= j < |ls| :: after[j] == if j == i then line else ls[j]
    ensures AsNormal(ls, i, delta, after)
  {
    match IncrementAt(ls, Pos(i, 0), delta)
    case None =>
      assert after == ls;
    case Some(r) =>
      assert after == r.0;
  }
}
