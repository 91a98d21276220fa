/**
 * A Normal-mode session: the buffer, the cursor, the mode and the unnamed
 * register, and the keys that act on them. Keys are read a command at a
 * time; a key sequence outside the commands of the model has no outcome
 * (None), and so does typing after a command has entered Insert mode.
 */
module Session {
  import opened Wrappers
  import opened Buffer
  import opened Keys
  import I = Increment
  import L = LineCommands
  import Q = Quotes
  import B = Brackets
  import A = Arguments
  import M = Motions
  import N = Numbers

  datatype Mode = Normal | Insert

  datatype State = State(lines: Lines, cursor: Pos, mode: Mode, register: Register)

  /** A linewise register holds at least one line, none with a line break. */
  predicate RegisterOk(r: Register) {
    r.Linewise? ==> |r.lines| >= 1 && BreakFree(r.lines)
  }

  predicate Valid(st: State) {
    WellFormed(st.lines) && ValidPos(st.lines, st.cursor) && RegisterOk(st.register)
  }

  /** The text objects of the model: quotes, brackets and arguments. */
  predicate ModelledObject(name: char) {
    Q.IsQuoteChar(name) || B.ObjectDelims(name).Some? || name == 'a'
  }

  /**
   * The text object `i<name>` / `a<name>` at the cursor as offsets of the
   * buffer's text, or None when there is none there. A quote object is
   * found on the cursor's line and stays on it; bracket and argument
   * objects are found in the whole text and may span lines. A bracket
   * object lies within the count-th pair around the cursor, an argument
   * object strictly inside the innermost pair of `(`/`[` around it.
   */
  function FindObject(ls: Lines, p: Pos, around: bool, name: char, count: nat): (r: Option<B.Range>)
    requires WellFormed(ls) && ValidPos(ls, p) && count >= 1 && ModelledObject(name)
    ensures r.Some? ==> r.value.start <= r.value.end <= |Join(ls)|
    ensures Q.IsQuoteChar(name) ==>
      && (r.None? <==> Q.QuoteObject(ls[p.line], p.col, name, around, count).None?)
      && (r.Some? ==>
        var sp := Q.QuoteObject(ls[p.line], p.col, name, around, count).value;
        && PosAt(ls, r.value.start) == Pos(p.line, sp.start) && PosAt(ls, r.value.end) == Pos(p.line, sp.end)
        && Join(ls)[r.value.start..r.value.end] == ls[p.line][sp.start..sp.end])
    ensures !Q.IsQuoteChar(name) && name != 'a' ==>
      && r == B.BracketObject(Join(ls), B.ObjectDelims(name).value, Offset(ls, p), around, count)
      && (r.Some? ==>
        var (o, c) := B.NthPair(Join(ls), B.ObjectDelims(name).value, Offset(ls, p), count).value;
        o <= Offset(ls, p) <= c && o <= r.value.start && r.value.end <= c + 1)
    ensures name == 'a' ==>
      && r == A.ArgumentObject(Join(ls), Offset(ls, p), around)
      && (r.Some? ==>
        var (o, c) := A.ArgumentPair(Join(ls), Offset(ls, p)).value;
        o <= Offset(ls, p) <= c && o < r.value.start && r.value.end <= c)
  {
    var t := Join(ls);
    if Q.IsQuoteChar(name) then
      match Q.QuoteObject(ls[p.line], p.col, name, around, count)
      case None => None
      case Some(sp) =>
        var a := Pos(p.line, sp.start);
        var b := Pos(p.line, sp.end);
        PosAtOffset(ls, a);
        PosAtOffset(ls, b);
        LineSlice(ls, p.line, sp.start, sp.end);
        Some(B.Range(Offset(ls, a), Offset(ls, b)))
    else if name == 'a' then
      var r := A.ArgumentObject(t, Offset(ls, p), around);
      if r.Some? then
        A.DelimsDistinct();
        ArgumentInside(t, Offset(ls, p), around);
        r
      else r
    else
      var d := B.ObjectDelims(name).value;
      BracketInside(t, d, Offset(ls, p), around, count);
      B.BracketObject(t, d, Offset(ls, p), around, count)
  }

  /** A bracket object lies within its pair, which is around the cursor. */
  lemma BracketInside(t: string, d: B.Delims, p: nat, around: bool, count: nat)
    requires B.Distinct(d) && p <= |t| && count >= 1
    ensures var r := B.BracketObject(t, d, p, around, count);
      r.Some? ==>
        var (o, c) := B.NthPair(t, d, p, count).value;
        o <= p <= c && o <= r.value.start && r.value.end <= c + 1
  {
  }

  /** An argument object lies strictly between the delimiters of its pair. */
  lemma ArgumentInside(t: string, p: nat, around: bool)
    requires p <= |t| && A.ArgumentObject(t, p, around).Some?
    ensures var r := A.ArgumentObject(t, p, around).value;
      var (o, c) := A.ArgumentPair(t, p).value;
      o <= p <= c && o < r.start && r.end <= c
  {
    var (o, c) := A.ArgumentPair(t, p).value;
    var s := A.SegmentAt(t, o, c, p);
    var r := A.ArgumentObject(t, p, around).value;
    if around {
      assert A.AroundRule(t, s, r);
    } else {
      assert A.TrimmedArgument(t, s.l, s.r, r);
    }
  }

  /** Offsets on one line grow with the column. */
  lemma {:induction false} OffsetSameLine(ls: Lines, line: nat, c1: nat, c2: nat)
    requires line < |ls| && c1 <= c2 <= |ls[line]|
    ensures Offset(ls, Pos(line, c1)) + (c2 - c1) == Offset(ls, Pos(line, c2))
    decreases line
  {
    if line > 0 {
      var tail := ls[1..];
      assert tail[line - 1] == ls[line];
      OffsetSameLine(tail, line - 1, c1, c2);
    }
  }

  /** The text between two columns of a line is the text between their offsets. */
  lemma LineSlice(ls: Lines, line: nat, c1: nat, c2: nat)
    requires line < |ls| && c1 <= c2 <= |ls[line]|
    ensures Offset(ls, Pos(line, c1)) <= Offset(ls, Pos(line, c2))
    ensures Join(ls)[Offset(ls, Pos(line, c1))..Offset(ls, Pos(line, c2))] == ls[line][c1..c2]
  {
    var a := Offset(ls, Pos(line, c1));
    var b := Offset(ls, Pos(line, c2));
    OffsetSameLine(ls, line, c1, c2);
    forall k | 0 <= k < c2 - c1 ensures Join(ls)[a..b][k] == ls[line][c1..c2][k] {
      OffsetSameLine(ls, line, c1, c1 + k);
    }
  }

  /** The Normal-mode cursor at an offset: on a character of its line, never past the last one. */
  function NormalCursor(ls: Lines, off: nat): (p: Pos)
    requires WellFormed(ls) && off <= |Join(ls)|
    ensures ValidPos(ls, p) && p.line == PosAt(ls, off).line
    ensures p.col == NormalCol(ls[p.line], PosAt(ls, off).col)
  {
    var q := PosAt(ls, off);
    Pos(q.line, NormalCol(ls[q.line], q.col))
  }

  /**
   * An operator over the text between offsets a and b. `d` removes it and
   * leaves the cursor where it started, on a character; `c` removes it and
   * starts Insert mode there; `y` keeps the buffer. The removed or yanked
   * text goes to the register.
   */
  function ApplyRange(st: State, op: Operator, a: nat, b: nat): (r: State)
    requires Valid(st) && a <= b <= |Join(st.lines)|
    ensures Valid(r)
    ensures r.register == Chars(Join(st.lines)[a..b])
    ensures op == YankText ==> r.lines == st.lines && r.mode == Normal
    ensures op != YankText ==> Join(r.lines) == Join(st.lines)[..a] + Join(st.lines)[b..]
    ensures op == ChangeText ==> r.mode == Insert && r.cursor == PosAt(r.lines, a)
    ensures op != ChangeText ==> r.mode == Normal && r.cursor == NormalCursor(r.lines, a)
  {
    var t := Join(st.lines);
    if op == YankText then
      State(st.lines, NormalCursor(st.lines, a), Normal, Chars(t[a..b]))
    else
      var ls := Replace(st.lines, a, b, "");
      if op == ChangeText then State(ls, PosAt(ls, a), Insert, Chars(t[a..b]))
      else State(ls, NormalCursor(ls, a), Normal, Chars(t[a..b]))
  }

  /** A command that finds nothing to work on changes nothing and leaves Normal mode on. */
  function Unchanged(st: State): (r: State)
    requires Valid(st)
    ensures Valid(r) && r.lines == st.lines && r.cursor == st.cursor && r.register == st.register
    ensures r.mode == Normal
  {
    State(st.lines, st.cursor, Normal, st.register)
  }

  /**
   * `[count]d-`: the cursor's line and count lines above it (as many as
   * there are), linewise. On the first line there is nothing above and
   * nothing happens.
   */
  function DeleteUp(st: State, count: nat): (r: State)
    requires Valid(st) && count >= 1
    ensures Valid(r)
    ensures st.cursor.line == 0 ==> r == Unchanged(st)
    ensures st.cursor.line > 0 ==>
      var top := st.cursor.line - N.Min(count, st.cursor.line);
      var d := L.DeleteLines(st.lines, top, st.cursor.line - top + 1);
      r == State(d.lines, d.cursor, Normal, Linewise(d.removed))
  {
    if st.cursor.line == 0 then Unchanged(st)
    else
      var top := st.cursor.line - N.Min(count, st.cursor.line);
      var d := L.DeleteLines(st.lines, top, st.cursor.line - top + 1);
      State(d.lines, d.cursor, Normal, Linewise(d.removed))
  }

  /** The amount a count adds, `<C-x>` subtracting it. */
  function Delta(count: nat, negative: bool): int {
    if negative then -(count as int) else count
  }

  /**
   * `[count]<C-a>` / `[count]<C-x>` in Normal mode: the number at or after
   * the cursor changes and the cursor goes to its last character; with no
   * such number nothing changes.
   */
  function AddCommand(st: State, n: nat, negative: bool): (r: State)
    requires Valid(st)
    ensures Valid(r) && r.mode == Normal && r.register == st.register
    ensures var c := N.IncrementLine(st.lines[st.cursor.line], st.cursor.col, Delta(n, negative));
      && (c.None? ==> r == Unchanged(st))
      && (c.Some? ==>
        && r.lines == st.lines[st.cursor.line := c.value.line]
        && r.cursor == Pos(st.cursor.line, c.value.cursor))
  {
    match I.IncrementAt(st.lines, st.cursor, Delta(n, negative))
    case None => Unchanged(st)
    case Some((after, q)) => State(after, q, Normal, st.register)
  }

  /**
   * Where the selection's active end is after `v`, `V` or `<C-v>` and then
   * `down` times `j`: `down` lines below the cursor, as far as there are
   * lines, in the same column.
   */
  function ActiveEnd(st: State, down: nat): (q: Pos)
    requires Valid(st)
    ensures st.cursor.line <= q.line < |st.lines| && q.col == st.cursor.col
    ensures q.line - st.cursor.line == N.Min(down, |st.lines| - 1 - st.cursor.line)
  {
    Pos(N.Min(st.cursor.line + down, |st.lines| - 1), st.cursor.col)
  }

  /**
   * `v`, `V` or `<C-v>`, then `down` times `j`, then `[count][g]<C-a>`: every
   * line is changed as the visual increment from the cursor to the active
   * end changes it, and the cursor stays on its line.
   */
  function VisualAddCommand(st: State, kind: I.VisualKind, down: nat, n: nat, negative: bool, progressive: bool): (r: State)
    requires Valid(st)
    ensures Valid(r) && r.mode == Normal && r.register == st.register
    ensures |r.lines| == |st.lines|
    ensures forall i | 0 <= i < |st.lines| ::
      I.LineChanged(st.lines, kind, st.cursor, ActiveEnd(st, down), Delta(n, negative), progressive, i, r.lines[i])
    ensures r.cursor.line == st.cursor.line
  {
    var v := I.VisualIncrement(st.lines, kind, st.cursor, ActiveEnd(st, down), Delta(n, negative), progressive);
    assert v.1.line == st.cursor.line;
    State(v.0, Pos(v.1.line, NormalCol(v.0[v.1.line], v.1.col)), Normal, st.register)
  }

  /**
   * `[count]p` / `[count]P`: a linewise register goes in below or above the
   * cursor's line; an empty register changes nothing. A characterwise put is
   * outside the model.
   */
  function PutCommand(st: State, below: bool, n: nat): (r: Option<State>)
    requires Valid(st) && n >= 1
    ensures r.Some? ==> Valid(r.value) && r.value.register == st.register && r.value.mode == Normal
    ensures r.None? <==> st.register.Chars?
    ensures st.register.Empty? ==> r == Some(Unchanged(st))
    ensures st.register.Linewise? ==>
      r == Some(State(L.PutLines(st.lines, st.cursor.line, st.register.lines, below, n).0,
                      L.PutLines(st.lines, st.cursor.line, st.register.lines, below, n).1, Normal, st.register))
  {
    match st.register
    case Empty => Some(Unchanged(st))
    case Chars(_) => None
    case Linewise(ys) =>
      var (after, q) := L.PutLines(st.lines, st.cursor.line, ys, below, n);
      Some(State(after, q, Normal, st.register))
  }

  /**
   * `[count]dd` and `[count]yy` / `[count]Y`: the lines go to the register
   * as a linewise text; `dd` removes them.
   */
  function LinesCommand(st: State, op: Operator, n: nat): (r: Option<State>)
    requires Valid(st) && n >= 1
    ensures r.Some? ==> Valid(r.value) && r.value.mode == Normal
    ensures r.None? <==> op == ChangeText
    ensures op == Delete ==>
      var d := L.DeleteLines(st.lines, st.cursor.line, n);
      r == Some(State(d.lines, d.cursor, Normal, Linewise(d.removed)))
    ensures op == YankText ==>
      r == Some(State(st.lines, st.cursor, Normal, Linewise(L.Yank(st.lines, st.cursor.line, n))))
  {
    var ls := st.lines;
    var p := st.cursor;
    match op
    case Delete =>
      var d := L.DeleteLines(ls, p.line, n);
      Some(State(d.lines, d.cursor, Normal, Linewise(d.removed)))
    case YankText =>
      var ys := L.Yank(ls, p.line, n);
      assert BreakFree(ls);
      Some(State(ls, p, Normal, Linewise(ys)))
    case ChangeText => None
  }

  /** An operator with `w`: from the cursor to where `[count]w` goes, the last word stopping at its line's end. */
  function WordCommand(st: State, op: Operator, n: nat): (r: State)
    requires Valid(st)
    ensures Valid(r)
    ensures var t := Join(st.lines);
      var a := Offset(st.lines, st.cursor);
      var e := M.WordForward(t, a, n, true);
      && a <= e && r.register == Chars(t[a..e])
      && (op != YankText ==> Join(r.lines) == t[..a] + t[e..])
      && (op == YankText ==> r.lines == st.lines)
      && (op == ChangeText <==> r.mode == Insert)
  {
    var a := Offset(st.lines, st.cursor);
    ApplyRange(st, op, a, M.WordForward(Join(st.lines), a, n, true))
  }

  /**
   * An operator with `[count]/pattern<CR>`: up to the count-th occurrence of
   * the pattern, searching on from the cursor and around the end of the
   * text; when the pattern does not occur nothing changes.
   */
  function SearchCommand(st: State, op: Operator, n: nat, pattern: string): (r: State)
    requires Valid(st)
    ensures Valid(r)
    ensures var t := Join(st.lines);
      var a := Offset(st.lines, st.cursor);
      match M.SearchForward(t, pattern, a, n)
      case None => r == Unchanged(st)
      case Some(e) =>
        var (lo, hi) := if a <= e then (a, e) else (e, a);
        && r.register == Chars(t[lo..hi])
        && (op != YankText ==> Join(r.lines) == t[..lo] + t[hi..])
        && (op == YankText ==> r.lines == st.lines)
        && (op == ChangeText <==> r.mode == Insert)
  {
    var a := Offset(st.lines, st.cursor);
    match M.SearchForward(Join(st.lines), pattern, a, n)
    case None => Unchanged(st)
    case Some(e) => if a <= e then ApplyRange(st, op, a, e) else ApplyRange(st, op, e, a)
  }

  /**
   * An operator with a text object: on the object's range, or, when there is
   * no such object at the cursor, nothing changes and the mode is Normal.
   */
  function ObjectCommand(st: State, op: Operator, n: nat, around: bool, name: char): (r: State)
    requires Valid(st) && n >= 1 && ModelledObject(name)
    ensures Valid(r)
    ensures FindObject(st.lines, st.cursor, around, name, n).None? ==> r == Unchanged(st)
    ensures FindObject(st.lines, st.cursor, around, name, n).Some? ==>
      var rg := FindObject(st.lines, st.cursor, around, name, n).value;
      r == ApplyRange(st, op, rg.start, rg.end)
  {
    match FindObject(st.lines, st.cursor, around, name, n)
    case None => Unchanged(st)
    case Some(rg) => ApplyRange(st, op, rg.start, rg.end)
  }

  /** An operator and what it applies to. */
  function OperateCommand(st: State, op: Operator, n: nat, target: Target): (r: Option<State>)
    requires Valid(st) && n >= 1
    ensures r.Some? ==> Valid(r.value)
  {
    if target.Object? then
      if ModelledObject(target.name) then Some(ObjectCommand(st, op, n, target.around, target.name)) else None
    else MotionCommand(st, op, n, target)
  }

  /** An operator over lines or over the text up to where a motion goes. */
  function MotionCommand(st: State, op: Operator, n: nat, target: Target): (r: Option<State>)
    requires Valid(st) && n >= 1 && !target.Object?
    ensures r.Some? ==> Valid(r.value)
  {
    match target
    case WholeLines => LinesCommand(st, op, n)
    case LinesUp => if op == Delete then Some(DeleteUp(st, n)) else None
    case Word => Some(WordCommand(st, op, n))
    case Search(pattern) => Some(SearchCommand(st, op, n, pattern))
  }

  /**
   * One command on a state. None when the command is outside the model: a
   * put from a characterwise register, `cc`, `c-` or `y-`, a text object
   * the model does not know.
   */
  function Execute(st: State, cmd: Command): (r: Option<State>)
    requires Valid(st) && Counted(cmd)
    ensures r.Some? ==> Valid(r.value)
  {
    match cmd
    case Add(n, negative) => Some(AddCommand(st, n, negative))
    case VisualAdd(kind, down, n, negative, progressive) =>
      Some(VisualAddCommand(st, kind, down, n, negative, progressive))
    case Put(below, n) => PutCommand(st, below, n)
    case Operate(op, n, target) => OperateCommand(st, op, n, target)
  }

  /**
   * The state after the keys, command by command. Keys left over after a
   * command entered Insert mode would be typed text, which the model does
   * not cover.
   */
  function Run(st: State, keys: string): (r: Option<State>)
    requires Valid(st)
    ensures r.Some? ==> Valid(r.value)
    decreases |keys|
  {
    if |keys| == 0 then Some(st)
    else if st.mode == Insert then None
    else
      match ParseCommand(keys)
      case None => None
      case Some((cmd, rest)) =>
        match Execute(st, cmd)
        case None => None
        case Some(next) => Run(next, rest)
  }
}
