/**
 * Support for writing the repository's Normal-mode test cases as lemmas: a
 * starting state, the expected end, and one step lemma per kind of
 * command. Each step lemma says what `Run` does with the first command of
 * the keys once the facts about that command on the concrete buffer are
 * known, so a test case only has to supply those facts.
 */
module Scenario {
  import opened Wrappers
  import opened Buffer
  import opened Numbers
  import opened Keys
  import opened Session
  import B = Brackets
  import Q = Quotes
  import L = LineCommands
  import A = Arguments
  import M = Motions

  /** A test case's start: the buffer, the cursor, Normal mode and an empty register. */
  function Start(ls: Lines, line: nat, col: nat): State {
    State(ls, Pos(line, col), Normal, Empty)
  }

  /** A test case's expected end: the buffer, the cursor and the mode. */
  predicate Ends(r: Option<State>, ls: Lines, line: nat, col: nat, mode: Mode) {
    r.Some? && r.value.lines == ls && r.value.cursor == Pos(line, col) && r.value.mode == mode
  }

  /**
   * A test case: from the state st the keys leave the buffer `after` with
   * the cursor at (line, col) in the given mode.
   */
  predicate Case(st: State, keys: string, after: Lines, line: nat, col: nat, mode: Mode) {
    Valid(st) && Ends(Run(st, keys), after, line, col, mode)
  }

  /** No line break in the lines from j on, checked one line at a time. */
  predicate LinesBreakFree(ls: Lines, j: nat)
    decreases |ls| - j
  {
    j >= |ls| || ('\n' !in ls[j] && LinesBreakFree(ls, j + 1))
  }

  lemma {:induction false} BreakFreeLines(ls: Lines, j: nat)
    requires LinesBreakFree(ls, j)
    ensures forall k | j <= k < |ls| :: NoNewline(ls[k])
    decreases |ls| - j
  {
    if j < |ls| {
      BreakFreeLines(ls, j + 1);
    }
  }

  /** Lines written out in a test case form a buffer. */
  lemma BufferOk(ls: Lines)
    requires |ls| >= 1 && LinesBreakFree(ls, 0)
    ensures WellFormed(ls)
  {
    BreakFreeLines(ls, 0);
  }

  /** A test case's start is a valid state. */
  lemma StartValid(ls: Lines, line: nat, col: nat)
    requires |ls| >= 1 && LinesBreakFree(ls, 0) && line < |ls| && col <= |ls[line]|
    ensures Valid(Start(ls, line, col))
  {
    BreakFreeLines(ls, 0);
  }

  /** One command of the keys, then the rest. */
  lemma RunStep(st: State, keys: string, cmd: Command, rest: string, next: State)
    requires Valid(st) && st.mode == Normal && |keys| > 0
    requires ParseCommand(keys) == Some((cmd, rest)) && Counted(cmd)
    requires Execute(st, cmd) == Some(next)
    ensures Run(st, keys) == Run(next, rest)
  {
  }

  /**
   * `[count]<C-a>` / `[count]<C-x>` as the first command of the keys: the
   * number found on the cursor's line changes, and the rest of the keys go
   * on from there.
   */
  lemma AddCase(st: State, ls: Lines, line: nat, col: nat, keys: string, n: nat, negative: bool, rest: string,
                c: Change, next: State)
    requires st == Start(ls, line, col)
    requires |ls| >= 1 && LinesBreakFree(ls, 0) && line < |ls| && col <= |ls[line]| && n >= 1 && |keys| > 0
    requires ParseCommand(keys) == Some((Add(n, negative), rest))
    requires IncrementLine(ls[line], col, Delta(n, negative)) == Some(c)
    requires next == Start(ls[line := c.line], line, c.cursor)
    ensures Valid(st) && Valid(next) && Run(st, keys) == Run(next, rest)
  {
    StartValid(ls, line, col);
    assert AddCommand(st, n, negative) == next;
    RunStep(st, keys, Add(n, negative), rest, next);
  }

  /**
   * The change `<C-a>` makes on line s, worked out from the literals the
   * scan finds on it and the text the chosen one renders to.
   */
  lemma IncrementFound(s: string, col: nat, delta: int, lits: seq<Literal>, k: nat, text: string, line: string, cursor: nat)
    requires Literals(s) == lits && k < |lits| && FirstEndingAfter(lits, col, 0) == k
    requires Render(s, lits[k], delta) == text
    requires line == s[..lits[k].start] + text + s[lits[k].end..] && cursor == lits[k].start + |text| - 1
    ensures IncrementLine(s, col, delta) == Some(Change(k, text, line, cursor))
  {
    IncrementLineAt(s, col, delta, k);
  }

  /** The text a decimal literal of value v renders to after adding delta. */
  lemma RenderDecimal(s: string, l: Literal, delta: int, v: int, ds: string, text: string)
    requires IsLiteral(s, l) && l.radix == Decimal && Value(s, l) == v
    requires ToDigits(Abs(v + delta), 10, false) == ds
    requires text == (if v + delta < 0 then "-" else "") + ds
    ensures Render(s, l, delta) == text
  {
    RenderedAs(Decimal, v + delta, "", HexUpper(s, l.digitStart, l.end), l.end - l.digitStart);
  }

  /** The text an octal literal of value v renders to after adding delta: padded to its old width. */
  lemma RenderOctal(s: string, l: Literal, delta: int, v: int, body: string, text: string)
    requires IsLiteral(s, l) && l.radix == Octal && Value(s, l) == v
    requires ToDigits(Numbers.Target(Octal, v, delta), 8, false) == body
    requires var w := l.end - l.digitStart;
      text == Zeros(if |body| + 1 > w then 1 else w - |body|) + body
    ensures Render(s, l, delta) == text
  {
    RenderedAs(Octal, Numbers.Target(Octal, v, delta), "", HexUpper(s, l.digitStart, l.end), l.end - l.digitStart);
  }

  /** The text a hex literal of value v renders to after adding delta: its prefix, then digits padded to the old width. */
  lemma RenderHex(s: string, l: Literal, delta: int, v: int, upper: bool, ds: string, text: string)
    requires IsLiteral(s, l) && l.radix == Hex && Value(s, l) == v && HexUpper(s, l.digitStart, l.end) == upper
    requires ToDigits(Numbers.Target(Hex, v, delta), 16, upper) == ds
    requires text == [s[l.start], s[l.start + 1]] + Pad(ds, l.end - l.digitStart)
    ensures Render(s, l, delta) == text
  {
    RenderHexText(s, l, delta);
    HexTextIs(s, l, Numbers.Target(Hex, v, delta), upper, ds, text);
  }

  lemma HexTextIs(s: string, l: Literal, t: nat, upper: bool, ds: string, text: string)
    requires IsLiteral(s, l) && l.radix == Hex
    requires ToDigits(t, 16, upper) == ds
    requires text == [s[l.start], s[l.start + 1]] + Pad(ds, l.end - l.digitStart)
    ensures HexText(t, Prefix(s, l), upper, l.end - l.digitStart) == text
  {
  }

  /** Rendering picks the text function of the radix. */
  lemma RenderedAs(r: Radix, v: int, prefix: string, upper: bool, width: nat)
    requires r != Decimal ==> v >= 0
    requires r == Hex ==> prefix == "0x" || prefix == "0X"
    ensures Rendered(r, v, prefix, upper, width) ==
      match r
      case Decimal => DecimalText(v)
      case Octal => OctalText(v, width)
      case Hex => HexText(v, prefix, upper, width)
  {
  }

  /** `[count]<C-a>` / `[count]<C-x>` as the whole of the keys: the cursor's line becomes the changed line. */
  lemma AddLastCase(st: State, ls: Lines, line: nat, col: nat, keys: string, n: nat, negative: bool,
                    c: Change, after: Lines, acol: nat)
    requires st == Start(ls, line, col)
    requires |ls| >= 1 && LinesBreakFree(ls, 0) && line < |ls| && col <= |ls[line]| && n >= 1 && |keys| > 0
    requires ParseCommand(keys) == Some((Add(n, negative), ""))
    requires IncrementLine(ls[line], col, Delta(n, negative)) == Some(c)
    requires after == ls[line := c.line] && acol == c.cursor
    ensures Case(st, keys, after, line, acol, Normal)
  {
    AddCase(st, ls, line, col, keys, n, negative, "", c, Start(after, line, acol));
  }

  /** Replacing the only line of a one-line buffer. */
  lemma OneLineUpdate(s: string, t: string)
    ensures [s][0 := t] == [t]
  {
  }

  /** `[count]<C-a>` / `[count]<C-x>` with no number at or after the cursor changes nothing. */
  lemma AddNothingCase(st: State, ls: Lines, line: nat, col: nat, keys: string, n: nat, negative: bool)
    requires st == Start(ls, line, col)
    requires |ls| >= 1 && LinesBreakFree(ls, 0) && line < |ls| && col <= |ls[line]| && n >= 1 && |keys| > 0
    requires ParseCommand(keys) == Some((Add(n, negative), ""))
    requires IncrementLine(ls[line], col, Delta(n, negative)).None?
    ensures Case(st, keys, ls, line, col, Normal)
  {
    StartValid(ls, line, col);
    assert AddCommand(st, n, negative) == st;
    RunStep(st, keys, Add(n, negative), "", st);
  }

  /** Once the keys are used up, the state reached is the end. */
  lemma Finish(st: State, keys: string, next: State)
    requires Valid(st) && Valid(next) && Run(st, keys) == Run(next, "")
    ensures Case(st, keys, next.lines, next.cursor.line, next.cursor.col, next.mode)
  {
  }

  /**
   * `[count]dd` as the first command of the keys: the lines the count
   * covers go, into the register, and the rest of the keys go on from there.
   */
  lemma DeleteStep(st: State, keys: string, n: nat, rest: string, d: L.Deleted)
    requires Valid(st) && st.mode == Normal && |keys| > 0 && n >= 1
    requires ParseCommand(keys) == Some((Operate(Delete, n, WholeLines), rest))
    requires L.DeleteLines(st.lines, st.cursor.line, n) == d
    ensures Valid(State(d.lines, d.cursor, Normal, Linewise(d.removed)))
    ensures Run(st, keys) == Run(State(d.lines, d.cursor, Normal, Linewise(d.removed)), rest)
  {
    RunStep(st, keys, Operate(Delete, n, WholeLines), rest, State(d.lines, d.cursor, Normal, Linewise(d.removed)));
  }

  /** `[count]Y` as the first command of the keys: the lines go to the register and nothing else changes. */
  lemma YankStep(st: State, keys: string, n: nat, rest: string, ys: seq<string>)
    requires Valid(st) && st.mode == Normal && |keys| > 0 && n >= 1
    requires ParseCommand(keys) == Some((Operate(YankText, n, WholeLines), rest))
    requires L.Yank(st.lines, st.cursor.line, n) == ys
    ensures Valid(State(st.lines, st.cursor, Normal, Linewise(ys)))
    ensures Run(st, keys) == Run(State(st.lines, st.cursor, Normal, Linewise(ys)), rest)
  {
    RunStep(st, keys, Operate(YankText, n, WholeLines), rest, State(st.lines, st.cursor, Normal, Linewise(ys)));
  }

  /** `[count]p` / `[count]P` from a linewise register as the first command of the keys. */
  lemma PutStep(st: State, keys: string, below: bool, n: nat, rest: string, after: Lines, q: Pos)
    requires Valid(st) && st.mode == Normal && |keys| > 0 && n >= 1 && st.register.Linewise?
    requires ParseCommand(keys) == Some((Put(below, n), rest))
    requires L.PutLines(st.lines, st.cursor.line, st.register.lines, below, n) == (after, q)
    ensures Valid(State(after, q, Normal, st.register))
    ensures Run(st, keys) == Run(State(after, q, Normal, st.register), rest)
  {
    RunStep(st, keys, Put(below, n), rest, State(after, q, Normal, st.register));
  }

  /**
   * `d[count]-` as the first command of the keys: the cursor's line and the
   * lines above it from `top` on go, into the register.
   */
  lemma DeleteUpStep(st: State, keys: string, n: nat, rest: string, top: nat, d: L.Deleted)
    requires Valid(st) && st.mode == Normal && |keys| > 0 && n >= 1 && st.cursor.line > 0
    requires ParseCommand(keys) == Some((Operate(Delete, n, LinesUp), rest))
    requires top == st.cursor.line - Min(n, st.cursor.line)
    requires L.DeleteLines(st.lines, top, st.cursor.line - top + 1) == d
    ensures Valid(State(d.lines, d.cursor, Normal, Linewise(d.removed)))
    ensures Run(st, keys) == Run(State(d.lines, d.cursor, Normal, Linewise(d.removed)), rest)
  {
    OperateDispatch(st, Delete, n, LinesUp);
    assert DeleteUp(st, n) == State(d.lines, d.cursor, Normal, Linewise(d.removed));
    RunStep(st, keys, Operate(Delete, n, LinesUp), rest, State(d.lines, d.cursor, Normal, Linewise(d.removed)));
  }

  /**
   * `c` or `d` with `[count]/pattern<CR>` as the whole of the keys, on a
   * buffer of one line: the text from the cursor up to the occurrence the
   * search reaches goes.
   */
  lemma SearchCase(st: State, s: string, col: nat, keys: string, op: Operator, n: nat, pattern: string,
                   e: nat, s2: string, acol: nat)
    requires st == Start([s], 0, col)
    requires '\n' !in s && col <= |s| && n >= 1 && op != YankText && |keys| > 0
    requires ParseCommand(keys) == Some((Operate(op, n, Search(pattern)), ""))
    requires M.SearchForward(s, pattern, col, n) == Some(e) && col <= e <= |s|
    requires s2 == s[..col] + s[e..]
    requires acol == if op == ChangeText then col else NormalCol(s2, col)
    ensures Case(st, keys, [s2], 0, acol, if op == ChangeText then Insert else Normal)
  {
    StartValid([s], 0, col);
    assert Join([s]) == s && Join([s2]) == s2;
    OneLine(s, col);
    SliceBreakFree(s, col, e);
    OneLine(s2, col);
    assert SearchCommand(st, op, n, pattern) == ApplyRange(st, op, col, e);
    OperateDispatch(st, op, n, Search(pattern));
    RemoveResult(st, op, col, e, [s2], 0, col);
    RunStep(st, keys, Operate(op, n, Search(pattern)), "", ApplyRange(st, op, col, e));
  }

  /** `p` once from a linewise register: the lines go in below the cursor's line. */
  lemma PutBelowOnce(ls: Lines, line: nat, ys: seq<string>, after: Lines, q: Pos)
    requires WellFormed(ls) && line < |ls| && WellFormed(ys)
    requires after == ls[..line + 1] + ys + ls[line + 1..]
    requires q == Pos(line + 1, NormalCol(ys[0], FirstNonBlank(ys[0])))
    ensures L.PutLines(ls, line, ys, true, 1) == (after, q)
  {
    L.PutShape(ls, line, ys, true, 1);
  }

  /** One step of `[count]/pattern`: the search goes on from the next occurrence. */
  lemma SearchStep(t: string, pat: string, p: nat, i: nat, n: nat)
    requires p <= |t| && n >= 1 && M.NextAfter(t, pat, p, i)
    ensures i <= |t| && M.SearchForward(t, pat, p, n) == M.SearchForward(t, pat, i, n - 1)
  {
    M.NextMatchFinds(t, pat, p, i);
  }

  /**
   * i is the next occurrence after p when the pattern is spelled out at i
   * and no character in between starts the pattern.
   */
  lemma NextOccurrence(t: string, pat: string, p: nat, i: nat)
    requires p < i && i + |pat| <= |t| && |pat| >= 1
    requires forall k | 0 <= k < |pat| :: t[i + k] == pat[k]
    requires forall j | p < j < i :: t[j] != pat[0]
    ensures M.NextAfter(t, pat, p, i)
  {
    assert t[i..i + |pat|] == pat;
    forall j | p < j < i
      ensures !M.MatchAt(t, pat, j)
    {
      assert t[j] != pat[0];
    }
  }

  /** A bracket or argument object at offset q of the text t. */
  function TextObject(t: string, q: nat, around: bool, name: char, n: nat): Option<B.Range>
    requires q <= |t| && n >= 1 && ModelledObject(name) && !Q.IsQuoteChar(name)
  {
    if name == 'a' then A.ArgumentObject(t, q, around)
    else B.BracketObject(t, B.ObjectDelims(name).value, q, around, n)
  }

  /**
   * The text object at p, found the way `FindObject` finds it, but needing
   * only positions that exist, so that it can be worked out on a buffer
   * written out in full.
   */
  function Lookup(ls: Lines, p: Pos, around: bool, name: char, n: nat): Option<B.Range>
    requires |ls| >= 1 && ValidPos(ls, p) && n >= 1 && ModelledObject(name)
  {
    if Q.IsQuoteChar(name) then
      match Q.QuoteObject(ls[p.line], p.col, name, around, n)
      case None => None
      case Some(sp) => Some(B.Range(Offset(ls, Pos(p.line, sp.start)), Offset(ls, Pos(p.line, sp.end))))
    else TextObject(Join(ls), Offset(ls, p), around, name, n)
  }

  lemma LookupFinds(ls: Lines, p: Pos, around: bool, name: char, n: nat)
    requires WellFormed(ls) && ValidPos(ls, p) && n >= 1 && ModelledObject(name)
    ensures FindObject(ls, p, around, name, n) == Lookup(ls, p, around, name, n)
  {
  }

  lemma ObjectFound(st: State, op: Operator, n: nat, around: bool, name: char, a: nat, b: nat)
    requires Valid(st) && n >= 1 && ModelledObject(name)
    requires FindObject(st.lines, st.cursor, around, name, n) == Some(B.Range(a, b))
    ensures ObjectCommand(st, op, n, around, name) == ApplyRange(st, op, a, b)
  {
  }

  lemma ObjectDispatch(st: State, op: Operator, n: nat, around: bool, name: char)
    requires Valid(st) && n >= 1 && ModelledObject(name)
    ensures Execute(st, Operate(op, n, Object(around, name))) == Some(ObjectCommand(st, op, n, around, name))
  {
    OperateDispatch(st, op, n, Object(around, name));
    ObjectTarget(st, op, n, around, name);
  }

  lemma OperateDispatch(st: State, op: Operator, n: nat, target: Target)
    requires Valid(st) && n >= 1
    ensures Execute(st, Operate(op, n, target)) == OperateCommand(st, op, n, target)
  {
  }

  lemma ObjectTarget(st: State, op: Operator, n: nat, around: bool, name: char)
    requires Valid(st) && n >= 1 && ModelledObject(name)
    ensures OperateCommand(st, op, n, Object(around, name)) == Some(ObjectCommand(st, op, n, around, name))
  {
  }

  /** Removing the text between offsets a and b leaves `after`, with the cursor at offset a. */
  lemma RemoveResult(st: State, op: Operator, a: nat, b: nat, after: Lines, line: nat, col: nat)
    requires Valid(st) && a <= b <= |Join(st.lines)| && op != YankText
    requires WellFormed(after) && Join(after) == Join(st.lines)[..a] + Join(st.lines)[b..]
    requires ValidPos(after, Pos(line, col)) && Offset(after, Pos(line, col)) == a
    ensures var r := ApplyRange(st, op, a, b);
      && r.lines == after && r.cursor.line == line
      && r.cursor.col == (if op == ChangeText then col else NormalCol(after[line], col))
      && r.mode == (if op == ChangeText then Insert else Normal)
  {
    SplitJoin(after);
    PosAtOffset(after, Pos(line, col));
  }

  /**
   * `c` or `d` with a text object that is there, as the whole of the keys:
   * the text from a to b goes, leaving `after`, and the cursor goes to
   * offset a (onto a character, after `d`).
   */
  lemma ObjectCase(st: State, ls: Lines, line: nat, col: nat, keys: string, op: Operator, n: nat, around: bool, name: char,
                   a: nat, b: nat, after: Lines, aline: nat, c0: nat, acol: nat)
    requires st == Start(ls, line, col)
    requires |ls| >= 1 && LinesBreakFree(ls, 0) && line < |ls| && col <= |ls[line]|
    requires n >= 1 && ModelledObject(name) && op != YankText && |keys| > 0
    requires ParseCommand(keys) == Some((Operate(op, n, Object(around, name)), ""))
    requires Lookup(ls, Pos(line, col), around, name, n) == Some(B.Range(a, b))
    requires a <= b <= |Join(ls)|
    requires |after| >= 1 && LinesBreakFree(after, 0) && Join(after) == Join(ls)[..a] + Join(ls)[b..]
    requires aline < |after| && c0 <= |after[aline]| && Offset(after, Pos(aline, c0)) == a
    requires acol == if op == ChangeText then c0 else NormalCol(after[aline], c0)
    ensures Case(st, keys, after, aline, acol, if op == ChangeText then Insert else Normal)
  {
    StartValid(ls, line, col);
    BufferOk(after);
    LookupFinds(ls, st.cursor, around, name, n);
    RemoveObject(st, keys, op, n, around, name, a, b, after, aline, c0);
  }

  lemma RemoveObject(st: State, keys: string, op: Operator, n: nat, around: bool, name: char,
                     a: nat, b: nat, after: Lines, aline: nat, c0: nat)
    requires Valid(st) && st.mode == Normal && |keys| > 0 && n >= 1 && ModelledObject(name) && op != YankText
    requires ParseCommand(keys) == Some((Operate(op, n, Object(around, name)), ""))
    requires FindObject(st.lines, st.cursor, around, name, n) == Some(B.Range(a, b))
    requires WellFormed(after) && Join(after) == Join(st.lines)[..a] + Join(st.lines)[b..]
    requires ValidPos(after, Pos(aline, c0)) && Offset(after, Pos(aline, c0)) == a
    ensures Ends(Run(st, keys), after, aline, if op == ChangeText then c0 else NormalCol(after[aline], c0),
                 if op == ChangeText then Insert else Normal)
  {
    ObjectFound(st, op, n, around, name, a, b);
    ObjectDispatch(st, op, n, around, name);
    RemoveResult(st, op, a, b, after, aline, c0);
    RunStep(st, keys, Operate(op, n, Object(around, name)), "", ApplyRange(st, op, a, b));
  }

  /** A quote object on a buffer of one line, as offsets. */
  lemma QuoteLookup(s: string, col: nat, around: bool, q: char, n: nat, a: nat, b: nat)
    requires col <= |s| && n >= 1 && Q.IsQuoteChar(q)
    requires Q.QuoteObject(s, col, q, around, n) == Some(Q.Span(a, b))
    ensures a <= b <= |s|
    ensures Lookup([s], Pos(0, col), around, q, n) == Some(B.Range(a, b))
  {
    OneLine(s, a);
    OneLine(s, b);
  }

  /** The quote object inside the pair p: what the quotes hold, or with count 2 or more, the quotes too. */
  lemma InnerQuotes(s: string, col: nat, q: char, n: nat, p: Q.QuotePair)
    requires Q.IsQuoteChar(q) && Q.EnclosingQuotes(s, col, q) == Some(p)
    ensures Q.QuoteObject(s, col, q, false, n) == Some(if n < 2 then Q.Span(p.open + 1, p.close) else Q.Span(p.open, p.close + 1))
  {
    assert Q.QuoteObject(s, col, q, false, n).Some?;
  }

  /** The quote object around the pair p with the blanks after it, up to e. */
  lemma QuotesAndTrailing(s: string, col: nat, q: char, n: nat, p: Q.QuotePair, e: nat)
    requires Q.IsQuoteChar(q) && Q.EnclosingQuotes(s, col, q) == Some(p)
    requires p.close + 1 <= |s| && Q.BlanksAfter(s, p.close + 1) == e && e > p.close + 1
    ensures Q.QuoteObject(s, col, q, true, n) == Some(Q.Span(p.open, e))
  {
    assert Q.QuoteObject(s, col, q, true, n).Some?;
  }

  /** The quote object around the pair p with no blank after it: the blanks before it, from b on. */
  lemma QuotesAndLeading(s: string, col: nat, q: char, n: nat, p: Q.QuotePair, b: nat)
    requires Q.IsQuoteChar(q) && Q.EnclosingQuotes(s, col, q) == Some(p)
    requires p.close + 1 <= |s| && Q.BlanksAfter(s, p.close + 1) == p.close + 1
    requires p.open <= |s| && Q.BlanksBefore(s, p.open) == b
    ensures Q.QuoteObject(s, col, q, true, n) == Some(Q.Span(b, p.close + 1))
  {
    assert Q.QuoteObject(s, col, q, true, n).Some?;
  }

  /**
   * `c` or `d` with a quote object that is there, on a buffer of one line:
   * the line becomes s2, the line without the object.
   */
  lemma QuoteCase(st: State, s: string, col: nat, keys: string, op: Operator, n: nat, around: bool, q: char,
                  a: nat, b: nat, s2: string, acol: nat)
    requires st == Start([s], 0, col)
    requires '\n' !in s && col <= |s|
    requires n >= 1 && Q.IsQuoteChar(q) && op != YankText && |keys| > 0
    requires ParseCommand(keys) == Some((Operate(op, n, Object(around, q)), ""))
    requires Q.QuoteObject(s, col, q, around, n) == Some(Q.Span(a, b))
    requires s2 == s[..a] + s[b..]
    requires acol == if op == ChangeText then a else NormalCol(s2, a)
    ensures Case(st, keys, [s2], 0, acol, if op == ChangeText then Insert else Normal)
  {
    QuoteLookup(s, col, around, q, n, a, b);
    assert Join([s]) == s && Join([s2]) == s2;
    SliceBreakFree(s, a, b);
    OneLine(s2, a);
    ObjectCase(st, [s], 0, col, keys, op, n, around, q, a, b, [s2], 0, a, acol);
  }

  /**
   * `c` or `d` with a quote object that is there, on the first of two
   * lines: the first line becomes s2 and the second is kept.
   */
  lemma QuoteCaseTwoLines(st: State, s: string, u: string, col: nat, keys: string, op: Operator, n: nat, around: bool, q: char,
                          a: nat, b: nat, s2: string, acol: nat)
    requires st == Start([s, u], 0, col)
    requires '\n' !in s && '\n' !in u && col <= |s|
    requires n >= 1 && Q.IsQuoteChar(q) && op != YankText && |keys| > 0
    requires ParseCommand(keys) == Some((Operate(op, n, Object(around, q)), ""))
    requires Q.QuoteObject(s, col, q, around, n) == Some(Q.Span(a, b))
    requires s2 == s[..a] + s[b..]
    requires acol == if op == ChangeText then a else NormalCol(s2, a)
    ensures Case(st, keys, [s2, u], 0, acol, if op == ChangeText then Insert else Normal)
  {
    var ls, after := [s, u], [s2, u];
    TwoLines(s, u, col, n, around, q, a, b, s2);
    ObjectCase(st, ls, 0, col, keys, op, n, around, q, a, b, after, 0, a, acol);
  }

  /** The buffer facts behind a quote object found on the first of two lines. */
  lemma TwoLines(s: string, u: string, col: nat, n: nat, around: bool, q: char, a: nat, b: nat, s2: string)
    requires '\n' !in s && '\n' !in u && col <= |s| && n >= 1 && Q.IsQuoteChar(q)
    requires Q.QuoteObject(s, col, q, around, n) == Some(Q.Span(a, b))
    requires s2 == s[..a] + s[b..]
    ensures a <= b <= |Join([s, u])| && a <= |s2|
    ensures LinesBreakFree([s, u], 0) && LinesBreakFree([s2, u], 0)
    ensures Join([s2, u]) == Join([s, u])[..a] + Join([s, u])[b..]
    ensures Lookup([s, u], Pos(0, col), around, q, n) == Some(B.Range(a, b))
    ensures Offset([s2, u], Pos(0, a)) == a
  {
    var ls, after := [s, u], [s2, u];
    assert a <= b <= |s|;
    assert ls[1..] == [u] && after[1..] == [u];
    assert Join(ls) == s + "\n" + u;
    assert Join(after) == s2 + "\n" + u;
    assert Join(ls)[..a] == s[..a];
    assert Join(ls)[b..] == s[b..] + "\n" + u;
    SliceBreakFree(s, a, b);
  }

  /**
   * `c` or `d` with a bracket or argument object that is there: the buffer's
   * text t, with the cursor at offset q, becomes t2, the text without the
   * object, and the cursor goes to where the object started.
   */
  lemma TextCase(st: State, ls: Lines, line: nat, col: nat, keys: string, op: Operator, n: nat, around: bool, name: char,
                 t: string, q: nat, a: nat, b: nat, after: Lines, t2: string, aline: nat, c0: nat, acol: nat)
    requires st == Start(ls, line, col)
    requires TextStart(ls, line, col, keys, op, n, around, name, t, q)
    requires op != YankText && TextObject(t, q, around, name, n) == Some(B.Range(a, b))
    requires TextLeft(t, op, a, b, after, t2, aline, c0, acol)
    ensures Case(st, keys, after, aline, acol, if op == ChangeText then Insert else Normal)
  {
    ObjectCase(st, ls, line, col, keys, op, n, around, name, a, b, after, aline, c0, acol);
  }

  /**
   * What a test case of a bracket or argument object fixes about its start:
   * the keys, and the buffer's text t with the cursor at offset q in it.
   */
  predicate TextStart(ls: Lines, line: nat, col: nat, keys: string, op: Operator, n: nat, around: bool, name: char,
                      t: string, q: nat)
  {
    && |ls| >= 1 && LinesBreakFree(ls, 0) && line < |ls| && col <= |ls[line]|
    && n >= 1 && ModelledObject(name) && !Q.IsQuoteChar(name) && |keys| > 0
    && ParseCommand(keys) == Some((Operate(op, n, Object(around, name)), ""))
    && Join(ls) == t && Offset(ls, Pos(line, col)) == q
  }

  /** The text t2 left once [a, b) goes from t, as the buffer `after`, with the end cursor at offset a. */
  predicate TextLeft(t: string, op: Operator, a: nat, b: nat, after: Lines, t2: string, aline: nat, c0: nat, acol: nat) {
    && a <= b <= |t| && t2 == t[..a] + t[b..]
    && |after| >= 1 && LinesBreakFree(after, 0) && Join(after) == t2
    && aline < |after| && c0 <= |after[aline]| && Offset(after, Pos(aline, c0)) == a
    && acol == if op == ChangeText then c0 else NormalCol(after[aline], c0)
  }

  lemma SliceBreakFree(s: string, a: nat, b: nat)
    requires '\n' !in s && a <= b <= |s|
    ensures '\n' !in s[..a] + s[b..]
  {
    assert s == s[..a] + s[a..b] + s[b..];
  }

  /** An operator with a text object that is not there, as the whole of the keys: nothing changes. */
  lemma NoObjectCase(st: State, ls: Lines, line: nat, col: nat, keys: string, op: Operator, n: nat, around: bool, name: char)
    requires st == Start(ls, line, col)
    requires |ls| >= 1 && LinesBreakFree(ls, 0) && line < |ls| && col <= |ls[line]|
    requires n >= 1 && ModelledObject(name) && |keys| > 0
    requires ParseCommand(keys) == Some((Operate(op, n, Object(around, name)), ""))
    requires Lookup(ls, Pos(line, col), around, name, n).None?
    ensures Case(st, keys, ls, line, col, Normal)
  {
    StartValid(ls, line, col);
    LookupFinds(ls, st.cursor, around, name, n);
    KeepState(st, keys, op, n, around, name);
  }

  /** A quote object that is not there on a one-line buffer: nothing changes. */
  lemma NoQuoteCase(st: State, s: string, col: nat, keys: string, op: Operator, n: nat, around: bool, q: char)
    requires st == Start([s], 0, col)
    requires '\n' !in s && col <= |s|
    requires n >= 1 && Q.IsQuoteChar(q) && |keys| > 0
    requires ParseCommand(keys) == Some((Operate(op, n, Object(around, q)), ""))
    requires Q.QuoteObject(s, col, q, around, n).None?
    ensures Case(st, keys, [s], 0, col, Normal)
  {
    NoObjectCase(st, [s], 0, col, keys, op, n, around, q);
  }

  /** A bracket or argument object that is not there: nothing changes. */
  lemma NoTextObjectCase(st: State, ls: Lines, line: nat, col: nat, keys: string, op: Operator, n: nat, around: bool, name: char,
                         t: string, q: nat)
    requires st == Start(ls, line, col)
    requires TextStart(ls, line, col, keys, op, n, around, name, t, q)
    requires TextObject(t, q, around, name, n).None?
    ensures Case(st, keys, ls, line, col, Normal)
  {
    NoObjectCase(st, ls, line, col, keys, op, n, around, name);
  }

  lemma KeepState(st: State, keys: string, op: Operator, n: nat, around: bool, name: char)
    requires Valid(st) && st.mode == Normal && |keys| > 0 && n >= 1 && ModelledObject(name)
    requires ParseCommand(keys) == Some((Operate(op, n, Object(around, name)), ""))
    requires FindObject(st.lines, st.cursor, around, name, n).None?
    ensures Ends(Run(st, keys), st.lines, st.cursor.line, st.cursor.col, Normal)
  {
    ObjectDispatch(st, op, n, around, name);
    RunStep(st, keys, Operate(op, n, Object(around, name)), "", Unchanged(st));
  }

  /** On a buffer of one line, offsets are columns. */
  lemma OneLine(s: string, col: nat)
    requires col <= |s|
    ensures Offset([s], Pos(0, col)) == col
  {
  }
}
