/**
 * Reading the keys of Normal mode into commands. A count may come before
 * the command and, for an operator, again between the operator and its
 * motion; the two multiply, so `2d12w` deletes 24 words and `3d/x` is
 * `d3/x`. Special keys are written `<C-a>`, `<C-x>` and `<C-v>`.
 */
module Keys {
  import opened Wrappers
  import opened Numbers
  import opened Increment

  datatype Operator = Delete | ChangeText | YankText

  /** What an operator works on. */
  datatype Target =
    | WholeLines                          // `dd`, `yy`, and `Y`
    | Word                                // `w`
    | Search(pattern: string)             // `/pattern<CR>`
    | LinesUp                             // `-`
    | Object(around: bool, name: char)    // `i(`, `a"`, `ia`, ...

  datatype Command =
    | Add(count: nat, negative: bool)                                        // `<C-a>`, `<C-x>`
    | VisualAdd(kind: VisualKind, down: nat, count: nat, negative: bool, progressive: bool)
    | Put(below: bool, count: nat)                                           // `p`, `P`
    | Operate(op: Operator, count: nat, target: Target)

  /** Every command carries a count of at least one; a missing count is one. */
  predicate Counted(c: Command) {
    match c
    case Add(n, _) => n >= 1
    case VisualAdd(_, _, n, _, _) => n >= 1
    case Put(_, n) => n >= 1
    case Operate(_, n, _) => n >= 1
  }

  predicate StartsWith(s: string, p: string) {
    |p| <= |s| && s[..|p|] == p
  }

  /** The end of the run of decimal digits from i on. */
  function DigitRun(s: string, i: nat): (e: nat)
    requires i <= |s|
    ensures i <= e <= |s| && (forall k | i <= k < e :: IsDigit(s[k])) && (e < |s| ==> !IsDigit(s[e]))
    decreases |s| - i
  {
    if i == |s| || !IsDigit(s[i]) then i else DigitRun(s, i + 1)
  }

  /**
   * A count at the start of the keys and the keys after it; 0 when there is
   * none. A count cannot start with `0`, which is a motion of its own.
   */
  function SplitCount(s: string): (r: (nat, string))
    ensures r.0 == 0 <==> |s| == 0 || !('1' <= s[0] <= '9')
    ensures r.0 == 0 ==> r.1 == s
    ensures r.0 > 0 ==> |r.1| < |s| && r.1 == s[|s| - |r.1|..] && (|r.1| == 0 || !IsDigit(r.1[0]))
  {
    if |s| > 0 && '1' <= s[0] <= '9' then
      var e := DigitRun(s, 0);
      DigitsPositive(s, e);
      (DigitsValue(s, 0, e, 10), s[e..])
    else
      (0, s)
  }

  lemma {:induction false} DigitsPositive(s: string, b: nat)
    requires 0 < b <= |s| && '1' <= s[0] <= '9' && forall k | 0 <= k < b :: IsDigit(s[k])
    ensures DigitsValue(s, 0, b, 10) >= 1
  {
    if b > 1 {
      DigitsPositive(s, b - 1);
    }
  }

  /** The decimal keys of a count. */
  function CountKeys(n: nat): (ds: string)
    requires n >= 1
    ensures |ds| >= 1 && '1' <= ds[0] <= '9'
    ensures forall k | 0 <= k < |ds| :: IsDigit(ds[k])
  {
    var ds := ToDigits(n, 10, false);
    forall k | 0 <= k < |ds| ensures IsDigit(ds[k]) {
      assert DigitValue(ds[k]) < 10;
    }
    ds
  }

  /** A count written out and followed by a non-digit is read back as itself. */
  lemma SplitCountKeys(n: nat, rest: string)
    requires n >= 1 && (|rest| == 0 || !IsDigit(rest[0]))
    ensures SplitCount(CountKeys(n) + rest) == (n, rest)
  {
    DigitsThenRest(CountKeys(n), rest);
    ToDigitsValue(n, 10, false);
  }

  /** A count is read up to the first key that is not a digit. */
  lemma DigitsThenRest(ds: string, rest: string)
    requires |ds| >= 1 && '1' <= ds[0] <= '9' && forall k | 0 <= k < |ds| :: IsDigit(ds[k])
    requires |rest| == 0 || !IsDigit(rest[0])
    ensures SplitCount(ds + rest) == (DigitsValue(ds, 0, |ds|, 10), rest)
  {
    var s := ds + rest;
    assert forall k | 0 <= k < |ds| :: ds[k] == s[0 + (k - 0)];
    assert s[|ds|..] == rest;
    DigitRunOver(s, 0, |ds|);
    DigitsValueFrame(ds, 0, |ds|, s, 0, 10);
  }

  lemma {:induction false} DigitRunOver(s: string, i: nat, e: nat)
    requires i <= e <= |s| && (forall k | i <= k < e :: IsDigit(s[k])) && (e < |s| ==> !IsDigit(s[e]))
    ensures DigitRun(s, i) == e
    decreases e - i
  {
    if i < e {
      DigitRunOver(s, i + 1, e);
    }
  }

  function OperatorOf(c: char): Operator
  {
    if c == 'd' then Delete else if c == 'c' then ChangeText else YankText
  }

  /** The first line break at or after i, or |s|. */
  function LineBreak(s: string, i: nat): (e: nat)
    requires i <= |s|
    ensures i <= e <= |s| && (forall k | i <= k < e :: s[k] != '\n') && (e < |s| ==> s[e] == '\n')
    decreases |s| - i
  {
    if i == |s| || s[i] == '\n' then i else LineBreak(s, i + 1)
  }

  /**
   * What follows an operator key `key`: a second count and the target. The
   * command's count is the product of the two counts. `cw` and `cc` are
   * not read (they are not plain `c` plus a motion); a search needs a
   * pattern and the line break that ends it.
   */
  function ParseOperand(key: char, n1: nat, s: string): (r: Option<(Command, string)>)
    requires n1 >= 1
    ensures r.Some? ==> Counted(r.value.0) && |r.value.1| < |s|
    ensures r.Some? ==> r.value.0.Operate? && r.value.0.op == OperatorOf(key)
  {
    var (c2, s2) := SplitCount(s);
    var n := if c2 == 0 then n1 else n1 * c2;
    var op := OperatorOf(key);
    if |s2| == 0 then None
    else if s2[0] == key && op != ChangeText then Some((Operate(op, n, WholeLines), s2[1..]))
    else if s2[0] == 'w' && op != ChangeText then Some((Operate(op, n, Word), s2[1..]))
    else if s2[0] == '-' then Some((Operate(op, n, LinesUp), s2[1..]))
    else if s2[0] == '/' then
      var e := LineBreak(s2, 1);
      if 1 < e < |s2| then Some((Operate(op, n, Search(s2[1..e])), s2[e + 1..])) else None
    else if (s2[0] == 'i' || s2[0] == 'a') && |s2| >= 2 then
      Some((Operate(op, n, Object(s2[0] == 'a', s2[1])), s2[2..]))
    else None
  }

  function RunOfJ(s: string, i: nat): (e: nat)
    requires i <= |s|
    ensures i <= e <= |s| && forall k | i <= k < e :: s[k] == 'j'
    decreases |s| - i
  {
    if i == |s| || s[i] != 'j' then i else RunOfJ(s, i + 1)
  }

  /**
   * After `v`, `V` or `<C-v>`: `j` keys extend the selection downwards, then
   * `[count][g]<C-a>` or `[count][g]<C-x>` changes the numbers in it. In
   * charwise Visual mode, `i`/`a` and an object followed by an operator key
   * apply the operator to the object.
   */
  function ParseVisual(kind: VisualKind, s: string): (r: Option<(Command, string)>)
    ensures r.Some? ==> Counted(r.value.0) && |r.value.1| < |s|
  {
    var down := RunOfJ(s, 0);
    var s1 := s[down..];
    if kind == Visual && down == 0 && |s1| >= 3 && (s1[0] == 'i' || s1[0] == 'a') && s1[2] in "dcy" then
      Some((Operate(OperatorOf(s1[2]), 1, Object(s1[0] == 'a', s1[1])), s1[3..]))
    else
      var (c, s2) := SplitCount(s1);
      var progressive := |s2| >= 1 && s2[0] == 'g';
      var s3 := if progressive then s2[1..] else s2;
      var n := if c == 0 then 1 else c;
      if StartsWith(s3, "<C-a>") then Some((VisualAdd(kind, down, n, false, progressive), s3[5..]))
      else if StartsWith(s3, "<C-x>") then Some((VisualAdd(kind, down, n, true, progressive), s3[5..]))
      else None
  }

  /**
   * The first command of the keys and the keys left after it; None when the
   * keys do not start with a command of the model.
   */
  function ParseCommand(s: string): (r: Option<(Command, string)>)
    ensures r.Some? ==> Counted(r.value.0) && |r.value.1| < |s|
  {
    var (c1, s1) := SplitCount(s);
    var n1 := if c1 == 0 then 1 else c1;
    if |s1| == 0 then None
    else if StartsWith(s1, "<C-a>") then Some((Add(n1, false), s1[5..]))
    else if StartsWith(s1, "<C-x>") then Some((Add(n1, true), s1[5..]))
    else if s1[0] == 'Y' then Some((Operate(YankText, n1, WholeLines), s1[1..]))
    else if s1[0] == 'p' || s1[0] == 'P' then Some((Put(s1[0] == 'p', n1), s1[1..]))
    else if s1[0] in "dcy" then ParseOperand(s1[0], n1, s1[1..])
    else if c1 == 0 && s1[0] == 'v' then ParseVisual(Visual, s1[1..])
    else if c1 == 0 && s1[0] == 'V' then ParseVisual(VisualLine, s1[1..])
    else if c1 == 0 && StartsWith(s1, "<C-v>") then ParseVisual(VisualBlock, s1[5..])
    else None
  }

  /** An operator key opens the command: the count before it is passed on to the operand. */
  lemma OperatorCommand(key: char, s: string, c1: nat, rest: string)
    requires key in "dcy" && SplitCount(s) == (c1, [key] + rest)
    ensures ParseCommand(s) == ParseOperand(key, if c1 == 0 then 1 else c1, rest)
  {
    var s1 := [key] + rest;
    assert s1[1..] == rest;
    assert !StartsWith(s1, "<C-a>") && !StartsWith(s1, "<C-x>") by {
      assert s1[0] != '<';
    }
  }

  /** `/pattern<CR>` after an operator: the pattern is everything up to the line break. */
  lemma SearchKeys(key: char, n: nat, pattern: string)
    requires key in "dcy" && n >= 1 && |pattern| >= 1 && '\n' !in pattern
    ensures ParseOperand(key, n, "/" + pattern + "\n") == Some((Operate(OperatorOf(key), n, Search(pattern)), ""))
  {
    var s := "/" + pattern + "\n";
    assert SplitCount(s) == (0, s);
    var e := |pattern| + 1;
    forall k | 1 <= k < e
      ensures s[k] != '\n'
    {
      assert s[k] == pattern[k - 1];
    }
    LineBreakAt(s, 1, e);
    assert s[1..e] == pattern;
  }

  /** The line break LineBreak finds is the first one at or after i. */
  lemma LineBreakAt(s: string, i: nat, e: nat)
    requires i <= e < |s| && s[e] == '\n' && forall k | i <= k < e :: s[k] != '\n'
    ensures LineBreak(s, i) == e
  {
  }

  /** An operator key, `i` or `a` and an object name: the operator on that object. */
  lemma ObjectKeys(key: char, around: bool, name: char)
    requires key in "dcy"
    ensures ParseCommand([key, if around then 'a' else 'i', name])
         == Some((Operate(OperatorOf(key), 1, Object(around, name)), ""))
  {
    var s := [key, if around then 'a' else 'i', name];
    assert s == [key] + s[1..];
    OperatorCommand(key, s, 0, s[1..]);
    assert SplitCount(s[1..]) == (0, s[1..]);
  }

  /** With a count between the operator and the object, the operator takes the count-th object out. */
  lemma CountedObjectKeys(key: char, n: nat, around: bool, name: char)
    requires key in "dcy" && n >= 1
    ensures ParseCommand([key] + CountKeys(n) + [if around then 'a' else 'i', name])
         == Some((Operate(OperatorOf(key), n, Object(around, name)), ""))
  {
    var m := [if around then 'a' else 'i', name];
    calc {
      ParseCommand([key] + CountKeys(n) + m);
      { assert [key] + CountKeys(n) + m == [key] + (CountKeys(n) + m);
        OperatorFirst(key, CountKeys(n) + m); }
      ParseOperand(key, 1, CountKeys(n) + m);
      { OperandMoves(key, n, m); }
      ParseOperand(key, n, m);
      { assert SplitCount(m) == (0, m); }
      Some((Operate(OperatorOf(key), n, Object(around, name)), ""));
    }
  }

  /** Whatever the counts, the operand reads the same target from the same keys. */
  lemma OperandCount(key: char, n1: nat, n2: nat, n3: nat, n4: nat, m: string)
    requires n1 >= 1 && n2 >= 1 && n3 >= 1 && n4 >= 1 && n1 * n2 == n3 * n4
    requires |m| == 0 || !IsDigit(m[0])
    ensures ParseOperand(key, n1, CountKeys(n2) + m) == ParseOperand(key, n3, CountKeys(n4) + m)
  {
    SplitCountKeys(n2, m);
    SplitCountKeys(n4, m);
  }

  /** The count may go before the operator or after it: `3d/x` is `d3/x`, `2dd` is `d2d`. */
  lemma {:induction false} CountEitherSide(key: char, n: nat, m: string)
    requires key in "dcy" && n >= 1 && (|m| == 0 || !IsDigit(m[0]))
    ensures ParseCommand(CountKeys(n) + [key] + m) == ParseCommand([key] + CountKeys(n) + m)
  {
    var s := CountKeys(n) + [key] + m;
    SplitCountKeys(n, [key] + m);
    assert s == CountKeys(n) + ([key] + m);
    OperatorCommand(key, s, n, m);
    var t := [key] + CountKeys(n) + m;
    assert t == [key] + (CountKeys(n) + m);
    OperatorCommand(key, t, 0, CountKeys(n) + m);
    OperandMoves(key, n, m);
  }

  /** A count before the operand's keys counts as much as one carried in from before the operator. */
  lemma OperandMoves(key: char, n: nat, m: string)
    requires n >= 1 && (|m| == 0 || !IsDigit(m[0]))
    ensures ParseOperand(key, n, m) == ParseOperand(key, 1, CountKeys(n) + m)
  {
    SplitCountKeys(n, m);
    assert SplitCount(m) == (0, m);
    assert 1 * n == n;
  }

  /** Counts on both sides of an operator multiply: `2d12w` is `d24w`. */
  lemma {:induction false} CountsMultiply(key: char, n1: nat, n2: nat, m: string)
    requires key in "dcy" && n1 >= 1 && n2 >= 1 && (|m| == 0 || !IsDigit(m[0]))
    ensures n1 * n2 >= 1
    ensures ParseCommand(CountKeys(n1) + [key] + CountKeys(n2) + m)
         == ParseCommand([key] + CountKeys(n1 * n2) + m)
  {
    var n := n1 * n2;
    Positive(n1, n2);
    var b := CountKeys(n2);
    var c := CountKeys(n);
    calc {
      ParseCommand(CountKeys(n1) + [key] + b + m);
      { assert CountKeys(n1) + [key] + b + m == CountKeys(n1) + [key] + (b + m);
        CountThenOperator(key, n1, b + m); }
      ParseOperand(key, n1, b + m);
      { OperandCount(key, n1, n2, 1, n, m); }
      ParseOperand(key, 1, c + m);
      { assert [key] + c + m == [key] + (c + m);
        OperatorFirst(key, c + m); }
      ParseCommand([key] + c + m);
    }
  }

  lemma Positive(n1: nat, n2: nat)
    requires n1 >= 1 && n2 >= 1
    ensures n1 * n2 >= 1
  {
    assert n1 * n2 == (n1 - 1) * n2 + n2;
  }

  lemma CountThenOperator(key: char, n: nat, rest: string)
    requires key in "dcy" && n >= 1
    ensures ParseCommand(CountKeys(n) + [key] + rest) == ParseOperand(key, n, rest)
  {
    var s := CountKeys(n) + [key] + rest;
    SplitCountKeys(n, [key] + rest);
    assert s == CountKeys(n) + ([key] + rest);
    OperatorCommand(key, s, n, rest);
  }

  lemma OperatorFirst(key: char, rest: string)
    requires key in "dcy"
    ensures ParseCommand([key] + rest) == ParseOperand(key, 1, rest)
  {
    OperatorCommand(key, [key] + rest, 0, rest);
  }
}
