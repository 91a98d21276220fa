/**
 * Argument text objects `ia` / `aa`. The arguments live between the
 * nearest enclosing pair of `(` / `[` and `)` / `]` (counted together, so
 * nesting of either kind hides its commas) and are separated by the commas
 * at the top level of that pair.
 */
module Arguments {
  import opened Wrappers
  import opened Buffer
  import opened Brackets

  /** The delimiters whose nesting the argument objects follow. */
  const ArgDelims: Delims := Delims("([", ")]")

  /** A comma directly inside the pair that starts at o: outside any nested pair. */
  predicate TopSeparator(t: string, o: nat, c: nat, k: nat)
    requires o < c <= |t|
  {
    o < k < c && t[k] == ',' && Net(t, ArgDelims, o + 1, k) == 0
  }

  /**
   * The commas at or after offset i and before c that a depth counter,
   * starting at `depth`, finds at depth zero: nested `(`/`[` pairs raise
   * the depth and hide their commas.
   */
  function SeparatorsFrom(t: string, c: nat, i: nat, depth: int): (seps: seq<nat>)
    requires i <= c <= |t|
    decreases c - i
  {
    if i == c then
      []
    else
      var rest := SeparatorsFrom(t, c, i + 1, depth + Weight(ArgDelims, t[i]));
      if t[i] == ',' && depth == 0 then [i] + rest else rest
  }

  /**
   * Started with the depth of t[o + 1..i], the scan finds, in increasing
   * order, exactly the top-level separators of the pair (o, c) from i on.
   */
  lemma {:induction false} SeparatorsFromTop(t: string, o: nat, c: nat, i: nat, depth: int)
    requires o < i <= c <= |t| && depth == Net(t, ArgDelims, o + 1, i)
    ensures var seps := SeparatorsFrom(t, c, i, depth);
      && Increasing(seps)
      && (forall j | 0 <= j < |seps| :: i <= seps[j] && TopSeparator(t, o, c, seps[j]))
      && (forall k | i <= k < c && TopSeparator(t, o, c, k) :: k in seps)
    decreases c - i
  {
    if i < c {
      NetSnoc(t, ArgDelims, o + 1, i);
      SeparatorsFromTop(t, o, c, i + 1, depth + Weight(ArgDelims, t[i]));
    }
  }

  /** The top-level separators of the pair (o, c), left to right. */
  function Separators(t: string, o: nat, c: nat): (seps: seq<nat>)
    requires o < c <= |t|
    ensures Increasing(seps)
    ensures forall k :: k in seps <==> TopSeparator(t, o, c, k)
  {
    assert Net(t, ArgDelims, o + 1, o + 1) == 0;
    SeparatorsFromTop(t, o, c, o + 1, 0);
    SeparatorsFrom(t, c, o + 1, 0)
  }

  /** The last separator at or before q, or o when there is none. */
  function LastUpTo(seps: seq<nat>, q: nat, o: nat): (l: nat)
    requires Increasing(seps) && forall x | x in seps :: o < x
    ensures l == o || (l in seps && l <= q)
    ensures l == o ==> forall x | x in seps :: x > q
    ensures forall x | x in seps && x <= q :: x <= l
  {
    if |seps| == 0 then o
    else if seps[|seps| - 1] <= q then seps[|seps| - 1]
    else
      var init := seps[..|seps| - 1];
      assert forall x | x in init :: x in seps;
      var l := LastUpTo(init, q, o);
      assert forall x | x in seps :: x in init || x == seps[|seps| - 1];
      l
  }

  /** The first separator after q, or c when there is none. */
  function FirstAfter(seps: seq<nat>, q: nat, c: nat): (r: nat)
    requires Increasing(seps) && forall x | x in seps :: x < c
    ensures r == c || (r in seps && r > q)
    ensures r == c ==> forall x | x in seps :: x <= q
    ensures forall x | x in seps && x > q :: r <= x
  {
    if |seps| == 0 then c
    else if seps[0] > q then seps[0]
    else
      var tail := seps[1..];
      assert forall x | x in tail :: x in seps;
      var r := FirstAfter(tail, q, c);
      assert forall x | x in seps :: x in tail || x == seps[0];
      r
  }

  /**
   * The argument the cursor is in: [l, r) between two consecutive
   * boundaries, a boundary being the opening delimiter, a top-level
   * separator or the closing delimiter. A cursor on the closing delimiter
   * counts as being in the last argument.
   */
  datatype Segment = Segment(open: nat, close: nat, l: nat, r: nat)

  function SegmentAt(t: string, o: nat, c: nat, p: nat): (s: Segment)
    requires o <= p <= c < |t| && o < c
    ensures s.open == o && s.close == c
    ensures o <= s.l < s.r <= c
    ensures s.l == o || TopSeparator(t, o, c, s.l)
    ensures s.r == c || TopSeparator(t, o, c, s.r)
    ensures var q := if p == c then c - 1 else p; s.l <= q < s.r
    ensures forall k | s.l < k < s.r :: !TopSeparator(t, o, c, k)
  {
    var q := if p == c then c - 1 else p;
    var seps := Separators(t, o, c);
    var l := LastUpTo(seps, q, o);
    var r := FirstAfter(seps, q, c);
    Segment(o, c, l, r)
  }

  predicate AllWhite(t: string, a: nat, b: nat)
    requires a <= b <= |t|
  {
    forall k | a <= k < b :: IsWhite(t[k])
  }

  /** The first character at or after a that is not white space (b if none before b). */
  function SkipWhite(t: string, a: nat, b: nat): (k: nat)
    requires a <= b <= |t|
    ensures a <= k <= b && AllWhite(t, a, k) && (k < b ==> !IsWhite(t[k]))
    decreases b - a
  {
    if a == b || !IsWhite(t[a]) then a else SkipWhite(t, a + 1, b)
  }

  /** The end of the text before b once trailing white space is dropped (a if all white). */
  function TrimEnd(t: string, a: nat, b: nat): (k: nat)
    requires a <= b <= |t|
    ensures a <= k <= b && AllWhite(t, k, b) && (k > a ==> !IsWhite(t[k - 1]))
    decreases b - a
  {
    if a == b || !IsWhite(t[b - 1]) then b else TrimEnd(t, a, b - 1)
  }

  /**
   * The argument pair around offset p: the innermost matched `(`/`[` pair
   * around it, None when there is none.
   */
  function ArgumentPair(t: string, p: nat): (r: Option<(nat, nat)>)
    requires p <= |t|
    ensures r.Some? ==> Matched(t, ArgDelims, r.value.0, r.value.1) && r.value.0 <= p <= r.value.1
    ensures r.Some? ==> forall o: nat, c: nat | Matched(t, ArgDelims, o, c) && o <= p <= c ::
      o <= r.value.0 && r.value.1 <= c
    ensures r.None? ==> forall o: nat, c: nat | o <= p <= c :: !Matched(t, ArgDelims, o, c)
  {
    DelimsDistinct();
    var r := EnclosingPair(t, ArgDelims, p);
    forall o: nat, c: nat | Matched(t, ArgDelims, o, c) && o <= p <= c
      ensures r.Some? && o <= r.value.0 && r.value.1 <= c
    {
      EnclosingPairFound(t, ArgDelims, p, o, c);
      EnclosingPairInnermost(t, ArgDelims, p, o, c);
    }
    r
  }

  lemma DelimsDistinct()
    ensures Distinct(ArgDelims)
  {
    assert ArgDelims.opens == "([" && ArgDelims.closes == ")]";
  }

  /**
   * `ia`: x is the argument between the boundaries l and r without the
   * white space around it; an argument that is only white space is taken
   * whole, which leaves an empty argument.
   */
  predicate TrimmedArgument(t: string, l: nat, r: nat, x: Range)
    requires l < r <= |t|
  {
    && l < x.start <= x.end <= r
    && (AllWhite(t, l + 1, r) ==> x == Range(l + 1, r))
    && (!AllWhite(t, l + 1, r) ==>
      && AllWhite(t, l + 1, x.start) && AllWhite(t, x.end, r)
      && x.start < x.end && !IsWhite(t[x.start]) && !IsWhite(t[x.end - 1]))
  }

  function InnerArgument(t: string, s: Segment): (r: Range)
    requires s.l < s.r <= |t|
    ensures TrimmedArgument(t, s.l, s.r, r)
  {
    var a := SkipWhite(t, s.l + 1, s.r);
    if a == s.r then
      Range(s.l + 1, s.r)
    else
      Range(a, TrimEnd(t, a, s.r))
  }

  /** The end of the blanks (not line breaks) from i on, stopping at e. */
  function BlanksUntil(t: string, i: nat, e: nat): (k: nat)
    requires i <= e <= |t|
    ensures i <= k <= e && (forall j | i <= j < k :: IsBlank(t[j])) && (k < e ==> !IsBlank(t[k]))
    decreases e - i
  {
    if i == e || !IsBlank(t[i]) then i else BlanksUntil(t, i + 1, e)
  }

  /** The argument of segment s is the only one between its delimiters. */
  predicate Sole(s: Segment) {
    s.l == s.open && s.r == s.close
  }

  /**
   * `aa`: x is what the argument of segment s takes along. The only
   * argument is everything between the delimiters. The first of several
   * arguments goes with the separator after it and the blanks that follow
   * that separator on its line. Any later argument goes with the separator
   * before it, up to its last non-white character (all of it when it is
   * only white space).
   */
  predicate AroundRule(t: string, s: Segment, x: Range)
    requires s.open <= s.l < s.r <= s.close < |t|
  {
    && (Sole(s) ==> x == Range(s.open + 1, s.close))
    && (s.l == s.open && s.r < s.close ==>
      && x.start == s.open + 1 && s.r + 1 <= x.end <= s.close
      && (forall j | s.r < j < x.end :: IsBlank(t[j]))
      && (x.end < s.close ==> !IsBlank(t[x.end])))
    && (s.l > s.open ==>
      && x.start == s.l && s.l < x.end <= s.r && AllWhite(t, x.end, s.r)
      && (AllWhite(t, s.l + 1, s.r) ==> x.end == s.r)
      && (x.end == s.r || !IsWhite(t[x.end - 1])))
  }

  /** `aa` on segment s; an empty or blank only argument that is the only one fails. */
  function AroundArgument(t: string, s: Segment): (r: Option<Range>)
    requires s.open <= s.l < s.r <= s.close < |t|
    requires s.l == s.open || t[s.l] == ','
    ensures r.None? <==> Sole(s) && AllWhite(t, s.l + 1, s.r)
    ensures r.Some? ==> AroundRule(t, s, r.value)
  {
    if Sole(s) then
      if AllWhite(t, s.l + 1, s.r) then None else Some(Range(s.open + 1, s.close))
    else if s.l == s.open then
      Some(Range(s.open + 1, BlanksUntil(t, s.r + 1, s.close)))
    else
      var a := SkipWhite(t, s.l + 1, s.r);
      if a == s.r then Some(Range(s.l, s.r)) else Some(Range(s.l, TrimEnd(t, a, s.r)))
  }

  /** No top-level separator splits the pair (o, c). */
  predicate NoSeparator(t: string, o: nat, c: nat)
    requires o < c <= |t|
  {
    forall k | o < k < c :: !TopSeparator(t, o, c, k)
  }

  /**
   * `ia` / `aa` at offset p, over the argument the cursor is in within the
   * innermost `(`/`[` pair around it. None when no pair encloses the
   * cursor, and for `aa` when the only argument is empty or blank.
   */
  function ArgumentObject(t: string, p: nat, around: bool): (r: Option<Range>)
    requires p <= |t|
    ensures r.None? <==>
      || ArgumentPair(t, p).None?
      || (around && var (o, c) := ArgumentPair(t, p).value; NoSeparator(t, o, c) && AllWhite(t, o + 1, c))
    ensures r.Some? ==>
      var (o, c) := ArgumentPair(t, p).value;
      var s := SegmentAt(t, o, c, p);
      && (!around ==> TrimmedArgument(t, s.l, s.r, r.value))
      && (around ==> AroundRule(t, s, r.value))
  {
    var (o, c) :- ArgumentPair(t, p);
    var s := SegmentAt(t, o, c, p);
    assert Sole(s) <==> NoSeparator(t, o, c) by {
      if NoSeparator(t, o, c) {
        assert s.l == o && s.r == c;
      }
    }
    if around then AroundArgument(t, s) else Some(InnerArgument(t, s))
  }
}
