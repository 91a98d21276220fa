/**
 * Bracket text objects `i(` / `a(` and their aliases, over the buffer's
 * text so that a pair may span lines. The pair is found by depth counting:
 * the nearest unmatched opening bracket to the left of the cursor and the
 * nearest unmatched closing bracket to its right; a cursor on a bracket
 * uses that bracket. A count selects the count-th enclosing pair.
 */
module Brackets {
  import opened Wrappers
  import opened Buffer

  /**
   * The opening and the closing delimiters a scan counts: one of each for
   * a bracket object, `(` and `[` against `)` and `]` for argument objects.
   */
  datatype Delims = Delims(opens: string, closes: string)

  /** No character both opens and closes, and no line break is a delimiter. */
  predicate Distinct(d: Delims) {
    && (forall k | 0 <= k < |d.opens| :: d.opens[k] !in d.closes && d.opens[k] != '\n')
    && '\n' !in d.closes
  }

  /** Every prefix of t[a..b] opens at least as many delimiters as it closes. */
  predicate PrefixesOpen(t: string, d: Delims, a: nat, b: nat)
    requires a <= b <= |t|
  {
    forall k | a <= k <= b :: Net(t, d, a, k) >= 0
  }

  /** Every suffix of t[a..b] closes at least as many delimiters as it opens. */
  predicate SuffixesClose(t: string, d: Delims, a: nat, b: nat)
    requires a <= b <= |t|
  {
    forall k | a <= k <= b :: Net(t, d, k, b) <= 0
  }

  /** The pair an object character names: `(`, `)`, `b`; `{`, `}`, `B`; `[`, `]`; `<`, `>`. */
  function ObjectDelims(c: char): (r: Option<Delims>)
    ensures r.Some? ==> Distinct(r.value)
    ensures r.Some? <==> c in "(){}[]<>bB"
  {
    if c == '(' || c == ')' || c == 'b' then Some(Delims("(", ")"))
    else if c == '{' || c == '}' || c == 'B' then Some(Delims("{", "}"))
    else if c == '[' || c == ']' then Some(Delims("[", "]"))
    else if c == '<' || c == '>' then Some(Delims("<", ">"))
    else None
  }

  /** +1 for an opening delimiter, -1 for a closing one, 0 otherwise. */
  function Weight(d: Delims, c: char): int {
    if c in d.opens then 1 else if c in d.closes then -1 else 0
  }

  /** Opening minus closing delimiters in t[a..b]. */
  function Net(t: string, d: Delims, a: nat, b: nat): int
    requires a <= b <= |t|
    decreases b - a
  {
    if a == b then 0 else Weight(d, t[a]) + Net(t, d, a + 1, b)
  }

  /** Counting delimiters is additive over adjacent pieces of text. */
  lemma {:induction false} NetSplit(t: string, d: Delims, a: nat, m: nat, b: nat)
    requires a <= m <= b <= |t|
    ensures Net(t, d, a, b) == Net(t, d, a, m) + Net(t, d, m, b)
    decreases m - a
  {
    if a < m {
      NetSplit(t, d, a + 1, m, b);
    }
  }

  /** Extending a piece by one character on the right adds that character's weight. */
  lemma NetSnoc(t: string, d: Delims, a: nat, b: nat)
    requires a <= b < |t|
    ensures Net(t, d, a, b + 1) == Net(t, d, a, b) + Weight(d, t[b])
  {
    NetSplit(t, d, a, b, b + 1);
  }

  /**
   * Scan left from i - 1 for an opening delimiter met at depth zero.
   * `depth` counts the closing delimiters passed over that are still
   * unmatched.
   */
  function FindOpen(t: string, d: Delims, i: nat, depth: nat): (r: Option<nat>)
    requires i <= |t|
    decreases i
  {
    if i == 0 then
      None
    else
      var c := t[i - 1];
      if c in d.opens && depth == 0 then
        Some(i - 1)
      else if c in d.opens then
        FindOpen(t, d, i - 1, depth - 1)
      else if c in d.closes then
        FindOpen(t, d, i - 1, depth + 1)
      else
        FindOpen(t, d, i - 1, depth)
  }

  /**
   * Started at i with the number of closing delimiters of t[i..hi] still
   * unmatched, the scan left finds the opening delimiter that is unmatched
   * in t[..hi]: the first o (from the right) whose suffix t[o..hi] holds one
   * more opening than closing delimiter.
   */
  lemma {:induction false} FindOpenUnmatched(t: string, d: Delims, i: nat, hi: nat, depth: nat)
    requires Distinct(d) && i <= hi <= |t|
    requires depth == -Net(t, d, i, hi) && SuffixesClose(t, d, i, hi)
    ensures var r := FindOpen(t, d, i, depth);
      && (r.Some? ==>
        && r.value < i && t[r.value] in d.opens
        && Net(t, d, r.value + 1, hi) == 0 && SuffixesClose(t, d, r.value + 1, hi))
      && (r.None? ==> SuffixesClose(t, d, 0, hi))
    decreases i
  {
    if i > 0 {
      var c := t[i - 1];
      NetSplit(t, d, i - 1, i, hi);
      assert Net(t, d, i - 1, hi) == Weight(d, c) + Net(t, d, i, hi) by {
        assert Net(t, d, i - 1, i) == Weight(d, c) + Net(t, d, i, i);
      }
      if !(c in d.opens && depth == 0) {
        var depth' := if c in d.opens then depth - 1 else if c in d.closes then depth + 1 else depth;
        FindOpenUnmatched(t, d, i - 1, hi, depth');
      }
    }
  }

  /**
   * Scan right from i for a closing delimiter met at depth zero. `depth`
   * counts the opening delimiters passed over that are still unmatched.
   */
  function FindClose(t: string, d: Delims, i: nat, depth: nat): (r: Option<nat>)
    requires i <= |t|
    decreases |t| - i
  {
    if i == |t| then
      None
    else
      var c := t[i];
      if c in d.closes && depth == 0 then
        Some(i)
      else if c in d.opens then
        FindClose(t, d, i + 1, depth + 1)
      else if c in d.closes then
        FindClose(t, d, i + 1, depth - 1)
      else
        FindClose(t, d, i + 1, depth)
  }

  /**
   * Started at i with the number of opening delimiters of t[lo..i] still
   * unmatched, the scan right finds the closing delimiter that is
   * unmatched in t[lo..]: the first c whose prefix t[lo..c + 1] holds one
   * more closing than opening delimiter.
   */
  lemma {:induction false} FindCloseUnmatched(t: string, d: Delims, i: nat, lo: nat, depth: nat)
    requires Distinct(d) && lo <= i <= |t|
    requires depth == Net(t, d, lo, i) && PrefixesOpen(t, d, lo, i)
    ensures var r := FindClose(t, d, i, depth);
      && (r.Some? ==>
        && i <= r.value < |t| && t[r.value] in d.closes
        && Net(t, d, lo, r.value) == 0 && PrefixesOpen(t, d, lo, r.value))
      && (r.None? ==> PrefixesOpen(t, d, lo, |t|))
    decreases |t| - i
  {
    if i < |t| {
      NetSnoc(t, d, lo, i);
      var c := t[i];
      if !(c in d.closes && depth == 0) {
        var depth' := if c in d.opens then depth + 1 else if c in d.closes then depth - 1 else depth;
        FindCloseUnmatched(t, d, i + 1, lo, depth');
      }
    }
  }

  /**
   * The unmatched opening delimiter left of offset hi, if any: the text
   * between it and hi is balanced and no suffix of it opens more than it
   * closes. None when no suffix of t[..hi] opens more than it closes.
   */
  function OpenBefore(t: string, d: Delims, hi: nat): (r: Option<nat>)
    requires Distinct(d) && hi <= |t|
    ensures r.Some? ==>
      && r.value < hi && t[r.value] in d.opens
      && Net(t, d, r.value + 1, hi) == 0 && SuffixesClose(t, d, r.value + 1, hi)
    ensures r.None? ==> SuffixesClose(t, d, 0, hi)
  {
    assert Net(t, d, hi, hi) == 0;
    FindOpenUnmatched(t, d, hi, hi, 0);
    FindOpen(t, d, hi, 0)
  }

  /**
   * The unmatched closing delimiter at or right of offset lo, if any: the
   * text between lo and it is balanced and no prefix of it closes more than
   * it opens. None when no prefix of t[lo..] closes more than it opens.
   */
  function CloseFrom(t: string, d: Delims, lo: nat): (r: Option<nat>)
    requires Distinct(d) && lo <= |t|
    ensures r.Some? ==>
      && lo <= r.value < |t| && t[r.value] in d.closes
      && Net(t, d, lo, r.value) == 0 && PrefixesOpen(t, d, lo, r.value)
    ensures r.None? ==> PrefixesOpen(t, d, lo, |t|)
  {
    assert Net(t, d, lo, lo) == 0;
    FindCloseUnmatched(t, d, lo, lo, 0);
    FindClose(t, d, lo, 0)
  }

  /**
   * A matched pair: an opening delimiter at o and a closing one at c whose
   * text between holds as many opening as closing delimiters and never
   * closes more than it has opened.
   */
  predicate Matched(t: string, d: Delims, o: nat, c: nat) {
    && o < c < |t| && t[o] in d.opens && t[c] in d.closes
    && Net(t, d, o + 1, c) == 0 && PrefixesOpen(t, d, o + 1, c)
  }

  /**
   * The pair enclosing offset p: on an opening or closing delimiter, the
   * pair of that delimiter; elsewhere the nearest unmatched delimiters on
   * either side.
   */
  function EnclosingPair(t: string, d: Delims, p: nat): (r: Option<(nat, nat)>)
    requires Distinct(d) && p <= |t|
    ensures r.Some? ==> Matched(t, d, r.value.0, r.value.1) && r.value.0 <= p <= r.value.1
    ensures r.Some? && p < |t| && t[p] in d.opens ==> r.value.0 == p
    ensures r.Some? && p < |t| && t[p] in d.closes ==> r.value.1 == p
    ensures r.None? && p < |t| && t[p] in d.opens ==> PrefixesOpen(t, d, p + 1, |t|)
    ensures r.None? && !(p < |t| && t[p] in d.opens) ==>
      SuffixesClose(t, d, 0, p) || PrefixesOpen(t, d, p, |t|)
  {
    if p < |t| && t[p] in d.opens then
      var c :- CloseFrom(t, d, p + 1);
      Some((p, c))
    else if p < |t| && t[p] in d.closes then
      var o :- OpenBefore(t, d, p);
      OpenPrefixes(t, d, o + 1, p);
      Some((o, p))
    else
      var o :- OpenBefore(t, d, p);
      var c :- CloseFrom(t, d, p);
      OpenPrefixes(t, d, o + 1, p);
      JoinBalanced(t, d, o + 1, p, c);
      Some((o, c))
  }

  /** Balanced text none of whose suffixes opens more than it closes has no prefix that closes more than it opens. */
  lemma OpenPrefixes(t: string, d: Delims, a: nat, p: nat)
    requires a <= p <= |t|
    requires Net(t, d, a, p) == 0 && SuffixesClose(t, d, a, p)
    ensures PrefixesOpen(t, d, a, p)
  {
    forall k | a <= k <= p ensures Net(t, d, a, k) >= 0 {
      NetSplit(t, d, a, k, p);
    }
  }

  /** Two balanced pieces, side by side, make a balanced piece. */
  lemma JoinBalanced(t: string, d: Delims, a: nat, p: nat, c: nat)
    requires a <= p <= c <= |t|
    requires Net(t, d, a, p) == 0 && PrefixesOpen(t, d, a, p)
    requires Net(t, d, p, c) == 0 && PrefixesOpen(t, d, p, c)
    ensures Net(t, d, a, c) == 0 && PrefixesOpen(t, d, a, c)
  {
    NetSplit(t, d, a, p, c);
    forall k | a <= k <= c ensures Net(t, d, a, k) >= 0 {
      if k > p {
        NetSplit(t, d, a, p, k);
      }
    }
  }

  /** A matched pair, delimiters included, is balanced. */
  lemma PairBalanced(t: string, d: Delims, o: nat, c: nat)
    requires Distinct(d) && Matched(t, d, o, c)
    ensures Net(t, d, o, c + 1) == 0 && PrefixesOpen(t, d, o, c + 1)
  {
    NetSnoc(t, d, o + 1, c);
    NetSplit(t, d, o, o + 1, c + 1);
    assert Net(t, d, o, o + 1) == 1 by {
      assert Net(t, d, o + 1, o + 1) == 0;
    }
    forall k | o <= k <= c + 1 ensures Net(t, d, o, k) >= 0 {
      if k > o {
        NetSplit(t, d, o, o + 1, k);
        if k <= c {
          assert Net(t, d, o + 1, k) >= 0;
        }
      }
    }
  }

  /** The pair enclosing (o, c) one level further out. */
  function OuterPair(t: string, d: Delims, o: nat, c: nat): (r: Option<(nat, nat)>)
    requires Distinct(d) && Matched(t, d, o, c)
    ensures r.Some? ==> Matched(t, d, r.value.0, r.value.1) && r.value.0 < o && c < r.value.1
  {
    var o2 :- OpenBefore(t, d, o);
    var c2 :- CloseFrom(t, d, c + 1);
    OpenPrefixes(t, d, o2 + 1, o);
    PairBalanced(t, d, o, c);
    JoinBalanced(t, d, o2 + 1, o, c + 1);
    JoinBalanced(t, d, o2 + 1, c + 1, c2);
    Some((o2, c2))
  }

  /** The count-th pair around offset p: the enclosing pair, then count - 1 levels out. */
  function NthPair(t: string, d: Delims, p: nat, count: nat): (r: Option<(nat, nat)>)
    requires Distinct(d) && p <= |t| && count >= 1
    ensures r.Some? ==> Matched(t, d, r.value.0, r.value.1) && r.value.0 <= p <= r.value.1
    ensures count == 1 ==> r == EnclosingPair(t, d, p)
  {
    if count == 1 then
      EnclosingPair(t, d, p)
    else
      var (o, c) :- NthPair(t, d, p, count - 1);
      OuterPair(t, d, o, c)
  }

  /** An opening delimiter at o' that is matched at or after p leaves t[o'..p] with an unmatched opening delimiter. */
  lemma OpensAcross(t: string, d: Delims, o': nat, c': nat, p: nat)
    requires Matched(t, d, o', c') && o' < p <= c'
    ensures Net(t, d, o', p) >= 1
  {
    NetSplit(t, d, o', o' + 1, p);
    assert Net(t, d, o', o' + 1) == 1 by {
      assert Net(t, d, o' + 1, o' + 1) == 0;
    }
  }

  /** A closing delimiter at c' whose pair opens before q leaves t[q..c' + 1] with an unmatched closing delimiter. */
  lemma ClosesAcross(t: string, d: Delims, o': nat, c': nat, q: nat)
    requires Distinct(d) && Matched(t, d, o', c') && o' < q <= c'
    ensures Net(t, d, q, c' + 1) <= -1
  {
    NetSplit(t, d, o' + 1, q, c');
    NetSnoc(t, d, q, c');
  }

  /** Matched pairs nest: a pair that opens inside another closes inside it too, and one opening delimiter has one closing partner. */
  lemma PairsNest(t: string, d: Delims, o: nat, c: nat, o': nat, c': nat)
    requires Distinct(d) && Matched(t, d, o, c) && Matched(t, d, o', c') && o <= o' <= c
    ensures o < o' < c' < c || (o' == o && c' == c)
  {
    if o == o' {
      NetSnoc(t, d, o + 1, c);
      NetSnoc(t, d, o + 1, c');
    } else {
      ClosesAcross(t, d, o, c, o');
      NetSplit(t, d, o', o' + 1, c' + 1);
      assert Net(t, d, o', o' + 1) == 1 by {
        assert Net(t, d, o' + 1, o' + 1) == 0;
      }
      NetSnoc(t, d, o' + 1, c');
    }
  }

  /** Of two matched pairs around the same offset, one lies within the other. */
  lemma PairsAroundNest(t: string, d: Delims, p: nat, o: nat, c: nat, o': nat, c': nat)
    requires Distinct(d) && Matched(t, d, o, c) && Matched(t, d, o', c') && o <= p <= c && o' <= p <= c'
    ensures (o, c) == (o', c') || (o < o' && c' < c) || (o' < o && c < c')
  {
    if o <= o' {
      PairsNest(t, d, o, c, o', c');
    } else {
      PairsNest(t, d, o', c', o, c);
    }
  }

  /**
   * The pair EnclosingPair chooses is the innermost one: every matched
   * pair around p encloses it or is it.
   */
  lemma EnclosingPairInnermost(t: string, d: Delims, p: nat, o': nat, c': nat)
    requires Distinct(d) && p <= |t| && EnclosingPair(t, d, p).Some?
    requires Matched(t, d, o', c') && o' <= p <= c'
    ensures o' <= EnclosingPair(t, d, p).value.0 && EnclosingPair(t, d, p).value.1 <= c'
  {
    var (o, c) := EnclosingPair(t, d, p).value;
    if p < |t| && t[p] in d.opens {
      assert c == CloseFrom(t, d, p + 1).value;
      ClosesAcross(t, d, o', c', p + 1);
    } else if p < |t| && t[p] in d.closes {
      assert o == OpenBefore(t, d, p).value;
      OpensAcross(t, d, o', c', p);
    } else {
      assert o == OpenBefore(t, d, p).value && c == CloseFrom(t, d, p).value;
      OpensAcross(t, d, o', c', p);
      ClosesAcross(t, d, o', c', p);
    }
  }

  /** When some matched pair lies around p, EnclosingPair finds a pair. */
  lemma EnclosingPairFound(t: string, d: Delims, p: nat, o': nat, c': nat)
    requires Distinct(d) && p <= |t|
    requires Matched(t, d, o', c') && o' <= p <= c'
    ensures EnclosingPair(t, d, p).Some?
  {
    if p < |t| && t[p] in d.opens {
      ClosesAcross(t, d, o', c', p + 1);
    } else {
      OpensAcross(t, d, o', c', p);
      ClosesAcross(t, d, o', c', p);
    }
  }

  /**
   * OuterPair finds the next pair out: any matched pair strictly around
   * (o, c) makes it succeed, and encloses or is the pair it returns.
   */
  lemma OuterPairNext(t: string, d: Delims, o: nat, c: nat, o': nat, c': nat)
    requires Distinct(d) && Matched(t, d, o, c)
    requires Matched(t, d, o', c') && o' < o && c < c'
    ensures OuterPair(t, d, o, c).Some?
    ensures o' <= OuterPair(t, d, o, c).value.0 && OuterPair(t, d, o, c).value.1 <= c'
  {
    OpensAcross(t, d, o', c', o);
    ClosesAcross(t, d, o', c', c + 1);
  }

  /** Each level out strictly encloses the level before it. */
  lemma NthPairNests(t: string, d: Delims, p: nat, count: nat)
    requires Distinct(d) && p <= |t| && count > 1 && NthPair(t, d, p, count).Some?
    ensures NthPair(t, d, p, count - 1).Some?
    ensures NthPair(t, d, p, count).value.0 < NthPair(t, d, p, count - 1).value.0
    ensures NthPair(t, d, p, count - 1).value.1 < NthPair(t, d, p, count).value.1
  {
  }

  /**
   * The pairs around p, from the innermost out, are NthPair with count 1,
   * 2, ...: any matched pair around p that NthPair(count) lies within is
   * NthPair(j) for some j up to count.
   */
  lemma {:induction false} NthPairLevels(t: string, d: Delims, p: nat, count: nat, o': nat, c': nat)
    requires Distinct(d) && p <= |t| && count >= 1 && NthPair(t, d, p, count).Some?
    requires Matched(t, d, o', c') && o' <= p <= c'
    requires NthPair(t, d, p, count).value.0 <= o' && c' <= NthPair(t, d, p, count).value.1
    ensures exists j | 1 <= j <= count :: NthPair(t, d, p, j) == Some((o', c'))
    decreases count
  {
    var (o, c) := NthPair(t, d, p, count).value;
    if count == 1 {
      EnclosingPairInnermost(t, d, p, o', c');
      assert NthPair(t, d, p, 1) == Some((o', c'));
    } else if (o', c') == (o, c) {
      assert NthPair(t, d, p, count) == Some((o', c'));
    } else {
      var (o1, c1) := NthPair(t, d, p, count - 1).value;
      PairsNest(t, d, o, c, o', c');
      PairsAroundNest(t, d, p, o1, c1, o', c');
      if o' < o1 && c1 < c' {
        OuterPairNext(t, d, o1, c1, o', c');
        assert false;
      }
      NthPairLevels(t, d, p, count - 1, o', c');
    }
  }

  /**
   * With a matched pair around p that strictly encloses NthPair(count),
   * NthPair(count + 1) exists and lies within that pair.
   */
  lemma NthPairOutward(t: string, d: Delims, p: nat, count: nat, o': nat, c': nat)
    requires Distinct(d) && p <= |t| && count >= 1 && NthPair(t, d, p, count).Some?
    requires Matched(t, d, o', c') && o' < NthPair(t, d, p, count).value.0 && NthPair(t, d, p, count).value.1 < c'
    ensures NthPair(t, d, p, count + 1).Some?
    ensures o' <= NthPair(t, d, p, count + 1).value.0 && NthPair(t, d, p, count + 1).value.1 <= c'
  {
    var (o, c) := NthPair(t, d, p, count).value;
    OuterPairNext(t, d, o, c, o', c');
  }

  /** A range of offsets [start, end) of the buffer's text. */
  datatype Range = Range(start: nat, end: nat)

  /** The offset of the last line break before c and at or after a, if any. */
  function LastBreak(t: string, a: nat, c: nat): (r: Option<nat>)
    requires a <= c <= |t|
    ensures r.Some? ==> a <= r.value < c && t[r.value] == '\n' && forall k | r.value < k < c :: t[k] != '\n'
    ensures r.None? ==> forall k | a <= k < c :: t[k] != '\n'
    decreases c - a
  {
    if c == a then None
    else if t[c - 1] == '\n' then Some(c - 1)
    else LastBreak(t, a, c - 1)
  }

  predicate AllBlank(t: string, a: nat, b: nat)
    requires a <= b <= |t|
  {
    forall k | a <= k < b :: IsBlank(t[k])
  }

  /**
   * The text between a matched pair, as `i(` takes it: a line break right
   * after the opening delimiter is left out, and so are the line break and
   * indentation before a closing delimiter that starts its line.
   */
  function Inner(t: string, d: Delims, o: nat, c: nat): (r: Range)
    requires Distinct(d) && Matched(t, d, o, c)
    ensures o < r.start <= r.end <= c
    ensures r.start == (if t[o + 1] == '\n' then o + 2 else o + 1)
    ensures r.end < c ==> t[r.end] == '\n' && AllBlank(t, r.end + 1, c)
    ensures r.end == c ==> forall nl | r.start <= nl < c && t[nl] == '\n' :: !AllBlank(t, nl + 1, c)
  {
    var start := if t[o + 1] == '\n' then o + 2 else o + 1;
    match LastBreak(t, start, c)
    case Some(nl) =>
      if AllBlank(t, nl + 1, c) then
        Range(start, nl)
      else
        assert forall m | start <= m < c && t[m] == '\n' :: m <= nl;
        assert forall m | start <= m < nl && t[m] == '\n' :: !AllBlank(t, m + 1, c) by {
          forall m | start <= m < nl && t[m] == '\n' ensures !AllBlank(t, m + 1, c) {
            var w :| nl + 1 <= w < c && !IsBlank(t[w]);
            assert m + 1 <= w;
          }
        }
        Range(start, c)
    case None => Range(start, c)
  }

  /**
   * `[count]i(` and `[count]a(` for the delimiters d at offset p: the inner
   * text of the count-th pair, or the pair itself. None when there is no
   * such pair.
   */
  function BracketObject(t: string, d: Delims, p: nat, around: bool, count: nat): (r: Option<Range>)
    requires Distinct(d) && p <= |t| && count >= 1
    ensures r.None? <==> NthPair(t, d, p, count).None?
    ensures r.Some? ==>
      var (o, c) := NthPair(t, d, p, count).value;
      && (around ==> r.value == Range(o, c + 1))
      && (!around ==> r.value == Inner(t, d, o, c))
  {
    var (o, c) :- NthPair(t, d, p, count);
    if around then Some(Range(o, c + 1)) else Some(Inner(t, d, o, c))
  }

  /** `a(` covers exactly a balanced piece of text from an opening to a closing delimiter. */
  lemma AroundIsBalanced(t: string, d: Delims, p: nat, count: nat)
    requires Distinct(d) && p <= |t| && count >= 1
    requires BracketObject(t, d, p, true, count).Some?
    ensures var r := BracketObject(t, d, p, true, count).value;
      && r.start < r.end <= |t|
      && t[r.start] in d.opens && t[r.end - 1] in d.closes
      && Net(t, d, r.start, r.end) == 0 && PrefixesOpen(t, d, r.start, r.end)
  {
    var (o, c) := NthPair(t, d, p, count).value;
    PairBalanced(t, d, o, c);
  }

  /** With no opening delimiter at or before the cursor, there is no pair around it. */
  lemma NoOpenNoPair(t: string, d: Delims, p: nat)
    requires Distinct(d) && p <= |t|
    requires forall k | 0 <= k <= p && k < |t| :: t[k] !in d.opens
    ensures EnclosingPair(t, d, p).None?
  {
  }
}
