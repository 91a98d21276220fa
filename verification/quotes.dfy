/**
 * Quote text objects `i"` / `a"` (and the `'` and backquote variants). They
 * look at the cursor's line only. A backslash escapes the character after
 * it, so an escaped quote does not delimit and an escaped backslash escapes
 * nothing. The unescaped quotes pair up from the start of the line, first
 * with second, third with fourth, and the object is the first pair that
 * closes at or after the cursor: the one around the cursor or the next one
 * to its right.
 */
module Quotes {
  import opened Wrappers
  import opened Buffer

  predicate IsQuoteChar(q: char) {
    q == '"' || q == '\'' || q == '`'
  }

  /** Reference definition: s[i] follows a backslash that is not itself escaped. */
  predicate Escaped(s: string, i: nat)
    requires i <= |s|
    decreases i
  {
    i > 0 && s[i - 1] == '\\' && !Escaped(s, i - 1)
  }

  /** An unescaped quote character q at column i. */
  predicate QuoteAt(s: string, q: char, i: nat) {
    i < |s| && s[i] == q && !Escaped(s, i)
  }

  /**
   * The columns of the unescaped quotes at or after column i, found in one
   * left-to-right pass that carries whether the current character is escaped.
   */
  function QuotesFrom(s: string, q: char, i: nat, esc: bool): (ps: seq<nat>)
    requires i <= |s| && esc == Escaped(s, i)
    ensures Increasing(ps)
    ensures forall k | 0 <= k < |ps| :: i <= ps[k] < |s| && QuoteAt(s, q, ps[k])
    ensures forall k | i <= k <= |s| && QuoteAt(s, q, k) :: k in ps
    decreases |s| - i
  {
    if i == |s| then
      []
    else
      var rest := QuotesFrom(s, q, i + 1, s[i] == '\\' && !esc);
      if s[i] == q && !esc then [i] + rest else rest
  }

  /**
   * The unescaped quotes from column i, found another way: a backslash and
   * the character after it are passed over together. This is how the quote
   * columns are computed.
   */
  function QuotesSkipping(s: string, q: char, i: nat): seq<nat>
    decreases |s| - i
  {
    if i >= |s| then []
    else if s[i] == '\\' then QuotesSkipping(s, q, i + 2)
    else if s[i] == q then [i] + QuotesSkipping(s, q, i + 1)
    else QuotesSkipping(s, q, i + 1)
  }

  /** Passing over escaped characters finds the same quotes as the pass that carries the escape flag. */
  lemma {:induction false} SkippingFindsQuotes(s: string, q: char, i: nat)
    requires i <= |s| && !Escaped(s, i) && q != '\\'
    ensures QuotesSkipping(s, q, i) == QuotesFrom(s, q, i, false)
    decreases |s| - i
  {
    if i < |s| {
      if s[i] == '\\' {
        assert QuotesFrom(s, q, i, false) == QuotesFrom(s, q, i + 1, true);
        if i + 1 < |s| {
          assert QuotesFrom(s, q, i + 1, true) == QuotesFrom(s, q, i + 2, false);
          SkippingFindsQuotes(s, q, i + 2);
        }
      } else {
        SkippingFindsQuotes(s, q, i + 1);
      }
    }
  }

  /** All unescaped quotes q of the line, left to right. */
  function QuoteColumns(s: string, q: char): seq<nat>
    requires IsQuoteChar(q)
  {
    QuotesSkipping(s, q, 0)
  }

  /** The columns listed are exactly those of the unescaped quotes, in increasing order. */
  lemma QuoteColumnsExact(s: string, q: char)
    requires IsQuoteChar(q)
    ensures var ps := QuoteColumns(s, q);
      && Increasing(ps)
      && (forall k | 0 <= k < |ps| :: QuoteAt(s, q, ps[k]))
      && (forall k | 0 <= k <= |s| :: QuoteAt(s, q, k) <==> k in ps)
  {
    SkippingFindsQuotes(s, q, 0);
  }

  /** A pair of quotes: the j-th pair of the line, opening at `open`, closing at `close`. */
  datatype QuotePair = QuotePair(index: nat, open: nat, close: nat)

  /** The first pair, counting from pair j, whose closing quote is at or after col. */
  function PairFrom(ps: seq<nat>, col: nat, j: nat): (r: Option<QuotePair>)
    requires Increasing(ps)
    ensures r.None? <==> forall k | j <= k && 2 * k + 1 < |ps| :: ps[2 * k + 1] < col
    ensures r.Some? ==>
      var p := r.value;
      && j <= p.index && 2 * p.index + 1 < |ps|
      && p.open == ps[2 * p.index] && p.close == ps[2 * p.index + 1]
      && p.close >= col
      && forall k | j <= k < p.index :: ps[2 * k + 1] < col
    decreases |ps| - 2 * j
  {
    if 2 * j + 1 >= |ps| then
      None
    else if ps[2 * j + 1] >= col then
      Some(QuotePair(j, ps[2 * j], ps[2 * j + 1]))
    else
      PairFrom(ps, col, j + 1)
  }

  /**
   * The quote pair the object works on: the unescaped quotes pair up from
   * the start of the line; the first pair that closes at or after the
   * cursor column. None when every pair closes before the cursor (also when
   * the cursor sits on an unmatched last quote).
   */
  function EnclosingQuotes(s: string, col: nat, q: char): Option<QuotePair>
    requires IsQuoteChar(q)
  {
    QuoteColumnsExact(s, q);
    PairFrom(QuoteColumns(s, q), col, 0)
  }

  /**
   * None exactly when every pair closes before col; otherwise it is the
   * first pair, in the pairing of the line's unescaped quotes as first with
   * second, third with fourth and so on, that closes at or after col: its
   * quotes are consecutive unescaped quotes, and every quote before it lies
   * before col.
   */
  lemma EnclosingQuotesPair(s: string, col: nat, q: char)
    requires IsQuoteChar(q)
    ensures var ps := QuoteColumns(s, q);
      EnclosingQuotes(s, col, q).None? <==> forall k | 0 <= k && 2 * k + 1 < |ps| :: ps[2 * k + 1] < col
    ensures EnclosingQuotes(s, col, q).Some? ==>
      var ps := QuoteColumns(s, q);
      var p := EnclosingQuotes(s, col, q).value;
      && 2 * p.index + 1 < |ps| && p.open == ps[2 * p.index] && p.close == ps[2 * p.index + 1]
      && (forall k | 0 <= k < p.index :: ps[2 * k + 1] < col)
    ensures EnclosingQuotes(s, col, q).Some? ==>
      var p := EnclosingQuotes(s, col, q).value;
      && p.open < p.close < |s| && p.close >= col
      && QuoteAt(s, q, p.open) && QuoteAt(s, q, p.close)
      && (forall k | p.open < k < p.close :: !QuoteAt(s, q, k))
      && (forall k | 0 <= k < p.open && QuoteAt(s, q, k) :: k < col)
  {
    var ps := QuoteColumns(s, q);
    QuoteColumnsExact(s, q);
    var r := PairFrom(ps, col, 0);
    assert EnclosingQuotes(s, col, q) == r;
    if r.Some? {
      PairFacts(s, q, ps, col, r.value);
    }
  }

  /** The chosen pair's quotes are consecutive, and every quote before them lies before col. */
  lemma PairFacts(s: string, q: char, ps: seq<nat>, col: nat, p: QuotePair)
    requires Increasing(ps) && forall k | 0 <= k <= |s| && QuoteAt(s, q, k) :: k in ps
    requires 2 * p.index + 1 < |ps| && p.open == ps[2 * p.index] && p.close == ps[2 * p.index + 1]
    requires forall k | 0 <= k < p.index :: ps[2 * k + 1] < col
    ensures forall k | p.open < k < p.close :: !QuoteAt(s, q, k)
    ensures forall k | 0 <= k < p.open && QuoteAt(s, q, k) :: k < col
  {
    var a := 2 * p.index;
    forall k | p.open < k < p.close ensures !QuoteAt(s, q, k) {
      if QuoteAt(s, q, k) {
        assert k in ps;
        NothingBetween(ps, a, k);
      }
    }
    forall k | 0 <= k < p.open && QuoteAt(s, q, k) ensures k < col {
      assert k in ps;
      NothingBetween(ps, a - 1, k);
      assert ps[2 * (p.index - 1) + 1] < col;
    }
  }

  /** No element of an increasing sequence lies strictly between two neighbours. */
  lemma NothingBetween(ps: seq<nat>, a: int, x: nat)
    requires Increasing(ps) && x in ps && -1 <= a && a + 1 < |ps|
    ensures a >= 0 ==> !(ps[a] < x < ps[a + 1])
    ensures x < ps[a + 1] ==> a >= 0 && x <= ps[a]
  {
    var m :| 0 <= m < |ps| && ps[m] == x;
    if m <= a {
      assert ps[m] <= ps[a];
    } else {
      assert ps[m] >= ps[a + 1];
    }
  }

  /** A range of columns [start, end) of the line. */
  datatype Span = Span(start: nat, end: nat)

  /** The end of the run of blanks that starts at column i. */
  function BlanksAfter(s: string, i: nat): (e: nat)
    requires i <= |s|
    ensures i <= e <= |s| && (forall k | i <= k < e :: IsBlank(s[k]))
    ensures e == |s| || !IsBlank(s[e])
    decreases |s| - i
  {
    if i == |s| || !IsBlank(s[i]) then i else BlanksAfter(s, i + 1)
  }

  /** The start of the run of blanks that ends at column i. */
  function BlanksBefore(s: string, i: nat): (b: nat)
    requires i <= |s|
    ensures b <= i && (forall k | b <= k < i :: IsBlank(s[k]))
    ensures b == 0 || !IsBlank(s[b - 1])
  {
    if i == 0 || !IsBlank(s[i - 1]) then i else BlanksBefore(s, i - 1)
  }

  /**
   * `i"` is the text between the quotes; with a count of 2 or more it is
   * the quoted text including the quotes. `a"` is the quoted text with the
   * quotes and the blanks after it up to the next non-blank or the end of
   * the line; when no blank follows, the blanks before it instead.
   */
  function QuoteObject(s: string, col: nat, q: char, around: bool, count: nat): (r: Option<Span>)
    requires IsQuoteChar(q)
    ensures r.None? <==> EnclosingQuotes(s, col, q).None?
    ensures r.Some? ==> r.value.start <= r.value.end <= |s|
  {
    EnclosingQuotesPair(s, col, q);
    var p :- EnclosingQuotes(s, col, q);
    if !around then
      if count < 2 then Some(Span(p.open + 1, p.close)) else Some(Span(p.open, p.close + 1))
    else
      var e := BlanksAfter(s, p.close + 1);
      if e > p.close + 1 then Some(Span(p.open, e))
      else Some(Span(BlanksBefore(s, p.open), p.close + 1))
  }

  /**
   * What the object covers: inside the pair, or the pair with the blanks
   * after it up to the next non-blank, or, when no blank follows, with the
   * blanks before it.
   */
  lemma QuoteObjectSpan(s: string, col: nat, q: char, around: bool, count: nat, p: QuotePair)
    requires IsQuoteChar(q)
    requires EnclosingQuotes(s, col, q) == Some(p)
    ensures p.open < p.close < |s|
    ensures QuoteObject(s, col, q, around, count).Some?
    ensures var sp := QuoteObject(s, col, q, around, count).value;
      && (!around && count < 2 ==> sp == Span(p.open + 1, p.close))
      && (!around && count >= 2 ==> sp == Span(p.open, p.close + 1))
      && (around ==>
           && sp.start <= p.open && p.close + 1 <= sp.end
           && (forall k | sp.start <= k < p.open :: IsBlank(s[k]))
           && (forall k | p.close < k < sp.end :: IsBlank(s[k]))
           && (sp.end == |s| || !IsBlank(s[sp.end]))
           && (sp.end > p.close + 1 ==> sp.start == p.open)
           && (sp.end == p.close + 1 ==> sp.start == 0 || !IsBlank(s[sp.start - 1])))
  {
    EnclosingQuotesPair(s, col, q);
    if around {
      var e := BlanksAfter(s, p.close + 1);
      if e == p.close + 1 {
        var b := BlanksBefore(s, p.open);
        assert QuoteObject(s, col, q, around, count) == Some(Span(b, p.close + 1));
      } else {
        assert QuoteObject(s, col, q, around, count) == Some(Span(p.open, e));
      }
    }
  }

  /** The scan's escape flag agrees with the reference definition at every column. */
  lemma EscapeFlag(s: string, i: nat)
    requires i < |s|
    ensures Escaped(s, i + 1) == (s[i] == '\\' && !Escaped(s, i))
  {
  }

  /** Two backslashes in a row escape nothing: the character after them delimits. */
  lemma EscapedBackslash(s: string, i: nat)
    requires i + 2 <= |s| && s[i] == '\\' && s[i + 1] == '\\' && !Escaped(s, i)
    ensures !Escaped(s, i + 2)
  {
  }
}
