/**
 * The two motions the count scenarios use, over the buffer's text: `w`
 * (to the start of the next word) and a forward search for a literal
 * pattern (`/pattern<CR>`). Positions are offsets of the text; the offset
 * of a line break stands for the end of its line.
 */
module Motions {
  import opened Wrappers
  import opened Buffer

  /** Character classes for words: 0 white space, 1 keyword characters, 2 other. */
  function Class(c: char): (k: nat)
    ensures k <= 2 && (k == 0 <==> IsWhite(c))
  {
    if IsWhite(c) then 0
    else if 'a' <= c <= 'z' || 'A' <= c <= 'Z' || '0' <= c <= '9' || c == '_' then 1
    else 2
  }

  /** The class at an offset: the end of a line counts as white space. */
  function ClassAt(t: string, p: nat): nat
    requires p <= |t|
  {
    if p == |t| then 0 else Class(t[p])
  }

  /** How one step forward went: within a line, onto the end of a line, onto the next line, or nowhere. */
  datatype Moved = Within | OntoLineEnd | NextLine | AtEnd

  /** One character forward; the end of a line is a place of its own. */
  function Advance(t: string, p: nat): (r: (nat, Moved))
    requires p <= |t|
    ensures r.1 == AtEnd <==> p == |t|
    ensures r.1 != AtEnd ==> r.0 == p + 1
    ensures r.1 == AtEnd ==> r.0 == p
    ensures r.1 == NextLine ==> t[p] == '\n'
    ensures r.1 == OntoLineEnd ==> t[p] != '\n' && (r.0 == |t| || t[r.0] == '\n')
    ensures r.1 == Within ==> t[p] != '\n' && r.0 < |t| && t[r.0] != '\n'
  {
    if p == |t| then (p, AtEnd)
    else if t[p] == '\n' then (p + 1, NextLine)
    else if p + 1 == |t| || t[p + 1] == '\n' then (p + 1, OntoLineEnd)
    else (p + 1, Within)
  }

  /** An offset at the start of an empty line. */
  predicate EmptyLineAt(t: string, p: nat)
    requires p <= |t|
  {
    (p == 0 || t[p - 1] == '\n') && (p == |t| || t[p] == '\n')
  }

  /**
   * Skip the rest of a word of class k. With `eol` (the last step of a
   * motion an operator waits for) the step ends as soon as it reaches the
   * end of the line; the flag says whether it ended that way.
   */
  function SkipClass(t: string, p: nat, k: nat, eol: bool): (r: (nat, bool))
    requires p <= |t| && k != 0
    ensures p <= r.0 <= |t|
    ensures forall j | p <= j < r.0 :: Class(t[j]) == k
    ensures !r.1 ==> ClassAt(t, r.0) != k
    ensures r.1 ==> eol && r.0 > p && (r.0 == |t| || t[r.0] == '\n')
    ensures eol && !r.1 && r.0 > p ==> r.0 < |t| && t[r.0] != '\n'
    decreases |t| - p
  {
    if ClassAt(t, p) != k then (p, false)
    else
      var (p1, m) := Advance(t, p);
      if m != Within && eol then (p1, true) else SkipClass(t, p1, k, eol)
  }

  /** Skip white space up to the next word, stopping on an empty line (and, with `eol`, at a line end). */
  function SkipWhite(t: string, p: nat, eol: bool): (q: nat)
    requires p <= |t|
    ensures p <= q <= |t|
    ensures forall j | p <= j < q :: IsWhite(t[j]) && !EmptyLineAt(t, j)
    ensures !eol ==> q == |t| || ClassAt(t, q) != 0 || EmptyLineAt(t, q)
    ensures eol ==> forall j | p < j < q :: t[j] != '\n'
    decreases |t| - p
  {
    if ClassAt(t, p) != 0 || EmptyLineAt(t, p) then p
    else
      var (p1, m) := Advance(t, p);
      if m == AtEnd || (m != Within && eol) then p1 else SkipWhite(t, p1, eol)
  }

  /**
   * One `w` step from offset p: always at least one character on, then past
   * the rest of the word the step started in, then past white space. A
   * step that reaches the end of the text stops there.
   */
  function WordStep(t: string, p: nat, eol: bool): (q: nat)
    requires p <= |t|
    ensures p <= q <= |t|
    ensures p < |t| ==> p < q
    ensures eol ==> forall j | p < j < q :: t[j] != '\n'
  {
    var k := ClassAt(t, p);
    var (p1, m) := Advance(t, p);
    if m == AtEnd || (m != Within && (eol || p1 == |t|)) then p1
    else
      var (p2, done) := if k != 0 then SkipClass(t, p1, k, eol) else (p1, false);
      if done then p2 else SkipWhite(t, p2, eol)
  }

  /**
   * Where a `w` step may stop: the first character of a word (its class
   * differs from the character before, a line break counting as white
   * space) or an empty line.
   */
  predicate WordStart(t: string, q: nat)
    requires 0 < q <= |t|
  {
    q < |t| && ((Class(t[q]) != 0 && Class(t[q]) != Class(t[q - 1])) || EmptyLineAt(t, q))
  }

  /** A `w` step with no operator waiting goes to the next word start, or to the end of the text. */
  lemma WordStepNextStart(t: string, p: nat)
    requires p < |t|
    ensures var q := WordStep(t, p, false);
      && (q == |t| || WordStart(t, q))
      && forall j | p < j < q :: !WordStart(t, j)
  {
    var k := ClassAt(t, p);
    var (p1, m) := Advance(t, p);
    var q := WordStep(t, p, false);
    if m != Within && p1 == |t| {
    } else {
      var (p2, done) := if k != 0 then SkipClass(t, p1, k, false) else (p1, false);
      assert q == SkipWhite(t, p2, false);
      forall j | p < j < q ensures !WordStart(t, j) {
        if j < p2 {
          assert Class(t[j]) == k && Class(t[j - 1]) == k;
        }
      }
    }
  }

  /**
   * With an operator waiting, the last step ends where the plain step
   * would, unless it reaches the end of a line first: it never crosses a
   * line break.
   */
  lemma WordStepAtLineEnd(t: string, p: nat)
    requires p < |t|
    ensures var q := WordStep(t, p, true);
      && q <= WordStep(t, p, false)
      && (q == WordStep(t, p, false) || q == |t| || t[q] == '\n' || (q == p + 1 && t[p] == '\n'))
  {
    var k := ClassAt(t, p);
    var (p1, m) := Advance(t, p);
    if m == Within && k != 0 {
      SkipClassAtLineEnd(t, p1, k);
      var (a, da) := SkipClass(t, p1, k, true);
      var (b, db) := SkipClass(t, p1, k, false);
      if !da {
        SkipWhiteAtLineEnd(t, a);
      }
    } else if m == Within {
      SkipWhiteAtLineEnd(t, p1);
    }
  }

  lemma {:induction false} SkipClassAtLineEnd(t: string, p: nat, k: nat)
    requires p <= |t| && k != 0
    ensures var (a, da) := SkipClass(t, p, k, true);
      var (b, db) := SkipClass(t, p, k, false);
      a <= b && !db && (!da ==> a == b)
    decreases |t| - p
  {
    if ClassAt(t, p) == k {
      var (p1, m) := Advance(t, p);
      if m == Within {
        SkipClassAtLineEnd(t, p1, k);
      }
    }
  }

  lemma {:induction false} SkipWhiteAtLineEnd(t: string, p: nat)
    requires p <= |t|
    ensures var a := SkipWhite(t, p, true);
      && a <= SkipWhite(t, p, false)
      && (a == SkipWhite(t, p, false) || a == |t| || t[a] == '\n' || (a == p + 1 && t[p] == '\n'))
    decreases |t| - p
  {
    if ClassAt(t, p) == 0 && !EmptyLineAt(t, p) {
      var (p1, m) := Advance(t, p);
      if m == Within {
        SkipWhiteAtLineEnd(t, p1);
      }
    }
  }

  /**
   * `[count]w`: count steps. When an operator waits for the motion, the
   * last step stops at the end of its line instead of moving on to the
   * next line.
   */
  function WordForward(t: string, p: nat, count: nat, pending: bool): (q: nat)
    requires p <= |t|
    ensures p <= q <= |t|
    ensures count > 0 && p < |t| ==> p < q
    decreases count
  {
    if count == 0 then p
    else WordForward(t, WordStep(t, p, pending && count == 1), count - 1, pending)
  }

  /** The number of word starts at offsets a, a + 1, …, b - 1 (zero when a >= b). */
  function StartsIn(t: string, a: nat, b: nat): (n: nat)
    requires b <= |t|
    ensures n <= if a < b then b - a else 0
    decreases if a < b then b - a else 0
  {
    if a >= b then 0
    else (if 0 < a && WordStart(t, a) then 1 else 0) + StartsIn(t, a + 1, b)
  }

  lemma {:induction false} StartsInSplit(t: string, a: nat, m: nat, b: nat)
    requires a <= m <= b <= |t|
    ensures StartsIn(t, a, b) == StartsIn(t, a, m) + StartsIn(t, m, b)
    decreases m - a
  {
    if a < m {
      StartsInSplit(t, a + 1, m, b);
    }
  }

  lemma {:induction false} StartsInNone(t: string, a: nat, b: nat)
    requires 0 < a && b <= |t|
    requires forall j | a <= j < b :: !WordStart(t, j)
    ensures StartsIn(t, a, b) == 0
    decreases if a < b then b - a else 0
  {
    if a < b {
      StartsInNone(t, a + 1, b);
    }
  }

  /**
   * `[count]w` with no operator waiting lands on a word start or at the end
   * of the text, passing count - 1 word starts on the way: it lands on the
   * count-th word start after p. Only the end of the text stops it earlier.
   */
  lemma {:induction false} WordForwardCounts(t: string, p: nat, count: nat)
    requires p <= |t| && count >= 1
    ensures var q := WordForward(t, p, count, false);
      && (q == |t| || (p < q && WordStart(t, q)))
      && StartsIn(t, p + 1, q) <= count - 1
      && (q < |t| ==> StartsIn(t, p + 1, q) == count - 1)
    decreases count
  {
    var q := WordForward(t, p, count, false);
    if p == |t| {
      assert q == p;
    } else {
      var q1 := WordStep(t, p, false);
      WordStepNextStart(t, p);
      StartsInNone(t, p + 1, q1);
      assert q == WordForward(t, q1, count - 1, false);
      if count > 1 {
        WordForwardCounts(t, q1, count - 1);
        if q1 < q {
          StartsInSplit(t, p + 1, q1, q);
          assert StartsIn(t, q1, q) == 1 + StartsIn(t, q1 + 1, q);
        }
      }
    }
  }

  /**
   * With an operator waiting, `[count]w` takes count - 1 plain steps and
   * then one step that stops at the end of its line.
   */
  lemma {:induction false} WordForwardPending(t: string, p: nat, count: nat)
    requires p <= |t| && count >= 1
    ensures WordForward(t, p, count, true) == WordStep(t, WordForward(t, p, count - 1, false), true)
    decreases count
  {
    if count > 1 {
      WordForwardPending(t, WordStep(t, p, false), count - 1);
    }
  }

  /** The pattern occurs at offset i, character for character. */
  predicate MatchAt(t: string, pat: string, i: nat) {
    i + |pat| <= |t| && t[i..i + |pat|] == pat
  }

  /** The first occurrence at or after i and before e. */
  function FirstMatch(t: string, pat: string, i: nat, e: nat): (r: Option<nat>)
    requires i <= e
    ensures r.Some? ==> i <= r.value < e && MatchAt(t, pat, r.value)
    ensures r.Some? ==> forall j | i <= j < r.value :: !MatchAt(t, pat, j)
    ensures r.None? ==> forall j | i <= j < e :: !MatchAt(t, pat, j)
    decreases e - i
  {
    if i == e then None
    else if MatchAt(t, pat, i) then Some(i)
    else FirstMatch(t, pat, i + 1, e)
  }

  /**
   * i is the first occurrence after offset p in the order a search visits
   * the text: on from p + 1 to the end, then from the start up to p.
   */
  predicate NextAfter(t: string, pat: string, p: nat, i: nat) {
    && MatchAt(t, pat, i)
    && (i > p ==> forall j | p < j < i :: !MatchAt(t, pat, j))
    && (i <= p ==> (forall j | p < j <= |t| :: !MatchAt(t, pat, j)) && forall j | 0 <= j < i :: !MatchAt(t, pat, j))
  }

  /**
   * The next occurrence after offset p, wrapping around to the start of the
   * text when there is none after p; None when the pattern does not occur.
   */
  function NextMatch(t: string, pat: string, p: nat): (r: Option<nat>)
    requires p <= |t|
    ensures r.Some? ==> NextAfter(t, pat, p, r.value)
    ensures r.None? <==> forall j | 0 <= j <= |t| :: !MatchAt(t, pat, j)
  {
    match FirstMatch(t, pat, p + 1, |t| + 1)
    case Some(i) => Some(i)
    case None => FirstMatch(t, pat, 0, p + 1)
  }

  /** At most one occurrence comes next after p: the search is deterministic. */
  lemma NextAfterUnique(t: string, pat: string, p: nat, i: nat, k: nat)
    requires NextAfter(t, pat, p, i) && NextAfter(t, pat, p, k)
    ensures i == k
  {
  }

  /** Whatever offset comes next after p is the one NextMatch finds. */
  lemma NextMatchFinds(t: string, pat: string, p: nat, i: nat)
    requires p <= |t| && NextAfter(t, pat, p, i)
    ensures NextMatch(t, pat, p) == Some(i)
  {
    assert i + |pat| <= |t|;
    NextAfterUnique(t, pat, p, NextMatch(t, pat, p).value, i);
  }

  /**
   * `[count]/pattern`: the count-th occurrence in turn, each one the next
   * after the previous, wrapping around the end of the text.
   */
  function SearchForward(t: string, pat: string, p: nat, count: nat): (r: Option<nat>)
    requires p <= |t|
    ensures r.Some? ==> r.value <= |t|
    ensures r.Some? && count >= 1 ==> MatchAt(t, pat, r.value)
    ensures count >= 1 ==> (r.None? <==> forall j | 0 <= j <= |t| :: !MatchAt(t, pat, j))
    ensures count == 1 && r.Some? ==> NextAfter(t, pat, p, r.value)
    decreases count
  {
    if count == 0 then Some(p)
    else
      match NextMatch(t, pat, p)
      case None => None
      case Some(i) =>
        assert i <= |t| by {
          assert i + |pat| <= |t|;
        }
        SearchForward(t, pat, i, count - 1)
  }

  /**
   * Counts compose: searching a + b times is searching a times, then b
   * times on from where the first search stopped.
   */
  lemma {:induction false} SearchCompose(t: string, pat: string, p: nat, a: nat, b: nat)
    requires p <= |t|
    ensures SearchForward(t, pat, p, a + b) ==
      match SearchForward(t, pat, p, a)
      case None => None
      case Some(q) => SearchForward(t, pat, q, b)
    decreases a
  {
    if a > 0 {
      match NextMatch(t, pat, p)
      case None =>
      case Some(i) =>
        assert i + |pat| <= |t|;
        SearchCompose(t, pat, i, a - 1, b);
    }
  }

  /**
   * With the pattern at one offset only, every count lands there: the
   * search wraps around to it each time.
   */
  lemma {:induction false} SearchSingle(t: string, pat: string, p: nat, i: nat, count: nat)
    requires p <= |t| && count >= 1 && MatchAt(t, pat, i)
    requires forall j | 0 <= j <= |t| && j != i :: !MatchAt(t, pat, j)
    ensures SearchForward(t, pat, p, count) == Some(i)
    decreases count
  {
    NextMatchFinds(t, pat, p, i);
    assert i + |pat| <= |t|;
    if count > 1 {
      SearchSingle(t, pat, i, i, count - 1);
    }
  }
}
