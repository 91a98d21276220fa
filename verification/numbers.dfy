/**
 * Number literals in a line, as `<C-a>` / `<C-x>` see them: where they are,
 * how they are classified (decimal, octal, hex), their value, and the text
 * that replaces a literal after `count` is added to it.
 */
module Numbers {
  import opened Wrappers

  datatype Radix = Decimal | Octal | Hex

  /**
   * A literal inside a line. [start, end) is the whole literal, a decimal's
   * minus sign and a hex literal's `0x` prefix included; its digits are
   * [digitStart, end).
   */
  datatype Literal = Literal(radix: Radix, start: nat, digitStart: nat, end: nat)
  {
    predicate Negative() {
      radix == Decimal && digitStart == start + 1
    }
  }

  /** Hex and octal literals are unsigned and wrap around at 32 bits. */
  const Modulus: nat := 0x1_0000_0000

  function Min(a: nat, b: nat): nat {
    if a <= b then a else b
  }

  function Max(a: nat, b: nat): nat {
    if a <= b then b else a
  }

  predicate IsDigit(c: char) {
    '0' <= c <= '9'
  }

  predicate IsOctalDigit(c: char) {
    '0' <= c <= '7'
  }

  predicate IsHexDigit(c: char) {
    IsDigit(c) || 'a' <= c <= 'f' || 'A' <= c <= 'F'
  }

  predicate IsDigitOf(r: Radix, c: char) {
    match r
    case Decimal => IsDigit(c)
    case Octal => IsOctalDigit(c)
    case Hex => IsHexDigit(c)
  }

  function Base(r: Radix): nat {
    match r
    case Decimal => 10
    case Octal => 8
    case Hex => 16
  }

  function DigitValue(c: char): (v: nat)
    requires IsHexDigit(c)
    ensures v < 16
  {
    if IsDigit(c) then c as nat - '0' as nat
    else if 'a' <= c <= 'f' then c as nat - 'a' as nat + 10
    else c as nat - 'A' as nat + 10
  }

  /** A letter digit c, if it is one, is upper case when `upper` holds and lower case otherwise. */
  predicate InCase(c: char, upper: bool) {
    if upper then !('a' <= c <= 'f') else !('A' <= c <= 'F')
  }

  /** The character of a digit value, as a lower- or upper-case hex digit. */
  function DigitChar(d: nat, upper: bool): (c: char)
    requires d < 16
    ensures IsHexDigit(c) && DigitValue(c) == d
    ensures d < 10 ==> IsDigit(c)
    ensures InCase(c, upper)
  {
    if d < 10 then ('0' as nat + d) as char
    else if upper then ('A' as nat + d - 10) as char
    else ('a' as nat + d - 10) as char
  }

  /** The value of the digits s[a..b] in the given base, most significant first. */
  function DigitsValue(s: string, a: nat, b: nat, base: nat): nat
    requires a <= b <= |s|
    requires forall k | a <= k < b :: IsHexDigit(s[k])
    decreases b
  {
    if a == b then 0 else DigitsValue(s, a, b - 1, base) * base + DigitValue(s[b - 1])
  }

  /** A `0x` or `0X` prefix followed by a hex digit starts at i. */
  predicate HexStartsAt(s: string, i: nat) {
    i + 2 < |s| && s[i] == '0' && (s[i + 1] == 'x' || s[i + 1] == 'X') && IsHexDigit(s[i + 2])
  }

  /** The end of the run of digits of radix r that starts at i. */
  function RunEnd(r: Radix, s: string, i: nat): (e: nat)
    requires i <= |s|
    ensures i <= e <= |s|
    ensures forall k | i <= k < e :: IsDigitOf(r, s[k])
    ensures e < |s| ==> !IsDigitOf(r, s[e])
    decreases |s| - i
  {
    if i == |s| || !IsDigitOf(r, s[i]) then i else RunEnd(r, s, i + 1)
  }

  /** Digits s[a..b] that read as octal: a leading zero, more than one digit, none above 7. */
  predicate OctalForm(s: string, a: nat, b: nat)
    requires a <= b <= |s|
  {
    b - a > 1 && s[a] == '0' && forall k | a <= k < b :: IsOctalDigit(s[k])
  }

  /**
   * What makes `l` a literal of `s`: its digits are digits of its radix and
   * run up to the first character on the right that is not one, a hex
   * literal carries its prefix, an octal one its leading zero, and a decimal
   * is a digit run that is not octal, together with a minus sign right in
   * front of it if there is one. That a literal also starts where its run
   * starts is a property of the scan, stated by LiteralsBoundary.
   */
  predicate IsLiteral(s: string, l: Literal) {
    && l.start <= l.digitStart < l.end <= |s|
    && (forall k | l.digitStart <= k < l.end :: IsDigitOf(l.radix, s[k]))
    && match l.radix
       case Hex =>
         && l.digitStart == l.start + 2 && s[l.start] == '0'
         && (s[l.start + 1] == 'x' || s[l.start + 1] == 'X')
         && (l.end == |s| || !IsHexDigit(s[l.end]))
       case Octal =>
         && l.digitStart == l.start && OctalForm(s, l.start, l.end)
         && (l.end == |s| || !IsDigit(s[l.end]))
       case Decimal =>
         && (l.end == |s| || !IsDigit(s[l.end]))
         && !OctalForm(s, l.digitStart, l.end)
         && (if l.digitStart == l.start
             then l.start == 0 || s[l.start - 1] != '-'
             else l.digitStart == l.start + 1 && s[l.start] == '-')
  }

  /** The literal a left-to-right scan finds at i, where a hex prefix or a digit sits. */
  function LiteralAt(s: string, i: nat): (l: Literal)
    requires i < |s| && (HexStartsAt(s, i) || IsDigit(s[i]))
    ensures IsLiteral(s, l)
    ensures l.start == i || (l.start + 1 == i && s[i - 1] == '-')
  {
    if HexStartsAt(s, i) then
      Literal(Hex, i, i + 2, RunEnd(Hex, s, i + 2))
    else
      var e := RunEnd(Decimal, s, i);
      if s[i] == '0' && e - i > 1 && RunEnd(Octal, s, i) == e then
        Literal(Octal, i, i, e)
      else if i > 0 && s[i - 1] == '-' then
        Literal(Decimal, i - 1, i, e)
      else
        Literal(Decimal, i, i, e)
  }

  /** The literals of s found by scanning left to right from i. */
  function LiteralsFrom(s: string, i: nat): (lits: seq<Literal>)
    requires i <= |s|
    ensures forall k | 0 <= k < |lits| :: IsLiteral(s, lits[k])
    ensures forall k | 0 <= k < |lits| :: lits[k].start >= i || (lits[k].start + 1 == i && s[i - 1] == '-')
    decreases |s| - i
  {
    if i == |s| then
      []
    else if HexStartsAt(s, i) || IsDigit(s[i]) then
      var l := LiteralAt(s, i);
      var rest := LiteralsFrom(s, l.end);
      ConsLiteral(s, i, l, rest);
      [l] + rest
    else
      LiteralsFrom(s, i + 1)
  }

  /** A literal found at i, followed by the ones found after it, all start at i or later. */
  lemma ConsLiteral(s: string, i: nat, l: Literal, rest: seq<Literal>)
    requires i < l.end <= |s| && IsLiteral(s, l)
    requires l.start == i || (l.start + 1 == i && s[i - 1] == '-')
    requires forall k | 0 <= k < |rest| :: IsLiteral(s, rest[k])
    requires forall k | 0 <= k < |rest| :: rest[k].start >= l.end || (rest[k].start + 1 == l.end && s[l.end - 1] == '-')
    ensures var lits := [l] + rest;
      && (forall k | 0 <= k < |lits| :: IsLiteral(s, lits[k]))
      && (forall k | 0 <= k < |lits| :: lits[k].start >= i || (lits[k].start + 1 == i && s[i - 1] == '-'))
  {
    assert IsDigitOf(l.radix, s[l.end - 1]);
    var lits := [l] + rest;
    assert forall k | 1 <= k < |lits| :: lits[k] == rest[k - 1];
  }

  /** Each literal ends before the next one starts. */
  predicate Ordered(lits: seq<Literal>) {
    forall j, k | 0 <= j < k < |lits| :: lits[j].end <= lits[k].start
  }

  /** The scan finds the literals in order, none overlapping the next. */
  lemma {:induction false} LiteralsOrdered(s: string, i: nat)
    requires i <= |s|
    ensures Ordered(LiteralsFrom(s, i))
    decreases |s| - i
  {
    if i < |s| {
      if HexStartsAt(s, i) || IsDigit(s[i]) {
        var l := LiteralAt(s, i);
        ScanStep(s, i);
        LiteralsOrdered(s, l.end);
        OrderedCons(l, LiteralsFrom(s, l.end));
      } else {
        LiteralsOrdered(s, i + 1);
        assert LiteralsFrom(s, i) == LiteralsFrom(s, i + 1);
      }
    }
  }

  /** A literal at i is the first one found, and the rest are found after it. */
  lemma ScanStep(s: string, i: nat)
    requires i < |s| && (HexStartsAt(s, i) || IsDigit(s[i]))
    ensures var l := LiteralAt(s, i);
      var rest := LiteralsFrom(s, l.end);
      && LiteralsFrom(s, i) == [l] + rest
      && forall k | 0 <= k < |rest| :: l.end <= rest[k].start
  {
    var l := LiteralAt(s, i);
    assert IsDigitOf(l.radix, s[l.end - 1]);
  }

  lemma OrderedCons(l: Literal, rest: seq<Literal>)
    requires Ordered(rest) && forall k | 0 <= k < |rest| :: l.end <= rest[k].start
    ensures Ordered([l] + rest)
  {
    var lits := [l] + rest;
    forall j, k | 0 <= j < k < |lits| ensures lits[j].end <= lits[k].start {
      assert lits[k] == rest[k - 1];
      if j > 0 {
        assert lits[j] == rest[j - 1];
      }
    }
  }

  function Literals(s: string): seq<Literal> {
    LiteralsFrom(s, 0)
  }

  /** No digit sits right before a literal (before the digits, for a negative decimal). */
  predicate StartsRun(s: string, l: Literal)
    requires IsLiteral(s, l)
  {
    l.digitStart == 0 || !IsDigit(s[l.digitStart - 1])
  }

  /**
   * Started where no run of digits is cut in two, the scan finds literals
   * that start where their runs of digits start.
   */
  lemma {:induction false} BoundaryFrom(s: string, i: nat)
    requires i <= |s| && (i == 0 || i == |s| || !IsDigit(s[i - 1]) || !IsDigit(s[i]))
    ensures var lits := LiteralsFrom(s, i);
      forall k | 0 <= k < |lits| :: StartsRun(s, lits[k])
    decreases |s| - i
  {
    if i < |s| {
      if HexStartsAt(s, i) || IsDigit(s[i]) {
        var l := LiteralAt(s, i);
        ScanStep(s, i);
        BoundaryFrom(s, l.end);
        BoundaryCons(s, l, LiteralsFrom(s, l.end));
      } else {
        SkipOne(s, i);
        BoundaryFrom(s, i + 1);
      }
    }
  }

  lemma BoundaryCons(s: string, l: Literal, rest: seq<Literal>)
    requires IsLiteral(s, l) && StartsRun(s, l)
    requires forall k | 0 <= k < |rest| :: IsLiteral(s, rest[k]) && StartsRun(s, rest[k])
    ensures var lits := [l] + rest;
      forall k | 0 <= k < |lits| :: IsLiteral(s, lits[k]) && StartsRun(s, lits[k])
  {
    var lits := [l] + rest;
    forall k | 0 <= k < |lits| ensures IsLiteral(s, lits[k]) && StartsRun(s, lits[k]) {
      if k > 0 {
        assert lits[k] == rest[k - 1];
      }
    }
  }

  /** Every literal the scan finds begins where its run of digits begins. */
  lemma LiteralsBoundary(s: string)
    ensures var lits := Literals(s);
      forall k | 0 <= k < |lits| :: StartsRun(s, lits[k])
  {
    BoundaryFrom(s, 0);
    assert Literals(s) == LiteralsFrom(s, 0);
  }

  /** Offset k lies within one of the literals. */
  predicate Covered(lits: seq<Literal>, k: nat) {
    exists j | 0 <= j < |lits| :: lits[j].start <= k < lits[j].end
  }

  /** Every digit at or after i lies in one of the literals the scan finds from i. */
  lemma {:induction false} CoverFrom(s: string, i: nat)
    requires i <= |s|
    ensures forall k | i <= k < |s| && IsDigit(s[k]) :: Covered(LiteralsFrom(s, i), k)
    decreases |s| - i
  {
    if i < |s| {
      if HexStartsAt(s, i) || IsDigit(s[i]) {
        var l := LiteralAt(s, i);
        ScanStep(s, i);
        var rest := LiteralsFrom(s, l.end);
        CoverFrom(s, l.end);
        CoverCons(l, rest, i);
      } else {
        CoverFrom(s, i + 1);
      }
    }
  }

  /** The offsets covered by a literal starting at or before i, or by those after it. */
  lemma CoverCons(l: Literal, rest: seq<Literal>, i: nat)
    requires l.start <= i
    ensures forall k | i <= k && (k < l.end || Covered(rest, k)) :: Covered([l] + rest, k)
  {
    var lits := [l] + rest;
    forall k | i <= k && (k < l.end || Covered(rest, k)) ensures Covered(lits, k) {
      if k < l.end {
        assert lits[0] == l;
      } else {
        var j :| 0 <= j < |rest| && rest[j].start <= k < rest[j].end;
        assert lits[j + 1] == rest[j];
      }
    }
  }

  /** No digit of the line is left out: each lies in some literal. */
  lemma LiteralsCover(s: string)
    ensures forall k | 0 <= k < |s| && IsDigit(s[k]) :: Covered(Literals(s), k)
  {
    CoverFrom(s, 0);
  }

  /** The index of the first literal that ends after column col (|lits| if none). */
  function FirstEndingAfter(lits: seq<Literal>, col: nat, k: nat): (r: nat)
    requires k <= |lits|
    ensures k <= r <= |lits|
    ensures forall j | k <= j < r :: lits[j].end <= col
    ensures r < |lits| ==> lits[r].end > col
    decreases |lits| - k
  {
    if k == |lits| || lits[k].end > col then k else FirstEndingAfter(lits, col, k + 1)
  }

  /** The value a literal denotes. */
  function Value(s: string, l: Literal): int
    requires IsLiteral(s, l)
  {
    var m: int := DigitsValue(s, l.digitStart, l.end, Base(l.radix));
    if l.Negative() then -m else m
  }

  /** The value after adding delta: decimals are signed, hex and octal wrap around. */
  function Target(r: Radix, v: int, delta: int): (t: int)
    ensures r != Decimal ==> 0 <= t < Modulus
  {
    if r == Decimal then v + delta else (v + delta) % Modulus
  }

  /** n in the given base without leading zeros. */
  function ToDigits(n: nat, base: nat, upper: bool): (ds: string)
    requires 2 <= base <= 16
    ensures |ds| >= 1
    ensures forall k | 0 <= k < |ds| :: IsHexDigit(ds[k]) && DigitValue(ds[k]) < base && InCase(ds[k], upper)
    ensures ds[0] == '0' ==> n == 0 && |ds| == 1
    decreases n
  {
    if n < base then
      [DigitChar(n, upper)]
    else
      DivFacts(n, base);
      var high := ToDigits(n / base, base, upper);
      var ds := high + [DigitChar(n % base, upper)];
      assert ds[0] == high[0];
      ds
  }

  lemma DivFacts(n: nat, base: nat)
    requires 2 <= base <= 16 && n >= base
    ensures 1 <= n / base < n && n % base < base
    ensures (n / base) * base + n % base == n
  {
  }

  /** Reading the digits back gives the number. */
  lemma {:induction false} ToDigitsValue(n: nat, base: nat, upper: bool)
    requires 2 <= base <= 16
    ensures var ds := ToDigits(n, base, upper); DigitsValue(ds, 0, |ds|, base) == n
    decreases n
  {
    if n >= base {
      DivFacts(n, base);
      var high := ToDigits(n / base, base, upper);
      assert ToDigits(n, base, upper) == high + [DigitChar(n % base, upper)];
      ToDigitsValue(n / base, base, upper);
      LastDigit(high, DigitChar(n % base, upper), base);
    }
  }

  /** A digit appended to a digit string multiplies its value by the base and adds the digit. */
  lemma LastDigit(high: string, c: char, base: nat)
    requires IsHexDigit(c) && forall k | 0 <= k < |high| :: IsHexDigit(high[k])
    ensures var ds := high + [c];
      && (forall k | 0 <= k < |ds| :: IsHexDigit(ds[k]))
      && DigitsValue(ds, 0, |ds|, base) == DigitsValue(high, 0, |high|, base) * base + DigitValue(c)
  {
    var ds := high + [c];
    assert forall k | 0 <= k < |high| :: high[k] == ds[0 + (k - 0)];
    DigitsValueFrame(high, 0, |high|, ds, 0, base);
    assert ds[|high|] == c;
  }

  function Zeros(n: nat): (z: string)
    ensures |z| == n && forall k | 0 <= k < n :: z[k] == '0'
  {
    if n == 0 then "" else "0" + Zeros(n - 1)
  }

  /** ds widened to at least `width` characters with leading zeros. */
  function Pad(ds: string, width: nat): (p: string)
    ensures |p| == Max(width, |ds|)
    ensures forall k | 0 <= k < |p| :: p[k] == if k < |p| - |ds| then '0' else ds[k - (|p| - |ds|)]
  {
    if |ds| >= width then ds else Zeros(width - |ds|) + ds
  }

  /** Hex output is upper case when the rightmost letter digit of the old literal is. */
  function HexUpper(s: string, a: nat, b: nat): bool
    requires a <= b <= |s|
    decreases b
  {
    if a == b then false
    else if 'A' <= s[b - 1] <= 'F' then true
    else if 'a' <= s[b - 1] <= 'f' then false
    else HexUpper(s, a, b - 1)
  }

  function Abs(v: int): nat {
    if v < 0 then -v else v
  }

  /** The `0x` or `0X` a hex literal is written with; empty for the other radixes. */
  function Prefix(s: string, l: Literal): (p: string)
    requires IsLiteral(s, l)
    ensures l.radix == Hex ==> p == "0x" || p == "0X"
  {
    if l.radix == Hex then [s[l.start], s[l.start + 1]] else ""
  }

  /** The text that replaces literal l after adding delta. */
  function Render(s: string, l: Literal, delta: int): (t: string)
    requires IsLiteral(s, l)
    ensures Replaces(s, l, delta, t)
  {
    Rendered(l.radix, Target(l.radix, Value(s, l), delta), Prefix(s, l), HexUpper(s, l.digitStart, l.end), l.end - l.digitStart)
  }

  /** A hex literal renders as its prefix followed by the padded digits of its target. */
  lemma RenderHexText(s: string, l: Literal, delta: int)
    requires IsLiteral(s, l) && l.radix == Hex
    ensures Render(s, l, delta) == HexText(Target(Hex, Value(s, l), delta), Prefix(s, l), HexUpper(s, l.digitStart, l.end), l.end - l.digitStart)
  {
  }

  /**
   * How the text t of value v replacing a literal of radix r is written: a
   * decimal is canonical, with a minus sign exactly when v is negative and
   * no leading zero; an octal has its leading zero and keeps the old width
   * unless v needs more digits; a hex keeps its prefix, pads its digits with
   * zeros to the old width and writes its letters in the chosen case.
   */
  predicate Formatted(r: Radix, v: int, prefix: string, upper: bool, width: nat, t: string) {
    match r
    case Decimal =>
      var sign := if v < 0 then 1 else 0;
      && |t| > sign && (t[0] == '-' <==> v < 0)
      && (|t| > sign + 1 ==> t[sign] != '0')
    case Octal =>
      && v >= 0 && |t| >= 1 && t[0] == '0'
      && |t| == Max(width, |ToDigits(v, 8, false)| + 1)
    case Hex =>
      && v >= 0 && |t| >= 2 && t[..2] == prefix
      && |t| - 2 == Max(width, |ToDigits(v, 16, upper)|)
      && forall k | 2 <= k < |t| :: InCase(t[k], upper)
  }

  /**
   * t is the text of value v for a literal of radix r: scanning it finds
   * exactly one literal, of radix r, spanning the whole text and worth v,
   * and it is written as Formatted says.
   */
  predicate Renders(t: string, r: Radix, v: int, prefix: string, upper: bool, width: nat) {
    var again := Literals(t);
    && |again| == 1
    && again[0].radix == r && again[0].start == 0 && again[0].end == |t|
    && Value(t, again[0]) == v
    && Formatted(r, v, prefix, upper, width, t)
  }

  /**
   * The text of value v replacing a literal of radix r: a decimal loses its
   * leading zeros and carries a minus sign when negative; an octal keeps
   * the old width and its leading zero; a hex keeps its prefix, the old
   * width of its digits and the case of its letters. The text is a literal
   * on its own: scanning it finds exactly one literal, of radix r, spanning
   * the whole text, and its value is v.
   */
  function Rendered(r: Radix, v: int, prefix: string, upper: bool, width: nat): (t: string)
    requires r != Decimal ==> v >= 0
    requires r == Hex ==> prefix == "0x" || prefix == "0X"
    ensures Renders(t, r, v, prefix, upper, width)
  {
    match r
    case Decimal => DecimalRoundTrip(v); DecimalFormat(v); DecimalText(v)
    case Octal => OctalRoundTrip(v, width); OctalFormat(v, width); OctalText(v, width)
    case Hex => HexRoundTrip(v, prefix, upper, width); HexFormat(v, prefix, upper, width); HexText(v, prefix, upper, width)
  }

  /**
   * t is the text that literal l of s becomes after adding delta: it reads
   * back as one literal of l's radix whose value is the target, written with
   * l's prefix, letter case and width as Formatted says.
   */
  predicate Replaces(s: string, l: Literal, delta: int, t: string)
    requires IsLiteral(s, l)
  {
    Renders(t, l.radix, Target(l.radix, Value(s, l), delta), Prefix(s, l), HexUpper(s, l.digitStart, l.end), l.end - l.digitStart)
  }

  /** The outcome of `<C-a>` on a line: which literal changed, its new text, the new line and cursor. */
  datatype Change = Change(index: nat, text: string, line: string, cursor: nat)

  /**
   * Add delta to the first literal of line s that ends after the cursor
   * column: the literal under the cursor or the next one to its right.
   */
  function IncrementLine(s: string, col: nat, delta: int): (r: Option<Change>)
    ensures var lits := Literals(s);
      r.None? <==> forall k | 0 <= k < |lits| :: lits[k].end <= col
    ensures r.Some? ==>
      var lits := Literals(s);
      var c := r.value;
      && c.index < |lits| && lits[c.index].end > col
      && (forall j | 0 <= j < c.index :: lits[j].end <= col)
      && var l := lits[c.index];
      && c.line == s[..l.start] + c.text + s[l.end..]
      && c.cursor == l.start + |c.text| - 1
      && Replaces(s, l, delta, c.text)
      && forall k | 0 <= k < |c.text| :: c.text[k] != '\n'
  {
    var lits := Literals(s);
    var k := FirstEndingAfter(lits, col, 0);
    if k == |lits| then
      None
    else
      var l := lits[k];
      var text := Render(s, l, delta);
      LiteralChars(text, Literals(text)[0]);
      Some(Change(k, text, s[..l.start] + text + s[l.end..], l.start + |text| - 1))
  }

  /** Where the first literal ending after the cursor exists, the change is its rendering spliced into the line. */
  lemma IncrementLineAt(s: string, col: nat, delta: int, k: nat)
    requires k == FirstEndingAfter(Literals(s), col, 0) && k < |Literals(s)|
    ensures var l := Literals(s)[k]; var text := Render(s, l, delta);
      IncrementLine(s, col, delta) == Some(Change(k, text, s[..l.start] + text + s[l.end..], l.start + |text| - 1))
  {
  }

  /** A literal spanning a whole text consists of digits, a sign and a hex prefix: no line break. */
  lemma LiteralChars(t: string, l: Literal)
    requires IsLiteral(t, l) && l.start == 0 && l.end == |t|
    ensures forall k | 0 <= k < |t| :: t[k] != '\n'
  {
    forall k | 0 <= k < |t| ensures t[k] != '\n' {
      if k >= l.digitStart {
        assert IsDigitOf(l.radix, t[k]);
      }
    }
  }

  // ---------------------------------------------------------------------
  // Proofs about digit strings and the rendered literal

  /** The value of a digit string depends only on its characters. */
  lemma {:induction false} DigitsValueFrame(s: string, a: nat, b: nat, t: string, c: nat, base: nat)
    requires a <= b <= |s| && c + (b - a) <= |t|
    requires forall k | a <= k < b :: IsHexDigit(s[k])
    requires forall k | a <= k < b :: s[k] == t[c + (k - a)]
    ensures forall k | c <= k < c + (b - a) :: IsHexDigit(t[k])
    ensures DigitsValue(s, a, b, base) == DigitsValue(t, c, c + (b - a), base)
    decreases b
  {
    forall k | c <= k < c + (b - a) ensures IsHexDigit(t[k]) {
      assert t[k] == s[a + (k - c)];
    }
    if a < b {
      DigitsValueFrame(s, a, b - 1, t, c, base);
    }
  }

  /** Leading zeros do not change a value. */
  lemma {:induction false} LeadingZeros(s: string, z: nat, b: nat, base: nat)
    requires z <= b <= |s|
    requires forall k | 0 <= k < z :: s[k] == '0'
    requires forall k | 0 <= k < b :: IsHexDigit(s[k])
    ensures DigitsValue(s, 0, b, base) == DigitsValue(s, z, b, base)
    decreases b
  {
    if b == z {
      AllZeros(s, z, base);
    } else {
      LeadingZeros(s, z, b - 1, base);
    }
  }

  lemma {:induction false} AllZeros(s: string, z: nat, base: nat)
    requires z <= |s|
    requires forall k | 0 <= k < z :: s[k] == '0'
    ensures DigitsValue(s, 0, z, base) == 0
    decreases z
  {
    if z > 0 {
      AllZeros(s, z - 1, base);
    }
  }

  /** v in decimal: a minus sign when it is negative, then its digits without leading zeros. */
  function DecimalText(v: int): string {
    (if v < 0 then "-" else "") + ToDigits(Abs(v), 10, false)
  }

  /** The decimal text scans as one decimal literal spanning it, worth v. */
  lemma DecimalRoundTrip(v: int)
    ensures var t := DecimalText(v);
      var again := Literals(t);
      && |again| == 1 && again[0] == Literal(Decimal, 0, if v < 0 then 1 else 0, |t|)
      && Value(t, again[0]) == v
  {
    var ds := ToDigits(Abs(v), 10, false);
    ToDigitsValue(Abs(v), 10, false);
    forall k | 0 <= k < |ds| ensures IsDigit(ds[k]) {
      assert IsHexDigit(ds[k]) && DigitValue(ds[k]) < 10;
    }
    var t := DecimalText(v);
    if v < 0 {
      assert t == "-" + ds;
      NegativeScan(ds);
    } else {
      assert t == ds;
      PlainScan(ds);
    }
  }

  /** A canonical digit string scans as one decimal literal. */
  lemma PlainScan(ds: string)
    requires |ds| >= 1 && (forall k | 0 <= k < |ds| :: IsDigit(ds[k]))
    requires ds[0] == '0' ==> |ds| == 1
    ensures LiteralsFrom(ds, 0) == [Literal(Decimal, 0, 0, |ds|)]
  {
    assert RunEnd(Decimal, ds, 0) == |ds|;
    assert !OctalForm(ds, 0, |ds|);
    assert !HexStartsAt(ds, 0);
    assert LiteralAt(ds, 0) == Literal(Decimal, 0, 0, |ds|);
    assert LiteralsFrom(ds, |ds|) == [];
  }

  /** A minus sign and a canonical digit string scan as one negative decimal literal. */
  lemma NegativeScan(ds: string)
    requires |ds| >= 1 && (forall k | 0 <= k < |ds| :: IsDigit(ds[k]))
    requires ds[0] == '0' ==> |ds| == 1
    ensures var t := "-" + ds;
      && LiteralsFrom(t, 0) == [Literal(Decimal, 0, 1, |t|)]
      && DigitsValue(t, 1, |t|, 10) == DigitsValue(ds, 0, |ds|, 10)
  {
    var t := "-" + ds;
    Appended("-", ds);
    ShiftedValue(t, ds, 1, 10);
    MinusScan(t);
  }

  /** A minus sign and then canonical digits to the end scan as one negative literal. */
  lemma MinusScan(t: string)
    requires |t| >= 2 && t[0] == '-' && (forall k | 1 <= k < |t| :: IsDigit(t[k]))
    requires t[1] == '0' ==> |t| == 2
    ensures LiteralsFrom(t, 0) == [Literal(Decimal, 0, 1, |t|)]
  {
    assert RunEnd(Decimal, t, 1) == |t|;
    assert !OctalForm(t, 1, |t|);
    assert !HexStartsAt(t, 0) && !IsDigit(t[0]);
    SkipOne(t, 0);
    assert !HexStartsAt(t, 1);
    assert LiteralAt(t, 1) == Literal(Decimal, 0, 1, |t|);
    assert LiteralsFrom(t, |t|) == [];
  }

  /** A character that cannot start a literal is passed over. */
  lemma SkipOne(s: string, i: nat)
    requires i < |s| && !HexStartsAt(s, i) && !IsDigit(s[i])
    ensures LiteralsFrom(s, i) == LiteralsFrom(s, i + 1)
  {
  }

  /** v in octal behind a leading zero, padded with zeros to `width` characters. */
  function OctalText(v: nat, width: nat): string {
    var body := ToDigits(v, 8, false);
    Zeros(if |body| + 1 > width then 1 else width - |body|) + body
  }

  /** The octal text scans as one octal literal spanning it, worth v. */
  lemma OctalRoundTrip(v: nat, width: nat)
    ensures var t := OctalText(v, width);
      var again := Literals(t);
      && |again| == 1 && again[0] == Literal(Octal, 0, 0, |t|)
      && Value(t, again[0]) == v
  {
    var t := OctalText(v, width);
    OctalDigits(v, width);
    OctalScan(t);
    assert Literals(t) == [Literal(Octal, 0, 0, |t|)];
  }

  /** The octal text is a leading zero and octal digits worth v. */
  lemma OctalDigits(v: nat, width: nat)
    ensures var t := OctalText(v, width);
      && |t| >= 2 && t[0] == '0'
      && (forall k | 0 <= k < |t| :: IsOctalDigit(t[k]))
      && DigitsValue(t, 0, |t|, 8) == v
  {
    var body := ToDigits(v, 8, false);
    ToDigitsValue(v, 8, false);
    forall k | 0 <= k < |body| ensures IsOctalDigit(body[k]) {
      assert IsHexDigit(body[k]) && DigitValue(body[k]) < 8;
    }
    var z := if |body| + 1 > width then 1 else width - |body|;
    ZerosValue(body, z, 8);
  }

  /** Zeros in front of a digit string keep its digits' kind and its value. */
  lemma ZerosValue(body: string, z: nat, base: nat)
    requires forall k | 0 <= k < |body| :: IsHexDigit(body[k])
    ensures var t := Zeros(z) + body;
      && (forall k | 0 <= k < z :: t[k] == '0')
      && (forall k | z <= k < |t| :: t[k] == body[k - z])
      && DigitsValue(t, 0, |t|, base) == DigitsValue(body, 0, |body|, base)
  {
    ZerosShape(body, z);
    PaddedValue(Zeros(z) + body, body, z, base);
  }

  lemma PaddedValue(t: string, body: string, z: nat, base: nat)
    requires |t| == z + |body|
    requires forall k | 0 <= k < z :: t[k] == '0'
    requires forall k | 0 <= k < |body| :: body[k] == t[z + k]
    requires forall k | 0 <= k < |t| :: IsHexDigit(t[k])
    ensures forall k | 0 <= k < |body| :: IsHexDigit(body[k])
    ensures DigitsValue(t, 0, |t|, base) == DigitsValue(body, 0, |body|, base)
  {
    assert forall k | 0 <= k < |body| :: IsHexDigit(body[k]) by {
      forall k | 0 <= k < |body| ensures IsHexDigit(body[k]) {
        assert body[k] == t[z + k];
      }
    }
    DigitsValueFrame(body, 0, |body|, t, z, base);
    LeadingZeros(t, z, |t|, base);
  }

  lemma ZerosShape(body: string, z: nat)
    requires forall k | 0 <= k < |body| :: IsHexDigit(body[k])
    ensures var t := Zeros(z) + body;
      && |t| == z + |body|
      && (forall k | 0 <= k < z :: t[k] == '0')
      && (forall k | z <= k < |t| :: t[k] == body[k - z])
      && (forall k | 0 <= k < |body| :: body[k] == t[z + k])
      && (forall k | 0 <= k < |t| :: IsHexDigit(t[k]))
  {
    var t := Zeros(z) + body;
    forall k | 0 <= k < |body| ensures body[k] == t[z + k] {
      assert t[z + k] == body[z + k - z];
    }
  }

  /** A leading zero followed by octal digits scans as one octal literal. */
  lemma OctalScan(t: string)
    requires |t| >= 2 && t[0] == '0'
    requires forall k | 0 <= k < |t| :: IsOctalDigit(t[k])
    ensures LiteralsFrom(t, 0) == [Literal(Octal, 0, 0, |t|)]
  {
    assert RunEnd(Decimal, t, 0) == |t| && RunEnd(Octal, t, 0) == |t|;
    assert !HexStartsAt(t, 0);
    assert LiteralAt(t, 0) == Literal(Octal, 0, 0, |t|);
    assert LiteralsFrom(t, |t|) == [];
  }

  /** v in hex behind the prefix, its digits padded with zeros to `width`. */
  function HexText(v: nat, prefix: string, upper: bool, width: nat): string {
    prefix + Pad(ToDigits(v, 16, upper), width)
  }

  /** The hex text scans as one hex literal spanning it, worth v. */
  lemma HexRoundTrip(v: nat, prefix: string, upper: bool, width: nat)
    requires prefix == "0x" || prefix == "0X"
    ensures var t := HexText(v, prefix, upper, width);
      var again := Literals(t);
      && |again| == 1 && again[0] == Literal(Hex, 0, 2, |t|)
      && Value(t, again[0]) == v
  {
    var t := HexText(v, prefix, upper, width);
    HexDigits(v, prefix, upper, width);
    HexScan(t);
    assert Literals(t) == [Literal(Hex, 0, 2, |t|)];
  }

  /** The hex text is its prefix and hex digits worth v. */
  lemma HexDigits(v: nat, prefix: string, upper: bool, width: nat)
    requires prefix == "0x" || prefix == "0X"
    ensures var t := HexText(v, prefix, upper, width);
      && |t| >= 3 && t[0] == '0' && (t[1] == 'x' || t[1] == 'X')
      && (forall k | 2 <= k < |t| :: IsHexDigit(t[k]))
      && DigitsValue(t, 2, |t|, 16) == v
  {
    PaddedDigits(v, upper, width);
    PrefixedDigits(prefix, Pad(ToDigits(v, 16, upper), width));
  }

  lemma PrefixedDigits(prefix: string, padded: string)
    requires prefix == "0x" || prefix == "0X"
    requires |padded| >= 1 && forall k | 0 <= k < |padded| :: IsHexDigit(padded[k])
    ensures var t := prefix + padded;
      && |t| >= 3 && t[0] == '0' && (t[1] == 'x' || t[1] == 'X')
      && (forall k | 2 <= k < |t| :: IsHexDigit(t[k]))
      && DigitsValue(t, 2, |t|, 16) == DigitsValue(padded, 0, |padded|, 16)
  {
    Appended(prefix, padded);
    ShiftedValue(prefix + padded, padded, 2, 16);
  }

  /** Where the characters of b sit in a + b. */
  lemma Appended(a: string, b: string)
    ensures |a + b| == |a| + |b|
    ensures forall k | 0 <= k < |b| :: b[k] == (a + b)[|a| + k]
  {
  }

  /** Digits copied c places to the right keep their kind and their value. */
  lemma ShiftedValue(t: string, ds: string, c: nat, base: nat)
    requires |t| == c + |ds|
    requires forall k | 0 <= k < |ds| :: IsHexDigit(ds[k])
    requires forall k | 0 <= k < |ds| :: ds[k] == t[c + k]
    ensures forall k | c <= k < |t| :: IsHexDigit(t[k]) && t[k] == ds[k - c]
    ensures DigitsValue(t, c, |t|, base) == DigitsValue(ds, 0, |ds|, base)
  {
    ShiftedDigits(t, ds, c);
    DigitsValueFrame(ds, 0, |ds|, t, c, base);
  }

  lemma ShiftedDigits(t: string, ds: string, c: nat)
    requires |t| == c + |ds|
    requires forall k | 0 <= k < |ds| :: IsHexDigit(ds[k])
    requires forall k | 0 <= k < |ds| :: ds[k] == t[c + k]
    ensures forall k | c <= k < |t| :: IsHexDigit(t[k]) && t[k] == ds[k - c]
  {
    forall k | c <= k < |t| ensures t[k] == ds[k - c] {
      assert ds[k - c] == t[c + (k - c)];
    }
  }

  /** The zero-padded hex digits are worth v. */
  lemma PaddedDigits(v: nat, upper: bool, width: nat)
    ensures var p := Pad(ToDigits(v, 16, upper), width);
      && |p| >= 1
      && (forall k | 0 <= k < |p| :: IsHexDigit(p[k]))
      && DigitsValue(p, 0, |p|, 16) == v
  {
    var body := ToDigits(v, 16, upper);
    ToDigitsValue(v, 16, upper);
    if |body| < width {
      ZerosValue(body, width - |body|, 16);
    }
  }

  /** A hex prefix followed by hex digits scans as one hex literal. */
  lemma HexScan(t: string)
    requires |t| >= 3 && t[0] == '0' && (t[1] == 'x' || t[1] == 'X')
    requires forall k | 2 <= k < |t| :: IsHexDigit(t[k])
    ensures LiteralsFrom(t, 0) == [Literal(Hex, 0, 2, |t|)]
  {
    assert RunEnd(Hex, t, 2) == |t|;
    assert HexStartsAt(t, 0);
    assert LiteralAt(t, 0) == Literal(Hex, 0, 2, |t|);
    assert LiteralsFrom(t, |t|) == [];
  }

  /** The decimal text is canonical: a sign exactly for a negative value, no leading zero. */
  lemma DecimalFormat(v: int)
    ensures Formatted(Decimal, v, "", false, 0, DecimalText(v))
  {
    var ds := ToDigits(Abs(v), 10, false);
    var sign := if v < 0 then "-" else "";
    Appended(sign, ds);
    assert ds[0] != '-';
  }

  /** The octal text has its leading zero and the old width, or more when v needs it. */
  lemma OctalFormat(v: nat, width: nat)
    ensures Formatted(Octal, v, "", false, width, OctalText(v, width))
  {
    var body := ToDigits(v, 8, false);
    var z := if |body| + 1 > width then 1 else width - |body|;
    ZerosShape(body, z);
  }

  /** The hex text keeps its prefix, pads its digits to the old width and writes letters in one case. */
  lemma HexFormat(v: nat, prefix: string, upper: bool, width: nat)
    requires prefix == "0x" || prefix == "0X"
    ensures Formatted(Hex, v, prefix, upper, width, HexText(v, prefix, upper, width))
  {
    var ds := ToDigits(v, 16, upper);
    var padded := Pad(ds, width);
    Appended(prefix, padded);
    var t := prefix + padded;
    assert t[..2] == prefix;
    forall k | 2 <= k < |t| ensures InCase(t[k], upper) {
      assert t[k] == padded[k - 2];
    }
  }
}
