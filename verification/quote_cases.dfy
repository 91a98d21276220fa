/**
 * The repository's test cases for the quote objects `i'`, `a'`, `i"`,
 * `a"`, `i``, `a`` with `c` (and `v` then `c`), as lemmas: from the start
 * buffer and cursor, the keys leave the end buffer, cursor and mode the
 * test expects. Each case rests on small lemmas that work out the quote
 * columns, the pair and the object on its line.
 */
module QuoteCases {
  import opened Wrappers
  import opened Buffer
  import opened Keys
  import opened Session
  import opened Scenario
  import Q = Quotes

  /** `vi'c` with the cursor on the opening quote changes what the quotes hold. */
  lemma VisualQuoteOnOpening(st: State)
    requires st == Start(["one 'two' three"], 0, 4)
    ensures Case(st, "vi'c", ["one '' three"], 0, 5, Insert)
  {
    VisualQuoteOnOpeningObject();
    VisualQuoteOnOpeningKeys();
    QuoteCase(st, "one 'two' three", 4, "vi'c", ChangeText, 1, false, '\'', 5, 8, "one '' three", 5);
  }

  lemma VisualQuoteOnOpeningKeys()
    ensures '\n' !in "one 'two' three" && "one '' three" == "one 'two' three"[..5] + "one 'two' three"[8..]
    ensures ParseCommand("vi'c") == Some((Operate(ChangeText, 1, Object(false, '\'')), ""))
  {
  }

  lemma VisualQuoteOnOpeningObject()
    ensures Q.QuoteObject("one 'two' three", 4, '\'', false, 1) == Some(Q.Span(5, 8))
  {
    VisualQuoteOnOpeningPair();
    InnerQuotes("one 'two' three", 4, '\'', 1, Q.QuotePair(0, 4, 8));
  }

  lemma VisualQuoteOnOpeningPair()
    ensures Q.EnclosingQuotes("one 'two' three", 4, '\'') == Some(Q.QuotePair(0, 4, 8))
  {
    VisualQuoteOnOpeningColumns();
  }

  lemma VisualQuoteOnOpeningColumns()
    ensures Q.QuoteColumns("one 'two' three", '\'') == [4, 8]
  {
    VisualQuoteOnOpeningQuotes();
    Q.SkippingFindsQuotes("one 'two' three", '\'', 0);
  }

  lemma VisualQuoteOnOpeningQuotes()
    ensures Q.QuotesSkipping("one 'two' three", '\'', 0) == [4, 8]
  {
    VisualQuoteOnOpeningFrom7();
  }

  lemma VisualQuoteOnOpeningFrom7()
    ensures Q.QuotesSkipping("one 'two' three", '\'', 7) == [8]
  {
    VisualQuoteOnOpeningFrom14();
  }

  lemma VisualQuoteOnOpeningFrom14()
    ensures Q.QuotesSkipping("one 'two' three", '\'', 14) == []
  {
  }

  /** `vi'c` inside the quoted text. */
  lemma VisualQuoteInside(st: State)
    requires st == Start(["one 'two' three"], 0, 6)
    ensures Case(st, "vi'c", ["one '' three"], 0, 5, Insert)
  {
    VisualQuoteInsideObject();
    VisualQuoteInsideKeys();
    QuoteCase(st, "one 'two' three", 6, "vi'c", ChangeText, 1, false, '\'', 5, 8, "one '' three", 5);
  }

  lemma VisualQuoteInsideKeys()
    ensures '\n' !in "one 'two' three" && "one '' three" == "one 'two' three"[..5] + "one 'two' three"[8..]
    ensures ParseCommand("vi'c") == Some((Operate(ChangeText, 1, Object(false, '\'')), ""))
  {
  }

  lemma VisualQuoteInsideObject()
    ensures Q.QuoteObject("one 'two' three", 6, '\'', false, 1) == Some(Q.Span(5, 8))
  {
    VisualQuoteInsidePair();
    InnerQuotes("one 'two' three", 6, '\'', 1, Q.QuotePair(0, 4, 8));
  }

  lemma VisualQuoteInsidePair()
    ensures Q.EnclosingQuotes("one 'two' three", 6, '\'') == Some(Q.QuotePair(0, 4, 8))
  {
    VisualQuoteInsideColumns();
  }

  lemma VisualQuoteInsideColumns()
    ensures Q.QuoteColumns("one 'two' three", '\'') == [4, 8]
  {
    VisualQuoteInsideQuotes();
    Q.SkippingFindsQuotes("one 'two' three", '\'', 0);
  }

  lemma VisualQuoteInsideQuotes()
    ensures Q.QuotesSkipping("one 'two' three", '\'', 0) == [4, 8]
  {
    VisualQuoteInsideFrom7();
  }

  lemma VisualQuoteInsideFrom7()
    ensures Q.QuotesSkipping("one 'two' three", '\'', 7) == [8]
  {
    VisualQuoteInsideFrom14();
  }

  lemma VisualQuoteInsideFrom14()
    ensures Q.QuotesSkipping("one 'two' three", '\'', 14) == []
  {
  }

  /** `vi'c` with the cursor on the closing quote. */
  lemma VisualQuoteOnClosing(st: State)
    requires st == Start(["one 'two' three"], 0, 8)
    ensures Case(st, "vi'c", ["one '' three"], 0, 5, Insert)
  {
    VisualQuoteOnClosingObject();
    VisualQuoteOnClosingKeys();
    QuoteCase(st, "one 'two' three", 8, "vi'c", ChangeText, 1, false, '\'', 5, 8, "one '' three", 5);
  }

  lemma VisualQuoteOnClosingKeys()
    ensures '\n' !in "one 'two' three" && "one '' three" == "one 'two' three"[..5] + "one 'two' three"[8..]
    ensures ParseCommand("vi'c") == Some((Operate(ChangeText, 1, Object(false, '\'')), ""))
  {
  }

  lemma VisualQuoteOnClosingObject()
    ensures Q.QuoteObject("one 'two' three", 8, '\'', false, 1) == Some(Q.Span(5, 8))
  {
    VisualQuoteOnClosingPair();
    InnerQuotes("one 'two' three", 8, '\'', 1, Q.QuotePair(0, 4, 8));
  }

  lemma VisualQuoteOnClosingPair()
    ensures Q.EnclosingQuotes("one 'two' three", 8, '\'') == Some(Q.QuotePair(0, 4, 8))
  {
    VisualQuoteOnClosingColumns();
  }

  lemma VisualQuoteOnClosingColumns()
    ensures Q.QuoteColumns("one 'two' three", '\'') == [4, 8]
  {
    VisualQuoteOnClosingQuotes();
    Q.SkippingFindsQuotes("one 'two' three", '\'', 0);
  }

  lemma VisualQuoteOnClosingQuotes()
    ensures Q.QuotesSkipping("one 'two' three", '\'', 0) == [4, 8]
  {
    VisualQuoteOnClosingFrom7();
  }

  lemma VisualQuoteOnClosingFrom7()
    ensures Q.QuotesSkipping("one 'two' three", '\'', 7) == [8]
  {
    VisualQuoteOnClosingFrom14();
  }

  lemma VisualQuoteOnClosingFrom14()
    ensures Q.QuotesSkipping("one 'two' three", '\'', 14) == []
  {
  }

  /** `vi'c` before a quoted string changes what that string's quotes hold. */
  lemma VisualQuoteAhead(st: State)
    requires st == Start(["one 'two' three"], 0, 2)
    ensures Case(st, "vi'c", ["one '' three"], 0, 5, Insert)
  {
    VisualQuoteAheadObject();
    VisualQuoteAheadKeys();
    QuoteCase(st, "one 'two' three", 2, "vi'c", ChangeText, 1, false, '\'', 5, 8, "one '' three", 5);
  }

  lemma VisualQuoteAheadKeys()
    ensures '\n' !in "one 'two' three" && "one '' three" == "one 'two' three"[..5] + "one 'two' three"[8..]
    ensures ParseCommand("vi'c") == Some((Operate(ChangeText, 1, Object(false, '\'')), ""))
  {
  }

  lemma VisualQuoteAheadObject()
    ensures Q.QuoteObject("one 'two' three", 2, '\'', false, 1) == Some(Q.Span(5, 8))
  {
    VisualQuoteAheadPair();
    InnerQuotes("one 'two' three", 2, '\'', 1, Q.QuotePair(0, 4, 8));
  }

  lemma VisualQuoteAheadPair()
    ensures Q.EnclosingQuotes("one 'two' three", 2, '\'') == Some(Q.QuotePair(0, 4, 8))
  {
    VisualQuoteAheadColumns();
  }

  lemma VisualQuoteAheadColumns()
    ensures Q.QuoteColumns("one 'two' three", '\'') == [4, 8]
  {
    VisualQuoteAheadQuotes();
    Q.SkippingFindsQuotes("one 'two' three", '\'', 0);
  }

  lemma VisualQuoteAheadQuotes()
    ensures Q.QuotesSkipping("one 'two' three", '\'', 0) == [4, 8]
  {
    VisualQuoteAheadFrom7();
  }

  lemma VisualQuoteAheadFrom7()
    ensures Q.QuotesSkipping("one 'two' three", '\'', 7) == [8]
  {
    VisualQuoteAheadFrom14();
  }

  lemma VisualQuoteAheadFrom14()
    ensures Q.QuotesSkipping("one 'two' three", '\'', 14) == []
  {
  }

  /** `ci'` with the cursor on the opening quote empties the quotes. */
  lemma ChangeQuoteOnOpening(st: State)
    requires st == Start(["'one'"], 0, 0)
    ensures Case(st, "ci'", ["''"], 0, 1, Insert)
  {
    ChangeQuoteOnOpeningObject();
    ChangeQuoteOnOpeningKeys();
    QuoteCase(st, "'one'", 0, "ci'", ChangeText, 1, false, '\'', 1, 4, "''", 1);
  }

  lemma ChangeQuoteOnOpeningKeys()
    ensures '\n' !in "'one'" && "''" == "'one'"[..1] + "'one'"[4..]
    ensures ParseCommand("ci'") == Some((Operate(ChangeText, 1, Object(false, '\'')), ""))
  {
  }

  lemma ChangeQuoteOnOpeningObject()
    ensures Q.QuoteObject("'one'", 0, '\'', false, 1) == Some(Q.Span(1, 4))
  {
    ChangeQuoteOnOpeningPair();
    InnerQuotes("'one'", 0, '\'', 1, Q.QuotePair(0, 0, 4));
  }

  lemma ChangeQuoteOnOpeningPair()
    ensures Q.EnclosingQuotes("'one'", 0, '\'') == Some(Q.QuotePair(0, 0, 4))
  {
    ChangeQuoteOnOpeningColumns();
  }

  lemma ChangeQuoteOnOpeningColumns()
    ensures Q.QuoteColumns("'one'", '\'') == [0, 4]
  {
    ChangeQuoteOnOpeningQuotes();
    Q.SkippingFindsQuotes("'one'", '\'', 0);
  }

  lemma ChangeQuoteOnOpeningQuotes()
    ensures Q.QuotesSkipping("'one'", '\'', 0) == [0, 4]
  {
  }

  /** `ci'` inside the quoted text. */
  lemma ChangeQuoteInside(st: State)
    requires st == Start(["'one'"], 0, 2)
    ensures Case(st, "ci'", ["''"], 0, 1, Insert)
  {
    ChangeQuoteInsideObject();
    ChangeQuoteInsideKeys();
    QuoteCase(st, "'one'", 2, "ci'", ChangeText, 1, false, '\'', 1, 4, "''", 1);
  }

  lemma ChangeQuoteInsideKeys()
    ensures '\n' !in "'one'" && "''" == "'one'"[..1] + "'one'"[4..]
    ensures ParseCommand("ci'") == Some((Operate(ChangeText, 1, Object(false, '\'')), ""))
  {
  }

  lemma ChangeQuoteInsideObject()
    ensures Q.QuoteObject("'one'", 2, '\'', false, 1) == Some(Q.Span(1, 4))
  {
    ChangeQuoteInsidePair();
    InnerQuotes("'one'", 2, '\'', 1, Q.QuotePair(0, 0, 4));
  }

  lemma ChangeQuoteInsidePair()
    ensures Q.EnclosingQuotes("'one'", 2, '\'') == Some(Q.QuotePair(0, 0, 4))
  {
    ChangeQuoteInsideColumns();
  }

  lemma ChangeQuoteInsideColumns()
    ensures Q.QuoteColumns("'one'", '\'') == [0, 4]
  {
    ChangeQuoteInsideQuotes();
    Q.SkippingFindsQuotes("'one'", '\'', 0);
  }

  lemma ChangeQuoteInsideQuotes()
    ensures Q.QuotesSkipping("'one'", '\'', 0) == [0, 4]
  {
  }

  /** `ci'` with the cursor on the closing quote. */
  lemma ChangeQuoteOnClosing(st: State)
    requires st == Start(["'one'"], 0, 4)
    ensures Case(st, "ci'", ["''"], 0, 1, Insert)
  {
    ChangeQuoteOnClosingObject();
    ChangeQuoteOnClosingKeys();
    QuoteCase(st, "'one'", 4, "ci'", ChangeText, 1, false, '\'', 1, 4, "''", 1);
  }

  lemma ChangeQuoteOnClosingKeys()
    ensures '\n' !in "'one'" && "''" == "'one'"[..1] + "'one'"[4..]
    ensures ParseCommand("ci'") == Some((Operate(ChangeText, 1, Object(false, '\'')), ""))
  {
  }

  lemma ChangeQuoteOnClosingObject()
    ensures Q.QuoteObject("'one'", 4, '\'', false, 1) == Some(Q.Span(1, 4))
  {
    ChangeQuoteOnClosingPair();
    InnerQuotes("'one'", 4, '\'', 1, Q.QuotePair(0, 0, 4));
  }

  lemma ChangeQuoteOnClosingPair()
    ensures Q.EnclosingQuotes("'one'", 4, '\'') == Some(Q.QuotePair(0, 0, 4))
  {
    ChangeQuoteOnClosingColumns();
  }

  lemma ChangeQuoteOnClosingColumns()
    ensures Q.QuoteColumns("'one'", '\'') == [0, 4]
  {
    ChangeQuoteOnClosingQuotes();
    Q.SkippingFindsQuotes("'one'", '\'', 0);
  }

  lemma ChangeQuoteOnClosingQuotes()
    ensures Q.QuotesSkipping("'one'", '\'', 0) == [0, 4]
  {
  }

  /** `ci'` before a quoted string. */
  lemma ChangeQuoteAhead(st: State)
    requires st == Start(["one 'two'"], 0, 2)
    ensures Case(st, "ci'", ["one ''"], 0, 5, Insert)
  {
    ChangeQuoteAheadObject();
    ChangeQuoteAheadKeys();
    QuoteCase(st, "one 'two'", 2, "ci'", ChangeText, 1, false, '\'', 5, 8, "one ''", 5);
  }

  lemma ChangeQuoteAheadKeys()
    ensures '\n' !in "one 'two'" && "one ''" == "one 'two'"[..5] + "one 'two'"[8..]
    ensures ParseCommand("ci'") == Some((Operate(ChangeText, 1, Object(false, '\'')), ""))
  {
  }

  lemma ChangeQuoteAheadObject()
    ensures Q.QuoteObject("one 'two'", 2, '\'', false, 1) == Some(Q.Span(5, 8))
  {
    ChangeQuoteAheadPair();
    InnerQuotes("one 'two'", 2, '\'', 1, Q.QuotePair(0, 4, 8));
  }

  lemma ChangeQuoteAheadPair()
    ensures Q.EnclosingQuotes("one 'two'", 2, '\'') == Some(Q.QuotePair(0, 4, 8))
  {
    ChangeQuoteAheadColumns();
  }

  lemma ChangeQuoteAheadColumns()
    ensures Q.QuoteColumns("one 'two'", '\'') == [4, 8]
  {
    ChangeQuoteAheadQuotes();
    Q.SkippingFindsQuotes("one 'two'", '\'', 0);
  }

  lemma ChangeQuoteAheadQuotes()
    ensures Q.QuotesSkipping("one 'two'", '\'', 0) == [4, 8]
  {
    ChangeQuoteAheadFrom7();
  }

  lemma ChangeQuoteAheadFrom7()
    ensures Q.QuotesSkipping("one 'two'", '\'', 7) == [8]
  {
  }

  /** `ci"` on the opening quote. */
  lemma ChangeDoubleOnOpening(st: State)
    requires st == Start(["\"one\""], 0, 0)
    ensures Case(st, "ci\"", ["\"\""], 0, 1, Insert)
  {
    ChangeDoubleOnOpeningObject();
    ChangeDoubleOnOpeningKeys();
    QuoteCase(st, "\"one\"", 0, "ci\"", ChangeText, 1, false, '"', 1, 4, "\"\"", 1);
  }

  lemma ChangeDoubleOnOpeningKeys()
    ensures '\n' !in "\"one\"" && "\"\"" == "\"one\""[..1] + "\"one\""[4..]
    ensures ParseCommand("ci\"") == Some((Operate(ChangeText, 1, Object(false, '"')), ""))
  {
  }

  lemma ChangeDoubleOnOpeningObject()
    ensures Q.QuoteObject("\"one\"", 0, '"', false, 1) == Some(Q.Span(1, 4))
  {
    ChangeDoubleOnOpeningPair();
    InnerQuotes("\"one\"", 0, '"', 1, Q.QuotePair(0, 0, 4));
  }

  lemma ChangeDoubleOnOpeningPair()
    ensures Q.EnclosingQuotes("\"one\"", 0, '"') == Some(Q.QuotePair(0, 0, 4))
  {
    ChangeDoubleOnOpeningColumns();
  }

  lemma ChangeDoubleOnOpeningColumns()
    ensures Q.QuoteColumns("\"one\"", '"') == [0, 4]
  {
    ChangeDoubleOnOpeningQuotes();
    Q.SkippingFindsQuotes("\"one\"", '"', 0);
  }

  lemma ChangeDoubleOnOpeningQuotes()
    ensures Q.QuotesSkipping("\"one\"", '"', 0) == [0, 4]
  {
  }

  /** `ci"` before a quoted string. */
  lemma ChangeDoubleAhead(st: State)
    requires st == Start(["one \"two\""], 0, 0)
    ensures Case(st, "ci\"", ["one \"\""], 0, 5, Insert)
  {
    ChangeDoubleAheadObject();
    ChangeDoubleAheadKeys();
    QuoteCase(st, "one \"two\"", 0, "ci\"", ChangeText, 1, false, '"', 5, 8, "one \"\"", 5);
  }

  lemma ChangeDoubleAheadKeys()
    ensures '\n' !in "one \"two\"" && "one \"\"" == "one \"two\""[..5] + "one \"two\""[8..]
    ensures ParseCommand("ci\"") == Some((Operate(ChangeText, 1, Object(false, '"')), ""))
  {
  }

  lemma ChangeDoubleAheadObject()
    ensures Q.QuoteObject("one \"two\"", 0, '"', false, 1) == Some(Q.Span(5, 8))
  {
    ChangeDoubleAheadPair();
    InnerQuotes("one \"two\"", 0, '"', 1, Q.QuotePair(0, 4, 8));
  }

  lemma ChangeDoubleAheadPair()
    ensures Q.EnclosingQuotes("one \"two\"", 0, '"') == Some(Q.QuotePair(0, 4, 8))
  {
    ChangeDoubleAheadColumns();
  }

  lemma ChangeDoubleAheadColumns()
    ensures Q.QuoteColumns("one \"two\"", '"') == [4, 8]
  {
    ChangeDoubleAheadQuotes();
    Q.SkippingFindsQuotes("one \"two\"", '"', 0);
  }

  lemma ChangeDoubleAheadQuotes()
    ensures Q.QuotesSkipping("one \"two\"", '"', 0) == [4, 8]
  {
    ChangeDoubleAheadFrom7();
  }

  lemma ChangeDoubleAheadFrom7()
    ensures Q.QuotesSkipping("one \"two\"", '"', 7) == [8]
  {
  }

  /** `ci"` on the closing quote of the first of two strings takes the first. */
  lemma ChangeDoubleOnClosingOfFirst(st: State)
    requires st == Start(["one \"two\" three \"four\""], 0, 8)
    ensures Case(st, "ci\"", ["one \"\" three \"four\""], 0, 5, Insert)
  {
    ChangeDoubleOnClosingOfFirstObject();
    ChangeDoubleOnClosingOfFirstKeys();
    QuoteCase(st, "one \"two\" three \"four\"", 8, "ci\"", ChangeText, 1, false, '"', 5, 8, "one \"\" three \"four\"", 5);
  }

  lemma ChangeDoubleOnClosingOfFirstKeys()
    ensures '\n' !in "one \"two\" three \"four\"" && "one \"\" three \"four\"" == "one \"two\" three \"four\""[..5] + "one \"two\" three \"four\""[8..]
    ensures ParseCommand("ci\"") == Some((Operate(ChangeText, 1, Object(false, '"')), ""))
  {
  }

  lemma ChangeDoubleOnClosingOfFirstObject()
    ensures Q.QuoteObject("one \"two\" three \"four\"", 8, '"', false, 1) == Some(Q.Span(5, 8))
  {
    ChangeDoubleOnClosingOfFirstPair();
    InnerQuotes("one \"two\" three \"four\"", 8, '"', 1, Q.QuotePair(0, 4, 8));
  }

  lemma ChangeDoubleOnClosingOfFirstPair()
    ensures Q.EnclosingQuotes("one \"two\" three \"four\"", 8, '"') == Some(Q.QuotePair(0, 4, 8))
  {
    ChangeDoubleOnClosingOfFirstColumns();
  }

  lemma ChangeDoubleOnClosingOfFirstColumns()
    ensures Q.QuoteColumns("one \"two\" three \"four\"", '"') == [4, 8, 16, 21]
  {
    ChangeDoubleOnClosingOfFirstQuotes();
    Q.SkippingFindsQuotes("one \"two\" three \"four\"", '"', 0);
  }

  lemma ChangeDoubleOnClosingOfFirstQuotes()
    ensures Q.QuotesSkipping("one \"two\" three \"four\"", '"', 0) == [4, 8, 16, 21]
  {
    ChangeDoubleOnClosingOfFirstFrom7();
  }

  lemma ChangeDoubleOnClosingOfFirstFrom7()
    ensures Q.QuotesSkipping("one \"two\" three \"four\"", '"', 7) == [8, 16, 21]
  {
    ChangeDoubleOnClosingOfFirstFrom14();
  }

  lemma ChangeDoubleOnClosingOfFirstFrom14()
    ensures Q.QuotesSkipping("one \"two\" three \"four\"", '"', 14) == [16, 21]
  {
    ChangeDoubleOnClosingOfFirstFrom21();
  }

  lemma ChangeDoubleOnClosingOfFirstFrom21()
    ensures Q.QuotesSkipping("one \"two\" three \"four\"", '"', 21) == [21]
  {
  }

  /** `ci"` on a quote that has no partner finds nothing: nothing changes and the mode stays Normal. */
  lemma ChangeDoubleOnUnpaired(st: State)
    requires st == Start(["one \"two\" three \"four\" five\" six"], 0, 27)
    ensures Case(st, "ci\"", ["one \"two\" three \"four\" five\" six"], 0, 27, Normal)
  {
    ChangeDoubleOnUnpairedObject();
    ChangeDoubleOnUnpairedKeys();
    NoQuoteCase(st, "one \"two\" three \"four\" five\" six", 27, "ci\"", ChangeText, 1, false, '"');
  }

  lemma ChangeDoubleOnUnpairedKeys()
    ensures '\n' !in "one \"two\" three \"four\" five\" six"
    ensures ParseCommand("ci\"") == Some((Operate(ChangeText, 1, Object(false, '"')), ""))
  {
  }

  lemma ChangeDoubleOnUnpairedObject()
    ensures Q.QuoteObject("one \"two\" three \"four\" five\" six", 27, '"', false, 1).None?
  {
    ChangeDoubleOnUnpairedPair();
  }

  lemma ChangeDoubleOnUnpairedPair()
    ensures Q.EnclosingQuotes("one \"two\" three \"four\" five\" six", 27, '"').None?
  {
    ChangeDoubleOnUnpairedColumns();
  }

  lemma ChangeDoubleOnUnpairedColumns()
    ensures Q.QuoteColumns("one \"two\" three \"four\" five\" six", '"') == [4, 8, 16, 21, 27]
  {
    ChangeDoubleOnUnpairedQuotes();
    Q.SkippingFindsQuotes("one \"two\" three \"four\" five\" six", '"', 0);
  }

  lemma ChangeDoubleOnUnpairedQuotes()
    ensures Q.QuotesSkipping("one \"two\" three \"four\" five\" six", '"', 0) == [4, 8, 16, 21, 27]
  {
    ChangeDoubleOnUnpairedFrom7();
  }

  lemma ChangeDoubleOnUnpairedFrom7()
    ensures Q.QuotesSkipping("one \"two\" three \"four\" five\" six", '"', 7) == [8, 16, 21, 27]
  {
    ChangeDoubleOnUnpairedFrom14();
  }

  lemma ChangeDoubleOnUnpairedFrom14()
    ensures Q.QuotesSkipping("one \"two\" three \"four\" five\" six", '"', 14) == [16, 21, 27]
  {
    ChangeDoubleOnUnpairedFrom21();
  }

  lemma ChangeDoubleOnUnpairedFrom21()
    ensures Q.QuotesSkipping("one \"two\" three \"four\" five\" six", '"', 21) == [21, 27]
  {
    ChangeDoubleOnUnpairedFrom28();
  }

  lemma ChangeDoubleOnUnpairedFrom28()
    ensures Q.QuotesSkipping("one \"two\" three \"four\" five\" six", '"', 28) == []
  {
  }

  /** `ca"` before a quoted string with nothing after it takes the blanks before it. */
  lemma AroundDoubleAhead(st: State)
    requires st == Start(["one \"two\""], 0, 0)
    ensures Case(st, "ca\"", ["one"], 0, 3, Insert)
  {
    AroundDoubleAheadObject();
    AroundDoubleAheadKeys();
    QuoteCase(st, "one \"two\"", 0, "ca\"", ChangeText, 1, true, '"', 3, 9, "one", 3);
  }

  lemma AroundDoubleAheadKeys()
    ensures '\n' !in "one \"two\"" && "one" == "one \"two\""[..3] + "one \"two\""[9..]
    ensures ParseCommand("ca\"") == Some((Operate(ChangeText, 1, Object(true, '"')), ""))
  {
  }

  lemma AroundDoubleAheadObject()
    ensures Q.QuoteObject("one \"two\"", 0, '"', true, 1) == Some(Q.Span(3, 9))
  {
    AroundDoubleAheadPair();
    AroundDoubleAheadBlanks();
    QuotesAndLeading("one \"two\"", 0, '"', 1, Q.QuotePair(0, 4, 8), 3);
  }

  lemma AroundDoubleAheadBlanks()
    ensures Q.BlanksAfter("one \"two\"", 9) == 9 && Q.BlanksBefore("one \"two\"", 4) == 3
  {
  }

  lemma AroundDoubleAheadPair()
    ensures Q.EnclosingQuotes("one \"two\"", 0, '"') == Some(Q.QuotePair(0, 4, 8))
  {
    AroundDoubleAheadColumns();
  }

  lemma AroundDoubleAheadColumns()
    ensures Q.QuoteColumns("one \"two\"", '"') == [4, 8]
  {
    AroundDoubleAheadQuotes();
    Q.SkippingFindsQuotes("one \"two\"", '"', 0);
  }

  lemma AroundDoubleAheadQuotes()
    ensures Q.QuotesSkipping("one \"two\"", '"', 0) == [4, 8]
  {
    AroundDoubleAheadFrom7();
  }

  lemma AroundDoubleAheadFrom7()
    ensures Q.QuotesSkipping("one \"two\"", '"', 7) == [8]
  {
  }

  /** `ca"` on the opening quote with nothing after the string takes the blank before it. */
  lemma AroundDoubleOnOpening(st: State)
    requires st == Start(["one \"two\""], 0, 4)
    ensures Case(st, "ca\"", ["one"], 0, 3, Insert)
  {
    AroundDoubleOnOpeningObject();
    AroundDoubleOnOpeningKeys();
    QuoteCase(st, "one \"two\"", 4, "ca\"", ChangeText, 1, true, '"', 3, 9, "one", 3);
  }

  lemma AroundDoubleOnOpeningKeys()
    ensures '\n' !in "one \"two\"" && "one" == "one \"two\""[..3] + "one \"two\""[9..]
    ensures ParseCommand("ca\"") == Some((Operate(ChangeText, 1, Object(true, '"')), ""))
  {
  }

  lemma AroundDoubleOnOpeningObject()
    ensures Q.QuoteObject("one \"two\"", 4, '"', true, 1) == Some(Q.Span(3, 9))
  {
    AroundDoubleOnOpeningPair();
    AroundDoubleOnOpeningBlanks();
    QuotesAndLeading("one \"two\"", 4, '"', 1, Q.QuotePair(0, 4, 8), 3);
  }

  lemma AroundDoubleOnOpeningBlanks()
    ensures Q.BlanksAfter("one \"two\"", 9) == 9 && Q.BlanksBefore("one \"two\"", 4) == 3
  {
  }

  lemma AroundDoubleOnOpeningPair()
    ensures Q.EnclosingQuotes("one \"two\"", 4, '"') == Some(Q.QuotePair(0, 4, 8))
  {
    AroundDoubleOnOpeningColumns();
  }

  lemma AroundDoubleOnOpeningColumns()
    ensures Q.QuoteColumns("one \"two\"", '"') == [4, 8]
  {
    AroundDoubleOnOpeningQuotes();
    Q.SkippingFindsQuotes("one \"two\"", '"', 0);
  }

  lemma AroundDoubleOnOpeningQuotes()
    ensures Q.QuotesSkipping("one \"two\"", '"', 0) == [4, 8]
  {
    AroundDoubleOnOpeningFrom7();
  }

  lemma AroundDoubleOnOpeningFrom7()
    ensures Q.QuotesSkipping("one \"two\"", '"', 7) == [8]
  {
  }

  /** `ca"` takes the blanks after the closing quote. */
  lemma AroundDoubleTrailing(st: State)
    requires st == Start(["one \"two\"            three"], 0, 6)
    ensures Case(st, "ca\"", ["one three"], 0, 4, Insert)
  {
    AroundDoubleTrailingObject();
    AroundDoubleTrailingKeys();
    QuoteCase(st, "one \"two\"            three", 6, "ca\"", ChangeText, 1, true, '"', 4, 21, "one three", 4);
  }

  lemma AroundDoubleTrailingKeys()
    ensures '\n' !in "one \"two\"            three" && "one three" == "one \"two\"            three"[..4] + "one \"two\"            three"[21..]
    ensures ParseCommand("ca\"") == Some((Operate(ChangeText, 1, Object(true, '"')), ""))
  {
  }

  lemma AroundDoubleTrailingObject()
    ensures Q.QuoteObject("one \"two\"            three", 6, '"', true, 1) == Some(Q.Span(4, 21))
  {
    AroundDoubleTrailingPair();
    AroundDoubleTrailingBlanks();
    QuotesAndTrailing("one \"two\"            three", 6, '"', 1, Q.QuotePair(0, 4, 8), 21);
  }

  lemma AroundDoubleTrailingBlanks()
    ensures Q.BlanksAfter("one \"two\"            three", 9) == 21
  {
    assert Q.BlanksAfter("one \"two\"            three", 17) == 21;
    assert Q.BlanksAfter("one \"two\"            three", 13) == 21;
  }

  lemma AroundDoubleTrailingPair()
    ensures Q.EnclosingQuotes("one \"two\"            three", 6, '"') == Some(Q.QuotePair(0, 4, 8))
  {
    AroundDoubleTrailingColumns();
  }

  lemma AroundDoubleTrailingColumns()
    ensures Q.QuoteColumns("one \"two\"            three", '"') == [4, 8]
  {
    AroundDoubleTrailingQuotes();
    Q.SkippingFindsQuotes("one \"two\"            three", '"', 0);
  }

  lemma AroundDoubleTrailingQuotes()
    ensures Q.QuotesSkipping("one \"two\"            three", '"', 0) == [4, 8]
  {
    AroundDoubleTrailingFrom7();
  }

  lemma AroundDoubleTrailingFrom7()
    ensures Q.QuotesSkipping("one \"two\"            three", '"', 7) == [8]
  {
    AroundDoubleTrailingFrom14();
  }

  lemma AroundDoubleTrailingFrom14()
    ensures Q.QuotesSkipping("one \"two\"            three", '"', 14) == []
  {
    AroundDoubleTrailingFrom21();
  }

  lemma AroundDoubleTrailingFrom21()
    ensures Q.QuotesSkipping("one \"two\"            three", '"', 21) == []
  {
  }

  /** `ca"` takes the blanks after the closing quote up to the end of the line, and the next line stays. */
  lemma AroundDoubleTrailingLine(st: State)
    requires st == Start(["one \"two\"   ", "three"], 0, 6)
    ensures Case(st, "ca\"", ["one ", "three"], 0, 4, Insert)
  {
    AroundDoubleTrailingLineObject();
    AroundDoubleTrailingLineKeys();
    QuoteCaseTwoLines(st, "one \"two\"   ", "three", 6, "ca\"", ChangeText, 1, true, '"', 4, 12, "one ", 4);
  }

  lemma AroundDoubleTrailingLineKeys()
    ensures '\n' !in "one \"two\"   " && '\n' !in "three" && "one " == "one \"two\"   "[..4] + "one \"two\"   "[12..]
    ensures ParseCommand("ca\"") == Some((Operate(ChangeText, 1, Object(true, '"')), ""))
  {
  }

  lemma AroundDoubleTrailingLineObject()
    ensures Q.QuoteObject("one \"two\"   ", 6, '"', true, 1) == Some(Q.Span(4, 12))
  {
    AroundDoubleTrailingLinePair();
    AroundDoubleTrailingLineBlanks();
    QuotesAndTrailing("one \"two\"   ", 6, '"', 1, Q.QuotePair(0, 4, 8), 12);
  }

  lemma AroundDoubleTrailingLineBlanks()
    ensures Q.BlanksAfter("one \"two\"   ", 9) == 12
  {
  }

  lemma AroundDoubleTrailingLinePair()
    ensures Q.EnclosingQuotes("one \"two\"   ", 6, '"') == Some(Q.QuotePair(0, 4, 8))
  {
    AroundDoubleTrailingLineColumns();
  }

  lemma AroundDoubleTrailingLineColumns()
    ensures Q.QuoteColumns("one \"two\"   ", '"') == [4, 8]
  {
    AroundDoubleTrailingLineQuotes();
    Q.SkippingFindsQuotes("one \"two\"   ", '"', 0);
  }

  lemma AroundDoubleTrailingLineQuotes()
    ensures Q.QuotesSkipping("one \"two\"   ", '"', 0) == [4, 8]
  {
    AroundDoubleTrailingLineFrom7();
  }

  lemma AroundDoubleTrailingLineFrom7()
    ensures Q.QuotesSkipping("one \"two\"   ", '"', 7) == [8]
  {
  }

  /** `ca"` with no blank after the closing quote takes the blanks before the opening one. */
  lemma AroundDoubleLeading(st: State)
    requires st == Start(["one      \"two\"three"], 0, 11)
    ensures Case(st, "ca\"", ["onethree"], 0, 3, Insert)
  {
    AroundDoubleLeadingObject();
    AroundDoubleLeadingKeys();
    QuoteCase(st, "one      \"two\"three", 11, "ca\"", ChangeText, 1, true, '"', 3, 14, "onethree", 3);
  }

  lemma AroundDoubleLeadingKeys()
    ensures '\n' !in "one      \"two\"three" && "onethree" == "one      \"two\"three"[..3] + "one      \"two\"three"[14..]
    ensures ParseCommand("ca\"") == Some((Operate(ChangeText, 1, Object(true, '"')), ""))
  {
  }

  lemma AroundDoubleLeadingObject()
    ensures Q.QuoteObject("one      \"two\"three", 11, '"', true, 1) == Some(Q.Span(3, 14))
  {
    AroundDoubleLeadingPair();
    AroundDoubleLeadingBlanks();
    QuotesAndLeading("one      \"two\"three", 11, '"', 1, Q.QuotePair(0, 9, 13), 3);
  }

  lemma AroundDoubleLeadingBlanks()
    ensures Q.BlanksAfter("one      \"two\"three", 14) == 14 && Q.BlanksBefore("one      \"two\"three", 9) == 3
  {
    assert Q.BlanksBefore("one      \"two\"three", 7) == 3;
  }

  lemma AroundDoubleLeadingPair()
    ensures Q.EnclosingQuotes("one      \"two\"three", 11, '"') == Some(Q.QuotePair(0, 9, 13))
  {
    AroundDoubleLeadingColumns();
  }

  lemma AroundDoubleLeadingColumns()
    ensures Q.QuoteColumns("one      \"two\"three", '"') == [9, 13]
  {
    AroundDoubleLeadingQuotes();
    Q.SkippingFindsQuotes("one      \"two\"three", '"', 0);
  }

  lemma AroundDoubleLeadingQuotes()
    ensures Q.QuotesSkipping("one      \"two\"three", '"', 0) == [9, 13]
  {
    AroundDoubleLeadingFrom7();
  }

  lemma AroundDoubleLeadingFrom7()
    ensures Q.QuotesSkipping("one      \"two\"three", '"', 7) == [9, 13]
  {
    AroundDoubleLeadingFrom14();
  }

  lemma AroundDoubleLeadingFrom14()
    ensures Q.QuotesSkipping("one      \"two\"three", '"', 14) == []
  {
  }

  /** `c2i"` takes the quotes but no blanks. */
  lemma CountedInnerDouble(st: State)
    requires st == Start(["one      \"two\"three"], 0, 11)
    ensures Case(st, "c2i\"", ["one      three"], 0, 9, Insert)
  {
    CountedInnerDoubleObject();
    CountedInnerDoubleKeys();
    QuoteCase(st, "one      \"two\"three", 11, "c2i\"", ChangeText, 2, false, '"', 9, 14, "one      three", 9);
  }

  lemma CountedInnerDoubleKeys()
    ensures '\n' !in "one      \"two\"three" && "one      three" == "one      \"two\"three"[..9] + "one      \"two\"three"[14..]
    ensures ParseCommand("c2i\"") == Some((Operate(ChangeText, 2, Object(false, '"')), ""))
  {
  }

  lemma CountedInnerDoubleObject()
    ensures Q.QuoteObject("one      \"two\"three", 11, '"', false, 2) == Some(Q.Span(9, 14))
  {
    CountedInnerDoublePair();
    InnerQuotes("one      \"two\"three", 11, '"', 2, Q.QuotePair(0, 9, 13));
  }

  lemma CountedInnerDoublePair()
    ensures Q.EnclosingQuotes("one      \"two\"three", 11, '"') == Some(Q.QuotePair(0, 9, 13))
  {
    CountedInnerDoubleColumns();
  }

  lemma CountedInnerDoubleColumns()
    ensures Q.QuoteColumns("one      \"two\"three", '"') == [9, 13]
  {
    CountedInnerDoubleQuotes();
    Q.SkippingFindsQuotes("one      \"two\"three", '"', 0);
  }

  lemma CountedInnerDoubleQuotes()
    ensures Q.QuotesSkipping("one      \"two\"three", '"', 0) == [9, 13]
  {
    CountedInnerDoubleFrom7();
  }

  lemma CountedInnerDoubleFrom7()
    ensures Q.QuotesSkipping("one      \"two\"three", '"', 7) == [9, 13]
  {
    CountedInnerDoubleFrom14();
  }

  lemma CountedInnerDoubleFrom14()
    ensures Q.QuotesSkipping("one      \"two\"three", '"', 14) == []
  {
  }

  /** `c2i"` takes the quotes and leaves the blanks after them. */
  lemma CountedInnerDoubleLine(st: State)
    requires st == Start(["one \"two\"   ", "three"], 0, 6)
    ensures Case(st, "c2i\"", ["one    ", "three"], 0, 4, Insert)
  {
    CountedInnerDoubleLineObject();
    CountedInnerDoubleLineKeys();
    QuoteCaseTwoLines(st, "one \"two\"   ", "three", 6, "c2i\"", ChangeText, 2, false, '"', 4, 9, "one    ", 4);
  }

  lemma CountedInnerDoubleLineKeys()
    ensures '\n' !in "one \"two\"   " && '\n' !in "three" && "one    " == "one \"two\"   "[..4] + "one \"two\"   "[9..]
    ensures ParseCommand("c2i\"") == Some((Operate(ChangeText, 2, Object(false, '"')), ""))
  {
  }

  lemma CountedInnerDoubleLineObject()
    ensures Q.QuoteObject("one \"two\"   ", 6, '"', false, 2) == Some(Q.Span(4, 9))
  {
    CountedInnerDoubleLinePair();
    InnerQuotes("one \"two\"   ", 6, '"', 2, Q.QuotePair(0, 4, 8));
  }

  lemma CountedInnerDoubleLinePair()
    ensures Q.EnclosingQuotes("one \"two\"   ", 6, '"') == Some(Q.QuotePair(0, 4, 8))
  {
    CountedInnerDoubleLineColumns();
  }

  lemma CountedInnerDoubleLineColumns()
    ensures Q.QuoteColumns("one \"two\"   ", '"') == [4, 8]
  {
    CountedInnerDoubleLineQuotes();
    Q.SkippingFindsQuotes("one \"two\"   ", '"', 0);
  }

  lemma CountedInnerDoubleLineQuotes()
    ensures Q.QuotesSkipping("one \"two\"   ", '"', 0) == [4, 8]
  {
    CountedInnerDoubleLineFrom7();
  }

  lemma CountedInnerDoubleLineFrom7()
    ensures Q.QuotesSkipping("one \"two\"   ", '"', 7) == [8]
  {
  }

  /** `ci"` passes over escaped quotes. */
  lemma ChangeDoubleEscapes(st: State)
    requires st == Start(["\"one \\\"two\\\"\""], 0, 9)
    ensures Case(st, "ci\"", ["\"\""], 0, 1, Insert)
  {
    ChangeDoubleEscapesObject();
    ChangeDoubleEscapesKeys();
    QuoteCase(st, "\"one \\\"two\\\"\"", 9, "ci\"", ChangeText, 1, false, '"', 1, 12, "\"\"", 1);
  }

  lemma ChangeDoubleEscapesKeys()
    ensures '\n' !in "\"one \\\"two\\\"\"" && "\"\"" == "\"one \\\"two\\\"\""[..1] + "\"one \\\"two\\\"\""[12..]
    ensures ParseCommand("ci\"") == Some((Operate(ChangeText, 1, Object(false, '"')), ""))
  {
  }

  lemma ChangeDoubleEscapesObject()
    ensures Q.QuoteObject("\"one \\\"two\\\"\"", 9, '"', false, 1) == Some(Q.Span(1, 12))
  {
    ChangeDoubleEscapesPair();
    InnerQuotes("\"one \\\"two\\\"\"", 9, '"', 1, Q.QuotePair(0, 0, 12));
  }

  lemma ChangeDoubleEscapesPair()
    ensures Q.EnclosingQuotes("\"one \\\"two\\\"\"", 9, '"') == Some(Q.QuotePair(0, 0, 12))
  {
    ChangeDoubleEscapesColumns();
  }

  lemma ChangeDoubleEscapesColumns()
    ensures Q.QuoteColumns("\"one \\\"two\\\"\"", '"') == [0, 12]
  {
    ChangeDoubleEscapesQuotes();
    Q.SkippingFindsQuotes("\"one \\\"two\\\"\"", '"', 0);
  }

  lemma ChangeDoubleEscapesQuotes()
    ensures Q.QuotesSkipping("\"one \\\"two\\\"\"", '"', 0) == [0, 12]
  {
    ChangeDoubleEscapesFrom7();
  }

  lemma ChangeDoubleEscapesFrom7()
    ensures Q.QuotesSkipping("\"one \\\"two\\\"\"", '"', 7) == [12]
  {
  }

  /** `ci"` from the opening quote passes over an escaped quote. */
  lemma ChangeDoubleOneEscape(st: State)
    requires st == Start(["\"one \\\" two\""], 0, 0)
    ensures Case(st, "ci\"", ["\"\""], 0, 1, Insert)
  {
    ChangeDoubleOneEscapeObject();
    ChangeDoubleOneEscapeKeys();
    QuoteCase(st, "\"one \\\" two\"", 0, "ci\"", ChangeText, 1, false, '"', 1, 11, "\"\"", 1);
  }

  lemma ChangeDoubleOneEscapeKeys()
    ensures '\n' !in "\"one \\\" two\"" && "\"\"" == "\"one \\\" two\""[..1] + "\"one \\\" two\""[11..]
    ensures ParseCommand("ci\"") == Some((Operate(ChangeText, 1, Object(false, '"')), ""))
  {
  }

  lemma ChangeDoubleOneEscapeObject()
    ensures Q.QuoteObject("\"one \\\" two\"", 0, '"', false, 1) == Some(Q.Span(1, 11))
  {
    ChangeDoubleOneEscapePair();
    InnerQuotes("\"one \\\" two\"", 0, '"', 1, Q.QuotePair(0, 0, 11));
  }

  lemma ChangeDoubleOneEscapePair()
    ensures Q.EnclosingQuotes("\"one \\\" two\"", 0, '"') == Some(Q.QuotePair(0, 0, 11))
  {
    ChangeDoubleOneEscapeColumns();
  }

  lemma ChangeDoubleOneEscapeColumns()
    ensures Q.QuoteColumns("\"one \\\" two\"", '"') == [0, 11]
  {
    ChangeDoubleOneEscapeQuotes();
    Q.SkippingFindsQuotes("\"one \\\" two\"", '"', 0);
  }

  lemma ChangeDoubleOneEscapeQuotes()
    ensures Q.QuotesSkipping("\"one \\\" two\"", '"', 0) == [0, 11]
  {
    ChangeDoubleOneEscapeFrom7();
  }

  lemma ChangeDoubleOneEscapeFrom7()
    ensures Q.QuotesSkipping("\"one \\\" two\"", '"', 7) == [11]
  {
  }

  /** `ci"` after an escaped quote. */
  lemma ChangeDoubleEscapeBehind(st: State)
    requires st == Start(["one \"two \\\" three\""], 0, 12)
    ensures Case(st, "ci\"", ["one \"\""], 0, 5, Insert)
  {
    ChangeDoubleEscapeBehindObject();
    ChangeDoubleEscapeBehindKeys();
    QuoteCase(st, "one \"two \\\" three\"", 12, "ci\"", ChangeText, 1, false, '"', 5, 17, "one \"\"", 5);
  }

  lemma ChangeDoubleEscapeBehindKeys()
    ensures '\n' !in "one \"two \\\" three\"" && "one \"\"" == "one \"two \\\" three\""[..5] + "one \"two \\\" three\""[17..]
    ensures ParseCommand("ci\"") == Some((Operate(ChangeText, 1, Object(false, '"')), ""))
  {
  }

  lemma ChangeDoubleEscapeBehindObject()
    ensures Q.QuoteObject("one \"two \\\" three\"", 12, '"', false, 1) == Some(Q.Span(5, 17))
  {
    ChangeDoubleEscapeBehindPair();
    InnerQuotes("one \"two \\\" three\"", 12, '"', 1, Q.QuotePair(0, 4, 17));
  }

  lemma ChangeDoubleEscapeBehindPair()
    ensures Q.EnclosingQuotes("one \"two \\\" three\"", 12, '"') == Some(Q.QuotePair(0, 4, 17))
  {
    ChangeDoubleEscapeBehindColumns();
  }

  lemma ChangeDoubleEscapeBehindColumns()
    ensures Q.QuoteColumns("one \"two \\\" three\"", '"') == [4, 17]
  {
    ChangeDoubleEscapeBehindQuotes();
    Q.SkippingFindsQuotes("one \"two \\\" three\"", '"', 0);
  }

  lemma ChangeDoubleEscapeBehindQuotes()
    ensures Q.QuotesSkipping("one \"two \\\" three\"", '"', 0) == [4, 17]
  {
    ChangeDoubleEscapeBehindFrom7();
  }

  lemma ChangeDoubleEscapeBehindFrom7()
    ensures Q.QuotesSkipping("one \"two \\\" three\"", '"', 7) == [17]
  {
    ChangeDoubleEscapeBehindFrom14();
  }

  lemma ChangeDoubleEscapeBehindFrom14()
    ensures Q.QuotesSkipping("one \"two \\\" three\"", '"', 14) == [17]
  {
  }

  /** `ci"` over an escaped backslash. */
  lemma ChangeDoubleEscapedBackslash(st: State)
    requires st == Start(["one \"two \\\\three\""], 0, 7)
    ensures Case(st, "ci\"", ["one \"\""], 0, 5, Insert)
  {
    ChangeDoubleEscapedBackslashObject();
    ChangeDoubleEscapedBackslashKeys();
    QuoteCase(st, "one \"two \\\\three\"", 7, "ci\"", ChangeText, 1, false, '"', 5, 16, "one \"\"", 5);
  }

  lemma ChangeDoubleEscapedBackslashKeys()
    ensures '\n' !in "one \"two \\\\three\"" && "one \"\"" == "one \"two \\\\three\""[..5] + "one \"two \\\\three\""[16..]
    ensures ParseCommand("ci\"") == Some((Operate(ChangeText, 1, Object(false, '"')), ""))
  {
  }

  lemma ChangeDoubleEscapedBackslashObject()
    ensures Q.QuoteObject("one \"two \\\\three\"", 7, '"', false, 1) == Some(Q.Span(5, 16))
  {
    ChangeDoubleEscapedBackslashPair();
    InnerQuotes("one \"two \\\\three\"", 7, '"', 1, Q.QuotePair(0, 4, 16));
  }

  lemma ChangeDoubleEscapedBackslashPair()
    ensures Q.EnclosingQuotes("one \"two \\\\three\"", 7, '"') == Some(Q.QuotePair(0, 4, 16))
  {
    ChangeDoubleEscapedBackslashColumns();
  }

  lemma ChangeDoubleEscapedBackslashColumns()
    ensures Q.QuoteColumns("one \"two \\\\three\"", '"') == [4, 16]
  {
    ChangeDoubleEscapedBackslashQuotes();
    Q.SkippingFindsQuotes("one \"two \\\\three\"", '"', 0);
  }

  lemma ChangeDoubleEscapedBackslashQuotes()
    ensures Q.QuotesSkipping("one \"two \\\\three\"", '"', 0) == [4, 16]
  {
    ChangeDoubleEscapedBackslashFrom7();
  }

  lemma ChangeDoubleEscapedBackslashFrom7()
    ensures Q.QuotesSkipping("one \"two \\\\three\"", '"', 7) == [16]
  {
    ChangeDoubleEscapedBackslashFrom14();
  }

  lemma ChangeDoubleEscapedBackslashFrom14()
    ensures Q.QuotesSkipping("one \"two \\\\three\"", '"', 14) == [16]
  {
  }

  /** `ci"` on a closing quote after an escaped backslash. */
  lemma ChangeDoubleAfterBackslash(st: State)
    requires st == Start(["\"\\\\\""], 0, 3)
    ensures Case(st, "ci\"", ["\"\""], 0, 1, Insert)
  {
    ChangeDoubleAfterBackslashObject();
    ChangeDoubleAfterBackslashKeys();
    QuoteCase(st, "\"\\\\\"", 3, "ci\"", ChangeText, 1, false, '"', 1, 3, "\"\"", 1);
  }

  lemma ChangeDoubleAfterBackslashKeys()
    ensures '\n' !in "\"\\\\\"" && "\"\"" == "\"\\\\\""[..1] + "\"\\\\\""[3..]
    ensures ParseCommand("ci\"") == Some((Operate(ChangeText, 1, Object(false, '"')), ""))
  {
  }

  lemma ChangeDoubleAfterBackslashObject()
    ensures Q.QuoteObject("\"\\\\\"", 3, '"', false, 1) == Some(Q.Span(1, 3))
  {
    ChangeDoubleAfterBackslashPair();
    InnerQuotes("\"\\\\\"", 3, '"', 1, Q.QuotePair(0, 0, 3));
  }

  lemma ChangeDoubleAfterBackslashPair()
    ensures Q.EnclosingQuotes("\"\\\\\"", 3, '"') == Some(Q.QuotePair(0, 0, 3))
  {
    ChangeDoubleAfterBackslashColumns();
  }

  lemma ChangeDoubleAfterBackslashColumns()
    ensures Q.QuoteColumns("\"\\\\\"", '"') == [0, 3]
  {
    ChangeDoubleAfterBackslashQuotes();
    Q.SkippingFindsQuotes("\"\\\\\"", '"', 0);
  }

  lemma ChangeDoubleAfterBackslashQuotes()
    ensures Q.QuotesSkipping("\"\\\\\"", '"', 0) == [0, 3]
  {
  }

  /** `ca"` on the closing quote. */
  lemma AroundDoubleOnClosing(st: State)
    requires st == Start(["one \"two\""], 0, 8)
    ensures Case(st, "ca\"", ["one"], 0, 3, Insert)
  {
    AroundDoubleOnClosingObject();
    AroundDoubleOnClosingKeys();
    QuoteCase(st, "one \"two\"", 8, "ca\"", ChangeText, 1, true, '"', 3, 9, "one", 3);
  }

  lemma AroundDoubleOnClosingKeys()
    ensures '\n' !in "one \"two\"" && "one" == "one \"two\""[..3] + "one \"two\""[9..]
    ensures ParseCommand("ca\"") == Some((Operate(ChangeText, 1, Object(true, '"')), ""))
  {
  }

  lemma AroundDoubleOnClosingObject()
    ensures Q.QuoteObject("one \"two\"", 8, '"', true, 1) == Some(Q.Span(3, 9))
  {
    AroundDoubleOnClosingPair();
    AroundDoubleOnClosingBlanks();
    QuotesAndLeading("one \"two\"", 8, '"', 1, Q.QuotePair(0, 4, 8), 3);
  }

  lemma AroundDoubleOnClosingBlanks()
    ensures Q.BlanksAfter("one \"two\"", 9) == 9 && Q.BlanksBefore("one \"two\"", 4) == 3
  {
  }

  lemma AroundDoubleOnClosingPair()
    ensures Q.EnclosingQuotes("one \"two\"", 8, '"') == Some(Q.QuotePair(0, 4, 8))
  {
    AroundDoubleOnClosingColumns();
  }

  lemma AroundDoubleOnClosingColumns()
    ensures Q.QuoteColumns("one \"two\"", '"') == [4, 8]
  {
    AroundDoubleOnClosingQuotes();
    Q.SkippingFindsQuotes("one \"two\"", '"', 0);
  }

  lemma AroundDoubleOnClosingQuotes()
    ensures Q.QuotesSkipping("one \"two\"", '"', 0) == [4, 8]
  {
    AroundDoubleOnClosingFrom7();
  }

  lemma AroundDoubleOnClosingFrom7()
    ensures Q.QuotesSkipping("one \"two\"", '"', 7) == [8]
  {
  }

  /** `ci"` over a run of backslashes. */
  lemma ChangeDoubleEscapeRun(st: State)
    requires st == Start(["\"two\\\\\\\"\""], 0, 4)
    ensures Case(st, "ci\"", ["\"\""], 0, 1, Insert)
  {
    ChangeDoubleEscapeRunObject();
    ChangeDoubleEscapeRunKeys();
    QuoteCase(st, "\"two\\\\\\\"\"", 4, "ci\"", ChangeText, 1, false, '"', 1, 8, "\"\"", 1);
  }

  lemma ChangeDoubleEscapeRunKeys()
    ensures '\n' !in "\"two\\\\\\\"\"" && "\"\"" == "\"two\\\\\\\"\""[..1] + "\"two\\\\\\\"\""[8..]
    ensures ParseCommand("ci\"") == Some((Operate(ChangeText, 1, Object(false, '"')), ""))
  {
  }

  lemma ChangeDoubleEscapeRunObject()
    ensures Q.QuoteObject("\"two\\\\\\\"\"", 4, '"', false, 1) == Some(Q.Span(1, 8))
  {
    ChangeDoubleEscapeRunPair();
    InnerQuotes("\"two\\\\\\\"\"", 4, '"', 1, Q.QuotePair(0, 0, 8));
  }

  lemma ChangeDoubleEscapeRunPair()
    ensures Q.EnclosingQuotes("\"two\\\\\\\"\"", 4, '"') == Some(Q.QuotePair(0, 0, 8))
  {
    ChangeDoubleEscapeRunColumns();
  }

  lemma ChangeDoubleEscapeRunColumns()
    ensures Q.QuoteColumns("\"two\\\\\\\"\"", '"') == [0, 8]
  {
    ChangeDoubleEscapeRunQuotes();
    Q.SkippingFindsQuotes("\"two\\\\\\\"\"", '"', 0);
  }

  lemma ChangeDoubleEscapeRunQuotes()
    ensures Q.QuotesSkipping("\"two\\\\\\\"\"", '"', 0) == [0, 8]
  {
    ChangeDoubleEscapeRunFrom8();
  }

  lemma ChangeDoubleEscapeRunFrom8()
    ensures Q.QuotesSkipping("\"two\\\\\\\"\"", '"', 8) == [8]
  {
  }

  /** `ci"` on the opening quote of the second of two strings takes the second. */
  lemma ChangeDoubleSecondString(st: State)
    requires st == Start(["\"one\" \"two\""], 0, 6)
    ensures Case(st, "ci\"", ["\"one\" \"\""], 0, 7, Insert)
  {
    ChangeDoubleSecondStringObject();
    ChangeDoubleSecondStringKeys();
    QuoteCase(st, "\"one\" \"two\"", 6, "ci\"", ChangeText, 1, false, '"', 7, 10, "\"one\" \"\"", 7);
  }

  lemma ChangeDoubleSecondStringKeys()
    ensures '\n' !in "\"one\" \"two\"" && "\"one\" \"\"" == "\"one\" \"two\""[..7] + "\"one\" \"two\""[10..]
    ensures ParseCommand("ci\"") == Some((Operate(ChangeText, 1, Object(false, '"')), ""))
  {
  }

  lemma ChangeDoubleSecondStringObject()
    ensures Q.QuoteObject("\"one\" \"two\"", 6, '"', false, 1) == Some(Q.Span(7, 10))
  {
    ChangeDoubleSecondStringPair();
    InnerQuotes("\"one\" \"two\"", 6, '"', 1, Q.QuotePair(1, 6, 10));
  }

  lemma ChangeDoubleSecondStringPair()
    ensures Q.EnclosingQuotes("\"one\" \"two\"", 6, '"') == Some(Q.QuotePair(1, 6, 10))
  {
    ChangeDoubleSecondStringColumns();
  }

  lemma ChangeDoubleSecondStringColumns()
    ensures Q.QuoteColumns("\"one\" \"two\"", '"') == [0, 4, 6, 10]
  {
    ChangeDoubleSecondStringQuotes();
    Q.SkippingFindsQuotes("\"one\" \"two\"", '"', 0);
  }

  lemma ChangeDoubleSecondStringQuotes()
    ensures Q.QuotesSkipping("\"one\" \"two\"", '"', 0) == [0, 4, 6, 10]
  {
    ChangeDoubleSecondStringFrom7();
  }

  lemma ChangeDoubleSecondStringFrom7()
    ensures Q.QuotesSkipping("\"one\" \"two\"", '"', 7) == [10]
  {
  }

  /** `ca"` after the last quoted string finds nothing. */
  lemma AroundDoubleBehind(st: State)
    requires st == Start(["\"one\" two"], 0, 6)
    ensures Case(st, "ca\"", ["\"one\" two"], 0, 6, Normal)
  {
    AroundDoubleBehindObject();
    AroundDoubleBehindKeys();
    NoQuoteCase(st, "\"one\" two", 6, "ca\"", ChangeText, 1, true, '"');
  }

  lemma AroundDoubleBehindKeys()
    ensures '\n' !in "\"one\" two"
    ensures ParseCommand("ca\"") == Some((Operate(ChangeText, 1, Object(true, '"')), ""))
  {
  }

  lemma AroundDoubleBehindObject()
    ensures Q.QuoteObject("\"one\" two", 6, '"', true, 1).None?
  {
    AroundDoubleBehindPair();
  }

  lemma AroundDoubleBehindPair()
    ensures Q.EnclosingQuotes("\"one\" two", 6, '"').None?
  {
    AroundDoubleBehindColumns();
  }

  lemma AroundDoubleBehindColumns()
    ensures Q.QuoteColumns("\"one\" two", '"') == [0, 4]
  {
    AroundDoubleBehindQuotes();
    Q.SkippingFindsQuotes("\"one\" two", '"', 0);
  }

  lemma AroundDoubleBehindQuotes()
    ensures Q.QuotesSkipping("\"one\" two", '"', 0) == [0, 4]
  {
    AroundDoubleBehindFrom7();
  }

  lemma AroundDoubleBehindFrom7()
    ensures Q.QuotesSkipping("\"one\" two", '"', 7) == []
  {
  }

  /** `ca`` inside a string in backticks. */
  lemma AroundBacktick(st: State)
    requires st == Start(["one `two`"], 0, 5)
    ensures Case(st, "ca`", ["one"], 0, 3, Insert)
  {
    AroundBacktickObject();
    AroundBacktickKeys();
    QuoteCase(st, "one `two`", 5, "ca`", ChangeText, 1, true, '`', 3, 9, "one", 3);
  }

  lemma AroundBacktickKeys()
    ensures '\n' !in "one `two`" && "one" == "one `two`"[..3] + "one `two`"[9..]
    ensures ParseCommand("ca`") == Some((Operate(ChangeText, 1, Object(true, '`')), ""))
  {
  }

  lemma AroundBacktickObject()
    ensures Q.QuoteObject("one `two`", 5, '`', true, 1) == Some(Q.Span(3, 9))
  {
    AroundBacktickPair();
    AroundBacktickBlanks();
    QuotesAndLeading("one `two`", 5, '`', 1, Q.QuotePair(0, 4, 8), 3);
  }

  lemma AroundBacktickBlanks()
    ensures Q.BlanksAfter("one `two`", 9) == 9 && Q.BlanksBefore("one `two`", 4) == 3
  {
  }

  lemma AroundBacktickPair()
    ensures Q.EnclosingQuotes("one `two`", 5, '`') == Some(Q.QuotePair(0, 4, 8))
  {
    AroundBacktickColumns();
  }

  lemma AroundBacktickColumns()
    ensures Q.QuoteColumns("one `two`", '`') == [4, 8]
  {
    AroundBacktickQuotes();
    Q.SkippingFindsQuotes("one `two`", '`', 0);
  }

  lemma AroundBacktickQuotes()
    ensures Q.QuotesSkipping("one `two`", '`', 0) == [4, 8]
  {
    AroundBacktickFrom7();
  }

  lemma AroundBacktickFrom7()
    ensures Q.QuotesSkipping("one `two`", '`', 7) == [8]
  {
  }

}
