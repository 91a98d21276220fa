/**
 * The repository's test cases for `[count]<C-a>` and `[count]<C-x>` in
 * Normal mode, as lemmas: from the start line and cursor, the keys leave
 * the line and cursor the test expects. Each case rests on small lemmas
 * that work out the literals the scan finds on the line and the text that
 * replaces the one that changes.
 */
module AddCases {
  import opened Wrappers
  import opened Buffer
  import opened Numbers
  import opened Keys
  import opened Session
  import opened Scenario

  /** `<C-a>` on a word reaches the number after it. */
  lemma AddBehindWord(st: State)
    requires st == Start(["one 9"], 0, 0)
    ensures Case(st, "<C-a>", ["one 10"], 0, 5, Normal)
  {
    AddBehindWordStep();
    AddLastCase(st, ["one 9"], 0, 0, "<C-a>", 1, false, Change(0, "10", "one 10", 5), ["one 10"], 5);
  }

  lemma AddBehindWordStep()
    ensures LinesBreakFree(["one 9"], 0)
    ensures ParseCommand("<C-a>") == Some((Add(1, false), ""))
    ensures IncrementLine(["one 9"][0], 0, Delta(1, false)) == Some(Change(0, "10", "one 10", 5))
    ensures ["one 10"] == ["one 9"][0 := "one 10"]
  {
    AddBehindWordBuffer();
    AddKeys();
    AddBehindWordChange();
    OneLineUpdate("one 9", "one 10");
  }

  lemma AddBehindWordBuffer()
    ensures LinesBreakFree(["one 9"], 0)
  {
  }

  lemma AddBehindWordSplice()
    ensures "one 10" == "one 9"[..4] + "10" + "one 9"[5..]
  {
  }

  lemma AddBehindWordChange()
    ensures IncrementLine("one 9", 0, 1) == Some(Change(0, "10", "one 10", 5))
  {
    AddBehindWordLiterals();
    AddBehindWordText();
    AddBehindWordSplice();
    IncrementFound("one 9", 0, 1, [Literal(Decimal, 4, 4, 5)], 0, "10", "one 10", 5);
  }

  lemma AddBehindWordLiterals()
    ensures Literals("one 9") == [Literal(Decimal, 4, 4, 5)]
  {
    var s := "one 9";
    assert LiteralsFrom(s, 5) == [];
    assert LiteralAt(s, 4) == Literal(Decimal, 4, 4, 5);
    assert LiteralsFrom(s, 4) == [Literal(Decimal, 4, 4, 5)];
    assert LiteralsFrom(s, 3) == [Literal(Decimal, 4, 4, 5)];
    assert LiteralsFrom(s, 2) == [Literal(Decimal, 4, 4, 5)];
    assert LiteralsFrom(s, 1) == [Literal(Decimal, 4, 4, 5)];
    assert LiteralsFrom(s, 0) == [Literal(Decimal, 4, 4, 5)];
  }

  lemma AddBehindWordText()
    ensures IsLiteral("one 9", Literal(Decimal, 4, 4, 5)) && Render("one 9", Literal(Decimal, 4, 4, 5), 1) == "10"
  {
    AddBehindWordTextValue();
    DecimalDigits10();
    RenderDecimal("one 9", Literal(Decimal, 4, 4, 5), 1, 9, "10", "10");
  }

  lemma AddBehindWordTextValue()
    ensures IsLiteral("one 9", Literal(Decimal, 4, 4, 5)) && Value("one 9", Literal(Decimal, 4, 4, 5)) == 9
  {
  }

  /** `<C-a>` changes the first number that ends after the cursor, past a word. */
  lemma AddSkipsWord(st: State)
    requires st == Start(["1 one 2"], 0, 2)
    ensures Case(st, "<C-a>", ["1 one 3"], 0, 6, Normal)
  {
    AddSkipsWordStep();
    AddLastCase(st, ["1 one 2"], 0, 2, "<C-a>", 1, false, Change(1, "3", "1 one 3", 6), ["1 one 3"], 6);
  }

  lemma AddSkipsWordStep()
    ensures LinesBreakFree(["1 one 2"], 0)
    ensures ParseCommand("<C-a>") == Some((Add(1, false), ""))
    ensures IncrementLine(["1 one 2"][0], 2, Delta(1, false)) == Some(Change(1, "3", "1 one 3", 6))
    ensures ["1 one 3"] == ["1 one 2"][0 := "1 one 3"]
  {
    AddSkipsWordBuffer();
    AddKeys();
    AddSkipsWordChange();
    OneLineUpdate("1 one 2", "1 one 3");
  }

  lemma AddSkipsWordBuffer()
    ensures LinesBreakFree(["1 one 2"], 0)
  {
  }

  lemma AddSkipsWordSplice()
    ensures "1 one 3" == "1 one 2"[..6] + "3" + "1 one 2"[7..]
  {
  }

  lemma AddSkipsWordChange()
    ensures IncrementLine("1 one 2", 2, 1) == Some(Change(1, "3", "1 one 3", 6))
  {
    AddSkipsWordLiterals();
    AddSkipsWordText();
    AddSkipsWordSplice();
    IncrementFound("1 one 2", 2, 1, [Literal(Decimal, 0, 0, 1), Literal(Decimal, 6, 6, 7)], 1, "3", "1 one 3", 6);
  }

  lemma AddSkipsWordLiterals()
    ensures Literals("1 one 2") == [Literal(Decimal, 0, 0, 1), Literal(Decimal, 6, 6, 7)]
  {
    var s := "1 one 2";
    assert LiteralsFrom(s, 7) == [];
    assert LiteralAt(s, 6) == Literal(Decimal, 6, 6, 7);
    assert LiteralsFrom(s, 6) == [Literal(Decimal, 6, 6, 7)];
    assert LiteralsFrom(s, 5) == [Literal(Decimal, 6, 6, 7)];
    assert LiteralsFrom(s, 4) == [Literal(Decimal, 6, 6, 7)];
    assert LiteralsFrom(s, 3) == [Literal(Decimal, 6, 6, 7)];
    assert LiteralsFrom(s, 2) == [Literal(Decimal, 6, 6, 7)];
    assert LiteralsFrom(s, 1) == [Literal(Decimal, 6, 6, 7)];
    assert LiteralAt(s, 0) == Literal(Decimal, 0, 0, 1);
    assert LiteralsFrom(s, 0) == [Literal(Decimal, 0, 0, 1), Literal(Decimal, 6, 6, 7)];
  }

  lemma AddSkipsWordText()
    ensures IsLiteral("1 one 2", Literal(Decimal, 6, 6, 7)) && Render("1 one 2", Literal(Decimal, 6, 6, 7), 1) == "3"
  {
    AddSkipsWordTextValue();
    DecimalDigits3();
    RenderDecimal("1 one 2", Literal(Decimal, 6, 6, 7), 1, 2, "3", "3");
  }

  lemma AddSkipsWordTextValue()
    ensures IsLiteral("1 one 2", Literal(Decimal, 6, 6, 7)) && Value("1 one 2", Literal(Decimal, 6, 6, 7)) == 2
  {
  }

  /** `<C-a>` on a negative number moves it towards zero. */
  lemma AddNegativeInWord(st: State)
    requires st == Start(["one -11"], 0, 5)
    ensures Case(st, "<C-a>", ["one -10"], 0, 6, Normal)
  {
    AddNegativeInWordStep();
    AddLastCase(st, ["one -11"], 0, 5, "<C-a>", 1, false, Change(0, "-10", "one -10", 6), ["one -10"], 6);
  }

  lemma AddNegativeInWordStep()
    ensures LinesBreakFree(["one -11"], 0)
    ensures ParseCommand("<C-a>") == Some((Add(1, false), ""))
    ensures IncrementLine(["one -11"][0], 5, Delta(1, false)) == Some(Change(0, "-10", "one -10", 6))
    ensures ["one -10"] == ["one -11"][0 := "one -10"]
  {
    AddNegativeInWordBuffer();
    AddKeys();
    AddNegativeInWordChange();
    OneLineUpdate("one -11", "one -10");
  }

  lemma AddNegativeInWordBuffer()
    ensures LinesBreakFree(["one -11"], 0)
  {
  }

  lemma AddNegativeInWordSplice()
    ensures "one -10" == "one -11"[..4] + "-10" + "one -11"[7..]
  {
  }

  lemma AddNegativeInWordChange()
    ensures IncrementLine("one -11", 5, 1) == Some(Change(0, "-10", "one -10", 6))
  {
    AddNegativeInWordLiterals();
    AddNegativeInWordText();
    AddNegativeInWordSplice();
    IncrementFound("one -11", 5, 1, [Literal(Decimal, 4, 5, 7)], 0, "-10", "one -10", 6);
  }

  lemma AddNegativeInWordLiterals()
    ensures Literals("one -11") == [Literal(Decimal, 4, 5, 7)]
  {
    var s := "one -11";
    assert LiteralsFrom(s, 7) == [];
    assert LiteralAt(s, 5) == Literal(Decimal, 4, 5, 7);
    assert LiteralsFrom(s, 5) == [Literal(Decimal, 4, 5, 7)];
    assert LiteralsFrom(s, 4) == [Literal(Decimal, 4, 5, 7)];
    assert LiteralsFrom(s, 3) == [Literal(Decimal, 4, 5, 7)];
    assert LiteralsFrom(s, 2) == [Literal(Decimal, 4, 5, 7)];
    assert LiteralsFrom(s, 1) == [Literal(Decimal, 4, 5, 7)];
    assert LiteralsFrom(s, 0) == [Literal(Decimal, 4, 5, 7)];
  }

  lemma AddNegativeInWordText()
    ensures IsLiteral("one -11", Literal(Decimal, 4, 5, 7)) && Render("one -11", Literal(Decimal, 4, 5, 7), 1) == "-10"
  {
    AddNegativeInWordTextValue();
    DecimalDigits10();
    RenderDecimal("one -11", Literal(Decimal, 4, 5, 7), 1, -11, "10", "-10");
  }

  lemma AddNegativeInWordTextValue()
    ensures IsLiteral("one -11", Literal(Decimal, 4, 5, 7)) && Value("one -11", Literal(Decimal, 4, 5, 7)) == -11
  {
  }

  /** `<C-a>` on a hex number carries into a new digit and keeps the prefix. */
  lemma AddHex(st: State)
    requires st == Start(["0xf"], 0, 0)
    ensures Case(st, "<C-a>", ["0x10"], 0, 3, Normal)
  {
    AddHexStep();
    AddLastCase(st, ["0xf"], 0, 0, "<C-a>", 1, false, Change(0, "0x10", "0x10", 3), ["0x10"], 3);
  }

  lemma AddHexStep()
    ensures LinesBreakFree(["0xf"], 0)
    ensures ParseCommand("<C-a>") == Some((Add(1, false), ""))
    ensures IncrementLine(["0xf"][0], 0, Delta(1, false)) == Some(Change(0, "0x10", "0x10", 3))
    ensures ["0x10"] == ["0xf"][0 := "0x10"]
  {
    AddHexBuffer();
    AddKeys();
    AddHexChange();
    OneLineUpdate("0xf", "0x10");
  }

  lemma AddHexBuffer()
    ensures LinesBreakFree(["0xf"], 0)
  {
  }

  lemma AddHexSplice()
    ensures "0x10" == "0xf"[..0] + "0x10" + "0xf"[3..]
  {
  }

  lemma AddHexChange()
    ensures IncrementLine("0xf", 0, 1) == Some(Change(0, "0x10", "0x10", 3))
  {
    AddHexLiterals();
    AddHexText();
    AddHexSplice();
    IncrementFound("0xf", 0, 1, [Literal(Hex, 0, 2, 3)], 0, "0x10", "0x10", 3);
  }

  lemma AddHexLiterals()
    ensures Literals("0xf") == [Literal(Hex, 0, 2, 3)]
  {
    var s := "0xf";
    assert LiteralsFrom(s, 3) == [];
    assert LiteralAt(s, 0) == Literal(Hex, 0, 2, 3);
    assert LiteralsFrom(s, 0) == [Literal(Hex, 0, 2, 3)];
  }

  lemma AddHexText()
    ensures IsLiteral("0xf", Literal(Hex, 0, 2, 3)) && Render("0xf", Literal(Hex, 0, 2, 3), 1) == "0x10"
  {
    AddHexTextValue();
    HexDigits16();
    RenderHex("0xf", Literal(Hex, 0, 2, 3), 1, 15, false, "10", "0x10");
  }

  lemma AddHexTextValue()
    ensures IsLiteral("0xf", Literal(Hex, 0, 2, 3)) && Value("0xf", Literal(Hex, 0, 2, 3)) == 15
    ensures HexUpper("0xf", 2, 3) == false
  {
  }

  /** `<C-a>` before a point changes the digits before it. */
  lemma AddBeforePoint(st: State)
    requires st == Start(["11.123"], 0, 1)
    ensures Case(st, "<C-a>", ["12.123"], 0, 1, Normal)
  {
    AddBeforePointStep();
    AddLastCase(st, ["11.123"], 0, 1, "<C-a>", 1, false, Change(0, "12", "12.123", 1), ["12.123"], 1);
  }

  lemma AddBeforePointStep()
    ensures LinesBreakFree(["11.123"], 0)
    ensures ParseCommand("<C-a>") == Some((Add(1, false), ""))
    ensures IncrementLine(["11.123"][0], 1, Delta(1, false)) == Some(Change(0, "12", "12.123", 1))
    ensures ["12.123"] == ["11.123"][0 := "12.123"]
  {
    AddBeforePointBuffer();
    AddKeys();
    AddBeforePointChange();
    OneLineUpdate("11.123", "12.123");
  }

  lemma AddBeforePointBuffer()
    ensures LinesBreakFree(["11.123"], 0)
  {
  }

  lemma AddBeforePointSplice()
    ensures "12.123" == "11.123"[..0] + "12" + "11.123"[2..]
  {
  }

  lemma AddBeforePointChange()
    ensures IncrementLine("11.123", 1, 1) == Some(Change(0, "12", "12.123", 1))
  {
    AddBeforePointLiterals();
    AddBeforePointText();
    AddBeforePointSplice();
    IncrementFound("11.123", 1, 1, [Literal(Decimal, 0, 0, 2), Literal(Decimal, 3, 3, 6)], 0, "12", "12.123", 1);
  }

  lemma AddBeforePointLiterals()
    ensures Literals("11.123") == [Literal(Decimal, 0, 0, 2), Literal(Decimal, 3, 3, 6)]
  {
    var s := "11.123";
    assert LiteralsFrom(s, 6) == [];
    assert LiteralAt(s, 3) == Literal(Decimal, 3, 3, 6);
    assert LiteralsFrom(s, 3) == [Literal(Decimal, 3, 3, 6)];
    assert LiteralsFrom(s, 2) == [Literal(Decimal, 3, 3, 6)];
    assert LiteralAt(s, 0) == Literal(Decimal, 0, 0, 2);
    assert LiteralsFrom(s, 0) == [Literal(Decimal, 0, 0, 2), Literal(Decimal, 3, 3, 6)];
  }

  lemma AddBeforePointText()
    ensures IsLiteral("11.123", Literal(Decimal, 0, 0, 2)) && Render("11.123", Literal(Decimal, 0, 0, 2), 1) == "12"
  {
    AddBeforePointTextValue();
    DecimalDigits12();
    RenderDecimal("11.123", Literal(Decimal, 0, 0, 2), 1, 11, "12", "12");
  }

  lemma AddBeforePointTextValue()
    ensures IsLiteral("11.123", Literal(Decimal, 0, 0, 2)) && Value("11.123", Literal(Decimal, 0, 0, 2)) == 11
  {
  }

  /** `15<C-a>` takes -10 past zero to 5. */
  lemma AddCountPastZero(st: State)
    requires st == Start(["-10"], 0, 0)
    ensures Case(st, "15<C-a>", ["5"], 0, 0, Normal)
  {
    AddCountPastZeroStep();
    AddLastCase(st, ["-10"], 0, 0, "15<C-a>", 15, false, Change(0, "5", "5", 0), ["5"], 0);
  }

  lemma AddCountPastZeroStep()
    ensures LinesBreakFree(["-10"], 0)
    ensures ParseCommand("15<C-a>") == Some((Add(15, false), ""))
    ensures IncrementLine(["-10"][0], 0, Delta(15, false)) == Some(Change(0, "5", "5", 0))
    ensures ["5"] == ["-10"][0 := "5"]
  {
    AddCountPastZeroBuffer();
    Add15Keys();
    AddCountPastZeroChange();
    OneLineUpdate("-10", "5");
  }

  lemma AddCountPastZeroBuffer()
    ensures LinesBreakFree(["-10"], 0)
  {
  }

  lemma AddCountPastZeroSplice()
    ensures "5" == "-10"[..0] + "5" + "-10"[3..]
  {
  }

  lemma AddCountPastZeroChange()
    ensures IncrementLine("-10", 0, 15) == Some(Change(0, "5", "5", 0))
  {
    AddCountPastZeroLiterals();
    AddCountPastZeroText();
    AddCountPastZeroSplice();
    IncrementFound("-10", 0, 15, [Literal(Decimal, 0, 1, 3)], 0, "5", "5", 0);
  }

  lemma AddCountPastZeroLiterals()
    ensures Literals("-10") == [Literal(Decimal, 0, 1, 3)]
  {
    var s := "-10";
    assert LiteralsFrom(s, 3) == [];
    assert LiteralAt(s, 1) == Literal(Decimal, 0, 1, 3);
    assert LiteralsFrom(s, 1) == [Literal(Decimal, 0, 1, 3)];
    assert LiteralsFrom(s, 0) == [Literal(Decimal, 0, 1, 3)];
  }

  lemma AddCountPastZeroText()
    ensures IsLiteral("-10", Literal(Decimal, 0, 1, 3)) && Render("-10", Literal(Decimal, 0, 1, 3), 15) == "5"
  {
    AddCountPastZeroTextValue();
    DecimalDigits5();
    RenderDecimal("-10", Literal(Decimal, 0, 1, 3), 15, -10, "5", "5");
  }

  lemma AddCountPastZeroTextValue()
    ensures IsLiteral("-10", Literal(Decimal, 0, 1, 3)) && Value("-10", Literal(Decimal, 0, 1, 3)) == -10
  {
  }

  /** `10<C-a>` after a point changes the digits after it, as a number of its own. */
  lemma AddAfterPoint(st: State)
    requires st == Start(["-10.1"], 0, 4)
    ensures Case(st, "10<C-a>", ["-10.11"], 0, 5, Normal)
  {
    AddAfterPointStep();
    AddLastCase(st, ["-10.1"], 0, 4, "10<C-a>", 10, false, Change(1, "11", "-10.11", 5), ["-10.11"], 5);
  }

  lemma AddAfterPointStep()
    ensures LinesBreakFree(["-10.1"], 0)
    ensures ParseCommand("10<C-a>") == Some((Add(10, false), ""))
    ensures IncrementLine(["-10.1"][0], 4, Delta(10, false)) == Some(Change(1, "11", "-10.11", 5))
    ensures ["-10.11"] == ["-10.1"][0 := "-10.11"]
  {
    AddAfterPointBuffer();
    Add10Keys();
    AddAfterPointChange();
    OneLineUpdate("-10.1", "-10.11");
  }

  lemma AddAfterPointBuffer()
    ensures LinesBreakFree(["-10.1"], 0)
  {
  }

  lemma AddAfterPointSplice()
    ensures "-10.11" == "-10.1"[..4] + "11" + "-10.1"[5..]
  {
  }

  lemma AddAfterPointChange()
    ensures IncrementLine("-10.1", 4, 10) == Some(Change(1, "11", "-10.11", 5))
  {
    AddAfterPointLiterals();
    AddAfterPointText();
    AddAfterPointSplice();
    IncrementFound("-10.1", 4, 10, [Literal(Decimal, 0, 1, 3), Literal(Decimal, 4, 4, 5)], 1, "11", "-10.11", 5);
  }

  lemma AddAfterPointLiterals()
    ensures Literals("-10.1") == [Literal(Decimal, 0, 1, 3), Literal(Decimal, 4, 4, 5)]
  {
    var s := "-10.1";
    assert LiteralsFrom(s, 5) == [];
    assert LiteralAt(s, 4) == Literal(Decimal, 4, 4, 5);
    assert LiteralsFrom(s, 4) == [Literal(Decimal, 4, 4, 5)];
    assert LiteralsFrom(s, 3) == [Literal(Decimal, 4, 4, 5)];
    assert LiteralAt(s, 1) == Literal(Decimal, 0, 1, 3);
    assert LiteralsFrom(s, 1) == [Literal(Decimal, 0, 1, 3), Literal(Decimal, 4, 4, 5)];
    assert LiteralsFrom(s, 0) == [Literal(Decimal, 0, 1, 3), Literal(Decimal, 4, 4, 5)];
  }

  lemma AddAfterPointText()
    ensures IsLiteral("-10.1", Literal(Decimal, 4, 4, 5)) && Render("-10.1", Literal(Decimal, 4, 4, 5), 10) == "11"
  {
    AddAfterPointTextValue();
    DecimalDigits11();
    RenderDecimal("-10.1", Literal(Decimal, 4, 4, 5), 10, 1, "11", "11");
  }

  lemma AddAfterPointTextValue()
    ensures IsLiteral("-10.1", Literal(Decimal, 4, 4, 5)) && Value("-10.1", Literal(Decimal, 4, 4, 5)) == 1
  {
  }

  /** `<C-a>` on an octal number carries to 010. */
  lemma AddOctal(st: State)
    requires st == Start(["07"], 0, 1)
    ensures Case(st, "<C-a>", ["010"], 0, 2, Normal)
  {
    AddOctalStep();
    AddLastCase(st, ["07"], 0, 1, "<C-a>", 1, false, Change(0, "010", "010", 2), ["010"], 2);
  }

  lemma AddOctalStep()
    ensures LinesBreakFree(["07"], 0)
    ensures ParseCommand("<C-a>") == Some((Add(1, false), ""))
    ensures IncrementLine(["07"][0], 1, Delta(1, false)) == Some(Change(0, "010", "010", 2))
    ensures ["010"] == ["07"][0 := "010"]
  {
    AddOctalBuffer();
    AddKeys();
    AddOctalChange();
    OneLineUpdate("07", "010");
  }

  lemma AddOctalBuffer()
    ensures LinesBreakFree(["07"], 0)
  {
  }

  lemma AddOctalSplice()
    ensures "010" == "07"[..0] + "010" + "07"[2..]
  {
  }

  lemma AddOctalChange()
    ensures IncrementLine("07", 1, 1) == Some(Change(0, "010", "010", 2))
  {
    AddOctalLiterals();
    AddOctalText();
    AddOctalSplice();
    IncrementFound("07", 1, 1, [Literal(Octal, 0, 0, 2)], 0, "010", "010", 2);
  }

  lemma AddOctalLiterals()
    ensures Literals("07") == [Literal(Octal, 0, 0, 2)]
  {
    var s := "07";
    assert LiteralsFrom(s, 2) == [];
    assert LiteralAt(s, 0) == Literal(Octal, 0, 0, 2);
    assert LiteralsFrom(s, 0) == [Literal(Octal, 0, 0, 2)];
  }

  lemma AddOctalText()
    ensures IsLiteral("07", Literal(Octal, 0, 0, 2)) && Render("07", Literal(Octal, 0, 0, 2), 1) == "010"
  {
    AddOctalTextValue();
    OctalDigits8();
    RenderOctal("07", Literal(Octal, 0, 0, 2), 1, 7, "10", "010");
  }

  lemma AddOctalTextValue()
    ensures IsLiteral("07", Literal(Octal, 0, 0, 2)) && Value("07", Literal(Octal, 0, 0, 2)) == 7
  {
  }

  /** `<C-a>` in the middle of a number changes the whole number. */
  lemma AddInsideNumber(st: State)
    requires st == Start(["101"], 0, 2)
    ensures Case(st, "<C-a>", ["102"], 0, 2, Normal)
  {
    AddInsideNumberStep();
    AddLastCase(st, ["101"], 0, 2, "<C-a>", 1, false, Change(0, "102", "102", 2), ["102"], 2);
  }

  lemma AddInsideNumberStep()
    ensures LinesBreakFree(["101"], 0)
    ensures ParseCommand("<C-a>") == Some((Add(1, false), ""))
    ensures IncrementLine(["101"][0], 2, Delta(1, false)) == Some(Change(0, "102", "102", 2))
    ensures ["102"] == ["101"][0 := "102"]
  {
    AddInsideNumberBuffer();
    AddKeys();
    AddInsideNumberChange();
    OneLineUpdate("101", "102");
  }

  lemma AddInsideNumberBuffer()
    ensures LinesBreakFree(["101"], 0)
  {
  }

  lemma AddInsideNumberSplice()
    ensures "102" == "101"[..0] + "102" + "101"[3..]
  {
  }

  lemma AddInsideNumberChange()
    ensures IncrementLine("101", 2, 1) == Some(Change(0, "102", "102", 2))
  {
    AddInsideNumberLiterals();
    AddInsideNumberText();
    AddInsideNumberSplice();
    IncrementFound("101", 2, 1, [Literal(Decimal, 0, 0, 3)], 0, "102", "102", 2);
  }

  lemma AddInsideNumberLiterals()
    ensures Literals("101") == [Literal(Decimal, 0, 0, 3)]
  {
    var s := "101";
    assert LiteralsFrom(s, 3) == [];
    assert LiteralAt(s, 0) == Literal(Decimal, 0, 0, 3);
    assert LiteralsFrom(s, 0) == [Literal(Decimal, 0, 0, 3)];
  }

  lemma AddInsideNumberText()
    ensures IsLiteral("101", Literal(Decimal, 0, 0, 3)) && Render("101", Literal(Decimal, 0, 0, 3), 1) == "102"
  {
    AddInsideNumberTextValue();
    DecimalDigits102();
    RenderDecimal("101", Literal(Decimal, 0, 0, 3), 1, 101, "102", "102");
  }

  lemma AddInsideNumberTextValue()
    ensures IsLiteral("101", Literal(Decimal, 0, 0, 3)) && Value("101", Literal(Decimal, 0, 0, 3)) == 101
  {
  }

  /** `<C-a>` on a hex number right after a word. */
  lemma AddHexBehindWord(st: State)
    requires st == Start(["test0xf"], 0, 0)
    ensures Case(st, "<C-a>", ["test0x10"], 0, 7, Normal)
  {
    AddHexBehindWordStep();
    AddLastCase(st, ["test0xf"], 0, 0, "<C-a>", 1, false, Change(0, "0x10", "test0x10", 7), ["test0x10"], 7);
  }

  lemma AddHexBehindWordStep()
    ensures LinesBreakFree(["test0xf"], 0)
    ensures ParseCommand("<C-a>") == Some((Add(1, false), ""))
    ensures IncrementLine(["test0xf"][0], 0, Delta(1, false)) == Some(Change(0, "0x10", "test0x10", 7))
    ensures ["test0x10"] == ["test0xf"][0 := "test0x10"]
  {
    AddHexBehindWordBuffer();
    AddKeys();
    AddHexBehindWordChange();
    OneLineUpdate("test0xf", "test0x10");
  }

  lemma AddHexBehindWordBuffer()
    ensures LinesBreakFree(["test0xf"], 0)
  {
  }

  lemma AddHexBehindWordSplice()
    ensures "test0x10" == "test0xf"[..4] + "0x10" + "test0xf"[7..]
  {
  }

  lemma AddHexBehindWordChange()
    ensures IncrementLine("test0xf", 0, 1) == Some(Change(0, "0x10", "test0x10", 7))
  {
    AddHexBehindWordLiterals();
    AddHexBehindWordText();
    AddHexBehindWordSplice();
    IncrementFound("test0xf", 0, 1, [Literal(Hex, 4, 6, 7)], 0, "0x10", "test0x10", 7);
  }

  lemma AddHexBehindWordLiterals()
    ensures Literals("test0xf") == [Literal(Hex, 4, 6, 7)]
  {
    var s := "test0xf";
    assert LiteralsFrom(s, 7) == [];
    assert LiteralAt(s, 4) == Literal(Hex, 4, 6, 7);
    assert LiteralsFrom(s, 4) == [Literal(Hex, 4, 6, 7)];
    assert LiteralsFrom(s, 3) == [Literal(Hex, 4, 6, 7)];
    assert LiteralsFrom(s, 2) == [Literal(Hex, 4, 6, 7)];
    assert LiteralsFrom(s, 1) == [Literal(Hex, 4, 6, 7)];
    assert LiteralsFrom(s, 0) == [Literal(Hex, 4, 6, 7)];
  }

  lemma AddHexBehindWordText()
    ensures IsLiteral("test0xf", Literal(Hex, 4, 6, 7)) && Render("test0xf", Literal(Hex, 4, 6, 7), 1) == "0x10"
  {
    AddHexBehindWordTextValue();
    HexDigits16();
    RenderHex("test0xf", Literal(Hex, 4, 6, 7), 1, 15, false, "10", "0x10");
  }

  lemma AddHexBehindWordTextValue()
    ensures IsLiteral("test0xf", Literal(Hex, 4, 6, 7)) && Value("test0xf", Literal(Hex, 4, 6, 7)) == 15
    ensures HexUpper("test0xf", 6, 7) == false
  {
  }

  /** `<C-a>` on `00xf`: 00 is an octal number and the x ends it. */
  lemma AddFakeHex(st: State)
    requires st == Start(["00xf"], 0, 0)
    ensures Case(st, "<C-a>", ["01xf"], 0, 1, Normal)
  {
    AddFakeHexStep();
    AddLastCase(st, ["00xf"], 0, 0, "<C-a>", 1, false, Change(0, "01", "01xf", 1), ["01xf"], 1);
  }

  lemma AddFakeHexStep()
    ensures LinesBreakFree(["00xf"], 0)
    ensures ParseCommand("<C-a>") == Some((Add(1, false), ""))
    ensures IncrementLine(["00xf"][0], 0, Delta(1, false)) == Some(Change(0, "01", "01xf", 1))
    ensures ["01xf"] == ["00xf"][0 := "01xf"]
  {
    AddFakeHexBuffer();
    AddKeys();
    AddFakeHexChange();
    OneLineUpdate("00xf", "01xf");
  }

  lemma AddFakeHexBuffer()
    ensures LinesBreakFree(["00xf"], 0)
  {
  }

  lemma AddFakeHexSplice()
    ensures "01xf" == "00xf"[..0] + "01" + "00xf"[2..]
  {
  }

  lemma AddFakeHexChange()
    ensures IncrementLine("00xf", 0, 1) == Some(Change(0, "01", "01xf", 1))
  {
    AddFakeHexLiterals();
    AddFakeHexText();
    AddFakeHexSplice();
    IncrementFound("00xf", 0, 1, [Literal(Octal, 0, 0, 2)], 0, "01", "01xf", 1);
  }

  lemma AddFakeHexLiterals()
    ensures Literals("00xf") == [Literal(Octal, 0, 0, 2)]
  {
    var s := "00xf";
    assert LiteralsFrom(s, 4) == [];
    assert LiteralsFrom(s, 3) == [];
    assert LiteralsFrom(s, 2) == [];
    assert LiteralAt(s, 0) == Literal(Octal, 0, 0, 2);
    assert LiteralsFrom(s, 0) == [Literal(Octal, 0, 0, 2)];
  }

  lemma AddFakeHexText()
    ensures IsLiteral("00xf", Literal(Octal, 0, 0, 2)) && Render("00xf", Literal(Octal, 0, 0, 2), 1) == "01"
  {
    AddFakeHexTextValue();
    OctalDigits1();
    RenderOctal("00xf", Literal(Octal, 0, 0, 2), 1, 0, "1", "01");
  }

  lemma AddFakeHexTextValue()
    ensures IsLiteral("00xf", Literal(Octal, 0, 0, 2)) && Value("00xf", Literal(Octal, 0, 0, 2)) == 0
  {
  }

  /** `<C-a>` on an octal number keeps its width. */
  lemma AddOctalZeros(st: State)
    requires st == Start(["000007"], 0, 0)
    ensures Case(st, "<C-a>", ["000010"], 0, 5, Normal)
  {
    AddOctalZerosStep();
    AddLastCase(st, ["000007"], 0, 0, "<C-a>", 1, false, Change(0, "000010", "000010", 5), ["000010"], 5);
  }

  lemma AddOctalZerosStep()
    ensures LinesBreakFree(["000007"], 0)
    ensures ParseCommand("<C-a>") == Some((Add(1, false), ""))
    ensures IncrementLine(["000007"][0], 0, Delta(1, false)) == Some(Change(0, "000010", "000010", 5))
    ensures ["000010"] == ["000007"][0 := "000010"]
  {
    AddOctalZerosBuffer();
    AddKeys();
    AddOctalZerosChange();
    OneLineUpdate("000007", "000010");
  }

  lemma AddOctalZerosBuffer()
    ensures LinesBreakFree(["000007"], 0)
  {
  }

  lemma AddOctalZerosSplice()
    ensures "000010" == "000007"[..0] + "000010" + "000007"[6..]
  {
  }

  lemma AddOctalZerosChange()
    ensures IncrementLine("000007", 0, 1) == Some(Change(0, "000010", "000010", 5))
  {
    AddOctalZerosLiterals();
    AddOctalZerosText();
    AddOctalZerosSplice();
    IncrementFound("000007", 0, 1, [Literal(Octal, 0, 0, 6)], 0, "000010", "000010", 5);
  }

  lemma AddOctalZerosLiterals()
    ensures Literals("000007") == [Literal(Octal, 0, 0, 6)]
  {
    var s := "000007";
    assert LiteralsFrom(s, 6) == [];
    assert LiteralAt(s, 0) == Literal(Octal, 0, 0, 6);
    assert LiteralsFrom(s, 0) == [Literal(Octal, 0, 0, 6)];
  }

  lemma AddOctalZerosText()
    ensures IsLiteral("000007", Literal(Octal, 0, 0, 6)) && Render("000007", Literal(Octal, 0, 0, 6), 1) == "000010"
  {
    AddOctalZerosTextValue();
    OctalDigits8();
    RenderOctal("000007", Literal(Octal, 0, 0, 6), 1, 7, "10", "000010");
  }

  lemma AddOctalZerosTextValue()
    ensures IsLiteral("000007", Literal(Octal, 0, 0, 6)) && Value("000007", Literal(Octal, 0, 0, 6)) == 7
  {
  }

  /** `<C-a>` on a decimal with leading zeros drops them. */
  lemma AddDecimalZeros(st: State)
    requires st == Start(["000009"], 0, 0)
    ensures Case(st, "<C-a>", ["10"], 0, 1, Normal)
  {
    AddDecimalZerosStep();
    AddLastCase(st, ["000009"], 0, 0, "<C-a>", 1, false, Change(0, "10", "10", 1), ["10"], 1);
  }

  lemma AddDecimalZerosStep()
    ensures LinesBreakFree(["000009"], 0)
    ensures ParseCommand("<C-a>") == Some((Add(1, false), ""))
    ensures IncrementLine(["000009"][0], 0, Delta(1, false)) == Some(Change(0, "10", "10", 1))
    ensures ["10"] == ["000009"][0 := "10"]
  {
    AddDecimalZerosBuffer();
    AddKeys();
    AddDecimalZerosChange();
    OneLineUpdate("000009", "10");
  }

  lemma AddDecimalZerosBuffer()
    ensures LinesBreakFree(["000009"], 0)
  {
  }

  lemma AddDecimalZerosSplice()
    ensures "10" == "000009"[..0] + "10" + "000009"[6..]
  {
  }

  lemma AddDecimalZerosChange()
    ensures IncrementLine("000009", 0, 1) == Some(Change(0, "10", "10", 1))
  {
    AddDecimalZerosLiterals();
    AddDecimalZerosText();
    AddDecimalZerosSplice();
    IncrementFound("000009", 0, 1, [Literal(Decimal, 0, 0, 6)], 0, "10", "10", 1);
  }

  lemma AddDecimalZerosLiterals()
    ensures Literals("000009") == [Literal(Decimal, 0, 0, 6)]
  {
    var s := "000009";
    assert LiteralsFrom(s, 6) == [];
    assert LiteralAt(s, 0) == Literal(Decimal, 0, 0, 6);
    assert LiteralsFrom(s, 0) == [Literal(Decimal, 0, 0, 6)];
  }

  lemma AddDecimalZerosText()
    ensures IsLiteral("000009", Literal(Decimal, 0, 0, 6)) && Render("000009", Literal(Decimal, 0, 0, 6), 1) == "10"
  {
    AddDecimalZerosTextValue();
    DecimalDigits10();
    RenderDecimal("000009", Literal(Decimal, 0, 0, 6), 1, 9, "10", "10");
  }

  lemma AddDecimalZerosTextValue()
    ensures IsLiteral("000009", Literal(Decimal, 0, 0, 6)) && Value("000009", Literal(Decimal, 0, 0, 6)) == 9
  {
  }

  /** `<C-a>` on a hex number after a minus sign: the sign is not part of it. */
  lemma AddNegativeHexZero(st: State)
    requires st == Start(["-0x0"], 0, 0)
    ensures Case(st, "<C-a>", ["-0x1"], 0, 3, Normal)
  {
    AddNegativeHexZeroStep();
    AddLastCase(st, ["-0x0"], 0, 0, "<C-a>", 1, false, Change(0, "0x1", "-0x1", 3), ["-0x1"], 3);
  }

  lemma AddNegativeHexZeroStep()
    ensures LinesBreakFree(["-0x0"], 0)
    ensures ParseCommand("<C-a>") == Some((Add(1, false), ""))
    ensures IncrementLine(["-0x0"][0], 0, Delta(1, false)) == Some(Change(0, "0x1", "-0x1", 3))
    ensures ["-0x1"] == ["-0x0"][0 := "-0x1"]
  {
    AddNegativeHexZeroBuffer();
    AddKeys();
    AddNegativeHexZeroChange();
    OneLineUpdate("-0x0", "-0x1");
  }

  lemma AddNegativeHexZeroBuffer()
    ensures LinesBreakFree(["-0x0"], 0)
  {
  }

  lemma AddNegativeHexZeroSplice()
    ensures "-0x1" == "-0x0"[..1] + "0x1" + "-0x0"[4..]
  {
  }

  lemma AddNegativeHexZeroChange()
    ensures IncrementLine("-0x0", 0, 1) == Some(Change(0, "0x1", "-0x1", 3))
  {
    AddNegativeHexZeroLiterals();
    AddNegativeHexZeroText();
    AddNegativeHexZeroSplice();
    IncrementFound("-0x0", 0, 1, [Literal(Hex, 1, 3, 4)], 0, "0x1", "-0x1", 3);
  }

  lemma AddNegativeHexZeroLiterals()
    ensures Literals("-0x0") == [Literal(Hex, 1, 3, 4)]
  {
    var s := "-0x0";
    assert LiteralsFrom(s, 4) == [];
    assert LiteralAt(s, 1) == Literal(Hex, 1, 3, 4);
    assert LiteralsFrom(s, 1) == [Literal(Hex, 1, 3, 4)];
    assert LiteralsFrom(s, 0) == [Literal(Hex, 1, 3, 4)];
  }

  lemma AddNegativeHexZeroText()
    ensures IsLiteral("-0x0", Literal(Hex, 1, 3, 4)) && Render("-0x0", Literal(Hex, 1, 3, 4), 1) == "0x1"
  {
    AddNegativeHexZeroTextValue();
    HexDigits1();
    RenderHex("-0x0", Literal(Hex, 1, 3, 4), 1, 0, false, "1", "0x1");
  }

  lemma AddNegativeHexZeroTextValue()
    ensures IsLiteral("-0x0", Literal(Hex, 1, 3, 4)) && Value("-0x0", Literal(Hex, 1, 3, 4)) == 0
    ensures HexUpper("-0x0", 3, 4) == false
  {
  }

  /** `10<C-a>` on a lone 0: a decimal, so it becomes 10. */
  lemma AddZeroIsDecimal(st: State)
    requires st == Start(["0"], 0, 0)
    ensures Case(st, "10<C-a>", ["10"], 0, 1, Normal)
  {
    AddZeroIsDecimalStep();
    AddLastCase(st, ["0"], 0, 0, "10<C-a>", 10, false, Change(0, "10", "10", 1), ["10"], 1);
  }

  lemma AddZeroIsDecimalStep()
    ensures LinesBreakFree(["0"], 0)
    ensures ParseCommand("10<C-a>") == Some((Add(10, false), ""))
    ensures IncrementLine(["0"][0], 0, Delta(10, false)) == Some(Change(0, "10", "10", 1))
    ensures ["10"] == ["0"][0 := "10"]
  {
    AddZeroIsDecimalBuffer();
    Add10Keys();
    AddZeroIsDecimalChange();
    OneLineUpdate("0", "10");
  }

  lemma AddZeroIsDecimalBuffer()
    ensures LinesBreakFree(["0"], 0)
  {
  }

  lemma AddZeroIsDecimalSplice()
    ensures "10" == "0"[..0] + "10" + "0"[1..]
  {
  }

  lemma AddZeroIsDecimalChange()
    ensures IncrementLine("0", 0, 10) == Some(Change(0, "10", "10", 1))
  {
    AddZeroIsDecimalLiterals();
    AddZeroIsDecimalText();
    AddZeroIsDecimalSplice();
    IncrementFound("0", 0, 10, [Literal(Decimal, 0, 0, 1)], 0, "10", "10", 1);
  }

  lemma AddZeroIsDecimalLiterals()
    ensures Literals("0") == [Literal(Decimal, 0, 0, 1)]
  {
    var s := "0";
    assert LiteralsFrom(s, 1) == [];
    assert LiteralAt(s, 0) == Literal(Decimal, 0, 0, 1);
    assert LiteralsFrom(s, 0) == [Literal(Decimal, 0, 0, 1)];
  }

  lemma AddZeroIsDecimalText()
    ensures IsLiteral("0", Literal(Decimal, 0, 0, 1)) && Render("0", Literal(Decimal, 0, 0, 1), 10) == "10"
  {
    AddZeroIsDecimalTextValue();
    DecimalDigits10();
    RenderDecimal("0", Literal(Decimal, 0, 0, 1), 10, 0, "10", "10");
  }

  lemma AddZeroIsDecimalTextValue()
    ensures IsLiteral("0", Literal(Decimal, 0, 0, 1)) && Value("0", Literal(Decimal, 0, 0, 1)) == 0
  {
  }

  /** `<C-a>` on an octal number after a minus sign: the sign is not part of it. */
  lemma AddOctalAfterMinus(st: State)
    requires st == Start(["test-0116"], 0, 0)
    ensures Case(st, "<C-a>", ["test-0117"], 0, 8, Normal)
  {
    AddOctalAfterMinusStep();
    AddLastCase(st, ["test-0116"], 0, 0, "<C-a>", 1, false, Change(0, "0117", "test-0117", 8), ["test-0117"], 8);
  }

  lemma AddOctalAfterMinusStep()
    ensures LinesBreakFree(["test-0116"], 0)
    ensures ParseCommand("<C-a>") == Some((Add(1, false), ""))
    ensures IncrementLine(["test-0116"][0], 0, Delta(1, false)) == Some(Change(0, "0117", "test-0117", 8))
    ensures ["test-0117"] == ["test-0116"][0 := "test-0117"]
  {
    AddOctalAfterMinusBuffer();
    AddKeys();
    AddOctalAfterMinusChange();
    OneLineUpdate("test-0116", "test-0117");
  }

  lemma AddOctalAfterMinusBuffer()
    ensures LinesBreakFree(["test-0116"], 0)
  {
  }

  lemma AddOctalAfterMinusSplice()
    ensures "test-0117" == "test-0116"[..5] + "0117" + "test-0116"[9..]
  {
  }

  lemma AddOctalAfterMinusChange()
    ensures IncrementLine("test-0116", 0, 1) == Some(Change(0, "0117", "test-0117", 8))
  {
    AddOctalAfterMinusLiterals();
    AddOctalAfterMinusText();
    AddOctalAfterMinusSplice();
    IncrementFound("test-0116", 0, 1, [Literal(Octal, 5, 5, 9)], 0, "0117", "test-0117", 8);
  }

  lemma AddOctalAfterMinusLiterals()
    ensures Literals("test-0116") == [Literal(Octal, 5, 5, 9)]
  {
    var s := "test-0116";
    assert LiteralsFrom(s, 9) == [];
    assert LiteralAt(s, 5) == Literal(Octal, 5, 5, 9);
    assert LiteralsFrom(s, 5) == [Literal(Octal, 5, 5, 9)];
    assert LiteralsFrom(s, 4) == [Literal(Octal, 5, 5, 9)];
    assert LiteralsFrom(s, 3) == [Literal(Octal, 5, 5, 9)];
    assert LiteralsFrom(s, 2) == [Literal(Octal, 5, 5, 9)];
    assert LiteralsFrom(s, 1) == [Literal(Octal, 5, 5, 9)];
    assert LiteralsFrom(s, 0) == [Literal(Octal, 5, 5, 9)];
  }

  lemma AddOctalAfterMinusText()
    ensures IsLiteral("test-0116", Literal(Octal, 5, 5, 9)) && Render("test-0116", Literal(Octal, 5, 5, 9), 1) == "0117"
  {
    AddOctalAfterMinusTextValue();
    OctalDigits79();
    RenderOctal("test-0116", Literal(Octal, 5, 5, 9), 1, 78, "117", "0117");
  }

  lemma AddOctalAfterMinusTextValue()
    ensures IsLiteral("test-0116", Literal(Octal, 5, 5, 9)) && Value("test-0116", Literal(Octal, 5, 5, 9)) == 78
  {
  }

  /** `<C-a>` on an octal number after a plus sign. */
  lemma AddOctalAfterPlus(st: State)
    requires st == Start(["test+0116"], 0, 0)
    ensures Case(st, "<C-a>", ["test+0117"], 0, 8, Normal)
  {
    AddOctalAfterPlusStep();
    AddLastCase(st, ["test+0116"], 0, 0, "<C-a>", 1, false, Change(0, "0117", "test+0117", 8), ["test+0117"], 8);
  }

  lemma AddOctalAfterPlusStep()
    ensures LinesBreakFree(["test+0116"], 0)
    ensures ParseCommand("<C-a>") == Some((Add(1, false), ""))
    ensures IncrementLine(["test+0116"][0], 0, Delta(1, false)) == Some(Change(0, "0117", "test+0117", 8))
    ensures ["test+0117"] == ["test+0116"][0 := "test+0117"]
  {
    AddOctalAfterPlusBuffer();
    AddKeys();
    AddOctalAfterPlusChange();
    OneLineUpdate("test+0116", "test+0117");
  }

  lemma AddOctalAfterPlusBuffer()
    ensures LinesBreakFree(["test+0116"], 0)
  {
  }

  lemma AddOctalAfterPlusSplice()
    ensures "test+0117" == "test+0116"[..5] + "0117" + "test+0116"[9..]
  {
  }

  lemma AddOctalAfterPlusChange()
    ensures IncrementLine("test+0116", 0, 1) == Some(Change(0, "0117", "test+0117", 8))
  {
    AddOctalAfterPlusLiterals();
    AddOctalAfterPlusText();
    AddOctalAfterPlusSplice();
    IncrementFound("test+0116", 0, 1, [Literal(Octal, 5, 5, 9)], 0, "0117", "test+0117", 8);
  }

  lemma AddOctalAfterPlusLiterals()
    ensures Literals("test+0116") == [Literal(Octal, 5, 5, 9)]
  {
    var s := "test+0116";
    assert LiteralsFrom(s, 9) == [];
    assert LiteralAt(s, 5) == Literal(Octal, 5, 5, 9);
    assert LiteralsFrom(s, 5) == [Literal(Octal, 5, 5, 9)];
    assert LiteralsFrom(s, 4) == [Literal(Octal, 5, 5, 9)];
    assert LiteralsFrom(s, 3) == [Literal(Octal, 5, 5, 9)];
    assert LiteralsFrom(s, 2) == [Literal(Octal, 5, 5, 9)];
    assert LiteralsFrom(s, 1) == [Literal(Octal, 5, 5, 9)];
    assert LiteralsFrom(s, 0) == [Literal(Octal, 5, 5, 9)];
  }

  lemma AddOctalAfterPlusText()
    ensures IsLiteral("test+0116", Literal(Octal, 5, 5, 9)) && Render("test+0116", Literal(Octal, 5, 5, 9), 1) == "0117"
  {
    AddOctalAfterPlusTextValue();
    OctalDigits79();
    RenderOctal("test+0116", Literal(Octal, 5, 5, 9), 1, 78, "117", "0117");
  }

  lemma AddOctalAfterPlusTextValue()
    ensures IsLiteral("test+0116", Literal(Octal, 5, 5, 9)) && Value("test+0116", Literal(Octal, 5, 5, 9)) == 78
  {
  }

  /** `<C-a>` on a hex number after a minus sign. */
  lemma AddHexAfterMinus(st: State)
    requires st == Start(["test-0xf"], 0, 0)
    ensures Case(st, "<C-a>", ["test-0x10"], 0, 8, Normal)
  {
    AddHexAfterMinusStep();
    AddLastCase(st, ["test-0xf"], 0, 0, "<C-a>", 1, false, Change(0, "0x10", "test-0x10", 8), ["test-0x10"], 8);
  }

  lemma AddHexAfterMinusStep()
    ensures LinesBreakFree(["test-0xf"], 0)
    ensures ParseCommand("<C-a>") == Some((Add(1, false), ""))
    ensures IncrementLine(["test-0xf"][0], 0, Delta(1, false)) == Some(Change(0, "0x10", "test-0x10", 8))
    ensures ["test-0x10"] == ["test-0xf"][0 := "test-0x10"]
  {
    AddHexAfterMinusBuffer();
    AddKeys();
    AddHexAfterMinusChange();
    OneLineUpdate("test-0xf", "test-0x10");
  }

  lemma AddHexAfterMinusBuffer()
    ensures LinesBreakFree(["test-0xf"], 0)
  {
  }

  lemma AddHexAfterMinusSplice()
    ensures "test-0x10" == "test-0xf"[..5] + "0x10" + "test-0xf"[8..]
  {
  }

  lemma AddHexAfterMinusChange()
    ensures IncrementLine("test-0xf", 0, 1) == Some(Change(0, "0x10", "test-0x10", 8))
  {
    AddHexAfterMinusLiterals();
    AddHexAfterMinusText();
    AddHexAfterMinusSplice();
    IncrementFound("test-0xf", 0, 1, [Literal(Hex, 5, 7, 8)], 0, "0x10", "test-0x10", 8);
  }

  lemma AddHexAfterMinusLiterals()
    ensures Literals("test-0xf") == [Literal(Hex, 5, 7, 8)]
  {
    var s := "test-0xf";
    assert LiteralsFrom(s, 8) == [];
    assert LiteralAt(s, 5) == Literal(Hex, 5, 7, 8);
    assert LiteralsFrom(s, 5) == [Literal(Hex, 5, 7, 8)];
    assert LiteralsFrom(s, 4) == [Literal(Hex, 5, 7, 8)];
    assert LiteralsFrom(s, 3) == [Literal(Hex, 5, 7, 8)];
    assert LiteralsFrom(s, 2) == [Literal(Hex, 5, 7, 8)];
    assert LiteralsFrom(s, 1) == [Literal(Hex, 5, 7, 8)];
    assert LiteralsFrom(s, 0) == [Literal(Hex, 5, 7, 8)];
  }

  lemma AddHexAfterMinusText()
    ensures IsLiteral("test-0xf", Literal(Hex, 5, 7, 8)) && Render("test-0xf", Literal(Hex, 5, 7, 8), 1) == "0x10"
  {
    AddHexAfterMinusTextValue();
    HexDigits16();
    RenderHex("test-0xf", Literal(Hex, 5, 7, 8), 1, 15, false, "10", "0x10");
  }

  lemma AddHexAfterMinusTextValue()
    ensures IsLiteral("test-0xf", Literal(Hex, 5, 7, 8)) && Value("test-0xf", Literal(Hex, 5, 7, 8)) == 15
    ensures HexUpper("test-0xf", 7, 8) == false
  {
  }

  /** `<C-a>` on a hex number after a plus sign. */
  lemma AddHexAfterPlus(st: State)
    requires st == Start(["test+0xf"], 0, 0)
    ensures Case(st, "<C-a>", ["test+0x10"], 0, 8, Normal)
  {
    AddHexAfterPlusStep();
    AddLastCase(st, ["test+0xf"], 0, 0, "<C-a>", 1, false, Change(0, "0x10", "test+0x10", 8), ["test+0x10"], 8);
  }

  lemma AddHexAfterPlusStep()
    ensures LinesBreakFree(["test+0xf"], 0)
    ensures ParseCommand("<C-a>") == Some((Add(1, false), ""))
    ensures IncrementLine(["test+0xf"][0], 0, Delta(1, false)) == Some(Change(0, "0x10", "test+0x10", 8))
    ensures ["test+0x10"] == ["test+0xf"][0 := "test+0x10"]
  {
    AddHexAfterPlusBuffer();
    AddKeys();
    AddHexAfterPlusChange();
    OneLineUpdate("test+0xf", "test+0x10");
  }

  lemma AddHexAfterPlusBuffer()
    ensures LinesBreakFree(["test+0xf"], 0)
  {
  }

  lemma AddHexAfterPlusSplice()
    ensures "test+0x10" == "test+0xf"[..5] + "0x10" + "test+0xf"[8..]
  {
  }

  lemma AddHexAfterPlusChange()
    ensures IncrementLine("test+0xf", 0, 1) == Some(Change(0, "0x10", "test+0x10", 8))
  {
    AddHexAfterPlusLiterals();
    AddHexAfterPlusText();
    AddHexAfterPlusSplice();
    IncrementFound("test+0xf", 0, 1, [Literal(Hex, 5, 7, 8)], 0, "0x10", "test+0x10", 8);
  }

  lemma AddHexAfterPlusLiterals()
    ensures Literals("test+0xf") == [Literal(Hex, 5, 7, 8)]
  {
    var s := "test+0xf";
    assert LiteralsFrom(s, 8) == [];
    assert LiteralAt(s, 5) == Literal(Hex, 5, 7, 8);
    assert LiteralsFrom(s, 5) == [Literal(Hex, 5, 7, 8)];
    assert LiteralsFrom(s, 4) == [Literal(Hex, 5, 7, 8)];
    assert LiteralsFrom(s, 3) == [Literal(Hex, 5, 7, 8)];
    assert LiteralsFrom(s, 2) == [Literal(Hex, 5, 7, 8)];
    assert LiteralsFrom(s, 1) == [Literal(Hex, 5, 7, 8)];
    assert LiteralsFrom(s, 0) == [Literal(Hex, 5, 7, 8)];
  }

  lemma AddHexAfterPlusText()
    ensures IsLiteral("test+0xf", Literal(Hex, 5, 7, 8)) && Render("test+0xf", Literal(Hex, 5, 7, 8), 1) == "0x10"
  {
    AddHexAfterPlusTextValue();
    HexDigits16();
    RenderHex("test+0xf", Literal(Hex, 5, 7, 8), 1, 15, false, "10", "0x10");
  }

  lemma AddHexAfterPlusTextValue()
    ensures IsLiteral("test+0xf", Literal(Hex, 5, 7, 8)) && Value("test+0xf", Literal(Hex, 5, 7, 8)) == 15
    ensures HexUpper("test+0xf", 7, 8) == false
  {
  }

  /** `<C-x>` takes 10 to 9, one character shorter. */
  lemma SubtractBehindWord(st: State)
    requires st == Start(["one 10"], 0, 0)
    ensures Case(st, "<C-x>", ["one 9"], 0, 4, Normal)
  {
    SubtractBehindWordStep();
    AddLastCase(st, ["one 10"], 0, 0, "<C-x>", 1, true, Change(0, "9", "one 9", 4), ["one 9"], 4);
  }

  lemma SubtractBehindWordStep()
    ensures LinesBreakFree(["one 10"], 0)
    ensures ParseCommand("<C-x>") == Some((Add(1, true), ""))
    ensures IncrementLine(["one 10"][0], 0, Delta(1, true)) == Some(Change(0, "9", "one 9", 4))
    ensures ["one 9"] == ["one 10"][0 := "one 9"]
  {
    SubtractBehindWordBuffer();
    SubtractKeys();
    SubtractBehindWordChange();
    OneLineUpdate("one 10", "one 9");
  }

  lemma SubtractBehindWordBuffer()
    ensures LinesBreakFree(["one 10"], 0)
  {
  }

  lemma SubtractBehindWordSplice()
    ensures "one 9" == "one 10"[..4] + "9" + "one 10"[6..]
  {
  }

  lemma SubtractBehindWordChange()
    ensures IncrementLine("one 10", 0, -1) == Some(Change(0, "9", "one 9", 4))
  {
    SubtractBehindWordLiterals();
    SubtractBehindWordText();
    SubtractBehindWordSplice();
    IncrementFound("one 10", 0, -1, [Literal(Decimal, 4, 4, 6)], 0, "9", "one 9", 4);
  }

  lemma SubtractBehindWordLiterals()
    ensures Literals("one 10") == [Literal(Decimal, 4, 4, 6)]
  {
    var s := "one 10";
    assert LiteralsFrom(s, 6) == [];
    assert LiteralAt(s, 4) == Literal(Decimal, 4, 4, 6);
    assert LiteralsFrom(s, 4) == [Literal(Decimal, 4, 4, 6)];
    assert LiteralsFrom(s, 3) == [Literal(Decimal, 4, 4, 6)];
    assert LiteralsFrom(s, 2) == [Literal(Decimal, 4, 4, 6)];
    assert LiteralsFrom(s, 1) == [Literal(Decimal, 4, 4, 6)];
    assert LiteralsFrom(s, 0) == [Literal(Decimal, 4, 4, 6)];
  }

  lemma SubtractBehindWordText()
    ensures IsLiteral("one 10", Literal(Decimal, 4, 4, 6)) && Render("one 10", Literal(Decimal, 4, 4, 6), -1) == "9"
  {
    SubtractBehindWordTextValue();
    DecimalDigits9();
    RenderDecimal("one 10", Literal(Decimal, 4, 4, 6), -1, 10, "9", "9");
  }

  lemma SubtractBehindWordTextValue()
    ensures IsLiteral("one 10", Literal(Decimal, 4, 4, 6)) && Value("one 10", Literal(Decimal, 4, 4, 6)) == 10
  {
  }

  /** `<C-a>` on a number right after a word. */
  lemma AddAfterWord(st: State)
    requires st == Start(["test3"], 0, 0)
    ensures Case(st, "<C-a>", ["test4"], 0, 4, Normal)
  {
    AddAfterWordStep();
    AddLastCase(st, ["test3"], 0, 0, "<C-a>", 1, false, Change(0, "4", "test4", 4), ["test4"], 4);
  }

  lemma AddAfterWordStep()
    ensures LinesBreakFree(["test3"], 0)
    ensures ParseCommand("<C-a>") == Some((Add(1, false), ""))
    ensures IncrementLine(["test3"][0], 0, Delta(1, false)) == Some(Change(0, "4", "test4", 4))
    ensures ["test4"] == ["test3"][0 := "test4"]
  {
    AddAfterWordBuffer();
    AddKeys();
    AddAfterWordChange();
    OneLineUpdate("test3", "test4");
  }

  lemma AddAfterWordBuffer()
    ensures LinesBreakFree(["test3"], 0)
  {
  }

  lemma AddAfterWordSplice()
    ensures "test4" == "test3"[..4] + "4" + "test3"[5..]
  {
  }

  lemma AddAfterWordChange()
    ensures IncrementLine("test3", 0, 1) == Some(Change(0, "4", "test4", 4))
  {
    AddAfterWordLiterals();
    AddAfterWordText();
    AddAfterWordSplice();
    IncrementFound("test3", 0, 1, [Literal(Decimal, 4, 4, 5)], 0, "4", "test4", 4);
  }

  lemma AddAfterWordLiterals()
    ensures Literals("test3") == [Literal(Decimal, 4, 4, 5)]
  {
    var s := "test3";
    assert LiteralsFrom(s, 5) == [];
    assert LiteralAt(s, 4) == Literal(Decimal, 4, 4, 5);
    assert LiteralsFrom(s, 4) == [Literal(Decimal, 4, 4, 5)];
    assert LiteralsFrom(s, 3) == [Literal(Decimal, 4, 4, 5)];
    assert LiteralsFrom(s, 2) == [Literal(Decimal, 4, 4, 5)];
    assert LiteralsFrom(s, 1) == [Literal(Decimal, 4, 4, 5)];
    assert LiteralsFrom(s, 0) == [Literal(Decimal, 4, 4, 5)];
  }

  lemma AddAfterWordText()
    ensures IsLiteral("test3", Literal(Decimal, 4, 4, 5)) && Render("test3", Literal(Decimal, 4, 4, 5), 1) == "4"
  {
    AddAfterWordTextValue();
    DecimalDigits4();
    RenderDecimal("test3", Literal(Decimal, 4, 4, 5), 1, 3, "4", "4");
  }

  lemma AddAfterWordTextValue()
    ensures IsLiteral("test3", Literal(Decimal, 4, 4, 5)) && Value("test3", Literal(Decimal, 4, 4, 5)) == 3
  {
  }

  /** `<C-a>` on a number between two words. */
  lemma AddBetweenWords(st: State)
    requires st == Start(["test3abc"], 0, 0)
    ensures Case(st, "<C-a>", ["test4abc"], 0, 4, Normal)
  {
    AddBetweenWordsStep();
    AddLastCase(st, ["test3abc"], 0, 0, "<C-a>", 1, false, Change(0, "4", "test4abc", 4), ["test4abc"], 4);
  }

  lemma AddBetweenWordsStep()
    ensures LinesBreakFree(["test3abc"], 0)
    ensures ParseCommand("<C-a>") == Some((Add(1, false), ""))
    ensures IncrementLine(["test3abc"][0], 0, Delta(1, false)) == Some(Change(0, "4", "test4abc", 4))
    ensures ["test4abc"] == ["test3abc"][0 := "test4abc"]
  {
    AddBetweenWordsBuffer();
    AddKeys();
    AddBetweenWordsChange();
    OneLineUpdate("test3abc", "test4abc");
  }

  lemma AddBetweenWordsBuffer()
    ensures LinesBreakFree(["test3abc"], 0)
  {
  }

  lemma AddBetweenWordsSplice()
    ensures "test4abc" == "test3abc"[..4] + "4" + "test3abc"[5..]
  {
  }

  lemma AddBetweenWordsChange()
    ensures IncrementLine("test3abc", 0, 1) == Some(Change(0, "4", "test4abc", 4))
  {
    AddBetweenWordsLiterals();
    AddBetweenWordsText();
    AddBetweenWordsSplice();
    IncrementFound("test3abc", 0, 1, [Literal(Decimal, 4, 4, 5)], 0, "4", "test4abc", 4);
  }

  lemma AddBetweenWordsLiterals()
    ensures Literals("test3abc") == [Literal(Decimal, 4, 4, 5)]
  {
    var s := "test3abc";
    assert LiteralsFrom(s, 8) == [];
    assert LiteralsFrom(s, 7) == [];
    assert LiteralsFrom(s, 6) == [];
    assert LiteralsFrom(s, 5) == [];
    assert LiteralAt(s, 4) == Literal(Decimal, 4, 4, 5);
    assert LiteralsFrom(s, 4) == [Literal(Decimal, 4, 4, 5)];
    assert LiteralsFrom(s, 3) == [Literal(Decimal, 4, 4, 5)];
    assert LiteralsFrom(s, 2) == [Literal(Decimal, 4, 4, 5)];
    assert LiteralsFrom(s, 1) == [Literal(Decimal, 4, 4, 5)];
    assert LiteralsFrom(s, 0) == [Literal(Decimal, 4, 4, 5)];
  }

  lemma AddBetweenWordsText()
    ensures IsLiteral("test3abc", Literal(Decimal, 4, 4, 5)) && Render("test3abc", Literal(Decimal, 4, 4, 5), 1) == "4"
  {
    AddBetweenWordsTextValue();
    DecimalDigits4();
    RenderDecimal("test3abc", Literal(Decimal, 4, 4, 5), 1, 3, "4", "4");
  }

  lemma AddBetweenWordsTextValue()
    ensures IsLiteral("test3abc", Literal(Decimal, 4, 4, 5)) && Value("test3abc", Literal(Decimal, 4, 4, 5)) == 3
  {
  }

  /** `<C-x>` three times on a negative number between words. */
  lemma SubtractThreeTimes(st: State)
    requires st == Start(["test-2abc"], 0, 0)
    ensures Case(st, "<C-x><C-x><C-x>", ["test-5abc"], 0, 5, Normal)
  {
    SubtractThreeTimesStep();
    AddCase(st, ["test-2abc"], 0, 0, "<C-x><C-x><C-x>", 1, true, "<C-x><C-x>", Change(0, "-3", "test-3abc", 5), Start(["test-3abc"], 0, 5));
    SubtractThreeTimesStep2();
    AddCase(Start(["test-3abc"], 0, 5), ["test-3abc"], 0, 5, "<C-x><C-x>", 1, true, "<C-x>", Change(0, "-4", "test-4abc", 5), Start(["test-4abc"], 0, 5));
    SubtractThreeTimesStep3();
    AddLastCase(Start(["test-4abc"], 0, 5), ["test-4abc"], 0, 5, "<C-x>", 1, true, Change(0, "-5", "test-5abc", 5), ["test-5abc"], 5);
  }

  lemma SubtractThreeTimesStep()
    ensures LinesBreakFree(["test-2abc"], 0)
    ensures ParseCommand("<C-x><C-x><C-x>") == Some((Add(1, true), "<C-x><C-x>"))
    ensures IncrementLine(["test-2abc"][0], 0, Delta(1, true)) == Some(Change(0, "-3", "test-3abc", 5))
    ensures ["test-3abc"] == ["test-2abc"][0 := "test-3abc"]
  {
    SubtractThreeTimesBuffer();
    SubtractThriceKeys();
    SubtractThreeTimesChange();
    OneLineUpdate("test-2abc", "test-3abc");
  }

  lemma SubtractThreeTimesBuffer()
    ensures LinesBreakFree(["test-2abc"], 0)
  {
  }

  lemma SubtractThreeTimesSplice()
    ensures "test-3abc" == "test-2abc"[..4] + "-3" + "test-2abc"[6..]
  {
  }

  lemma SubtractThreeTimesChange()
    ensures IncrementLine("test-2abc", 0, -1) == Some(Change(0, "-3", "test-3abc", 5))
  {
    SubtractThreeTimesLiterals();
    SubtractThreeTimesText();
    SubtractThreeTimesSplice();
    IncrementFound("test-2abc", 0, -1, [Literal(Decimal, 4, 5, 6)], 0, "-3", "test-3abc", 5);
  }

  lemma SubtractThreeTimesLiterals()
    ensures Literals("test-2abc") == [Literal(Decimal, 4, 5, 6)]
  {
    var s := "test-2abc";
    assert LiteralsFrom(s, 9) == [];
    assert LiteralsFrom(s, 8) == [];
    assert LiteralsFrom(s, 7) == [];
    assert LiteralsFrom(s, 6) == [];
    assert LiteralAt(s, 5) == Literal(Decimal, 4, 5, 6);
    assert LiteralsFrom(s, 5) == [Literal(Decimal, 4, 5, 6)];
    assert LiteralsFrom(s, 4) == [Literal(Decimal, 4, 5, 6)];
    assert LiteralsFrom(s, 3) == [Literal(Decimal, 4, 5, 6)];
    assert LiteralsFrom(s, 2) == [Literal(Decimal, 4, 5, 6)];
    assert LiteralsFrom(s, 1) == [Literal(Decimal, 4, 5, 6)];
    assert LiteralsFrom(s, 0) == [Literal(Decimal, 4, 5, 6)];
  }

  lemma SubtractThreeTimesText()
    ensures IsLiteral("test-2abc", Literal(Decimal, 4, 5, 6)) && Render("test-2abc", Literal(Decimal, 4, 5, 6), -1) == "-3"
  {
    SubtractThreeTimesTextValue();
    DecimalDigits3();
    RenderDecimal("test-2abc", Literal(Decimal, 4, 5, 6), -1, -2, "3", "-3");
  }

  lemma SubtractThreeTimesTextValue()
    ensures IsLiteral("test-2abc", Literal(Decimal, 4, 5, 6)) && Value("test-2abc", Literal(Decimal, 4, 5, 6)) == -2
  {
  }

  lemma SubtractThreeTimesStep2()
    ensures LinesBreakFree(["test-3abc"], 0)
    ensures ParseCommand("<C-x><C-x>") == Some((Add(1, true), "<C-x>"))
    ensures IncrementLine(["test-3abc"][0], 5, Delta(1, true)) == Some(Change(0, "-4", "test-4abc", 5))
    ensures ["test-4abc"] == ["test-3abc"][0 := "test-4abc"]
  {
    SubtractThreeTimesBuffer2();
    SubtractThriceKeys();
    SubtractThreeTimesChange2();
    OneLineUpdate("test-3abc", "test-4abc");
  }

  lemma SubtractThreeTimesBuffer2()
    ensures LinesBreakFree(["test-3abc"], 0)
  {
  }

  lemma SubtractThreeTimesSplice2()
    ensures "test-4abc" == "test-3abc"[..4] + "-4" + "test-3abc"[6..]
  {
  }

  lemma SubtractThreeTimesChange2()
    ensures IncrementLine("test-3abc", 5, -1) == Some(Change(0, "-4", "test-4abc", 5))
  {
    SubtractThreeTimesLiterals2();
    SubtractThreeTimesText2();
    SubtractThreeTimesSplice2();
    IncrementFound("test-3abc", 5, -1, [Literal(Decimal, 4, 5, 6)], 0, "-4", "test-4abc", 5);
  }

  lemma SubtractThreeTimesLiterals2()
    ensures Literals("test-3abc") == [Literal(Decimal, 4, 5, 6)]
  {
    var s := "test-3abc";
    assert LiteralsFrom(s, 9) == [];
    assert LiteralsFrom(s, 8) == [];
    assert LiteralsFrom(s, 7) == [];
    assert LiteralsFrom(s, 6) == [];
    assert LiteralAt(s, 5) == Literal(Decimal, 4, 5, 6);
    assert LiteralsFrom(s, 5) == [Literal(Decimal, 4, 5, 6)];
    assert LiteralsFrom(s, 4) == [Literal(Decimal, 4, 5, 6)];
    assert LiteralsFrom(s, 3) == [Literal(Decimal, 4, 5, 6)];
    assert LiteralsFrom(s, 2) == [Literal(Decimal, 4, 5, 6)];
    assert LiteralsFrom(s, 1) == [Literal(Decimal, 4, 5, 6)];
    assert LiteralsFrom(s, 0) == [Literal(Decimal, 4, 5, 6)];
  }

  lemma SubtractThreeTimesText2()
    ensures IsLiteral("test-3abc", Literal(Decimal, 4, 5, 6)) && Render("test-3abc", Literal(Decimal, 4, 5, 6), -1) == "-4"
  {
    SubtractThreeTimesText2Value();
    DecimalDigits4();
    RenderDecimal("test-3abc", Literal(Decimal, 4, 5, 6), -1, -3, "4", "-4");
  }

  lemma SubtractThreeTimesText2Value()
    ensures IsLiteral("test-3abc", Literal(Decimal, 4, 5, 6)) && Value("test-3abc", Literal(Decimal, 4, 5, 6)) == -3
  {
  }

  lemma SubtractThreeTimesStep3()
    ensures LinesBreakFree(["test-4abc"], 0)
    ensures ParseCommand("<C-x>") == Some((Add(1, true), ""))
    ensures IncrementLine(["test-4abc"][0], 5, Delta(1, true)) == Some(Change(0, "-5", "test-5abc", 5))
    ensures ["test-5abc"] == ["test-4abc"][0 := "test-5abc"]
  {
    SubtractThreeTimesBuffer3();
    SubtractThriceKeys();
    SubtractThreeTimesChange3();
    OneLineUpdate("test-4abc", "test-5abc");
  }

  lemma SubtractThreeTimesBuffer3()
    ensures LinesBreakFree(["test-4abc"], 0)
  {
  }

  lemma SubtractThreeTimesSplice3()
    ensures "test-5abc" == "test-4abc"[..4] + "-5" + "test-4abc"[6..]
  {
  }

  lemma SubtractThreeTimesChange3()
    ensures IncrementLine("test-4abc", 5, -1) == Some(Change(0, "-5", "test-5abc", 5))
  {
    SubtractThreeTimesLiterals3();
    SubtractThreeTimesText3();
    SubtractThreeTimesSplice3();
    IncrementFound("test-4abc", 5, -1, [Literal(Decimal, 4, 5, 6)], 0, "-5", "test-5abc", 5);
  }

  lemma SubtractThreeTimesLiterals3()
    ensures Literals("test-4abc") == [Literal(Decimal, 4, 5, 6)]
  {
    var s := "test-4abc";
    assert LiteralsFrom(s, 9) == [];
    assert LiteralsFrom(s, 8) == [];
    assert LiteralsFrom(s, 7) == [];
    assert LiteralsFrom(s, 6) == [];
    assert LiteralAt(s, 5) == Literal(Decimal, 4, 5, 6);
    assert LiteralsFrom(s, 5) == [Literal(Decimal, 4, 5, 6)];
    assert LiteralsFrom(s, 4) == [Literal(Decimal, 4, 5, 6)];
    assert LiteralsFrom(s, 3) == [Literal(Decimal, 4, 5, 6)];
    assert LiteralsFrom(s, 2) == [Literal(Decimal, 4, 5, 6)];
    assert LiteralsFrom(s, 1) == [Literal(Decimal, 4, 5, 6)];
    assert LiteralsFrom(s, 0) == [Literal(Decimal, 4, 5, 6)];
  }

  lemma SubtractThreeTimesText3()
    ensures IsLiteral("test-4abc", Literal(Decimal, 4, 5, 6)) && Render("test-4abc", Literal(Decimal, 4, 5, 6), -1) == "-5"
  {
    SubtractThreeTimesText3Value();
    DecimalDigits5();
    RenderDecimal("test-4abc", Literal(Decimal, 4, 5, 6), -1, -4, "5", "-5");
  }

  lemma SubtractThreeTimesText3Value()
    ensures IsLiteral("test-4abc", Literal(Decimal, 4, 5, 6)) && Value("test-4abc", Literal(Decimal, 4, 5, 6)) == -4
  {
  }

  /** `<C-a>` with no number ending after the cursor on its line changes nothing; the next line is not looked at. */
  lemma AddNothingAfterCursor(st: State)
    requires st == Start(["id: 1,", "someOtherId: 1"], 0, 5)
    ensures Case(st, "<C-a>", ["id: 1,", "someOtherId: 1"], 0, 5, Normal)
  {
    AddNothingAfterCursorStep();
    AddNothingCase(st, ["id: 1,", "someOtherId: 1"], 0, 5, "<C-a>", 1, false);
  }

  lemma AddNothingAfterCursorStep()
    ensures LinesBreakFree(["id: 1,", "someOtherId: 1"], 0)
    ensures ParseCommand("<C-a>") == Some((Add(1, false), ""))
    ensures IncrementLine(["id: 1,", "someOtherId: 1"][0], 5, Delta(1, false)).None?
  {
    AddNothingAfterCursorBuffer();
    AddKeys();
    AddNothingAfterCursorLiterals();
  }

  lemma AddNothingAfterCursorBuffer()
    ensures LinesBreakFree(["id: 1,", "someOtherId: 1"], 0)
  {
  }

  lemma AddNothingAfterCursorLiterals()
    ensures Literals("id: 1,") == [Literal(Decimal, 4, 4, 5)]
  {
    var s := "id: 1,";
    assert LiteralsFrom(s, 6) == [];
    assert LiteralsFrom(s, 5) == [];
    assert LiteralAt(s, 4) == Literal(Decimal, 4, 4, 5);
    assert LiteralsFrom(s, 4) == [Literal(Decimal, 4, 4, 5)];
    assert LiteralsFrom(s, 3) == [Literal(Decimal, 4, 4, 5)];
    assert LiteralsFrom(s, 2) == [Literal(Decimal, 4, 4, 5)];
    assert LiteralsFrom(s, 1) == [Literal(Decimal, 4, 4, 5)];
    assert LiteralsFrom(s, 0) == [Literal(Decimal, 4, 4, 5)];
  }

  /** `<C-a>` on a word with two numbers changes the first. */
  lemma AddFirstOfTwo(st: State)
    requires st == Start(["foo1bar2"], 0, 1)
    ensures Case(st, "<C-a>", ["foo2bar2"], 0, 3, Normal)
  {
    AddFirstOfTwoStep();
    AddLastCase(st, ["foo1bar2"], 0, 1, "<C-a>", 1, false, Change(0, "2", "foo2bar2", 3), ["foo2bar2"], 3);
  }

  lemma AddFirstOfTwoStep()
    ensures LinesBreakFree(["foo1bar2"], 0)
    ensures ParseCommand("<C-a>") == Some((Add(1, false), ""))
    ensures IncrementLine(["foo1bar2"][0], 1, Delta(1, false)) == Some(Change(0, "2", "foo2bar2", 3))
    ensures ["foo2bar2"] == ["foo1bar2"][0 := "foo2bar2"]
  {
    AddFirstOfTwoBuffer();
    AddKeys();
    AddFirstOfTwoChange();
    OneLineUpdate("foo1bar2", "foo2bar2");
  }

  lemma AddFirstOfTwoBuffer()
    ensures LinesBreakFree(["foo1bar2"], 0)
  {
  }

  lemma AddFirstOfTwoSplice()
    ensures "foo2bar2" == "foo1bar2"[..3] + "2" + "foo1bar2"[4..]
  {
  }

  lemma AddFirstOfTwoChange()
    ensures IncrementLine("foo1bar2", 1, 1) == Some(Change(0, "2", "foo2bar2", 3))
  {
    AddFirstOfTwoLiterals();
    AddFirstOfTwoText();
    AddFirstOfTwoSplice();
    IncrementFound("foo1bar2", 1, 1, [Literal(Decimal, 3, 3, 4), Literal(Decimal, 7, 7, 8)], 0, "2", "foo2bar2", 3);
  }

  lemma AddFirstOfTwoLiterals()
    ensures Literals("foo1bar2") == [Literal(Decimal, 3, 3, 4), Literal(Decimal, 7, 7, 8)]
  {
    var s := "foo1bar2";
    assert LiteralsFrom(s, 8) == [];
    assert LiteralAt(s, 7) == Literal(Decimal, 7, 7, 8);
    assert LiteralsFrom(s, 7) == [Literal(Decimal, 7, 7, 8)];
    assert LiteralsFrom(s, 6) == [Literal(Decimal, 7, 7, 8)];
    assert LiteralsFrom(s, 5) == [Literal(Decimal, 7, 7, 8)];
    assert LiteralsFrom(s, 4) == [Literal(Decimal, 7, 7, 8)];
    assert LiteralAt(s, 3) == Literal(Decimal, 3, 3, 4);
    assert LiteralsFrom(s, 3) == [Literal(Decimal, 3, 3, 4), Literal(Decimal, 7, 7, 8)];
    assert LiteralsFrom(s, 2) == [Literal(Decimal, 3, 3, 4), Literal(Decimal, 7, 7, 8)];
    assert LiteralsFrom(s, 1) == [Literal(Decimal, 3, 3, 4), Literal(Decimal, 7, 7, 8)];
    assert LiteralsFrom(s, 0) == [Literal(Decimal, 3, 3, 4), Literal(Decimal, 7, 7, 8)];
  }

  lemma AddFirstOfTwoText()
    ensures IsLiteral("foo1bar2", Literal(Decimal, 3, 3, 4)) && Render("foo1bar2", Literal(Decimal, 3, 3, 4), 1) == "2"
  {
    AddFirstOfTwoTextValue();
    DecimalDigits2();
    RenderDecimal("foo1bar2", Literal(Decimal, 3, 3, 4), 1, 1, "2", "2");
  }

  lemma AddFirstOfTwoTextValue()
    ensures IsLiteral("foo1bar2", Literal(Decimal, 3, 3, 4)) && Value("foo1bar2", Literal(Decimal, 3, 3, 4)) == 1
  {
  }

  /** `<C-a>` past the first of two numbers changes the second. */
  lemma AddSecondOfTwo(st: State)
    requires st == Start(["foo1bar2"], 0, 4)
    ensures Case(st, "<C-a>", ["foo1bar3"], 0, 7, Normal)
  {
    AddSecondOfTwoStep();
    AddLastCase(st, ["foo1bar2"], 0, 4, "<C-a>", 1, false, Change(1, "3", "foo1bar3", 7), ["foo1bar3"], 7);
  }

  lemma AddSecondOfTwoStep()
    ensures LinesBreakFree(["foo1bar2"], 0)
    ensures ParseCommand("<C-a>") == Some((Add(1, false), ""))
    ensures IncrementLine(["foo1bar2"][0], 4, Delta(1, false)) == Some(Change(1, "3", "foo1bar3", 7))
    ensures ["foo1bar3"] == ["foo1bar2"][0 := "foo1bar3"]
  {
    AddSecondOfTwoBuffer();
    AddKeys();
    AddSecondOfTwoChange();
    OneLineUpdate("foo1bar2", "foo1bar3");
  }

  lemma AddSecondOfTwoBuffer()
    ensures LinesBreakFree(["foo1bar2"], 0)
  {
  }

  lemma AddSecondOfTwoSplice()
    ensures "foo1bar3" == "foo1bar2"[..7] + "3" + "foo1bar2"[8..]
  {
  }

  lemma AddSecondOfTwoChange()
    ensures IncrementLine("foo1bar2", 4, 1) == Some(Change(1, "3", "foo1bar3", 7))
  {
    AddSecondOfTwoLiterals();
    AddSecondOfTwoText();
    AddSecondOfTwoSplice();
    IncrementFound("foo1bar2", 4, 1, [Literal(Decimal, 3, 3, 4), Literal(Decimal, 7, 7, 8)], 1, "3", "foo1bar3", 7);
  }

  lemma AddSecondOfTwoLiterals()
    ensures Literals("foo1bar2") == [Literal(Decimal, 3, 3, 4), Literal(Decimal, 7, 7, 8)]
  {
    var s := "foo1bar2";
    assert LiteralsFrom(s, 8) == [];
    assert LiteralAt(s, 7) == Literal(Decimal, 7, 7, 8);
    assert LiteralsFrom(s, 7) == [Literal(Decimal, 7, 7, 8)];
    assert LiteralsFrom(s, 6) == [Literal(Decimal, 7, 7, 8)];
    assert LiteralsFrom(s, 5) == [Literal(Decimal, 7, 7, 8)];
    assert LiteralsFrom(s, 4) == [Literal(Decimal, 7, 7, 8)];
    assert LiteralAt(s, 3) == Literal(Decimal, 3, 3, 4);
    assert LiteralsFrom(s, 3) == [Literal(Decimal, 3, 3, 4), Literal(Decimal, 7, 7, 8)];
    assert LiteralsFrom(s, 2) == [Literal(Decimal, 3, 3, 4), Literal(Decimal, 7, 7, 8)];
    assert LiteralsFrom(s, 1) == [Literal(Decimal, 3, 3, 4), Literal(Decimal, 7, 7, 8)];
    assert LiteralsFrom(s, 0) == [Literal(Decimal, 3, 3, 4), Literal(Decimal, 7, 7, 8)];
  }

  lemma AddSecondOfTwoText()
    ensures IsLiteral("foo1bar2", Literal(Decimal, 7, 7, 8)) && Render("foo1bar2", Literal(Decimal, 7, 7, 8), 1) == "3"
  {
    AddSecondOfTwoTextValue();
    DecimalDigits3();
    RenderDecimal("foo1bar2", Literal(Decimal, 7, 7, 8), 1, 2, "3", "3");
  }

  lemma AddSecondOfTwoTextValue()
    ensures IsLiteral("foo1bar2", Literal(Decimal, 7, 7, 8)) && Value("foo1bar2", Literal(Decimal, 7, 7, 8)) == 2
  {
  }

  /** `<C-a>` on a word behind a minus sign: the sign is part of the number only when right before it. */
  lemma AddAfterMinusWord(st: State)
    requires st == Start(["-foo2"], 0, 3)
    ensures Case(st, "<C-a>", ["-foo3"], 0, 4, Normal)
  {
    AddAfterMinusWordStep();
    AddLastCase(st, ["-foo2"], 0, 3, "<C-a>", 1, false, Change(0, "3", "-foo3", 4), ["-foo3"], 4);
  }

  lemma AddAfterMinusWordStep()
    ensures LinesBreakFree(["-foo2"], 0)
    ensures ParseCommand("<C-a>") == Some((Add(1, false), ""))
    ensures IncrementLine(["-foo2"][0], 3, Delta(1, false)) == Some(Change(0, "3", "-foo3", 4))
    ensures ["-foo3"] == ["-foo2"][0 := "-foo3"]
  {
    AddAfterMinusWordBuffer();
    AddKeys();
    AddAfterMinusWordChange();
    OneLineUpdate("-foo2", "-foo3");
  }

  lemma AddAfterMinusWordBuffer()
    ensures LinesBreakFree(["-foo2"], 0)
  {
  }

  lemma AddAfterMinusWordSplice()
    ensures "-foo3" == "-foo2"[..4] + "3" + "-foo2"[5..]
  {
  }

  lemma AddAfterMinusWordChange()
    ensures IncrementLine("-foo2", 3, 1) == Some(Change(0, "3", "-foo3", 4))
  {
    AddAfterMinusWordLiterals();
    AddAfterMinusWordText();
    AddAfterMinusWordSplice();
    IncrementFound("-foo2", 3, 1, [Literal(Decimal, 4, 4, 5)], 0, "3", "-foo3", 4);
  }

  lemma AddAfterMinusWordLiterals()
    ensures Literals("-foo2") == [Literal(Decimal, 4, 4, 5)]
  {
    var s := "-foo2";
    assert LiteralsFrom(s, 5) == [];
    assert LiteralAt(s, 4) == Literal(Decimal, 4, 4, 5);
    assert LiteralsFrom(s, 4) == [Literal(Decimal, 4, 4, 5)];
    assert LiteralsFrom(s, 3) == [Literal(Decimal, 4, 4, 5)];
    assert LiteralsFrom(s, 2) == [Literal(Decimal, 4, 4, 5)];
    assert LiteralsFrom(s, 1) == [Literal(Decimal, 4, 4, 5)];
    assert LiteralsFrom(s, 0) == [Literal(Decimal, 4, 4, 5)];
  }

  lemma AddAfterMinusWordText()
    ensures IsLiteral("-foo2", Literal(Decimal, 4, 4, 5)) && Render("-foo2", Literal(Decimal, 4, 4, 5), 1) == "3"
  {
    AddAfterMinusWordTextValue();
    DecimalDigits3();
    RenderDecimal("-foo2", Literal(Decimal, 4, 4, 5), 1, 2, "3", "3");
  }

  lemma AddAfterMinusWordTextValue()
    ensures IsLiteral("-foo2", Literal(Decimal, 4, 4, 5)) && Value("-foo2", Literal(Decimal, 4, 4, 5)) == 2
  {
  }

  // The keys of the cases, as commands.

  lemma Add10Keys()
    ensures ParseCommand("10<C-a>") == Some((Add(10, false), ""))
  {
  }

  lemma Add15Keys()
    ensures ParseCommand("15<C-a>") == Some((Add(15, false), ""))
  {
  }

  lemma AddKeys()
    ensures ParseCommand("<C-a>") == Some((Add(1, false), ""))
  {
  }

  lemma SubtractKeys()
    ensures ParseCommand("<C-x>") == Some((Add(1, true), ""))
  {
    assert !StartsWith("<C-x>", "<C-a>") by {
      assert "<C-x>"[..5][3] != "<C-a>"[3];
    }
  }

  lemma SubtractThriceKeys()
    ensures ParseCommand("<C-x><C-x><C-x>") == Some((Add(1, true), "<C-x><C-x>"))
    ensures ParseCommand("<C-x><C-x>") == Some((Add(1, true), "<C-x>"))
    ensures ParseCommand("<C-x>") == Some((Add(1, true), ""))
  {
    assert !StartsWith("<C-x><C-x><C-x>", "<C-a>") by {
      assert "<C-x><C-x><C-x>"[..5][3] != "<C-a>"[3];
    }
    assert !StartsWith("<C-x><C-x>", "<C-a>") by {
      assert "<C-x><C-x>"[..5][3] != "<C-a>"[3];
    }
    assert !StartsWith("<C-x>", "<C-a>") by {
      assert "<C-x>"[..5][3] != "<C-a>"[3];
    }
  }

  // The digits of the new values.

  lemma DecimalDigits10()
    ensures ToDigits(10, 10, false) == "10"
  {
  }

  lemma DecimalDigits102()
    ensures ToDigits(102, 10, false) == "102"
  {
  }

  lemma DecimalDigits11()
    ensures ToDigits(11, 10, false) == "11"
  {
  }

  lemma DecimalDigits12()
    ensures ToDigits(12, 10, false) == "12"
  {
  }

  lemma DecimalDigits2()
    ensures ToDigits(2, 10, false) == "2"
  {
  }

  lemma DecimalDigits3()
    ensures ToDigits(3, 10, false) == "3"
  {
  }

  lemma DecimalDigits4()
    ensures ToDigits(4, 10, false) == "4"
  {
  }

  lemma DecimalDigits5()
    ensures ToDigits(5, 10, false) == "5"
  {
  }

  lemma DecimalDigits9()
    ensures ToDigits(9, 10, false) == "9"
  {
  }

  lemma HexDigits1()
    ensures ToDigits(1, 16, false) == "1"
  {
  }

  lemma HexDigits16()
    ensures ToDigits(16, 16, false) == "10"
  {
  }

  lemma OctalDigits1()
    ensures ToDigits(1, 8, false) == "1"
  {
  }

  lemma OctalDigits79()
    ensures ToDigits(79, 8, false) == "117"
  {
  }

  lemma OctalDigits8()
    ensures ToDigits(8, 8, false) == "10"
  {
  }
}
