/**
 * The repository's test cases for the argument objects `ia` and `aa` with
 * `c` and `d`, as lemmas: from the start buffer and cursor, the keys leave
 * the end buffer, cursor and mode the test expects. Each case rests on
 * small lemmas that work out the keys, the buffer's text, the enclosing
 * pair, its separators, the argument the cursor is in and the object.
 */
module ArgumentCases {
  import opened Wrappers
  import opened Buffer
  import opened Keys
  import opened Session
  import opened Scenario
  import B = Brackets
  import A = Arguments

  /** `cia` with no parentheses or brackets around the cursor finds nothing: nothing changes and the mode stays Normal. */
  lemma NoDelimiters(st: State)
    requires st == Start(["foo"], 0, 1)
    ensures Case(st, "cia", ["foo"], 0, 1, Normal)
  {
    NoDelimitersObject();
    NoDelimitersStart();
    NoTextObjectCase(st, ["foo"], 0, 1, "cia", ChangeText, 1, false, 'a', "foo", 1);
  }

  lemma NoDelimitersStart()
    ensures TextStart(["foo"], 0, 1, "cia", ChangeText, 1, false, 'a', "foo", 1)
  {
    NoDelimitersKeys();
    NoDelimitersBefore();
  }

  lemma NoDelimitersKeys()
    ensures ParseCommand("cia") == Some((Operate(ChangeText, 1, Object(false, 'a')), ""))
  {
  }

  lemma NoDelimitersBefore()
    ensures LinesBreakFree(["foo"], 0) && Join(["foo"]) == "foo" && Offset(["foo"], Pos(0, 1)) == 1
  {
    NoDelimitersBeforeJoin();
  }

  lemma NoDelimitersBeforeJoin()
    ensures Join(["foo"]) == "foo"
  {
  }

  lemma NoDelimitersObject()
    ensures TextObject("foo", 1, false, 'a', 1) == None
  {
    NoDelimitersArgument();
  }

  lemma NoDelimitersArgument()
    ensures A.ArgumentObject("foo", 1, false).None?
  {
    NoDelimitersPair();
  }

  lemma NoDelimitersPair()
    ensures A.ArgumentPair("foo", 1).None?
  {
    NoDelimitersOpen1();
  }

  lemma NoDelimitersOpen1()
    ensures B.OpenBefore("foo", B.Delims("([", ")]"), 1) == None
  {
    assert "foo" == "foo";
    NoDelimitersOpen1At0();
  }

  lemma NoDelimitersOpen1At0()
    ensures B.FindOpen("foo", B.Delims("([", ")]"), 1, 0) == None
  {
    NoDelimitersOpen1At1();
  }

  lemma NoDelimitersOpen1At1()
    ensures B.FindOpen("foo", B.Delims("([", ")]"), 0, 0) == None
  {
  }

  /** `cia` between a closing and an opening parenthesis finds nothing. */
  lemma FlippedDelimiters(st: State)
    requires st == Start([")foo("], 0, 2)
    ensures Case(st, "cia", [")foo("], 0, 2, Normal)
  {
    FlippedDelimitersObject();
    FlippedDelimitersStart();
    NoTextObjectCase(st, [")foo("], 0, 2, "cia", ChangeText, 1, false, 'a', ")foo(", 2);
  }

  lemma FlippedDelimitersStart()
    ensures TextStart([")foo("], 0, 2, "cia", ChangeText, 1, false, 'a', ")foo(", 2)
  {
    FlippedDelimitersKeys();
    FlippedDelimitersBefore();
  }

  lemma FlippedDelimitersKeys()
    ensures ParseCommand("cia") == Some((Operate(ChangeText, 1, Object(false, 'a')), ""))
  {
  }

  lemma FlippedDelimitersBefore()
    ensures LinesBreakFree([")foo("], 0) && Join([")foo("]) == ")foo(" && Offset([")foo("], Pos(0, 2)) == 2
  {
    FlippedDelimitersBeforeJoin();
  }

  lemma FlippedDelimitersBeforeJoin()
    ensures Join([")foo("]) == ")foo("
  {
  }

  lemma FlippedDelimitersObject()
    ensures TextObject(")foo(", 2, false, 'a', 1) == None
  {
    FlippedDelimitersArgument();
  }

  lemma FlippedDelimitersArgument()
    ensures A.ArgumentObject(")foo(", 2, false).None?
  {
    FlippedDelimitersPair();
  }

  lemma FlippedDelimitersPair()
    ensures A.ArgumentPair(")foo(", 2).None?
  {
    FlippedDelimitersOpen1();
  }

  lemma FlippedDelimitersOpen1()
    ensures B.OpenBefore(")foo(", B.Delims("([", ")]"), 2) == None
  {
    assert ")foo(" == ")foo(";
    FlippedDelimitersOpen1At0();
  }

  lemma FlippedDelimitersOpen1At0()
    ensures B.FindOpen(")foo(", B.Delims("([", ")]"), 2, 0) == None
  {
    FlippedDelimitersOpen1At1();
  }

  lemma FlippedDelimitersOpen1At1()
    ensures B.FindOpen(")foo(", B.Delims("([", ")]"), 0, 1) == None
  {
  }

  /** `cia` among commas with no delimiters around them finds nothing. */
  lemma SeparatorsOnly(st: State)
    requires st == Start(["alpha,", "beta,", "gamma"], 1, 1)
    ensures Case(st, "cia", ["alpha,", "beta,", "gamma"], 1, 1, Normal)
  {
    SeparatorsOnlyObject();
    SeparatorsOnlyStart();
    NoTextObjectCase(st, ["alpha,", "beta,", "gamma"], 1, 1, "cia", ChangeText, 1, false, 'a', "alpha,\nbeta,\ngamma", 8);
  }

  lemma SeparatorsOnlyStart()
    ensures TextStart(["alpha,", "beta,", "gamma"], 1, 1, "cia", ChangeText, 1, false, 'a', "alpha,\nbeta,\ngamma", 8)
  {
    SeparatorsOnlyKeys();
    SeparatorsOnlyBefore();
  }

  lemma SeparatorsOnlyKeys()
    ensures ParseCommand("cia") == Some((Operate(ChangeText, 1, Object(false, 'a')), ""))
  {
  }

  lemma SeparatorsOnlyBefore()
    ensures LinesBreakFree(["alpha,", "beta,", "gamma"], 0) && Join(["alpha,", "beta,", "gamma"]) == "alpha,\nbeta,\ngamma" && Offset(["alpha,", "beta,", "gamma"], Pos(1, 1)) == 8
  {
    SeparatorsOnlyBeforeJoin();
  }

  lemma SeparatorsOnlyBeforeJoin()
    ensures Join(["alpha,", "beta,", "gamma"]) == "alpha,\nbeta,\ngamma"
  {
    var ls := ["alpha,", "beta,", "gamma"];
    assert ls[1..] == ["beta,", "gamma"];
    assert ls[1..][1..] == ["gamma"];
  }

  lemma SeparatorsOnlyObject()
    ensures TextObject("alpha,\nbeta,\ngamma", 8, false, 'a', 1) == None
  {
    SeparatorsOnlyArgument();
  }

  lemma SeparatorsOnlyArgument()
    ensures A.ArgumentObject("alpha,\nbeta,\ngamma", 8, false).None?
  {
    SeparatorsOnlyPair();
  }

  lemma SeparatorsOnlyPair()
    ensures A.ArgumentPair("alpha,\nbeta,\ngamma", 8).None?
  {
    SeparatorsOnlyOpen1();
  }

  lemma SeparatorsOnlyOpen1()
    ensures B.OpenBefore("alpha,\nbeta,\ngamma", B.Delims("([", ")]"), 8) == None
  {
    assert "alpha,\nbeta,\ngamma" == "alpha," + "\nbeta," + "\ngamma";
    SeparatorsOnlyOpen1At0();
  }

  lemma SeparatorsOnlyOpen1At0()
    ensures B.FindOpen("alpha," + "\nbeta," + "\ngamma", B.Delims("([", ")]"), 8, 0) == None
  {
    SeparatorsOnlyOpen1At1();
  }

  lemma SeparatorsOnlyOpen1At1()
    ensures B.FindOpen("alpha," + "\nbeta," + "\ngamma", B.Delims("([", ")]"), 6, 0) == None
  {
    SeparatorsOnlyOpen1At2();
  }

  lemma SeparatorsOnlyOpen1At2()
    ensures B.FindOpen("alpha," + "\nbeta," + "\ngamma", B.Delims("([", ")]"), 4, 0) == None
  {
    SeparatorsOnlyOpen1At3();
  }

  lemma SeparatorsOnlyOpen1At3()
    ensures B.FindOpen("alpha," + "\nbeta," + "\ngamma", B.Delims("([", ")]"), 2, 0) == None
  {
    SeparatorsOnlyOpen1At4();
  }

  lemma SeparatorsOnlyOpen1At4()
    ensures B.FindOpen("alpha," + "\nbeta," + "\ngamma", B.Delims("([", ")]"), 0, 0) == None
  {
  }

  /** `cia` in the only argument empties the parentheses. */
  lemma SingleArgument(st: State)
    requires st == Start(["(foo)"], 0, 2)
    ensures Case(st, "cia", ["()"], 0, 1, Insert)
  {
    SingleArgumentStart();
    SingleArgumentObject();
    SingleArgumentLeft();
    TextCase(st, ["(foo)"], 0, 2, "cia", ChangeText, 1, false, 'a', "(foo)", 2, 1, 4, ["()"], "()", 0, 1, 1);
  }

  lemma SingleArgumentLeft()
    ensures TextLeft("(foo)", ChangeText, 1, 4, ["()"], "()", 0, 1, 1)
  {
    SingleArgumentCut();
    SingleArgumentAfter();
  }

  lemma SingleArgumentCut()
    ensures "()" == "(foo)"[..1] + "(foo)"[4..]
  {
  }

  lemma SingleArgumentAfter()
    ensures LinesBreakFree(["()"], 0) && Join(["()"]) == "()" && Offset(["()"], Pos(0, 1)) == 1
  {
    SingleArgumentAfterJoin();
  }

  lemma SingleArgumentAfterJoin()
    ensures Join(["()"]) == "()"
  {
  }

  lemma SingleArgumentStart()
    ensures TextStart(["(foo)"], 0, 2, "cia", ChangeText, 1, false, 'a', "(foo)", 2)
  {
    SingleArgumentKeys();
    SingleArgumentBefore();
  }

  lemma SingleArgumentKeys()
    ensures ParseCommand("cia") == Some((Operate(ChangeText, 1, Object(false, 'a')), ""))
  {
  }

  lemma SingleArgumentBefore()
    ensures LinesBreakFree(["(foo)"], 0) && Join(["(foo)"]) == "(foo)" && Offset(["(foo)"], Pos(0, 2)) == 2
  {
    SingleArgumentBeforeJoin();
  }

  lemma SingleArgumentBeforeJoin()
    ensures Join(["(foo)"]) == "(foo)"
  {
  }

  lemma SingleArgumentObject()
    ensures TextObject("(foo)", 2, false, 'a', 1) == Some(B.Range(1, 4))
  {
    SingleArgumentArgument();
  }

  lemma SingleArgumentArgument()
    ensures A.ArgumentObject("(foo)", 2, false) == Some(B.Range(1, 4))
  {
    SingleArgumentPair();
    SingleArgumentSegment();
    SingleArgumentInner();
  }

  lemma SingleArgumentPair()
    ensures A.ArgumentPair("(foo)", 2) == Some((0, 4))
  {
    SingleArgumentOpen1();
    SingleArgumentClose1();
  }

  lemma SingleArgumentOpen1()
    ensures B.OpenBefore("(foo)", B.Delims("([", ")]"), 2) == Some(0)
  {
    assert "(foo)" == "(foo)";
    SingleArgumentOpen1At0();
  }

  lemma SingleArgumentOpen1At0()
    ensures B.FindOpen("(foo)", B.Delims("([", ")]"), 2, 0) == Some(0)
  {
    SingleArgumentOpen1At1();
  }

  lemma SingleArgumentOpen1At1()
    ensures B.FindOpen("(foo)", B.Delims("([", ")]"), 1, 0) == Some(0)
  {
  }

  lemma SingleArgumentClose1()
    ensures B.CloseFrom("(foo)", B.Delims("([", ")]"), 2) == Some(4)
  {
    assert "(foo)" == "(foo)";
    SingleArgumentClose1At0();
  }

  lemma SingleArgumentClose1At0()
    ensures B.FindClose("(foo)", B.Delims("([", ")]"), 2, 0) == Some(4)
  {
    SingleArgumentClose1At1();
  }

  lemma SingleArgumentClose1At1()
    ensures B.FindClose("(foo)", B.Delims("([", ")]"), 4, 0) == Some(4)
  {
  }

  lemma SingleArgumentSegment()
    ensures A.SegmentAt("(foo)", 0, 4, 2) == A.Segment(0, 4, 0, 4)
  {
    SingleArgumentSeparators();
  }

  lemma SingleArgumentSeparators()
    ensures A.Separators("(foo)", 0, 4) == []
  {
    assert "(foo)" == "(foo)";
    SingleArgumentScan1();
  }

  lemma SingleArgumentScan1()
    ensures A.SeparatorsFrom("(foo)", 4, 1, 0) == []
  {
    SingleArgumentScan3();
  }

  lemma SingleArgumentScan3()
    ensures A.SeparatorsFrom("(foo)", 4, 3, 0) == []
  {
  }


  lemma SingleArgumentInner()
    ensures A.InnerArgument("(foo)", A.Segment(0, 4, 0, 4)) == B.Range(1, 4)
  {
    var t := "(foo)";
    assert t[1] == 'f' && t[2] == 'o' && t[3] == 'o';
  }

  /** `cia` on the opening delimiter of `()`. */
  lemma EmptyOnOpening(st: State)
    requires st == Start(["()"], 0, 0)
    ensures Case(st, "cia", ["()"], 0, 1, Insert)
  {
    EmptyOnOpeningStart();
    EmptyOnOpeningObject();
    EmptyOnOpeningLeft();
    TextCase(st, ["()"], 0, 0, "cia", ChangeText, 1, false, 'a', "()", 0, 1, 1, ["()"], "()", 0, 1, 1);
  }

  lemma EmptyOnOpeningLeft()
    ensures TextLeft("()", ChangeText, 1, 1, ["()"], "()", 0, 1, 1)
  {
    EmptyOnOpeningCut();
    EmptyOnOpeningAfter();
  }

  lemma EmptyOnOpeningCut()
    ensures "()" == "()"[..1] + "()"[1..]
  {
  }

  lemma EmptyOnOpeningAfter()
    ensures LinesBreakFree(["()"], 0) && Join(["()"]) == "()" && Offset(["()"], Pos(0, 1)) == 1
  {
    EmptyOnOpeningAfterJoin();
  }

  lemma EmptyOnOpeningAfterJoin()
    ensures Join(["()"]) == "()"
  {
  }

  lemma EmptyOnOpeningStart()
    ensures TextStart(["()"], 0, 0, "cia", ChangeText, 1, false, 'a', "()", 0)
  {
    EmptyOnOpeningKeys();
    EmptyOnOpeningBefore();
  }

  lemma EmptyOnOpeningKeys()
    ensures ParseCommand("cia") == Some((Operate(ChangeText, 1, Object(false, 'a')), ""))
  {
  }

  lemma EmptyOnOpeningBefore()
    ensures LinesBreakFree(["()"], 0) && Join(["()"]) == "()" && Offset(["()"], Pos(0, 0)) == 0
  {
    EmptyOnOpeningBeforeJoin();
  }

  lemma EmptyOnOpeningBeforeJoin()
    ensures Join(["()"]) == "()"
  {
  }

  lemma EmptyOnOpeningObject()
    ensures TextObject("()", 0, false, 'a', 1) == Some(B.Range(1, 1))
  {
    EmptyOnOpeningArgument();
  }

  lemma EmptyOnOpeningArgument()
    ensures A.ArgumentObject("()", 0, false) == Some(B.Range(1, 1))
  {
    EmptyOnOpeningPair();
    EmptyOnOpeningSegment();
    EmptyOnOpeningInner();
  }

  lemma EmptyOnOpeningPair()
    ensures A.ArgumentPair("()", 0) == Some((0, 1))
  {
    EmptyOnOpeningClose1();
  }

  lemma EmptyOnOpeningClose1()
    ensures B.CloseFrom("()", B.Delims("([", ")]"), 1) == Some(1)
  {
    assert "()" == "()";
    EmptyOnOpeningClose1At0();
  }

  lemma EmptyOnOpeningClose1At0()
    ensures B.FindClose("()", B.Delims("([", ")]"), 1, 0) == Some(1)
  {
  }

  lemma EmptyOnOpeningSegment()
    ensures A.SegmentAt("()", 0, 1, 0) == A.Segment(0, 1, 0, 1)
  {
    EmptyOnOpeningSeparators();
  }

  lemma EmptyOnOpeningSeparators()
    ensures A.Separators("()", 0, 1) == []
  {
  }


  lemma EmptyOnOpeningInner()
    ensures A.InnerArgument("()", A.Segment(0, 1, 0, 1)) == B.Range(1, 1)
  {
  }

  /** `cia` on the comma of `(,)` takes the empty argument after it. */
  lemma OneCommaOnComma(st: State)
    requires st == Start(["(,)"], 0, 1)
    ensures Case(st, "cia", ["(,)"], 0, 2, Insert)
  {
    OneCommaOnCommaStart();
    OneCommaOnCommaObject();
    OneCommaOnCommaLeft();
    TextCase(st, ["(,)"], 0, 1, "cia", ChangeText, 1, false, 'a', "(,)", 1, 2, 2, ["(,)"], "(,)", 0, 2, 2);
  }

  lemma OneCommaOnCommaLeft()
    ensures TextLeft("(,)", ChangeText, 2, 2, ["(,)"], "(,)", 0, 2, 2)
  {
    OneCommaOnCommaCut();
    OneCommaOnCommaAfter();
  }

  lemma OneCommaOnCommaCut()
    ensures "(,)" == "(,)"[..2] + "(,)"[2..]
  {
  }

  lemma OneCommaOnCommaAfter()
    ensures LinesBreakFree(["(,)"], 0) && Join(["(,)"]) == "(,)" && Offset(["(,)"], Pos(0, 2)) == 2
  {
    OneCommaOnCommaAfterJoin();
  }

  lemma OneCommaOnCommaAfterJoin()
    ensures Join(["(,)"]) == "(,)"
  {
  }

  lemma OneCommaOnCommaStart()
    ensures TextStart(["(,)"], 0, 1, "cia", ChangeText, 1, false, 'a', "(,)", 1)
  {
    OneCommaOnCommaKeys();
    OneCommaOnCommaBefore();
  }

  lemma OneCommaOnCommaKeys()
    ensures ParseCommand("cia") == Some((Operate(ChangeText, 1, Object(false, 'a')), ""))
  {
  }

  lemma OneCommaOnCommaBefore()
    ensures LinesBreakFree(["(,)"], 0) && Join(["(,)"]) == "(,)" && Offset(["(,)"], Pos(0, 1)) == 1
  {
    OneCommaOnCommaBeforeJoin();
  }

  lemma OneCommaOnCommaBeforeJoin()
    ensures Join(["(,)"]) == "(,)"
  {
  }

  lemma OneCommaOnCommaObject()
    ensures TextObject("(,)", 1, false, 'a', 1) == Some(B.Range(2, 2))
  {
    OneCommaOnCommaArgument();
  }

  lemma OneCommaOnCommaArgument()
    ensures A.ArgumentObject("(,)", 1, false) == Some(B.Range(2, 2))
  {
    OneCommaOnCommaPair();
    OneCommaOnCommaSegment();
    OneCommaOnCommaInner();
  }

  lemma OneCommaOnCommaPair()
    ensures A.ArgumentPair("(,)", 1) == Some((0, 2))
  {
    OneCommaOnCommaOpen1();
    OneCommaOnCommaClose1();
  }

  lemma OneCommaOnCommaOpen1()
    ensures B.OpenBefore("(,)", B.Delims("([", ")]"), 1) == Some(0)
  {
    assert "(,)" == "(,)";
    OneCommaOnCommaOpen1At0();
  }

  lemma OneCommaOnCommaOpen1At0()
    ensures B.FindOpen("(,)", B.Delims("([", ")]"), 1, 0) == Some(0)
  {
  }

  lemma OneCommaOnCommaClose1()
    ensures B.CloseFrom("(,)", B.Delims("([", ")]"), 1) == Some(2)
  {
    assert "(,)" == "(,)";
    OneCommaOnCommaClose1At0();
  }

  lemma OneCommaOnCommaClose1At0()
    ensures B.FindClose("(,)", B.Delims("([", ")]"), 1, 0) == Some(2)
  {
    OneCommaOnCommaClose1At1();
  }

  lemma OneCommaOnCommaClose1At1()
    ensures B.FindClose("(,)", B.Delims("([", ")]"), 2, 0) == Some(2)
  {
  }

  lemma OneCommaOnCommaSegment()
    ensures A.SegmentAt("(,)", 0, 2, 1) == A.Segment(0, 2, 1, 2)
  {
    OneCommaOnCommaSeparators();
    assert A.LastUpTo([1], 1, 0) == 1;
    assert A.FirstAfter([1], 1, 2) == 2;
  }

  lemma OneCommaOnCommaSeparators()
    ensures A.Separators("(,)", 0, 2) == [1]
  {
    assert "(,)" == "(,)";
    OneCommaOnCommaScan1();
  }

  lemma OneCommaOnCommaScan1()
    ensures A.SeparatorsFrom("(,)", 2, 1, 0) == [1]
  {
  }


  lemma OneCommaOnCommaInner()
    ensures A.InnerArgument("(,)", A.Segment(0, 2, 1, 2)) == B.Range(2, 2)
  {
  }

  /** `cia` on the last comma of `(,,,)`. */
  lemma CommasOnLastComma(st: State)
    requires st == Start(["(,,,)"], 0, 3)
    ensures Case(st, "cia", ["(,,,)"], 0, 4, Insert)
  {
    CommasOnLastCommaStart();
    CommasOnLastCommaObject();
    CommasOnLastCommaLeft();
    TextCase(st, ["(,,,)"], 0, 3, "cia", ChangeText, 1, false, 'a', "(,,,)", 3, 4, 4, ["(,,,)"], "(,,,)", 0, 4, 4);
  }

  lemma CommasOnLastCommaLeft()
    ensures TextLeft("(,,,)", ChangeText, 4, 4, ["(,,,)"], "(,,,)", 0, 4, 4)
  {
    CommasOnLastCommaCut();
    CommasOnLastCommaAfter();
  }

  lemma CommasOnLastCommaCut()
    ensures "(,,,)" == "(,,,)"[..4] + "(,,,)"[4..]
  {
  }

  lemma CommasOnLastCommaAfter()
    ensures LinesBreakFree(["(,,,)"], 0) && Join(["(,,,)"]) == "(,,,)" && Offset(["(,,,)"], Pos(0, 4)) == 4
  {
    CommasOnLastCommaAfterJoin();
  }

  lemma CommasOnLastCommaAfterJoin()
    ensures Join(["(,,,)"]) == "(,,,)"
  {
  }

  lemma CommasOnLastCommaStart()
    ensures TextStart(["(,,,)"], 0, 3, "cia", ChangeText, 1, false, 'a', "(,,,)", 3)
  {
    CommasOnLastCommaKeys();
    CommasOnLastCommaBefore();
  }

  lemma CommasOnLastCommaKeys()
    ensures ParseCommand("cia") == Some((Operate(ChangeText, 1, Object(false, 'a')), ""))
  {
  }

  lemma CommasOnLastCommaBefore()
    ensures LinesBreakFree(["(,,,)"], 0) && Join(["(,,,)"]) == "(,,,)" && Offset(["(,,,)"], Pos(0, 3)) == 3
  {
    CommasOnLastCommaBeforeJoin();
  }

  lemma CommasOnLastCommaBeforeJoin()
    ensures Join(["(,,,)"]) == "(,,,)"
  {
  }

  lemma CommasOnLastCommaObject()
    ensures TextObject("(,,,)", 3, false, 'a', 1) == Some(B.Range(4, 4))
  {
    CommasOnLastCommaArgument();
  }

  lemma CommasOnLastCommaArgument()
    ensures A.ArgumentObject("(,,,)", 3, false) == Some(B.Range(4, 4))
  {
    CommasOnLastCommaPair();
    CommasOnLastCommaSegment();
    CommasOnLastCommaInner();
  }

  lemma CommasOnLastCommaPair()
    ensures A.ArgumentPair("(,,,)", 3) == Some((0, 4))
  {
    CommasOnLastCommaOpen1();
    CommasOnLastCommaClose1();
  }

  lemma CommasOnLastCommaOpen1()
    ensures B.OpenBefore("(,,,)", B.Delims("([", ")]"), 3) == Some(0)
  {
    assert "(,,,)" == "(,,,)";
    CommasOnLastCommaOpen1At0();
  }

  lemma CommasOnLastCommaOpen1At0()
    ensures B.FindOpen("(,,,)", B.Delims("([", ")]"), 3, 0) == Some(0)
  {
    CommasOnLastCommaOpen1At1();
  }

  lemma CommasOnLastCommaOpen1At1()
    ensures B.FindOpen("(,,,)", B.Delims("([", ")]"), 1, 0) == Some(0)
  {
  }

  lemma CommasOnLastCommaClose1()
    ensures B.CloseFrom("(,,,)", B.Delims("([", ")]"), 3) == Some(4)
  {
    assert "(,,,)" == "(,,,)";
    CommasOnLastCommaClose1At0();
  }

  lemma CommasOnLastCommaClose1At0()
    ensures B.FindClose("(,,,)", B.Delims("([", ")]"), 3, 0) == Some(4)
  {
    CommasOnLastCommaClose1At1();
  }

  lemma CommasOnLastCommaClose1At1()
    ensures B.FindClose("(,,,)", B.Delims("([", ")]"), 4, 0) == Some(4)
  {
  }

  lemma CommasOnLastCommaSegment()
    ensures A.SegmentAt("(,,,)", 0, 4, 3) == A.Segment(0, 4, 3, 4)
  {
    CommasOnLastCommaSeparators();
    assert A.LastUpTo([1], 3, 0) == 1;
    assert A.LastUpTo([1, 2], 3, 0) == 2;
    assert A.LastUpTo([1, 2, 3], 3, 0) == 3;
    assert A.FirstAfter([3], 3, 4) == 4;
    assert A.FirstAfter([2, 3], 3, 4) == 4;
    assert A.FirstAfter([1, 2, 3], 3, 4) == 4;
  }

  lemma CommasOnLastCommaSeparators()
    ensures A.Separators("(,,,)", 0, 4) == [1, 2, 3]
  {
    assert "(,,,)" == "(,,,)";
    CommasOnLastCommaScan1();
  }

  lemma CommasOnLastCommaScan1()
    ensures A.SeparatorsFrom("(,,,)", 4, 1, 0) == [1, 2, 3]
  {
    CommasOnLastCommaScan3();
  }

  lemma CommasOnLastCommaScan3()
    ensures A.SeparatorsFrom("(,,,)", 4, 3, 0) == [3]
  {
  }


  lemma CommasOnLastCommaInner()
    ensures A.InnerArgument("(,,,)", A.Segment(0, 4, 3, 4)) == B.Range(4, 4)
  {
  }

  /** `cia` in the first of three arguments. */
  lemma FirstOfThree(st: State)
    requires st == Start(["(foo, bar, baz)"], 0, 2)
    ensures Case(st, "cia", ["(, bar, baz)"], 0, 1, Insert)
  {
    FirstOfThreeStart();
    FirstOfThreeObject();
    FirstOfThreeLeft();
    TextCase(st, ["(foo, bar, baz)"], 0, 2, "cia", ChangeText, 1, false, 'a', "(foo, bar, baz)", 2, 1, 4, ["(, bar, baz)"], "(, bar, baz)", 0, 1, 1);
  }

  lemma FirstOfThreeLeft()
    ensures TextLeft("(foo, bar, baz)", ChangeText, 1, 4, ["(, bar, baz)"], "(, bar, baz)", 0, 1, 1)
  {
    FirstOfThreeCut();
    FirstOfThreeAfter();
  }

  lemma FirstOfThreeCut()
    ensures "(, bar, baz)" == "(foo, bar, baz)"[..1] + "(foo, bar, baz)"[4..]
  {
  }

  lemma FirstOfThreeAfter()
    ensures LinesBreakFree(["(, bar, baz)"], 0) && Join(["(, bar, baz)"]) == "(, bar, baz)" && Offset(["(, bar, baz)"], Pos(0, 1)) == 1
  {
    FirstOfThreeAfterJoin();
  }

  lemma FirstOfThreeAfterJoin()
    ensures Join(["(, bar, baz)"]) == "(, bar, baz)"
  {
  }

  lemma FirstOfThreeStart()
    ensures TextStart(["(foo, bar, baz)"], 0, 2, "cia", ChangeText, 1, false, 'a', "(foo, bar, baz)", 2)
  {
    FirstOfThreeKeys();
    FirstOfThreeBefore();
  }

  lemma FirstOfThreeKeys()
    ensures ParseCommand("cia") == Some((Operate(ChangeText, 1, Object(false, 'a')), ""))
  {
  }

  lemma FirstOfThreeBefore()
    ensures LinesBreakFree(["(foo, bar, baz)"], 0) && Join(["(foo, bar, baz)"]) == "(foo, bar, baz)" && Offset(["(foo, bar, baz)"], Pos(0, 2)) == 2
  {
    FirstOfThreeBeforeJoin();
  }

  lemma FirstOfThreeBeforeJoin()
    ensures Join(["(foo, bar, baz)"]) == "(foo, bar, baz)"
  {
  }

  lemma FirstOfThreeObject()
    ensures TextObject("(foo, bar, baz)", 2, false, 'a', 1) == Some(B.Range(1, 4))
  {
    FirstOfThreeArgument();
  }

  lemma FirstOfThreeArgument()
    ensures A.ArgumentObject("(foo, bar, baz)", 2, false) == Some(B.Range(1, 4))
  {
    FirstOfThreePair();
    FirstOfThreeSegment();
    FirstOfThreeInner();
  }

  lemma FirstOfThreePair()
    ensures A.ArgumentPair("(foo, bar, baz)", 2) == Some((0, 14))
  {
    FirstOfThreeOpen1();
    FirstOfThreeClose1();
  }

  lemma FirstOfThreeOpen1()
    ensures B.OpenBefore("(foo, bar, baz)", B.Delims("([", ")]"), 2) == Some(0)
  {
    assert "(foo, bar, baz)" == "(foo, " + "bar, b" + "az)";
    FirstOfThreeOpen1At0();
  }

  lemma FirstOfThreeOpen1At0()
    ensures B.FindOpen("(foo, " + "bar, b" + "az)", B.Delims("([", ")]"), 2, 0) == Some(0)
  {
    FirstOfThreeOpen1At1();
  }

  lemma FirstOfThreeOpen1At1()
    ensures B.FindOpen("(foo, " + "bar, b" + "az)", B.Delims("([", ")]"), 1, 0) == Some(0)
  {
  }

  lemma FirstOfThreeClose1()
    ensures B.CloseFrom("(foo, bar, baz)", B.Delims("([", ")]"), 2) == Some(14)
  {
    assert "(foo, bar, baz)" == "(foo, " + "bar, b" + "az)";
    FirstOfThreeClose1At0();
  }

  lemma FirstOfThreeClose1At0()
    ensures B.FindClose("(foo, " + "bar, b" + "az)", B.Delims("([", ")]"), 2, 0) == Some(14)
  {
    FirstOfThreeClose1At1();
  }

  lemma FirstOfThreeClose1At1()
    ensures B.FindClose("(foo, " + "bar, b" + "az)", B.Delims("([", ")]"), 4, 0) == Some(14)
  {
    FirstOfThreeClose1At2();
  }

  lemma FirstOfThreeClose1At2()
    ensures B.FindClose("(foo, " + "bar, b" + "az)", B.Delims("([", ")]"), 6, 0) == Some(14)
  {
    FirstOfThreeClose1At3();
  }

  lemma FirstOfThreeClose1At3()
    ensures B.FindClose("(foo, " + "bar, b" + "az)", B.Delims("([", ")]"), 8, 0) == Some(14)
  {
    FirstOfThreeClose1At4();
  }

  lemma FirstOfThreeClose1At4()
    ensures B.FindClose("(foo, " + "bar, b" + "az)", B.Delims("([", ")]"), 10, 0) == Some(14)
  {
    FirstOfThreeClose1At5();
  }

  lemma FirstOfThreeClose1At5()
    ensures B.FindClose("(foo, " + "bar, b" + "az)", B.Delims("([", ")]"), 12, 0) == Some(14)
  {
    FirstOfThreeClose1At6();
  }

  lemma FirstOfThreeClose1At6()
    ensures B.FindClose("(foo, " + "bar, b" + "az)", B.Delims("([", ")]"), 14, 0) == Some(14)
  {
  }

  lemma FirstOfThreeSegment()
    ensures A.SegmentAt("(foo, bar, baz)", 0, 14, 2) == A.Segment(0, 14, 0, 4)
  {
    FirstOfThreeSeparators();
    assert A.LastUpTo([4], 2, 0) == 0;
    assert A.LastUpTo([4, 9], 2, 0) == 0;
    assert A.FirstAfter([9], 2, 14) == 9;
    assert A.FirstAfter([4, 9], 2, 14) == 4;
  }

  lemma FirstOfThreeSeparators()
    ensures A.Separators("(foo, bar, baz)", 0, 14) == [4, 9]
  {
    assert "(foo, bar, baz)" == "(foo, " + "bar, b" + "az)";
    FirstOfThreeScan1();
  }

  lemma FirstOfThreeScan1()
    ensures A.SeparatorsFrom("(foo, " + "bar, b" + "az)", 14, 1, 0) == [4, 9]
  {
    FirstOfThreeScan3();
  }

  lemma FirstOfThreeScan3()
    ensures A.SeparatorsFrom("(foo, " + "bar, b" + "az)", 14, 3, 0) == [4, 9]
  {
    FirstOfThreeScan5();
  }

  lemma FirstOfThreeScan5()
    ensures A.SeparatorsFrom("(foo, " + "bar, b" + "az)", 14, 5, 0) == [9]
  {
    FirstOfThreeScan7();
  }

  lemma FirstOfThreeScan7()
    ensures A.SeparatorsFrom("(foo, " + "bar, b" + "az)", 14, 7, 0) == [9]
  {
    FirstOfThreeScan9();
  }

  lemma FirstOfThreeScan9()
    ensures A.SeparatorsFrom("(foo, " + "bar, b" + "az)", 14, 9, 0) == [9]
  {
    FirstOfThreeScan11();
  }

  lemma FirstOfThreeScan11()
    ensures A.SeparatorsFrom("(foo, " + "bar, b" + "az)", 14, 11, 0) == []
  {
    FirstOfThreeScan13();
  }

  lemma FirstOfThreeScan13()
    ensures A.SeparatorsFrom("(foo, " + "bar, b" + "az)", 14, 13, 0) == []
  {
  }


  lemma FirstOfThreeInner()
    ensures A.InnerArgument("(foo, bar, baz)", A.Segment(0, 14, 0, 4)) == B.Range(1, 4)
  {
    var t := "(foo, bar, baz)";
    assert t[1] == 'f' && t[2] == 'o' && t[3] == 'o';
  }

  /** `cia` in the middle argument leaves the blank after the comma. */
  lemma MiddleOfThree(st: State)
    requires st == Start(["(foo, bar, baz)"], 0, 8)
    ensures Case(st, "cia", ["(foo, , baz)"], 0, 6, Insert)
  {
    MiddleOfThreeStart();
    MiddleOfThreeObject();
    MiddleOfThreeLeft();
    TextCase(st, ["(foo, bar, baz)"], 0, 8, "cia", ChangeText, 1, false, 'a', "(foo, bar, baz)", 8, 6, 9, ["(foo, , baz)"], "(foo, , baz)", 0, 6, 6);
  }

  lemma MiddleOfThreeLeft()
    ensures TextLeft("(foo, bar, baz)", ChangeText, 6, 9, ["(foo, , baz)"], "(foo, , baz)", 0, 6, 6)
  {
    MiddleOfThreeCut();
    MiddleOfThreeAfter();
  }

  lemma MiddleOfThreeCut()
    ensures "(foo, , baz)" == "(foo, bar, baz)"[..6] + "(foo, bar, baz)"[9..]
  {
  }

  lemma MiddleOfThreeAfter()
    ensures LinesBreakFree(["(foo, , baz)"], 0) && Join(["(foo, , baz)"]) == "(foo, , baz)" && Offset(["(foo, , baz)"], Pos(0, 6)) == 6
  {
    MiddleOfThreeAfterJoin();
  }

  lemma MiddleOfThreeAfterJoin()
    ensures Join(["(foo, , baz)"]) == "(foo, , baz)"
  {
  }

  lemma MiddleOfThreeStart()
    ensures TextStart(["(foo, bar, baz)"], 0, 8, "cia", ChangeText, 1, false, 'a', "(foo, bar, baz)", 8)
  {
    MiddleOfThreeKeys();
    MiddleOfThreeBefore();
  }

  lemma MiddleOfThreeKeys()
    ensures ParseCommand("cia") == Some((Operate(ChangeText, 1, Object(false, 'a')), ""))
  {
  }

  lemma MiddleOfThreeBefore()
    ensures LinesBreakFree(["(foo, bar, baz)"], 0) && Join(["(foo, bar, baz)"]) == "(foo, bar, baz)" && Offset(["(foo, bar, baz)"], Pos(0, 8)) == 8
  {
    MiddleOfThreeBeforeJoin();
  }

  lemma MiddleOfThreeBeforeJoin()
    ensures Join(["(foo, bar, baz)"]) == "(foo, bar, baz)"
  {
  }

  lemma MiddleOfThreeObject()
    ensures TextObject("(foo, bar, baz)", 8, false, 'a', 1) == Some(B.Range(6, 9))
  {
    MiddleOfThreeArgument();
  }

  lemma MiddleOfThreeArgument()
    ensures A.ArgumentObject("(foo, bar, baz)", 8, false) == Some(B.Range(6, 9))
  {
    MiddleOfThreePair();
    MiddleOfThreeSegment();
    MiddleOfThreeInner();
  }

  lemma MiddleOfThreePair()
    ensures A.ArgumentPair("(foo, bar, baz)", 8) == Some((0, 14))
  {
    MiddleOfThreeOpen1();
    MiddleOfThreeClose1();
  }

  lemma MiddleOfThreeOpen1()
    ensures B.OpenBefore("(foo, bar, baz)", B.Delims("([", ")]"), 8) == Some(0)
  {
    assert "(foo, bar, baz)" == "(foo, " + "bar, b" + "az)";
    MiddleOfThreeOpen1At0();
  }

  lemma MiddleOfThreeOpen1At0()
    ensures B.FindOpen("(foo, " + "bar, b" + "az)", B.Delims("([", ")]"), 8, 0) == Some(0)
  {
    MiddleOfThreeOpen1At1();
  }

  lemma MiddleOfThreeOpen1At1()
    ensures B.FindOpen("(foo, " + "bar, b" + "az)", B.Delims("([", ")]"), 6, 0) == Some(0)
  {
    MiddleOfThreeOpen1At2();
  }

  lemma MiddleOfThreeOpen1At2()
    ensures B.FindOpen("(foo, " + "bar, b" + "az)", B.Delims("([", ")]"), 4, 0) == Some(0)
  {
    MiddleOfThreeOpen1At3();
  }

  lemma MiddleOfThreeOpen1At3()
    ensures B.FindOpen("(foo, " + "bar, b" + "az)", B.Delims("([", ")]"), 2, 0) == Some(0)
  {
    MiddleOfThreeOpen1At4();
  }

  lemma MiddleOfThreeOpen1At4()
    ensures B.FindOpen("(foo, " + "bar, b" + "az)", B.Delims("([", ")]"), 1, 0) == Some(0)
  {
  }

  lemma MiddleOfThreeClose1()
    ensures B.CloseFrom("(foo, bar, baz)", B.Delims("([", ")]"), 8) == Some(14)
  {
    assert "(foo, bar, baz)" == "(foo, " + "bar, b" + "az)";
    MiddleOfThreeClose1At0();
  }

  lemma MiddleOfThreeClose1At0()
    ensures B.FindClose("(foo, " + "bar, b" + "az)", B.Delims("([", ")]"), 8, 0) == Some(14)
  {
    MiddleOfThreeClose1At1();
  }

  lemma MiddleOfThreeClose1At1()
    ensures B.FindClose("(foo, " + "bar, b" + "az)", B.Delims("([", ")]"), 10, 0) == Some(14)
  {
    MiddleOfThreeClose1At2();
  }

  lemma MiddleOfThreeClose1At2()
    ensures B.FindClose("(foo, " + "bar, b" + "az)", B.Delims("([", ")]"), 12, 0) == Some(14)
  {
    MiddleOfThreeClose1At3();
  }

  lemma MiddleOfThreeClose1At3()
    ensures B.FindClose("(foo, " + "bar, b" + "az)", B.Delims("([", ")]"), 14, 0) == Some(14)
  {
  }

  lemma MiddleOfThreeSegment()
    ensures A.SegmentAt("(foo, bar, baz)", 0, 14, 8) == A.Segment(0, 14, 4, 9)
  {
    MiddleOfThreeSeparators();
    assert A.LastUpTo([4], 8, 0) == 4;
    assert A.LastUpTo([4, 9], 8, 0) == 4;
    assert A.FirstAfter([9], 8, 14) == 9;
    assert A.FirstAfter([4, 9], 8, 14) == 9;
  }

  lemma MiddleOfThreeSeparators()
    ensures A.Separators("(foo, bar, baz)", 0, 14) == [4, 9]
  {
    assert "(foo, bar, baz)" == "(foo, " + "bar, b" + "az)";
    MiddleOfThreeScan1();
  }

  lemma MiddleOfThreeScan1()
    ensures A.SeparatorsFrom("(foo, " + "bar, b" + "az)", 14, 1, 0) == [4, 9]
  {
    MiddleOfThreeScan3();
  }

  lemma MiddleOfThreeScan3()
    ensures A.SeparatorsFrom("(foo, " + "bar, b" + "az)", 14, 3, 0) == [4, 9]
  {
    MiddleOfThreeScan5();
  }

  lemma MiddleOfThreeScan5()
    ensures A.SeparatorsFrom("(foo, " + "bar, b" + "az)", 14, 5, 0) == [9]
  {
    MiddleOfThreeScan7();
  }

  lemma MiddleOfThreeScan7()
    ensures A.SeparatorsFrom("(foo, " + "bar, b" + "az)", 14, 7, 0) == [9]
  {
    MiddleOfThreeScan9();
  }

  lemma MiddleOfThreeScan9()
    ensures A.SeparatorsFrom("(foo, " + "bar, b" + "az)", 14, 9, 0) == [9]
  {
    MiddleOfThreeScan11();
  }

  lemma MiddleOfThreeScan11()
    ensures A.SeparatorsFrom("(foo, " + "bar, b" + "az)", 14, 11, 0) == []
  {
    MiddleOfThreeScan13();
  }

  lemma MiddleOfThreeScan13()
    ensures A.SeparatorsFrom("(foo, " + "bar, b" + "az)", 14, 13, 0) == []
  {
  }


  lemma MiddleOfThreeInner()
    ensures A.InnerArgument("(foo, bar, baz)", A.Segment(0, 14, 4, 9)) == B.Range(6, 9)
  {
    var t := "(foo, bar, baz)";
    assert t[5] == ' ' && t[6] == 'b' && t[7] == 'a' && t[8] == 'r';
  }

  /** `cia` in the last argument. */
  lemma LastOfThree(st: State)
    requires st == Start(["(foo, bar, baz)"], 0, 12)
    ensures Case(st, "cia", ["(foo, bar, )"], 0, 11, Insert)
  {
    LastOfThreeStart();
    LastOfThreeObject();
    LastOfThreeLeft();
    TextCase(st, ["(foo, bar, baz)"], 0, 12, "cia", ChangeText, 1, false, 'a', "(foo, bar, baz)", 12, 11, 14, ["(foo, bar, )"], "(foo, bar, )", 0, 11, 11);
  }

  lemma LastOfThreeLeft()
    ensures TextLeft("(foo, bar, baz)", ChangeText, 11, 14, ["(foo, bar, )"], "(foo, bar, )", 0, 11, 11)
  {
    LastOfThreeCut();
    LastOfThreeAfter();
  }

  lemma LastOfThreeCut()
    ensures "(foo, bar, )" == "(foo, bar, baz)"[..11] + "(foo, bar, baz)"[14..]
  {
  }

  lemma LastOfThreeAfter()
    ensures LinesBreakFree(["(foo, bar, )"], 0) && Join(["(foo, bar, )"]) == "(foo, bar, )" && Offset(["(foo, bar, )"], Pos(0, 11)) == 11
  {
    LastOfThreeAfterJoin();
  }

  lemma LastOfThreeAfterJoin()
    ensures Join(["(foo, bar, )"]) == "(foo, bar, )"
  {
  }

  lemma LastOfThreeStart()
    ensures TextStart(["(foo, bar, baz)"], 0, 12, "cia", ChangeText, 1, false, 'a', "(foo, bar, baz)", 12)
  {
    LastOfThreeKeys();
    LastOfThreeBefore();
  }

  lemma LastOfThreeKeys()
    ensures ParseCommand("cia") == Some((Operate(ChangeText, 1, Object(false, 'a')), ""))
  {
  }

  lemma LastOfThreeBefore()
    ensures LinesBreakFree(["(foo, bar, baz)"], 0) && Join(["(foo, bar, baz)"]) == "(foo, bar, baz)" && Offset(["(foo, bar, baz)"], Pos(0, 12)) == 12
  {
    LastOfThreeBeforeJoin();
  }

  lemma LastOfThreeBeforeJoin()
    ensures Join(["(foo, bar, baz)"]) == "(foo, bar, baz)"
  {
  }

  lemma LastOfThreeObject()
    ensures TextObject("(foo, bar, baz)", 12, false, 'a', 1) == Some(B.Range(11, 14))
  {
    LastOfThreeArgument();
  }

  lemma LastOfThreeArgument()
    ensures A.ArgumentObject("(foo, bar, baz)", 12, false) == Some(B.Range(11, 14))
  {
    LastOfThreePair();
    LastOfThreeSegment();
    LastOfThreeInner();
  }

  lemma LastOfThreePair()
    ensures A.ArgumentPair("(foo, bar, baz)", 12) == Some((0, 14))
  {
    LastOfThreeOpen1();
    LastOfThreeClose1();
  }

  lemma LastOfThreeOpen1()
    ensures B.OpenBefore("(foo, bar, baz)", B.Delims("([", ")]"), 12) == Some(0)
  {
    assert "(foo, bar, baz)" == "(foo, " + "bar, b" + "az)";
    LastOfThreeOpen1At0();
  }

  lemma LastOfThreeOpen1At0()
    ensures B.FindOpen("(foo, " + "bar, b" + "az)", B.Delims("([", ")]"), 12, 0) == Some(0)
  {
    LastOfThreeOpen1At1();
  }

  lemma LastOfThreeOpen1At1()
    ensures B.FindOpen("(foo, " + "bar, b" + "az)", B.Delims("([", ")]"), 10, 0) == Some(0)
  {
    LastOfThreeOpen1At2();
  }

  lemma LastOfThreeOpen1At2()
    ensures B.FindOpen("(foo, " + "bar, b" + "az)", B.Delims("([", ")]"), 8, 0) == Some(0)
  {
    LastOfThreeOpen1At3();
  }

  lemma LastOfThreeOpen1At3()
    ensures B.FindOpen("(foo, " + "bar, b" + "az)", B.Delims("([", ")]"), 6, 0) == Some(0)
  {
    LastOfThreeOpen1At4();
  }

  lemma LastOfThreeOpen1At4()
    ensures B.FindOpen("(foo, " + "bar, b" + "az)", B.Delims("([", ")]"), 4, 0) == Some(0)
  {
    LastOfThreeOpen1At5();
  }

  lemma LastOfThreeOpen1At5()
    ensures B.FindOpen("(foo, " + "bar, b" + "az)", B.Delims("([", ")]"), 2, 0) == Some(0)
  {
    LastOfThreeOpen1At6();
  }

  lemma LastOfThreeOpen1At6()
    ensures B.FindOpen("(foo, " + "bar, b" + "az)", B.Delims("([", ")]"), 1, 0) == Some(0)
  {
  }

  lemma LastOfThreeClose1()
    ensures B.CloseFrom("(foo, bar, baz)", B.Delims("([", ")]"), 12) == Some(14)
  {
    assert "(foo, bar, baz)" == "(foo, " + "bar, b" + "az)";
    LastOfThreeClose1At0();
  }

  lemma LastOfThreeClose1At0()
    ensures B.FindClose("(foo, " + "bar, b" + "az)", B.Delims("([", ")]"), 12, 0) == Some(14)
  {
    LastOfThreeClose1At1();
  }

  lemma LastOfThreeClose1At1()
    ensures B.FindClose("(foo, " + "bar, b" + "az)", B.Delims("([", ")]"), 14, 0) == Some(14)
  {
  }

  lemma LastOfThreeSegment()
    ensures A.SegmentAt("(foo, bar, baz)", 0, 14, 12) == A.Segment(0, 14, 9, 14)
  {
    LastOfThreeSeparators();
    assert A.LastUpTo([4], 12, 0) == 4;
    assert A.LastUpTo([4, 9], 12, 0) == 9;
    assert A.FirstAfter([9], 12, 14) == 14;
    assert A.FirstAfter([4, 9], 12, 14) == 14;
  }

  lemma LastOfThreeSeparators()
    ensures A.Separators("(foo, bar, baz)", 0, 14) == [4, 9]
  {
    assert "(foo, bar, baz)" == "(foo, " + "bar, b" + "az)";
    LastOfThreeScan1();
  }

  lemma LastOfThreeScan1()
    ensures A.SeparatorsFrom("(foo, " + "bar, b" + "az)", 14, 1, 0) == [4, 9]
  {
    LastOfThreeScan3();
  }

  lemma LastOfThreeScan3()
    ensures A.SeparatorsFrom("(foo, " + "bar, b" + "az)", 14, 3, 0) == [4, 9]
  {
    LastOfThreeScan5();
  }

  lemma LastOfThreeScan5()
    ensures A.SeparatorsFrom("(foo, " + "bar, b" + "az)", 14, 5, 0) == [9]
  {
    LastOfThreeScan7();
  }

  lemma LastOfThreeScan7()
    ensures A.SeparatorsFrom("(foo, " + "bar, b" + "az)", 14, 7, 0) == [9]
  {
    LastOfThreeScan9();
  }

  lemma LastOfThreeScan9()
    ensures A.SeparatorsFrom("(foo, " + "bar, b" + "az)", 14, 9, 0) == [9]
  {
    LastOfThreeScan11();
  }

  lemma LastOfThreeScan11()
    ensures A.SeparatorsFrom("(foo, " + "bar, b" + "az)", 14, 11, 0) == []
  {
    LastOfThreeScan13();
  }

  lemma LastOfThreeScan13()
    ensures A.SeparatorsFrom("(foo, " + "bar, b" + "az)", 14, 13, 0) == []
  {
  }


  lemma LastOfThreeInner()
    ensures A.InnerArgument("(foo, bar, baz)", A.Segment(0, 14, 9, 14)) == B.Range(11, 14)
  {
    var t := "(foo, bar, baz)";
    assert t[10] == ' ' && t[11] == 'b' && t[12] == 'a' && t[13] == 'z';
  }

  /** `cia` in an argument of blanks takes the blanks. */
  lemma BlankArgument(st: State)
    requires st == Start(["(foo,  , baz)"], 0, 6)
    ensures Case(st, "cia", ["(foo,, baz)"], 0, 5, Insert)
  {
    BlankArgumentStart();
    BlankArgumentObject();
    BlankArgumentLeft();
    TextCase(st, ["(foo,  , baz)"], 0, 6, "cia", ChangeText, 1, false, 'a', "(foo,  , baz)", 6, 5, 7, ["(foo,, baz)"], "(foo,, baz)", 0, 5, 5);
  }

  lemma BlankArgumentLeft()
    ensures TextLeft("(foo,  , baz)", ChangeText, 5, 7, ["(foo,, baz)"], "(foo,, baz)", 0, 5, 5)
  {
    BlankArgumentCut();
    BlankArgumentAfter();
  }

  lemma BlankArgumentCut()
    ensures "(foo,, baz)" == "(foo,  , baz)"[..5] + "(foo,  , baz)"[7..]
  {
  }

  lemma BlankArgumentAfter()
    ensures LinesBreakFree(["(foo,, baz)"], 0) && Join(["(foo,, baz)"]) == "(foo,, baz)" && Offset(["(foo,, baz)"], Pos(0, 5)) == 5
  {
    BlankArgumentAfterJoin();
  }

  lemma BlankArgumentAfterJoin()
    ensures Join(["(foo,, baz)"]) == "(foo,, baz)"
  {
  }

  lemma BlankArgumentStart()
    ensures TextStart(["(foo,  , baz)"], 0, 6, "cia", ChangeText, 1, false, 'a', "(foo,  , baz)", 6)
  {
    BlankArgumentKeys();
    BlankArgumentBefore();
  }

  lemma BlankArgumentKeys()
    ensures ParseCommand("cia") == Some((Operate(ChangeText, 1, Object(false, 'a')), ""))
  {
  }

  lemma BlankArgumentBefore()
    ensures LinesBreakFree(["(foo,  , baz)"], 0) && Join(["(foo,  , baz)"]) == "(foo,  , baz)" && Offset(["(foo,  , baz)"], Pos(0, 6)) == 6
  {
    BlankArgumentBeforeJoin();
  }

  lemma BlankArgumentBeforeJoin()
    ensures Join(["(foo,  , baz)"]) == "(foo,  , baz)"
  {
  }

  lemma BlankArgumentObject()
    ensures TextObject("(foo,  , baz)", 6, false, 'a', 1) == Some(B.Range(5, 7))
  {
    BlankArgumentArgument();
  }

  lemma BlankArgumentArgument()
    ensures A.ArgumentObject("(foo,  , baz)", 6, false) == Some(B.Range(5, 7))
  {
    BlankArgumentPair();
    BlankArgumentSegment();
    BlankArgumentInner();
  }

  lemma BlankArgumentPair()
    ensures A.ArgumentPair("(foo,  , baz)", 6) == Some((0, 12))
  {
    BlankArgumentOpen1();
    BlankArgumentClose1();
  }

  lemma BlankArgumentOpen1()
    ensures B.OpenBefore("(foo,  , baz)", B.Delims("([", ")]"), 6) == Some(0)
  {
    assert "(foo,  , baz)" == "(foo, " + " , baz" + ")";
    BlankArgumentOpen1At0();
  }

  lemma BlankArgumentOpen1At0()
    ensures B.FindOpen("(foo, " + " , baz" + ")", B.Delims("([", ")]"), 6, 0) == Some(0)
  {
    BlankArgumentOpen1At1();
  }

  lemma BlankArgumentOpen1At1()
    ensures B.FindOpen("(foo, " + " , baz" + ")", B.Delims("([", ")]"), 4, 0) == Some(0)
  {
    BlankArgumentOpen1At2();
  }

  lemma BlankArgumentOpen1At2()
    ensures B.FindOpen("(foo, " + " , baz" + ")", B.Delims("([", ")]"), 2, 0) == Some(0)
  {
    BlankArgumentOpen1At3();
  }

  lemma BlankArgumentOpen1At3()
    ensures B.FindOpen("(foo, " + " , baz" + ")", B.Delims("([", ")]"), 1, 0) == Some(0)
  {
  }

  lemma BlankArgumentClose1()
    ensures B.CloseFrom("(foo,  , baz)", B.Delims("([", ")]"), 6) == Some(12)
  {
    assert "(foo,  , baz)" == "(foo, " + " , baz" + ")";
    BlankArgumentClose1At0();
  }

  lemma BlankArgumentClose1At0()
    ensures B.FindClose("(foo, " + " , baz" + ")", B.Delims("([", ")]"), 6, 0) == Some(12)
  {
    BlankArgumentClose1At1();
  }

  lemma BlankArgumentClose1At1()
    ensures B.FindClose("(foo, " + " , baz" + ")", B.Delims("([", ")]"), 8, 0) == Some(12)
  {
    BlankArgumentClose1At2();
  }

  lemma BlankArgumentClose1At2()
    ensures B.FindClose("(foo, " + " , baz" + ")", B.Delims("([", ")]"), 10, 0) == Some(12)
  {
    BlankArgumentClose1At3();
  }

  lemma BlankArgumentClose1At3()
    ensures B.FindClose("(foo, " + " , baz" + ")", B.Delims("([", ")]"), 12, 0) == Some(12)
  {
  }

  lemma BlankArgumentSegment()
    ensures A.SegmentAt("(foo,  , baz)", 0, 12, 6) == A.Segment(0, 12, 4, 7)
  {
    BlankArgumentSeparators();
    assert A.LastUpTo([4], 6, 0) == 4;
    assert A.LastUpTo([4, 7], 6, 0) == 4;
    assert A.FirstAfter([7], 6, 12) == 7;
    assert A.FirstAfter([4, 7], 6, 12) == 7;
  }

  lemma BlankArgumentSeparators()
    ensures A.Separators("(foo,  , baz)", 0, 12) == [4, 7]
  {
    assert "(foo,  , baz)" == "(foo, " + " , baz" + ")";
    BlankArgumentScan1();
  }

  lemma BlankArgumentScan1()
    ensures A.SeparatorsFrom("(foo, " + " , baz" + ")", 12, 1, 0) == [4, 7]
  {
    BlankArgumentScan3();
  }

  lemma BlankArgumentScan3()
    ensures A.SeparatorsFrom("(foo, " + " , baz" + ")", 12, 3, 0) == [4, 7]
  {
    BlankArgumentScan5();
  }

  lemma BlankArgumentScan5()
    ensures A.SeparatorsFrom("(foo, " + " , baz" + ")", 12, 5, 0) == [7]
  {
    BlankArgumentScan7();
  }

  lemma BlankArgumentScan7()
    ensures A.SeparatorsFrom("(foo, " + " , baz" + ")", 12, 7, 0) == [7]
  {
    BlankArgumentScan9();
  }

  lemma BlankArgumentScan9()
    ensures A.SeparatorsFrom("(foo, " + " , baz" + ")", 12, 9, 0) == []
  {
    BlankArgumentScan11();
  }

  lemma BlankArgumentScan11()
    ensures A.SeparatorsFrom("(foo, " + " , baz" + ")", 12, 11, 0) == []
  {
  }


  lemma BlankArgumentInner()
    ensures A.InnerArgument("(foo,  , baz)", A.Segment(0, 12, 4, 7)) == B.Range(5, 7)
  {
    var t := "(foo,  , baz)";
    assert t[5] == ' ' && t[6] == ' ';
  }

  /** `cia` on a line of its own leaves the blank after the comma on the line before. */
  lemma TrailingBlankAfterComma(st: State)
    requires st == Start(["(", "   foo, ", "   bar,", "   baz", ")"], 2, 4)
    ensures Case(st, "cia", ["(", "   foo, ", "   ,", "   baz", ")"], 2, 3, Insert)
  {
    TrailingBlankAfterCommaStart();
    TrailingBlankAfterCommaObject();
    TrailingBlankAfterCommaLeft();
    TextCase(st, ["(", "   foo, ", "   bar,", "   baz", ")"], 2, 4, "cia", ChangeText, 1, false, 'a', "(\n   foo, \n   bar,\n   baz\n)", 15, 14, 17, ["(", "   foo, ", "   ,", "   baz", ")"], "(\n   foo, \n   ,\n   baz\n)", 2, 3, 3);
  }

  lemma TrailingBlankAfterCommaLeft()
    ensures TextLeft("(\n   foo, \n   bar,\n   baz\n)", ChangeText, 14, 17, ["(", "   foo, ", "   ,", "   baz", ")"], "(\n   foo, \n   ,\n   baz\n)", 2, 3, 3)
  {
    TrailingBlankAfterCommaCut();
    TrailingBlankAfterCommaAfter();
  }

  lemma TrailingBlankAfterCommaCut()
    ensures "(\n   foo, \n   ,\n   baz\n)" == "(\n   foo, \n   bar,\n   baz\n)"[..14] + "(\n   foo, \n   bar,\n   baz\n)"[17..]
  {
  }

  lemma TrailingBlankAfterCommaAfter()
    ensures LinesBreakFree(["(", "   foo, ", "   ,", "   baz", ")"], 0) && Join(["(", "   foo, ", "   ,", "   baz", ")"]) == "(\n   foo, \n   ,\n   baz\n)" && Offset(["(", "   foo, ", "   ,", "   baz", ")"], Pos(2, 3)) == 14
  {
    TrailingBlankAfterCommaAfterJoin();
  }

  lemma TrailingBlankAfterCommaAfterJoin()
    ensures Join(["(", "   foo, ", "   ,", "   baz", ")"]) == "(\n   foo, \n   ,\n   baz\n)"
  {
    var ls := ["(", "   foo, ", "   ,", "   baz", ")"];
    assert ls[1..] == ["   foo, ", "   ,", "   baz", ")"];
    assert ls[1..][1..] == ["   ,", "   baz", ")"];
    assert ls[1..][1..][1..] == ["   baz", ")"];
    assert ls[1..][1..][1..][1..] == [")"];
  }

  lemma TrailingBlankAfterCommaStart()
    ensures TextStart(["(", "   foo, ", "   bar,", "   baz", ")"], 2, 4, "cia", ChangeText, 1, false, 'a', "(\n   foo, \n   bar,\n   baz\n)", 15)
  {
    TrailingBlankAfterCommaKeys();
    TrailingBlankAfterCommaBefore();
  }

  lemma TrailingBlankAfterCommaKeys()
    ensures ParseCommand("cia") == Some((Operate(ChangeText, 1, Object(false, 'a')), ""))
  {
  }

  lemma TrailingBlankAfterCommaBefore()
    ensures LinesBreakFree(["(", "   foo, ", "   bar,", "   baz", ")"], 0) && Join(["(", "   foo, ", "   bar,", "   baz", ")"]) == "(\n   foo, \n   bar,\n   baz\n)" && Offset(["(", "   foo, ", "   bar,", "   baz", ")"], Pos(2, 4)) == 15
  {
    TrailingBlankAfterCommaBeforeJoin();
  }

  lemma TrailingBlankAfterCommaBeforeJoin()
    ensures Join(["(", "   foo, ", "   bar,", "   baz", ")"]) == "(\n   foo, \n   bar,\n   baz\n)"
  {
    var ls := ["(", "   foo, ", "   bar,", "   baz", ")"];
    assert ls[1..] == ["   foo, ", "   bar,", "   baz", ")"];
    assert ls[1..][1..] == ["   bar,", "   baz", ")"];
    assert ls[1..][1..][1..] == ["   baz", ")"];
    assert ls[1..][1..][1..][1..] == [")"];
  }

  lemma TrailingBlankAfterCommaObject()
    ensures TextObject("(\n   foo, \n   bar,\n   baz\n)", 15, false, 'a', 1) == Some(B.Range(14, 17))
  {
    TrailingBlankAfterCommaArgument();
  }

  lemma TrailingBlankAfterCommaArgument()
    ensures A.ArgumentObject("(\n   foo, \n   bar,\n   baz\n)", 15, false) == Some(B.Range(14, 17))
  {
    TrailingBlankAfterCommaPair();
    TrailingBlankAfterCommaSegment();
    TrailingBlankAfterCommaInner();
  }

  lemma TrailingBlankAfterCommaPair()
    ensures A.ArgumentPair("(\n   foo, \n   bar,\n   baz\n)", 15) == Some((0, 26))
  {
    TrailingBlankAfterCommaOpen1();
    TrailingBlankAfterCommaClose1();
  }

  lemma TrailingBlankAfterCommaOpen1()
    ensures B.OpenBefore("(\n   foo, \n   bar,\n   baz\n)", B.Delims("([", ")]"), 15) == Some(0)
  {
    assert "(\n   foo, \n   bar,\n   baz\n)" == "(\n   f" + "oo, \n " + "  bar," + "\n   ba" + "z\n)";
    TrailingBlankAfterCommaOpen1At0();
  }

  lemma TrailingBlankAfterCommaOpen1At0()
    ensures B.FindOpen("(\n   f" + "oo, \n " + "  bar," + "\n   ba" + "z\n)", B.Delims("([", ")]"), 15, 0) == Some(0)
  {
    TrailingBlankAfterCommaOpen1At1();
  }

  lemma TrailingBlankAfterCommaOpen1At1()
    ensures B.FindOpen("(\n   f" + "oo, \n " + "  bar," + "\n   ba" + "z\n)", B.Delims("([", ")]"), 13, 0) == Some(0)
  {
    TrailingBlankAfterCommaOpen1At2();
  }

  lemma TrailingBlankAfterCommaOpen1At2()
    ensures B.FindOpen("(\n   f" + "oo, \n " + "  bar," + "\n   ba" + "z\n)", B.Delims("([", ")]"), 11, 0) == Some(0)
  {
    TrailingBlankAfterCommaOpen1At3();
  }

  lemma TrailingBlankAfterCommaOpen1At3()
    ensures B.FindOpen("(\n   f" + "oo, \n " + "  bar," + "\n   ba" + "z\n)", B.Delims("([", ")]"), 9, 0) == Some(0)
  {
    TrailingBlankAfterCommaOpen1At4();
  }

  lemma TrailingBlankAfterCommaOpen1At4()
    ensures B.FindOpen("(\n   f" + "oo, \n " + "  bar," + "\n   ba" + "z\n)", B.Delims("([", ")]"), 7, 0) == Some(0)
  {
    TrailingBlankAfterCommaOpen1At5();
  }

  lemma TrailingBlankAfterCommaOpen1At5()
    ensures B.FindOpen("(\n   f" + "oo, \n " + "  bar," + "\n   ba" + "z\n)", B.Delims("([", ")]"), 5, 0) == Some(0)
  {
    TrailingBlankAfterCommaOpen1At6();
  }

  lemma TrailingBlankAfterCommaOpen1At6()
    ensures B.FindOpen("(\n   f" + "oo, \n " + "  bar," + "\n   ba" + "z\n)", B.Delims("([", ")]"), 3, 0) == Some(0)
  {
    TrailingBlankAfterCommaOpen1At7();
  }

  lemma TrailingBlankAfterCommaOpen1At7()
    ensures B.FindOpen("(\n   f" + "oo, \n " + "  bar," + "\n   ba" + "z\n)", B.Delims("([", ")]"), 1, 0) == Some(0)
  {
  }

  lemma TrailingBlankAfterCommaClose1()
    ensures B.CloseFrom("(\n   foo, \n   bar,\n   baz\n)", B.Delims("([", ")]"), 15) == Some(26)
  {
    assert "(\n   foo, \n   bar,\n   baz\n)" == "(\n   f" + "oo, \n " + "  bar," + "\n   ba" + "z\n)";
    TrailingBlankAfterCommaClose1At0();
  }

  lemma TrailingBlankAfterCommaClose1At0()
    ensures B.FindClose("(\n   f" + "oo, \n " + "  bar," + "\n   ba" + "z\n)", B.Delims("([", ")]"), 15, 0) == Some(26)
  {
    TrailingBlankAfterCommaClose1At1();
  }

  lemma TrailingBlankAfterCommaClose1At1()
    ensures B.FindClose("(\n   f" + "oo, \n " + "  bar," + "\n   ba" + "z\n)", B.Delims("([", ")]"), 17, 0) == Some(26)
  {
    TrailingBlankAfterCommaClose1At2();
  }

  lemma TrailingBlankAfterCommaClose1At2()
    ensures B.FindClose("(\n   f" + "oo, \n " + "  bar," + "\n   ba" + "z\n)", B.Delims("([", ")]"), 19, 0) == Some(26)
  {
    TrailingBlankAfterCommaClose1At3();
  }

  lemma TrailingBlankAfterCommaClose1At3()
    ensures B.FindClose("(\n   f" + "oo, \n " + "  bar," + "\n   ba" + "z\n)", B.Delims("([", ")]"), 21, 0) == Some(26)
  {
    TrailingBlankAfterCommaClose1At4();
  }

  lemma TrailingBlankAfterCommaClose1At4()
    ensures B.FindClose("(\n   f" + "oo, \n " + "  bar," + "\n   ba" + "z\n)", B.Delims("([", ")]"), 23, 0) == Some(26)
  {
    TrailingBlankAfterCommaClose1At5();
  }

  lemma TrailingBlankAfterCommaClose1At5()
    ensures B.FindClose("(\n   f" + "oo, \n " + "  bar," + "\n   ba" + "z\n)", B.Delims("([", ")]"), 25, 0) == Some(26)
  {
    TrailingBlankAfterCommaClose1At6();
  }

  lemma TrailingBlankAfterCommaClose1At6()
    ensures B.FindClose("(\n   f" + "oo, \n " + "  bar," + "\n   ba" + "z\n)", B.Delims("([", ")]"), 26, 0) == Some(26)
  {
  }

  lemma TrailingBlankAfterCommaSegment()
    ensures A.SegmentAt("(\n   foo, \n   bar,\n   baz\n)", 0, 26, 15) == A.Segment(0, 26, 8, 17)
  {
    TrailingBlankAfterCommaSeparators();
    assert A.LastUpTo([8], 15, 0) == 8;
    assert A.LastUpTo([8, 17], 15, 0) == 8;
    assert A.FirstAfter([17], 15, 26) == 17;
    assert A.FirstAfter([8, 17], 15, 26) == 17;
  }

  lemma TrailingBlankAfterCommaSeparators()
    ensures A.Separators("(\n   foo, \n   bar,\n   baz\n)", 0, 26) == [8, 17]
  {
    assert "(\n   foo, \n   bar,\n   baz\n)" == "(\n   f" + "oo, \n " + "  bar," + "\n   ba" + "z\n)";
    TrailingBlankAfterCommaScan1();
  }

  lemma TrailingBlankAfterCommaScan1()
    ensures A.SeparatorsFrom("(\n   f" + "oo, \n " + "  bar," + "\n   ba" + "z\n)", 26, 1, 0) == [8, 17]
  {
    TrailingBlankAfterCommaScan3();
  }

  lemma TrailingBlankAfterCommaScan3()
    ensures A.SeparatorsFrom("(\n   f" + "oo, \n " + "  bar," + "\n   ba" + "z\n)", 26, 3, 0) == [8, 17]
  {
    TrailingBlankAfterCommaScan5();
  }

  lemma TrailingBlankAfterCommaScan5()
    ensures A.SeparatorsFrom("(\n   f" + "oo, \n " + "  bar," + "\n   ba" + "z\n)", 26, 5, 0) == [8, 17]
  {
    TrailingBlankAfterCommaScan7();
  }

  lemma TrailingBlankAfterCommaScan7()
    ensures A.SeparatorsFrom("(\n   f" + "oo, \n " + "  bar," + "\n   ba" + "z\n)", 26, 7, 0) == [8, 17]
  {
    TrailingBlankAfterCommaScan9();
  }

  lemma TrailingBlankAfterCommaScan9()
    ensures A.SeparatorsFrom("(\n   f" + "oo, \n " + "  bar," + "\n   ba" + "z\n)", 26, 9, 0) == [17]
  {
    TrailingBlankAfterCommaScan11();
  }

  lemma TrailingBlankAfterCommaScan11()
    ensures A.SeparatorsFrom("(\n   f" + "oo, \n " + "  bar," + "\n   ba" + "z\n)", 26, 11, 0) == [17]
  {
    TrailingBlankAfterCommaScan13();
  }

  lemma TrailingBlankAfterCommaScan13()
    ensures A.SeparatorsFrom("(\n   f" + "oo, \n " + "  bar," + "\n   ba" + "z\n)", 26, 13, 0) == [17]
  {
    TrailingBlankAfterCommaScan15();
  }

  lemma TrailingBlankAfterCommaScan15()
    ensures A.SeparatorsFrom("(\n   f" + "oo, \n " + "  bar," + "\n   ba" + "z\n)", 26, 15, 0) == [17]
  {
    TrailingBlankAfterCommaScan17();
  }

  lemma TrailingBlankAfterCommaScan17()
    ensures A.SeparatorsFrom("(\n   f" + "oo, \n " + "  bar," + "\n   ba" + "z\n)", 26, 17, 0) == [17]
  {
    TrailingBlankAfterCommaScan19();
  }

  lemma TrailingBlankAfterCommaScan19()
    ensures A.SeparatorsFrom("(\n   f" + "oo, \n " + "  bar," + "\n   ba" + "z\n)", 26, 19, 0) == []
  {
    TrailingBlankAfterCommaScan21();
  }

  lemma TrailingBlankAfterCommaScan21()
    ensures A.SeparatorsFrom("(\n   f" + "oo, \n " + "  bar," + "\n   ba" + "z\n)", 26, 21, 0) == []
  {
    TrailingBlankAfterCommaScan23();
  }

  lemma TrailingBlankAfterCommaScan23()
    ensures A.SeparatorsFrom("(\n   f" + "oo, \n " + "  bar," + "\n   ba" + "z\n)", 26, 23, 0) == []
  {
    TrailingBlankAfterCommaScan25();
  }

  lemma TrailingBlankAfterCommaScan25()
    ensures A.SeparatorsFrom("(\n   f" + "oo, \n " + "  bar," + "\n   ba" + "z\n)", 26, 25, 0) == []
  {
  }


  lemma TrailingBlankAfterCommaInner()
    ensures A.InnerArgument("(\n   foo, \n   bar,\n   baz\n)", A.Segment(0, 26, 8, 17)) == B.Range(14, 17)
  {
    var t := "(\n   foo, \n   bar,\n   baz\n)";
    assert t[9] == ' ' && t[10] == '\n' && t[11] == ' ' && t[12] == ' ';
    assert t[13] == ' ' && t[14] == 'b' && t[15] == 'a' && t[16] == 'r';
  }

  /** `cia` in the middle argument of a list over several lines. */
  lemma MiddleOfLines(st: State)
    requires st == Start(["(", "   foo,", "   bar,", "   baz", ")"], 2, 4)
    ensures Case(st, "cia", ["(", "   foo,", "   ,", "   baz", ")"], 2, 3, Insert)
  {
    MiddleOfLinesStart();
    MiddleOfLinesObject();
    MiddleOfLinesLeft();
    TextCase(st, ["(", "   foo,", "   bar,", "   baz", ")"], 2, 4, "cia", ChangeText, 1, false, 'a', "(\n   foo,\n   bar,\n   baz\n)", 14, 13, 16, ["(", "   foo,", "   ,", "   baz", ")"], "(\n   foo,\n   ,\n   baz\n)", 2, 3, 3);
  }

  lemma MiddleOfLinesLeft()
    ensures TextLeft("(\n   foo,\n   bar,\n   baz\n)", ChangeText, 13, 16, ["(", "   foo,", "   ,", "   baz", ")"], "(\n   foo,\n   ,\n   baz\n)", 2, 3, 3)
  {
    MiddleOfLinesCut();
    MiddleOfLinesAfter();
  }

  lemma MiddleOfLinesCut()
    ensures "(\n   foo,\n   ,\n   baz\n)" == "(\n   foo,\n   bar,\n   baz\n)"[..13] + "(\n   foo,\n   bar,\n   baz\n)"[16..]
  {
  }

  lemma MiddleOfLinesAfter()
    ensures LinesBreakFree(["(", "   foo,", "   ,", "   baz", ")"], 0) && Join(["(", "   foo,", "   ,", "   baz", ")"]) == "(\n   foo,\n   ,\n   baz\n)" && Offset(["(", "   foo,", "   ,", "   baz", ")"], Pos(2, 3)) == 13
  {
    MiddleOfLinesAfterJoin();
  }

  lemma MiddleOfLinesAfterJoin()
    ensures Join(["(", "   foo,", "   ,", "   baz", ")"]) == "(\n   foo,\n   ,\n   baz\n)"
  {
    var ls := ["(", "   foo,", "   ,", "   baz", ")"];
    assert ls[1..] == ["   foo,", "   ,", "   baz", ")"];
    assert ls[1..][1..] == ["   ,", "   baz", ")"];
    assert ls[1..][1..][1..] == ["   baz", ")"];
    assert ls[1..][1..][1..][1..] == [")"];
  }

  lemma MiddleOfLinesStart()
    ensures TextStart(["(", "   foo,", "   bar,", "   baz", ")"], 2, 4, "cia", ChangeText, 1, false, 'a', "(\n   foo,\n   bar,\n   baz\n)", 14)
  {
    MiddleOfLinesKeys();
    MiddleOfLinesBefore();
  }

  lemma MiddleOfLinesKeys()
    ensures ParseCommand("cia") == Some((Operate(ChangeText, 1, Object(false, 'a')), ""))
  {
  }

  lemma MiddleOfLinesBefore()
    ensures LinesBreakFree(["(", "   foo,", "   bar,", "   baz", ")"], 0) && Join(["(", "   foo,", "   bar,", "   baz", ")"]) == "(\n   foo,\n   bar,\n   baz\n)" && Offset(["(", "   foo,", "   bar,", "   baz", ")"], Pos(2, 4)) == 14
  {
    MiddleOfLinesBeforeJoin();
  }

  lemma MiddleOfLinesBeforeJoin()
    ensures Join(["(", "   foo,", "   bar,", "   baz", ")"]) == "(\n   foo,\n   bar,\n   baz\n)"
  {
    var ls := ["(", "   foo,", "   bar,", "   baz", ")"];
    assert ls[1..] == ["   foo,", "   bar,", "   baz", ")"];
    assert ls[1..][1..] == ["   bar,", "   baz", ")"];
    assert ls[1..][1..][1..] == ["   baz", ")"];
    assert ls[1..][1..][1..][1..] == [")"];
  }

  lemma MiddleOfLinesObject()
    ensures TextObject("(\n   foo,\n   bar,\n   baz\n)", 14, false, 'a', 1) == Some(B.Range(13, 16))
  {
    MiddleOfLinesArgument();
  }

  lemma MiddleOfLinesArgument()
    ensures A.ArgumentObject("(\n   foo,\n   bar,\n   baz\n)", 14, false) == Some(B.Range(13, 16))
  {
    MiddleOfLinesPair();
    MiddleOfLinesSegment();
    MiddleOfLinesInner();
  }

  lemma MiddleOfLinesPair()
    ensures A.ArgumentPair("(\n   foo,\n   bar,\n   baz\n)", 14) == Some((0, 25))
  {
    MiddleOfLinesOpen1();
    MiddleOfLinesClose1();
  }

  lemma MiddleOfLinesOpen1()
    ensures B.OpenBefore("(\n   foo,\n   bar,\n   baz\n)", B.Delims("([", ")]"), 14) == Some(0)
  {
    assert "(\n   foo,\n   bar,\n   baz\n)" == "(\n   f" + "oo,\n  " + " bar,\n" + "   baz" + "\n)";
    MiddleOfLinesOpen1At0();
  }

  lemma MiddleOfLinesOpen1At0()
    ensures B.FindOpen("(\n   f" + "oo,\n  " + " bar,\n" + "   baz" + "\n)", B.Delims("([", ")]"), 14, 0) == Some(0)
  {
    MiddleOfLinesOpen1At1();
  }

  lemma MiddleOfLinesOpen1At1()
    ensures B.FindOpen("(\n   f" + "oo,\n  " + " bar,\n" + "   baz" + "\n)", B.Delims("([", ")]"), 12, 0) == Some(0)
  {
    MiddleOfLinesOpen1At2();
  }

  lemma MiddleOfLinesOpen1At2()
    ensures B.FindOpen("(\n   f" + "oo,\n  " + " bar,\n" + "   baz" + "\n)", B.Delims("([", ")]"), 10, 0) == Some(0)
  {
    MiddleOfLinesOpen1At3();
  }

  lemma MiddleOfLinesOpen1At3()
    ensures B.FindOpen("(\n   f" + "oo,\n  " + " bar,\n" + "   baz" + "\n)", B.Delims("([", ")]"), 8, 0) == Some(0)
  {
    MiddleOfLinesOpen1At4();
  }

  lemma MiddleOfLinesOpen1At4()
    ensures B.FindOpen("(\n   f" + "oo,\n  " + " bar,\n" + "   baz" + "\n)", B.Delims("([", ")]"), 6, 0) == Some(0)
  {
    MiddleOfLinesOpen1At5();
  }

  lemma MiddleOfLinesOpen1At5()
    ensures B.FindOpen("(\n   f" + "oo,\n  " + " bar,\n" + "   baz" + "\n)", B.Delims("([", ")]"), 4, 0) == Some(0)
  {
    MiddleOfLinesOpen1At6();
  }

  lemma MiddleOfLinesOpen1At6()
    ensures B.FindOpen("(\n   f" + "oo,\n  " + " bar,\n" + "   baz" + "\n)", B.Delims("([", ")]"), 2, 0) == Some(0)
  {
    MiddleOfLinesOpen1At7();
  }

  lemma MiddleOfLinesOpen1At7()
    ensures B.FindOpen("(\n   f" + "oo,\n  " + " bar,\n" + "   baz" + "\n)", B.Delims("([", ")]"), 1, 0) == Some(0)
  {
  }

  lemma MiddleOfLinesClose1()
    ensures B.CloseFrom("(\n   foo,\n   bar,\n   baz\n)", B.Delims("([", ")]"), 14) == Some(25)
  {
    assert "(\n   foo,\n   bar,\n   baz\n)" == "(\n   f" + "oo,\n  " + " bar,\n" + "   baz" + "\n)";
    MiddleOfLinesClose1At0();
  }

  lemma MiddleOfLinesClose1At0()
    ensures B.FindClose("(\n   f" + "oo,\n  " + " bar,\n" + "   baz" + "\n)", B.Delims("([", ")]"), 14, 0) == Some(25)
  {
    MiddleOfLinesClose1At1();
  }

  lemma MiddleOfLinesClose1At1()
    ensures B.FindClose("(\n   f" + "oo,\n  " + " bar,\n" + "   baz" + "\n)", B.Delims("([", ")]"), 16, 0) == Some(25)
  {
    MiddleOfLinesClose1At2();
  }

  lemma MiddleOfLinesClose1At2()
    ensures B.FindClose("(\n   f" + "oo,\n  " + " bar,\n" + "   baz" + "\n)", B.Delims("([", ")]"), 18, 0) == Some(25)
  {
    MiddleOfLinesClose1At3();
  }

  lemma MiddleOfLinesClose1At3()
    ensures B.FindClose("(\n   f" + "oo,\n  " + " bar,\n" + "   baz" + "\n)", B.Delims("([", ")]"), 20, 0) == Some(25)
  {
    MiddleOfLinesClose1At4();
  }

  lemma MiddleOfLinesClose1At4()
    ensures B.FindClose("(\n   f" + "oo,\n  " + " bar,\n" + "   baz" + "\n)", B.Delims("([", ")]"), 22, 0) == Some(25)
  {
    MiddleOfLinesClose1At5();
  }

  lemma MiddleOfLinesClose1At5()
    ensures B.FindClose("(\n   f" + "oo,\n  " + " bar,\n" + "   baz" + "\n)", B.Delims("([", ")]"), 24, 0) == Some(25)
  {
    MiddleOfLinesClose1At6();
  }

  lemma MiddleOfLinesClose1At6()
    ensures B.FindClose("(\n   f" + "oo,\n  " + " bar,\n" + "   baz" + "\n)", B.Delims("([", ")]"), 25, 0) == Some(25)
  {
  }

  lemma MiddleOfLinesSegment()
    ensures A.SegmentAt("(\n   foo,\n   bar,\n   baz\n)", 0, 25, 14) == A.Segment(0, 25, 8, 16)
  {
    MiddleOfLinesSeparators();
    assert A.LastUpTo([8], 14, 0) == 8;
    assert A.LastUpTo([8, 16], 14, 0) == 8;
    assert A.FirstAfter([16], 14, 25) == 16;
    assert A.FirstAfter([8, 16], 14, 25) == 16;
  }

  lemma MiddleOfLinesSeparators()
    ensures A.Separators("(\n   foo,\n   bar,\n   baz\n)", 0, 25) == [8, 16]
  {
    assert "(\n   foo,\n   bar,\n   baz\n)" == "(\n   f" + "oo,\n  " + " bar,\n" + "   baz" + "\n)";
    MiddleOfLinesScan1();
  }

  lemma MiddleOfLinesScan1()
    ensures A.SeparatorsFrom("(\n   f" + "oo,\n  " + " bar,\n" + "   baz" + "\n)", 25, 1, 0) == [8, 16]
  {
    MiddleOfLinesScan3();
  }

  lemma MiddleOfLinesScan3()
    ensures A.SeparatorsFrom("(\n   f" + "oo,\n  " + " bar,\n" + "   baz" + "\n)", 25, 3, 0) == [8, 16]
  {
    MiddleOfLinesScan5();
  }

  lemma MiddleOfLinesScan5()
    ensures A.SeparatorsFrom("(\n   f" + "oo,\n  " + " bar,\n" + "   baz" + "\n)", 25, 5, 0) == [8, 16]
  {
    MiddleOfLinesScan7();
  }

  lemma MiddleOfLinesScan7()
    ensures A.SeparatorsFrom("(\n   f" + "oo,\n  " + " bar,\n" + "   baz" + "\n)", 25, 7, 0) == [8, 16]
  {
    MiddleOfLinesScan9();
  }

  lemma MiddleOfLinesScan9()
    ensures A.SeparatorsFrom("(\n   f" + "oo,\n  " + " bar,\n" + "   baz" + "\n)", 25, 9, 0) == [16]
  {
    MiddleOfLinesScan11();
  }

  lemma MiddleOfLinesScan11()
    ensures A.SeparatorsFrom("(\n   f" + "oo,\n  " + " bar,\n" + "   baz" + "\n)", 25, 11, 0) == [16]
  {
    MiddleOfLinesScan13();
  }

  lemma MiddleOfLinesScan13()
    ensures A.SeparatorsFrom("(\n   f" + "oo,\n  " + " bar,\n" + "   baz" + "\n)", 25, 13, 0) == [16]
  {
    MiddleOfLinesScan15();
  }

  lemma MiddleOfLinesScan15()
    ensures A.SeparatorsFrom("(\n   f" + "oo,\n  " + " bar,\n" + "   baz" + "\n)", 25, 15, 0) == [16]
  {
    MiddleOfLinesScan17();
  }

  lemma MiddleOfLinesScan17()
    ensures A.SeparatorsFrom("(\n   f" + "oo,\n  " + " bar,\n" + "   baz" + "\n)", 25, 17, 0) == []
  {
    MiddleOfLinesScan19();
  }

  lemma MiddleOfLinesScan19()
    ensures A.SeparatorsFrom("(\n   f" + "oo,\n  " + " bar,\n" + "   baz" + "\n)", 25, 19, 0) == []
  {
    MiddleOfLinesScan21();
  }

  lemma MiddleOfLinesScan21()
    ensures A.SeparatorsFrom("(\n   f" + "oo,\n  " + " bar,\n" + "   baz" + "\n)", 25, 21, 0) == []
  {
    MiddleOfLinesScan23();
  }

  lemma MiddleOfLinesScan23()
    ensures A.SeparatorsFrom("(\n   f" + "oo,\n  " + " bar,\n" + "   baz" + "\n)", 25, 23, 0) == []
  {
  }


  lemma MiddleOfLinesInner()
    ensures A.InnerArgument("(\n   foo,\n   bar,\n   baz\n)", A.Segment(0, 25, 8, 16)) == B.Range(13, 16)
  {
    var t := "(\n   foo,\n   bar,\n   baz\n)";
    assert t[9] == '\n' && t[10] == ' ' && t[11] == ' ' && t[12] == ' ';
    assert t[13] == 'b' && t[14] == 'a' && t[15] == 'r';
  }

  /** `daa` in the only argument empties the parentheses. */
  lemma DeleteSingle(st: State)
    requires st == Start(["(foo)"], 0, 2)
    ensures Case(st, "daa", ["()"], 0, 1, Normal)
  {
    DeleteSingleStart();
    DeleteSingleObject();
    DeleteSingleLeft();
    TextCase(st, ["(foo)"], 0, 2, "daa", Delete, 1, true, 'a', "(foo)", 2, 1, 4, ["()"], "()", 0, 1, 1);
  }

  lemma DeleteSingleLeft()
    ensures TextLeft("(foo)", Delete, 1, 4, ["()"], "()", 0, 1, 1)
  {
    DeleteSingleCut();
    DeleteSingleAfter();
  }

  lemma DeleteSingleCut()
    ensures "()" == "(foo)"[..1] + "(foo)"[4..]
  {
  }

  lemma DeleteSingleAfter()
    ensures LinesBreakFree(["()"], 0) && Join(["()"]) == "()" && Offset(["()"], Pos(0, 1)) == 1
    ensures NormalCol("()", 1) == 1
  {
    DeleteSingleAfterJoin();
  }

  lemma DeleteSingleAfterJoin()
    ensures Join(["()"]) == "()"
  {
  }

  lemma DeleteSingleStart()
    ensures TextStart(["(foo)"], 0, 2, "daa", Delete, 1, true, 'a', "(foo)", 2)
  {
    DeleteSingleKeys();
    DeleteSingleBefore();
  }

  lemma DeleteSingleKeys()
    ensures ParseCommand("daa") == Some((Operate(Delete, 1, Object(true, 'a')), ""))
  {
  }

  lemma DeleteSingleBefore()
    ensures LinesBreakFree(["(foo)"], 0) && Join(["(foo)"]) == "(foo)" && Offset(["(foo)"], Pos(0, 2)) == 2
  {
    DeleteSingleBeforeJoin();
  }

  lemma DeleteSingleBeforeJoin()
    ensures Join(["(foo)"]) == "(foo)"
  {
  }

  lemma DeleteSingleObject()
    ensures TextObject("(foo)", 2, true, 'a', 1) == Some(B.Range(1, 4))
  {
    DeleteSingleArgument();
  }

  lemma DeleteSingleArgument()
    ensures A.ArgumentObject("(foo)", 2, true) == Some(B.Range(1, 4))
  {
    DeleteSinglePair();
    DeleteSingleSegment();
    DeleteSingleAround();
  }

  lemma DeleteSinglePair()
    ensures A.ArgumentPair("(foo)", 2) == Some((0, 4))
  {
    DeleteSingleOpen1();
    DeleteSingleClose1();
  }

  lemma DeleteSingleOpen1()
    ensures B.OpenBefore("(foo)", B.Delims("([", ")]"), 2) == Some(0)
  {
    assert "(foo)" == "(foo)";
    DeleteSingleOpen1At0();
  }

  lemma DeleteSingleOpen1At0()
    ensures B.FindOpen("(foo)", B.Delims("([", ")]"), 2, 0) == Some(0)
  {
    DeleteSingleOpen1At1();
  }

  lemma DeleteSingleOpen1At1()
    ensures B.FindOpen("(foo)", B.Delims("([", ")]"), 1, 0) == Some(0)
  {
  }

  lemma DeleteSingleClose1()
    ensures B.CloseFrom("(foo)", B.Delims("([", ")]"), 2) == Some(4)
  {
    assert "(foo)" == "(foo)";
    DeleteSingleClose1At0();
  }

  lemma DeleteSingleClose1At0()
    ensures B.FindClose("(foo)", B.Delims("([", ")]"), 2, 0) == Some(4)
  {
    DeleteSingleClose1At1();
  }

  lemma DeleteSingleClose1At1()
    ensures B.FindClose("(foo)", B.Delims("([", ")]"), 4, 0) == Some(4)
  {
  }

  lemma DeleteSingleSegment()
    ensures A.SegmentAt("(foo)", 0, 4, 2) == A.Segment(0, 4, 0, 4)
  {
    DeleteSingleSeparators();
  }

  lemma DeleteSingleSeparators()
    ensures A.Separators("(foo)", 0, 4) == []
  {
    assert "(foo)" == "(foo)";
    DeleteSingleScan1();
  }

  lemma DeleteSingleScan1()
    ensures A.SeparatorsFrom("(foo)", 4, 1, 0) == []
  {
    DeleteSingleScan3();
  }

  lemma DeleteSingleScan3()
    ensures A.SeparatorsFrom("(foo)", 4, 3, 0) == []
  {
  }


  lemma DeleteSingleAround()
    ensures A.AroundArgument("(foo)", A.Segment(0, 4, 0, 4)) == Some(B.Range(1, 4))
  {
    var t := "(foo)";
    assert t[1] == 'f' && t[2] == 'o' && t[3] == 'o';
  }

  /** `daa` in `()` finds nothing. */
  lemma DeleteEmpty(st: State)
    requires st == Start(["()"], 0, 1)
    ensures Case(st, "daa", ["()"], 0, 1, Normal)
  {
    DeleteEmptyObject();
    DeleteEmptyStart();
    NoTextObjectCase(st, ["()"], 0, 1, "daa", Delete, 1, true, 'a', "()", 1);
  }

  lemma DeleteEmptyStart()
    ensures TextStart(["()"], 0, 1, "daa", Delete, 1, true, 'a', "()", 1)
  {
    DeleteEmptyKeys();
    DeleteEmptyBefore();
  }

  lemma DeleteEmptyKeys()
    ensures ParseCommand("daa") == Some((Operate(Delete, 1, Object(true, 'a')), ""))
  {
  }

  lemma DeleteEmptyBefore()
    ensures LinesBreakFree(["()"], 0) && Join(["()"]) == "()" && Offset(["()"], Pos(0, 1)) == 1
  {
    DeleteEmptyBeforeJoin();
  }

  lemma DeleteEmptyBeforeJoin()
    ensures Join(["()"]) == "()"
  {
  }

  lemma DeleteEmptyObject()
    ensures TextObject("()", 1, true, 'a', 1) == None
  {
    DeleteEmptyArgument();
  }

  lemma DeleteEmptyArgument()
    ensures A.ArgumentObject("()", 1, true) == None
  {
    DeleteEmptyPair();
    DeleteEmptySegment();
    DeleteEmptyAround();
  }

  lemma DeleteEmptyPair()
    ensures A.ArgumentPair("()", 1) == Some((0, 1))
  {
    DeleteEmptyOpen1();
  }

  lemma DeleteEmptyOpen1()
    ensures B.OpenBefore("()", B.Delims("([", ")]"), 1) == Some(0)
  {
    assert "()" == "()";
    DeleteEmptyOpen1At0();
  }

  lemma DeleteEmptyOpen1At0()
    ensures B.FindOpen("()", B.Delims("([", ")]"), 1, 0) == Some(0)
  {
  }

  lemma DeleteEmptySegment()
    ensures A.SegmentAt("()", 0, 1, 1) == A.Segment(0, 1, 0, 1)
  {
    DeleteEmptySeparators();
  }

  lemma DeleteEmptySeparators()
    ensures A.Separators("()", 0, 1) == []
  {
  }


  lemma DeleteEmptyAround()
    ensures A.AroundArgument("()", A.Segment(0, 1, 0, 1)) == None
  {
  }

  /** `daa` in the first argument takes the comma and blank after it. */
  lemma DeleteFirstOfThree(st: State)
    requires st == Start(["(foo, bar, baz)"], 0, 2)
    ensures Case(st, "daa", ["(bar, baz)"], 0, 1, Normal)
  {
    DeleteFirstOfThreeStart();
    DeleteFirstOfThreeObject();
    DeleteFirstOfThreeLeft();
    TextCase(st, ["(foo, bar, baz)"], 0, 2, "daa", Delete, 1, true, 'a', "(foo, bar, baz)", 2, 1, 6, ["(bar, baz)"], "(bar, baz)", 0, 1, 1);
  }

  lemma DeleteFirstOfThreeLeft()
    ensures TextLeft("(foo, bar, baz)", Delete, 1, 6, ["(bar, baz)"], "(bar, baz)", 0, 1, 1)
  {
    DeleteFirstOfThreeCut();
    DeleteFirstOfThreeAfter();
  }

  lemma DeleteFirstOfThreeCut()
    ensures "(bar, baz)" == "(foo, bar, baz)"[..1] + "(foo, bar, baz)"[6..]
  {
  }

  lemma DeleteFirstOfThreeAfter()
    ensures LinesBreakFree(["(bar, baz)"], 0) && Join(["(bar, baz)"]) == "(bar, baz)" && Offset(["(bar, baz)"], Pos(0, 1)) == 1
    ensures NormalCol("(bar, baz)", 1) == 1
  {
    DeleteFirstOfThreeAfterJoin();
  }

  lemma DeleteFirstOfThreeAfterJoin()
    ensures Join(["(bar, baz)"]) == "(bar, baz)"
  {
  }

  lemma DeleteFirstOfThreeStart()
    ensures TextStart(["(foo, bar, baz)"], 0, 2, "daa", Delete, 1, true, 'a', "(foo, bar, baz)", 2)
  {
    DeleteFirstOfThreeKeys();
    DeleteFirstOfThreeBefore();
  }

  lemma DeleteFirstOfThreeKeys()
    ensures ParseCommand("daa") == Some((Operate(Delete, 1, Object(true, 'a')), ""))
  {
  }

  lemma DeleteFirstOfThreeBefore()
    ensures LinesBreakFree(["(foo, bar, baz)"], 0) && Join(["(foo, bar, baz)"]) == "(foo, bar, baz)" && Offset(["(foo, bar, baz)"], Pos(0, 2)) == 2
  {
    DeleteFirstOfThreeBeforeJoin();
  }

  lemma DeleteFirstOfThreeBeforeJoin()
    ensures Join(["(foo, bar, baz)"]) == "(foo, bar, baz)"
  {
  }

  lemma DeleteFirstOfThreeObject()
    ensures TextObject("(foo, bar, baz)", 2, true, 'a', 1) == Some(B.Range(1, 6))
  {
    DeleteFirstOfThreeArgument();
  }

  lemma DeleteFirstOfThreeArgument()
    ensures A.ArgumentObject("(foo, bar, baz)", 2, true) == Some(B.Range(1, 6))
  {
    DeleteFirstOfThreePair();
    DeleteFirstOfThreeSegment();
    DeleteFirstOfThreeAround();
  }

  lemma DeleteFirstOfThreePair()
    ensures A.ArgumentPair("(foo, bar, baz)", 2) == Some((0, 14))
  {
    DeleteFirstOfThreeOpen1();
    DeleteFirstOfThreeClose1();
  }

  lemma DeleteFirstOfThreeOpen1()
    ensures B.OpenBefore("(foo, bar, baz)", B.Delims("([", ")]"), 2) == Some(0)
  {
    assert "(foo, bar, baz)" == "(foo, " + "bar, b" + "az)";
    DeleteFirstOfThreeOpen1At0();
  }

  lemma DeleteFirstOfThreeOpen1At0()
    ensures B.FindOpen("(foo, " + "bar, b" + "az)", B.Delims("([", ")]"), 2, 0) == Some(0)
  {
    DeleteFirstOfThreeOpen1At1();
  }

  lemma DeleteFirstOfThreeOpen1At1()
    ensures B.FindOpen("(foo, " + "bar, b" + "az)", B.Delims("([", ")]"), 1, 0) == Some(0)
  {
  }

  lemma DeleteFirstOfThreeClose1()
    ensures B.CloseFrom("(foo, bar, baz)", B.Delims("([", ")]"), 2) == Some(14)
  {
    assert "(foo, bar, baz)" == "(foo, " + "bar, b" + "az)";
    DeleteFirstOfThreeClose1At0();
  }

  lemma DeleteFirstOfThreeClose1At0()
    ensures B.FindClose("(foo, " + "bar, b" + "az)", B.Delims("([", ")]"), 2, 0) == Some(14)
  {
    DeleteFirstOfThreeClose1At1();
  }

  lemma DeleteFirstOfThreeClose1At1()
    ensures B.FindClose("(foo, " + "bar, b" + "az)", B.Delims("([", ")]"), 4, 0) == Some(14)
  {
    DeleteFirstOfThreeClose1At2();
  }

  lemma DeleteFirstOfThreeClose1At2()
    ensures B.FindClose("(foo, " + "bar, b" + "az)", B.Delims("([", ")]"), 6, 0) == Some(14)
  {
    DeleteFirstOfThreeClose1At3();
  }

  lemma DeleteFirstOfThreeClose1At3()
    ensures B.FindClose("(foo, " + "bar, b" + "az)", B.Delims("([", ")]"), 8, 0) == Some(14)
  {
    DeleteFirstOfThreeClose1At4();
  }

  lemma DeleteFirstOfThreeClose1At4()
    ensures B.FindClose("(foo, " + "bar, b" + "az)", B.Delims("([", ")]"), 10, 0) == Some(14)
  {
    DeleteFirstOfThreeClose1At5();
  }

  lemma DeleteFirstOfThreeClose1At5()
    ensures B.FindClose("(foo, " + "bar, b" + "az)", B.Delims("([", ")]"), 12, 0) == Some(14)
  {
    DeleteFirstOfThreeClose1At6();
  }

  lemma DeleteFirstOfThreeClose1At6()
    ensures B.FindClose("(foo, " + "bar, b" + "az)", B.Delims("([", ")]"), 14, 0) == Some(14)
  {
  }

  lemma DeleteFirstOfThreeSegment()
    ensures A.SegmentAt("(foo, bar, baz)", 0, 14, 2) == A.Segment(0, 14, 0, 4)
  {
    DeleteFirstOfThreeSeparators();
    assert A.LastUpTo([4], 2, 0) == 0;
    assert A.LastUpTo([4, 9], 2, 0) == 0;
    assert A.FirstAfter([9], 2, 14) == 9;
    assert A.FirstAfter([4, 9], 2, 14) == 4;
  }

  lemma DeleteFirstOfThreeSeparators()
    ensures A.Separators("(foo, bar, baz)", 0, 14) == [4, 9]
  {
    assert "(foo, bar, baz)" == "(foo, " + "bar, b" + "az)";
    DeleteFirstOfThreeScan1();
  }

  lemma DeleteFirstOfThreeScan1()
    ensures A.SeparatorsFrom("(foo, " + "bar, b" + "az)", 14, 1, 0) == [4, 9]
  {
    DeleteFirstOfThreeScan3();
  }

  lemma DeleteFirstOfThreeScan3()
    ensures A.SeparatorsFrom("(foo, " + "bar, b" + "az)", 14, 3, 0) == [4, 9]
  {
    DeleteFirstOfThreeScan5();
  }

  lemma DeleteFirstOfThreeScan5()
    ensures A.SeparatorsFrom("(foo, " + "bar, b" + "az)", 14, 5, 0) == [9]
  {
    DeleteFirstOfThreeScan7();
  }

  lemma DeleteFirstOfThreeScan7()
    ensures A.SeparatorsFrom("(foo, " + "bar, b" + "az)", 14, 7, 0) == [9]
  {
    DeleteFirstOfThreeScan9();
  }

  lemma DeleteFirstOfThreeScan9()
    ensures A.SeparatorsFrom("(foo, " + "bar, b" + "az)", 14, 9, 0) == [9]
  {
    DeleteFirstOfThreeScan11();
  }

  lemma DeleteFirstOfThreeScan11()
    ensures A.SeparatorsFrom("(foo, " + "bar, b" + "az)", 14, 11, 0) == []
  {
    DeleteFirstOfThreeScan13();
  }

  lemma DeleteFirstOfThreeScan13()
    ensures A.SeparatorsFrom("(foo, " + "bar, b" + "az)", 14, 13, 0) == []
  {
  }


  lemma DeleteFirstOfThreeAround()
    ensures A.AroundArgument("(foo, bar, baz)", A.Segment(0, 14, 0, 4)) == Some(B.Range(1, 6))
  {
    var t := "(foo, bar, baz)";
    assert t[1] == 'f' && t[2] == 'o' && t[3] == 'o' && t[4] == ',';
    assert t[5] == ' ' && t[6] == 'b' && t[7] == 'a' && t[8] == 'r';
    assert t[9] == ',' && t[10] == ' ' && t[11] == 'b' && t[12] == 'a';
    assert t[13] == 'z';
  }

  /** `daa` in the middle argument takes the comma before it. */
  lemma DeleteMiddleOfThree(st: State)
    requires st == Start(["(foo, bar, baz)"], 0, 7)
    ensures Case(st, "daa", ["(foo, baz)"], 0, 4, Normal)
  {
    DeleteMiddleOfThreeStart();
    DeleteMiddleOfThreeObject();
    DeleteMiddleOfThreeLeft();
    TextCase(st, ["(foo, bar, baz)"], 0, 7, "daa", Delete, 1, true, 'a', "(foo, bar, baz)", 7, 4, 9, ["(foo, baz)"], "(foo, baz)", 0, 4, 4);
  }

  lemma DeleteMiddleOfThreeLeft()
    ensures TextLeft("(foo, bar, baz)", Delete, 4, 9, ["(foo, baz)"], "(foo, baz)", 0, 4, 4)
  {
    DeleteMiddleOfThreeCut();
    DeleteMiddleOfThreeAfter();
  }

  lemma DeleteMiddleOfThreeCut()
    ensures "(foo, baz)" == "(foo, bar, baz)"[..4] + "(foo, bar, baz)"[9..]
  {
  }

  lemma DeleteMiddleOfThreeAfter()
    ensures LinesBreakFree(["(foo, baz)"], 0) && Join(["(foo, baz)"]) == "(foo, baz)" && Offset(["(foo, baz)"], Pos(0, 4)) == 4
    ensures NormalCol("(foo, baz)", 4) == 4
  {
    DeleteMiddleOfThreeAfterJoin();
  }

  lemma DeleteMiddleOfThreeAfterJoin()
    ensures Join(["(foo, baz)"]) == "(foo, baz)"
  {
  }

  lemma DeleteMiddleOfThreeStart()
    ensures TextStart(["(foo, bar, baz)"], 0, 7, "daa", Delete, 1, true, 'a', "(foo, bar, baz)", 7)
  {
    DeleteMiddleOfThreeKeys();
    DeleteMiddleOfThreeBefore();
  }

  lemma DeleteMiddleOfThreeKeys()
    ensures ParseCommand("daa") == Some((Operate(Delete, 1, Object(true, 'a')), ""))
  {
  }

  lemma DeleteMiddleOfThreeBefore()
    ensures LinesBreakFree(["(foo, bar, baz)"], 0) && Join(["(foo, bar, baz)"]) == "(foo, bar, baz)" && Offset(["(foo, bar, baz)"], Pos(0, 7)) == 7
  {
    DeleteMiddleOfThreeBeforeJoin();
  }

  lemma DeleteMiddleOfThreeBeforeJoin()
    ensures Join(["(foo, bar, baz)"]) == "(foo, bar, baz)"
  {
  }

  lemma DeleteMiddleOfThreeObject()
    ensures TextObject("(foo, bar, baz)", 7, true, 'a', 1) == Some(B.Range(4, 9))
  {
    DeleteMiddleOfThreeArgument();
  }

  lemma DeleteMiddleOfThreeArgument()
    ensures A.ArgumentObject("(foo, bar, baz)", 7, true) == Some(B.Range(4, 9))
  {
    DeleteMiddleOfThreePair();
    DeleteMiddleOfThreeSegment();
    DeleteMiddleOfThreeAround();
  }

  lemma DeleteMiddleOfThreePair()
    ensures A.ArgumentPair("(foo, bar, baz)", 7) == Some((0, 14))
  {
    DeleteMiddleOfThreeOpen1();
    DeleteMiddleOfThreeClose1();
  }

  lemma DeleteMiddleOfThreeOpen1()
    ensures B.OpenBefore("(foo, bar, baz)", B.Delims("([", ")]"), 7) == Some(0)
  {
    assert "(foo, bar, baz)" == "(foo, " + "bar, b" + "az)";
    DeleteMiddleOfThreeOpen1At0();
  }

  lemma DeleteMiddleOfThreeOpen1At0()
    ensures B.FindOpen("(foo, " + "bar, b" + "az)", B.Delims("([", ")]"), 7, 0) == Some(0)
  {
    DeleteMiddleOfThreeOpen1At1();
  }

  lemma DeleteMiddleOfThreeOpen1At1()
    ensures B.FindOpen("(foo, " + "bar, b" + "az)", B.Delims("([", ")]"), 5, 0) == Some(0)
  {
    DeleteMiddleOfThreeOpen1At2();
  }

  lemma DeleteMiddleOfThreeOpen1At2()
    ensures B.FindOpen("(foo, " + "bar, b" + "az)", B.Delims("([", ")]"), 3, 0) == Some(0)
  {
    DeleteMiddleOfThreeOpen1At3();
  }

  lemma DeleteMiddleOfThreeOpen1At3()
    ensures B.FindOpen("(foo, " + "bar, b" + "az)", B.Delims("([", ")]"), 1, 0) == Some(0)
  {
  }

  lemma DeleteMiddleOfThreeClose1()
    ensures B.CloseFrom("(foo, bar, baz)", B.Delims("([", ")]"), 7) == Some(14)
  {
    assert "(foo, bar, baz)" == "(foo, " + "bar, b" + "az)";
    DeleteMiddleOfThreeClose1At0();
  }

  lemma DeleteMiddleOfThreeClose1At0()
    ensures B.FindClose("(foo, " + "bar, b" + "az)", B.Delims("([", ")]"), 7, 0) == Some(14)
  {
    DeleteMiddleOfThreeClose1At1();
  }

  lemma DeleteMiddleOfThreeClose1At1()
    ensures B.FindClose("(foo, " + "bar, b" + "az)", B.Delims("([", ")]"), 9, 0) == Some(14)
  {
    DeleteMiddleOfThreeClose1At2();
  }

  lemma DeleteMiddleOfThreeClose1At2()
    ensures B.FindClose("(foo, " + "bar, b" + "az)", B.Delims("([", ")]"), 11, 0) == Some(14)
  {
    DeleteMiddleOfThreeClose1At3();
  }

  lemma DeleteMiddleOfThreeClose1At3()
    ensures B.FindClose("(foo, " + "bar, b" + "az)", B.Delims("([", ")]"), 13, 0) == Some(14)
  {
    DeleteMiddleOfThreeClose1At4();
  }

  lemma DeleteMiddleOfThreeClose1At4()
    ensures B.FindClose("(foo, " + "bar, b" + "az)", B.Delims("([", ")]"), 14, 0) == Some(14)
  {
  }

  lemma DeleteMiddleOfThreeSegment()
    ensures A.SegmentAt("(foo, bar, baz)", 0, 14, 7) == A.Segment(0, 14, 4, 9)
  {
    DeleteMiddleOfThreeSeparators();
    assert A.LastUpTo([4], 7, 0) == 4;
    assert A.LastUpTo([4, 9], 7, 0) == 4;
    assert A.FirstAfter([9], 7, 14) == 9;
    assert A.FirstAfter([4, 9], 7, 14) == 9;
  }

  lemma DeleteMiddleOfThreeSeparators()
    ensures A.Separators("(foo, bar, baz)", 0, 14) == [4, 9]
  {
    assert "(foo, bar, baz)" == "(foo, " + "bar, b" + "az)";
    DeleteMiddleOfThreeScan1();
  }

  lemma DeleteMiddleOfThreeScan1()
    ensures A.SeparatorsFrom("(foo, " + "bar, b" + "az)", 14, 1, 0) == [4, 9]
  {
    DeleteMiddleOfThreeScan3();
  }

  lemma DeleteMiddleOfThreeScan3()
    ensures A.SeparatorsFrom("(foo, " + "bar, b" + "az)", 14, 3, 0) == [4, 9]
  {
    DeleteMiddleOfThreeScan5();
  }

  lemma DeleteMiddleOfThreeScan5()
    ensures A.SeparatorsFrom("(foo, " + "bar, b" + "az)", 14, 5, 0) == [9]
  {
    DeleteMiddleOfThreeScan7();
  }

  lemma DeleteMiddleOfThreeScan7()
    ensures A.SeparatorsFrom("(foo, " + "bar, b" + "az)", 14, 7, 0) == [9]
  {
    DeleteMiddleOfThreeScan9();
  }

  lemma DeleteMiddleOfThreeScan9()
    ensures A.SeparatorsFrom("(foo, " + "bar, b" + "az)", 14, 9, 0) == [9]
  {
    DeleteMiddleOfThreeScan11();
  }

  lemma DeleteMiddleOfThreeScan11()
    ensures A.SeparatorsFrom("(foo, " + "bar, b" + "az)", 14, 11, 0) == []
  {
    DeleteMiddleOfThreeScan13();
  }

  lemma DeleteMiddleOfThreeScan13()
    ensures A.SeparatorsFrom("(foo, " + "bar, b" + "az)", 14, 13, 0) == []
  {
  }


  lemma DeleteMiddleOfThreeAround()
    ensures A.AroundArgument("(foo, bar, baz)", A.Segment(0, 14, 4, 9)) == Some(B.Range(4, 9))
  {
    var t := "(foo, bar, baz)";
    assert t[5] == ' ' && t[6] == 'b' && t[7] == 'a' && t[8] == 'r';
    assert t[9] == ',' && t[10] == ' ' && t[11] == 'b' && t[12] == 'a';
    assert t[13] == 'z';
  }

  /** `daa` in the last argument takes the comma before it. */
  lemma DeleteLastOfThree(st: State)
    requires st == Start(["(foo, bar, baz)"], 0, 11)
    ensures Case(st, "daa", ["(foo, bar)"], 0, 9, Normal)
  {
    DeleteLastOfThreeStart();
    DeleteLastOfThreeObject();
    DeleteLastOfThreeLeft();
    TextCase(st, ["(foo, bar, baz)"], 0, 11, "daa", Delete, 1, true, 'a', "(foo, bar, baz)", 11, 9, 14, ["(foo, bar)"], "(foo, bar)", 0, 9, 9);
  }

  lemma DeleteLastOfThreeLeft()
    ensures TextLeft("(foo, bar, baz)", Delete, 9, 14, ["(foo, bar)"], "(foo, bar)", 0, 9, 9)
  {
    DeleteLastOfThreeCut();
    DeleteLastOfThreeAfter();
  }

  lemma DeleteLastOfThreeCut()
    ensures "(foo, bar)" == "(foo, bar, baz)"[..9] + "(foo, bar, baz)"[14..]
  {
  }

  lemma DeleteLastOfThreeAfter()
    ensures LinesBreakFree(["(foo, bar)"], 0) && Join(["(foo, bar)"]) == "(foo, bar)" && Offset(["(foo, bar)"], Pos(0, 9)) == 9
    ensures NormalCol("(foo, bar)", 9) == 9
  {
    DeleteLastOfThreeAfterJoin();
  }

  lemma DeleteLastOfThreeAfterJoin()
    ensures Join(["(foo, bar)"]) == "(foo, bar)"
  {
  }

  lemma DeleteLastOfThreeStart()
    ensures TextStart(["(foo, bar, baz)"], 0, 11, "daa", Delete, 1, true, 'a', "(foo, bar, baz)", 11)
  {
    DeleteLastOfThreeKeys();
    DeleteLastOfThreeBefore();
  }

  lemma DeleteLastOfThreeKeys()
    ensures ParseCommand("daa") == Some((Operate(Delete, 1, Object(true, 'a')), ""))
  {
  }

  lemma DeleteLastOfThreeBefore()
    ensures LinesBreakFree(["(foo, bar, baz)"], 0) && Join(["(foo, bar, baz)"]) == "(foo, bar, baz)" && Offset(["(foo, bar, baz)"], Pos(0, 11)) == 11
  {
    DeleteLastOfThreeBeforeJoin();
  }

  lemma DeleteLastOfThreeBeforeJoin()
    ensures Join(["(foo, bar, baz)"]) == "(foo, bar, baz)"
  {
  }

  lemma DeleteLastOfThreeObject()
    ensures TextObject("(foo, bar, baz)", 11, true, 'a', 1) == Some(B.Range(9, 14))
  {
    DeleteLastOfThreeArgument();
  }

  lemma DeleteLastOfThreeArgument()
    ensures A.ArgumentObject("(foo, bar, baz)", 11, true) == Some(B.Range(9, 14))
  {
    DeleteLastOfThreePair();
    DeleteLastOfThreeSegment();
    DeleteLastOfThreeAround();
  }

  lemma DeleteLastOfThreePair()
    ensures A.ArgumentPair("(foo, bar, baz)", 11) == Some((0, 14))
  {
    DeleteLastOfThreeOpen1();
    DeleteLastOfThreeClose1();
  }

  lemma DeleteLastOfThreeOpen1()
    ensures B.OpenBefore("(foo, bar, baz)", B.Delims("([", ")]"), 11) == Some(0)
  {
    assert "(foo, bar, baz)" == "(foo, " + "bar, b" + "az)";
    DeleteLastOfThreeOpen1At0();
  }

  lemma DeleteLastOfThreeOpen1At0()
    ensures B.FindOpen("(foo, " + "bar, b" + "az)", B.Delims("([", ")]"), 11, 0) == Some(0)
  {
    DeleteLastOfThreeOpen1At1();
  }

  lemma DeleteLastOfThreeOpen1At1()
    ensures B.FindOpen("(foo, " + "bar, b" + "az)", B.Delims("([", ")]"), 9, 0) == Some(0)
  {
    DeleteLastOfThreeOpen1At2();
  }

  lemma DeleteLastOfThreeOpen1At2()
    ensures B.FindOpen("(foo, " + "bar, b" + "az)", B.Delims("([", ")]"), 7, 0) == Some(0)
  {
    DeleteLastOfThreeOpen1At3();
  }

  lemma DeleteLastOfThreeOpen1At3()
    ensures B.FindOpen("(foo, " + "bar, b" + "az)", B.Delims("([", ")]"), 5, 0) == Some(0)
  {
    DeleteLastOfThreeOpen1At4();
  }

  lemma DeleteLastOfThreeOpen1At4()
    ensures B.FindOpen("(foo, " + "bar, b" + "az)", B.Delims("([", ")]"), 3, 0) == Some(0)
  {
    DeleteLastOfThreeOpen1At5();
  }

  lemma DeleteLastOfThreeOpen1At5()
    ensures B.FindOpen("(foo, " + "bar, b" + "az)", B.Delims("([", ")]"), 1, 0) == Some(0)
  {
  }

  lemma DeleteLastOfThreeClose1()
    ensures B.CloseFrom("(foo, bar, baz)", B.Delims("([", ")]"), 11) == Some(14)
  {
    assert "(foo, bar, baz)" == "(foo, " + "bar, b" + "az)";
    DeleteLastOfThreeClose1At0();
  }

  lemma DeleteLastOfThreeClose1At0()
    ensures B.FindClose("(foo, " + "bar, b" + "az)", B.Delims("([", ")]"), 11, 0) == Some(14)
  {
    DeleteLastOfThreeClose1At1();
  }

  lemma DeleteLastOfThreeClose1At1()
    ensures B.FindClose("(foo, " + "bar, b" + "az)", B.Delims("([", ")]"), 13, 0) == Some(14)
  {
    DeleteLastOfThreeClose1At2();
  }

  lemma DeleteLastOfThreeClose1At2()
    ensures B.FindClose("(foo, " + "bar, b" + "az)", B.Delims("([", ")]"), 14, 0) == Some(14)
  {
  }

  lemma DeleteLastOfThreeSegment()
    ensures A.SegmentAt("(foo, bar, baz)", 0, 14, 11) == A.Segment(0, 14, 9, 14)
  {
    DeleteLastOfThreeSeparators();
    assert A.LastUpTo([4], 11, 0) == 4;
    assert A.LastUpTo([4, 9], 11, 0) == 9;
    assert A.FirstAfter([9], 11, 14) == 14;
    assert A.FirstAfter([4, 9], 11, 14) == 14;
  }

  lemma DeleteLastOfThreeSeparators()
    ensures A.Separators("(foo, bar, baz)", 0, 14) == [4, 9]
  {
    assert "(foo, bar, baz)" == "(foo, " + "bar, b" + "az)";
    DeleteLastOfThreeScan1();
  }

  lemma DeleteLastOfThreeScan1()
    ensures A.SeparatorsFrom("(foo, " + "bar, b" + "az)", 14, 1, 0) == [4, 9]
  {
    DeleteLastOfThreeScan3();
  }

  lemma DeleteLastOfThreeScan3()
    ensures A.SeparatorsFrom("(foo, " + "bar, b" + "az)", 14, 3, 0) == [4, 9]
  {
    DeleteLastOfThreeScan5();
  }

  lemma DeleteLastOfThreeScan5()
    ensures A.SeparatorsFrom("(foo, " + "bar, b" + "az)", 14, 5, 0) == [9]
  {
    DeleteLastOfThreeScan7();
  }

  lemma DeleteLastOfThreeScan7()
    ensures A.SeparatorsFrom("(foo, " + "bar, b" + "az)", 14, 7, 0) == [9]
  {
    DeleteLastOfThreeScan9();
  }

  lemma DeleteLastOfThreeScan9()
    ensures A.SeparatorsFrom("(foo, " + "bar, b" + "az)", 14, 9, 0) == [9]
  {
    DeleteLastOfThreeScan11();
  }

  lemma DeleteLastOfThreeScan11()
    ensures A.SeparatorsFrom("(foo, " + "bar, b" + "az)", 14, 11, 0) == []
  {
    DeleteLastOfThreeScan13();
  }

  lemma DeleteLastOfThreeScan13()
    ensures A.SeparatorsFrom("(foo, " + "bar, b" + "az)", 14, 13, 0) == []
  {
  }


  lemma DeleteLastOfThreeAround()
    ensures A.AroundArgument("(foo, bar, baz)", A.Segment(0, 14, 9, 14)) == Some(B.Range(9, 14))
  {
    var t := "(foo, bar, baz)";
    assert t[10] == ' ' && t[11] == 'b' && t[12] == 'a' && t[13] == 'z';
  }

  /** `daa` in the middle argument of a list over several lines joins the comma before it with the line after. */
  lemma DeleteMiddleOfLines(st: State)
    requires st == Start(["(", "   foo,", "   bar,", "   baz", ")"], 2, 4)
    ensures Case(st, "daa", ["(", "   foo,", "   baz", ")"], 1, 6, Normal)
  {
    DeleteMiddleOfLinesStart();
    DeleteMiddleOfLinesObject();
    DeleteMiddleOfLinesLeft();
    TextCase(st, ["(", "   foo,", "   bar,", "   baz", ")"], 2, 4, "daa", Delete, 1, true, 'a', "(\n   foo,\n   bar,\n   baz\n)", 14, 8, 16, ["(", "   foo,", "   baz", ")"], "(\n   foo,\n   baz\n)", 1, 6, 6);
  }

  lemma DeleteMiddleOfLinesLeft()
    ensures TextLeft("(\n   foo,\n   bar,\n   baz\n)", Delete, 8, 16, ["(", "   foo,", "   baz", ")"], "(\n   foo,\n   baz\n)", 1, 6, 6)
  {
    DeleteMiddleOfLinesCut();
    DeleteMiddleOfLinesAfter();
  }

  lemma DeleteMiddleOfLinesCut()
    ensures "(\n   foo,\n   baz\n)" == "(\n   foo,\n   bar,\n   baz\n)"[..8] + "(\n   foo,\n   bar,\n   baz\n)"[16..]
  {
  }

  lemma DeleteMiddleOfLinesAfter()
    ensures LinesBreakFree(["(", "   foo,", "   baz", ")"], 0) && Join(["(", "   foo,", "   baz", ")"]) == "(\n   foo,\n   baz\n)" && Offset(["(", "   foo,", "   baz", ")"], Pos(1, 6)) == 8
    ensures NormalCol("   foo,", 6) == 6
  {
    DeleteMiddleOfLinesAfterJoin();
  }

  lemma DeleteMiddleOfLinesAfterJoin()
    ensures Join(["(", "   foo,", "   baz", ")"]) == "(\n   foo,\n   baz\n)"
  {
    var ls := ["(", "   foo,", "   baz", ")"];
    assert ls[1..] == ["   foo,", "   baz", ")"];
    assert ls[1..][1..] == ["   baz", ")"];
    assert ls[1..][1..][1..] == [")"];
  }

  lemma DeleteMiddleOfLinesStart()
    ensures TextStart(["(", "   foo,", "   bar,", "   baz", ")"], 2, 4, "daa", Delete, 1, true, 'a', "(\n   foo,\n   bar,\n   baz\n)", 14)
  {
    DeleteMiddleOfLinesKeys();
    DeleteMiddleOfLinesBefore();
  }

  lemma DeleteMiddleOfLinesKeys()
    ensures ParseCommand("daa") == Some((Operate(Delete, 1, Object(true, 'a')), ""))
  {
  }

  lemma DeleteMiddleOfLinesBefore()
    ensures LinesBreakFree(["(", "   foo,", "   bar,", "   baz", ")"], 0) && Join(["(", "   foo,", "   bar,", "   baz", ")"]) == "(\n   foo,\n   bar,\n   baz\n)" && Offset(["(", "   foo,", "   bar,", "   baz", ")"], Pos(2, 4)) == 14
  {
    DeleteMiddleOfLinesBeforeJoin();
  }

  lemma DeleteMiddleOfLinesBeforeJoin()
    ensures Join(["(", "   foo,", "   bar,", "   baz", ")"]) == "(\n   foo,\n   bar,\n   baz\n)"
  {
    var ls := ["(", "   foo,", "   bar,", "   baz", ")"];
    assert ls[1..] == ["   foo,", "   bar,", "   baz", ")"];
    assert ls[1..][1..] == ["   bar,", "   baz", ")"];
    assert ls[1..][1..][1..] == ["   baz", ")"];
    assert ls[1..][1..][1..][1..] == [")"];
  }

  lemma DeleteMiddleOfLinesObject()
    ensures TextObject("(\n   foo,\n   bar,\n   baz\n)", 14, true, 'a', 1) == Some(B.Range(8, 16))
  {
    DeleteMiddleOfLinesArgument();
  }

  lemma DeleteMiddleOfLinesArgument()
    ensures A.ArgumentObject("(\n   foo,\n   bar,\n   baz\n)", 14, true) == Some(B.Range(8, 16))
  {
    DeleteMiddleOfLinesPair();
    DeleteMiddleOfLinesSegment();
    DeleteMiddleOfLinesAround();
  }

  lemma DeleteMiddleOfLinesPair()
    ensures A.ArgumentPair("(\n   foo,\n   bar,\n   baz\n)", 14) == Some((0, 25))
  {
    DeleteMiddleOfLinesOpen1();
    DeleteMiddleOfLinesClose1();
  }

  lemma DeleteMiddleOfLinesOpen1()
    ensures B.OpenBefore("(\n   foo,\n   bar,\n   baz\n)", B.Delims("([", ")]"), 14) == Some(0)
  {
    assert "(\n   foo,\n   bar,\n   baz\n)" == "(\n   f" + "oo,\n  " + " bar,\n" + "   baz" + "\n)";
    DeleteMiddleOfLinesOpen1At0();
  }

  lemma DeleteMiddleOfLinesOpen1At0()
    ensures B.FindOpen("(\n   f" + "oo,\n  " + " bar,\n" + "   baz" + "\n)", B.Delims("([", ")]"), 14, 0) == Some(0)
  {
    DeleteMiddleOfLinesOpen1At1();
  }

  lemma DeleteMiddleOfLinesOpen1At1()
    ensures B.FindOpen("(\n   f" + "oo,\n  " + " bar,\n" + "   baz" + "\n)", B.Delims("([", ")]"), 12, 0) == Some(0)
  {
    DeleteMiddleOfLinesOpen1At2();
  }

  lemma DeleteMiddleOfLinesOpen1At2()
    ensures B.FindOpen("(\n   f" + "oo,\n  " + " bar,\n" + "   baz" + "\n)", B.Delims("([", ")]"), 10, 0) == Some(0)
  {
    DeleteMiddleOfLinesOpen1At3();
  }

  lemma DeleteMiddleOfLinesOpen1At3()
    ensures B.FindOpen("(\n   f" + "oo,\n  " + " bar,\n" + "   baz" + "\n)", B.Delims("([", ")]"), 8, 0) == Some(0)
  {
    DeleteMiddleOfLinesOpen1At4();
  }

  lemma DeleteMiddleOfLinesOpen1At4()
    ensures B.FindOpen("(\n   f" + "oo,\n  " + " bar,\n" + "   baz" + "\n)", B.Delims("([", ")]"), 6, 0) == Some(0)
  {
    DeleteMiddleOfLinesOpen1At5();
  }

  lemma DeleteMiddleOfLinesOpen1At5()
    ensures B.FindOpen("(\n   f" + "oo,\n  " + " bar,\n" + "   baz" + "\n)", B.Delims("([", ")]"), 4, 0) == Some(0)
  {
    DeleteMiddleOfLinesOpen1At6();
  }

  lemma DeleteMiddleOfLinesOpen1At6()
    ensures B.FindOpen("(\n   f" + "oo,\n  " + " bar,\n" + "   baz" + "\n)", B.Delims("([", ")]"), 2, 0) == Some(0)
  {
    DeleteMiddleOfLinesOpen1At7();
  }

  lemma DeleteMiddleOfLinesOpen1At7()
    ensures B.FindOpen("(\n   f" + "oo,\n  " + " bar,\n" + "   baz" + "\n)", B.Delims("([", ")]"), 1, 0) == Some(0)
  {
  }

  lemma DeleteMiddleOfLinesClose1()
    ensures B.CloseFrom("(\n   foo,\n   bar,\n   baz\n)", B.Delims("([", ")]"), 14) == Some(25)
  {
    assert "(\n   foo,\n   bar,\n   baz\n)" == "(\n   f" + "oo,\n  " + " bar,\n" + "   baz" + "\n)";
    DeleteMiddleOfLinesClose1At0();
  }

  lemma DeleteMiddleOfLinesClose1At0()
    ensures B.FindClose("(\n   f" + "oo,\n  " + " bar,\n" + "   baz" + "\n)", B.Delims("([", ")]"), 14, 0) == Some(25)
  {
    DeleteMiddleOfLinesClose1At1();
  }

  lemma DeleteMiddleOfLinesClose1At1()
    ensures B.FindClose("(\n   f" + "oo,\n  " + " bar,\n" + "   baz" + "\n)", B.Delims("([", ")]"), 16, 0) == Some(25)
  {
    DeleteMiddleOfLinesClose1At2();
  }

  lemma DeleteMiddleOfLinesClose1At2()
    ensures B.FindClose("(\n   f" + "oo,\n  " + " bar,\n" + "   baz" + "\n)", B.Delims("([", ")]"), 18, 0) == Some(25)
  {
    DeleteMiddleOfLinesClose1At3();
  }

  lemma DeleteMiddleOfLinesClose1At3()
    ensures B.FindClose("(\n   f" + "oo,\n  " + " bar,\n" + "   baz" + "\n)", B.Delims("([", ")]"), 20, 0) == Some(25)
  {
    DeleteMiddleOfLinesClose1At4();
  }

  lemma DeleteMiddleOfLinesClose1At4()
    ensures B.FindClose("(\n   f" + "oo,\n  " + " bar,\n" + "   baz" + "\n)", B.Delims("([", ")]"), 22, 0) == Some(25)
  {
    DeleteMiddleOfLinesClose1At5();
  }

  lemma DeleteMiddleOfLinesClose1At5()
    ensures B.FindClose("(\n   f" + "oo,\n  " + " bar,\n" + "   baz" + "\n)", B.Delims("([", ")]"), 24, 0) == Some(25)
  {
    DeleteMiddleOfLinesClose1At6();
  }

  lemma DeleteMiddleOfLinesClose1At6()
    ensures B.FindClose("(\n   f" + "oo,\n  " + " bar,\n" + "   baz" + "\n)", B.Delims("([", ")]"), 25, 0) == Some(25)
  {
  }

  lemma DeleteMiddleOfLinesSegment()
    ensures A.SegmentAt("(\n   foo,\n   bar,\n   baz\n)", 0, 25, 14) == A.Segment(0, 25, 8, 16)
  {
    DeleteMiddleOfLinesSeparators();
    assert A.LastUpTo([8], 14, 0) == 8;
    assert A.LastUpTo([8, 16], 14, 0) == 8;
    assert A.FirstAfter([16], 14, 25) == 16;
    assert A.FirstAfter([8, 16], 14, 25) == 16;
  }

  lemma DeleteMiddleOfLinesSeparators()
    ensures A.Separators("(\n   foo,\n   bar,\n   baz\n)", 0, 25) == [8, 16]
  {
    assert "(\n   foo,\n   bar,\n   baz\n)" == "(\n   f" + "oo,\n  " + " bar,\n" + "   baz" + "\n)";
    DeleteMiddleOfLinesScan1();
  }

  lemma DeleteMiddleOfLinesScan1()
    ensures A.SeparatorsFrom("(\n   f" + "oo,\n  " + " bar,\n" + "   baz" + "\n)", 25, 1, 0) == [8, 16]
  {
    DeleteMiddleOfLinesScan3();
  }

  lemma DeleteMiddleOfLinesScan3()
    ensures A.SeparatorsFrom("(\n   f" + "oo,\n  " + " bar,\n" + "   baz" + "\n)", 25, 3, 0) == [8, 16]
  {
    DeleteMiddleOfLinesScan5();
  }

  lemma DeleteMiddleOfLinesScan5()
    ensures A.SeparatorsFrom("(\n   f" + "oo,\n  " + " bar,\n" + "   baz" + "\n)", 25, 5, 0) == [8, 16]
  {
    DeleteMiddleOfLinesScan7();
  }

  lemma DeleteMiddleOfLinesScan7()
    ensures A.SeparatorsFrom("(\n   f" + "oo,\n  " + " bar,\n" + "   baz" + "\n)", 25, 7, 0) == [8, 16]
  {
    DeleteMiddleOfLinesScan9();
  }

  lemma DeleteMiddleOfLinesScan9()
    ensures A.SeparatorsFrom("(\n   f" + "oo,\n  " + " bar,\n" + "   baz" + "\n)", 25, 9, 0) == [16]
  {
    DeleteMiddleOfLinesScan11();
  }

  lemma DeleteMiddleOfLinesScan11()
    ensures A.SeparatorsFrom("(\n   f" + "oo,\n  " + " bar,\n" + "   baz" + "\n)", 25, 11, 0) == [16]
  {
    DeleteMiddleOfLinesScan13();
  }

  lemma DeleteMiddleOfLinesScan13()
    ensures A.SeparatorsFrom("(\n   f" + "oo,\n  " + " bar,\n" + "   baz" + "\n)", 25, 13, 0) == [16]
  {
    DeleteMiddleOfLinesScan15();
  }

  lemma DeleteMiddleOfLinesScan15()
    ensures A.SeparatorsFrom("(\n   f" + "oo,\n  " + " bar,\n" + "   baz" + "\n)", 25, 15, 0) == [16]
  {
    DeleteMiddleOfLinesScan17();
  }

  lemma DeleteMiddleOfLinesScan17()
    ensures A.SeparatorsFrom("(\n   f" + "oo,\n  " + " bar,\n" + "   baz" + "\n)", 25, 17, 0) == []
  {
    DeleteMiddleOfLinesScan19();
  }

  lemma DeleteMiddleOfLinesScan19()
    ensures A.SeparatorsFrom("(\n   f" + "oo,\n  " + " bar,\n" + "   baz" + "\n)", 25, 19, 0) == []
  {
    DeleteMiddleOfLinesScan21();
  }

  lemma DeleteMiddleOfLinesScan21()
    ensures A.SeparatorsFrom("(\n   f" + "oo,\n  " + " bar,\n" + "   baz" + "\n)", 25, 21, 0) == []
  {
    DeleteMiddleOfLinesScan23();
  }

  lemma DeleteMiddleOfLinesScan23()
    ensures A.SeparatorsFrom("(\n   f" + "oo,\n  " + " bar,\n" + "   baz" + "\n)", 25, 23, 0) == []
  {
  }


  lemma DeleteMiddleOfLinesAround()
    ensures A.AroundArgument("(\n   foo,\n   bar,\n   baz\n)", A.Segment(0, 25, 8, 16)) == Some(B.Range(8, 16))
  {
    var t := "(\n   foo,\n   bar,\n   baz\n)";
    assert t[9] == '\n' && t[10] == ' ' && t[11] == ' ' && t[12] == ' ';
    assert t[13] == 'b' && t[14] == 'a' && t[15] == 'r' && t[16] == ',';
    assert t[17] == '\n' && t[18] == ' ' && t[19] == ' ' && t[20] == ' ';
    assert t[21] == 'b' && t[22] == 'a' && t[23] == 'z' && t[24] == '\n';
  }

}
