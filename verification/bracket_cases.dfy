/**
 * The repository's test cases for the bracket objects `i(`, `a(`, `ib`,
 * `ab`, `i{`, `iB`, `a{`, `aB`, `i[`, `a[` and their closing-bracket
 * spellings with `c`, counts included, as lemmas: from the start buffer and
 * cursor, the keys leave the end buffer, cursor and mode the test expects.
 * Each case rests on small lemmas that work out the keys, the buffer's
 * text, the scans for the delimiters, the pair and the object.
 */
module BracketCases {
  import opened Wrappers
  import opened Buffer
  import opened Keys
  import opened Session
  import opened Scenario
  import B = Brackets

  /** `ci(` inside a call's parentheses empties them. */
  lemma ChangeParensOnFirst(st: State)
    requires st == Start(["print(\"hello\")"], 0, 6)
    ensures Case(st, "ci(", ["print()"], 0, 6, Insert)
  {
    ChangeParensOnFirstStart();
    ChangeParensOnFirstObject();
    ChangeParensOnFirstLeft();
    TextCase(st, ["print(\"hello\")"], 0, 6, "ci(", ChangeText, 1, false, '(', "print(\"hello\")", 6, 6, 13, ["print()"], "print()", 0, 6, 6);
  }

  lemma ChangeParensOnFirstStart()
    ensures TextStart(["print(\"hello\")"], 0, 6, "ci(", ChangeText, 1, false, '(', "print(\"hello\")", 6)
  {
    ChangeParensOnFirstKeys();
    ChangeParensOnFirstBefore();
  }

  lemma ChangeParensOnFirstLeft()
    ensures TextLeft("print(\"hello\")", ChangeText, 6, 13, ["print()"], "print()", 0, 6, 6)
  {
    ChangeParensOnFirstCut();
    ChangeParensOnFirstAfter();
  }

  lemma ChangeParensOnFirstKeys()
    ensures ParseCommand("ci(") == Some((Operate(ChangeText, 1, Object(false, '(')), ""))
  {
  }

  lemma ChangeParensOnFirstCut()
    ensures "print()" == "print(\"hello\")"[..6] + "print(\"hello\")"[13..]
  {
  }

  lemma ChangeParensOnFirstAfter()
    ensures LinesBreakFree(["print()"], 0) && Join(["print()"]) == "print()" && Offset(["print()"], Pos(0, 6)) == 6
  {
    ChangeParensOnFirstAfterJoin();
  }

  lemma ChangeParensOnFirstAfterJoin()
    ensures Join(["print()"]) == "print()"
  {
  }

  lemma ChangeParensOnFirstBefore()
    ensures LinesBreakFree(["print(\"hello\")"], 0) && Join(["print(\"hello\")"]) == "print(\"hello\")" && Offset(["print(\"hello\")"], Pos(0, 6)) == 6
  {
    ChangeParensOnFirstBeforeJoin();
  }

  lemma ChangeParensOnFirstBeforeJoin()
    ensures Join(["print(\"hello\")"]) == "print(\"hello\")"
  {
  }

  lemma ChangeParensOnFirstObject()
    ensures TextObject("print(\"hello\")", 6, false, '(', 1) == Some(B.Range(6, 13))
  {
    ChangeParensOnFirstLevel1();
    ChangeParensOnFirstInner();
  }

  lemma ChangeParensOnFirstInner()
    ensures B.NthPair("print(\"hello\")", B.Delims("(", ")"), 6, 1) == Some((5, 13)) && B.Inner("print(\"hello\")", B.Delims("(", ")"), 5, 13) == B.Range(6, 13)
  {
    ChangeParensOnFirstLevel1();
    ChangeParensOnFirstBreak();
  }

  lemma ChangeParensOnFirstBreak()
    ensures B.LastBreak("print(\"hello\")", 6, 13) == None
  {
    var t := "print(\"hello\")";
    assert t[6] == '"' && t[7] == 'h' && t[8] == 'e' && t[9] == 'l';
    assert t[10] == 'l' && t[11] == 'o' && t[12] == '"';
    assert B.LastBreak("print(\"hello\")", 6, 10) == None;
  }

  lemma ChangeParensOnFirstLevel1()
    ensures B.NthPair("print(\"hello\")", B.Delims("(", ")"), 6, 1) == Some((5, 13))
  {
    ChangeParensOnFirstOpen1();
    ChangeParensOnFirstClose1();
  }

  lemma ChangeParensOnFirstOpen1()
    ensures B.OpenBefore("print(\"hello\")", B.Delims("(", ")"), 6) == Some(5)
  {
    assert "print(\"hello\")" == "print(" + "\"hello" + "\")";
    ChangeParensOnFirstOpen1At0();
  }

  lemma ChangeParensOnFirstOpen1At0()
    ensures B.FindOpen("print(" + "\"hello" + "\")", B.Delims("(", ")"), 6, 0) == Some(5)
  {
  }

  lemma ChangeParensOnFirstClose1()
    ensures B.CloseFrom("print(\"hello\")", B.Delims("(", ")"), 6) == Some(13)
  {
    assert "print(\"hello\")" == "print(" + "\"hello" + "\")";
    ChangeParensOnFirstClose1At0();
  }

  lemma ChangeParensOnFirstClose1At0()
    ensures B.FindClose("print(" + "\"hello" + "\")", B.Delims("(", ")"), 6, 0) == Some(13)
  {
    ChangeParensOnFirstClose1At1();
  }

  lemma ChangeParensOnFirstClose1At1()
    ensures B.FindClose("print(" + "\"hello" + "\")", B.Delims("(", ")"), 8, 0) == Some(13)
  {
    ChangeParensOnFirstClose1At2();
  }

  lemma ChangeParensOnFirstClose1At2()
    ensures B.FindClose("print(" + "\"hello" + "\")", B.Delims("(", ")"), 10, 0) == Some(13)
  {
    ChangeParensOnFirstClose1At3();
  }

  lemma ChangeParensOnFirstClose1At3()
    ensures B.FindClose("print(" + "\"hello" + "\")", B.Delims("(", ")"), 12, 0) == Some(13)
  {
    ChangeParensOnFirstClose1At4();
  }

  lemma ChangeParensOnFirstClose1At4()
    ensures B.FindClose("print(" + "\"hello" + "\")", B.Delims("(", ")"), 13, 0) == Some(13)
  {
  }

  /** `ci(` on an opening parenthesis takes that pair, nested pairs and all. */
  lemma ChangeParensNested(st: State)
    requires st == Start(["call(() => 5)"], 0, 4)
    ensures Case(st, "ci(", ["call()"], 0, 5, Insert)
  {
    ChangeParensNestedStart();
    ChangeParensNestedObject();
    ChangeParensNestedLeft();
    TextCase(st, ["call(() => 5)"], 0, 4, "ci(", ChangeText, 1, false, '(', "call(() => 5)", 4, 5, 12, ["call()"], "call()", 0, 5, 5);
  }

  lemma ChangeParensNestedStart()
    ensures TextStart(["call(() => 5)"], 0, 4, "ci(", ChangeText, 1, false, '(', "call(() => 5)", 4)
  {
    ChangeParensNestedKeys();
    ChangeParensNestedBefore();
  }

  lemma ChangeParensNestedLeft()
    ensures TextLeft("call(() => 5)", ChangeText, 5, 12, ["call()"], "call()", 0, 5, 5)
  {
    ChangeParensNestedCut();
    ChangeParensNestedAfter();
  }

  lemma ChangeParensNestedKeys()
    ensures ParseCommand("ci(") == Some((Operate(ChangeText, 1, Object(false, '(')), ""))
  {
  }

  lemma ChangeParensNestedCut()
    ensures "call()" == "call(() => 5)"[..5] + "call(() => 5)"[12..]
  {
  }

  lemma ChangeParensNestedAfter()
    ensures LinesBreakFree(["call()"], 0) && Join(["call()"]) == "call()" && Offset(["call()"], Pos(0, 5)) == 5
  {
    ChangeParensNestedAfterJoin();
  }

  lemma ChangeParensNestedAfterJoin()
    ensures Join(["call()"]) == "call()"
  {
  }

  lemma ChangeParensNestedBefore()
    ensures LinesBreakFree(["call(() => 5)"], 0) && Join(["call(() => 5)"]) == "call(() => 5)" && Offset(["call(() => 5)"], Pos(0, 4)) == 4
  {
    ChangeParensNestedBeforeJoin();
  }

  lemma ChangeParensNestedBeforeJoin()
    ensures Join(["call(() => 5)"]) == "call(() => 5)"
  {
  }

  lemma ChangeParensNestedObject()
    ensures TextObject("call(() => 5)", 4, false, '(', 1) == Some(B.Range(5, 12))
  {
    ChangeParensNestedLevel1();
    ChangeParensNestedInner();
  }

  lemma ChangeParensNestedInner()
    ensures B.NthPair("call(() => 5)", B.Delims("(", ")"), 4, 1) == Some((4, 12)) && B.Inner("call(() => 5)", B.Delims("(", ")"), 4, 12) == B.Range(5, 12)
  {
    ChangeParensNestedLevel1();
    ChangeParensNestedBreak();
  }

  lemma ChangeParensNestedBreak()
    ensures B.LastBreak("call(() => 5)", 5, 12) == None
  {
    var t := "call(() => 5)";
    assert t[5] == '(' && t[6] == ')' && t[7] == ' ' && t[8] == '=';
    assert t[9] == '>' && t[10] == ' ' && t[11] == '5';
    assert B.LastBreak("call(() => 5)", 5, 9) == None;
  }

  lemma ChangeParensNestedLevel1()
    ensures B.NthPair("call(() => 5)", B.Delims("(", ")"), 4, 1) == Some((4, 12))
  {
    ChangeParensNestedClose1();
  }

  lemma ChangeParensNestedClose1()
    ensures B.CloseFrom("call(() => 5)", B.Delims("(", ")"), 5) == Some(12)
  {
    assert "call(() => 5)" == "call((" + ") => 5" + ")";
    ChangeParensNestedClose1At0();
  }

  lemma ChangeParensNestedClose1At0()
    ensures B.FindClose("call((" + ") => 5" + ")", B.Delims("(", ")"), 5, 0) == Some(12)
  {
    ChangeParensNestedClose1At1();
  }

  lemma ChangeParensNestedClose1At1()
    ensures B.FindClose("call((" + ") => 5" + ")", B.Delims("(", ")"), 7, 0) == Some(12)
  {
    ChangeParensNestedClose1At2();
  }

  lemma ChangeParensNestedClose1At2()
    ensures B.FindClose("call((" + ") => 5" + ")", B.Delims("(", ")"), 9, 0) == Some(12)
  {
    ChangeParensNestedClose1At3();
  }

  lemma ChangeParensNestedClose1At3()
    ensures B.FindClose("call((" + ") => 5" + ")", B.Delims("(", ")"), 11, 0) == Some(12)
  {
    ChangeParensNestedClose1At4();
  }

  lemma ChangeParensNestedClose1At4()
    ensures B.FindClose("call((" + ") => 5" + ")", B.Delims("(", ")"), 12, 0) == Some(12)
  {
  }

  /** `ci(` on the closing parenthesis of an empty inner pair changes nothing but enters Insert mode. */
  lemma ChangeParensEmptyInner(st: State)
    requires st == Start(["one (()) two"], 0, 6)
    ensures Case(st, "ci(", ["one (()) two"], 0, 6, Insert)
  {
    ChangeParensEmptyInnerStart();
    ChangeParensEmptyInnerObject();
    ChangeParensEmptyInnerLeft();
    TextCase(st, ["one (()) two"], 0, 6, "ci(", ChangeText, 1, false, '(', "one (()) two", 6, 6, 6, ["one (()) two"], "one (()) two", 0, 6, 6);
  }

  lemma ChangeParensEmptyInnerStart()
    ensures TextStart(["one (()) two"], 0, 6, "ci(", ChangeText, 1, false, '(', "one (()) two", 6)
  {
    ChangeParensEmptyInnerKeys();
    ChangeParensEmptyInnerBefore();
  }

  lemma ChangeParensEmptyInnerLeft()
    ensures TextLeft("one (()) two", ChangeText, 6, 6, ["one (()) two"], "one (()) two", 0, 6, 6)
  {
    ChangeParensEmptyInnerCut();
    ChangeParensEmptyInnerAfter();
  }

  lemma ChangeParensEmptyInnerKeys()
    ensures ParseCommand("ci(") == Some((Operate(ChangeText, 1, Object(false, '(')), ""))
  {
  }

  lemma ChangeParensEmptyInnerCut()
    ensures "one (()) two" == "one (()) two"[..6] + "one (()) two"[6..]
  {
  }

  lemma ChangeParensEmptyInnerAfter()
    ensures LinesBreakFree(["one (()) two"], 0) && Join(["one (()) two"]) == "one (()) two" && Offset(["one (()) two"], Pos(0, 6)) == 6
  {
    ChangeParensEmptyInnerAfterJoin();
  }

  lemma ChangeParensEmptyInnerAfterJoin()
    ensures Join(["one (()) two"]) == "one (()) two"
  {
  }

  lemma ChangeParensEmptyInnerBefore()
    ensures LinesBreakFree(["one (()) two"], 0) && Join(["one (()) two"]) == "one (()) two" && Offset(["one (()) two"], Pos(0, 6)) == 6
  {
    ChangeParensEmptyInnerBeforeJoin();
  }

  lemma ChangeParensEmptyInnerBeforeJoin()
    ensures Join(["one (()) two"]) == "one (()) two"
  {
  }

  lemma ChangeParensEmptyInnerObject()
    ensures TextObject("one (()) two", 6, false, '(', 1) == Some(B.Range(6, 6))
  {
    ChangeParensEmptyInnerLevel1();
    ChangeParensEmptyInnerInner();
  }

  lemma ChangeParensEmptyInnerInner()
    ensures B.NthPair("one (()) two", B.Delims("(", ")"), 6, 1) == Some((5, 6)) && B.Inner("one (()) two", B.Delims("(", ")"), 5, 6) == B.Range(6, 6)
  {
    ChangeParensEmptyInnerLevel1();
    ChangeParensEmptyInnerBreak();
  }

  lemma ChangeParensEmptyInnerBreak()
    ensures B.LastBreak("one (()) two", 6, 6) == None
  {
  }

  lemma ChangeParensEmptyInnerLevel1()
    ensures B.NthPair("one (()) two", B.Delims("(", ")"), 6, 1) == Some((5, 6))
  {
    ChangeParensEmptyInnerOpen1();
  }

  lemma ChangeParensEmptyInnerOpen1()
    ensures B.OpenBefore("one (()) two", B.Delims("(", ")"), 6) == Some(5)
  {
    assert "one (()) two" == "one ((" + ")) two";
    ChangeParensEmptyInnerOpen1At0();
  }

  lemma ChangeParensEmptyInnerOpen1At0()
    ensures B.FindOpen("one ((" + ")) two", B.Delims("(", ")"), 6, 0) == Some(5)
  {
  }

  /** `ci(` finds the opening parenthesis back past a nested pair. */
  lemma ChangeParensBackwards(st: State)
    requires st == Start(["call(() => 5)"], 0, 11)
    ensures Case(st, "ci(", ["call()"], 0, 5, Insert)
  {
    ChangeParensBackwardsStart();
    ChangeParensBackwardsObject();
    ChangeParensBackwardsLeft();
    TextCase(st, ["call(() => 5)"], 0, 11, "ci(", ChangeText, 1, false, '(', "call(() => 5)", 11, 5, 12, ["call()"], "call()", 0, 5, 5);
  }

  lemma ChangeParensBackwardsStart()
    ensures TextStart(["call(() => 5)"], 0, 11, "ci(", ChangeText, 1, false, '(', "call(() => 5)", 11)
  {
    ChangeParensBackwardsKeys();
    ChangeParensBackwardsBefore();
  }

  lemma ChangeParensBackwardsLeft()
    ensures TextLeft("call(() => 5)", ChangeText, 5, 12, ["call()"], "call()", 0, 5, 5)
  {
    ChangeParensBackwardsCut();
    ChangeParensBackwardsAfter();
  }

  lemma ChangeParensBackwardsKeys()
    ensures ParseCommand("ci(") == Some((Operate(ChangeText, 1, Object(false, '(')), ""))
  {
  }

  lemma ChangeParensBackwardsCut()
    ensures "call()" == "call(() => 5)"[..5] + "call(() => 5)"[12..]
  {
  }

  lemma ChangeParensBackwardsAfter()
    ensures LinesBreakFree(["call()"], 0) && Join(["call()"]) == "call()" && Offset(["call()"], Pos(0, 5)) == 5
  {
    ChangeParensBackwardsAfterJoin();
  }

  lemma ChangeParensBackwardsAfterJoin()
    ensures Join(["call()"]) == "call()"
  {
  }

  lemma ChangeParensBackwardsBefore()
    ensures LinesBreakFree(["call(() => 5)"], 0) && Join(["call(() => 5)"]) == "call(() => 5)" && Offset(["call(() => 5)"], Pos(0, 11)) == 11
  {
    ChangeParensBackwardsBeforeJoin();
  }

  lemma ChangeParensBackwardsBeforeJoin()
    ensures Join(["call(() => 5)"]) == "call(() => 5)"
  {
  }

  lemma ChangeParensBackwardsObject()
    ensures TextObject("call(() => 5)", 11, false, '(', 1) == Some(B.Range(5, 12))
  {
    ChangeParensBackwardsLevel1();
    ChangeParensBackwardsInner();
  }

  lemma ChangeParensBackwardsInner()
    ensures B.NthPair("call(() => 5)", B.Delims("(", ")"), 11, 1) == Some((4, 12)) && B.Inner("call(() => 5)", B.Delims("(", ")"), 4, 12) == B.Range(5, 12)
  {
    ChangeParensBackwardsLevel1();
    ChangeParensBackwardsBreak();
  }

  lemma ChangeParensBackwardsBreak()
    ensures B.LastBreak("call(() => 5)", 5, 12) == None
  {
    var t := "call(() => 5)";
    assert t[5] == '(' && t[6] == ')' && t[7] == ' ' && t[8] == '=';
    assert t[9] == '>' && t[10] == ' ' && t[11] == '5';
    assert B.LastBreak("call(() => 5)", 5, 9) == None;
  }

  lemma ChangeParensBackwardsLevel1()
    ensures B.NthPair("call(() => 5)", B.Delims("(", ")"), 11, 1) == Some((4, 12))
  {
    ChangeParensBackwardsOpen1();
    ChangeParensBackwardsClose1();
  }

  lemma ChangeParensBackwardsOpen1()
    ensures B.OpenBefore("call(() => 5)", B.Delims("(", ")"), 11) == Some(4)
  {
    assert "call(() => 5)" == "call((" + ") => 5" + ")";
    ChangeParensBackwardsOpen1At0();
  }

  lemma ChangeParensBackwardsOpen1At0()
    ensures B.FindOpen("call((" + ") => 5" + ")", B.Delims("(", ")"), 11, 0) == Some(4)
  {
    ChangeParensBackwardsOpen1At1();
  }

  lemma ChangeParensBackwardsOpen1At1()
    ensures B.FindOpen("call((" + ") => 5" + ")", B.Delims("(", ")"), 9, 0) == Some(4)
  {
    ChangeParensBackwardsOpen1At2();
  }

  lemma ChangeParensBackwardsOpen1At2()
    ensures B.FindOpen("call((" + ") => 5" + ")", B.Delims("(", ")"), 7, 0) == Some(4)
  {
    ChangeParensBackwardsOpen1At3();
  }

  lemma ChangeParensBackwardsOpen1At3()
    ensures B.FindOpen("call((" + ") => 5" + ")", B.Delims("(", ")"), 5, 0) == Some(4)
  {
  }

  lemma ChangeParensBackwardsClose1()
    ensures B.CloseFrom("call(() => 5)", B.Delims("(", ")"), 11) == Some(12)
  {
    assert "call(() => 5)" == "call((" + ") => 5" + ")";
    ChangeParensBackwardsClose1At0();
  }

  lemma ChangeParensBackwardsClose1At0()
    ensures B.FindClose("call((" + ") => 5" + ")", B.Delims("(", ")"), 11, 0) == Some(12)
  {
    ChangeParensBackwardsClose1At1();
  }

  lemma ChangeParensBackwardsClose1At1()
    ensures B.FindClose("call((" + ") => 5" + ")", B.Delims("(", ")"), 12, 0) == Some(12)
  {
  }

  /** `cib` is `ci(`. */
  lemma ChangeParensAlias(st: State)
    requires st == Start(["print(\"hello\")"], 0, 6)
    ensures Case(st, "cib", ["print()"], 0, 6, Insert)
  {
    ChangeParensAliasStart();
    ChangeParensAliasObject();
    ChangeParensAliasLeft();
    TextCase(st, ["print(\"hello\")"], 0, 6, "cib", ChangeText, 1, false, 'b', "print(\"hello\")", 6, 6, 13, ["print()"], "print()", 0, 6, 6);
  }

  lemma ChangeParensAliasStart()
    ensures TextStart(["print(\"hello\")"], 0, 6, "cib", ChangeText, 1, false, 'b', "print(\"hello\")", 6)
  {
    ChangeParensAliasKeys();
    ChangeParensAliasBefore();
  }

  lemma ChangeParensAliasLeft()
    ensures TextLeft("print(\"hello\")", ChangeText, 6, 13, ["print()"], "print()", 0, 6, 6)
  {
    ChangeParensAliasCut();
    ChangeParensAliasAfter();
  }

  lemma ChangeParensAliasKeys()
    ensures ParseCommand("cib") == Some((Operate(ChangeText, 1, Object(false, 'b')), ""))
  {
  }

  lemma ChangeParensAliasCut()
    ensures "print()" == "print(\"hello\")"[..6] + "print(\"hello\")"[13..]
  {
  }

  lemma ChangeParensAliasAfter()
    ensures LinesBreakFree(["print()"], 0) && Join(["print()"]) == "print()" && Offset(["print()"], Pos(0, 6)) == 6
  {
    ChangeParensAliasAfterJoin();
  }

  lemma ChangeParensAliasAfterJoin()
    ensures Join(["print()"]) == "print()"
  {
  }

  lemma ChangeParensAliasBefore()
    ensures LinesBreakFree(["print(\"hello\")"], 0) && Join(["print(\"hello\")"]) == "print(\"hello\")" && Offset(["print(\"hello\")"], Pos(0, 6)) == 6
  {
    ChangeParensAliasBeforeJoin();
  }

  lemma ChangeParensAliasBeforeJoin()
    ensures Join(["print(\"hello\")"]) == "print(\"hello\")"
  {
  }

  lemma ChangeParensAliasObject()
    ensures TextObject("print(\"hello\")", 6, false, 'b', 1) == Some(B.Range(6, 13))
  {
    ChangeParensAliasLevel1();
    ChangeParensAliasInner();
  }

  lemma ChangeParensAliasInner()
    ensures B.NthPair("print(\"hello\")", B.Delims("(", ")"), 6, 1) == Some((5, 13)) && B.Inner("print(\"hello\")", B.Delims("(", ")"), 5, 13) == B.Range(6, 13)
  {
    ChangeParensAliasLevel1();
    ChangeParensAliasBreak();
  }

  lemma ChangeParensAliasBreak()
    ensures B.LastBreak("print(\"hello\")", 6, 13) == None
  {
    var t := "print(\"hello\")";
    assert t[6] == '"' && t[7] == 'h' && t[8] == 'e' && t[9] == 'l';
    assert t[10] == 'l' && t[11] == 'o' && t[12] == '"';
    assert B.LastBreak("print(\"hello\")", 6, 10) == None;
  }

  lemma ChangeParensAliasLevel1()
    ensures B.NthPair("print(\"hello\")", B.Delims("(", ")"), 6, 1) == Some((5, 13))
  {
    ChangeParensAliasOpen1();
    ChangeParensAliasClose1();
  }

  lemma ChangeParensAliasOpen1()
    ensures B.OpenBefore("print(\"hello\")", B.Delims("(", ")"), 6) == Some(5)
  {
    assert "print(\"hello\")" == "print(" + "\"hello" + "\")";
    ChangeParensAliasOpen1At0();
  }

  lemma ChangeParensAliasOpen1At0()
    ensures B.FindOpen("print(" + "\"hello" + "\")", B.Delims("(", ")"), 6, 0) == Some(5)
  {
  }

  lemma ChangeParensAliasClose1()
    ensures B.CloseFrom("print(\"hello\")", B.Delims("(", ")"), 6) == Some(13)
  {
    assert "print(\"hello\")" == "print(" + "\"hello" + "\")";
    ChangeParensAliasClose1At0();
  }

  lemma ChangeParensAliasClose1At0()
    ensures B.FindClose("print(" + "\"hello" + "\")", B.Delims("(", ")"), 6, 0) == Some(13)
  {
    ChangeParensAliasClose1At1();
  }

  lemma ChangeParensAliasClose1At1()
    ensures B.FindClose("print(" + "\"hello" + "\")", B.Delims("(", ")"), 8, 0) == Some(13)
  {
    ChangeParensAliasClose1At2();
  }

  lemma ChangeParensAliasClose1At2()
    ensures B.FindClose("print(" + "\"hello" + "\")", B.Delims("(", ")"), 10, 0) == Some(13)
  {
    ChangeParensAliasClose1At3();
  }

  lemma ChangeParensAliasClose1At3()
    ensures B.FindClose("print(" + "\"hello" + "\")", B.Delims("(", ")"), 12, 0) == Some(13)
  {
    ChangeParensAliasClose1At4();
  }

  lemma ChangeParensAliasClose1At4()
    ensures B.FindClose("print(" + "\"hello" + "\")", B.Delims("(", ")"), 13, 0) == Some(13)
  {
  }

  /** `ci)` over a pair that spans two lines, the closing one not first on its line. */
  lemma ChangeParensAcrossLines(st: State)
    requires st == Start(["(a", "b)"], 0, 1)
    ensures Case(st, "ci)", ["()"], 0, 1, Insert)
  {
    ChangeParensAcrossLinesStart();
    ChangeParensAcrossLinesObject();
    ChangeParensAcrossLinesLeft();
    TextCase(st, ["(a", "b)"], 0, 1, "ci)", ChangeText, 1, false, ')', "(a\nb)", 1, 1, 4, ["()"], "()", 0, 1, 1);
  }

  lemma ChangeParensAcrossLinesStart()
    ensures TextStart(["(a", "b)"], 0, 1, "ci)", ChangeText, 1, false, ')', "(a\nb)", 1)
  {
    ChangeParensAcrossLinesKeys();
    ChangeParensAcrossLinesBefore();
  }

  lemma ChangeParensAcrossLinesLeft()
    ensures TextLeft("(a\nb)", ChangeText, 1, 4, ["()"], "()", 0, 1, 1)
  {
    ChangeParensAcrossLinesCut();
    ChangeParensAcrossLinesAfter();
  }

  lemma ChangeParensAcrossLinesKeys()
    ensures ParseCommand("ci)") == Some((Operate(ChangeText, 1, Object(false, ')')), ""))
  {
  }

  lemma ChangeParensAcrossLinesCut()
    ensures "()" == "(a\nb)"[..1] + "(a\nb)"[4..]
  {
  }

  lemma ChangeParensAcrossLinesAfter()
    ensures LinesBreakFree(["()"], 0) && Join(["()"]) == "()" && Offset(["()"], Pos(0, 1)) == 1
  {
    ChangeParensAcrossLinesAfterJoin();
  }

  lemma ChangeParensAcrossLinesAfterJoin()
    ensures Join(["()"]) == "()"
  {
  }

  lemma ChangeParensAcrossLinesBefore()
    ensures LinesBreakFree(["(a", "b)"], 0) && Join(["(a", "b)"]) == "(a\nb)" && Offset(["(a", "b)"], Pos(0, 1)) == 1
  {
    ChangeParensAcrossLinesBeforeJoin();
  }

  lemma ChangeParensAcrossLinesBeforeJoin()
    ensures Join(["(a", "b)"]) == "(a\nb)"
  {
    var ls := ["(a", "b)"];
    assert ls[1..] == ["b)"];
  }

  lemma ChangeParensAcrossLinesObject()
    ensures TextObject("(a\nb)", 1, false, ')', 1) == Some(B.Range(1, 4))
  {
    ChangeParensAcrossLinesLevel1();
    ChangeParensAcrossLinesInner();
  }

  lemma ChangeParensAcrossLinesInner()
    ensures B.NthPair("(a\nb)", B.Delims("(", ")"), 1, 1) == Some((0, 4)) && B.Inner("(a\nb)", B.Delims("(", ")"), 0, 4) == B.Range(1, 4)
  {
    ChangeParensAcrossLinesLevel1();
    ChangeParensAcrossLinesBreak();
  }

  lemma ChangeParensAcrossLinesBreak()
    ensures B.LastBreak("(a\nb)", 1, 4) == Some(2)
  {
    var t := "(a\nb)";
    assert t[2] == '\n' && t[3] == 'b';
  }

  lemma ChangeParensAcrossLinesLevel1()
    ensures B.NthPair("(a\nb)", B.Delims("(", ")"), 1, 1) == Some((0, 4))
  {
    ChangeParensAcrossLinesOpen1();
    ChangeParensAcrossLinesClose1();
  }

  lemma ChangeParensAcrossLinesOpen1()
    ensures B.OpenBefore("(a\nb)", B.Delims("(", ")"), 1) == Some(0)
  {
    assert "(a\nb)" == "(a\nb)";
    ChangeParensAcrossLinesOpen1At0();
  }

  lemma ChangeParensAcrossLinesOpen1At0()
    ensures B.FindOpen("(a\nb)", B.Delims("(", ")"), 1, 0) == Some(0)
  {
  }

  lemma ChangeParensAcrossLinesClose1()
    ensures B.CloseFrom("(a\nb)", B.Delims("(", ")"), 1) == Some(4)
  {
    assert "(a\nb)" == "(a\nb)";
    ChangeParensAcrossLinesClose1At0();
  }

  lemma ChangeParensAcrossLinesClose1At0()
    ensures B.FindClose("(a\nb)", B.Delims("(", ")"), 1, 0) == Some(4)
  {
    ChangeParensAcrossLinesClose1At1();
  }

  lemma ChangeParensAcrossLinesClose1At1()
    ensures B.FindClose("(a\nb)", B.Delims("(", ")"), 3, 0) == Some(4)
  {
    ChangeParensAcrossLinesClose1At2();
  }

  lemma ChangeParensAcrossLinesClose1At2()
    ensures B.FindClose("(a\nb)", B.Delims("(", ")"), 4, 0) == Some(4)
  {
  }

  /** `c3i)` changes what the third pair out holds. */
  lemma ChangeThirdPairInside(st: State)
    requires st == Start([" b(l(baz(foo)baz)a)h "], 0, 10)
    ensures Case(st, "c3i)", [" b()h "], 0, 3, Insert)
  {
    ChangeThirdPairInsideStart();
    ChangeThirdPairInsideObject();
    ChangeThirdPairInsideLeft();
    TextCase(st, [" b(l(baz(foo)baz)a)h "], 0, 10, "c3i)", ChangeText, 3, false, ')', " b(l(baz(foo)baz)a)h ", 10, 3, 18, [" b()h "], " b()h ", 0, 3, 3);
  }

  lemma ChangeThirdPairInsideStart()
    ensures TextStart([" b(l(baz(foo)baz)a)h "], 0, 10, "c3i)", ChangeText, 3, false, ')', " b(l(baz(foo)baz)a)h ", 10)
  {
    ChangeThirdPairInsideKeys();
    ChangeThirdPairInsideBefore();
  }

  lemma ChangeThirdPairInsideLeft()
    ensures TextLeft(" b(l(baz(foo)baz)a)h ", ChangeText, 3, 18, [" b()h "], " b()h ", 0, 3, 3)
  {
    ChangeThirdPairInsideCut();
    ChangeThirdPairInsideAfter();
  }

  lemma ChangeThirdPairInsideKeys()
    ensures ParseCommand("c3i)") == Some((Operate(ChangeText, 3, Object(false, ')')), ""))
  {
  }

  lemma ChangeThirdPairInsideCut()
    ensures " b()h " == " b(l(baz(foo)baz)a)h "[..3] + " b(l(baz(foo)baz)a)h "[18..]
  {
  }

  lemma ChangeThirdPairInsideAfter()
    ensures LinesBreakFree([" b()h "], 0) && Join([" b()h "]) == " b()h " && Offset([" b()h "], Pos(0, 3)) == 3
  {
    ChangeThirdPairInsideAfterJoin();
  }

  lemma ChangeThirdPairInsideAfterJoin()
    ensures Join([" b()h "]) == " b()h "
  {
  }

  lemma ChangeThirdPairInsideBefore()
    ensures LinesBreakFree([" b(l(baz(foo)baz)a)h "], 0) && Join([" b(l(baz(foo)baz)a)h "]) == " b(l(baz(foo)baz)a)h " && Offset([" b(l(baz(foo)baz)a)h "], Pos(0, 10)) == 10
  {
    ChangeThirdPairInsideBeforeJoin();
  }

  lemma ChangeThirdPairInsideBeforeJoin()
    ensures Join([" b(l(baz(foo)baz)a)h "]) == " b(l(baz(foo)baz)a)h "
  {
  }

  lemma ChangeThirdPairInsideObject()
    ensures TextObject(" b(l(baz(foo)baz)a)h ", 10, false, ')', 3) == Some(B.Range(3, 18))
  {
    ChangeThirdPairInsideLevel3();
    ChangeThirdPairInsideInner();
  }

  lemma ChangeThirdPairInsideInner()
    ensures B.NthPair(" b(l(baz(foo)baz)a)h ", B.Delims("(", ")"), 10, 3) == Some((2, 18)) && B.Inner(" b(l(baz(foo)baz)a)h ", B.Delims("(", ")"), 2, 18) == B.Range(3, 18)
  {
    ChangeThirdPairInsideLevel3();
    ChangeThirdPairInsideBreak();
  }

  lemma ChangeThirdPairInsideBreak()
    ensures B.LastBreak(" b(l(baz(foo)baz)a)h ", 3, 18) == None
  {
    var t := " b(l(baz(foo)baz)a)h ";
    assert t[3] == 'l' && t[4] == '(' && t[5] == 'b' && t[6] == 'a';
    assert t[7] == 'z' && t[8] == '(' && t[9] == 'f' && t[10] == 'o';
    assert t[11] == 'o' && t[12] == ')' && t[13] == 'b' && t[14] == 'a';
    assert t[15] == 'z' && t[16] == ')' && t[17] == 'a';
    assert B.LastBreak(" b(l(baz(foo)baz)a)h ", 3, 7) == None;
    assert B.LastBreak(" b(l(baz(foo)baz)a)h ", 3, 11) == None;
    assert B.LastBreak(" b(l(baz(foo)baz)a)h ", 3, 15) == None;
  }

  lemma ChangeThirdPairInsideLevel1()
    ensures B.NthPair(" b(l(baz(foo)baz)a)h ", B.Delims("(", ")"), 10, 1) == Some((8, 12))
  {
    ChangeThirdPairInsideOpen1();
    ChangeThirdPairInsideClose1();
  }

  lemma ChangeThirdPairInsideOpen1()
    ensures B.OpenBefore(" b(l(baz(foo)baz)a)h ", B.Delims("(", ")"), 10) == Some(8)
  {
    assert " b(l(baz(foo)baz)a)h " == " b(l(b" + "az(foo" + ")baz)a" + ")h ";
    ChangeThirdPairInsideOpen1At0();
  }

  lemma ChangeThirdPairInsideOpen1At0()
    ensures B.FindOpen(" b(l(b" + "az(foo" + ")baz)a" + ")h ", B.Delims("(", ")"), 10, 0) == Some(8)
  {
    ChangeThirdPairInsideOpen1At1();
  }

  lemma ChangeThirdPairInsideOpen1At1()
    ensures B.FindOpen(" b(l(b" + "az(foo" + ")baz)a" + ")h ", B.Delims("(", ")"), 9, 0) == Some(8)
  {
  }

  lemma ChangeThirdPairInsideClose1()
    ensures B.CloseFrom(" b(l(baz(foo)baz)a)h ", B.Delims("(", ")"), 10) == Some(12)
  {
    assert " b(l(baz(foo)baz)a)h " == " b(l(b" + "az(foo" + ")baz)a" + ")h ";
    ChangeThirdPairInsideClose1At0();
  }

  lemma ChangeThirdPairInsideClose1At0()
    ensures B.FindClose(" b(l(b" + "az(foo" + ")baz)a" + ")h ", B.Delims("(", ")"), 10, 0) == Some(12)
  {
    ChangeThirdPairInsideClose1At1();
  }

  lemma ChangeThirdPairInsideClose1At1()
    ensures B.FindClose(" b(l(b" + "az(foo" + ")baz)a" + ")h ", B.Delims("(", ")"), 12, 0) == Some(12)
  {
  }

  lemma ChangeThirdPairInsideLevel2()
    ensures B.NthPair(" b(l(baz(foo)baz)a)h ", B.Delims("(", ")"), 10, 2) == Some((4, 16))
  {
    ChangeThirdPairInsideLevel1();
    ChangeThirdPairInsideOpen2();
    ChangeThirdPairInsideClose2();
  }

  lemma ChangeThirdPairInsideOpen2()
    ensures B.OpenBefore(" b(l(baz(foo)baz)a)h ", B.Delims("(", ")"), 8) == Some(4)
  {
    assert " b(l(baz(foo)baz)a)h " == " b(l(b" + "az(foo" + ")baz)a" + ")h ";
    ChangeThirdPairInsideOpen2At0();
  }

  lemma ChangeThirdPairInsideOpen2At0()
    ensures B.FindOpen(" b(l(b" + "az(foo" + ")baz)a" + ")h ", B.Delims("(", ")"), 8, 0) == Some(4)
  {
    ChangeThirdPairInsideOpen2At1();
  }

  lemma ChangeThirdPairInsideOpen2At1()
    ensures B.FindOpen(" b(l(b" + "az(foo" + ")baz)a" + ")h ", B.Delims("(", ")"), 6, 0) == Some(4)
  {
    ChangeThirdPairInsideOpen2At2();
  }

  lemma ChangeThirdPairInsideOpen2At2()
    ensures B.FindOpen(" b(l(b" + "az(foo" + ")baz)a" + ")h ", B.Delims("(", ")"), 5, 0) == Some(4)
  {
  }

  lemma ChangeThirdPairInsideClose2()
    ensures B.CloseFrom(" b(l(baz(foo)baz)a)h ", B.Delims("(", ")"), 13) == Some(16)
  {
    assert " b(l(baz(foo)baz)a)h " == " b(l(b" + "az(foo" + ")baz)a" + ")h ";
    ChangeThirdPairInsideClose2At0();
  }

  lemma ChangeThirdPairInsideClose2At0()
    ensures B.FindClose(" b(l(b" + "az(foo" + ")baz)a" + ")h ", B.Delims("(", ")"), 13, 0) == Some(16)
  {
    ChangeThirdPairInsideClose2At1();
  }

  lemma ChangeThirdPairInsideClose2At1()
    ensures B.FindClose(" b(l(b" + "az(foo" + ")baz)a" + ")h ", B.Delims("(", ")"), 15, 0) == Some(16)
  {
    ChangeThirdPairInsideClose2At2();
  }

  lemma ChangeThirdPairInsideClose2At2()
    ensures B.FindClose(" b(l(b" + "az(foo" + ")baz)a" + ")h ", B.Delims("(", ")"), 16, 0) == Some(16)
  {
  }

  lemma ChangeThirdPairInsideLevel3()
    ensures B.NthPair(" b(l(baz(foo)baz)a)h ", B.Delims("(", ")"), 10, 3) == Some((2, 18))
  {
    ChangeThirdPairInsideLevel2();
    ChangeThirdPairInsideOpen3();
    ChangeThirdPairInsideClose3();
  }

  lemma ChangeThirdPairInsideOpen3()
    ensures B.OpenBefore(" b(l(baz(foo)baz)a)h ", B.Delims("(", ")"), 4) == Some(2)
  {
    assert " b(l(baz(foo)baz)a)h " == " b(l(b" + "az(foo" + ")baz)a" + ")h ";
    ChangeThirdPairInsideOpen3At0();
  }

  lemma ChangeThirdPairInsideOpen3At0()
    ensures B.FindOpen(" b(l(b" + "az(foo" + ")baz)a" + ")h ", B.Delims("(", ")"), 4, 0) == Some(2)
  {
    ChangeThirdPairInsideOpen3At1();
  }

  lemma ChangeThirdPairInsideOpen3At1()
    ensures B.FindOpen(" b(l(b" + "az(foo" + ")baz)a" + ")h ", B.Delims("(", ")"), 3, 0) == Some(2)
  {
  }

  lemma ChangeThirdPairInsideClose3()
    ensures B.CloseFrom(" b(l(baz(foo)baz)a)h ", B.Delims("(", ")"), 17) == Some(18)
  {
    assert " b(l(baz(foo)baz)a)h " == " b(l(b" + "az(foo" + ")baz)a" + ")h ";
    ChangeThirdPairInsideClose3At0();
  }

  lemma ChangeThirdPairInsideClose3At0()
    ensures B.FindClose(" b(l(b" + "az(foo" + ")baz)a" + ")h ", B.Delims("(", ")"), 17, 0) == Some(18)
  {
    ChangeThirdPairInsideClose3At1();
  }

  lemma ChangeThirdPairInsideClose3At1()
    ensures B.FindClose(" b(l(b" + "az(foo" + ")baz)a" + ")h ", B.Delims("(", ")"), 18, 0) == Some(18)
  {
  }

  /** `c3a)` changes the third pair out, parentheses included. */
  lemma ChangeThirdPairAround(st: State)
    requires st == Start([" b(l(baz(foo)baz)a)h "], 0, 10)
    ensures Case(st, "c3a)", [" bh "], 0, 2, Insert)
  {
    ChangeThirdPairAroundStart();
    ChangeThirdPairAroundObject();
    ChangeThirdPairAroundLeft();
    TextCase(st, [" b(l(baz(foo)baz)a)h "], 0, 10, "c3a)", ChangeText, 3, true, ')', " b(l(baz(foo)baz)a)h ", 10, 2, 19, [" bh "], " bh ", 0, 2, 2);
  }

  lemma ChangeThirdPairAroundStart()
    ensures TextStart([" b(l(baz(foo)baz)a)h "], 0, 10, "c3a)", ChangeText, 3, true, ')', " b(l(baz(foo)baz)a)h ", 10)
  {
    ChangeThirdPairAroundKeys();
    ChangeThirdPairAroundBefore();
  }

  lemma ChangeThirdPairAroundLeft()
    ensures TextLeft(" b(l(baz(foo)baz)a)h ", ChangeText, 2, 19, [" bh "], " bh ", 0, 2, 2)
  {
    ChangeThirdPairAroundCut();
    ChangeThirdPairAroundAfter();
  }

  lemma ChangeThirdPairAroundKeys()
    ensures ParseCommand("c3a)") == Some((Operate(ChangeText, 3, Object(true, ')')), ""))
  {
  }

  lemma ChangeThirdPairAroundCut()
    ensures " bh " == " b(l(baz(foo)baz)a)h "[..2] + " b(l(baz(foo)baz)a)h "[19..]
  {
  }

  lemma ChangeThirdPairAroundAfter()
    ensures LinesBreakFree([" bh "], 0) && Join([" bh "]) == " bh " && Offset([" bh "], Pos(0, 2)) == 2
  {
    ChangeThirdPairAroundAfterJoin();
  }

  lemma ChangeThirdPairAroundAfterJoin()
    ensures Join([" bh "]) == " bh "
  {
  }

  lemma ChangeThirdPairAroundBefore()
    ensures LinesBreakFree([" b(l(baz(foo)baz)a)h "], 0) && Join([" b(l(baz(foo)baz)a)h "]) == " b(l(baz(foo)baz)a)h " && Offset([" b(l(baz(foo)baz)a)h "], Pos(0, 10)) == 10
  {
    ChangeThirdPairAroundBeforeJoin();
  }

  lemma ChangeThirdPairAroundBeforeJoin()
    ensures Join([" b(l(baz(foo)baz)a)h "]) == " b(l(baz(foo)baz)a)h "
  {
  }

  lemma ChangeThirdPairAroundObject()
    ensures TextObject(" b(l(baz(foo)baz)a)h ", 10, true, ')', 3) == Some(B.Range(2, 19))
  {
    ChangeThirdPairAroundLevel3();
  }

  lemma ChangeThirdPairAroundLevel1()
    ensures B.NthPair(" b(l(baz(foo)baz)a)h ", B.Delims("(", ")"), 10, 1) == Some((8, 12))
  {
    ChangeThirdPairAroundOpen1();
    ChangeThirdPairAroundClose1();
  }

  lemma ChangeThirdPairAroundOpen1()
    ensures B.OpenBefore(" b(l(baz(foo)baz)a)h ", B.Delims("(", ")"), 10) == Some(8)
  {
    assert " b(l(baz(foo)baz)a)h " == " b(l(b" + "az(foo" + ")baz)a" + ")h ";
    ChangeThirdPairAroundOpen1At0();
  }

  lemma ChangeThirdPairAroundOpen1At0()
    ensures B.FindOpen(" b(l(b" + "az(foo" + ")baz)a" + ")h ", B.Delims("(", ")"), 10, 0) == Some(8)
  {
    ChangeThirdPairAroundOpen1At1();
  }

  lemma ChangeThirdPairAroundOpen1At1()
    ensures B.FindOpen(" b(l(b" + "az(foo" + ")baz)a" + ")h ", B.Delims("(", ")"), 9, 0) == Some(8)
  {
  }

  lemma ChangeThirdPairAroundClose1()
    ensures B.CloseFrom(" b(l(baz(foo)baz)a)h ", B.Delims("(", ")"), 10) == Some(12)
  {
    assert " b(l(baz(foo)baz)a)h " == " b(l(b" + "az(foo" + ")baz)a" + ")h ";
    ChangeThirdPairAroundClose1At0();
  }

  lemma ChangeThirdPairAroundClose1At0()
    ensures B.FindClose(" b(l(b" + "az(foo" + ")baz)a" + ")h ", B.Delims("(", ")"), 10, 0) == Some(12)
  {
    ChangeThirdPairAroundClose1At1();
  }

  lemma ChangeThirdPairAroundClose1At1()
    ensures B.FindClose(" b(l(b" + "az(foo" + ")baz)a" + ")h ", B.Delims("(", ")"), 12, 0) == Some(12)
  {
  }

  lemma ChangeThirdPairAroundLevel2()
    ensures B.NthPair(" b(l(baz(foo)baz)a)h ", B.Delims("(", ")"), 10, 2) == Some((4, 16))
  {
    ChangeThirdPairAroundLevel1();
    ChangeThirdPairAroundOpen2();
    ChangeThirdPairAroundClose2();
  }

  lemma ChangeThirdPairAroundOpen2()
    ensures B.OpenBefore(" b(l(baz(foo)baz)a)h ", B.Delims("(", ")"), 8) == Some(4)
  {
    assert " b(l(baz(foo)baz)a)h " == " b(l(b" + "az(foo" + ")baz)a" + ")h ";
    ChangeThirdPairAroundOpen2At0();
  }

  lemma ChangeThirdPairAroundOpen2At0()
    ensures B.FindOpen(" b(l(b" + "az(foo" + ")baz)a" + ")h ", B.Delims("(", ")"), 8, 0) == Some(4)
  {
    ChangeThirdPairAroundOpen2At1();
  }

  lemma ChangeThirdPairAroundOpen2At1()
    ensures B.FindOpen(" b(l(b" + "az(foo" + ")baz)a" + ")h ", B.Delims("(", ")"), 6, 0) == Some(4)
  {
    ChangeThirdPairAroundOpen2At2();
  }

  lemma ChangeThirdPairAroundOpen2At2()
    ensures B.FindOpen(" b(l(b" + "az(foo" + ")baz)a" + ")h ", B.Delims("(", ")"), 5, 0) == Some(4)
  {
  }

  lemma ChangeThirdPairAroundClose2()
    ensures B.CloseFrom(" b(l(baz(foo)baz)a)h ", B.Delims("(", ")"), 13) == Some(16)
  {
    assert " b(l(baz(foo)baz)a)h " == " b(l(b" + "az(foo" + ")baz)a" + ")h ";
    ChangeThirdPairAroundClose2At0();
  }

  lemma ChangeThirdPairAroundClose2At0()
    ensures B.FindClose(" b(l(b" + "az(foo" + ")baz)a" + ")h ", B.Delims("(", ")"), 13, 0) == Some(16)
  {
    ChangeThirdPairAroundClose2At1();
  }

  lemma ChangeThirdPairAroundClose2At1()
    ensures B.FindClose(" b(l(b" + "az(foo" + ")baz)a" + ")h ", B.Delims("(", ")"), 15, 0) == Some(16)
  {
    ChangeThirdPairAroundClose2At2();
  }

  lemma ChangeThirdPairAroundClose2At2()
    ensures B.FindClose(" b(l(b" + "az(foo" + ")baz)a" + ")h ", B.Delims("(", ")"), 16, 0) == Some(16)
  {
  }

  lemma ChangeThirdPairAroundLevel3()
    ensures B.NthPair(" b(l(baz(foo)baz)a)h ", B.Delims("(", ")"), 10, 3) == Some((2, 18))
  {
    ChangeThirdPairAroundLevel2();
    ChangeThirdPairAroundOpen3();
    ChangeThirdPairAroundClose3();
  }

  lemma ChangeThirdPairAroundOpen3()
    ensures B.OpenBefore(" b(l(baz(foo)baz)a)h ", B.Delims("(", ")"), 4) == Some(2)
  {
    assert " b(l(baz(foo)baz)a)h " == " b(l(b" + "az(foo" + ")baz)a" + ")h ";
    ChangeThirdPairAroundOpen3At0();
  }

  lemma ChangeThirdPairAroundOpen3At0()
    ensures B.FindOpen(" b(l(b" + "az(foo" + ")baz)a" + ")h ", B.Delims("(", ")"), 4, 0) == Some(2)
  {
    ChangeThirdPairAroundOpen3At1();
  }

  lemma ChangeThirdPairAroundOpen3At1()
    ensures B.FindOpen(" b(l(b" + "az(foo" + ")baz)a" + ")h ", B.Delims("(", ")"), 3, 0) == Some(2)
  {
  }

  lemma ChangeThirdPairAroundClose3()
    ensures B.CloseFrom(" b(l(baz(foo)baz)a)h ", B.Delims("(", ")"), 17) == Some(18)
  {
    assert " b(l(baz(foo)baz)a)h " == " b(l(b" + "az(foo" + ")baz)a" + ")h ";
    ChangeThirdPairAroundClose3At0();
  }

  lemma ChangeThirdPairAroundClose3At0()
    ensures B.FindClose(" b(l(b" + "az(foo" + ")baz)a" + ")h ", B.Delims("(", ")"), 17, 0) == Some(18)
  {
    ChangeThirdPairAroundClose3At1();
  }

  lemma ChangeThirdPairAroundClose3At1()
    ensures B.FindClose(" b(l(b" + "az(foo" + ")baz)a" + ")h ", B.Delims("(", ")"), 18, 0) == Some(18)
  {
  }

  /** `ca(` takes a pair that spans two lines. */
  lemma AroundParensAcrossLines(st: State)
    requires st == Start(["call(", "  arg1)"], 1, 2)
    ensures Case(st, "ca(", ["call"], 0, 4, Insert)
  {
    AroundParensAcrossLinesStart();
    AroundParensAcrossLinesObject();
    AroundParensAcrossLinesLeft();
    TextCase(st, ["call(", "  arg1)"], 1, 2, "ca(", ChangeText, 1, true, '(', "call(\n  arg1)", 8, 4, 13, ["call"], "call", 0, 4, 4);
  }

  lemma AroundParensAcrossLinesStart()
    ensures TextStart(["call(", "  arg1)"], 1, 2, "ca(", ChangeText, 1, true, '(', "call(\n  arg1)", 8)
  {
    AroundParensAcrossLinesKeys();
    AroundParensAcrossLinesBefore();
  }

  lemma AroundParensAcrossLinesLeft()
    ensures TextLeft("call(\n  arg1)", ChangeText, 4, 13, ["call"], "call", 0, 4, 4)
  {
    AroundParensAcrossLinesCut();
    AroundParensAcrossLinesAfter();
  }

  lemma AroundParensAcrossLinesKeys()
    ensures ParseCommand("ca(") == Some((Operate(ChangeText, 1, Object(true, '(')), ""))
  {
  }

  lemma AroundParensAcrossLinesCut()
    ensures "call" == "call(\n  arg1)"[..4] + "call(\n  arg1)"[13..]
  {
  }

  lemma AroundParensAcrossLinesAfter()
    ensures LinesBreakFree(["call"], 0) && Join(["call"]) == "call" && Offset(["call"], Pos(0, 4)) == 4
  {
    AroundParensAcrossLinesAfterJoin();
  }

  lemma AroundParensAcrossLinesAfterJoin()
    ensures Join(["call"]) == "call"
  {
  }

  lemma AroundParensAcrossLinesBefore()
    ensures LinesBreakFree(["call(", "  arg1)"], 0) && Join(["call(", "  arg1)"]) == "call(\n  arg1)" && Offset(["call(", "  arg1)"], Pos(1, 2)) == 8
  {
    AroundParensAcrossLinesBeforeJoin();
  }

  lemma AroundParensAcrossLinesBeforeJoin()
    ensures Join(["call(", "  arg1)"]) == "call(\n  arg1)"
  {
    var ls := ["call(", "  arg1)"];
    assert ls[1..] == ["  arg1)"];
  }

  lemma AroundParensAcrossLinesObject()
    ensures TextObject("call(\n  arg1)", 8, true, '(', 1) == Some(B.Range(4, 13))
  {
    AroundParensAcrossLinesLevel1();
  }

  lemma AroundParensAcrossLinesLevel1()
    ensures B.NthPair("call(\n  arg1)", B.Delims("(", ")"), 8, 1) == Some((4, 12))
  {
    AroundParensAcrossLinesOpen1();
    AroundParensAcrossLinesClose1();
  }

  lemma AroundParensAcrossLinesOpen1()
    ensures B.OpenBefore("call(\n  arg1)", B.Delims("(", ")"), 8) == Some(4)
  {
    assert "call(\n  arg1)" == "call(\n" + "  arg1" + ")";
    AroundParensAcrossLinesOpen1At0();
  }

  lemma AroundParensAcrossLinesOpen1At0()
    ensures B.FindOpen("call(\n" + "  arg1" + ")", B.Delims("(", ")"), 8, 0) == Some(4)
  {
    AroundParensAcrossLinesOpen1At1();
  }

  lemma AroundParensAcrossLinesOpen1At1()
    ensures B.FindOpen("call(\n" + "  arg1" + ")", B.Delims("(", ")"), 6, 0) == Some(4)
  {
    AroundParensAcrossLinesOpen1At2();
  }

  lemma AroundParensAcrossLinesOpen1At2()
    ensures B.FindOpen("call(\n" + "  arg1" + ")", B.Delims("(", ")"), 5, 0) == Some(4)
  {
  }

  lemma AroundParensAcrossLinesClose1()
    ensures B.CloseFrom("call(\n  arg1)", B.Delims("(", ")"), 8) == Some(12)
  {
    assert "call(\n  arg1)" == "call(\n" + "  arg1" + ")";
    AroundParensAcrossLinesClose1At0();
  }

  lemma AroundParensAcrossLinesClose1At0()
    ensures B.FindClose("call(\n" + "  arg1" + ")", B.Delims("(", ")"), 8, 0) == Some(12)
  {
    AroundParensAcrossLinesClose1At1();
  }

  lemma AroundParensAcrossLinesClose1At1()
    ensures B.FindClose("call(\n" + "  arg1" + ")", B.Delims("(", ")"), 10, 0) == Some(12)
  {
    AroundParensAcrossLinesClose1At2();
  }

  lemma AroundParensAcrossLinesClose1At2()
    ensures B.FindClose("call(\n" + "  arg1" + ")", B.Delims("(", ")"), 12, 0) == Some(12)
  {
  }

  /** `cab` is `ca(`. */
  lemma AroundParensAlias(st: State)
    requires st == Start(["call(", "  arg1)"], 1, 2)
    ensures Case(st, "cab", ["call"], 0, 4, Insert)
  {
    AroundParensAliasStart();
    AroundParensAliasObject();
    AroundParensAliasLeft();
    TextCase(st, ["call(", "  arg1)"], 1, 2, "cab", ChangeText, 1, true, 'b', "call(\n  arg1)", 8, 4, 13, ["call"], "call", 0, 4, 4);
  }

  lemma AroundParensAliasStart()
    ensures TextStart(["call(", "  arg1)"], 1, 2, "cab", ChangeText, 1, true, 'b', "call(\n  arg1)", 8)
  {
    AroundParensAliasKeys();
    AroundParensAliasBefore();
  }

  lemma AroundParensAliasLeft()
    ensures TextLeft("call(\n  arg1)", ChangeText, 4, 13, ["call"], "call", 0, 4, 4)
  {
    AroundParensAliasCut();
    AroundParensAliasAfter();
  }

  lemma AroundParensAliasKeys()
    ensures ParseCommand("cab") == Some((Operate(ChangeText, 1, Object(true, 'b')), ""))
  {
  }

  lemma AroundParensAliasCut()
    ensures "call" == "call(\n  arg1)"[..4] + "call(\n  arg1)"[13..]
  {
  }

  lemma AroundParensAliasAfter()
    ensures LinesBreakFree(["call"], 0) && Join(["call"]) == "call" && Offset(["call"], Pos(0, 4)) == 4
  {
    AroundParensAliasAfterJoin();
  }

  lemma AroundParensAliasAfterJoin()
    ensures Join(["call"]) == "call"
  {
  }

  lemma AroundParensAliasBefore()
    ensures LinesBreakFree(["call(", "  arg1)"], 0) && Join(["call(", "  arg1)"]) == "call(\n  arg1)" && Offset(["call(", "  arg1)"], Pos(1, 2)) == 8
  {
    AroundParensAliasBeforeJoin();
  }

  lemma AroundParensAliasBeforeJoin()
    ensures Join(["call(", "  arg1)"]) == "call(\n  arg1)"
  {
    var ls := ["call(", "  arg1)"];
    assert ls[1..] == ["  arg1)"];
  }

  lemma AroundParensAliasObject()
    ensures TextObject("call(\n  arg1)", 8, true, 'b', 1) == Some(B.Range(4, 13))
  {
    AroundParensAliasLevel1();
  }

  lemma AroundParensAliasLevel1()
    ensures B.NthPair("call(\n  arg1)", B.Delims("(", ")"), 8, 1) == Some((4, 12))
  {
    AroundParensAliasOpen1();
    AroundParensAliasClose1();
  }

  lemma AroundParensAliasOpen1()
    ensures B.OpenBefore("call(\n  arg1)", B.Delims("(", ")"), 8) == Some(4)
  {
    assert "call(\n  arg1)" == "call(\n" + "  arg1" + ")";
    AroundParensAliasOpen1At0();
  }

  lemma AroundParensAliasOpen1At0()
    ensures B.FindOpen("call(\n" + "  arg1" + ")", B.Delims("(", ")"), 8, 0) == Some(4)
  {
    AroundParensAliasOpen1At1();
  }

  lemma AroundParensAliasOpen1At1()
    ensures B.FindOpen("call(\n" + "  arg1" + ")", B.Delims("(", ")"), 6, 0) == Some(4)
  {
    AroundParensAliasOpen1At2();
  }

  lemma AroundParensAliasOpen1At2()
    ensures B.FindOpen("call(\n" + "  arg1" + ")", B.Delims("(", ")"), 5, 0) == Some(4)
  {
  }

  lemma AroundParensAliasClose1()
    ensures B.CloseFrom("call(\n  arg1)", B.Delims("(", ")"), 8) == Some(12)
  {
    assert "call(\n  arg1)" == "call(\n" + "  arg1" + ")";
    AroundParensAliasClose1At0();
  }

  lemma AroundParensAliasClose1At0()
    ensures B.FindClose("call(\n" + "  arg1" + ")", B.Delims("(", ")"), 8, 0) == Some(12)
  {
    AroundParensAliasClose1At1();
  }

  lemma AroundParensAliasClose1At1()
    ensures B.FindClose("call(\n" + "  arg1" + ")", B.Delims("(", ")"), 10, 0) == Some(12)
  {
    AroundParensAliasClose1At2();
  }

  lemma AroundParensAliasClose1At2()
    ensures B.FindClose("call(\n" + "  arg1" + ")", B.Delims("(", ")"), 12, 0) == Some(12)
  {
  }

  /** `ci{` with only an empty line between the braces changes nothing but enters Insert mode. */
  lemma ChangeBracesEmptyLine(st: State)
    requires st == Start(["one {", "", "}"], 1, 0)
    ensures Case(st, "ci{", ["one {", "", "}"], 1, 0, Insert)
  {
    ChangeBracesEmptyLineStart();
    ChangeBracesEmptyLineObject();
    ChangeBracesEmptyLineLeft();
    TextCase(st, ["one {", "", "}"], 1, 0, "ci{", ChangeText, 1, false, '{', "one {\n\n}", 6, 6, 6, ["one {", "", "}"], "one {\n\n}", 1, 0, 0);
  }

  lemma ChangeBracesEmptyLineStart()
    ensures TextStart(["one {", "", "}"], 1, 0, "ci{", ChangeText, 1, false, '{', "one {\n\n}", 6)
  {
    ChangeBracesEmptyLineKeys();
    ChangeBracesEmptyLineBefore();
  }

  lemma ChangeBracesEmptyLineLeft()
    ensures TextLeft("one {\n\n}", ChangeText, 6, 6, ["one {", "", "}"], "one {\n\n}", 1, 0, 0)
  {
    ChangeBracesEmptyLineCut();
    ChangeBracesEmptyLineAfter();
  }

  lemma ChangeBracesEmptyLineKeys()
    ensures ParseCommand("ci{") == Some((Operate(ChangeText, 1, Object(false, '{')), ""))
  {
  }

  lemma ChangeBracesEmptyLineCut()
    ensures "one {\n\n}" == "one {\n\n}"[..6] + "one {\n\n}"[6..]
  {
  }

  lemma ChangeBracesEmptyLineAfter()
    ensures LinesBreakFree(["one {", "", "}"], 0) && Join(["one {", "", "}"]) == "one {\n\n}" && Offset(["one {", "", "}"], Pos(1, 0)) == 6
  {
    ChangeBracesEmptyLineAfterJoin();
  }

  lemma ChangeBracesEmptyLineAfterJoin()
    ensures Join(["one {", "", "}"]) == "one {\n\n}"
  {
    var ls := ["one {", "", "}"];
    assert ls[1..] == ["", "}"];
    assert ls[1..][1..] == ["}"];
  }

  lemma ChangeBracesEmptyLineBefore()
    ensures LinesBreakFree(["one {", "", "}"], 0) && Join(["one {", "", "}"]) == "one {\n\n}" && Offset(["one {", "", "}"], Pos(1, 0)) == 6
  {
    ChangeBracesEmptyLineBeforeJoin();
  }

  lemma ChangeBracesEmptyLineBeforeJoin()
    ensures Join(["one {", "", "}"]) == "one {\n\n}"
  {
    var ls := ["one {", "", "}"];
    assert ls[1..] == ["", "}"];
    assert ls[1..][1..] == ["}"];
  }

  lemma ChangeBracesEmptyLineObject()
    ensures TextObject("one {\n\n}", 6, false, '{', 1) == Some(B.Range(6, 6))
  {
    ChangeBracesEmptyLineLevel1();
    ChangeBracesEmptyLineInner();
  }

  lemma ChangeBracesEmptyLineInner()
    ensures B.NthPair("one {\n\n}", B.Delims("{", "}"), 6, 1) == Some((4, 7)) && B.Inner("one {\n\n}", B.Delims("{", "}"), 4, 7) == B.Range(6, 6)
  {
    ChangeBracesEmptyLineLevel1();
    ChangeBracesEmptyLineBreak();
  }

  lemma ChangeBracesEmptyLineBreak()
    ensures B.LastBreak("one {\n\n}", 6, 7) == Some(6)
  {
    var t := "one {\n\n}";
    assert t[6] == '\n';
  }

  lemma ChangeBracesEmptyLineLevel1()
    ensures B.NthPair("one {\n\n}", B.Delims("{", "}"), 6, 1) == Some((4, 7))
  {
    ChangeBracesEmptyLineOpen1();
    ChangeBracesEmptyLineClose1();
  }

  lemma ChangeBracesEmptyLineOpen1()
    ensures B.OpenBefore("one {\n\n}", B.Delims("{", "}"), 6) == Some(4)
  {
    assert "one {\n\n}" == "one {\n" + "\n}";
    ChangeBracesEmptyLineOpen1At0();
  }

  lemma ChangeBracesEmptyLineOpen1At0()
    ensures B.FindOpen("one {\n" + "\n}", B.Delims("{", "}"), 6, 0) == Some(4)
  {
    ChangeBracesEmptyLineOpen1At1();
  }

  lemma ChangeBracesEmptyLineOpen1At1()
    ensures B.FindOpen("one {\n" + "\n}", B.Delims("{", "}"), 5, 0) == Some(4)
  {
  }

  lemma ChangeBracesEmptyLineClose1()
    ensures B.CloseFrom("one {\n\n}", B.Delims("{", "}"), 6) == Some(7)
  {
    assert "one {\n\n}" == "one {\n" + "\n}";
    ChangeBracesEmptyLineClose1At0();
  }

  lemma ChangeBracesEmptyLineClose1At0()
    ensures B.FindClose("one {\n" + "\n}", B.Delims("{", "}"), 6, 0) == Some(7)
  {
    ChangeBracesEmptyLineClose1At1();
  }

  lemma ChangeBracesEmptyLineClose1At1()
    ensures B.FindClose("one {\n" + "\n}", B.Delims("{", "}"), 7, 0) == Some(7)
  {
  }

  /** `ci{` takes the blanks after the opening brace and the empty line. */
  lemma ChangeBracesTrailingBlanks(st: State)
    requires st == Start(["one {  ", "", "}"], 1, 0)
    ensures Case(st, "ci{", ["one {", "}"], 0, 5, Insert)
  {
    ChangeBracesTrailingBlanksStart();
    ChangeBracesTrailingBlanksObject();
    ChangeBracesTrailingBlanksLeft();
    TextCase(st, ["one {  ", "", "}"], 1, 0, "ci{", ChangeText, 1, false, '{', "one {  \n\n}", 8, 5, 8, ["one {", "}"], "one {\n}", 0, 5, 5);
  }

  lemma ChangeBracesTrailingBlanksStart()
    ensures TextStart(["one {  ", "", "}"], 1, 0, "ci{", ChangeText, 1, false, '{', "one {  \n\n}", 8)
  {
    ChangeBracesTrailingBlanksKeys();
    ChangeBracesTrailingBlanksBefore();
  }

  lemma ChangeBracesTrailingBlanksLeft()
    ensures TextLeft("one {  \n\n}", ChangeText, 5, 8, ["one {", "}"], "one {\n}", 0, 5, 5)
  {
    ChangeBracesTrailingBlanksCut();
    ChangeBracesTrailingBlanksAfter();
  }

  lemma ChangeBracesTrailingBlanksKeys()
    ensures ParseCommand("ci{") == Some((Operate(ChangeText, 1, Object(false, '{')), ""))
  {
  }

  lemma ChangeBracesTrailingBlanksCut()
    ensures "one {\n}" == "one {  \n\n}"[..5] + "one {  \n\n}"[8..]
  {
  }

  lemma ChangeBracesTrailingBlanksAfter()
    ensures LinesBreakFree(["one {", "}"], 0) && Join(["one {", "}"]) == "one {\n}" && Offset(["one {", "}"], Pos(0, 5)) == 5
  {
    ChangeBracesTrailingBlanksAfterJoin();
  }

  lemma ChangeBracesTrailingBlanksAfterJoin()
    ensures Join(["one {", "}"]) == "one {\n}"
  {
    var ls := ["one {", "}"];
    assert ls[1..] == ["}"];
  }

  lemma ChangeBracesTrailingBlanksBefore()
    ensures LinesBreakFree(["one {  ", "", "}"], 0) && Join(["one {  ", "", "}"]) == "one {  \n\n}" && Offset(["one {  ", "", "}"], Pos(1, 0)) == 8
  {
    ChangeBracesTrailingBlanksBeforeJoin();
  }

  lemma ChangeBracesTrailingBlanksBeforeJoin()
    ensures Join(["one {  ", "", "}"]) == "one {  \n\n}"
  {
    var ls := ["one {  ", "", "}"];
    assert ls[1..] == ["", "}"];
    assert ls[1..][1..] == ["}"];
  }

  lemma ChangeBracesTrailingBlanksObject()
    ensures TextObject("one {  \n\n}", 8, false, '{', 1) == Some(B.Range(5, 8))
  {
    ChangeBracesTrailingBlanksLevel1();
    ChangeBracesTrailingBlanksInner();
  }

  lemma ChangeBracesTrailingBlanksInner()
    ensures B.NthPair("one {  \n\n}", B.Delims("{", "}"), 8, 1) == Some((4, 9)) && B.Inner("one {  \n\n}", B.Delims("{", "}"), 4, 9) == B.Range(5, 8)
  {
    ChangeBracesTrailingBlanksLevel1();
    ChangeBracesTrailingBlanksBreak();
  }

  lemma ChangeBracesTrailingBlanksBreak()
    ensures B.LastBreak("one {  \n\n}", 5, 9) == Some(8)
  {
    var t := "one {  \n\n}";
    assert t[8] == '\n';
  }

  lemma ChangeBracesTrailingBlanksLevel1()
    ensures B.NthPair("one {  \n\n}", B.Delims("{", "}"), 8, 1) == Some((4, 9))
  {
    ChangeBracesTrailingBlanksOpen1();
    ChangeBracesTrailingBlanksClose1();
  }

  lemma ChangeBracesTrailingBlanksOpen1()
    ensures B.OpenBefore("one {  \n\n}", B.Delims("{", "}"), 8) == Some(4)
  {
    assert "one {  \n\n}" == "one { " + " \n\n}";
    ChangeBracesTrailingBlanksOpen1At0();
  }

  lemma ChangeBracesTrailingBlanksOpen1At0()
    ensures B.FindOpen("one { " + " \n\n}", B.Delims("{", "}"), 8, 0) == Some(4)
  {
    ChangeBracesTrailingBlanksOpen1At1();
  }

  lemma ChangeBracesTrailingBlanksOpen1At1()
    ensures B.FindOpen("one { " + " \n\n}", B.Delims("{", "}"), 6, 0) == Some(4)
  {
    ChangeBracesTrailingBlanksOpen1At2();
  }

  lemma ChangeBracesTrailingBlanksOpen1At2()
    ensures B.FindOpen("one { " + " \n\n}", B.Delims("{", "}"), 5, 0) == Some(4)
  {
  }

  lemma ChangeBracesTrailingBlanksClose1()
    ensures B.CloseFrom("one {  \n\n}", B.Delims("{", "}"), 8) == Some(9)
  {
    assert "one {  \n\n}" == "one { " + " \n\n}";
    ChangeBracesTrailingBlanksClose1At0();
  }

  lemma ChangeBracesTrailingBlanksClose1At0()
    ensures B.FindClose("one { " + " \n\n}", B.Delims("{", "}"), 8, 0) == Some(9)
  {
    ChangeBracesTrailingBlanksClose1At1();
  }

  lemma ChangeBracesTrailingBlanksClose1At1()
    ensures B.FindClose("one { " + " \n\n}", B.Delims("{", "}"), 9, 0) == Some(9)
  {
  }

  /** `ci{` leaves the indentation before a closing brace that starts its line. */
  lemma ChangeBracesIndentedClose(st: State)
    requires st == Start(["one {", "", "  }"], 1, 0)
    ensures Case(st, "ci{", ["one {", "", "  }"], 1, 0, Insert)
  {
    ChangeBracesIndentedCloseStart();
    ChangeBracesIndentedCloseObject();
    ChangeBracesIndentedCloseLeft();
    TextCase(st, ["one {", "", "  }"], 1, 0, "ci{", ChangeText, 1, false, '{', "one {\n\n  }", 6, 6, 6, ["one {", "", "  }"], "one {\n\n  }", 1, 0, 0);
  }

  lemma ChangeBracesIndentedCloseStart()
    ensures TextStart(["one {", "", "  }"], 1, 0, "ci{", ChangeText, 1, false, '{', "one {\n\n  }", 6)
  {
    ChangeBracesIndentedCloseKeys();
    ChangeBracesIndentedCloseBefore();
  }

  lemma ChangeBracesIndentedCloseLeft()
    ensures TextLeft("one {\n\n  }", ChangeText, 6, 6, ["one {", "", "  }"], "one {\n\n  }", 1, 0, 0)
  {
    ChangeBracesIndentedCloseCut();
    ChangeBracesIndentedCloseAfter();
  }

  lemma ChangeBracesIndentedCloseKeys()
    ensures ParseCommand("ci{") == Some((Operate(ChangeText, 1, Object(false, '{')), ""))
  {
  }

  lemma ChangeBracesIndentedCloseCut()
    ensures "one {\n\n  }" == "one {\n\n  }"[..6] + "one {\n\n  }"[6..]
  {
  }

  lemma ChangeBracesIndentedCloseAfter()
    ensures LinesBreakFree(["one {", "", "  }"], 0) && Join(["one {", "", "  }"]) == "one {\n\n  }" && Offset(["one {", "", "  }"], Pos(1, 0)) == 6
  {
    ChangeBracesIndentedCloseAfterJoin();
  }

  lemma ChangeBracesIndentedCloseAfterJoin()
    ensures Join(["one {", "", "  }"]) == "one {\n\n  }"
  {
    var ls := ["one {", "", "  }"];
    assert ls[1..] == ["", "  }"];
    assert ls[1..][1..] == ["  }"];
  }

  lemma ChangeBracesIndentedCloseBefore()
    ensures LinesBreakFree(["one {", "", "  }"], 0) && Join(["one {", "", "  }"]) == "one {\n\n  }" && Offset(["one {", "", "  }"], Pos(1, 0)) == 6
  {
    ChangeBracesIndentedCloseBeforeJoin();
  }

  lemma ChangeBracesIndentedCloseBeforeJoin()
    ensures Join(["one {", "", "  }"]) == "one {\n\n  }"
  {
    var ls := ["one {", "", "  }"];
    assert ls[1..] == ["", "  }"];
    assert ls[1..][1..] == ["  }"];
  }

  lemma ChangeBracesIndentedCloseObject()
    ensures TextObject("one {\n\n  }", 6, false, '{', 1) == Some(B.Range(6, 6))
  {
    ChangeBracesIndentedCloseLevel1();
    ChangeBracesIndentedCloseInner();
  }

  lemma ChangeBracesIndentedCloseInner()
    ensures B.NthPair("one {\n\n  }", B.Delims("{", "}"), 6, 1) == Some((4, 9)) && B.Inner("one {\n\n  }", B.Delims("{", "}"), 4, 9) == B.Range(6, 6)
  {
    ChangeBracesIndentedCloseLevel1();
    ChangeBracesIndentedCloseBreak();
  }

  lemma ChangeBracesIndentedCloseBreak()
    ensures B.LastBreak("one {\n\n  }", 6, 9) == Some(6)
  {
    var t := "one {\n\n  }";
    assert t[6] == '\n' && t[7] == ' ' && t[8] == ' ';
  }

  lemma ChangeBracesIndentedCloseLevel1()
    ensures B.NthPair("one {\n\n  }", B.Delims("{", "}"), 6, 1) == Some((4, 9))
  {
    ChangeBracesIndentedCloseOpen1();
    ChangeBracesIndentedCloseClose1();
  }

  lemma ChangeBracesIndentedCloseOpen1()
    ensures B.OpenBefore("one {\n\n  }", B.Delims("{", "}"), 6) == Some(4)
  {
    assert "one {\n\n  }" == "one {\n" + "\n  }";
    ChangeBracesIndentedCloseOpen1At0();
  }

  lemma ChangeBracesIndentedCloseOpen1At0()
    ensures B.FindOpen("one {\n" + "\n  }", B.Delims("{", "}"), 6, 0) == Some(4)
  {
    ChangeBracesIndentedCloseOpen1At1();
  }

  lemma ChangeBracesIndentedCloseOpen1At1()
    ensures B.FindOpen("one {\n" + "\n  }", B.Delims("{", "}"), 5, 0) == Some(4)
  {
  }

  lemma ChangeBracesIndentedCloseClose1()
    ensures B.CloseFrom("one {\n\n  }", B.Delims("{", "}"), 6) == Some(9)
  {
    assert "one {\n\n  }" == "one {\n" + "\n  }";
    ChangeBracesIndentedCloseClose1At0();
  }

  lemma ChangeBracesIndentedCloseClose1At0()
    ensures B.FindClose("one {\n" + "\n  }", B.Delims("{", "}"), 6, 0) == Some(9)
  {
    ChangeBracesIndentedCloseClose1At1();
  }

  lemma ChangeBracesIndentedCloseClose1At1()
    ensures B.FindClose("one {\n" + "\n  }", B.Delims("{", "}"), 8, 0) == Some(9)
  {
    ChangeBracesIndentedCloseClose1At2();
  }

  lemma ChangeBracesIndentedCloseClose1At2()
    ensures B.FindClose("one {\n" + "\n  }", B.Delims("{", "}"), 9, 0) == Some(9)
  {
  }

  /** `ci(` on the closing parenthesis. */
  lemma ChangeParensOnClosing(st: State)
    requires st == Start(["(one)"], 0, 4)
    ensures Case(st, "ci(", ["()"], 0, 1, Insert)
  {
    ChangeParensOnClosingStart();
    ChangeParensOnClosingObject();
    ChangeParensOnClosingLeft();
    TextCase(st, ["(one)"], 0, 4, "ci(", ChangeText, 1, false, '(', "(one)", 4, 1, 4, ["()"], "()", 0, 1, 1);
  }

  lemma ChangeParensOnClosingStart()
    ensures TextStart(["(one)"], 0, 4, "ci(", ChangeText, 1, false, '(', "(one)", 4)
  {
    ChangeParensOnClosingKeys();
    ChangeParensOnClosingBefore();
  }

  lemma ChangeParensOnClosingLeft()
    ensures TextLeft("(one)", ChangeText, 1, 4, ["()"], "()", 0, 1, 1)
  {
    ChangeParensOnClosingCut();
    ChangeParensOnClosingAfter();
  }

  lemma ChangeParensOnClosingKeys()
    ensures ParseCommand("ci(") == Some((Operate(ChangeText, 1, Object(false, '(')), ""))
  {
  }

  lemma ChangeParensOnClosingCut()
    ensures "()" == "(one)"[..1] + "(one)"[4..]
  {
  }

  lemma ChangeParensOnClosingAfter()
    ensures LinesBreakFree(["()"], 0) && Join(["()"]) == "()" && Offset(["()"], Pos(0, 1)) == 1
  {
    ChangeParensOnClosingAfterJoin();
  }

  lemma ChangeParensOnClosingAfterJoin()
    ensures Join(["()"]) == "()"
  {
  }

  lemma ChangeParensOnClosingBefore()
    ensures LinesBreakFree(["(one)"], 0) && Join(["(one)"]) == "(one)" && Offset(["(one)"], Pos(0, 4)) == 4
  {
    ChangeParensOnClosingBeforeJoin();
  }

  lemma ChangeParensOnClosingBeforeJoin()
    ensures Join(["(one)"]) == "(one)"
  {
  }

  lemma ChangeParensOnClosingObject()
    ensures TextObject("(one)", 4, false, '(', 1) == Some(B.Range(1, 4))
  {
    ChangeParensOnClosingLevel1();
    ChangeParensOnClosingInner();
  }

  lemma ChangeParensOnClosingInner()
    ensures B.NthPair("(one)", B.Delims("(", ")"), 4, 1) == Some((0, 4)) && B.Inner("(one)", B.Delims("(", ")"), 0, 4) == B.Range(1, 4)
  {
    ChangeParensOnClosingLevel1();
    ChangeParensOnClosingBreak();
  }

  lemma ChangeParensOnClosingBreak()
    ensures B.LastBreak("(one)", 1, 4) == None
  {
    var t := "(one)";
    assert t[1] == 'o' && t[2] == 'n' && t[3] == 'e';
  }

  lemma ChangeParensOnClosingLevel1()
    ensures B.NthPair("(one)", B.Delims("(", ")"), 4, 1) == Some((0, 4))
  {
    ChangeParensOnClosingOpen1();
  }

  lemma ChangeParensOnClosingOpen1()
    ensures B.OpenBefore("(one)", B.Delims("(", ")"), 4) == Some(0)
  {
    assert "(one)" == "(one)";
    ChangeParensOnClosingOpen1At0();
  }

  lemma ChangeParensOnClosingOpen1At0()
    ensures B.FindOpen("(one)", B.Delims("(", ")"), 4, 0) == Some(0)
  {
    ChangeParensOnClosingOpen1At1();
  }

  lemma ChangeParensOnClosingOpen1At1()
    ensures B.FindOpen("(one)", B.Delims("(", ")"), 2, 0) == Some(0)
  {
    ChangeParensOnClosingOpen1At2();
  }

  lemma ChangeParensOnClosingOpen1At2()
    ensures B.FindOpen("(one)", B.Delims("(", ")"), 1, 0) == Some(0)
  {
  }

  /** `ciB` is `ci{`. */
  lemma ChangeBracesAlias(st: State)
    requires st == Start(["one {", "", "}"], 1, 0)
    ensures Case(st, "ciB", ["one {", "", "}"], 1, 0, Insert)
  {
    ChangeBracesAliasStart();
    ChangeBracesAliasObject();
    ChangeBracesAliasLeft();
    TextCase(st, ["one {", "", "}"], 1, 0, "ciB", ChangeText, 1, false, 'B', "one {\n\n}", 6, 6, 6, ["one {", "", "}"], "one {\n\n}", 1, 0, 0);
  }

  lemma ChangeBracesAliasStart()
    ensures TextStart(["one {", "", "}"], 1, 0, "ciB", ChangeText, 1, false, 'B', "one {\n\n}", 6)
  {
    ChangeBracesAliasKeys();
    ChangeBracesAliasBefore();
  }

  lemma ChangeBracesAliasLeft()
    ensures TextLeft("one {\n\n}", ChangeText, 6, 6, ["one {", "", "}"], "one {\n\n}", 1, 0, 0)
  {
    ChangeBracesAliasCut();
    ChangeBracesAliasAfter();
  }

  lemma ChangeBracesAliasKeys()
    ensures ParseCommand("ciB") == Some((Operate(ChangeText, 1, Object(false, 'B')), ""))
  {
  }

  lemma ChangeBracesAliasCut()
    ensures "one {\n\n}" == "one {\n\n}"[..6] + "one {\n\n}"[6..]
  {
  }

  lemma ChangeBracesAliasAfter()
    ensures LinesBreakFree(["one {", "", "}"], 0) && Join(["one {", "", "}"]) == "one {\n\n}" && Offset(["one {", "", "}"], Pos(1, 0)) == 6
  {
    ChangeBracesAliasAfterJoin();
  }

  lemma ChangeBracesAliasAfterJoin()
    ensures Join(["one {", "", "}"]) == "one {\n\n}"
  {
    var ls := ["one {", "", "}"];
    assert ls[1..] == ["", "}"];
    assert ls[1..][1..] == ["}"];
  }

  lemma ChangeBracesAliasBefore()
    ensures LinesBreakFree(["one {", "", "}"], 0) && Join(["one {", "", "}"]) == "one {\n\n}" && Offset(["one {", "", "}"], Pos(1, 0)) == 6
  {
    ChangeBracesAliasBeforeJoin();
  }

  lemma ChangeBracesAliasBeforeJoin()
    ensures Join(["one {", "", "}"]) == "one {\n\n}"
  {
    var ls := ["one {", "", "}"];
    assert ls[1..] == ["", "}"];
    assert ls[1..][1..] == ["}"];
  }

  lemma ChangeBracesAliasObject()
    ensures TextObject("one {\n\n}", 6, false, 'B', 1) == Some(B.Range(6, 6))
  {
    ChangeBracesAliasLevel1();
    ChangeBracesAliasInner();
  }

  lemma ChangeBracesAliasInner()
    ensures B.NthPair("one {\n\n}", B.Delims("{", "}"), 6, 1) == Some((4, 7)) && B.Inner("one {\n\n}", B.Delims("{", "}"), 4, 7) == B.Range(6, 6)
  {
    ChangeBracesAliasLevel1();
    ChangeBracesAliasBreak();
  }

  lemma ChangeBracesAliasBreak()
    ensures B.LastBreak("one {\n\n}", 6, 7) == Some(6)
  {
    var t := "one {\n\n}";
    assert t[6] == '\n';
  }

  lemma ChangeBracesAliasLevel1()
    ensures B.NthPair("one {\n\n}", B.Delims("{", "}"), 6, 1) == Some((4, 7))
  {
    ChangeBracesAliasOpen1();
    ChangeBracesAliasClose1();
  }

  lemma ChangeBracesAliasOpen1()
    ensures B.OpenBefore("one {\n\n}", B.Delims("{", "}"), 6) == Some(4)
  {
    assert "one {\n\n}" == "one {\n" + "\n}";
    ChangeBracesAliasOpen1At0();
  }

  lemma ChangeBracesAliasOpen1At0()
    ensures B.FindOpen("one {\n" + "\n}", B.Delims("{", "}"), 6, 0) == Some(4)
  {
    ChangeBracesAliasOpen1At1();
  }

  lemma ChangeBracesAliasOpen1At1()
    ensures B.FindOpen("one {\n" + "\n}", B.Delims("{", "}"), 5, 0) == Some(4)
  {
  }

  lemma ChangeBracesAliasClose1()
    ensures B.CloseFrom("one {\n\n}", B.Delims("{", "}"), 6) == Some(7)
  {
    assert "one {\n\n}" == "one {\n" + "\n}";
    ChangeBracesAliasClose1At0();
  }

  lemma ChangeBracesAliasClose1At0()
    ensures B.FindClose("one {\n" + "\n}", B.Delims("{", "}"), 6, 0) == Some(7)
  {
    ChangeBracesAliasClose1At1();
  }

  lemma ChangeBracesAliasClose1At1()
    ensures B.FindClose("one {\n" + "\n}", B.Delims("{", "}"), 7, 0) == Some(7)
  {
  }

  /** `ca(` with no parentheses finds nothing: nothing changes and the mode stays Normal. */
  lemma AroundParensMissing(st: State)
    requires st == Start(["blaaah"], 0, 0)
    ensures Case(st, "ca(", ["blaaah"], 0, 0, Normal)
  {
    AroundParensMissingObject();
    AroundParensMissingStart();
    NoTextObjectCase(st, ["blaaah"], 0, 0, "ca(", ChangeText, 1, true, '(', "blaaah", 0);
  }

  lemma AroundParensMissingStart()
    ensures TextStart(["blaaah"], 0, 0, "ca(", ChangeText, 1, true, '(', "blaaah", 0)
  {
    AroundParensMissingKeys();
    AroundParensMissingBefore();
  }

  lemma AroundParensMissingKeys()
    ensures ParseCommand("ca(") == Some((Operate(ChangeText, 1, Object(true, '(')), ""))
  {
  }

  lemma AroundParensMissingBefore()
    ensures LinesBreakFree(["blaaah"], 0) && Join(["blaaah"]) == "blaaah" && Offset(["blaaah"], Pos(0, 0)) == 0
  {
    AroundParensMissingBeforeJoin();
  }

  lemma AroundParensMissingBeforeJoin()
    ensures Join(["blaaah"]) == "blaaah"
  {
  }

  lemma AroundParensMissingObject()
    ensures TextObject("blaaah", 0, true, '(', 1).None?
  {
    AroundParensMissingLevel1();
  }

  lemma AroundParensMissingLevel1()
    ensures B.NthPair("blaaah", B.Delims("(", ")"), 0, 1) == None
  {
    AroundParensMissingOpen1();
  }

  lemma AroundParensMissingOpen1()
    ensures B.OpenBefore("blaaah", B.Delims("(", ")"), 0) == None
  {
    assert "blaaah" == "blaaah";
    AroundParensMissingOpen1At0();
  }

  lemma AroundParensMissingOpen1At0()
    ensures B.FindOpen("blaaah", B.Delims("(", ")"), 0, 0) == None
  {
  }

  /** `ca{` with no braces finds nothing. */
  lemma AroundBracesMissing(st: State)
    requires st == Start(["blaaah"], 0, 0)
    ensures Case(st, "ca{", ["blaaah"], 0, 0, Normal)
  {
    AroundBracesMissingObject();
    AroundBracesMissingStart();
    NoTextObjectCase(st, ["blaaah"], 0, 0, "ca{", ChangeText, 1, true, '{', "blaaah", 0);
  }

  lemma AroundBracesMissingStart()
    ensures TextStart(["blaaah"], 0, 0, "ca{", ChangeText, 1, true, '{', "blaaah", 0)
  {
    AroundBracesMissingKeys();
    AroundBracesMissingBefore();
  }

  lemma AroundBracesMissingKeys()
    ensures ParseCommand("ca{") == Some((Operate(ChangeText, 1, Object(true, '{')), ""))
  {
  }

  lemma AroundBracesMissingBefore()
    ensures LinesBreakFree(["blaaah"], 0) && Join(["blaaah"]) == "blaaah" && Offset(["blaaah"], Pos(0, 0)) == 0
  {
    AroundBracesMissingBeforeJoin();
  }

  lemma AroundBracesMissingBeforeJoin()
    ensures Join(["blaaah"]) == "blaaah"
  {
  }

  lemma AroundBracesMissingObject()
    ensures TextObject("blaaah", 0, true, '{', 1).None?
  {
    AroundBracesMissingLevel1();
  }

  lemma AroundBracesMissingLevel1()
    ensures B.NthPair("blaaah", B.Delims("{", "}"), 0, 1) == None
  {
    AroundBracesMissingOpen1();
  }

  lemma AroundBracesMissingOpen1()
    ensures B.OpenBefore("blaaah", B.Delims("{", "}"), 0) == None
  {
    assert "blaaah" == "blaaah";
    AroundBracesMissingOpen1At0();
  }

  lemma AroundBracesMissingOpen1At0()
    ensures B.FindOpen("blaaah", B.Delims("{", "}"), 0, 0) == None
  {
  }

  /** `caB` with no braces finds nothing. */
  lemma AroundBracesAliasMissing(st: State)
    requires st == Start(["blaaah"], 0, 0)
    ensures Case(st, "caB", ["blaaah"], 0, 0, Normal)
  {
    AroundBracesAliasMissingObject();
    AroundBracesAliasMissingStart();
    NoTextObjectCase(st, ["blaaah"], 0, 0, "caB", ChangeText, 1, true, 'B', "blaaah", 0);
  }

  lemma AroundBracesAliasMissingStart()
    ensures TextStart(["blaaah"], 0, 0, "caB", ChangeText, 1, true, 'B', "blaaah", 0)
  {
    AroundBracesAliasMissingKeys();
    AroundBracesAliasMissingBefore();
  }

  lemma AroundBracesAliasMissingKeys()
    ensures ParseCommand("caB") == Some((Operate(ChangeText, 1, Object(true, 'B')), ""))
  {
  }

  lemma AroundBracesAliasMissingBefore()
    ensures LinesBreakFree(["blaaah"], 0) && Join(["blaaah"]) == "blaaah" && Offset(["blaaah"], Pos(0, 0)) == 0
  {
    AroundBracesAliasMissingBeforeJoin();
  }

  lemma AroundBracesAliasMissingBeforeJoin()
    ensures Join(["blaaah"]) == "blaaah"
  {
  }

  lemma AroundBracesAliasMissingObject()
    ensures TextObject("blaaah", 0, true, 'B', 1).None?
  {
    AroundBracesAliasMissingLevel1();
  }

  lemma AroundBracesAliasMissingLevel1()
    ensures B.NthPair("blaaah", B.Delims("{", "}"), 0, 1) == None
  {
    AroundBracesAliasMissingOpen1();
  }

  lemma AroundBracesAliasMissingOpen1()
    ensures B.OpenBefore("blaaah", B.Delims("{", "}"), 0) == None
  {
    assert "blaaah" == "blaaah";
    AroundBracesAliasMissingOpen1At0();
  }

  lemma AroundBracesAliasMissingOpen1At0()
    ensures B.FindOpen("blaaah", B.Delims("{", "}"), 0, 0) == None
  {
  }

  /** `ci[` with only an empty line between the brackets changes nothing but enters Insert mode. */
  lemma ChangeBracketsEmptyLine(st: State)
    requires st == Start(["one [", "", "]"], 1, 0)
    ensures Case(st, "ci[", ["one [", "", "]"], 1, 0, Insert)
  {
    ChangeBracketsEmptyLineStart();
    ChangeBracketsEmptyLineObject();
    ChangeBracketsEmptyLineLeft();
    TextCase(st, ["one [", "", "]"], 1, 0, "ci[", ChangeText, 1, false, '[', "one [\n\n]", 6, 6, 6, ["one [", "", "]"], "one [\n\n]", 1, 0, 0);
  }

  lemma ChangeBracketsEmptyLineStart()
    ensures TextStart(["one [", "", "]"], 1, 0, "ci[", ChangeText, 1, false, '[', "one [\n\n]", 6)
  {
    ChangeBracketsEmptyLineKeys();
    ChangeBracketsEmptyLineBefore();
  }

  lemma ChangeBracketsEmptyLineLeft()
    ensures TextLeft("one [\n\n]", ChangeText, 6, 6, ["one [", "", "]"], "one [\n\n]", 1, 0, 0)
  {
    ChangeBracketsEmptyLineCut();
    ChangeBracketsEmptyLineAfter();
  }

  lemma ChangeBracketsEmptyLineKeys()
    ensures ParseCommand("ci[") == Some((Operate(ChangeText, 1, Object(false, '[')), ""))
  {
  }

  lemma ChangeBracketsEmptyLineCut()
    ensures "one [\n\n]" == "one [\n\n]"[..6] + "one [\n\n]"[6..]
  {
  }

  lemma ChangeBracketsEmptyLineAfter()
    ensures LinesBreakFree(["one [", "", "]"], 0) && Join(["one [", "", "]"]) == "one [\n\n]" && Offset(["one [", "", "]"], Pos(1, 0)) == 6
  {
    ChangeBracketsEmptyLineAfterJoin();
  }

  lemma ChangeBracketsEmptyLineAfterJoin()
    ensures Join(["one [", "", "]"]) == "one [\n\n]"
  {
    var ls := ["one [", "", "]"];
    assert ls[1..] == ["", "]"];
    assert ls[1..][1..] == ["]"];
  }

  lemma ChangeBracketsEmptyLineBefore()
    ensures LinesBreakFree(["one [", "", "]"], 0) && Join(["one [", "", "]"]) == "one [\n\n]" && Offset(["one [", "", "]"], Pos(1, 0)) == 6
  {
    ChangeBracketsEmptyLineBeforeJoin();
  }

  lemma ChangeBracketsEmptyLineBeforeJoin()
    ensures Join(["one [", "", "]"]) == "one [\n\n]"
  {
    var ls := ["one [", "", "]"];
    assert ls[1..] == ["", "]"];
    assert ls[1..][1..] == ["]"];
  }

  lemma ChangeBracketsEmptyLineObject()
    ensures TextObject("one [\n\n]", 6, false, '[', 1) == Some(B.Range(6, 6))
  {
    ChangeBracketsEmptyLineLevel1();
    ChangeBracketsEmptyLineInner();
  }

  lemma ChangeBracketsEmptyLineInner()
    ensures B.NthPair("one [\n\n]", B.Delims("[", "]"), 6, 1) == Some((4, 7)) && B.Inner("one [\n\n]", B.Delims("[", "]"), 4, 7) == B.Range(6, 6)
  {
    ChangeBracketsEmptyLineLevel1();
    ChangeBracketsEmptyLineBreak();
  }

  lemma ChangeBracketsEmptyLineBreak()
    ensures B.LastBreak("one [\n\n]", 6, 7) == Some(6)
  {
    var t := "one [\n\n]";
    assert t[6] == '\n';
  }

  lemma ChangeBracketsEmptyLineLevel1()
    ensures B.NthPair("one [\n\n]", B.Delims("[", "]"), 6, 1) == Some((4, 7))
  {
    ChangeBracketsEmptyLineOpen1();
    ChangeBracketsEmptyLineClose1();
  }

  lemma ChangeBracketsEmptyLineOpen1()
    ensures B.OpenBefore("one [\n\n]", B.Delims("[", "]"), 6) == Some(4)
  {
    assert "one [\n\n]" == "one [\n" + "\n]";
    ChangeBracketsEmptyLineOpen1At0();
  }

  lemma ChangeBracketsEmptyLineOpen1At0()
    ensures B.FindOpen("one [\n" + "\n]", B.Delims("[", "]"), 6, 0) == Some(4)
  {
    ChangeBracketsEmptyLineOpen1At1();
  }

  lemma ChangeBracketsEmptyLineOpen1At1()
    ensures B.FindOpen("one [\n" + "\n]", B.Delims("[", "]"), 5, 0) == Some(4)
  {
  }

  lemma ChangeBracketsEmptyLineClose1()
    ensures B.CloseFrom("one [\n\n]", B.Delims("[", "]"), 6) == Some(7)
  {
    assert "one [\n\n]" == "one [\n" + "\n]";
    ChangeBracketsEmptyLineClose1At0();
  }

  lemma ChangeBracketsEmptyLineClose1At0()
    ensures B.FindClose("one [\n" + "\n]", B.Delims("[", "]"), 6, 0) == Some(7)
  {
    ChangeBracketsEmptyLineClose1At1();
  }

  lemma ChangeBracketsEmptyLineClose1At1()
    ensures B.FindClose("one [\n" + "\n]", B.Delims("[", "]"), 7, 0) == Some(7)
  {
  }

  /** `ci]` inside square brackets empties them. */
  lemma ChangeBracketsOnFirst(st: State)
    requires st == Start(["one[\"two\"]"], 0, 4)
    ensures Case(st, "ci]", ["one[]"], 0, 4, Insert)
  {
    ChangeBracketsOnFirstStart();
    ChangeBracketsOnFirstObject();
    ChangeBracketsOnFirstLeft();
    TextCase(st, ["one[\"two\"]"], 0, 4, "ci]", ChangeText, 1, false, ']', "one[\"two\"]", 4, 4, 9, ["one[]"], "one[]", 0, 4, 4);
  }

  lemma ChangeBracketsOnFirstStart()
    ensures TextStart(["one[\"two\"]"], 0, 4, "ci]", ChangeText, 1, false, ']', "one[\"two\"]", 4)
  {
    ChangeBracketsOnFirstKeys();
    ChangeBracketsOnFirstBefore();
  }

  lemma ChangeBracketsOnFirstLeft()
    ensures TextLeft("one[\"two\"]", ChangeText, 4, 9, ["one[]"], "one[]", 0, 4, 4)
  {
    ChangeBracketsOnFirstCut();
    ChangeBracketsOnFirstAfter();
  }

  lemma ChangeBracketsOnFirstKeys()
    ensures ParseCommand("ci]") == Some((Operate(ChangeText, 1, Object(false, ']')), ""))
  {
  }

  lemma ChangeBracketsOnFirstCut()
    ensures "one[]" == "one[\"two\"]"[..4] + "one[\"two\"]"[9..]
  {
  }

  lemma ChangeBracketsOnFirstAfter()
    ensures LinesBreakFree(["one[]"], 0) && Join(["one[]"]) == "one[]" && Offset(["one[]"], Pos(0, 4)) == 4
  {
    ChangeBracketsOnFirstAfterJoin();
  }

  lemma ChangeBracketsOnFirstAfterJoin()
    ensures Join(["one[]"]) == "one[]"
  {
  }

  lemma ChangeBracketsOnFirstBefore()
    ensures LinesBreakFree(["one[\"two\"]"], 0) && Join(["one[\"two\"]"]) == "one[\"two\"]" && Offset(["one[\"two\"]"], Pos(0, 4)) == 4
  {
    ChangeBracketsOnFirstBeforeJoin();
  }

  lemma ChangeBracketsOnFirstBeforeJoin()
    ensures Join(["one[\"two\"]"]) == "one[\"two\"]"
  {
  }

  lemma ChangeBracketsOnFirstObject()
    ensures TextObject("one[\"two\"]", 4, false, ']', 1) == Some(B.Range(4, 9))
  {
    ChangeBracketsOnFirstLevel1();
    ChangeBracketsOnFirstInner();
  }

  lemma ChangeBracketsOnFirstInner()
    ensures B.NthPair("one[\"two\"]", B.Delims("[", "]"), 4, 1) == Some((3, 9)) && B.Inner("one[\"two\"]", B.Delims("[", "]"), 3, 9) == B.Range(4, 9)
  {
    ChangeBracketsOnFirstLevel1();
    ChangeBracketsOnFirstBreak();
  }

  lemma ChangeBracketsOnFirstBreak()
    ensures B.LastBreak("one[\"two\"]", 4, 9) == None
  {
    var t := "one[\"two\"]";
    assert t[4] == '"' && t[5] == 't' && t[6] == 'w' && t[7] == 'o';
    assert t[8] == '"';
    assert B.LastBreak("one[\"two\"]", 4, 8) == None;
  }

  lemma ChangeBracketsOnFirstLevel1()
    ensures B.NthPair("one[\"two\"]", B.Delims("[", "]"), 4, 1) == Some((3, 9))
  {
    ChangeBracketsOnFirstOpen1();
    ChangeBracketsOnFirstClose1();
  }

  lemma ChangeBracketsOnFirstOpen1()
    ensures B.OpenBefore("one[\"two\"]", B.Delims("[", "]"), 4) == Some(3)
  {
    assert "one[\"two\"]" == "one[\"t" + "wo\"]";
    ChangeBracketsOnFirstOpen1At0();
  }

  lemma ChangeBracketsOnFirstOpen1At0()
    ensures B.FindOpen("one[\"t" + "wo\"]", B.Delims("[", "]"), 4, 0) == Some(3)
  {
  }

  lemma ChangeBracketsOnFirstClose1()
    ensures B.CloseFrom("one[\"two\"]", B.Delims("[", "]"), 4) == Some(9)
  {
    assert "one[\"two\"]" == "one[\"t" + "wo\"]";
    ChangeBracketsOnFirstClose1At0();
  }

  lemma ChangeBracketsOnFirstClose1At0()
    ensures B.FindClose("one[\"t" + "wo\"]", B.Delims("[", "]"), 4, 0) == Some(9)
  {
    ChangeBracketsOnFirstClose1At1();
  }

  lemma ChangeBracketsOnFirstClose1At1()
    ensures B.FindClose("one[\"t" + "wo\"]", B.Delims("[", "]"), 6, 0) == Some(9)
  {
    ChangeBracketsOnFirstClose1At2();
  }

  lemma ChangeBracketsOnFirstClose1At2()
    ensures B.FindClose("one[\"t" + "wo\"]", B.Delims("[", "]"), 8, 0) == Some(9)
  {
    ChangeBracketsOnFirstClose1At3();
  }

  lemma ChangeBracketsOnFirstClose1At3()
    ensures B.FindClose("one[\"t" + "wo\"]", B.Delims("[", "]"), 9, 0) == Some(9)
  {
  }

  /** `ca[` takes the square brackets too. */
  lemma AroundBracketsOpen(st: State)
    requires st == Start(["one[\"two\"]"], 0, 4)
    ensures Case(st, "ca[", ["one"], 0, 3, Insert)
  {
    AroundBracketsOpenStart();
    AroundBracketsOpenObject();
    AroundBracketsOpenLeft();
    TextCase(st, ["one[\"two\"]"], 0, 4, "ca[", ChangeText, 1, true, '[', "one[\"two\"]", 4, 3, 10, ["one"], "one", 0, 3, 3);
  }

  lemma AroundBracketsOpenStart()
    ensures TextStart(["one[\"two\"]"], 0, 4, "ca[", ChangeText, 1, true, '[', "one[\"two\"]", 4)
  {
    AroundBracketsOpenKeys();
    AroundBracketsOpenBefore();
  }

  lemma AroundBracketsOpenLeft()
    ensures TextLeft("one[\"two\"]", ChangeText, 3, 10, ["one"], "one", 0, 3, 3)
  {
    AroundBracketsOpenCut();
    AroundBracketsOpenAfter();
  }

  lemma AroundBracketsOpenKeys()
    ensures ParseCommand("ca[") == Some((Operate(ChangeText, 1, Object(true, '[')), ""))
  {
  }

  lemma AroundBracketsOpenCut()
    ensures "one" == "one[\"two\"]"[..3] + "one[\"two\"]"[10..]
  {
  }

  lemma AroundBracketsOpenAfter()
    ensures LinesBreakFree(["one"], 0) && Join(["one"]) == "one" && Offset(["one"], Pos(0, 3)) == 3
  {
    AroundBracketsOpenAfterJoin();
  }

  lemma AroundBracketsOpenAfterJoin()
    ensures Join(["one"]) == "one"
  {
  }

  lemma AroundBracketsOpenBefore()
    ensures LinesBreakFree(["one[\"two\"]"], 0) && Join(["one[\"two\"]"]) == "one[\"two\"]" && Offset(["one[\"two\"]"], Pos(0, 4)) == 4
  {
    AroundBracketsOpenBeforeJoin();
  }

  lemma AroundBracketsOpenBeforeJoin()
    ensures Join(["one[\"two\"]"]) == "one[\"two\"]"
  {
  }

  lemma AroundBracketsOpenObject()
    ensures TextObject("one[\"two\"]", 4, true, '[', 1) == Some(B.Range(3, 10))
  {
    AroundBracketsOpenLevel1();
  }

  lemma AroundBracketsOpenLevel1()
    ensures B.NthPair("one[\"two\"]", B.Delims("[", "]"), 4, 1) == Some((3, 9))
  {
    AroundBracketsOpenOpen1();
    AroundBracketsOpenClose1();
  }

  lemma AroundBracketsOpenOpen1()
    ensures B.OpenBefore("one[\"two\"]", B.Delims("[", "]"), 4) == Some(3)
  {
    assert "one[\"two\"]" == "one[\"t" + "wo\"]";
    AroundBracketsOpenOpen1At0();
  }

  lemma AroundBracketsOpenOpen1At0()
    ensures B.FindOpen("one[\"t" + "wo\"]", B.Delims("[", "]"), 4, 0) == Some(3)
  {
  }

  lemma AroundBracketsOpenClose1()
    ensures B.CloseFrom("one[\"two\"]", B.Delims("[", "]"), 4) == Some(9)
  {
    assert "one[\"two\"]" == "one[\"t" + "wo\"]";
    AroundBracketsOpenClose1At0();
  }

  lemma AroundBracketsOpenClose1At0()
    ensures B.FindClose("one[\"t" + "wo\"]", B.Delims("[", "]"), 4, 0) == Some(9)
  {
    AroundBracketsOpenClose1At1();
  }

  lemma AroundBracketsOpenClose1At1()
    ensures B.FindClose("one[\"t" + "wo\"]", B.Delims("[", "]"), 6, 0) == Some(9)
  {
    AroundBracketsOpenClose1At2();
  }

  lemma AroundBracketsOpenClose1At2()
    ensures B.FindClose("one[\"t" + "wo\"]", B.Delims("[", "]"), 8, 0) == Some(9)
  {
    AroundBracketsOpenClose1At3();
  }

  lemma AroundBracketsOpenClose1At3()
    ensures B.FindClose("one[\"t" + "wo\"]", B.Delims("[", "]"), 9, 0) == Some(9)
  {
  }

  /** `ca]` is `ca[`. */
  lemma AroundBracketsClose(st: State)
    requires st == Start(["one[\"two\"]"], 0, 4)
    ensures Case(st, "ca]", ["one"], 0, 3, Insert)
  {
    AroundBracketsCloseStart();
    AroundBracketsCloseObject();
    AroundBracketsCloseLeft();
    TextCase(st, ["one[\"two\"]"], 0, 4, "ca]", ChangeText, 1, true, ']', "one[\"two\"]", 4, 3, 10, ["one"], "one", 0, 3, 3);
  }

  lemma AroundBracketsCloseStart()
    ensures TextStart(["one[\"two\"]"], 0, 4, "ca]", ChangeText, 1, true, ']', "one[\"two\"]", 4)
  {
    AroundBracketsCloseKeys();
    AroundBracketsCloseBefore();
  }

  lemma AroundBracketsCloseLeft()
    ensures TextLeft("one[\"two\"]", ChangeText, 3, 10, ["one"], "one", 0, 3, 3)
  {
    AroundBracketsCloseCut();
    AroundBracketsCloseAfter();
  }

  lemma AroundBracketsCloseKeys()
    ensures ParseCommand("ca]") == Some((Operate(ChangeText, 1, Object(true, ']')), ""))
  {
  }

  lemma AroundBracketsCloseCut()
    ensures "one" == "one[\"two\"]"[..3] + "one[\"two\"]"[10..]
  {
  }

  lemma AroundBracketsCloseAfter()
    ensures LinesBreakFree(["one"], 0) && Join(["one"]) == "one" && Offset(["one"], Pos(0, 3)) == 3
  {
    AroundBracketsCloseAfterJoin();
  }

  lemma AroundBracketsCloseAfterJoin()
    ensures Join(["one"]) == "one"
  {
  }

  lemma AroundBracketsCloseBefore()
    ensures LinesBreakFree(["one[\"two\"]"], 0) && Join(["one[\"two\"]"]) == "one[\"two\"]" && Offset(["one[\"two\"]"], Pos(0, 4)) == 4
  {
    AroundBracketsCloseBeforeJoin();
  }

  lemma AroundBracketsCloseBeforeJoin()
    ensures Join(["one[\"two\"]"]) == "one[\"two\"]"
  {
  }

  lemma AroundBracketsCloseObject()
    ensures TextObject("one[\"two\"]", 4, true, ']', 1) == Some(B.Range(3, 10))
  {
    AroundBracketsCloseLevel1();
  }

  lemma AroundBracketsCloseLevel1()
    ensures B.NthPair("one[\"two\"]", B.Delims("[", "]"), 4, 1) == Some((3, 9))
  {
    AroundBracketsCloseOpen1();
    AroundBracketsCloseClose1();
  }

  lemma AroundBracketsCloseOpen1()
    ensures B.OpenBefore("one[\"two\"]", B.Delims("[", "]"), 4) == Some(3)
  {
    assert "one[\"two\"]" == "one[\"t" + "wo\"]";
    AroundBracketsCloseOpen1At0();
  }

  lemma AroundBracketsCloseOpen1At0()
    ensures B.FindOpen("one[\"t" + "wo\"]", B.Delims("[", "]"), 4, 0) == Some(3)
  {
  }

  lemma AroundBracketsCloseClose1()
    ensures B.CloseFrom("one[\"two\"]", B.Delims("[", "]"), 4) == Some(9)
  {
    assert "one[\"two\"]" == "one[\"t" + "wo\"]";
    AroundBracketsCloseClose1At0();
  }

  lemma AroundBracketsCloseClose1At0()
    ensures B.FindClose("one[\"t" + "wo\"]", B.Delims("[", "]"), 4, 0) == Some(9)
  {
    AroundBracketsCloseClose1At1();
  }

  lemma AroundBracketsCloseClose1At1()
    ensures B.FindClose("one[\"t" + "wo\"]", B.Delims("[", "]"), 6, 0) == Some(9)
  {
    AroundBracketsCloseClose1At2();
  }

  lemma AroundBracketsCloseClose1At2()
    ensures B.FindClose("one[\"t" + "wo\"]", B.Delims("[", "]"), 8, 0) == Some(9)
  {
    AroundBracketsCloseClose1At3();
  }

  lemma AroundBracketsCloseClose1At3()
    ensures B.FindClose("one[\"t" + "wo\"]", B.Delims("[", "]"), 9, 0) == Some(9)
  {
  }

}
