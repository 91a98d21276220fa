/**
 * The repository's test cases for the linewise commands `[count]dd`,
 * `d[count]d`, `d[count]-`, `[count]Y`, `yy` and `p`, and for deleting up
 * to a search match, as lemmas: from the start buffer and cursor, the keys
 * leave the end buffer and cursor in Normal mode. Each case's facts about
 * the parse and the command's result are lemmas of their own.
 */
module LineCases {
  import opened Wrappers
  import opened Buffer
  import opened Keys
  import opened Session
  import opened Scenario
  import L = LineCommands
  import M = Motions

  /** `dd` on the last line: the line above becomes the last line, the cursor on it. */
  lemma DeleteLastLine(st: State)
    requires st == Start(["one", "two"], 1, 0)
    ensures Case(st, "dd", ["one"], 0, 0, Normal)
  {
    StartValid(["one", "two"], 1, 0);
    DeleteLastLineParse();
    DeleteLastLineDelete();
    var d := L.Deleted(["one"], Pos(0, 0), ["two"]);
    DeleteStep(st, "dd", 1, "", d);
    var next := State(d.lines, d.cursor, Normal, Linewise(d.removed));
    Finish(st, "dd", next);
  }

  lemma DeleteLastLineParse()
    ensures ParseCommand("dd") == Some((Operate(Delete, 1, WholeLines), ""))
  {
  }

  lemma DeleteLastLineDelete()
    ensures L.DeleteLines(["one", "two"], 1, 1) == L.Deleted(["one"], Pos(0, 0), ["two"])
  {
    BufferOk(["one", "two"]);
  }

  /** `dd` on the only line leaves one empty line. */
  lemma DeleteOnlyLine(st: State)
    requires st == Start(["one"], 0, 0)
    ensures Case(st, "dd", [""], 0, 0, Normal)
  {
    StartValid(["one"], 0, 0);
    DeleteOnlyLineParse();
    DeleteOnlyLineDelete();
    var d := L.Deleted([""], Pos(0, 0), ["one"]);
    DeleteStep(st, "dd", 1, "", d);
    var next := State(d.lines, d.cursor, Normal, Linewise(d.removed));
    Finish(st, "dd", next);
  }

  lemma DeleteOnlyLineParse()
    ensures ParseCommand("dd") == Some((Operate(Delete, 1, WholeLines), ""))
  {
  }

  lemma DeleteOnlyLineDelete()
    ensures L.DeleteLines(["one"], 0, 1) == L.Deleted([""], Pos(0, 0), ["one"])
  {
    BufferOk(["one"]);
  }

  /** `dd` on the first line: the next line moves up under the cursor. */
  lemma DeleteFirstLine(st: State)
    requires st == Start(["one", "two"], 0, 0)
    ensures Case(st, "dd", ["two"], 0, 0, Normal)
  {
    StartValid(["one", "two"], 0, 0);
    DeleteFirstLineParse();
    DeleteFirstLineDelete();
    var d := L.Deleted(["two"], Pos(0, 0), ["one"]);
    DeleteStep(st, "dd", 1, "", d);
    var next := State(d.lines, d.cursor, Normal, Linewise(d.removed));
    Finish(st, "dd", next);
  }

  lemma DeleteFirstLineParse()
    ensures ParseCommand("dd") == Some((Operate(Delete, 1, WholeLines), ""))
  {
  }

  lemma DeleteFirstLineDelete()
    ensures L.DeleteLines(["one", "two"], 0, 1) == L.Deleted(["two"], Pos(0, 0), ["one"])
  {
    BufferOk(["one", "two"]);
  }

  /** `3dd` removes the cursor's line and the two below it. */
  lemma DeleteThreeLines(st: State)
    requires st == Start(["one", "two", "three", "four", "five"], 0, 0)
    ensures Case(st, "3dd", ["four", "five"], 0, 0, Normal)
  {
    StartValid(["one", "two", "three", "four", "five"], 0, 0);
    DeleteThreeLinesParse();
    DeleteThreeLinesDelete();
    var d := L.Deleted(["four", "five"], Pos(0, 0), ["one", "two", "three"]);
    DeleteStep(st, "3dd", 3, "", d);
    var next := State(d.lines, d.cursor, Normal, Linewise(d.removed));
    Finish(st, "3dd", next);
  }

  lemma DeleteThreeLinesParse()
    ensures ParseCommand("3dd") == Some((Operate(Delete, 3, WholeLines), ""))
  {
  }

  lemma DeleteThreeLinesDelete()
    ensures L.DeleteLines(["one", "two", "three", "four", "five"], 0, 3) == L.Deleted(["four", "five"], Pos(0, 0), ["one", "two", "three"])
  {
    BufferOk(["one", "two", "three", "four", "five"]);
  }

  /** `3dd` with two lines left removes those two; the cursor goes to the new last line. */
  lemma DeleteThreePastEnd(st: State)
    requires st == Start(["one", "two", "three", "four", "five"], 3, 0)
    ensures Case(st, "3dd", ["one", "two", "three"], 2, 0, Normal)
  {
    StartValid(["one", "two", "three", "four", "five"], 3, 0);
    DeleteThreePastEndParse();
    DeleteThreePastEndDelete();
    var d := L.Deleted(["one", "two", "three"], Pos(2, 0), ["four", "five"]);
    DeleteStep(st, "3dd", 3, "", d);
    var next := State(d.lines, d.cursor, Normal, Linewise(d.removed));
    Finish(st, "3dd", next);
  }

  lemma DeleteThreePastEndParse()
    ensures ParseCommand("3dd") == Some((Operate(Delete, 3, WholeLines), ""))
  {
  }

  lemma DeleteThreePastEndDelete()
    ensures L.DeleteLines(["one", "two", "three", "four", "five"], 3, 3) == L.Deleted(["one", "two", "three"], Pos(2, 0), ["four", "five"])
  {
    BufferOk(["one", "two", "three", "four", "five"]);
  }

  /** `d2d`: a count after the operator counts lines as one before it does. */
  lemma DeleteCountAfterOperator(st: State)
    requires st == Start(["one", "two", "three", "four", "five"], 2, 0)
    ensures Case(st, "d2d", ["one", "two", "five"], 2, 0, Normal)
  {
    StartValid(["one", "two", "three", "four", "five"], 2, 0);
    DeleteCountAfterOperatorParse();
    DeleteCountAfterOperatorDelete();
    var d := L.Deleted(["one", "two", "five"], Pos(2, 0), ["three", "four"]);
    DeleteStep(st, "d2d", 2, "", d);
    var next := State(d.lines, d.cursor, Normal, Linewise(d.removed));
    Finish(st, "d2d", next);
  }

  lemma DeleteCountAfterOperatorParse()
    ensures ParseCommand("d2d") == Some((Operate(Delete, 2, WholeLines), ""))
  {
  }

  lemma DeleteCountAfterOperatorDelete()
    ensures L.DeleteLines(["one", "two", "three", "four", "five"], 2, 2) == L.Deleted(["one", "two", "five"], Pos(2, 0), ["three", "four"])
  {
    BufferOk(["one", "two", "three", "four", "five"]);
  }

  /** `dd` on an empty line between two others. */
  lemma DeleteEmptyLine(st: State)
    requires st == Start(["one", "", "two"], 1, 0)
    ensures Case(st, "dd", ["one", "two"], 1, 0, Normal)
  {
    StartValid(["one", "", "two"], 1, 0);
    DeleteEmptyLineParse();
    DeleteEmptyLineDelete();
    var d := L.Deleted(["one", "two"], Pos(1, 0), [""]);
    DeleteStep(st, "dd", 1, "", d);
    var next := State(d.lines, d.cursor, Normal, Linewise(d.removed));
    Finish(st, "dd", next);
  }

  lemma DeleteEmptyLineParse()
    ensures ParseCommand("dd") == Some((Operate(Delete, 1, WholeLines), ""))
  {
  }

  lemma DeleteEmptyLineDelete()
    ensures L.DeleteLines(["one", "", "two"], 1, 1) == L.Deleted(["one", "two"], Pos(1, 0), [""])
  {
    BufferOk(["one", "", "two"]);
  }

  /** `ddp` on the first of two lines swaps them, the cursor on the put line. */
  lemma DeleteThenPut(st: State)
    requires st == Start(["one", "two"], 0, 0)
    ensures Case(st, "ddp", ["two", "one"], 1, 0, Normal)
  {
    StartValid(["one", "two"], 0, 0);
    DeleteThenPutParse();
    DeleteThenPutDelete();
    var d := L.Deleted(["two"], Pos(0, 0), ["one"]);
    DeleteStep(st, "ddp", 1, "p", d);
    var next := State(d.lines, d.cursor, Normal, Linewise(d.removed));
    DeleteThenPutPut();
    PutStep(next, "p", true, 1, "", ["two", "one"], Pos(1, 0));
    Finish(st, "ddp", State(["two", "one"], Pos(1, 0), Normal, Linewise(["one"])));
  }

  lemma DeleteThenPutParse()
    ensures ParseCommand("ddp") == Some((Operate(Delete, 1, WholeLines), "p"))
    ensures ParseCommand("p") == Some((Put(true, 1), ""))
  {
  }

  lemma DeleteThenPutDelete()
    ensures L.DeleteLines(["one", "two"], 0, 1) == L.Deleted(["two"], Pos(0, 0), ["one"])
  {
    BufferOk(["one", "two"]);
  }

  lemma DeleteThenPutPut()
    ensures L.PutLines(["two"], 0, ["one"], true, 1) == (["two", "one"], Pos(1, 0))
  {
    BufferOk(["two"]);
    BufferOk(["one"]);
    assert FirstNonBlank("one") == 0;
    PutBelowOnce(["two"], 0, ["one"], ["two", "one"], Pos(1, 0));
  }

  /** `yy` changes neither the buffer nor the cursor. */
  lemma YankKeepsCursor(st: State)
    requires st == Start(["one", "two"], 1, 2)
    ensures Case(st, "yy", ["one", "two"], 1, 2, Normal)
  {
    StartValid(["one", "two"], 1, 2);
    YankKeepsCursorParse();
    YankKeepsCursorYank();
    YankStep(st, "yy", 1, "", ["two"]);
    var next := State(st.lines, st.cursor, Normal, Linewise(["two"]));
    Finish(st, "yy", next);
  }

  lemma YankKeepsCursorParse()
    ensures ParseCommand("yy") == Some((Operate(YankText, 1, WholeLines), ""))
  {
  }

  lemma YankKeepsCursorYank()
    ensures L.Yank(["one", "two"], 1, 1) == ["two"]
  {
  }

  /** `d3-` removes the cursor's line and the three above it. */
  lemma DeleteLinesUp(st: State)
    requires st == Start(["one", "two", "three", "four", "five", "six", "seven"], 5, 1)
    ensures Case(st, "d3-", ["one", "two", "seven"], 2, 0, Normal)
  {
    StartValid(["one", "two", "three", "four", "five", "six", "seven"], 5, 1);
    DeleteLinesUpParse();
    DeleteLinesUpDelete();
    var d := L.Deleted(["one", "two", "seven"], Pos(2, 0), ["three", "four", "five", "six"]);
    DeleteUpStep(st, "d3-", 3, "", 2, d);
    Finish(st, "d3-", State(d.lines, d.cursor, Normal, Linewise(d.removed)));
  }

  lemma DeleteLinesUpParse()
    ensures ParseCommand("d3-") == Some((Operate(Delete, 3, LinesUp), ""))
  {
  }

  lemma DeleteLinesUpDelete()
    ensures L.DeleteLines(["one", "two", "three", "four", "five", "six", "seven"], 2, 4) == L.Deleted(["one", "two", "seven"], Pos(2, 0), ["three", "four", "five", "six"])
  {
    BufferOk(["one", "two", "three", "four", "five", "six", "seven"]);
  }

  /** `Yp` duplicates the line below it, the cursor on the copy. */
  lemma YankThenPut(st: State)
    requires st == Start(["blah blah"], 0, 0)
    ensures Case(st, "Yp", ["blah blah", "blah blah"], 1, 0, Normal)
  {
    StartValid(["blah blah"], 0, 0);
    YankThenPutParse();
    YankThenPutYank();
    YankStep(st, "Yp", 1, "p", ["blah blah"]);
    var next := State(st.lines, st.cursor, Normal, Linewise(["blah blah"]));
    YankThenPutPut();
    PutStep(next, "p", true, 1, "", ["blah blah", "blah blah"], Pos(1, 0));
    Finish(st, "Yp", State(["blah blah", "blah blah"], Pos(1, 0), Normal, Linewise(["blah blah"])));
  }

  lemma YankThenPutParse()
    ensures ParseCommand("Yp") == Some((Operate(YankText, 1, WholeLines), "p"))
    ensures ParseCommand("p") == Some((Put(true, 1), ""))
  {
  }

  lemma YankThenPutYank()
    ensures L.Yank(["blah blah"], 0, 1) == ["blah blah"]
  {
  }

  lemma YankThenPutPut()
    ensures L.PutLines(["blah blah"], 0, ["blah blah"], true, 1) == (["blah blah", "blah blah"], Pos(1, 0))
  {
    BufferOk(["blah blah"]);
    BufferOk(["blah blah"]);
    assert FirstNonBlank("blah blah") == 0;
    PutBelowOnce(["blah blah"], 0, ["blah blah"], ["blah blah", "blah blah"], Pos(1, 0));
  }

  /** `2Yp` puts the two yanked lines below the cursor's line. */
  lemma YankTwoThenPut(st: State)
    requires st == Start(["one", "two", "three"], 0, 0)
    ensures Case(st, "2Yp", ["one", "one", "two", "two", "three"], 1, 0, Normal)
  {
    StartValid(["one", "two", "three"], 0, 0);
    YankTwoThenPutParse();
    YankTwoThenPutYank();
    YankStep(st, "2Yp", 2, "p", ["one", "two"]);
    var next := State(st.lines, st.cursor, Normal, Linewise(["one", "two"]));
    YankTwoThenPutPut();
    PutStep(next, "p", true, 1, "", ["one", "one", "two", "two", "three"], Pos(1, 0));
    Finish(st, "2Yp", State(["one", "one", "two", "two", "three"], Pos(1, 0), Normal, Linewise(["one", "two"])));
  }

  lemma YankTwoThenPutParse()
    ensures ParseCommand("2Yp") == Some((Operate(YankText, 2, WholeLines), "p"))
    ensures ParseCommand("p") == Some((Put(true, 1), ""))
  {
  }

  lemma YankTwoThenPutYank()
    ensures L.Yank(["one", "two", "three"], 0, 2) == ["one", "two"]
  {
  }

  lemma YankTwoThenPutPut()
    ensures L.PutLines(["one", "two", "three"], 0, ["one", "two"], true, 1) == (["one", "one", "two", "two", "three"], Pos(1, 0))
  {
    BufferOk(["one", "two", "three"]);
    BufferOk(["one", "two"]);
    assert FirstNonBlank("one") == 0;
    PutBelowOnce(["one", "two", "three"], 0, ["one", "two"], ["one", "one", "two", "two", "three"], Pos(1, 0));
  }

  /** `100Yp` yanks only the lines there are. */
  lemma YankPastEndThenPut(st: State)
    requires st == Start(["one", "two", "three"], 0, 0)
    ensures Case(st, "100Yp", ["one", "one", "two", "three", "two", "three"], 1, 0, Normal)
  {
    StartValid(["one", "two", "three"], 0, 0);
    YankPastEndThenPutParse();
    YankPastEndThenPutYank();
    YankStep(st, "100Yp", 100, "p", ["one", "two", "three"]);
    var next := State(st.lines, st.cursor, Normal, Linewise(["one", "two", "three"]));
    YankPastEndThenPutPut();
    PutStep(next, "p", true, 1, "", ["one", "one", "two", "three", "two", "three"], Pos(1, 0));
    Finish(st, "100Yp", State(["one", "one", "two", "three", "two", "three"], Pos(1, 0), Normal, Linewise(["one", "two", "three"])));
  }

  lemma YankPastEndThenPutParse()
    ensures ParseCommand("100Yp") == Some((Operate(YankText, 100, WholeLines), "p"))
    ensures ParseCommand("p") == Some((Put(true, 1), ""))
  {
  }

  lemma YankPastEndThenPutYank()
    ensures L.Yank(["one", "two", "three"], 0, 100) == ["one", "two", "three"]
  {
  }

  lemma YankPastEndThenPutPut()
    ensures L.PutLines(["one", "two", "three"], 0, ["one", "two", "three"], true, 1) == (["one", "one", "two", "three", "two", "three"], Pos(1, 0))
  {
    BufferOk(["one", "two", "three"]);
    BufferOk(["one", "two", "three"]);
    assert FirstNonBlank("one") == 0;
    PutBelowOnce(["one", "two", "three"], 0, ["one", "two", "three"], ["one", "one", "two", "three", "two", "three"], Pos(1, 0));
  }

  /** `d/four` deletes up to the match. */
  lemma DeleteToSearch(st: State)
    requires st == Start(["one two three four"], 0, 4)
    ensures Case(st, "d/four\n", ["one four"], 0, 4, Normal)
  {
    var s, keys, pat, s2 := "one two three four", "d/four\n", "four", "one four";
    DeleteToSearchParse(keys, pat);
    DeleteToSearchSearch(s);
    DeleteToSearchCut(s, s2);
    SearchCase(st, s, 4, keys, Delete, 1, pat, 14, s2, 4);
  }

  lemma DeleteToSearchCut(s: string, s2: string)
    requires s == "one two three four" && s2 == "one four"
    ensures s2 == s[..4] + s[14..] && NormalCol(s2, 4) == 4 && 14 <= |s| && '\n' !in s
  {
  }

  lemma DeleteToSearchParse(keys: string, pat: string)
    requires keys == "d/four\n" && pat == "four"
    ensures ParseCommand(keys) == Some((Operate(Delete, 1, Search(pat)), ""))
  {
    var tail := "/" + pat + "\n";
    assert keys == ['d'] + tail;
    OperatorFirst('d', tail);
    SearchKeys('d', 1, pat);
  }

  lemma DeleteToSearchSearch(t: string)
    requires t == "one two three four"
    ensures M.SearchForward(t, "four", 4, 1) == Some(14)
  {
    DeleteToSearchStep1(t);
    SearchStep(t, "four", 4, 14, 1);
  }

  lemma DeleteToSearchStep1(t: string)
    requires t == "one two three four"
    ensures M.NextAfter(t, "four", 4, 14)
  {
    NextOccurrence(t, "four", 4, 14);
  }

  /** `3d/two` deletes up to the third match after the cursor. */
  lemma DeleteToThirdMatchCountFirst(st: State)
    requires st == Start(["one two two two two"], 0, 4)
    ensures Case(st, "3d/two\n", ["one two"], 0, 4, Normal)
  {
    var s, keys, pat, s2 := "one two two two two", "3d/two\n", "two", "one two";
    DeleteToThirdMatchCountFirstParse(keys, pat);
    DeleteToThirdMatchCountFirstSearch(s);
    DeleteToThirdMatchCountFirstCut(s, s2);
    SearchCase(st, s, 4, keys, Delete, 3, pat, 16, s2, 4);
  }

  lemma DeleteToThirdMatchCountFirstCut(s: string, s2: string)
    requires s == "one two two two two" && s2 == "one two"
    ensures s2 == s[..4] + s[16..] && NormalCol(s2, 4) == 4 && 16 <= |s| && '\n' !in s
  {
  }

  lemma DeleteToThirdMatchCountFirstParse(keys: string, pat: string)
    requires keys == "3d/two\n" && pat == "two"
    ensures ParseCommand(keys) == Some((Operate(Delete, 3, Search(pat)), ""))
  {
    var tail := "/" + pat + "\n";
    assert keys == CountKeys(3) + ['d'] + tail;
    CountThenOperator('d', 3, tail);
    SearchKeys('d', 3, pat);
  }

  lemma DeleteToThirdMatchCountFirstSearch(t: string)
    requires t == "one two two two two"
    ensures M.SearchForward(t, "two", 4, 3) == Some(16)
  {
    DeleteToThirdMatchCountFirstStep1(t);
    SearchStep(t, "two", 4, 8, 3);
    DeleteToThirdMatchCountFirstStep2(t);
    SearchStep(t, "two", 8, 12, 2);
    DeleteToThirdMatchCountFirstStep3(t);
    SearchStep(t, "two", 12, 16, 1);
  }

  lemma DeleteToThirdMatchCountFirstStep1(t: string)
    requires t == "one two two two two"
    ensures M.NextAfter(t, "two", 4, 8)
  {
    NextOccurrence(t, "two", 4, 8);
  }

  lemma DeleteToThirdMatchCountFirstStep2(t: string)
    requires t == "one two two two two"
    ensures M.NextAfter(t, "two", 8, 12)
  {
    NextOccurrence(t, "two", 8, 12);
  }

  lemma DeleteToThirdMatchCountFirstStep3(t: string)
    requires t == "one two two two two"
    ensures M.NextAfter(t, "two", 12, 16)
  {
    NextOccurrence(t, "two", 12, 16);
  }

  /** `d3/two`: the count after the operator works the same way. */
  lemma DeleteToThirdMatchCountInside(st: State)
    requires st == Start(["one two two two two"], 0, 4)
    ensures Case(st, "d3/two\n", ["one two"], 0, 4, Normal)
  {
    var s, keys, pat, s2 := "one two two two two", "d3/two\n", "two", "one two";
    DeleteToThirdMatchCountInsideParse(keys, pat);
    DeleteToThirdMatchCountInsideSearch(s);
    DeleteToThirdMatchCountInsideCut(s, s2);
    SearchCase(st, s, 4, keys, Delete, 3, pat, 16, s2, 4);
  }

  lemma DeleteToThirdMatchCountInsideCut(s: string, s2: string)
    requires s == "one two two two two" && s2 == "one two"
    ensures s2 == s[..4] + s[16..] && NormalCol(s2, 4) == 4 && 16 <= |s| && '\n' !in s
  {
  }

  lemma DeleteToThirdMatchCountInsideParse(keys: string, pat: string)
    requires keys == "d3/two\n" && pat == "two"
    ensures ParseCommand(keys) == Some((Operate(Delete, 3, Search(pat)), ""))
  {
    var tail := "/" + pat + "\n";
    assert keys == ['d'] + (CountKeys(3) + tail);
    OperatorFirst('d', CountKeys(3) + tail);
    OperandMoves('d', 3, tail);
    SearchKeys('d', 3, pat);
  }

  lemma DeleteToThirdMatchCountInsideSearch(t: string)
    requires t == "one two two two two"
    ensures M.SearchForward(t, "two", 4, 3) == Some(16)
  {
    DeleteToThirdMatchCountInsideStep1(t);
    SearchStep(t, "two", 4, 8, 3);
    DeleteToThirdMatchCountInsideStep2(t);
    SearchStep(t, "two", 8, 12, 2);
    DeleteToThirdMatchCountInsideStep3(t);
    SearchStep(t, "two", 12, 16, 1);
  }

  lemma DeleteToThirdMatchCountInsideStep1(t: string)
    requires t == "one two two two two"
    ensures M.NextAfter(t, "two", 4, 8)
  {
    NextOccurrence(t, "two", 4, 8);
  }

  lemma DeleteToThirdMatchCountInsideStep2(t: string)
    requires t == "one two two two two"
    ensures M.NextAfter(t, "two", 8, 12)
  {
    NextOccurrence(t, "two", 8, 12);
  }

  lemma DeleteToThirdMatchCountInsideStep3(t: string)
    requires t == "one two two two two"
    ensures M.NextAfter(t, "two", 12, 16)
  {
    NextOccurrence(t, "two", 12, 16);
  }

  /** `d/bar` deletes the words before the match. */
  lemma DeleteToSearchForward(st: State)
    requires st == Start(["foo junk junk bar"], 0, 4)
    ensures Case(st, "d/bar\n", ["foo bar"], 0, 4, Normal)
  {
    var s, keys, pat, s2 := "foo junk junk bar", "d/bar\n", "bar", "foo bar";
    DeleteToSearchForwardParse(keys, pat);
    DeleteToSearchForwardSearch(s);
    DeleteToSearchForwardCut(s, s2);
    SearchCase(st, s, 4, keys, Delete, 1, pat, 14, s2, 4);
  }

  lemma DeleteToSearchForwardCut(s: string, s2: string)
    requires s == "foo junk junk bar" && s2 == "foo bar"
    ensures s2 == s[..4] + s[14..] && NormalCol(s2, 4) == 4 && 14 <= |s| && '\n' !in s
  {
  }

  lemma DeleteToSearchForwardParse(keys: string, pat: string)
    requires keys == "d/bar\n" && pat == "bar"
    ensures ParseCommand(keys) == Some((Operate(Delete, 1, Search(pat)), ""))
  {
    var tail := "/" + pat + "\n";
    assert keys == ['d'] + tail;
    OperatorFirst('d', tail);
    SearchKeys('d', 1, pat);
  }

  lemma DeleteToSearchForwardSearch(t: string)
    requires t == "foo junk junk bar"
    ensures M.SearchForward(t, "bar", 4, 1) == Some(14)
  {
    DeleteToSearchForwardStep1(t);
    SearchStep(t, "bar", 4, 14, 1);
  }

  lemma DeleteToSearchForwardStep1(t: string)
    requires t == "foo junk junk bar"
    ensures M.NextAfter(t, "bar", 4, 14)
  {
    NextOccurrence(t, "bar", 4, 14);
  }

}
