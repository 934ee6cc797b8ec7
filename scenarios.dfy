/** Small worked inputs for PR_maker, checked against the model. */
module Scenarios {
  import opened Wrappers
  import opened Decimal
  import opened LineParser
  import opened AnnotationSpec

  /** Reading "x y" where x and y are single digits. */
  lemma ReadSingleDigits(line: string, x: nat, y: nat)
    requires x < 10 && y < 10
    requires line == [DigitChar(x), ' ', DigitChar(y)]
    ensures ReadLineIndices(line) == Ok(Edge(x, y))
  {
    assert line[1..] == [' ', DigitChar(y)];
    assert DigitRun(line[1..]) == 0;
    assert DigitRun(line) == 1;
    assert line[..1] == [DigitChar(x)];
    assert DigitsValue(line[..1]) == x by {
      assert line[..1][..0] == [];
    }
    var rest := line[2..];
    assert rest == [DigitChar(y)];
    assert DigitRun(rest[1..]) == 0;
    assert DigitRun(rest) == 1;
    assert rest[..1] == rest;
    assert DigitsValue(rest) == y by {
      assert rest[..0] == [];
    }
  }

  /** Pass 1 over two data lines, unfolded. */
  lemma TwoDataLinesCounted(l0: string, l1: string, e0: Edge, e1: Edge, undirected: bool)
    requires IsDataLine(l0) && ReadLineIndices(l0) == Ok(e0)
    requires IsDataLine(l1) && ReadLineIndices(l1) == Ok(e1)
    ensures Degrees([l0, l1], undirected) == Counted(Counted(map[], e0, undirected), e1, undirected)
  {
    var lines := [l0, l1];
    assert lines[0..] == lines && lines[2..] == [];
    TallyStep(map[], lines, 0, undirected);
    TallyStep(Counted(map[], e0, undirected), lines, 1, undirected);
  }

  /** Pass 2 over two data lines, unfolded. */
  lemma TwoDataLinesAnnotated(l0: string, l1: string, e0: Edge, e1: Edge, m: map<nat, nat>)
    requires IsDataLine(l0) && ReadLineIndices(l0) == Ok(e0)
    requires IsDataLine(l1) && ReadLineIndices(l1) == Ok(e1)
    ensures Annotated([l0, l1], m) ==
      [Entry(e0.first, e0.second, CountOf(m, e0.first)), Entry(e1.first, e1.second, CountOf(m, e1.first))]
  {
    var lines := [l0, l1];
    assert lines[0..] == lines && lines[2..] == [];
    AnnotatedStep(lines, m, 0);
    AnnotatedStep(lines, m, 1);
  }

  /** An entry of single-digit numbers, character by character. */
  lemma SmallEntry(x: nat, y: nat, c: nat)
    requires x < 10 && y < 10 && c < 10
    ensures Entry(x, y, c) == [DigitChar(x), '\t', DigitChar(y), '\t', DigitChar(c), '\n']
  {
  }

  /** "1 2" / "2 3", directed: the counter is {2: 1, 3: 1}; vertex 1 is absent, so its count is 0. */
  lemma DirectedTwoEdges()
    ensures Degrees(["1 2", "2 3"], false) == map[2 := 1, 3 := 1]
    ensures Annotated(["1 2", "2 3"], Degrees(["1 2", "2 3"], false)) == ["1\t2\t0\n", "2\t3\t1\n"]
  {
    ReadSingleDigits("1 2", 1, 2);
    ReadSingleDigits("2 3", 2, 3);
    var m := map[2 := 1, 3 := 1];
    TwoDataLinesCounted("1 2", "2 3", Edge(1, 2), Edge(2, 3), false);
    TwoDataLinesAnnotated("1 2", "2 3", Edge(1, 2), Edge(2, 3), m);
    assert Counted(Counted(map[], Edge(1, 2), false), Edge(2, 3), false) == m;
    SmallEntry(1, 2, 0);
    SmallEntry(2, 3, 1);
  }

  /** "1 2" / "2 1", undirected: both vertices are counted twice. */
  lemma UndirectedCycleCounter()
    ensures Degrees(["1 2", "2 1"], true) == map[1 := 2, 2 := 2]
  {
    ReadSingleDigits("1 2", 1, 2);
    ReadSingleDigits("2 1", 2, 1);
    TwoDataLinesCounted("1 2", "2 1", Edge(1, 2), Edge(2, 1), true);
    CycleCounts();
  }

  lemma CycleCounts()
    ensures Counted(Counted(map[], Edge(1, 2), true), Edge(2, 1), true) == map[1 := 2, 2 := 2]
  {
    var m0: map<nat, nat> := map[];
    var a := Incremented(m0, 2);
    assert a == map[2 := 1];
    var b := Incremented(a, 1);
    assert b == map[1 := 1, 2 := 1];
    var c := Incremented(b, 1);
    assert c == map[1 := 2, 2 := 1];
    var d := Incremented(c, 2);
    assert d == map[1 := 2, 2 := 2];
  }

  /** "1 2" / "2 1", undirected: both lines carry 2. */
  lemma UndirectedCycle()
    ensures Annotated(["1 2", "2 1"], Degrees(["1 2", "2 1"], true)) == ["1\t2\t2\n", "2\t1\t2\n"]
  {
    ReadSingleDigits("1 2", 1, 2);
    ReadSingleDigits("2 1", 2, 1);
    UndirectedCycleCounter();
    TwoDataLinesAnnotated("1 2", "2 1", Edge(1, 2), Edge(2, 1), map[1 := 2, 2 := 2]);
    SmallEntry(1, 2, 2);
    SmallEntry(2, 1, 2);
  }

  /** Both passes over a passthrough line followed by a data line, unfolded. */
  lemma PassthroughThenData(l0: string, l1: string, e1: Edge, undirected: bool, m: map<nat, nat>)
    requires !IsDataLine(l0)
    requires IsDataLine(l1) && ReadLineIndices(l1) == Ok(e1)
    ensures Degrees([l0, l1], undirected) == Counted(map[], e1, undirected)
    ensures Annotated([l0, l1], m) == [l0 + "\n", Entry(e1.first, e1.second, CountOf(m, e1.first))]
  {
    var lines := [l0, l1];
    assert lines[0..] == lines && lines[2..] == [];
    TallyStep(map[], lines, 0, undirected);
    TallyStep(map[], lines, 1, undirected);
    AnnotatedStep(lines, m, 0);
    AnnotatedStep(lines, m, 1);
  }

  /** A leading comment line counts nothing. */
  lemma CommentKeptCounter()
    ensures Degrees(["# comment", "1 2"], false) == map[2 := 1]
  {
    ReadSingleDigits("1 2", 1, 2);
    PassthroughThenData("# comment", "1 2", Edge(1, 2), false, map[2 := 1]);
    assert Incremented(map[], 2) == map[2 := 1];
  }

  /** A leading comment line is copied through unchanged, ahead of the annotated edge. */
  lemma CommentKept()
    ensures Annotated(["# comment", "1 2"], Degrees(["# comment", "1 2"], false)) == ["# comment\n", "1\t2\t0\n"]
  {
    var m := map[2 := 1];
    CommentKeptCounter();
    ReadSingleDigits("1 2", 1, 2);
    PassthroughThenData("# comment", "1 2", Edge(1, 2), false, m);
    assert "# comment" + "\n" == "# comment\n";
    assert CountOf(m, 1) == 0;
    SmallEntry(1, 2, 0);
  }

  /** A line that ends right after its first number: the separator position is past the end. */
  lemma NoSeparator()
    ensures ReadLineIndices("12") == Err(SeparatorPastEnd)
  {
    var line := "12";
    assert line[1..] == "2" && line[1..][1..] == [];
    assert DigitRun(line) == 2;
  }

  /** A line that ends right after the separator: there is no second number. */
  lemma NothingAfterSeparator()
    ensures ReadLineIndices("7 ") == Err(NoDigits)
  {
    var line := "7 ";
    assert line[1..] == " " && DigitRun(line[1..]) == 0;
    assert DigitRun(line) == 1;
    assert line[2..] == [];
  }

  /** The separator is not checked, whitespace before the second number is skipped, and trailing text is ignored. */
  lemma LooseSeparators()
    ensures ReadLineIndices("3,\t 4 x") == Ok(Edge(3, 4))
  {
    var line := "3,\t 4 x";
    var t := "4 x";
    SingleDigitRun(line, 3);
    SingleDigitRun(t, 4);
    assert line[2..] == "\t " + t;
    StoulSkipsSpace("\t ", t);
    DataLineFields(line);
  }

  /** A string whose first character is the only leading digit. */
  lemma SingleDigitRun(s: string, d: nat)
    requires d < 10 && |s| > 1 && s[0] == DigitChar(d) && !IsDigit(s[1])
    ensures DigitRun(s) == 1 && DigitsValue(s[..1]) == d
  {
    assert s[1..][0] == s[1];
    assert s[..1][..0] == [];
  }

  /** A second line with a single number stops the run at that line, before anything is written. */
  lemma TruncatedLineStopsRun()
    ensures FirstError(["1 2", "12"]) == Some(LineError(1, SeparatorPastEnd))
  {
    var lines := ["1 2", "12"];
    ReadSingleDigits(lines[0], 1, 2);
    NoSeparator();
    assert LineReads(lines[0]);
    var rest := lines[1..];
    assert rest == ["12"] && rest[0] == "12";
    assert !LineReads(rest[0]);
    assert FirstError(rest) == Some(LineError(0, SeparatorPastEnd));
  }
}
