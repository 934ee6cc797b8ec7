/**
 * What PR_maker computes, as functions over the input lines: the degree
 * counter after pass 1, the first line that stops the run, and the lines
 * pass 2 writes; with the lemmas relating them.
 */
module AnnotationSpec {
  import opened Wrappers
  import opened Decimal
  import opened LineParser

  /** A data line that could not be read, with its position among the input lines. */
  datatype LineError = LineError(index: nat, kind: ParseError)

  /** The counter's value for `key`, and 0 for an absent key (the `find`-or-0 of pass 2). */
  function CountOf(m: map<nat, nat>, key: nat): nat {
    if key in m then m[key] else 0
  }

  /** addEntryF: insert `key` with count 1, or add one to its count. */
  function Incremented(m: map<nat, nat>, key: nat): (r: map<nat, nat>)
    ensures r.Keys == m.Keys + {key}
    ensures r[key] == if key in m then m[key] + 1 else 1
    ensures forall k :: k in m && k != key ==> r[k] == m[k]
  {
    m[key := CountOf(m, key) + 1]
  }

  /** The counter update for one edge: its second index, and in undirected mode also its first. */
  function Counted(m: map<nat, nat>, e: Edge, undirected: bool): map<nat, nat> {
    var m' := Incremented(m, e.second);
    if undirected then Incremented(m', e.first) else m'
  }

  /** A line that pass 1 and pass 2 get through: passthrough, or data that reads. */
  predicate LineReads(line: string) {
    !IsDataLine(line) || ReadLineIndices(line).Ok?
  }

  function Shifted(err: Option<LineError>, k: nat): Option<LineError> {
    match err
    case None => None
    case Some(e) => Some(LineError(e.index + k, e.kind))
  }

  /** The first data line that cannot be read, if any. */
  function FirstError(lines: seq<string>): Option<LineError> {
    if lines == [] then None
    else if !LineReads(lines[0]) then Some(LineError(0, ReadLineIndices(lines[0]).error))
    else Shifted(FirstError(lines[1..]), 1)
  }

  /** FirstError names the first line that fails, and is None exactly when every line reads. */
  lemma {:induction false} FirstErrorIsFirst(lines: seq<string>)
    ensures FirstError(lines).None? <==> forall i :: 0 <= i < |lines| ==> LineReads(lines[i])
    ensures FirstError(lines).Some? ==>
      var e := FirstError(lines).value;
      && e.index < |lines|
      && IsDataLine(lines[e.index])
      && ReadLineIndices(lines[e.index]) == Err(e.kind)
      && forall i :: 0 <= i < e.index ==> LineReads(lines[i])
  {
    if lines != [] && LineReads(lines[0]) {
      FirstErrorIsFirst(lines[1..]);
      assert forall i :: 1 <= i < |lines| ==> lines[i] == lines[1..][i - 1];
    }
  }

  /**
   * Pass 1: the counter after reading `lines` starting from `m`. Reading
   * stops at the first data line that fails, as the exception does.
   */
  function Tally(m: map<nat, nat>, lines: seq<string>, undirected: bool): map<nat, nat>
    decreases lines
  {
    if lines == [] then m
    else if !IsDataLine(lines[0]) then Tally(m, lines[1..], undirected)
    else
      match ReadLineIndices(lines[0])
      case Err(_) => m
      case Ok(e) => Tally(Counted(m, e, undirected), lines[1..], undirected)
  }

  /** The counter pass 1 builds from an empty map. */
  function Degrees(lines: seq<string>, undirected: bool): map<nat, nat> {
    Tally(map[], lines, undirected)
  }

  /** Number of data lines whose second index is `v`. */
  function SecondCount(lines: seq<string>, v: nat): nat {
    if lines == [] then 0
    else
      var here := IsDataLine(lines[0]) && ReadLineIndices(lines[0]).Ok?
                  && ReadLineIndices(lines[0]).value.second == v;
      (if here then 1 else 0) + SecondCount(lines[1..], v)
  }

  /** Number of data lines whose first index is `v`. */
  function FirstCount(lines: seq<string>, v: nat): nat {
    if lines == [] then 0
    else
      var here := IsDataLine(lines[0]) && ReadLineIndices(lines[0]).Ok?
                  && ReadLineIndices(lines[0]).value.first == v;
      (if here then 1 else 0) + FirstCount(lines[1..], v)
  }

  /** The tally pass 1 keeps for `v`: destination occurrences, plus source occurrences when undirected. */
  function Degree(lines: seq<string>, v: nat, undirected: bool): nat {
    SecondCount(lines, v) + (if undirected then FirstCount(lines, v) else 0)
  }

  /** The set of second indices of the data lines. */
  function SecondFields(lines: seq<string>): set<nat> {
    if lines == [] then {}
    else if IsDataLine(lines[0]) && ReadLineIndices(lines[0]).Ok? then
      {ReadLineIndices(lines[0]).value.second} + SecondFields(lines[1..])
    else SecondFields(lines[1..])
  }

  /** The set of first indices of the data lines. */
  function FirstFields(lines: seq<string>): set<nat> {
    if lines == [] then {}
    else if IsDataLine(lines[0]) && ReadLineIndices(lines[0]).Ok? then
      {ReadLineIndices(lines[0]).value.first} + FirstFields(lines[1..])
    else FirstFields(lines[1..])
  }

  /** An annotated output line: `first \t second \t count \n`. */
  function Entry(first: nat, second: nat, count: nat): string {
    NatToDecimal(first) + "\t" + NatToDecimal(second) + "\t" + NatToDecimal(count) + "\n"
  }

  /** What pass 2 writes for one line, given the counter. */
  function EmitLine(line: string, m: map<nat, nat>): Result<string, ParseError> {
    if !IsDataLine(line) then Ok(line + "\n")
    else
      match ReadLineIndices(line)
      case Err(e) => Err(e)
      case Ok(e) => Ok(Entry(e.first, e.second, CountOf(m, e.first)))
  }

  /** Pass 2: the lines written, in input order, up to the first data line that fails. */
  function Annotated(lines: seq<string>, m: map<nat, nat>): seq<string> {
    if lines == [] then []
    else
      match EmitLine(lines[0], m)
      case Err(_) => []
      case Ok(s) => [s] + Annotated(lines[1..], m)
  }

  // ---------------------------------------------------------------------
  // One line at a time, as the two loops consume them

  /** A line that reads moves the first error one position on. */
  lemma FirstErrorStep(lines: seq<string>, i: nat)
    requires i < |lines| && LineReads(lines[i])
    ensures Shifted(FirstError(lines[i..]), i) == Shifted(FirstError(lines[i + 1..]), i + 1)
  {
    var t := lines[i..];
    assert t[0] == lines[i] && t[1..] == lines[i + 1..];
    assert FirstError(t) == Shifted(FirstError(t[1..]), 1);
  }

  /** A data line that fails is the first error of the lines from it on. */
  lemma FirstErrorHere(lines: seq<string>, i: nat)
    requires i < |lines| && !LineReads(lines[i])
    ensures Shifted(FirstError(lines[i..]), i) == Some(LineError(i, ReadLineIndices(lines[i]).error))
  {
  }

  /** Pass 1 on the lines from position i on, one line at a time. */
  lemma TallyStep(m: map<nat, nat>, lines: seq<string>, i: nat, undirected: bool)
    requires i < |lines|
    ensures Tally(m, lines[i..], undirected) ==
      if !IsDataLine(lines[i]) then Tally(m, lines[i + 1..], undirected)
      else if ReadLineIndices(lines[i]).Err? then m
      else Tally(Counted(m, ReadLineIndices(lines[i]).value, undirected), lines[i + 1..], undirected)
  {
    assert lines[i..][1..] == lines[i + 1..];
  }

  /** Pass 2 on the lines from position i on, one line at a time. */
  lemma AnnotatedStep(lines: seq<string>, m: map<nat, nat>, i: nat)
    requires i < |lines|
    ensures Annotated(lines[i..], m) ==
      if EmitLine(lines[i], m).Err? then [] else [EmitLine(lines[i], m).value] + Annotated(lines[i + 1..], m)
  {
    assert lines[i..][1..] == lines[i + 1..];
  }

  /** Writing the line EmitLine gives for position i keeps pass 2's output a prefix of Annotated. */
  lemma AnnotatedExtend(lines: seq<string>, m: map<nat, nat>, i: nat, out: seq<string>, text: string)
    requires i < |lines| && EmitLine(lines[i], m) == Ok(text)
    requires out + Annotated(lines[i..], m) == Annotated(lines, m)
    ensures (out + [text]) + Annotated(lines[i + 1..], m) == Annotated(lines, m)
  {
    AnnotatedStep(lines, m, i);
  }

  // ---------------------------------------------------------------------
  // Properties

  /** The counter update for one edge, key by key. */
  lemma CountedCount(m: map<nat, nat>, e: Edge, undirected: bool, v: nat)
    ensures CountOf(Counted(m, e, undirected), v) ==
      CountOf(m, v) + (if e.second == v then 1 else 0)
                    + (if undirected && e.first == v then 1 else 0)
  {
  }

  /** Pass 1 adds to each key exactly its occurrences in the counted roles. */
  lemma {:induction false} TallyCount(m: map<nat, nat>, lines: seq<string>, undirected: bool, v: nat)
    requires FirstError(lines).None?
    ensures CountOf(Tally(m, lines, undirected), v) == CountOf(m, v) + Degree(lines, v, undirected)
    decreases lines
  {
    if lines != [] {
      assert LineReads(lines[0]) && FirstError(lines[1..]).None?;
      if IsDataLine(lines[0]) {
        var e := ReadLineIndices(lines[0]).value;
        TallyCount(Counted(m, e, undirected), lines[1..], undirected, v);
        CountedCount(m, e, undirected, v);
      } else {
        TallyCount(m, lines[1..], undirected, v);
      }
    }
  }

  /** Pass 1 adds exactly the counted indices as keys. */
  lemma {:induction false} TallyKeys(m: map<nat, nat>, lines: seq<string>, undirected: bool)
    requires FirstError(lines).None?
    ensures Tally(m, lines, undirected).Keys ==
      m.Keys + SecondFields(lines) + (if undirected then FirstFields(lines) else {})
    decreases lines
  {
    if lines != [] {
      assert LineReads(lines[0]) && FirstError(lines[1..]).None?;
      if IsDataLine(lines[0]) {
        var e := ReadLineIndices(lines[0]).value;
        TallyKeys(Counted(m, e, undirected), lines[1..], undirected);
      } else {
        TallyKeys(m, lines[1..], undirected);
      }
    }
  }

  /**
   * After pass 1 on error-free input, the counter's keys are exactly the
   * counted indices and each value is that index's tally.
   */
  lemma DegreesExact(lines: seq<string>, undirected: bool)
    requires FirstError(lines).None?
    ensures Degrees(lines, undirected).Keys ==
      SecondFields(lines) + (if undirected then FirstFields(lines) else {})
    ensures forall v :: v in Degrees(lines, undirected) ==>
      Degrees(lines, undirected)[v] == Degree(lines, v, undirected)
    ensures forall v :: v !in Degrees(lines, undirected) ==> Degree(lines, v, undirected) == 0
  {
    TallyKeys(map[], lines, undirected);
    forall v ensures CountOf(Degrees(lines, undirected), v) == Degree(lines, v, undirected) {
      TallyCount(map[], lines, undirected, v);
    }
  }

  /**
   * Pass 2 writes one line per input line up to the first failure, each
   * the one EmitLine gives for the line at the same position.
   */
  lemma {:induction false} AnnotatedLines(lines: seq<string>, m: map<nat, nat>)
    ensures |Annotated(lines, m)| <= |lines|
    ensures FirstError(lines).None? ==> |Annotated(lines, m)| == |lines|
    ensures FirstError(lines).Some? ==> |Annotated(lines, m)| == FirstError(lines).value.index
    ensures forall i :: 0 <= i < |Annotated(lines, m)| ==> EmitLine(lines[i], m) == Ok(Annotated(lines, m)[i])
  {
    if lines != [] {
      EmitLineReads(lines[0], m);
      if LineReads(lines[0]) {
        var rest := Annotated(lines[1..], m);
        AnnotatedLines(lines[1..], m);
        assert Annotated(lines, m) == [EmitLine(lines[0], m).value] + rest;
        forall i | 1 <= i < |rest| + 1
          ensures EmitLine(lines[i], m) == Ok(Annotated(lines, m)[i])
        {
          assert lines[i] == lines[1..][i - 1];
        }
      }
    }
  }

  /** Pass 2 gets through exactly the lines pass 1 gets through. */
  lemma EmitLineReads(line: string, m: map<nat, nat>)
    ensures EmitLine(line, m).Ok? <==> LineReads(line)
  {
  }

  /** A passthrough line is written back unchanged, with its line terminator, at its own position. */
  lemma PassthroughKept(lines: seq<string>, m: map<nat, nat>, i: nat)
    requires i < |lines| && !IsDataLine(lines[i])
    requires FirstError(lines).None?
    ensures i < |Annotated(lines, m)| && Annotated(lines, m)[i] == lines[i] + "\n"
  {
    AnnotatedLines(lines, m);
  }

  /** Passthrough lines change nothing in pass 1. */
  lemma {:induction false} PassthroughNotCounted(
    m: map<nat, nat>, front: seq<string>, line: string, back: seq<string>, undirected: bool)
    requires !IsDataLine(line)
    ensures Tally(m, front + [line] + back, undirected) == Tally(m, front + back, undirected)
    decreases front
  {
    if front == [] {
      assert (front + [line] + back)[1..] == back;
      assert front + back == back;
    } else if !IsDataLine(front[0]) || ReadLineIndices(front[0]).Ok? {
      assert (front + [line] + back)[1..] == front[1..] + [line] + back;
      assert (front + back)[1..] == front[1..] + back;
      var m' := if !IsDataLine(front[0]) then m else Counted(m, ReadLineIndices(front[0]).value, undirected);
      PassthroughNotCounted(m', front[1..], line, back, undirected);
    }
  }

  /** An input with no data line is written back line for line, and counts nothing. */
  lemma PassthroughOnly(lines: seq<string>, m: map<nat, nat>, undirected: bool)
    requires forall i :: 0 <= i < |lines| ==> !IsDataLine(lines[i])
    ensures Annotated(lines, m) == seq(|lines|, i requires 0 <= i < |lines| => lines[i] + "\n")
    ensures Degrees(lines, undirected) == map[]
  {
    FirstErrorIsFirst(lines);
    AnnotatedLines(lines, m);
    TallyKeys(map[], lines, undirected);
    NoDataNoFields(lines);
  }

  lemma {:induction false} NoDataNoFields(lines: seq<string>)
    requires forall i :: 0 <= i < |lines| ==> !IsDataLine(lines[i])
    ensures SecondFields(lines) == {} && FirstFields(lines) == {}
  {
    if lines != [] {
      assert forall i :: 0 <= i < |lines[1..]| ==> lines[1..][i] == lines[i + 1];
      NoDataNoFields(lines[1..]);
    }
  }

  /** An annotated line is itself a data line that reads back as the same edge. */
  lemma EntryRoundTrip(first: nat, second: nat, count: nat)
    ensures IsDataLine(Entry(first, second, count))
    ensures ReadLineIndices(Entry(first, second, count)) == Ok(Edge(first, second))
  {
    var a, b, c := NatToDecimal(first), NatToDecimal(second), NatToDecimal(count);
    var rest := "\t" + c + "\n";
    EntrySplit(a, b, c);
    StoulDecimal(first, "\t" + b + rest);
    StoulDecimal(second, rest);
    ReadTwoFields(a + ("\t" + b + rest), |a|, first, second);
  }

  lemma EntrySplit(a: string, b: string, c: string)
    ensures a + "\t" + b + "\t" + c + "\n" == a + ("\t" + b + ("\t" + c + "\n"))
    ensures (a + ("\t" + b + ("\t" + c + "\n")))[|a| + 1..] == b + ("\t" + c + "\n")
  {
  }

  lemma ReadTwoFields(line: string, k: nat, first: nat, second: nat)
    requires Stoul(line) == Ok(Parsed(first, k))
    requires k + 1 <= |line|
    requires Stoul(line[k + 1..]).Ok? && Stoul(line[k + 1..]).value.value == second
    ensures ReadLineIndices(line) == Ok(Edge(first, second))
  {
  }

  /**
   * The count written for a data line with first index `a` is the number
   * of data lines with second index `a`, plus, in undirected mode, the
   * number with first index `a`.
   */
  lemma EmittedCount(lines: seq<string>, undirected: bool, i: nat)
    requires FirstError(lines).None?
    requires i < |lines| && IsDataLine(lines[i])
    ensures ReadLineIndices(lines[i]).Ok?
    ensures var e := ReadLineIndices(lines[i]).value;
      i < |Annotated(lines, Degrees(lines, undirected))| &&
      Annotated(lines, Degrees(lines, undirected))[i] ==
        Entry(e.first, e.second, Degree(lines, e.first, undirected))
  {
    var m := Degrees(lines, undirected);
    AnnotatedLines(lines, m);
    TallyCount(map[], lines, undirected, ReadLineIndices(lines[i]).value.first);
  }

  /**
   * Undirected mode changes only the counts: both modes write the same
   * number of lines, the same passthrough lines, and data lines that read
   * back as the same edge; no reversed edge is added.
   */
  lemma UndirectedOnlyChangesCounts(lines: seq<string>, i: nat)
    requires FirstError(lines).None?
    ensures |Annotated(lines, Degrees(lines, true))| == |lines|
    ensures |Annotated(lines, Degrees(lines, false))| == |lines|
    ensures i < |lines| ==>
      var u, d := Annotated(lines, Degrees(lines, true))[i], Annotated(lines, Degrees(lines, false))[i];
      if IsDataLine(lines[i]) then
        ReadLineIndices(u) == ReadLineIndices(d) == ReadLineIndices(lines[i])
      else
        u == d == lines[i] + "\n"
  {
    AnnotatedLines(lines, Degrees(lines, true));
    AnnotatedLines(lines, Degrees(lines, false));
    if i < |lines| && IsDataLine(lines[i]) {
      var e := ReadLineIndices(lines[i]).value;
      EntryRoundTrip(e.first, e.second, CountOf(Degrees(lines, true), e.first));
      EntryRoundTrip(e.first, e.second, CountOf(Degrees(lines, false), e.first));
    }
  }
}
