/**
 * PR_maker itself: a degree counter updated in place, the counting pass,
 * the annotating pass, and the two passes run over the same lines.
 */
module Annotator {
  import opened Wrappers
  import opened LineParser
  import opened AnnotationSpec

  /** The `mapper` that the lambdas of PR_maker share. */
  class DegreeCounter {
    var mapper: map<nat, nat>

    constructor ()
      ensures mapper == map[]
    {
      mapper := map[];
    }

    /** addEntryF: insert the key with count 1, or add one to its count. */
    method AddEntry(key: nat)
      modifies this
      ensures mapper == Incremented(old(mapper), key)
    {
      if key !in mapper {
        mapper := mapper[key := 1];
      } else {
        mapper := mapper[key := mapper[key] + 1];
      }
    }

    /**
     * entryToFileInserter: the line written for edge (lIdx, rIdx), whose
     * count is the counter's value for lIdx, or 0 when lIdx is absent.
     * It only looks the key up.
     */
    method InsertEntry(lIdx: nat, rIdx: nat) returns (text: string)
      ensures text == Entry(lIdx, rIdx, CountOf(mapper, lIdx))
      ensures ReadLineIndices(text) == Ok(Edge(lIdx, rIdx))
    {
      var count := CountOf(mapper, lIdx);
      text := Entry(lIdx, rIdx, count);
      EntryRoundTrip(lIdx, rIdx, count);
    }
  }

  /**
   * Pass 1: count every data line's second index (and, when undirected,
   * its first) into the counter. The first data line that cannot be read
   * stops the pass and is reported.
   */
  method CountPass(lines: seq<string>, undirected: bool, counter: DegreeCounter)
    returns (err: Option<LineError>)
    modifies counter
    ensures err == FirstError(lines)
    ensures counter.mapper == Tally(old(counter.mapper), lines, undirected)
  {
    var i := 0;
    while i < |lines|
      invariant i <= |lines|
      invariant Tally(counter.mapper, lines[i..], undirected) == Tally(old(counter.mapper), lines, undirected)
      invariant FirstError(lines) == Shifted(FirstError(lines[i..]), i)
    {
      var line := lines[i];
      TallyStep(counter.mapper, lines, i, undirected);
      if !IsDataLine(line) {
        FirstErrorStep(lines, i);
        i := i + 1;
        continue;
      }
      var r := ReadLineIndices(line);
      if r.Err? {
        FirstErrorHere(lines, i);
        return Some(LineError(i, r.error));
      }
      FirstErrorStep(lines, i);
      counter.AddEntry(r.value.second);
      if undirected {
        counter.AddEntry(r.value.first);
      }
      i := i + 1;
    }
    return None;
  }

  /**
   * Pass 2: write each passthrough line with its terminator and each data
   * line as its annotated entry. The counter is only read. A data line
   * that cannot be read stops the pass after the lines already written.
   */
  method EmitPass(lines: seq<string>, counter: DegreeCounter)
    returns (out: seq<string>, err: Option<LineError>)
    ensures err == FirstError(lines)
    ensures out == Annotated(lines, counter.mapper)
  {
    out := [];
    var i := 0;
    while i < |lines|
      invariant i <= |lines|
      invariant out + Annotated(lines[i..], counter.mapper) == Annotated(lines, counter.mapper)
      invariant FirstError(lines) == Shifted(FirstError(lines[i..]), i)
    {
      var line := lines[i];
      if !IsDataLine(line) {
        FirstErrorStep(lines, i);
        AnnotatedExtend(lines, counter.mapper, i, out, line + "\n");
        out := out + [line + "\n"];
        i := i + 1;
        continue;
      }
      var r := ReadLineIndices(line);
      if r.Err? {
        FirstErrorHere(lines, i);
        AnnotatedStep(lines, counter.mapper, i);
        return out, Some(LineError(i, r.error));
      }
      FirstErrorStep(lines, i);
      var text := counter.InsertEntry(r.value.first, r.value.second);
      AnnotatedExtend(lines, counter.mapper, i, out, text);
      out := out + [text];
      i := i + 1;
    }
    err := None;
  }

  /**
   * PR_maker: count, then annotate the same lines again. When a data line
   * cannot be read the run stops in pass 1, before anything is written.
   * Otherwise there is one output line per input line, in order:
   * passthrough lines verbatim with "\n", data lines as
   * `first \t second \t count \n` with the tally of the first index.
   */
  method PRMaker(lines: seq<string>, undirected: bool)
    returns (out: seq<string>, err: Option<LineError>)
    ensures err == FirstError(lines)
    ensures err.Some? ==> out == []
    ensures err.None? ==> |out| == |lines|
    ensures err.None? ==> forall i :: 0 <= i < |lines| && !IsDataLine(lines[i]) ==>
      out[i] == lines[i] + "\n"
    ensures err.None? ==> forall i :: 0 <= i < |lines| && IsDataLine(lines[i]) ==>
      ReadLineIndices(lines[i]).Ok? &&
      out[i] == Entry(ReadLineIndices(lines[i]).value.first, ReadLineIndices(lines[i]).value.second,
                      Degree(lines, ReadLineIndices(lines[i]).value.first, undirected))
  {
    var counter := new DegreeCounter();
    err := CountPass(lines, undirected, counter);
    if err.Some? {
      out := [];
      return;
    }
    assert counter.mapper == Degrees(lines, undirected);
    var emitErr;
    out, emitErr := EmitPass(lines, counter);
    AnnotatedLines(lines, counter.mapper);
    forall i | 0 <= i < |lines| && IsDataLine(lines[i])
      ensures ReadLineIndices(lines[i]).Ok? &&
        out[i] == Entry(ReadLineIndices(lines[i]).value.first, ReadLineIndices(lines[i]).value.second,
                        Degree(lines, ReadLineIndices(lines[i]).value.first, undirected))
    {
      EmittedCount(lines, undirected, i);
    }
  }
}
