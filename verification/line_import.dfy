/** The line-delimited path (importer.py:97-105): one produce call per input
    line, no fillers and no delivery callback. */
module LineImport {
  import opened Wrappers
  import opened Records
  import opened GapFill
  import opened Verifier

  /** The loop over the lines as a fold over the lines read so far. */
  function LineReplay(lines: seq<Line>): (out: Replayed)
    ensures out.count == |out.emitted|
    decreases |lines|
  {
    if |lines| == 0 then Replayed([], 0)
    else
      var before := LineReplay(lines[..|lines| - 1]);
      var line := lines[|lines| - 1];
      Replayed(before.emitted + [Plain(line.key, line.value)], before.count + 1)
  }

  /** N lines give exactly N produce calls, the i-th carrying the i-th line's
      key and value and no callback, and the counter ends at N. */
  lemma {:induction false} OneCallPerLine(lines: seq<Line>)
    ensures |LineReplay(lines).emitted| == |lines| == LineReplay(lines).count
    ensures forall i :: 0 <= i < |lines| ==>
      ToCall(LineReplay(lines).emitted[i]) == ProduceCall(lines[i].key, Some(lines[i].value), None)
    decreases |lines|
  {
    if |lines| > 0 {
      OneCallPerLine(lines[..|lines| - 1]);
    }
  }

  /** None of them is a filler and none is checked by the verifier: whatever
      offsets the topic assigns, no report is made. */
  lemma NoFillersNoReports(lines: seq<Line>, base: int)
    ensures NoopCount(LineReplay(lines).emitted) == 0
    ensures WithoutFillers(LineReplay(lines).emitted) == LineReplay(lines).emitted
    ensures Deliveries(LineReplay(lines).emitted, base) == []
  {
    var out := LineReplay(lines).emitted;
    OneCallPerLine(lines);
    assert forall i :: 0 <= i < |out| ==> out[i].Plain?;
    AllPlain(out);
    DeliveriesSilentIff(out, base);
  }

  lemma {:induction false} AllPlain(out: seq<Emitted>)
    requires forall i :: 0 <= i < |out| ==> out[i].Plain?
    ensures NoopCount(out) == 0
    ensures WithoutFillers(out) == out
    decreases |out|
  {
    if |out| > 0 {
      AllPlain(out[1..]);
    }
  }

  /** The loop itself: the counter is bumped and the line produced, once per
      line. */
  method ImportLines(lines: seq<Line>) returns (out: seq<Emitted>, count: int)
    ensures |out| == |lines| == count
    ensures forall i :: 0 <= i < |lines| ==> out[i] == Plain(lines[i].key, lines[i].value)
    ensures out == LineReplay(lines).emitted
  {
    count := 0;
    out := [];
    for k := 0 to |lines|
      invariant out == LineReplay(lines[..k]).emitted
      invariant count == k
    {
      var record := lines[k];
      count := count + 1;
      out := out + [Plain(record.key, record.value)];
      assert lines[..k + 1][..k] == lines[..k];
    }
    assert lines[..|lines|] == lines;
    OneCallPerLine(lines);
  }
}
