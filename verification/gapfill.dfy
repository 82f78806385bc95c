/** The gap-fill scheduler of the structured-export path (importer.py:68-95):
    before each record it produces fillers until the running counter reaches
    the record's offset, then produces the record itself with a delivery
    callback bound to that offset. Every produce call advances the counter by
    one, so the counter is the offset a fresh topic assigns next. */
module GapFill {
  import opened Wrappers
  import opened Records

  function Max(a: int, b: int): (m: int) {
    if a < b then b else a
  }

  /** The messages produced so far and the counter after them. */
  datatype Replayed = Replayed(emitted: seq<Emitted>, count: int)

  /** The inner `while` loop: fillers while the counter is below `offset`. */
  function Fillers(count: int, offset: int): (r: seq<Emitted>)
    ensures |r| == Max(0, offset - count)
    ensures forall i :: 0 <= i < |r| ==> r[i] == Noop
    ensures forall i :: 0 <= i < |r| ==> ToCall(r[i]) == ProduceCall(NoopKey, None, None)
    decreases offset - count
  {
    if offset > count then [Noop] + Fillers(count + 1, offset) else []
  }

  /** One pass of the outer loop: the fillers, then the record. */
  function Step(count: int, r: Record): (s: Replayed)
    ensures |s.emitted| == Max(0, r.offset - count) + 1
    ensures forall i :: 0 <= i < |s.emitted| - 1 ==> s.emitted[i] == Noop
    ensures s.emitted[|s.emitted| - 1] == RealOf(r)
    ensures s.count == Max(count, r.offset) + 1
    ensures r.offset <= count ==> s.emitted == [RealOf(r)]
  {
    var fill := Fillers(count, r.offset);
    Replayed(fill + [RealOf(r)], count + |fill| + 1)
  }

  /** The outer `for` loop, started with the counter at `count`. */
  function ReplayFrom(rs: seq<Record>, count: int): (out: Replayed)
    ensures out.count == count + |out.emitted|
    decreases |rs|
  {
    if |rs| == 0 then Replayed([], count)
    else
      var s := Step(count, rs[0]);
      var rest := ReplayFrom(rs[1..], s.count);
      Replayed(s.emitted + rest.emitted, rest.count)
  }

  /** The whole structured-export path: the counter starts at 0, and the
      final counter is the number of messages produced. */
  function Replay(rs: seq<Record>): (out: Replayed)
    ensures out.count == |out.emitted|
    ensures rs == [] ==> out.emitted == [] && out.count == 0
  {
    ReplayFrom(rs, 0)
  }

  /** The records' messages, in input order. */
  function RealsOf(rs: seq<Record>): (r: seq<Emitted>) {
    seq(|rs|, i requires 0 <= i < |rs| => RealOf(rs[i]))
  }

  /** Offsets strictly increase along the input. */
  ghost predicate StrictlyIncreasing(rs: seq<Record>) {
    forall i, j :: 0 <= i < j < |rs| ==> rs[i].offset < rs[j].offset
  }

  /** Offsets strictly increase and none is below the starting counter; with
      the counter at 0 this says the offsets are strictly increasing and
      non-negative. */
  ghost predicate Aligned(rs: seq<Record>, count: int) {
    && StrictlyIncreasing(rs)
    && forall i :: 0 <= i < |rs| ==> count <= rs[i].offset
  }

  /** Aligned input is aligned record by record: the first offset reaches
      the counter, and the rest is aligned to the counter after it. */
  lemma AlignedUnfold(rs: seq<Record>, count: int)
    requires |rs| > 0
    ensures Aligned(rs, count) <==> count <= rs[0].offset && Aligned(rs[1..], rs[0].offset + 1)
  {
  }

  /** Records are never dropped, duplicated or reordered, whatever their
      offsets: removing the fillers from the output leaves exactly the
      records' messages in input order. */
  lemma {:induction false} ReplayKeepsRecords(rs: seq<Record>, count: int)
    ensures WithoutFillers(ReplayFrom(rs, count).emitted) == RealsOf(rs)
    decreases |rs|
  {
    if |rs| > 0 {
      var s := Step(count, rs[0]);
      var fill := Fillers(count, rs[0].offset);
      var rest := ReplayFrom(rs[1..], s.count);
      NoFillersKept(fill);
      WithoutFillersAppend(fill, [RealOf(rs[0])]);
      WithoutFillersAppend(s.emitted, rest.emitted);
      ReplayKeepsRecords(rs[1..], s.count);
      assert RealsOf(rs) == [RealOf(rs[0])] + RealsOf(rs[1..]);
    }
  }

  lemma {:induction false} NoFillersKept(fill: seq<Emitted>)
    requires forall i :: 0 <= i < |fill| ==> fill[i] == Noop
    ensures WithoutFillers(fill) == []
    ensures NoopCount(fill) == |fill|
    decreases |fill|
  {
    if |fill| > 0 {
      NoFillersKept(fill[1..]);
    }
  }

  /** The central placement property: for aligned input, the record with
      offset o is the (o - count)-th message produced, so on a topic whose
      next offset is `count` it lands at offset o; the output ends right
      after the last record. */
  lemma {:induction false} Placement(rs: seq<Record>, count: int)
    requires Aligned(rs, count)
    ensures |rs| == 0 ==> ReplayFrom(rs, count).emitted == []
    ensures |rs| > 0 ==> |ReplayFrom(rs, count).emitted| == rs[|rs| - 1].offset - count + 1
    ensures forall i :: 0 <= i < |rs| ==>
      && 0 <= rs[i].offset - count < |ReplayFrom(rs, count).emitted|
      && ReplayFrom(rs, count).emitted[rs[i].offset - count] == RealOf(rs[i])
    decreases |rs|
  {
    if |rs| > 0 {
      var o := rs[0].offset;
      var s := Step(count, rs[0]);
      AlignedUnfold(rs, count);
      var rest := ReplayFrom(rs[1..], s.count);
      Placement(rs[1..], o + 1);
      var out := ReplayFrom(rs, count).emitted;
      assert out == s.emitted + rest.emitted;
      assert |s.emitted| == o - count + 1;
      forall i | 0 <= i < |rs|
        ensures 0 <= rs[i].offset - count < |out| && out[rs[i].offset - count] == RealOf(rs[i])
      {
        if i > 0 {
          assert rs[i] == rs[1..][i - 1];
          assert out[rs[i].offset - count] == rest.emitted[rs[i].offset - (o + 1)];
        }
      }
      if |rs| > 1 {
        assert rs[|rs| - 1] == rs[1..][|rs[1..]| - 1];
      }
    }
  }

  /** Input offsets exactly 0, 1, ..., n-1 need no filler: the output is the
      records' messages alone and the final counter is n. */
  lemma ContiguousNeedsNoFillers(rs: seq<Record>)
    requires forall i :: 0 <= i < |rs| ==> rs[i].offset == i
    ensures Replay(rs).emitted == RealsOf(rs)
    ensures NoopCount(Replay(rs).emitted) == 0
    ensures Replay(rs).count == |rs|
  {
    assert Aligned(rs, 0);
    Placement(rs, 0);
    var out := Replay(rs).emitted;
    assert |out| == |rs|;
    forall i | 0 <= i < |rs|
      ensures out[i] == RealsOf(rs)[i]
    {
      assert out[rs[i].offset] == RealOf(rs[i]);
    }
    assert out == RealsOf(rs);
    ReplayKeepsRecords(rs, 0);
    FillersPlusOthers(out);
  }

  /** The offsets the input records carry. */
  function Offsets(rs: seq<Record>): (offsets: set<int>)
    decreases |rs|
  {
    if |rs| == 0 then {} else {rs[0].offset} + Offsets(rs[1..])
  }

  lemma {:induction false} OffsetsAtLeast(rs: seq<Record>, count: int)
    requires forall i :: 0 <= i < |rs| ==> count <= rs[i].offset
    ensures forall x :: x in Offsets(rs) ==> count <= x
    decreases |rs|
  {
    if |rs| > 0 {
      OffsetsAtLeast(rs[1..], count);
    }
  }

  /** For aligned input, a message is a filler exactly when no record's
      offset names its position: the fillers fill the gaps and nothing
      else. */
  lemma {:induction false} GapsAreFillers(rs: seq<Record>, count: int)
    requires Aligned(rs, count)
    ensures forall k :: 0 <= k < |ReplayFrom(rs, count).emitted| ==>
      (ReplayFrom(rs, count).emitted[k].Noop? <==> count + k !in Offsets(rs))
    decreases |rs|
  {
    if |rs| > 0 {
      var out := ReplayFrom(rs, count).emitted;
      var o := rs[0].offset;
      var s := Step(count, rs[0]);
      AlignedUnfold(rs, count);
      var rest := ReplayFrom(rs[1..], s.count);
      GapsAreFillers(rs[1..], o + 1);
      OffsetsAtLeast(rs[1..], o + 1);
      assert out == s.emitted + rest.emitted;
      forall k | 0 <= k < |out|
        ensures out[k].Noop? <==> count + k !in Offsets(rs)
      {
        if k > o - count {
          assert rest.emitted[k - (o - count + 1)] == out[k];
        }
      }
    }
  }

  /** The offsets 0, 3, 4 replayed from an empty topic: record 0 goes
      first, then two fillers take offsets 1 and 2, then records 3 and 4. */
  lemma GapExample(k: Payload)
    ensures var rs := [Record(0, k, None), Record(3, k, None), Record(4, k, None)];
      && Replay(rs).emitted == [Real(k, None, 0), Noop, Noop, Real(k, None, 3), Real(k, None, 4)]
      && Replay(rs).count == 5
  {
    var rs := [Record(0, k, None), Record(3, k, None), Record(4, k, None)];
    assert rs[1..] == [Record(3, k, None), Record(4, k, None)];
    assert rs[1..][1..] == [Record(4, k, None)];
    assert rs[1..][1..][1..] == [];
    assert Fillers(1, 3) == [Noop, Noop];
    assert ReplayFrom(rs[1..][1..], 4).emitted == [Real(k, None, 4)];
    assert ReplayFrom(rs[1..], 1).emitted == [Noop, Noop, Real(k, None, 3), Real(k, None, 4)];
  }

  /** For strictly increasing non-negative offsets, the number of fillers is
      the number of offsets missing below the last one. */
  lemma FillerTotal(rs: seq<Record>)
    requires Aligned(rs, 0) && |rs| > 0
    ensures NoopCount(Replay(rs).emitted) == rs[|rs| - 1].offset + 1 - |rs|
    ensures Replay(rs).count == rs[|rs| - 1].offset + 1
  {
    Placement(rs, 0);
    ReplayKeepsRecords(rs, 0);
    FillersPlusOthers(Replay(rs).emitted);
  }

  /** The inner `while` loop of importer.py:80-86, appending the fillers to
      the producer's queue. */
  method ProduceFillers(queue: seq<Emitted>, start: int, offset: int) returns (out: seq<Emitted>, count: int)
    ensures out == queue + Fillers(start, offset)
    ensures count == Max(start, offset)
  {
    out := queue;
    count := start;
    while offset > count
      invariant start <= count <= Max(start, offset)
      invariant out + Fillers(count, offset) == queue + Fillers(start, offset)
      decreases offset - count
    {
      out := out + [Noop];
      count := count + 1;
    }
    assert out + [] == out;
  }

  /** Extending the input by one record extends the output by that
      record's step, taken at the counter the prefix left behind. */
  lemma {:induction false} ReplayFromSnoc(rs: seq<Record>, r: Record, count: int)
    ensures ReplayFrom(rs + [r], count).emitted
      == ReplayFrom(rs, count).emitted + Step(ReplayFrom(rs, count).count, r).emitted
    ensures ReplayFrom(rs + [r], count).count == Step(ReplayFrom(rs, count).count, r).count
    decreases |rs|
  {
    if |rs| == 0 {
      assert rs + [r] == [r];
      assert [r][1..] == [];
    } else {
      var s := Step(count, rs[0]);
      assert (rs + [r])[1..] == rs[1..] + [r];
      ReplayFromSnoc(rs[1..], r, s.count);
    }
  }

  /** The imperative loops of importer.py:68-95, with the counter and the
      producer's queue as local state; they compute exactly the fold. */
  method ReplayLoop(rs: seq<Record>) returns (out: seq<Emitted>, count: int)
    ensures out == Replay(rs).emitted
    ensures count == Replay(rs).count
  {
    count := 0;
    out := [];
    for k := 0 to |rs|
      invariant out == Replay(rs[..k]).emitted
      invariant count == Replay(rs[..k]).count
    {
      var record := rs[k];
      ReplayFromSnoc(rs[..k], record, 0);
      assert rs[..k + 1] == rs[..k] + [record];
      out, count := ProduceFillers(out, count, record.offset);
      out := out + [RealOf(record)];
      count := count + 1;
    }
    assert rs[..|rs|] == rs;
  }
}
