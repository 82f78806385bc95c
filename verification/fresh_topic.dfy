/** Why the gap-fill works, and what the verifier catches when it does not:
    the replay, acknowledged by a topic that assigns consecutive offsets,
    measured against the callbacks bound at produce time
    (importer.py:53-95). */
module FreshTopic {
  import opened Wrappers
  import opened Records
  import opened GapFill
  import opened Verifier

  /** Fillers carry no callback, so acknowledging them reports nothing. */
  lemma FillersSilent(fill: seq<Emitted>, base: int)
    requires forall i :: 0 <= i < |fill| ==> fill[i] == Noop
    ensures Deliveries(fill, base) == []
  {
  }

  /** The replay started with the counter at `count`, delivered to a topic
      whose next offset is `count`, reports nothing exactly when the offsets
      are strictly increasing and none is below `count`. A duplicate or
      decreasing offset is accepted without fillers and shows up only here,
      as a mismatch. */
  lemma {:induction false} SilentIffAligned(rs: seq<Record>, count: int)
    ensures Deliveries(ReplayFrom(rs, count).emitted, count) == [] <==> Aligned(rs, count)
    decreases |rs|
  {
    if |rs| > 0 {
      var o := rs[0].offset;
      var fill := Fillers(count, o);
      var s := Step(count, rs[0]);
      var rest := ReplayFrom(rs[1..], s.count);
      assert s.emitted == fill + [RealOf(rs[0])];
      DeliveriesAppend(s.emitted, rest.emitted, count);
      DeliveriesAppend(fill, [RealOf(rs[0])], count);
      FillersSilent(fill, count);
      assert Deliveries([RealOf(rs[0])], count + |fill|) == Verify(o, None, Max(count, o));
      SilentIffAligned(rs[1..], s.count);
      AlignedUnfold(rs, count);
    }
  }

  /** On a fresh topic (next offset 0) the replay is silent exactly when the
      exported offsets are strictly increasing and non-negative. */
  lemma FreshTopicSilentIff(rs: seq<Record>)
    ensures Deliveries(Replay(rs).emitted, 0) == [] <==>
      (StrictlyIncreasing(rs) && forall i :: 0 <= i < |rs| ==> 0 <= rs[i].offset)
  {
    SilentIffAligned(rs, 0);
  }

  lemma {:induction false} DeliveriesContain(out: seq<Emitted>, base: int, i: int)
    requires 0 <= i < |out|
    ensures forall rep :: rep in Acknowledge(out[i], None, base + i) ==> rep in Deliveries(out, base)
    decreases |out|
  {
    if i > 0 {
      DeliveriesContain(out[1..], base + 1, i - 1);
    }
  }

  /** On a topic that already holds messages (next offset base != 0), every
      record of a well-formed export is reported as a mismatch, naming the
      offset it expected and the one it got. */
  lemma StaleTopicDetected(rs: seq<Record>, base: int)
    requires Aligned(rs, 0)
    requires base != 0
    ensures forall i :: 0 <= i < |rs| ==>
      OffsetMismatch(rs[i].offset, base + rs[i].offset) in Deliveries(Replay(rs).emitted, base)
  {
    var out := Replay(rs).emitted;
    Placement(rs, 0);
    forall i | 0 <= i < |rs|
      ensures OffsetMismatch(rs[i].offset, base + rs[i].offset) in Deliveries(out, base)
    {
      var o := rs[i].offset;
      assert out[o] == RealOf(rs[i]);
      MismatchOnly(o, base + o);
      assert Acknowledge(out[o], None, base + o) == [OffsetMismatch(o, base + o)];
      DeliveriesContain(out, base, o);
    }
  }

  /** One record's step, acknowledged d > 0 past the counter: the fillers
      are silent and the record is reported once, as a mismatch. */
  lemma StepAhead(count: int, r: Record, d: int)
    requires d > 0
    ensures Deliveries(Step(count, r).emitted, count + d) == [OffsetMismatch(r.offset, Max(count, r.offset) + d)]
  {
    var fill := Fillers(count, r.offset);
    var actual := count + d + |fill|;
    assert Step(count, r).emitted == fill + [RealOf(r)];
    DeliveriesAppend(fill, [RealOf(r)], count + d);
    FillersSilent(fill, count + d);
    DeliveriesSingle(RealOf(r), actual);
    MismatchOnly(r.offset, actual);
  }

  /** On a topic already ahead of the counter by d > 0, every record of any
      export, whatever its offsets, is reported exactly once, as a
      mismatch: the i-th report names the i-th record's offset, and the
      record landed at least d past that offset. */
  lemma {:induction false} AheadTopicReportsEveryRecord(rs: seq<Record>, count: int, d: int)
    requires d > 0
    ensures |Deliveries(ReplayFrom(rs, count).emitted, count + d)| == |rs|
    ensures forall rep :: rep in Deliveries(ReplayFrom(rs, count).emitted, count + d) ==> rep.OffsetMismatch?
    ensures forall i :: 0 <= i < |rs| ==>
      var rep := Deliveries(ReplayFrom(rs, count).emitted, count + d)[i];
      rep.OffsetMismatch? && rep.expected == rs[i].offset && rep.actual >= rs[i].offset + d
    decreases |rs|
  {
    if |rs| > 0 {
      var s := Step(count, rs[0]);
      var rest := ReplayFrom(rs[1..], s.count);
      var head := Deliveries(s.emitted, count + d);
      var tail := Deliveries(rest.emitted, s.count + d);
      DeliveriesAppend(s.emitted, rest.emitted, count + d);
      assert count + d + |s.emitted| == s.count + d;
      assert Deliveries(ReplayFrom(rs, count).emitted, count + d) == head + tail;
      StepAhead(count, rs[0], d);
      AheadTopicReportsEveryRecord(rs[1..], s.count, d);
      forall i | 0 <= i < |rs|
        ensures var rep: Report := (head + tail)[i];
          rep.OffsetMismatch? && rep.expected == rs[i].offset && rep.actual >= rs[i].offset + d
      {
        if i > 0 {
          assert rs[i] == rs[1..][i - 1];
          assert (head + tail)[i] == tail[i - 1];
        }
      }
    }
  }

  /** A decreasing offset: the export [5, 2] gets five fillers, record 5 at
      offset 5 and record 2 at offset 6, which the verifier reports. */
  lemma DecreasingOffsetReported(k: Payload)
    ensures var rs := [Record(5, k, None), Record(2, k, None)];
      && Replay(rs).emitted == [Noop, Noop, Noop, Noop, Noop, Real(k, None, 5), Real(k, None, 2)]
      && Deliveries(Replay(rs).emitted, 0) == [OffsetMismatch(2, 6)]
  {
    var rs := [Record(5, k, None), Record(2, k, None)];
    assert rs[1..] == [Record(2, k, None)];
    assert Fillers(0, 5) == [Noop, Noop, Noop, Noop, Noop];
    assert Step(0, rs[0]).count == 6;
    assert rs[1..][1..] == [];
    assert ReplayFrom(rs[1..], 6).emitted == [Real(k, None, 2)];
    var out := Replay(rs).emitted;
    assert out == Fillers(0, 5) + [Real(k, None, 5)] + [Real(k, None, 2)];
    DeliveriesAppend(Fillers(0, 5) + [Real(k, None, 5)], [Real(k, None, 2)], 0);
    DeliveriesAppend(Fillers(0, 5), [Real(k, None, 5)], 0);
    FillersSilent(Fillers(0, 5), 0);
  }
}
