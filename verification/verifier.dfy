/** The delivery verifier of the structured-export path
    (importer.py:53-66): the callback bound to one expected offset and what it
    reports when the producer acknowledges the message. */
module Verifier {
  import opened Wrappers
  import opened Records

  /** An error-level diagnostic. Neither kind has room for a key or a value,
      so no payload can leak into the log. */
  datatype Report =
    | DeliveryFailed(expected: int, error: string)
    | OffsetMismatch(expected: int, actual: int)

  /** The callback bound to `expected`, given the acknowledgement's error (if
      any) and the offset the broker reports for the message. The two checks
      are independent: a failed delivery whose reported offset also differs
      yields both reports, the error first. */
  function Verify(expected: int, err: Option<string>, actual: int): (r: seq<Report>)
    ensures |r| <= 2
    ensures r == [] <==> err.None? && actual == expected
  {
    (if err.Some? then [DeliveryFailed(expected, err.value)] else [])
    + (if actual != expected then [OffsetMismatch(expected, actual)] else [])
  }

  /** The two checks, each in both directions: an error is reported exactly
      when the acknowledgement carries one, a mismatch exactly when the
      offsets differ, each report names the expected offset and nothing but
      the error or the actual offset, and when both occur the error comes
      first. */
  lemma VerifyReports(expected: int, err: Option<string>, actual: int)
    ensures var r := Verify(expected, err, actual);
      && (err.Some? <==> exists rep :: rep in r && rep.DeliveryFailed?)
      && (actual != expected <==> exists rep :: rep in r && rep.OffsetMismatch?)
      && (forall rep :: rep in r && rep.DeliveryFailed? ==> rep == DeliveryFailed(expected, err.value))
      && (forall rep :: rep in r && rep.OffsetMismatch? ==> rep == OffsetMismatch(expected, actual))
      && (|r| == 2 ==> r[0].DeliveryFailed? && r[1].OffsetMismatch?)
  {
    var failed: seq<Report> := if err.Some? then [DeliveryFailed(expected, err.value)] else [];
    var mismatch: seq<Report> := if actual != expected then [OffsetMismatch(expected, actual)] else [];
    assert Verify(expected, err, actual) == failed + mismatch;
    assert err.Some? ==> (failed + mismatch)[0].DeliveryFailed?;
    assert actual != expected ==> (failed + mismatch)[|failed|].OffsetMismatch?;
  }

  /** The acknowledgement of one produced message. Fillers and line-delimited
      records are produced without a callback, so nothing is reported for
      them; a record's callback sees only its expected offset. */
  function Acknowledge(e: Emitted, err: Option<string>, actual: int): (r: seq<Report>)
    ensures r != [] ==> e.Real?
    ensures e.Real? ==> (r == [] <==> err.None? && actual == e.expectedOffset)
    ensures forall rep :: rep in r ==> rep.expected == e.expectedOffset
  {
    match e
    case Real(_, _, o) => Verify(o, err, actual)
    case _ => []
  }

  /** What the callback reports does not depend on the record's key or
      value. */
  lemma ReportsIgnorePayload(k1: Payload, v1: Option<Payload>, k2: Payload, v2: Option<Payload>,
                             o: int, err: Option<string>, actual: int)
    ensures Acknowledge(Real(k1, v1, o), err, actual) == Acknowledge(Real(k2, v2, o), err, actual)
    ensures forall rep :: rep in Acknowledge(Real(k1, v1, o), err, actual) ==> rep.expected == o
  {
  }

  /** Messages acknowledged without error, the i-th one at offset base + i:
      a single-partition topic whose next offset was `base` when the replay
      started, which delivers in produce order and which nobody else writes
      to meanwhile. The order of the reports follows the
      messages, whatever order the acknowledgements arrive in. */
  function Deliveries(out: seq<Emitted>, base: int): (r: seq<Report>)
    decreases |out|
  {
    if |out| == 0 then []
    else Acknowledge(out[0], None, base) + Deliveries(out[1..], base + 1)
  }

  lemma DeliveriesSingle(e: Emitted, base: int)
    ensures Deliveries([e], base) == Acknowledge(e, None, base)
  {
  }

  /** A successful delivery at the wrong offset is one mismatch report. */
  lemma MismatchOnly(expected: int, actual: int)
    requires actual != expected
    ensures Verify(expected, None, actual) == [OffsetMismatch(expected, actual)]
  {
  }

  lemma {:induction false} DeliveriesAppend(a: seq<Emitted>, b: seq<Emitted>, base: int)
    ensures Deliveries(a + b, base) == Deliveries(a, base) + Deliveries(b, base + |a|)
    decreases |a|
  {
    if |a| == 0 {
      assert a + b == b;
    } else {
      assert (a + b)[0] == a[0];
      assert (a + b)[1..] == a[1..] + b;
      DeliveriesAppend(a[1..], b, base + 1);
    }
  }

  /** The deliveries are silent exactly when every message, acknowledged at
      its own offset, is silent. */
  lemma {:induction false} DeliveriesSilentIff(out: seq<Emitted>, base: int)
    ensures Deliveries(out, base) == [] <==> forall i :: 0 <= i < |out| ==> Acknowledge(out[i], None, base + i) == []
    decreases |out|
  {
    if |out| > 0 {
      DeliveriesSilentIff(out[1..], base + 1);
      if Deliveries(out, base) == [] {
        forall i | 0 <= i < |out|
          ensures Acknowledge(out[i], None, base + i) == []
        {
          if i > 0 {
            assert out[i] == out[1..][i - 1];
          }
        }
      } else if Acknowledge(out[0], None, base) == [] {
        var i :| 0 <= i < |out[1..]| && Acknowledge(out[1..][i], None, base + 1 + i) != [];
        assert Acknowledge(out[i + 1], None, base + (i + 1)) != [];
      }
    }
  }
}
