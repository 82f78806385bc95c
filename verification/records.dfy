/** The data the importer handles: the records of an export and the messages
    it hands to the producer, in the order it hands them over. */
module Records {
  import opened Wrappers

  /** A key or value. The importer decodes each one from JSON and re-encodes
      it compactly; that re-encoding is not modelled, so a payload passes
      through unchanged. */
  type Payload = string

  /** One entry of the structured export: the offset the record held in the
      original log, its key and its value. A value of `None` is produced as
      a tombstone. It stands both for an absent value and for a value whose
      JSON text is `null`, which also decodes to `None`. Offsets are
      assumed to be JSON integers. JSON integers are unbounded and may be
      negative, so the offset is an `int`. */
  datatype Record = Record(offset: int, key: Payload, value: Option<Payload>)

  /** One line of the line-delimited export. Both fields are always encoded:
      a missing key or a missing value becomes the JSON text `null`. */
  datatype Line = Line(key: Payload, value: Payload)

  /** One message handed to the producer. */
  datatype Emitted =
    | Noop
      // a filler that only consumes one offset slot
    | Real(key: Payload, value: Option<Payload>, expectedOffset: int)
      // an exported record, whose delivery callback is bound to expectedOffset
    | Plain(lineKey: Payload, lineValue: Payload)
      // a line-delimited record, produced without a delivery callback

  /** The key of every filler: the default (non-compact) JSON encoding of
      the object with the single field keytype = NOOP. */
  const NoopKey: Payload := "{\"keytype\": \"NOOP\"}"

  /** The arguments of the producer's `produce` call: key, value and the
      expected offset the delivery callback is bound to, if any. */
  datatype ProduceCall = ProduceCall(key: Payload, value: Option<Payload>, onDelivery: Option<int>)

  function ToCall(e: Emitted): (c: ProduceCall)
    ensures c.onDelivery.Some? <==> e.Real?
    ensures e.Real? ==> c.onDelivery == Some(e.expectedOffset)
    ensures e.Noop? ==> c.key == NoopKey && c.value.None?
  {
    match e
    case Noop => ProduceCall(NoopKey, None, None)
    case Real(k, v, o) => ProduceCall(k, v, Some(o))
    case Plain(k, v) => ProduceCall(k, Some(v), None)
  }

  /** The message an exported record becomes. */
  function RealOf(r: Record): (e: Emitted) {
    Real(r.key, r.value, r.offset)
  }

  /** The messages of `out` other than fillers, in order. */
  function WithoutFillers(out: seq<Emitted>): (kept: seq<Emitted>) {
    if |out| == 0 then []
    else (if out[0].Noop? then [] else [out[0]]) + WithoutFillers(out[1..])
  }

  /** The number of fillers in `out`. */
  function NoopCount(out: seq<Emitted>): (n: nat) {
    if |out| == 0 then 0
    else (if out[0].Noop? then 1 else 0) + NoopCount(out[1..])
  }

  /** Splitting a message sequence splits its non-filler part. */
  lemma {:induction false} WithoutFillersAppend(a: seq<Emitted>, b: seq<Emitted>)
    ensures WithoutFillers(a + b) == WithoutFillers(a) + WithoutFillers(b)
    ensures NoopCount(a + b) == NoopCount(a) + NoopCount(b)
    decreases |a|
  {
    if |a| == 0 {
      assert a + b == b;
    } else {
      assert (a + b)[1..] == a[1..] + b;
      WithoutFillersAppend(a[1..], b);
    }
  }

  /** Every message is either a filler or kept by WithoutFillers. */
  lemma {:induction false} FillersPlusOthers(out: seq<Emitted>)
    ensures NoopCount(out) + |WithoutFillers(out)| == |out|
    ensures forall e :: e in WithoutFillers(out) ==> !e.Noop?
    decreases |out|
  {
    if |out| > 0 {
      FillersPlusOthers(out[1..]);
    }
  }
}
