# Offset-preserving replay of an exported topic

This project models the core of `importer.py`, a script that restores an
exported log of broker records into a topic. A broker assigns offsets
sequentially and a producer cannot choose them. So the importer keeps a
running counter of the messages it has produced. Before each exported
record it produces NOOP filler messages, keyed `{"keytype": "NOOP"}` with no
value, until the counter reaches the record's original offset. It then
produces the record with a delivery callback bound to that offset. When the
broker acknowledges the message, the callback logs an error if the delivery
failed. Independently, it logs a mismatch if the broker assigned a different
offset. A second, line-delimited input format is produced one message per
line, with no fillers and no callback.

Modules:

- `Wrappers` (`wrappers.dfy`): `Option`, standing for Python's `None`.
- `Records` (`records.dfy`): exported records, input lines, the messages
  handed to the producer (`Noop`, `Real`, `Plain`), and the filler key.
- `GapFill` (`gapfill.dfy`): the scheduler, as a pure fold and as the
  original pair of loops. It also holds the placement, ordering and counting
  properties.
- `Verifier` (`verifier.dfy`): the delivery callback. It also models a topic
  that acknowledges the i-th message at offset base + i.
- `FreshTopic` (`fresh_topic.dfy`): connects the scheduler to the verifier.
  On a fresh topic, a replay raises no report exactly when the exported
  offsets strictly increase and are non-negative. On a topic already ahead
  of the counter, every record of any export is reported exactly once, as a
  mismatch.
- `LineImport` (`line_import.dfy`): the line-delimited path.

Keys and values are decoded from JSON and re-encoded by the script. Here
they are opaque strings that pass through unchanged. A tombstone is a value
of `None`.

Two consequences of the code worth stating:

- The error check and the mismatch check are two independent `if`s
  (importer.py:57-64), so a failed delivery whose reported offset also
  differs yields both reports (`Verifier.VerifyReports`).
- Offsets 0, 3, 4 give two fillers, at offsets 1 and 2, because the counter
  is already 1 after record 0 (`GapFill.GapExample`).

## Model

| member | source | states |
|---|---|---|
| Records.ToCall | importer.py:84-105 | a produce call carries a delivery callback exactly when it produces an exported record, and the callback is bound to that record's offset; a filler is produced with the NOOP key and no value |
| GapFill.Fillers | importer.py:80-86 | with the counter at c, the inner loop produces exactly max(0, o - c) messages, all of them NOOP fillers with the NOOP key, no value and no callback |
| GapFill.Step | importer.py:80-95 | one record yields max(0, o - c) fillers followed by the record itself, with its callback bound to o; the counter afterwards is max(c, o) + 1; an offset not above the counter gets no fillers, and the record is still produced |
| GapFill.ReplayFrom | importer.py:71-95 | the final counter is the starting counter plus the number of messages produced, fillers and records together |
| GapFill.Replay | importer.py:68-95 | the final count equals the number of produce calls; empty input produces nothing and leaves the count at 0 |
| GapFill.ProduceFillers | importer.py:80-86 | the inner while loop appends exactly the fillers of the fold and leaves the counter at max(c, o) |
| GapFill.ReplayLoop | importer.py:68-95 | the for loop over the records and its inner while loop, with a mutable counter and output, produce exactly the messages and the count of the fold |
| GapFill.ReplayKeepsRecords | importer.py:71-95 | for any offsets, including duplicate or decreasing ones, removing the fillers leaves exactly the input records in input order; none is dropped, duplicated or reordered |
| GapFill.Placement | importer.py:71-95 | for strictly increasing offsets not below the starting counter, the record with offset o is the (o - c)-th message produced, and the output ends right after the last record |
| GapFill.GapsAreFillers | importer.py:80-95 | for such input, a message is a filler exactly when no record's offset names its position |
| GapFill.ContiguousNeedsNoFillers | importer.py:80-95 | offsets exactly 0..n-1 produce no filler; the output is the records alone and the count is n |
| GapFill.FillerTotal | importer.py:68-95 | for strictly increasing non-negative offsets, the number of fillers is last offset + 1 - n and the count is last offset + 1 |
| GapFill.GapExample | importer.py:80-95 | offsets 0, 3, 4 give record 0, two fillers, record 3, record 4, and a count of 5 |
| Verifier.Verify | importer.py:55-64 | an acknowledgement yields at most two reports, and none exactly when it carries no error and the actual offset equals the expected one |
| Verifier.VerifyReports | importer.py:55-64 | an error is reported iff the acknowledgement carries one; independently, a mismatch is reported iff the actual offset differs from the expected one; each report carries only the expected offset and the error or the actual offset; the error comes first when both occur |
| Verifier.Acknowledge | importer.py:84-105 | only a record's acknowledgement can report; fillers and line-delimited messages never do; a record's acknowledgement is silent exactly when it carries no error and the actual offset equals the record's offset; every report names that offset |
| Verifier.ReportsIgnorePayload | importer.py:53-64 | what a record's callback reports does not depend on its key or value, and every report names the record's expected offset |
| FreshTopic.SilentIffAligned | importer.py:53-95 | acknowledged by a topic whose next offset is the starting counter, the replay is silent iff the offsets strictly increase and none is below that counter |
| FreshTopic.FreshTopicSilentIff | importer.py:53-95 | on a fresh topic the replay raises no report iff the exported offsets are strictly increasing and non-negative |
| FreshTopic.StaleTopicDetected | importer.py:53-95 | on a topic whose next offset is not 0, every record of a well-formed export is reported as a mismatch naming its expected and actual offset |
| FreshTopic.AheadTopicReportsEveryRecord | importer.py:53-95 | on a topic whose next offset is d > 0 past the starting counter, any export, whatever its offsets, yields exactly one report per record, in input order: the i-th report is a mismatch naming the i-th record's offset and an actual offset at least d past it |
| FreshTopic.DecreasingOffsetReported | importer.py:61-95 | offsets 5 then 2 give five fillers and both records, and only record 2 is reported, as a mismatch 2 against 6 |
| LineImport.LineReplay | importer.py:97-105 | the counter equals the number of messages produced |
| LineImport.OneCallPerLine | importer.py:98-105 | N lines give exactly N produce calls; the i-th carries the i-th line's key and value and no callback; the count is N |
| LineImport.NoFillersNoReports | importer.py:97-105 | the line-delimited path produces no filler, and no report whatever offsets the topic assigns |
| LineImport.ImportLines | importer.py:98-105 | the for loop over the lines produces one message per line, in order, carrying that line's key and value; the count is the number of lines; the result equals the fold |

## Left out

- Argument parsing, YAML configuration and logging setup (importer.py:29-41): process glue.
- The process-wide SSL verify-mode override (importer.py:25): a global side effect with no logic to model.
- The producer client (importer.py:45, 84, 91, 105, 108). Construction, network delivery, batching, the asynchronous timing of callbacks and `flush()` belong to the client library. `produce` is modelled as appending to the output sequence. The broker's offset assignment is modelled by `Verifier.Deliveries`, which acknowledges the i-th message at base + i with no error. This assumes a topic with a single partition, delivery in produce order, and no other writer during the replay. With several partitions the NOOP key and the record keys may hash to different partitions, and the gap-fill aligns nothing.
- Reading the input file and the JSON decode and re-encode (importer.py:69-72, 78, 88-90, 101-104). Keys and values are opaque, already-decoded payloads that pass through unchanged. Malformed JSON or an unreadable file makes the script raise before or while producing. On the structured path, a missing `key` also raises, at `json.loads(None)` (importer.py:72), and so does a missing `offset`, at `record["offset"]` (importer.py:75). On the line-delimited path, a missing key or value is encoded as the JSON text `null` (importer.py:103-104) and the message is still produced. The failures are not modelled.
- The offset that the acknowledged message reports when delivery failed: the client supplies it. The model takes it as the `actual` parameter, whatever the error.
- Log message text (importer.py:73, 81-83, 107): the text is diagnostic. A report keeps only the values the error lines print. The debug line at 81-83 has one effect beyond logging, described in the next line.
- GapFill.Fillers: assumes every key decodes to a JSON object. Python builds the f-string at importer.py:82 even when debug logging is off, so `k.get("seq")` always runs. Suppose a record needs at least one filler and its key decodes to a string, number, list or `null`. Then the script raises AttributeError before that record's first filler. The records before it were handed to the producer, but `flush()` (importer.py:108) is never reached, so their delivery is not awaited. Keys are opaque payloads in this model, so that abort is not modelled.
