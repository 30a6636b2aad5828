# formulaTel: a verified model of the telemetry pipeline

formulaTel reads F1 23 telemetry datagrams, turns the player's data into protobuf messages,
ships them over a transport, and stores them in TimescaleDB. This project models both
stateful halves of that pipeline, the decoder that feeds them, and their composition, and
proves what every packet, every run and every reachable state satisfies. Verify it with
`dafny verify dfyconfig.toml`.

## What is modelled

**Ingest.** `PackedCodec` has packed little-endian layouts as a recursive datatype, with the
field-by-field walk that `binary.Read` does, an encoder, and paths with their byte offsets.
`F123Packets` has the header and the five decoded bodies. `Ingest` has the normalizers, the
lap filter and the routing, once as the walk over the whole packet that the code does
(`HandlePacket`) and once as direct reads at fixed offsets (`FromBytes`); they are equal for
every packet. `IngestFacts` says exactly which packets panic, are dropped, or are changed by
capture. `Emission` covers whole runs of the lap filter. `Transformer` is the same code as
objects (cache, packet buffer, transformer with its five channels) and `PacketQueue` is the
listener, each proved against those functions.

**Persist.** `Rows` builds the row maps, `ColumnBytes` traces each column to its bytes,
`CopyBatch` does the positional COPY under an arbitrary column order. `Worker` is the batching
worker as a state machine (select, write in flight, write done) and `WorkerRuns` proves its
runs; `TableBatcher` is the worker as an object with a buffer and a mutex, proved to follow
it. `LapTable` is the table with the UNIQUE constraint. `Persist` puts senders, bounded
channels, five workers, writes in flight and lap writers into one step system with every
interleaving, and `Progress` reads off the actions of a run what must have happened, and
proves that everything accepted can still be stored.

**Both.** `EndToEnd` composes ingest, a transport that loses, repeats and reorders, and
persist, with restarts of ingest; `Provenance` traces stored rows back to packets.
`Delivery` says what the whole system can always still deliver, and `Witnesses` has concrete
inputs for the surprises listed below.

Floats are carried as their 32-bit patterns. Columns are named by an enumeration instead of
strings. The clock that stamps messages, whether a write succeeds, what a select yields and
how goroutines interleave are parameters or choices, so each theorem holds for all of them.
A message handed to `Add` is told apart from every other by the context it is wrapped with.
A COPY and an INSERT are taken to be atomic. The fields of a game struct are laid out in
a few nested groups; grouping changes no offset.

## Where the code does not do what one would expect

Each of these has its exact condition, proved for all inputs, and an input that shows it.

- A packet of fewer than 29 bytes is logged and then routed with a nil header; an array packet
  with a player index of 22 or more, and a new maximum above 100 completed laps, index past
  their arrays. `IngestFacts.StatusExactly` gives the exact set of panicking packets;
  `Witnesses.EmptyPacketPanics`, `Witnesses.CarTwentyTwoPanics` and
  `Witnesses.LapsPastTheArrayPanic` are in it.
- In the last case the cache has already been raised (`IngestFacts.FailuresSendNothing` gives
  the cache after every packet, `IngestFacts.OverrunsRaise` and
  `Witnesses.LapsPastTheArrayPanic` this case).
- Capture slices the array of 100 laps by the announced number, so it can panic where the same
  packet is harmless without capture: `IngestFacts.CaptureTransparentExactly`,
  `Witnesses.CaptureAlonePanics`.
- A comment says tire columns are included even if the tires are nil; the code dereferences
  them: `Rows.BuildExactly`, `Witnesses.NilTiresPanic`.
- A message without a row for its table leaves the worker's mutex locked for good:
  `WorkerRuns.HealthExactly`, `WorkerRuns.LockedForever`, `Witnesses.NoDataLocks`. Under the
  routing of `Add` that cannot happen (`Persist.HealthExactly`), and what ingest sends never
  brings persist down (`EndToEnd.PersistStaysUp`).
- `current_lap_time` is documented as the time since the beginning of the current lap; the code
  fills it from the last lap's time. It is right exactly if the two times in the packet are
  equal: `ColumnBytes.CurrentLapTimeExactly`, `ColumnBytes.CurrentLapColumnExactly`,
  `Witnesses.LastLapTimeIsStored`.
- The cache key `session.car` belongs to one pair of strings exactly if neither contains a dot
  (`CacheKeys.JoinKeyUniqueExactly`, `CacheKeys.JoinKeyAmbiguousWithDots`); for the decimal
  numbers it is used with it is unambiguous (`CacheKeys.CarKeyInjective`).
- The lap table's content depends on the order of the inserts exactly if two messages for one
  lap disagree (`LapTable.ConfluentExactly`, `Witnesses.DisagreeingLapsDependOnOrder`).
  `EndToEnd.RowsAgree` therefore assumes that history packets report the laps that were driven;
  without that assumption each row still is a lap that some packet announced
  (`Provenance.LapRowsAreSourced`).

## Model

| member | source | states |
|---|---|---|
| PackedCodec.DecodeAfterEncode | formulatel/f123/f123.go:44-74 | for any layout of fixed-width fields, arrays and structs, decoding gives back the encoded value wherever its bytes stand |
| PackedCodec.WalkExactly | formulatel/f123/f123.go:50-53 | reading field by field with a running cursor succeeds exactly if the layout's size is left, then has the value and stands exactly that many bytes further on, and fails otherwise |
| PackedCodec.BytesAreDigits | formulatel/f123/f123.go:50-53 | little-endian: the i-th byte of a field is the i-th base-256 digit of its value, lowest first |
| PackedCodec.EncodeAfterDecode | formulatel/f123/f123.go:44-74 | every byte string of the layout's length decodes to a value of the layout, and encoding that gives back those very bytes |
| PackedCodec.PickIsDecodeAtOffset | formulatel/f123/f123.go:168-274 | for every path into a layout, picking the part out of the whole decoded value is decoding that part at its computed offset |
| F123Packets.PacketSizes | formulatel/f123/model.go:72-239 | the packed sizes of header, car telemetry, car motion, lap data, session history and extended motion are 29, 60, 60, 50, 1431 and 188 |
| F123Packets.HeaderAgrees | formulatel/f123/model.go:72-85 | the decoded header holds the bytes at offsets 6, 7-14 and 27 |
| F123Packets.CarTelemetryAgrees | formulatel/f123/model.go:97-114 | each decoded telemetry field, wheel arrays included, is the integer at its byte offset |
| F123Packets.CarMotionAgrees | formulatel/f123/model.go:118-137 | each decoded motion field is the integer at its byte offset |
| F123Packets.LapDataAgrees | formulatel/f123/model.go:141-171 | each decoded lap field is the integer at its byte offset |
| F123Packets.SessionHistoryAgrees | formulatel/f123/model.go:183-212 | the decoded history holds the two counters and each of the 100 laps at its own offset |
| F123Packets.ExtendedMotionAgrees | formulatel/f123/model.go:218-239 | each decoded wheel array holds the four integers at its byte offset |
| F123Packets.CarElementAtOffset | formulatel/f123/f123.go:170-206 | the element picked after decoding the 22-car array is the element decoded at index times element size |
| CacheKeys.DecimalExactly | formulatel/f123/f123.go:181-182 | what an identifier is printed as is the decimal numeral of the number, without leading zeros, and no other string is |
| CacheKeys.DecimalInjective | formulatel/f123/f123.go:427-427 | distinct unsigned integers have distinct decimal forms |
| CacheKeys.CarKeyInjective | formulatel/f123/latest_lapdata.go:20-35 | two cars share a cache slot exactly if session and car index are both equal |
| CacheKeys.JoinKeyUniqueExactly | formulatel/f123/latest_lapdata.go:20-35 | a joined key belongs to one pair of strings exactly if neither contains a dot |
| CacheKeys.JoinKeyAmbiguousWithDots | formulatel/f123/latest_lapdata.go:23-23 | for arbitrary strings the joined key does not determine its parts |
| Ingest.HandleIsFromBytes | formulatel/f123/f123.go:168-307 | for every packet and cache, decoding the whole packet and picking the player out does exactly what reading the player's bytes at fixed offsets does: cache, messages and failure |
| IngestFacts.StatusExactly | formulatel/f123/f123.go:168-307 | which packets panic, which are dropped as too short, and that all others are routed |
| IngestFacts.FailuresSendNothing | formulatel/f123/f123.go:168-307 | a packet that is not routed sends nothing; the cache changes exactly for a player history with a new maximum above zero, to that maximum in that car's entry and nowhere else |
| IngestFacts.OverrunsRaise | formulatel/f123/f123.go:432-434 | a history that runs past its array panics with its car's cache entry already raised |
| IngestFacts.SentFromIngest | formulatel/f123/f123.go:168-291 | every message sent has its submessages, and a lap message carries a completed lap of the packet that caused it |
| IngestFacts.CapturePanicsExactly | formulatel/f123/f123.go:311-346 | capture panics exactly if a capture is written for a player history announcing over 100 laps |
| IngestFacts.CaptureTransparentExactly | formulatel/f123/f123.go:295-346 | capture changes a packet's outcome in exactly that case |
| Emission.EmissionExactly | formulatel/f123/f123.go:412-450 | a handled packet causes a burst exactly if it announces more laps than all before it and at most 100; the burst is its full prefix of laps; a larger record ends the run |
| Emission.CacheIsRunningMaximum | formulatel/f123/latest_lapdata.go:20-35 | after every step the cache entry of a car is the largest number of laps announced for it |
| Emission.BestIsMaximum | formulatel/f123/latest_lapdata.go:24-26 | that number bounds every announcement and is attained |
| Emission.BurstSizesAreRecords | formulatel/f123/f123.go:419-449 | in any run the burst sizes of a car are the left-to-right strict records, as far as the array can hold them, of what the handled packets announce |
| Emission.KeyIndependence | formulatel/f123/f123.go:247-266 | in any run, dropping every handled packet but a car's own histories leaves its bursts and its cache entry as they were and adds no panic |
| Emission.EmissionBound | formulatel/f123/f123.go:419-449 | a car causes at most L bursts and 1 + ... + L messages, L being its final cache entry |
| Emission.TriangularIsHalfProduct | formulatel/f123/f123.go:419-449 | 1 + ... + L is L(L+1)/2 |
| Emission.EmissionBoundAbsolute | formulatel/f123/f123.go:419-449 | in any run no car ever causes more than 100 bursts or 5050 messages |
| Transformer.LatestLapData.Set | formulatel/f123/latest_lapdata.go:20-28 | the entry becomes the larger of old and new, and is returned; all other entries stay |
| Transformer.F123PacketBuffer.Read | formulatel/f123/f123.go:50-53 | the walk consumes exactly the layout's bytes, yields their value and leaves the rest, or fails having used up what was left |
| Transformer.F123PacketBuffer.UnpackHeader | formulatel/f123/f123.go:44-56 | the first header read is kept and later calls consume nothing; a short packet leaves no header |
| Transformer.F123PacketBuffer.UnpackBody | formulatel/f123/f123.go:62-74 | an error without a header, the next value with one, an error if the body is short |
| Transformer.F123PacketTransformer.NormalizeSessionHistoryData | formulatel/f123/f123.go:412-450 | the loop fills the burst that the cache calls for, or panics past the array with the cache raised |
| Transformer.F123PacketTransformer.RouteSessionHistory | formulatel/f123/f123.go:238-267 | only the player's own history is used; its laps go out one message each, in order |
| Transformer.F123PacketTransformer.Route | formulatel/f123/f123.go:168-291 | cache, status and all five channels change as the packet calls for; a nil header panics |
| Transformer.F123PacketTransformer.HandleCapture | formulatel/f123/f123.go:311-346 | whether capturing the packet panics |
| Transformer.F123PacketTransformer.HandlePacket | formulatel/f123/f123.go:295-307 | one packet, with or without capture, does to cache and channels what its bytes call for |
| Transformer.F123PacketTransformer.Consume | formulatel/f123/f123.go:147-164 | the channels hold exactly what a run over the handled packets sends, and packets are handled in order until the queue closes or a packet panics |
| PacketQueue.F123PacketListener.ReadFrom | formulatel/f123/f123.go:105-106 | the buffer holds what fits of the datagram |
| PacketQueue.F123PacketListener.ReadOne | formulatel/f123/f123.go:105-127 | bytes are queued in a new buffer even if they came with an error; only a read without bytes records a final error |
| PacketQueue.F123PacketListener.Take | formulatel/f123/f123.go:154-161 | the consumer gets the oldest packet with the bytes it was received with, and writing to its buffer changes no queued packet |
| PacketQueue.F123PacketListener.Listen | formulatel/f123/f123.go:87-129 | under any interleaving with the consumer, packets taken then packets queued are the packets received, unchanged and in order; a final error is returned again without reading |
| PacketQueue.HearsEverything | formulatel/f123/f123.go:95-121 | as long as there is no cancellation and no byte-less read with a real failure, every datagram is passed on in order, up to 2048 bytes of it, and there is no error |
| PacketQueue.StopsAtFirst | formulatel/f123/f123.go:96-127 | the first cancellation or byte-less failure ends the run: everything before it is passed on, nothing after, and the error is that of the failure |
| PacketQueue.NeverTheDeadline | formulatel/f123/f123.go:122-122 | an expired read deadline never ends the run |
| Rows.BuildExactly | formulatel/internal/timescale/batcher.go:42-205 | a row is built exactly for a complete message of the table's kind, a missing submessage panics, and every row has exactly the columns that its table's migration declares |
| ColumnBytes.RowFromBytes | formulatel/internal/timescale/batcher.go:78-205 | from packet to row: one message, whose row has every column of its table, each holding the packet's bytes at that column's own offset |
| ColumnBytes.RowByType | formulatel/f123/model.go:12-54 | byte 6 decides the table: 6 vehicle, 0 motion, 2 live lap, 13 extended wheel; a whole packet of such a type is one row of that table, from the bytes of car byte 27 |
| ColumnBytes.RefusedByType | formulatel/f123/f123.go:170-194 | a packet shorter than its type calls for has no effect; a whole one of type 6, 0 or 2 for car 22 or more panics without any |
| ColumnBytes.OtherTypes | formulatel/f123/f123.go:238-291 | type 11 sends the completed laps of the player's own new maximum and nothing but laps; every other type is routed without effect |
| ColumnBytes.TireCellsFromBytes | formulatel/f123/f123.go:349-377 | each tire column holds the bytes of its own wheel, in the game's wheel order |
| ColumnBytes.WheelCellsFromBytes | formulatel/f123/f123.go:453-498 | each wheel column holds the bytes of its own wheel and quantity |
| ColumnBytes.MotionCellsFromBytes | formulatel/f123/f123.go:392-409 | each motion column holds the bytes of its quantity |
| ColumnBytes.LapCellsFromBytes | formulatel/f123/f123.go:207-237 | each live lap column holds its bytes; the current lap time holds those of the last lap's time |
| ColumnBytes.CurrentLapTimeExactly | protobuf/telemetry.proto:124-124 | the cell documented as the time since the beginning of the lap holds it exactly if it equals the last lap's time |
| ColumnBytes.CurrentLapColumnExactly | formulatel/f123/f123.go:207-237 | the same for the row that any lap data packet ends up as |
| ColumnBytes.VehicleCellsFromBytes | formulatel/f123/f123.go:380-389 | each scalar vehicle column holds its bytes |
| ColumnBytes.LapMessageFromBytes | formulatel/f123/f123.go:433-449 | lap i carries the times and validity bits of the 14 bytes at 36 + 14 i |
| CopyBatch.RowKeys | formulatel/internal/timescale/batcher.go:420-426 | every column name once, in an arbitrary order |
| CopyBatch.ByNameOfPositional | formulatel/internal/timescale/batcher.go:361-386 | whatever the order, storing positional values by name projects the row to the ordered columns |
| CopyBatch.AbsentIsNull | formulatel/internal/timescale/batcher.go:368-372 | a column that a row lacks is stored as null, every other as given |
| CopyBatch.StoredAsGivenExactly | formulatel/internal/timescale/batcher.go:361-386 | the rows stored are the rows given exactly if all have the first row's columns |
| CopyBatch.OrderDoesNotMatter | formulatel/internal/timescale/batcher.go:361-426 | any two orders of the columns store the same rows |
| CopyBatch.BuiltRowsHaveSameColumns | formulatel/internal/timescale/batcher.go:42-205 | rows built for one table from any messages have the same columns |
| CopyBatch.CopyFromSource.Values | formulatel/internal/timescale/batcher.go:410-417 | the first unread row, which is consumed, or nothing at the end |
| CopyBatch.SourceRows | formulatel/internal/timescale/batcher.go:365-373 | the nested loops fill each row's values in the order of the columns, nil where a column is absent |
| CopyBatch.Database.CopyFrom | formulatel/internal/timescale/batcher.go:379-382 | the source is drained and all rows are stored by name, or none |
| CopyBatch.WriteBatch | formulatel/internal/timescale/batcher.go:361-386 | the table grows by the batch's rows, projected to the first row's columns, or stays; other tables stay |
| WorkerRuns.RunConserves | formulatel/internal/timescale/batcher.go:262-358 | for any schedule and any write outcomes, what was attempted, then what is buffered, is every row received, once and in order |
| WorkerRuns.HealthExactly | formulatel/internal/timescale/batcher.go:299-313 | the mutex is free at the next select exactly if every message so far was a lap or had a row in the table |
| WorkerRuns.LockedForever | formulatel/internal/timescale/batcher.go:299-340 | once the mutex is left held nothing is ever written again |
| WorkerRuns.TickFlushes | formulatel/internal/timescale/batcher.go:319-322 | after a tick nothing is left unattempted |
| WorkerRuns.RowsAccounted | formulatel/internal/timescale/batcher.go:314-358 | for any write outcomes the table is the received rows in order with the stretches of the failed batches cut out whole, the buffer is the received rows no batch has held yet, and what is lost is the rest, at most failures times a full batch |
| WorkerRuns.CutOutIsWritten | formulatel/internal/timescale/batcher.go:350-357 | cutting each failed batch's stretch out of the attempted rows leaves exactly the rows written |
| WorkerRuns.BatchingRefinesRowAtATime | formulatel/internal/timescale/batcher.go:262-386 | for all messages, ticks and batch sizes, without failed writes: the worker stops at a channel close exactly if every message was a lap or had a row; the table is then the received rows in order, as a worker with batch size one leaves it without ticks |
| WorkerRuns.DrainsOnClose | formulatel/internal/timescale/batcher.go:265-323 | a closed channel with k queued messages stops the worker after exactly k+1 receives, whatever ticks interleave, with an empty buffer and every row attempted once |
| TableBatcher.TableBatcher.Flush | formulatel/internal/timescale/batcher.go:328-358 | the whole buffer is taken and written, or the call blocks on a mutex already held |
| TableBatcher.TableBatcher.Receive | formulatel/internal/timescale/batcher.go:274-318 | buffer, mutex, lap writers and table after any message, the failing ones included |
| TableBatcher.TableBatcher.Iterate | formulatel/internal/timescale/batcher.go:265-323 | one iteration of the loop does to the object what it does to the state machine |
| TableBatcher.TableBatcher.FlusherWorker | formulatel/internal/timescale/batcher.go:262-325 | for every script of selects and write outcomes, buffer, mutex, lap writers, table and ending are those of the worker's run |
| TableBatcher.TableAtStop | formulatel/internal/timescale/batcher.go:262-386 | at a channel-close stop without failed writes the table has grown by one row for each received message, in order |
| LapTable.SessionLapTable.WriteLapRow | formulatel/internal/timescale/batcher.go:230-259 | the row is added unless its key is there; an error without lap data or if the statement fails |
| LapTable.FirstArrivalKept | migrations/20260531000000_create_session_lap_data_table.up.sql:18-18 | keys stay unique, nothing stored is changed or removed, and the first arrival for a key is the row kept |
| LapTable.ReplayIsNoOp | formulatel/internal/timescale/timescale_test.go:645-694 | replaying any rows of a finished history, in any order and number, changes nothing |
| LapTable.ConfluentExactly | formulatel/internal/timescale/batcher.go:230-259 | the content is independent of order and repetition of the inserts exactly if rows with equal keys agree |
| Persist.Always | formulatel/internal/timescale/batcher.go:262-519 | the invariant of the whole system holds in every state reachable before a cancellation |
| Persist.Conservation | formulatel/internal/timescale/batcher.go:262-519 | under any interleaving each accepted message is in exactly one place, once, and any other message is nowhere |
| Persist.BoundsAlways | formulatel/internal/timescale/batcher.go:442-446 | no channel exceeds 100, every buffer is below max(1, batchSize), every batch has 1 to max(1, batchSize) rows, and the lap lane never buffers or copies |
| Persist.HealthExactly | formulatel/internal/timescale/batcher.go:299-340 | the process goes down exactly by receiving a message with a missing submessage; until then every mutex is free at every select and every worker holds what it received |
| Persist.LaneIsRun | formulatel/internal/timescale/batcher.go:262-358 | however lanes interleave, each worker is in the state of its own run over the script that the actions spell out for it, on exactly the messages that its lane received, in order |
| Persist.IdleLaneIsStored | formulatel/internal/timescale/batcher.go:262-386 | an idle lane without failed writes has stored exactly what arrived in it, in order |
| Progress.AcceptedExactly | formulatel/internal/timescale/batcher.go:483-519 | in every run the accepted messages are exactly those added with data while the process is up, in order |
| Progress.AddedIsWaiting | formulatel/internal/timescale/batcher.go:490-519 | right after its Add a message with data waits to be sent |
| Progress.ArrivalsExactly | formulatel/internal/timescale/batcher.go:490-518 | what arrived in a lane is exactly what was sent to it while fewer than 100 messages were queued, in order |
| Progress.HundredFit | formulatel/internal/timescale/batcher.go:442-446 | a channel takes up to 100 messages of its kind, in order, without its worker |
| Progress.InsertsExactly | formulatel/internal/timescale/batcher.go:286-297 | the laps written are exactly those whose insert succeeded, in order, and the laps lost those whose insert failed, whichever writer returns when |
| Progress.CanSettle | formulatel/internal/timescale/batcher.go:262-519 | from every reachable state whose accepted messages are complete, persist can go on without Add and without a failing write until nothing is on its way and every accepted message is stored, unless it had been lost before |
| EndToEnd.RowsAgree | formulatel/internal/timescale/batcher.go:230-259 | in every run with loss, repetition, reordering, restarts and failed writes, no two rows are for one lap and every row has the values driven for its session, car and lap number |
| EndToEnd.PresentExactly | formulatel/internal/timescale/batcher.go:286-297 | a lap is in the table exactly if some insert for it succeeded |
| EndToEnd.BurstStored | formulatel/f123/f123.go:247-266 | once one burst of m laps is inserted, laps 0 to m-1 are all there, each once and as driven, whatever other bursts lost |
| EndToEnd.SettledExactly | formulatel/internal/timescale/batcher.go:483-519 | once persist has settled, a delivered lap message is inserted exactly if its insert did not fail |
| EndToEnd.BurstDelivered | formulatel/f123/f123.go:247-266 | a burst whose messages were all delivered, not every insert of any failing, is all there once persist has settled |
| EndToEnd.PersistStaysUp | formulatel/internal/timescale/batcher.go:490-518 | what ingest sends never brings persist down, so every worker's mutex is free at every select |
| EndToEnd.RestartResends | formulatel/f123/f123.go:412-450 | after a restart the next history sends all its completed laps again |
| Provenance.StoredRowsAreSourced | formulatel/internal/timescale/batcher.go:361-386 | in every run each row of a telemetry table is, column by column and with its session, car, time and title, that of a packet received earlier |
| Provenance.LapRowsAreSourced | formulatel/internal/timescale/batcher.go:230-259 | in every run each row of the lap table is a completed lap that a history packet received earlier announced, with the values it reported |
| Delivery.DeliveredExactly | formulatel/internal/timescale/batcher.go:483-519 | in the composed system persist has accepted exactly the delivered messages, in order |
| Delivery.TransitExactly | formulatel/f123/f123.go:168-291 | in transit is exactly what a running ingest has sent and nobody lost since |
| Delivery.PersistRunsAlone | formulatel/internal/timescale/batcher.go:262-519 | in the composed system persist is in the state that it reaches on its own on what it is asked to do |
| Delivery.IngestRunsAlone | formulatel/f123/f123.go:147-164 | and ingest in the state that it reaches on its own on the packets since its last start |
| Delivery.CanDeliver | formulatel/f123/f123.go:147-307 | from any state of any run, ingest can be restarted and given any packet, and everything it then sends can be stored |
| Delivery.CanRepair | formulatel/f123/f123.go:412-450 | so after a restart and one history of m completed laps, laps 0 to m-1 can all be in the table, each once and as driven, whatever was lost before |
| Delivery.CanStore | formulatel/internal/timescale/batcher.go:361-386 | and any whole telemetry packet can get its row into its table |
| Witnesses.EmptyPacketPanics | formulatel/f123/f123.go:302-306 | a packet without a full header panics |
| Witnesses.CarTwentyTwoPanics | formulatel/f123/f123.go:189-194 | a motion packet with player index 22 panics |
| Witnesses.LapsPastTheArrayPanic | formulatel/f123/f123.go:432-434 | a history of 102 laps panics with the cache raised to 101 |
| Witnesses.CaptureAlonePanics | formulatel/f123/f123.go:328-342 | a history of 101 laps is routed, and panics if it is captured |
| Witnesses.LastLapTimeIsStored | formulatel/f123/f123.go:216-217 | a lap data packet whose row does not hold the current lap's time |
| Witnesses.NilTiresPanic | formulatel/internal/timescale/batcher.go:115-131 | a vehicle message without tires panics in the row builder |
| Witnesses.NoDataLocks | formulatel/internal/timescale/batcher.go:299-309 | a message without data leaves the mutex held and the next tick blocks |
| Witnesses.DisagreeingLapsDependOnOrder | formulatel/internal/timescale/batcher.go:230-259 | two rows that disagree on a lap, of which the first inserted is stored |

## Left out

- Shutdown after a cancellation: closing the channels races the pending senders, so the code gives no delivery guarantee there. The worker's own reaction to a cancellation is modelled; `Persist` and `EndToEnd` cover the states before one.
- UDP sockets, read deadlines, sleeps and real time: a datagram read and a tick are choices of the environment.
- The MQTT client, the broker and protobuf encoding: the transport is a set of sent messages that may be lost, and delivered any number of times in any order.
- pgx and TimescaleDB internals: a COPY stores all its rows or none, an INSERT adds a row unless its key is there.
- `copyFromSource.ReadRow` and `Err`: COPY drains the source through `Next` and `Values` only.
- Tracing, logging and writing capture files: of capture only its panics are kept.
- Float arithmetic, including the conversion of tire pressure to an unsigned integer: floats are bit patterns and the conversion is the symbolic cell `Truncated`.
- Struct fields that the pipeline never reads are in the layouts but not in the decoded records.
- Channel sends of the transformer do not block in the model: back-pressure delays messages and changes none of them.
- PacketQueue.F123PacketListener.Take: the consumer's writes are represented by one byte of its buffer.
- Persist.Step: the router, its goroutines and channels are modelled on values as a step system, because no sequential method covers their interleavings; aliasing between goroutines is the mutex and the messages only.
- The generic read and persist loop in `formulatel/formulatel.go`, configuration checks, generated code, the admin CLI, the replay tool, dashboards and deployment: plumbing.
