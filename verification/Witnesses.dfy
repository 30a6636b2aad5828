/** For each way in which the code does not do what one would expect, an input that shows
    it. The exact conditions are stated where each behaviour is modelled. */
module Witnesses {
  import opened Wrappers
  import opened PackedCodec
  import opened F123Packets
  import opened Telemetry
  import opened Ingest
  import opened IngestFacts
  import opened Rows
  import opened ColumnBytes
  import opened Worker
  import opened WorkerRuns
  import opened LapTable

  // ---- packets ---------------------------------------------------------------

  /** A packet of n bytes, all zero but the one at j and the one at k. */
  function Bytes(n: nat, j: nat, x: byte, k: nat, y: byte): (packet: seq<byte>)
    ensures |packet| == n
    ensures forall i | 0 <= i < n :: packet[i] == if i == j then x else if i == k then y else 0
  {
    seq(n, i requires 0 <= i < n => if i == j then x else if i == k then y else 0)
  }

  /** A packet without a full header: none of its bytes is there. */
  lemma EmptyPacketPanics(cache: Cache, clock: Clock)
    ensures HandlePacket(cache, [], clock).status == Panicked
  {
    StatusExactly(cache, [], clock);
  }

  /** A motion packet whose player index is 22. */
  lemma CarTwentyTwoPanics(cache: Cache, clock: Clock)
    ensures HandlePacket(cache, Bytes(1349, 27, 22, 27, 22), clock).status == Panicked
  {
    hide HandlePacket;
    var packet := Bytes(1349, 27, 22, 27, 22);
    OneByte(packet, 6);
    OneByte(packet, 27);
    StatusExactly(cache, packet, clock);
  }

  /** The player history of session 0 and car 0 that counts so many laps. */
  function HistoryPacket(numLaps: byte): seq<byte> {
    Bytes(1460, 6, 11, 30, numLaps)
  }

  lemma IsHistory(numLaps: byte)
    ensures IsPlayerHistory(HistoryPacket(numLaps)) && CompletedLaps(HistoryPacket(numLaps)) == numLaps as int - 1
  {
    var packet := HistoryPacket(numLaps);
    OneByte(packet, 6);
    OneByte(packet, 27);
    OneByte(packet, 29);
    OneByte(packet, 30);
    hide LittleEndian;
  }

  lemma OneByte(packet: seq<byte>, o: nat)
    requires o < |packet|
    ensures LittleEndian(packet, o, 1) == packet[o] as int
  {
    FlagsByte(packet, o);
  }

  /** With 102 laps, and nothing sent before, the array is overrun, and the cache raised. */
  lemma LapsPastTheArrayPanic(clock: Clock)
    ensures HandlePacket(map[], HistoryPacket(102), clock).status == Panicked
    ensures IsPlayerHistory(HistoryPacket(102))
    ensures HandlePacket(map[], HistoryPacket(102), clock).cache == map[HistoryKey(HistoryPacket(102)) := 101]
  {
    hide HandlePacket, HistoryPacket, HistoryKey;
    IsHistory(102);
    OverrunsRaise(map[], HistoryPacket(102), clock);
  }

  /** With 101 laps the packet is routed, but capturing it panics. */
  lemma CaptureAlonePanics(clock: Clock)
    ensures HandlePacket(map[], HistoryPacket(101), clock).status == Routed
    ensures HandleWithCapture(map[], HistoryPacket(101), clock, true, true).status == Panicked
  {
    var packet := HistoryPacket(101);
    IsHistory(101);
    assert |packet| == 1460 && HeaderAt(packet, 0).packetId == SESSION_HISTORY_PACKET;
    hide HandlePacket, HistoryPacket, HeaderAt, CapturePanics, LittleEndian;
    StatusExactly(map[], packet, clock);
    CapturePanicsExactly(packet, true, true);
  }

  /** A lap data packet of car 0 whose last lap took one millisecond and whose current lap
      has just begun. */
  function LapPacket(): seq<byte> {
    Bytes(1129, 6, 2, 29, 1)
  }

  lemma JustBegun()
    ensures |LapPacket()| == 1129 && StoredByCopy(LapPacket()) && Base(LapPacket()) == 29
    ensures HeaderAt(LapPacket(), 0).packetId == LAP_DATA_PACKET
    ensures LittleEndian(LapPacket(), 29, 4) == 1 && LittleEndian(LapPacket(), 33, 4) == 0
  {
    var packet := LapPacket();
    OneByte(packet, 6);
    OneByte(packet, 27);
    FourBytes(packet, 29);
    FourBytes(packet, 33);
    hide LittleEndian;
  }

  lemma LastLapTimeIsStored(cache: Cache, clock: Clock)
    ensures |LapPacket()| == 1129 && |HandlePacket(cache, LapPacket(), clock).sent| == 1
    ensures var built := BuildRow(HandlePacket(cache, LapPacket(), clock).sent[0], LiveLap);
            && built.Built?
            && OfLap(CurrentLapTime) in built.row
            && built.row[OfLap(CurrentLapTime)] != Int(LittleEndian(LapPacket(), 33, 4))
  {
    hide LapPacket, HandlePacket, BuildRow, LittleEndian, HeaderAt, StoredByCopy, Base;
    JustBegun();
    CurrentLapColumnExactly(cache, LapPacket(), clock);
  }

  lemma FourBytes(packet: seq<byte>, o: nat)
    requires o + 4 <= |packet|
    ensures LittleEndian(packet, o, 4)
         == packet[o] as int + 256 * (packet[o + 1] as int + 256 * (packet[o + 2] as int + 256 * packet[o + 3] as int))
  {
    OneByte(packet, o + 3);
    assert LittleEndian(packet, o + 2, 2) == packet[o + 2] as int + 256 * LittleEndian(packet, o + 3, 1);
    assert LittleEndian(packet, o + 1, 3) == packet[o + 1] as int + 256 * LittleEndian(packet, o + 2, 2);
  }

  // ---- messages --------------------------------------------------------------

  /** A vehicle message whose tires are nil, which its row builder dereferences. */
  lemma NilTiresPanic()
    ensures BuildRow(GameTelemetry(TitleF123, "1", "0", 0, VehicleDataOf(VehicleData(0, 0, 0, 0, 0, 0, 0, None))), Vehicle)
         == NilPanic
  {
  }

  /** A message without data, received by any worker, leaves its mutex held; the next tick
      waits for it for good. */
  lemma NoDataLocks(table: Kind, batchSize: int)
    ensures var m := Wrapped(0, GameTelemetry(TitleF123, "1", "0", 0, NoData));
            var w := Run(NewWorker(table, batchSize), [Event(Received(m), true)]);
            w.lockHeld && !Ready(w) && React(w, Tick, true).phase == Deadlocked
  {
    var m := Wrapped(0, GameTelemetry(TitleF123, "1", "0", 0, NoData));
    RunOne(NewWorker(table, batchSize), Event(Received(m), true));
  }

  /** Two messages that disagree on one lap: which of them is stored depends on the order. */
  lemma DisagreeingLapsDependOnOrder()
    ensures var k := LapKey("1", "0", 0);
            var slow := LapRow(k, TitleF123, HistoricLapData(0, 90000, 0, 0, 0, true, true, true, true));
            var fast := LapRow(k, TitleF123, HistoricLapData(0, 80000, 0, 0, 0, true, true, true, true));
            InsertAll([], [slow, fast]) == [slow] && InsertAll([], [fast, slow]) == [fast]
  {
    var k := LapKey("1", "0", 0);
    var slow := LapRow(k, TitleF123, HistoricLapData(0, 90000, 0, 0, 0, true, true, true, true));
    var fast := LapRow(k, TitleF123, HistoricLapData(0, 80000, 0, 0, 0, true, true, true, true));
    SecondIsIgnored(slow, fast);
    SecondIsIgnored(fast, slow);
  }

  lemma SecondIsIgnored(r: LapRow, q: LapRow)
    requires q.key == r.key
    ensures InsertAll([], [r, q]) == [r]
  {
    var one, both := [r], [r, q];
    assert one[..0] == [] && both[..1] == one;
    assert InsertAll([], []) == [];
    assert InsertAll([], one) == Insert([], r) && Insert([], r) == [] + [r] && [] + [r] == one;
    assert one[0].key == q.key;
    assert HasKey(one, q.key) && Insert(one, q) == one;
    assert InsertAll([], both) == Insert(InsertAll([], both[..1]), both[1]);
  }
}
