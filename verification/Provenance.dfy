/** Where the stored telemetry rows come from: each one holds the bytes of a packet that
    ingest received earlier in the run. */
module Provenance {
  import opened Wrappers
  import opened PackedCodec
  import opened F123Packets
  import opened Telemetry
  import opened CacheKeys
  import opened Ingest
  import opened IngestFacts
  import opened LapTable
  import opened Emission
  import opened Rows
  import opened ColumnBytes
  import opened Worker
  import opened Persist
  import opened EndToEnd

  /** Some packet of the run has sent the message. */
  ghost predicate Caused(m: GameTelemetry, es: seq<EndToEnd.Event>) {
    exists p: Datagram, cache: Cache :: Packet(p) in es && m in FromBytes(cache, p.bytes, p.clock).sent
  }

  ghost predicate AllCaused(w: World, es: seq<EndToEnd.Event>) {
    && (forall m | m in w.transit :: Caused(m, es))
    && (forall m | m in w.persist.accepted :: Caused(m.msg, es))
  }

  lemma StillCaused(m: GameTelemetry, es: seq<EndToEnd.Event>, e: EndToEnd.Event)
    requires Caused(m, es)
    ensures Caused(m, es + [e])
  {
    hide FromBytes;
    var p: Datagram, cache: Cache :| Packet(p) in es && m in FromBytes(cache, p.bytes, p.clock).sent;
    assert Packet(p) in es + [e];
  }

  lemma SentIsCaused(cache: Cache, p: Datagram, es: seq<EndToEnd.Event>)
    requires Packet(p) in es
    ensures forall m | m in FromBytes(cache, p.bytes, p.clock).sent :: Caused(m, es)
  {
    hide FromBytes;
  }

  lemma {:induction false} AlwaysCaused(batchSize: int, es: seq<EndToEnd.Event>)
    ensures AllCaused(Happens(Start(batchSize), es), es)
  {
    hide FromBytes, Caused, Enabled, Persist.Step;
    if es != [] {
      var front, e := es[..|es| - 1], es[|es| - 1];
      var w := Happens(Start(batchSize), front);
      AlwaysCaused(batchSize, front);
      assert es == front + [e];
      forall m | Caused(m, front) ensures Caused(m, es) {
        StillCaused(m, front, e);
      }
      match e
      case Packet(p) => SentIsCaused(w.cache, p, es);
      case Restart =>
      case Lose(m) =>
      case Deliver(m) =>
        if Enabled(w.persist, Add(m)) {
          AcceptedByAdd(w.persist, Add(m));
        }
      case Inside(a) =>
        if Enabled(w.persist, a) {
          AcceptedByAdd(w.persist, a);
        }
    }
  }

  /** The row is the one that the packet's bytes call for, column by column: the session,
      the car and the time are those of the packet too. */
  ghost predicate RowOfPacket(m: Wrapped, k: Kind, p: Datagram) {
    && StoredByCopy(p.bytes)
    && PacketKind(HeaderAt(p.bytes, 0).packetId) == k
    && m.msg.sessionId == Decimal(LittleEndian(p.bytes, 7, 8))
    && m.msg.userId == Decimal(LittleEndian(p.bytes, 27, 1))
    && m.msg.timestamp == p.clock(0)
    && m.msg.title == TitleF123
    && Sourced(BuildRow(m.msg, k), k, m.msg, p.bytes, Base(p.bytes))
  }

  lemma CausedRow(m: Wrapped, k: Kind, cache: Cache, p: Datagram)
    requires m.msg in FromBytes(cache, p.bytes, p.clock).sent
    requires KindOf(m.msg) == Some(k) && k != SessionLap
    ensures RowOfPacket(m, k, p)
  {
    hide Sourced, BuildRow, HandlePacket, Decimal,
         NormalizeVehicle, NormalizeMotion, NormalizeCurrentLap, NormalizeMotionEx;
    OneMessage(m.msg, cache, p);
    EnvelopeOf(m.msg, cache, p);
    HandleIsFromBytes(cache, p.bytes, p.clock);
    RowFromBytes(cache, p.bytes, p.clock);
  }

  /** Only a packet with stored data causes a message that is not a lap, and just one. */
  lemma OneMessage(m: GameTelemetry, cache: Cache, p: Datagram)
    requires m in FromBytes(cache, p.bytes, p.clock).sent && !m.data.LapTimesDataOf?
    ensures StoredByCopy(p.bytes) && FromBytes(cache, p.bytes, p.clock).sent == [m]
  {
    hide NormalizeVehicle, NormalizeMotion, NormalizeCurrentLap, NormalizeMotionEx, LittleEndian;
  }

  lemma EnvelopeOf(m: GameTelemetry, cache: Cache, p: Datagram)
    requires m in FromBytes(cache, p.bytes, p.clock).sent && !m.data.LapTimesDataOf?
    ensures |p.bytes| >= HEADER_BYTES
    ensures m.sessionId == Decimal(LittleEndian(p.bytes, 7, 8))
    ensures m.userId == Decimal(LittleEndian(p.bytes, 27, 1))
    ensures m.timestamp == p.clock(0) && m.title == TitleF123
  {
    hide NormalizeVehicle, NormalizeMotion, NormalizeCurrentLap, NormalizeMotionEx, LittleEndian, Decimal;
  }

  /** In every state of every run, each row in a telemetry table is the row of a packet
      that ingest has received: every column holds that packet's bytes. */
  lemma StoredRowsAreSourced(batchSize: int, es: seq<EndToEnd.Event>, k: Kind, m: Wrapped)
    requires k != SessionLap
    ensures AllLanes(Happens(Start(batchSize), es).persist)
    ensures m in Written(Happens(Start(batchSize), es).persist.lanes[k].worker.log) ==>
              exists p: Datagram :: Packet(p) in es && RowOfPacket(m, k, p)
  {
    hide Happens, FromBytes, RowOfPacket;
    PersistStaysUp(batchSize, es);
    AlwaysGenuine(batchSize, es, None);
    AlwaysCaused(batchSize, es);
    var s := Happens(Start(batchSize), es).persist;
    if m in Written(s.lanes[k].worker.log) {
      WrittenWasReceived(s, k, m);
      var p: Datagram, cache: Cache :| Packet(p) in es && m.msg in FromBytes(cache, p.bytes, p.clock).sent;
      CausedRow(m, k, cache, p);
    }
  }

  lemma WrittenWasReceived(s: State, k: Kind, m: Wrapped)
    requires Persist.Inv(s) && Sound(k, s.lanes[k]) && k != SessionLap
    requires m in Written(s.lanes[k].worker.log)
    ensures m in s.accepted && KindOf(m.msg) == Some(k)
  {
    hide Bounded, LapInv;
    var w := s.lanes[k].worker;
    WrittenWasAttempted(w.log, m);
    assert m in Contents(w);
    assert ArrivedOnce(s, s.lanes[k]) && LaneInv(k, s.lanes[k], s.batchSize);
    assert m in Arrived(s.lanes[k]);
  }

  lemma {:induction false} WrittenWasAttempted(log: seq<Batch>, m: Wrapped)
    requires m in Written(log)
    ensures m in Attempted(log)
  {
    if m in Written(log[..|log| - 1]) {
      WrittenWasAttempted(log[..|log| - 1], m);
    }
  }

  /** The lap table's rows are traced too: in every state of every run, each of them is a
      completed lap that a history packet received earlier announced, with the values that
      the packet reported for it, whether or not packets agree with each other. */
  lemma LapRowsAreSourced(batchSize: int, es: seq<EndToEnd.Event>, r: LapRow)
    requires r in Happens(Start(batchSize), es).persist.laps
    ensures exists p: Datagram, m: GameTelemetry :: Packet(p) in es && LapRowOfPacket(r, m, p.bytes)
  {
    hide Happens, FromBytes, LapRowOfPacket, Persist.Inv;
    AlwaysGenuine(batchSize, es, None);
    AlwaysCaused(batchSize, es);
    var s := Happens(Start(batchSize), es).persist;
    var w := LapRowWritten(s, r);
    var p: Datagram, cache: Cache :| Packet(p) in es && w.msg in FromBytes(cache, p.bytes, p.clock).sent;
    CausedLap(r, w.msg, cache, p);
  }

  /** The row is that of a message about one of the packet's own completed laps. */
  predicate LapRowOfPacket(r: LapRow, m: GameTelemetry, packet: seq<byte>) {
    m.data.LapTimesDataOf? && r == LapRowOf(m) && r.title == TitleF123 && IsLapOf(m, packet)
  }

  lemma LapRowWritten(s: State, r: LapRow) returns (m: Wrapped)
    requires Persist.Inv(s) && r in s.laps
    ensures m in s.accepted && IsLap(m) && r == LapRowOf(m.msg)
  {
    hide LaneInv, Arrived;
    InsertedFrom([], LapRows(s.lapWritten));
    m := LapRowsFrom(s.lapWritten, r);
    WrittenWasAccepted(s, m);
  }

  lemma CausedLap(r: LapRow, m: GameTelemetry, cache: Cache, p: Datagram)
    requires m.data.LapTimesDataOf? && r == LapRowOf(m) && m in FromBytes(cache, p.bytes, p.clock).sent
    ensures LapRowOfPacket(r, m, p.bytes)
  {
    hide FromBytes, IsLapOf;
    SentFromBytes(cache, p.bytes, p.clock);
  }
}
