/** What every packet's outcome satisfies: when ingest panics, when it stays silent,
    what its messages look like, and what packet capture changes. */
module IngestFacts {
  import opened CacheKeys
  import opened PackedCodec
  import opened F123Packets
  import opened Telemetry
  import opened Ingest

  /** The player history announces more laps than the array holds and than were ever sent. */
  predicate Overruns(cache: Cache, packet: seq<byte>) {
    && IsPlayerHistory(packet)
    && CompletedLaps(packet) > MAX_LAPS
    && CompletedLaps(packet) > Latest(cache, HistoryKey(packet))
  }

  /** The packets that bring ingest down: no full header, a player index outside the 22
      cars of an array packet, or a history that runs past its array. */
  predicate Fatal(cache: Cache, packet: seq<byte>) {
    || |packet| < 29
    || (&& IsCarArray(HeaderAt(packet, 0).packetId)
        && |packet| >= 29 + BodyBytes(HeaderAt(packet, 0).packetId)
        && LittleEndian(packet, 27, 1) >= 22)
    || Overruns(cache, packet)
  }

  /** A header is there, but the body its type calls for is cut short. */
  predicate CutShort(packet: seq<byte>) {
    29 <= |packet| && |packet| < 29 + BodyBytes(HeaderAt(packet, 0).packetId)
  }

  /** The status of every packet, read off its bytes. */
  lemma StatusExactly(cache: Cache, packet: seq<byte>, clock: Clock)
    ensures HandlePacket(cache, packet, clock).status
         == if Fatal(cache, packet) then Panicked else if CutShort(packet) then TooShort else Routed
  {
    HandleIsFromBytes(cache, packet, clock);
    StatusFromBytes(cache, packet, clock);
  }

  lemma StatusFromBytes(cache: Cache, packet: seq<byte>, clock: Clock)
    ensures FromBytes(cache, packet, clock).status
         == if Fatal(cache, packet) then Panicked else if CutShort(packet) then TooShort else Routed
  {
  }

  /** A packet that is not routed sends nothing. The cache changes exactly for a player
      history with a new maximum, whether it is sent or overruns its array, and then in
      that car's entry only. */
  lemma FailuresSendNothing(cache: Cache, packet: seq<byte>, clock: Clock)
    ensures HandlePacket(cache, packet, clock).status != Routed ==> HandlePacket(cache, packet, clock).sent == []
    ensures HandlePacket(cache, packet, clock).status == TooShort ==> HandlePacket(cache, packet, clock).cache == cache
    ensures HandlePacket(cache, packet, clock).cache == Raised(cache, packet)
  {
    HandleIsFromBytes(cache, packet, clock);
    FromBytesEffect(cache, packet, clock);
  }

  /** The cache entry that a player history is about. */
  function HistoryKey(packet: seq<byte>): string
    requires IsPlayerHistory(packet)
  {
    CarKey(HeaderAt(packet, 0).sessionUID, HeaderAt(packet, 0).playerCarIndex)
  }

  /** The cache after a packet. */
  function Raised(cache: Cache, packet: seq<byte>): Cache {
    if IsPlayerHistory(packet) && CompletedLaps(packet) > 0 && CompletedLaps(packet) > Latest(cache, HistoryKey(packet))
    then cache[HistoryKey(packet) := CompletedLaps(packet)]
    else cache
  }

  lemma FromBytesEffect(cache: Cache, packet: seq<byte>, clock: Clock)
    ensures FromBytes(cache, packet, clock).status != Routed ==> FromBytes(cache, packet, clock).sent == []
    ensures FromBytes(cache, packet, clock).status == TooShort ==> FromBytes(cache, packet, clock).cache == cache
    ensures FromBytes(cache, packet, clock).cache == Raised(cache, packet)
  {
    hide Decimal, LittleEndian;
  }

  /** A history that overruns its array has raised the cache by the time it panics. */
  lemma OverrunsRaise(cache: Cache, packet: seq<byte>, clock: Clock)
    requires Overruns(cache, packet)
    ensures HandlePacket(cache, packet, clock).status == Panicked
    ensures HandlePacket(cache, packet, clock).cache == cache[HistoryKey(packet) := CompletedLaps(packet)]
  {
    hide HandlePacket, Decimal;
    StatusExactly(cache, packet, clock);
    FailuresSendNothing(cache, packet, clock);
  }

  /** What every message that leaves ingest satisfies. */
  predicate FromIngest(m: GameTelemetry) {
    && m.title == TitleF123
    && !m.data.NoData?
    && Complete(m)
  }

  /** A lap message that a packet may send: one of the packet's own completed laps. */
  predicate IsLapOf(m: GameTelemetry, packet: seq<byte>)
    requires m.data.LapTimesDataOf?
  {
    && IsPlayerHistory(packet)
    && m.sessionId == Decimal(HeaderAt(packet, 0).sessionUID)
    && m.userId == Decimal(HeaderAt(packet, 0).playerCarIndex)
    && 0 <= m.data.lapTimes.lapNum < CompletedLaps(packet) <= MAX_LAPS
    && m.data.lapTimes == ToHistoricLap(m.data.lapTimes.lapNum, LapAt(packet, m.data.lapTimes.lapNum))
  }

  /** Every message sent is complete, so persist can build its row; lap messages carry
      laps of the packet that caused them. */
  lemma SentFromIngest(cache: Cache, packet: seq<byte>, clock: Clock)
    ensures forall m | m in HandlePacket(cache, packet, clock).sent ::
              FromIngest(m) && (m.data.LapTimesDataOf? ==> IsLapOf(m, packet))
  {
    HandleIsFromBytes(cache, packet, clock);
    SentFromBytes(cache, packet, clock);
  }

  lemma SentFromBytes(cache: Cache, packet: seq<byte>, clock: Clock)
    ensures forall m | m in FromBytes(cache, packet, clock).sent ::
              FromIngest(m) && (m.data.LapTimesDataOf? ==> IsLapOf(m, packet))
  {
    if IsPlayerHistory(packet) {
      var sent := HistoryFromBytes(cache, packet, clock).sent;
      forall i | 0 <= i < |sent| ensures FromIngest(sent[i]) && sent[i].data.LapTimesDataOf? && IsLapOf(sent[i], packet) {
        assert sent[i] == LapMessages(packet, CompletedLaps(packet), clock)[i];
      }
    }
  }

  // ---- packet capture --------------------------------------------------------

  /** `handleCapture`: whether it panics. A short body leaves a zero history, with no
      laps. */
  predicate CapturePanics(packet: seq<byte>, elapsed: bool, wrote: bool) {
    if |packet| < Size(PACKET_HEADER) then false
    else
      var h := HeaderOf(Decode(PACKET_HEADER, packet, 0));
      if h.packetId != SESSION_HISTORY_PACKET || |packet| < Size(PACKET_HEADER) + Size(SESSION_HISTORY) then false
      else CaptureSlices(h, SessionHistoryOf(Decode(SESSION_HISTORY, packet, Size(PACKET_HEADER))), elapsed, wrote)
  }

  /** The fixed array is sliced by the announced number of laps, but only once a capture
      file was written (`wrote`), and at most once a second (`elapsed`). */
  predicate CaptureSlices(h: PacketHeader, body: SessionHistoryData, elapsed: bool, wrote: bool) {
    && body.currentCarIdx == h.playerCarIndex
    && body.numLaps > 1
    && elapsed
    && wrote
    && body.numLaps > |body.lapHistoryData|
  }

  /** `handlePacket` with capture turned on. */
  function HandleWithCapture(cache: Cache, packet: seq<byte>, clock: Clock, elapsed: bool, wrote: bool): Outcome {
    if CapturePanics(packet, elapsed, wrote) then Outcome(cache, [], Panicked)
    else HandlePacket(cache, packet, clock)
  }

  /** A player history that announces more laps than its array holds. */
  predicate AnnouncesTooMany(packet: seq<byte>) {
    IsPlayerHistory(packet) && LittleEndian(packet, 30, 1) > MAX_LAPS
  }

  lemma CapturePanicsExactly(packet: seq<byte>, elapsed: bool, wrote: bool)
    ensures CapturePanics(packet, elapsed, wrote) <==> AnnouncesTooMany(packet) && elapsed && wrote
  {
    PacketSizes();
    if |packet| >= HEADER_BYTES + HISTORY_BYTES {
      HeaderAgrees(packet, 0);
      CaptureBody(packet, SessionHistoryOf(Decode(SESSION_HISTORY, packet, HEADER_BYTES)), elapsed, wrote);
    } else if |packet| >= HEADER_BYTES {
      HeaderAgrees(packet, 0);
    }
  }

  lemma CaptureBody(packet: seq<byte>, body: SessionHistoryData, elapsed: bool, wrote: bool)
    requires |packet| >= HEADER_BYTES + HISTORY_BYTES && Size(SESSION_HISTORY) == HISTORY_BYTES
    requires body == SessionHistoryOf(Decode(SESSION_HISTORY, packet, HEADER_BYTES))
    ensures HeaderAt(packet, 0).packetId == SESSION_HISTORY_PACKET ==>
              (CaptureSlices(HeaderAt(packet, 0), body, elapsed, wrote) <==> AnnouncesTooMany(packet) && elapsed && wrote)
  {
    SessionHistoryAgrees(packet, HEADER_BYTES);
  }

  /** Turning capture on changes nothing, except exactly when a capture is written for a
      player history that announces more than 100 laps: such a packet then always has a
      different outcome from the one it has without capture. */
  lemma CaptureTransparentExactly(cache: Cache, packet: seq<byte>, clock: Clock, elapsed: bool, wrote: bool)
    ensures HandleWithCapture(cache, packet, clock, elapsed, wrote) == HandlePacket(cache, packet, clock)
       <==> !(AnnouncesTooMany(packet) && elapsed && wrote)
  {
    CapturePanicsExactly(packet, elapsed, wrote);
    if AnnouncesTooMany(packet) {
      HandleIsFromBytes(cache, packet, clock);
      NeverJustPanics(cache, packet, clock);
    }
  }

  /** Without capture, such a packet either was announced before and is ignored, or
      raises the cache before it panics. */
  lemma NeverJustPanics(cache: Cache, packet: seq<byte>, clock: Clock)
    requires AnnouncesTooMany(packet)
    ensures FromBytes(cache, packet, clock) != Outcome(cache, [], Panicked)
  {
    var key := CarKey(HeaderAt(packet, 0).sessionUID, HeaderAt(packet, 0).playerCarIndex);
    if CompletedLaps(packet) > Latest(cache, key) {
      assert Latest(cache[key := CompletedLaps(packet)], key) == CompletedLaps(packet);
    }
  }
}
