/** What one packet does: decode, normalize, filter completed laps, emit messages.

    These are the pure functions that the transformer's methods are proved against,
    with every way a packet can fail as an outcome. */
module Ingest {
  import opened Wrappers
  import opened CacheKeys
  import opened PackedCodec
  import opened Products
  import opened F123Packets
  import opened Telemetry

  // ---- the latest-lap cache --------------------------------------------------

  type Cache = map<string, int>

  /** A Go map read: absent keys are zero. */
  function Latest(cache: Cache, key: string): int {
    if key in cache then cache[key] else 0
  }

  /** `LatestLapData.Set`: the entry only ever grows. */
  function Raise(cache: Cache, key: string, lapNum: int): Cache {
    if lapNum > Latest(cache, key) then cache[key := lapNum] else cache
  }

  // ---- normalizers -----------------------------------------------------------

  function NormalizeTire(t: CarTelemetryData, wheel: nat): Option<TireData>
    requires wheel < 4
  {
    Some(TireData(
      brakeTemperature := t.brakesTemperature[wheel],
      innerTemperature := t.tyresInnerTemperature[wheel],
      surfaceTemperature := t.tyresSurfaceTemperature[wheel],
      pressure := t.tyresPressure[wheel]))
  }

  function NormalizeVehicle(t: CarTelemetryData): VehicleData {
    VehicleData(
      speed := t.speed,
      rpm := t.engineRPM,
      throttle := t.throttle,
      brake := t.brake,
      steering := t.steer,
      gear := t.gear,
      engineTemperature := t.engineTemperature,
      tires := Some(Tires(
        frontLeft := NormalizeTire(t, FRONT_LEFT),
        frontRight := NormalizeTire(t, FRONT_RIGHT),
        backLeft := NormalizeTire(t, REAR_LEFT),
        backRight := NormalizeTire(t, REAR_RIGHT))))
  }

  function NormalizeMotion(m: CarMotionData): MotionData {
    MotionData(
      positionX := m.worldPositionX, positionY := m.worldPositionY, positionZ := m.worldPositionZ,
      velocityX := m.worldVelocityX, velocityY := m.worldVelocityY, velocityZ := m.worldVelocityZ,
      gForceLateral := m.gForceLateral, gForceLongitudinal := m.gForceLongitudinal,
      gForceVertical := m.gForceVertical,
      yaw := m.yaw, pitch := m.pitch, roll := m.roll)
  }

  /** The Go code fills `LapTime` from the last lap's time, not the current lap's. */
  function NormalizeCurrentLap(l: LapData): CurrentLapData {
    CurrentLapData(
      lapNum := l.currentLapNum,
      lapTime := l.lastLapTimeInMS,
      sector := l.sector,
      sector1Time := l.sector1TimeInMS,
      sector2Time := l.sector2TimeInMS,
      deltaToCarInFront := l.deltaToCarInFrontInMS,
      deltaToRaceLeader := l.deltaToRaceLeaderInMS,
      lapDistance := l.lapDistance,
      totalDistance := l.totalDistance)
  }

  function NormalizeWheel(m: ExtendedMotionData, wheel: nat): Option<ExtendedWheelData>
    requires wheel < 4
  {
    Some(ExtendedWheelData(
      wheelSpeed := m.wheelSpeed[wheel],
      verticalForce := m.wheelVertForce[wheel],
      slipAngle := m.wheelSlipAngle[wheel],
      slipRatio := m.wheelSlipRatio[wheel],
      lateralForce := m.wheelLatForce[wheel],
      longitudinalForce := m.wheelLonForce[wheel],
      suspensionPosition := m.suspensionPosition[wheel],
      suspensionVelocity := m.suspensionVelocity[wheel]))
  }

  function NormalizeMotionEx(m: ExtendedMotionData): ExtendedFourWheelData {
    ExtendedFourWheelData(
      backLeft := NormalizeWheel(m, REAR_LEFT),
      backRight := NormalizeWheel(m, REAR_RIGHT),
      frontLeft := NormalizeWheel(m, FRONT_LEFT),
      frontRight := NormalizeWheel(m, FRONT_RIGHT))
  }

  /** Bit k of an unsigned number: `flags & (1 << k) != 0`. */
  predicate Bit(flags: nat, k: nat)
  {
    if k == 0 then flags % 2 == 1 else Bit(flags / 2, k - 1)
  }

  function ToHistoricLap(i: nat, lap: LapHistoryData): HistoricLapData {
    HistoricLapData(
      lapNum := i,
      lapTime := lap.lapTimeInMS,
      sector1Time := lap.sector1TimeInMS,
      sector2Time := lap.sector2TimeInMS,
      sector3Time := lap.sector3TimeInMS,
      lapValid := Bit(lap.lapValidBitFlags, 0),
      sector1Valid := Bit(lap.lapValidBitFlags, 1),
      sector2Valid := Bit(lap.lapValidBitFlags, 2),
      sector3Valid := Bit(lap.lapValidBitFlags, 3))
  }

  /** Laps 0..m-1 of a history, all of them, in order. */
  function Burst(m: nat, laps: seq<LapHistoryData>): (burst: seq<HistoricLapData>)
    requires m <= |laps|
    ensures |burst| == m
    ensures forall i | 0 <= i < m :: burst[i] == ToHistoricLap(i, laps[i])
  {
    seq(m, i requires 0 <= i < m => ToHistoricLap(i, laps[i]))
  }

  /** The laps to send, or an index past the end of the fixed-size array. */
  datatype HistoryResult =
    | Laps(cache: Cache, laps: seq<HistoricLapData>)
    | IndexPanic(cache: Cache)

  /** `normalizeSessionHistoryData`. The cache is raised before the laps are read, so
      the panicking branch has already changed it. */
  function NormalizeHistory(cache: Cache, h: PacketHeader, body: SessionHistoryData): HistoryResult {
    var m := body.numLaps - 1;
    var key := CarKey(h.sessionUID, h.playerCarIndex);
    if m <= 0 || Latest(cache, key) >= m then Laps(cache, [])
    else if m > |body.lapHistoryData| then IndexPanic(Raise(cache, key, m))
    else Laps(Raise(cache, key, m), Burst(m, body.lapHistoryData))
  }

  // ---- routing ---------------------------------------------------------------

  datatype Status = Routed | TooShort | Panicked

  datatype Outcome = Outcome(cache: Cache, sent: seq<GameTelemetry>, status: Status)

  /** The time stamped on the i-th message of a packet. */
  type Clock = nat -> int

  function Envelope(h: PacketHeader, now: int, data: Data): GameTelemetry {
    GameTelemetry(TitleF123, Decimal(h.sessionUID), Decimal(h.playerCarIndex), now, data)
  }

  function Envelopes(h: PacketHeader, clock: Clock, laps: seq<HistoricLapData>): (ms: seq<GameTelemetry>)
    ensures |ms| == |laps|
    ensures forall i | 0 <= i < |laps| :: ms[i] == Envelope(h, clock(i), LapTimesDataOf(laps[i]))
  {
    seq(|laps|, i requires 0 <= i < |laps| => Envelope(h, clock(i), LapTimesDataOf(laps[i])))
  }

  /** The player's element of a body that holds one element for each of n cars. */
  datatype CarBody = BodyTooShort | NoSuchCar | Car(v: Value)

  function PlayerCar(h: PacketHeader, data: seq<byte>, off: nat, element: Layout, n: nat := CARS): CarBody {
    if off + Size(Repeat(n, element)) > |data| then BodyTooShort
    else if h.playerCarIndex >= n then NoSuchCar
    else Car(Decode(Repeat(n, element), data, off).items[h.playerCarIndex])
  }

  /** The packets that carry an element for every car, and what an element becomes. */
  predicate IsCarArray(packetId: int) {
    packetId == CAR_TELEMETRY_PACKET || packetId == CAR_MOTION_PACKET || packetId == LAP_DATA_PACKET
  }

  function Element(packetId: int): Layout
    requires IsCarArray(packetId)
  {
    if packetId == CAR_TELEMETRY_PACKET then CAR_TELEMETRY
    else if packetId == CAR_MOTION_PACKET then CAR_MOTION
    else LAP_DATA
  }

  function NormalizeElement(packetId: int, v: Value): Data
    requires IsCarArray(packetId)
  {
    if packetId == CAR_TELEMETRY_PACKET then VehicleDataOf(NormalizeVehicle(CarTelemetryOf(v)))
    else if packetId == CAR_MOTION_PACKET then MotionDataOf(NormalizeMotion(CarMotionOf(v)))
    else CurrentLapDataOf(NormalizeCurrentLap(LapDataOf(v)))
  }

  /** `Route`, on the bytes from off onwards. */
  function Route(cache: Cache, h: PacketHeader, data: seq<byte>, off: nat, clock: Clock): Outcome {
    if IsCarArray(h.packetId) then
      match PlayerCar(h, data, off, Element(h.packetId))
      case BodyTooShort => Outcome(cache, [], TooShort)
      case NoSuchCar => Outcome(cache, [], Panicked)
      case Car(v) => Outcome(cache, [Envelope(h, clock(0), NormalizeElement(h.packetId, v))], Routed)
    else if h.packetId == SESSION_HISTORY_PACKET then
      if off + Size(SESSION_HISTORY) > |data| then Outcome(cache, [], TooShort)
      else RouteHistory(cache, h, SessionHistoryOf(Decode(SESSION_HISTORY, data, off)), clock)
    else if h.packetId == MOTION_EX_PACKET then
      if off + Size(EXTENDED_MOTION) > |data| then Outcome(cache, [], TooShort)
      else
        var wheels := NormalizeMotionEx(ExtendedMotionOf(Decode(EXTENDED_MOTION, data, off)));
        Outcome(cache, [Envelope(h, clock(0), WheelDataOf(wheels))], Routed)
    else Outcome(cache, [], Routed)
  }

  /** Only the player's own history is considered. */
  function RouteHistory(cache: Cache, h: PacketHeader, body: SessionHistoryData, clock: Clock): Outcome {
    if body.currentCarIdx != h.playerCarIndex then Outcome(cache, [], Routed)
    else
      match NormalizeHistory(cache, h, body)
      case Laps(cache', laps) => Outcome(cache', Envelopes(h, clock, laps), Routed)
      case IndexPanic(cache') => Outcome(cache', [], Panicked)
  }

  /** `handlePacket` without capture. A packet shorter than a header is logged and then
      routed with a nil header, which is dereferenced. */
  function HandlePacket(cache: Cache, packet: seq<byte>, clock: Clock): Outcome {
    if Size(PACKET_HEADER) > |packet| then Outcome(cache, [], Panicked)
    else Route(cache, HeaderOf(Decode(PACKET_HEADER, packet, 0)), packet, Size(PACKET_HEADER), clock)
  }

  // ---- reading the raw bytes -------------------------------------------------

  const HEADER_BYTES: nat := 29
  const HISTORY_BYTES: nat := 1431

  function BodyBytes(packetId: int): nat {
    if packetId == CAR_TELEMETRY_PACKET then 1320
    else if packetId == CAR_MOTION_PACKET then 1320
    else if packetId == LAP_DATA_PACKET then 1100
    else if packetId == SESSION_HISTORY_PACKET then HISTORY_BYTES
    else if packetId == MOTION_EX_PACKET then 188
    else 0
  }

  /** A full-length history packet about the player's own car. */
  predicate IsPlayerHistory(packet: seq<byte>) {
    && |packet| >= HEADER_BYTES + HISTORY_BYTES
    && HeaderAt(packet, 0).packetId == SESSION_HISTORY_PACKET
    && LittleEndian(packet, 29, 1) == HeaderAt(packet, 0).playerCarIndex
  }

  /** The number of completed laps a player history announces: byte 30, less one. */
  function CompletedLaps(packet: seq<byte>): int
    requires IsPlayerHistory(packet)
  {
    LittleEndian(packet, 30, 1) - 1
  }

  function LapAt(packet: seq<byte>, i: nat): LapHistoryData
    requires IsPlayerHistory(packet) && i < MAX_LAPS
  {
    LapHistoryAt(packet, 36 + 14 * i)
  }

  function LapMessages(packet: seq<byte>, m: nat, clock: Clock): (sent: seq<GameTelemetry>)
    requires IsPlayerHistory(packet) && m <= MAX_LAPS
    ensures |sent| == m
    ensures forall i | 0 <= i < m ::
              sent[i] == Envelope(HeaderAt(packet, 0), clock(i), LapTimesDataOf(ToHistoricLap(i, LapAt(packet, i))))
  {
    seq(m, i requires 0 <= i < m =>
      Envelope(HeaderAt(packet, 0), clock(i), LapTimesDataOf(ToHistoricLap(i, LapAt(packet, i)))))
  }

  /** What a player history packet does, from its raw bytes: silence unless it
      announces more laps than ever before, and then every completed lap from 0 up. */
  function HistoryFromBytes(cache: Cache, packet: seq<byte>, clock: Clock): Outcome
    requires IsPlayerHistory(packet)
  {
    var h := HeaderAt(packet, 0);
    var m := CompletedLaps(packet);
    var key := CarKey(h.sessionUID, h.playerCarIndex);
    if m <= 0 || m <= Latest(cache, key) then Outcome(cache, [], Routed)
    else if m > MAX_LAPS then Outcome(cache[key := m], [], Panicked)
    else Outcome(cache[key := m], LapMessages(packet, m, clock), Routed)
  }

  /** The player's data in a full-length packet, read at fixed byte offsets. */
  function DataFromBytes(packet: seq<byte>, h: PacketHeader): Data
    requires |packet| >= HEADER_BYTES + BodyBytes(h.packetId)
    requires IsCarArray(h.packetId) ==> h.playerCarIndex < CARS
  {
    if h.packetId == CAR_TELEMETRY_PACKET then
      VehicleDataOf(NormalizeVehicle(CarTelemetryAt(packet, 29 + 60 * h.playerCarIndex)))
    else if h.packetId == CAR_MOTION_PACKET then
      MotionDataOf(NormalizeMotion(CarMotionAt(packet, 29 + 60 * h.playerCarIndex)))
    else if h.packetId == LAP_DATA_PACKET then
      CurrentLapDataOf(NormalizeCurrentLap(LapDataAt(packet, 29 + 50 * h.playerCarIndex)))
    else if h.packetId == MOTION_EX_PACKET then
      WheelDataOf(NormalizeMotionEx(ExtendedMotionAt(packet, 29)))
    else NoData
  }

  /** What any packet does, from its raw bytes, with no decoding walk in between. */
  function FromBytes(cache: Cache, packet: seq<byte>, clock: Clock): Outcome {
    if |packet| < HEADER_BYTES then Outcome(cache, [], Panicked)
    else
      var h := HeaderAt(packet, 0);
      if |packet| < HEADER_BYTES + BodyBytes(h.packetId) then Outcome(cache, [], TooShort)
      else if IsPlayerHistory(packet) then HistoryFromBytes(cache, packet, clock)
      else if IsCarArray(h.packetId) && h.playerCarIndex >= CARS then Outcome(cache, [], Panicked)
      else
        var data := DataFromBytes(packet, h);
        Outcome(cache, if data.NoData? then [] else [Envelope(h, clock(0), data)], Routed)
  }

  /** Decoding the whole packet and picking the player out of it does, for every packet,
      exactly what reading the player's bytes at their offsets does. */
  lemma HandleIsFromBytes(cache: Cache, packet: seq<byte>, clock: Clock)
    ensures HandlePacket(cache, packet, clock) == FromBytes(cache, packet, clock)
  {
    PacketSizes();
    if |packet| >= HEADER_BYTES {
      HeaderAgrees(packet, 0);
      RouteIsFromBytes(cache, packet, HeaderAt(packet, 0), clock);
    }
  }

  lemma RouteIsFromBytes(cache: Cache, packet: seq<byte>, h: PacketHeader, clock: Clock)
    requires |packet| >= HEADER_BYTES && h == HeaderAt(packet, 0)
    ensures Route(cache, h, packet, HEADER_BYTES, clock) == FromBytes(cache, packet, clock)
  {
    if IsCarArray(h.packetId) {
      ArrayBody(packet, h);
    } else if h.packetId == SESSION_HISTORY_PACKET {
      HistoryBody(cache, packet, h, clock);
    } else if h.packetId == MOTION_EX_PACKET {
      MotionExBody(packet);
    }
  }

  lemma HistoryBody(cache: Cache, packet: seq<byte>, h: PacketHeader, clock: Clock)
    requires |packet| >= HEADER_BYTES && h == HeaderAt(packet, 0) && h.packetId == SESSION_HISTORY_PACKET
    ensures Size(SESSION_HISTORY) == HISTORY_BYTES
    ensures |packet| >= HEADER_BYTES + HISTORY_BYTES ==>
              (RouteHistory(cache, h, SessionHistoryOf(Decode(SESSION_HISTORY, packet, HEADER_BYTES)), clock)
               == if IsPlayerHistory(packet) then HistoryFromBytes(cache, packet, clock) else Outcome(cache, [], Routed))
  {
    PacketSizes();
    if |packet| >= HEADER_BYTES + HISTORY_BYTES {
      var body := SessionHistoryOf(Decode(SESSION_HISTORY, packet, HEADER_BYTES));
      SessionHistoryAgrees(packet, HEADER_BYTES);
      RouteHistoryFromBytes(cache, packet, body, clock);
    }
  }

  lemma MotionExBody(packet: seq<byte>)
    ensures Size(EXTENDED_MOTION) == 188
    ensures |packet| >= HEADER_BYTES + 188 ==>
              ExtendedMotionOf(Decode(EXTENDED_MOTION, packet, HEADER_BYTES)) == ExtendedMotionAt(packet, HEADER_BYTES)
  {
    PacketSizes();
    if |packet| >= HEADER_BYTES + 188 {
      ExtendedMotionAgrees(packet, HEADER_BYTES);
    }
  }

  /** What an array body gives for the player, by packet length and car index. */
  predicate BodyAgrees(body: CarBody, packet: seq<byte>, h: PacketHeader)
    requires |packet| >= HEADER_BYTES && IsCarArray(h.packetId)
  {
    if |packet| < HEADER_BYTES + BodyBytes(h.packetId) then body == BodyTooShort
    else if h.playerCarIndex >= CARS then body == NoSuchCar
    else body.Car? && NormalizeElement(h.packetId, body.v) == DataFromBytes(packet, h)
  }

  lemma ArrayBody(packet: seq<byte>, h: PacketHeader)
    requires |packet| >= HEADER_BYTES && IsCarArray(h.packetId)
    ensures BodyAgrees(PlayerCar(h, packet, HEADER_BYTES, Element(h.packetId)), packet, h)
  {
    ElementSize(h.packetId);
    if |packet| >= HEADER_BYTES + BodyBytes(h.packetId) && h.playerCarIndex < CARS {
      ElementAgrees(packet, h);
    }
    if h.packetId == LAP_DATA_PACKET {
      ElementBody(packet, h, Element(h.packetId), PlayerOffset(h));
    } else {
      ElementBody(packet, h, Element(h.packetId), PlayerOffset(h));
    }
  }

  /** Where the player's element starts in a packet. */
  function PlayerOffset(h: PacketHeader): nat {
    if h.packetId == LAP_DATA_PACKET then 29 + 50 * h.playerCarIndex else 29 + 60 * h.playerCarIndex
  }

  lemma ElementSize(packetId: int)
    requires IsCarArray(packetId)
    ensures Size(Element(packetId)) == if packetId == LAP_DATA_PACKET then 50 else 60
  {
    PacketSizes();
  }

  lemma ElementAgrees(packet: seq<byte>, h: PacketHeader)
    requires IsCarArray(h.packetId) && h.playerCarIndex < CARS
    requires |packet| >= HEADER_BYTES + BodyBytes(h.packetId)
    ensures PlayerOffset(h) + Size(Element(h.packetId)) <= |packet|
    ensures NormalizeElement(h.packetId, Decode(Element(h.packetId), packet, PlayerOffset(h))) == DataFromBytes(packet, h)
  {
    ElementSize(h.packetId);
    if h.packetId == CAR_TELEMETRY_PACKET {
      CarTelemetryAgrees(packet, PlayerOffset(h));
    } else if h.packetId == CAR_MOTION_PACKET {
      CarMotionAgrees(packet, PlayerOffset(h));
    } else {
      LapDataAgrees(packet, PlayerOffset(h));
    }
  }

  lemma ElementBody(packet: seq<byte>, h: PacketHeader, e: Layout, at: nat)
    requires |packet| >= HEADER_BYTES && IsCarArray(h.packetId)
    requires at == HEADER_BYTES + h.playerCarIndex * Size(e) && BodyBytes(h.packetId) == CARS * Size(e)
    requires |packet| >= HEADER_BYTES + BodyBytes(h.packetId) && h.playerCarIndex < CARS ==>
               && at + Size(e) <= |packet|
               && NormalizeElement(h.packetId, Decode(e, packet, at)) == DataFromBytes(packet, h)
    ensures BodyAgrees(PlayerCar(h, packet, HEADER_BYTES, e), packet, h)
  {
    PlayerElement(h, CARS, packet, HEADER_BYTES, e, at, BodyBytes(h.packetId));
  }

  lemma PlayerElement(h: PacketHeader, n: nat, data: seq<byte>, off: nat, e: Layout, at: nat, total: nat)
    requires at == off + h.playerCarIndex * Size(e) && total == n * Size(e)
    ensures |data| < off + total ==> PlayerCar(h, data, off, e, n) == BodyTooShort
    ensures |data| >= off + total && h.playerCarIndex >= n ==> PlayerCar(h, data, off, e, n) == NoSuchCar
    ensures |data| >= off + total && h.playerCarIndex < n ==>
              && at + Size(e) <= |data|
              && PlayerCar(h, data, off, e, n) == Car(Decode(e, data, at))
  {
    TimesIsProduct(n, Size(e));
    if h.playerCarIndex < n && off + total <= |data| {
      ElementAtOffset(e, n, data, off, h.playerCarIndex);
    }
  }

  lemma RouteHistoryFromBytes(cache: Cache, packet: seq<byte>, body: SessionHistoryData, clock: Clock)
    requires |packet| >= HEADER_BYTES + HISTORY_BYTES && HistoryStands(body, MAX_LAPS, packet, HEADER_BYTES)
    requires HeaderAt(packet, 0).packetId == SESSION_HISTORY_PACKET
    ensures RouteHistory(cache, HeaderAt(packet, 0), body, clock)
         == if IsPlayerHistory(packet) then HistoryFromBytes(cache, packet, clock) else Outcome(cache, [], Routed)
  {
    var h := HeaderAt(packet, 0);
    if IsPlayerHistory(packet) {
      var m := CompletedLaps(packet);
      if 0 < m <= MAX_LAPS && Latest(cache, CarKey(h.sessionUID, h.playerCarIndex)) < m {
        assert Envelopes(h, clock, Burst(m, body.lapHistoryData)) == HistoryFromBytes(cache, packet, clock).sent;
      }
    }
  }
}
