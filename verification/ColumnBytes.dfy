/** Where each column of a stored row comes from: the bytes of the packet behind it.

    Composes the decoder, the normalizers, the message and the row builder. */
module ColumnBytes {
  import opened Wrappers
  import opened CacheKeys
  import opened PackedCodec
  import opened F123Packets
  import opened Telemetry
  import opened Ingest
  import opened IngestFacts
  import opened Rows

  /** The game's wheel order: rear left, rear right, front left, front right. */
  function WheelIndex(c: Corner): nat {
    match c
    case BackLeft => 0
    case BackRight => 1
    case FrontLeft => 2
    case FrontRight => 3
  }

  /** The tables that array and motion packets end up in. */
  function PacketKind(packetId: int): Kind
    requires IsCarArray(packetId) || packetId == MOTION_EX_PACKET
  {
    if packetId == CAR_TELEMETRY_PACKET then Vehicle
    else if packetId == CAR_MOTION_PACKET then Motion
    else if packetId == LAP_DATA_PACKET then LiveLap
    else ExtendedWheel
  }

  /** Where the player's data starts. */
  function Base(packet: seq<byte>): nat
    requires |packet| >= HEADER_BYTES
  {
    var h := HeaderAt(packet, 0);
    if h.packetId == MOTION_EX_PACKET then 29
    else if h.packetId == LAP_DATA_PACKET then 29 + 50 * LittleEndian(packet, 27, 1)
    else 29 + 60 * LittleEndian(packet, 27, 1)
  }

  /** The number of bytes of a column's source, counted from the start of the player's data. */
  function Extent(c: Column): nat {
    match c
    case OfVehicle(_) => 60
    case OfTire(_, _) => 60
    case OfMotion(_) => 60
    case OfLap(_) => 50
    case OfWheel(_, _) => 188
    case _ => 0
  }

  function VehicleCellAt(packet: seq<byte>, o: nat, f: VehicleField): Cell
    requires o + 60 <= |packet|
  {
    match f
    case Speed => Int(LittleEndian(packet, o, 2))
    case Throttle => Float(LittleEndian(packet, o + 2, 4))
    case Steering => Float(LittleEndian(packet, o + 6, 4))
    case Brake => Float(LittleEndian(packet, o + 10, 4))
    case Gear => Int(Signed(LittleEndian(packet, o + 15, 1), 1))
    case Rpm => Int(LittleEndian(packet, o + 16, 2))
    case EngineTemperature => Int(LittleEndian(packet, o + 38, 2))
  }

  function TireCellAt(packet: seq<byte>, o: nat, wheel: nat, f: TireField): Cell
    requires wheel < 4 && o + 60 <= |packet|
  {
    match f
    case BrakeTemp => Int(LittleEndian(packet, o + 22 + 2 * wheel, 2))
    case SurfaceTemp => Int(LittleEndian(packet, o + 30 + wheel, 1))
    case InnerTemp => Int(LittleEndian(packet, o + 34 + wheel, 1))
    case Pressure => Truncated(LittleEndian(packet, o + 40 + 4 * wheel, 4))
  }

  function MotionOffset(f: MotionField): (off: nat)
    ensures off + 4 <= 60
  {
    match f
    case PositionX => 0
    case PositionY => 4
    case PositionZ => 8
    case VelocityX => 12
    case VelocityY => 16
    case VelocityZ => 20
    case GForceLateral => 36
    case GForceLongitudinal => 40
    case GForceVertical => 44
    case Yaw => 48
    case Pitch => 52
    case Roll => 56
  }

  /** `current_lap_time` holds the bytes of the last lap's time. */
  function LapCellAt(packet: seq<byte>, o: nat, f: LapField): Cell
    requires o + 50 <= |packet|
  {
    match f
    case CurrentLapTime => Int(LittleEndian(packet, o, 4))
    case Sector1Time => Int(LittleEndian(packet, o + 8, 2))
    case Sector2Time => Int(LittleEndian(packet, o + 11, 2))
    case DeltaToCarInFront => Int(LittleEndian(packet, o + 14, 2))
    case DeltaToRaceLeader => Int(LittleEndian(packet, o + 16, 2))
    case LapDistance => Float(LittleEndian(packet, o + 18, 4))
    case TotalDistance => Float(LittleEndian(packet, o + 22, 4))
    case LapNum => Int(LittleEndian(packet, o + 31, 1))
    case Sector => Int(LittleEndian(packet, o + 34, 1))
  }

  function WheelOffset(f: WheelField): (off: nat)
    ensures off + 16 <= 188
  {
    match f
    case SuspensionPosition => 0
    case SuspensionVelocity => 16
    case WheelSpeed => 48
    case SlipRatio => 64
    case SlipAngle => 80
    case LateralForce => 96
    case LongitudinalForce => 112
    case VerticalForce => 172
  }

  /** The bytes that a data column must hold, for player data starting at o. */
  function CellAt(packet: seq<byte>, o: nat, c: Column): Cell
    requires o + Extent(c) <= |packet|
  {
    match c
    case OfVehicle(f) => VehicleCellAt(packet, o, f)
    case OfTire(corner, f) => TireCellAt(packet, o, WheelIndex(corner), f)
    case OfMotion(f) => Float(LittleEndian(packet, o + MotionOffset(f), 4))
    case OfLap(f) => LapCellAt(packet, o, f)
    case OfWheel(corner, f) => Float(LittleEndian(packet, o + WheelOffset(f) + 4 * WheelIndex(corner), 4))
    case _ => Null
  }

  // ---- group by group --------------------------------------------------------

  lemma TireCellsFromBytes(packet: seq<byte>, o: nat, c: Corner, f: TireField)
    requires o + 60 <= |packet|
    ensures OfTire(c, f) in TireCells(c, NormalizeTire(CarTelemetryAt(packet, o), WheelIndex(c)).value)
    ensures TireCells(c, NormalizeTire(CarTelemetryAt(packet, o), WheelIndex(c)).value)[OfTire(c, f)]
         == CellAt(packet, o, OfTire(c, f))
  {
    hide LittleEndian;
  }

  lemma VehicleCellsFromBytes(packet: seq<byte>, o: nat, f: VehicleField)
    requires o + 60 <= |packet|
    ensures OfVehicle(f) in VehicleCells(NormalizeVehicle(CarTelemetryAt(packet, o)))
    ensures VehicleCells(NormalizeVehicle(CarTelemetryAt(packet, o)))[OfVehicle(f)] == CellAt(packet, o, OfVehicle(f))
  {
    hide LittleEndian, WheelsAt;
  }

  function MotionPart(d: MotionData, f: MotionField): Bits {
    match f
    case PositionX => d.positionX
    case PositionY => d.positionY
    case PositionZ => d.positionZ
    case VelocityX => d.velocityX
    case VelocityY => d.velocityY
    case VelocityZ => d.velocityZ
    case GForceLateral => d.gForceLateral
    case GForceLongitudinal => d.gForceLongitudinal
    case GForceVertical => d.gForceVertical
    case Yaw => d.yaw
    case Pitch => d.pitch
    case Roll => d.roll
  }

  lemma MotionCellIsPart(d: MotionData, f: MotionField)
    ensures OfMotion(f) in MotionCells(d) && MotionCells(d)[OfMotion(f)] == Float(MotionPart(d, f))
  {
  }

  lemma MotionCellsFromBytes(packet: seq<byte>, o: nat, f: MotionField)
    requires o + 60 <= |packet|
    ensures OfMotion(f) in MotionCells(NormalizeMotion(CarMotionAt(packet, o)))
    ensures MotionCells(NormalizeMotion(CarMotionAt(packet, o)))[OfMotion(f)] == CellAt(packet, o, OfMotion(f))
  {
    hide LittleEndian, MotionCells;
    MotionCellIsPart(NormalizeMotion(CarMotionAt(packet, o)), f);
  }

  lemma LapCellsFromBytes(packet: seq<byte>, o: nat, f: LapField)
    requires o + 50 <= |packet|
    ensures OfLap(f) in LapCells(NormalizeCurrentLap(LapDataAt(packet, o)))
    ensures LapCells(NormalizeCurrentLap(LapDataAt(packet, o)))[OfLap(f)] == CellAt(packet, o, OfLap(f))
  {
    hide LittleEndian;
  }

  lemma WheelCellsFromBytes(packet: seq<byte>, o: nat, c: Corner, f: WheelField)
    requires o + 188 <= |packet|
    ensures OfWheel(c, f) in WheelCells(c, NormalizeWheel(ExtendedMotionAt(packet, o), WheelIndex(c)).value)
    ensures WheelCells(c, NormalizeWheel(ExtendedMotionAt(packet, o), WheelIndex(c)).value)[OfWheel(c, f)]
         == CellAt(packet, o, OfWheel(c, f))
  {
    hide LittleEndian;
  }

  // ---- whole rows ------------------------------------------------------------

  /** Every data column of the row holds its bytes, for player data starting at o; the
      other columns are the message's envelope. */
  predicate Sourced(built: Built, k: Kind, m: GameTelemetry, packet: seq<byte>, o: nat) {
    && built.Built?
    && built.row.Keys == Schema(k)
    && (forall c | c in EnvelopeColumns() :: c in built.row && built.row[c] == EnvelopeCells(m)[c])
    && (forall c | c in Schema(k) && c !in EnvelopeColumns() ::
          o + Extent(c) <= |packet| && built.row[c] == CellAt(packet, o, c))
  }

  lemma VehicleRow(m: GameTelemetry, packet: seq<byte>, o: nat)
    requires o + 60 <= |packet| && m.data == VehicleDataOf(NormalizeVehicle(CarTelemetryAt(packet, o)))
    ensures Sourced(BuildRow(m, Vehicle), Vehicle, m, packet, o)
  {
    hide CellAt, CarTelemetryAt,
         EnvelopeCells, VehicleCells, TireCells, EnvelopeColumns, VehicleColumns, TireColumns;
    BuildExactly(m, Vehicle);
    assert Complete(m);
    VehicleColumnsAre();
    TireColumnsAre(FrontLeft);
    TireColumnsAre(FrontRight);
    TireColumnsAre(BackLeft);
    TireColumnsAre(BackRight);
    var row := BuildRow(m, Vehicle).row;
    forall c | c in Schema(Vehicle) && c !in EnvelopeColumns()
      ensures o + Extent(c) <= |packet| && row[c] == CellAt(packet, o, c)
    {
      match c
      case OfVehicle(f) => VehicleCellsFromBytes(packet, o, f);
      case OfTire(corner, f) => TireCellsFromBytes(packet, o, corner, f);
    }
  }

  lemma MotionRow(m: GameTelemetry, packet: seq<byte>, o: nat)
    requires o + 60 <= |packet| && m.data == MotionDataOf(NormalizeMotion(CarMotionAt(packet, o)))
    ensures Sourced(BuildRow(m, Motion), Motion, m, packet, o)
  {
    hide CellAt, NormalizeMotion, CarMotionAt, EnvelopeCells, MotionCells, EnvelopeColumns, MotionColumns;
    BuildExactly(m, Motion);
    MotionColumnsAre();
    var row := BuildRow(m, Motion).row;
    forall c | c in Schema(Motion) && c !in EnvelopeColumns()
      ensures o + Extent(c) <= |packet| && row[c] == CellAt(packet, o, c)
    {
      match c
      case OfMotion(f) => MotionCellsFromBytes(packet, o, f);
    }
  }

  lemma CurrentLapRow(m: GameTelemetry, packet: seq<byte>, o: nat)
    requires o + 50 <= |packet| && m.data == CurrentLapDataOf(NormalizeCurrentLap(LapDataAt(packet, o)))
    ensures Sourced(BuildRow(m, LiveLap), LiveLap, m, packet, o)
  {
    hide CellAt, NormalizeCurrentLap, LapDataAt, EnvelopeCells, LapCells, EnvelopeColumns, LapColumns;
    BuildExactly(m, LiveLap);
    LapColumnsAre();
    var row := BuildRow(m, LiveLap).row;
    forall c | c in Schema(LiveLap) && c !in EnvelopeColumns()
      ensures o + Extent(c) <= |packet| && row[c] == CellAt(packet, o, c)
    {
      match c
      case OfLap(f) => LapCellsFromBytes(packet, o, f);
    }
  }

  lemma WheelRow(m: GameTelemetry, packet: seq<byte>, o: nat)
    requires o + 188 <= |packet| && m.data == WheelDataOf(NormalizeMotionEx(ExtendedMotionAt(packet, o)))
    ensures Sourced(BuildRow(m, ExtendedWheel), ExtendedWheel, m, packet, o)
  {
    hide CellAt, ExtendedMotionAt, EnvelopeCells, WheelCells, EnvelopeColumns, WheelColumns;
    BuildExactly(m, ExtendedWheel);
    assert Complete(m);
    WheelColumnsAre(FrontLeft);
    WheelColumnsAre(FrontRight);
    WheelColumnsAre(BackLeft);
    WheelColumnsAre(BackRight);
    var row := BuildRow(m, ExtendedWheel).row;
    forall c | c in Schema(ExtendedWheel) && c !in EnvelopeColumns()
      ensures o + Extent(c) <= |packet| && row[c] == CellAt(packet, o, c)
    {
      match c
      case OfWheel(corner, f) => WheelCellsFromBytes(packet, o, corner, f);
    }
  }

  /** The packets whose data is stored by COPY, long enough and with a car in range. */
  predicate StoredByCopy(packet: seq<byte>) {
    && |packet| >= HEADER_BYTES
    && var h := HeaderAt(packet, 0);
       && (IsCarArray(h.packetId) || h.packetId == MOTION_EX_PACKET)
       && |packet| >= HEADER_BYTES + BodyBytes(h.packetId)
       && (IsCarArray(h.packetId) ==> h.playerCarIndex < CARS)
  }

  /** From packet to row: such a packet causes one message, whose row can be built and has
      every column of its table, each holding the bytes at its own offset. */
  lemma RowFromBytes(cache: Cache, packet: seq<byte>, clock: Clock)
    requires StoredByCopy(packet)
    ensures var out, k := HandlePacket(cache, packet, clock), PacketKind(HeaderAt(packet, 0).packetId);
            && |out.sent| == 1
            && KindOf(out.sent[0]) == Some(k)
            && Sourced(BuildRow(out.sent[0], k), k, out.sent[0], packet, Base(packet))
            && EnvelopeCells(out.sent[0])
               == map[Time := Stamp(clock(0)), SessionId := Text(Decimal(LittleEndian(packet, 7, 8))),
                      UserId := Text(Decimal(LittleEndian(packet, 27, 1))), Title := GameTitleOf(TitleF123)]
  {
    hide Ingest.HandlePacket, Decimal, Sourced, BuildRow, LittleEndian,
         NormalizeVehicle, NormalizeMotion, NormalizeCurrentLap, NormalizeMotionEx;
    HandleIsFromBytes(cache, packet, clock);
    var h, m := HeaderAt(packet, 0), FromBytes(cache, packet, clock).sent[0];
    if h.packetId == CAR_TELEMETRY_PACKET {
      VehicleRow(m, packet, Base(packet));
    } else if h.packetId == CAR_MOTION_PACKET {
      MotionRow(m, packet, Base(packet));
    } else if h.packetId == LAP_DATA_PACKET {
      CurrentLapRow(m, packet, Base(packet));
    } else {
      WheelRow(m, packet, Base(packet));
    }
  }

  /** The time since the beginning of the current lap stands in bytes 4 to 7 of the car's
      element, the last lap's time in bytes 0 to 3. The column that is documented to hold
      the first holds the second, so it is right exactly if the two are equal. */
  lemma CurrentLapTimeExactly(packet: seq<byte>, o: nat)
    requires o + 50 <= |packet|
    ensures OfLap(CurrentLapTime) in LapCells(NormalizeCurrentLap(LapDataAt(packet, o)))
    ensures LapCells(NormalizeCurrentLap(LapDataAt(packet, o)))[OfLap(CurrentLapTime)] == Int(LittleEndian(packet, o + 4, 4))
       <==> LittleEndian(packet, o, 4) == LittleEndian(packet, o + 4, 4)
  {
    hide LittleEndian, LapCells;
    LapCellsFromBytes(packet, o, CurrentLapTime);
  }

  /** The same for the row that a lap data packet ends up as. */
  lemma CurrentLapColumnExactly(cache: Cache, packet: seq<byte>, clock: Clock)
    requires StoredByCopy(packet) && HeaderAt(packet, 0).packetId == LAP_DATA_PACKET
    ensures |HandlePacket(cache, packet, clock).sent| == 1
    ensures var built, o := BuildRow(HandlePacket(cache, packet, clock).sent[0], LiveLap), Base(packet);
            && built.Built?
            && OfLap(CurrentLapTime) in built.row
            && o + 8 <= |packet|
            && (built.row[OfLap(CurrentLapTime)] == Int(LittleEndian(packet, o + 4, 4))
                <==> LittleEndian(packet, o, 4) == LittleEndian(packet, o + 4, 4))
  {
    hide Ingest.HandlePacket, BuildRow, LittleEndian, Decimal;
    RowFromBytes(cache, packet, clock);
    LapColumnsAre();
    assert OfLap(CurrentLapTime) in Schema(LiveLap);
  }

  // ---- completed laps --------------------------------------------------------

  /** Lap i of a history, as its 14 bytes at 36 + 14 * i: a 32-bit time, three 16-bit
      sector times and one byte whose low bits are the validity flags. */
  lemma LapMessageFromBytes(packet: seq<byte>, m: nat, clock: Clock, i: nat)
    requires IsPlayerHistory(packet) && i < m <= MAX_LAPS
    ensures LapMessages(packet, m, clock)[i].timestamp == clock(i)
    ensures LapMessages(packet, m, clock)[i].title == TitleF123
    ensures LapMessages(packet, m, clock)[i].sessionId == Decimal(LittleEndian(packet, 7, 8))
    ensures LapMessages(packet, m, clock)[i].userId == Decimal(LittleEndian(packet, 27, 1))
    ensures var lap, o, flags := LapMessages(packet, m, clock)[i].data.lapTimes, 36 + 14 * i, packet[49 + 14 * i];
            && lap.lapNum == i
            && lap.lapTime == LittleEndian(packet, o, 4)
            && lap.sector1Time == LittleEndian(packet, o + 4, 2)
            && lap.sector2Time == LittleEndian(packet, o + 7, 2)
            && lap.sector3Time == LittleEndian(packet, o + 10, 2)
            && (lap.lapValid <==> flags % 2 == 1)
            && (lap.sector1Valid <==> flags % 4 >= 2)
            && (lap.sector2Valid <==> flags % 8 >= 4)
            && (lap.sector3Valid <==> flags % 16 >= 8)
  {
    var flags := packet[49 + 14 * i] as int;
    FlagsByte(packet, 49 + 14 * i);
    LowBits(flags);
    hide LittleEndian, Bit, Decimal;
    assert 36 + 14 * i + 13 == 49 + 14 * i;
    assert LapMessages(packet, m, clock)[i].data.lapTimes == ToHistoricLap(i, LapAt(packet, i));
  }

  lemma FlagsByte(packet: seq<byte>, o: nat)
    requires o < |packet|
    ensures LittleEndian(packet, o, 1) == packet[o] as int
  {
    assert LittleEndian(packet, o + 1, 0) == 0;
  }

  lemma LowBits(flags: nat)
    ensures Bit(flags, 0) <==> flags % 2 == 1
    ensures Bit(flags, 1) <==> flags % 4 >= 2
    ensures Bit(flags, 2) <==> flags % 8 >= 4
    ensures Bit(flags, 3) <==> flags % 16 >= 8
  {
    var half := flags / 2;
    var quarter := half / 2;
    assert Bit(flags, 1) == Bit(half, 0) && Bit(flags, 2) == Bit(half, 1) && Bit(flags, 3) == Bit(half, 2);
    assert Bit(half, 1) == Bit(quarter, 0) && Bit(half, 2) == Bit(quarter, 1);
    assert Bit(quarter, 1) == Bit(quarter / 2, 0);
    BinaryDigits(flags);
  }

  lemma BinaryDigits(n: nat)
    ensures n / 2 % 2 == 1 <==> n % 4 >= 2
    ensures n / 2 / 2 % 2 == 1 <==> n % 8 >= 4
    ensures n / 2 / 2 / 2 % 2 == 1 <==> n % 16 >= 8
  {
    SecondDigit(n);
    SecondDigit(n / 2);
    SecondDigit(n / 2 / 2);
    TopDigit(n, n / 2, 4);
    TopDigit(n, n / 2, 8);
    TopDigit(n / 2, n / 2 / 2, 4);
  }

  /** Halving a number halves its remainder. */
  lemma TopDigit(n: nat, half: nat, m: nat)
    requires half == n / 2 && (m == 4 || m == 8)
    ensures half % m >= m / 2 <==> n % (2 * m) >= m
  {
    if m == 4 {
    } else {
    }
  }

  lemma SecondDigit(n: nat)
    ensures n / 2 % 2 == 1 <==> n % 4 >= 2
  {
  }

  // ---- dispatch --------------------------------------------------------------

  /** The table for each packet type whose data is copied, by the type's own number. */
  function TableOf(packetType: byte): Option<Kind> {
    if packetType == 6 then Some(Vehicle)
    else if packetType == 0 then Some(Motion)
    else if packetType == 2 then Some(LiveLap)
    else if packetType == 13 then Some(ExtendedWheel)
    else None
  }

  /** The length of a whole packet of each type, and where the player's data starts. */
  function FullLength(packetType: byte): nat {
    match packetType
    case 6 => 1349
    case 0 => 1349
    case 2 => 1129
    case 13 => 217
    case 11 => 1460
    case _ => 29
  }

  function DataStart(packet: seq<byte>): nat
    requires |packet| >= 29
  {
    match packet[6]
    case 13 => 29
    case 2 => 29 + 50 * packet[27] as nat
    case _ => 29 + 60 * packet[27] as nat
  }

  lemma HeaderBytes(packet: seq<byte>)
    requires |packet| >= 29
    ensures HeaderAt(packet, 0).packetId == packet[6] as int
    ensures HeaderAt(packet, 0).playerCarIndex == packet[27] as nat
  {
    FlagsByte(packet, 6);
    FlagsByte(packet, 27);
    hide LittleEndian;
  }

  /** Byte 6 decides: a whole packet of type 6, 0, 2 or 13 becomes one row of its table,
      with the bytes of the player's car, byte 27, which must be below 22 in all but 13. */
  lemma RowByType(cache: Cache, packet: seq<byte>, clock: Clock)
    requires |packet| >= 29 && TableOf(packet[6]).Some? && |packet| >= FullLength(packet[6])
    requires packet[6] != 13 ==> packet[27] < 22
    ensures var out, k := HandlePacket(cache, packet, clock), TableOf(packet[6]).value;
            && out.status == Routed
            && out.cache == cache
            && |out.sent| == 1
            && KindOf(out.sent[0]) == Some(k)
            && Sourced(BuildRow(out.sent[0], k), k, out.sent[0], packet, DataStart(packet))
  {
    hide HandlePacket, Sourced, BuildRow, LittleEndian, HeaderAt, Decimal;
    HeaderBytes(packet);
    FlagsByte(packet, 27);
    RowFromBytes(cache, packet, clock);
    StatusExactly(cache, packet, clock);
    FailuresSendNothing(cache, packet, clock);
  }

  /** A packet shorter than its type calls for has no effect; one of type 6, 0 or 2 for a
      car past 21 panics without any. */
  lemma RefusedByType(cache: Cache, packet: seq<byte>, clock: Clock)
    requires |packet| >= 29
    ensures |packet| < FullLength(packet[6]) ==> HandlePacket(cache, packet, clock) == Outcome(cache, [], TooShort)
    ensures packet[6] in {6, 0, 2} && |packet| >= FullLength(packet[6]) && packet[27] >= 22 ==>
              HandlePacket(cache, packet, clock) == Outcome(cache, [], Panicked)
  {
    hide HandlePacket, LittleEndian, HeaderAt, Decimal;
    HeaderBytes(packet);
    FlagsByte(packet, 27);
    StatusExactly(cache, packet, clock);
    FailuresSendNothing(cache, packet, clock);
  }

  /** Type 11 sends lap messages only, and only for the player's own car; every other type
      is routed without any effect. */
  lemma OtherTypes(cache: Cache, packet: seq<byte>, clock: Clock)
    requires |packet| >= 29 && TableOf(packet[6]).None?
    ensures packet[6] != 11 ==> HandlePacket(cache, packet, clock) == Outcome(cache, [], Routed)
    ensures packet[6] == 11 ==> forall m | m in HandlePacket(cache, packet, clock).sent :: KindOf(m) == Some(SessionLap)
    ensures packet[6] == 11 && |packet| >= 1460 && packet[29] != packet[27] ==>
              HandlePacket(cache, packet, clock) == Outcome(cache, [], Routed)
    ensures packet[6] == 11 && |packet| >= 1460 && packet[29] == packet[27]
            && Latest(cache, CarKey(HeaderAt(packet, 0).sessionUID, packet[27] as nat)) < packet[30] as int - 1 <= 100
            && packet[30] > 1 ==>
              && IsPlayerHistory(packet)
              && HandlePacket(cache, packet, clock).sent == LapMessages(packet, packet[30] as nat - 1, clock)
  {
    hide HandlePacket, LapMessages, Decimal, LittleEndian, HeaderAt, CarKey;
    HeaderBytes(packet);
    HandleIsFromBytes(cache, packet, clock);
    if |packet| >= 1460 {
      FlagsByte(packet, 29);
      FlagsByte(packet, 30);
    }
    if packet[6] == 11 {
      OnlyLaps(cache, packet, clock);
    }
  }

  lemma OnlyLaps(cache: Cache, packet: seq<byte>, clock: Clock)
    requires |packet| >= 29 && HeaderAt(packet, 0).packetId == SESSION_HISTORY_PACKET
    ensures forall m | m in FromBytes(cache, packet, clock).sent :: KindOf(m) == Some(SessionLap)
  {
  }
}
