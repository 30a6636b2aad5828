/** The messages that cross from ingest to persist.

    float32 fields are carried as their 32 bits, times and durations as integers.
    A protobuf submessage that may be nil is an `Option`; the `oneof` is `Data`. */
module Telemetry {
  import opened Wrappers

  /** A float32, as its IEEE 754 bit pattern. */
  type Bits = int

  datatype GameTitle = TitleUnknown | TitleF123

  datatype GameTelemetry = GameTelemetry(
    title: GameTitle,
    sessionId: string,
    userId: string,
    timestamp: int,
    data: Data)

  datatype Data =
    | NoData
    | VehicleDataOf(vehicle: VehicleData)
    | MotionDataOf(motion: MotionData)
    | CurrentLapDataOf(currentLap: CurrentLapData)
    | LapTimesDataOf(lapTimes: HistoricLapData)
    | WheelDataOf(wheels: ExtendedFourWheelData)

  /** The five kinds of data. Ingest has a channel for each, persist a table for each. */
  datatype Kind = Vehicle | Motion | LiveLap | SessionLap | ExtendedWheel

  function KindOf(m: GameTelemetry): Option<Kind> {
    match m.data
    case NoData => None
    case VehicleDataOf(_) => Some(Vehicle)
    case MotionDataOf(_) => Some(Motion)
    case CurrentLapDataOf(_) => Some(LiveLap)
    case LapTimesDataOf(_) => Some(SessionLap)
    case WheelDataOf(_) => Some(ExtendedWheel)
  }

  /** The messages of one kind, in order. */
  function OfKind(k: Kind, ms: seq<GameTelemetry>): seq<GameTelemetry> {
    if ms == [] then []
    else OfKind(k, ms[..|ms| - 1]) + if KindOf(ms[|ms| - 1]) == Some(k) then [ms[|ms| - 1]] else []
  }

  lemma {:induction false} OfKindAppend(k: Kind, ms: seq<GameTelemetry>, ns: seq<GameTelemetry>)
    ensures OfKind(k, ms + ns) == OfKind(k, ms) + OfKind(k, ns)
  {
    if ns == [] {
      assert ms + ns == ms;
    } else {
      assert (ms + ns)[..|ms + ns| - 1] == ms + ns[..|ns| - 1];
      OfKindAppend(k, ms, ns[..|ns| - 1]);
    }
  }

  lemma OfKindOne(m: GameTelemetry)
    ensures forall k :: OfKind(k, [m]) == if KindOf(m) == Some(k) then [m] else []
  {
    forall k ensures OfKind(k, [m]) == if KindOf(m) == Some(k) then [m] else [] {
      assert [m][..0] == [];
    }
  }

  /** `pressure` carries the float32 bits that the Go code converts to uint32. */
  datatype TireData = TireData(brakeTemperature: int, innerTemperature: int, surfaceTemperature: int, pressure: Bits)

  datatype Tires = Tires(
    frontLeft: Option<TireData>,
    frontRight: Option<TireData>,
    backLeft: Option<TireData>,
    backRight: Option<TireData>)

  datatype VehicleData = VehicleData(
    speed: int,
    rpm: int,
    throttle: Bits,
    brake: Bits,
    steering: Bits,
    gear: int,
    engineTemperature: int,
    tires: Option<Tires>)

  datatype MotionData = MotionData(
    positionX: Bits, positionY: Bits, positionZ: Bits,
    velocityX: Bits, velocityY: Bits, velocityZ: Bits,
    gForceLateral: Bits, gForceLongitudinal: Bits, gForceVertical: Bits,
    yaw: Bits, pitch: Bits, roll: Bits)

  datatype CurrentLapData = CurrentLapData(
    lapNum: int,
    lapTime: int,
    sector: int,
    sector1Time: int,
    sector2Time: int,
    deltaToCarInFront: int,
    deltaToRaceLeader: int,
    lapDistance: Bits,
    totalDistance: Bits)

  /** Durations are in milliseconds. */
  datatype HistoricLapData = HistoricLapData(
    lapNum: int,
    lapTime: int,
    sector1Time: int,
    sector2Time: int,
    sector3Time: int,
    lapValid: bool,
    sector1Valid: bool,
    sector2Valid: bool,
    sector3Valid: bool)

  datatype ExtendedWheelData = ExtendedWheelData(
    wheelSpeed: Bits,
    verticalForce: Bits,
    slipAngle: Bits,
    slipRatio: Bits,
    lateralForce: Bits,
    longitudinalForce: Bits,
    suspensionPosition: Bits,
    suspensionVelocity: Bits)

  datatype ExtendedFourWheelData = ExtendedFourWheelData(
    backLeft: Option<ExtendedWheelData>,
    backRight: Option<ExtendedWheelData>,
    frontLeft: Option<ExtendedWheelData>,
    frontRight: Option<ExtendedWheelData>)

  predicate AllTires(t: Tires) {
    t.frontLeft.Some? && t.frontRight.Some? && t.backLeft.Some? && t.backRight.Some?
  }

  predicate AllWheels(w: ExtendedFourWheelData) {
    w.frontLeft.Some? && w.frontRight.Some? && w.backLeft.Some? && w.backRight.Some?
  }

  /** Every submessage that a row builder dereferences is present. */
  predicate Complete(m: GameTelemetry) {
    match m.data
    case VehicleDataOf(v) => v.tires.Some? && AllTires(v.tires.value)
    case WheelDataOf(w) => AllWheels(w)
    case _ => true
  }
}
