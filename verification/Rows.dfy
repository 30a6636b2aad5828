/** The rows that persist builds from messages, and where each column comes from.

    A column is named by an enumeration value rather than by its string; the columns of
    each wheel are grouped by corner and field. */
module Rows {
  import opened Wrappers
  import opened Telemetry

  datatype Corner = FrontLeft | FrontRight | BackLeft | BackRight

  datatype VehicleField = Speed | Rpm | Throttle | Brake | Steering | Gear | EngineTemperature

  datatype TireField = BrakeTemp | InnerTemp | SurfaceTemp | Pressure

  datatype MotionField =
    | PositionX | PositionY | PositionZ
    | VelocityX | VelocityY | VelocityZ
    | GForceLateral | GForceLongitudinal | GForceVertical
    | Yaw | Pitch | Roll

  datatype LapField =
    | LapNum | CurrentLapTime | Sector | Sector1Time | Sector2Time
    | DeltaToCarInFront | DeltaToRaceLeader | LapDistance | TotalDistance

  datatype WheelField =
    | WheelSpeed | VerticalForce | SlipAngle | SlipRatio
    | LateralForce | LongitudinalForce | SuspensionPosition | SuspensionVelocity

  datatype Column =
    | Time | SessionId | UserId | Title
    | OfVehicle(vehicle: VehicleField)
    | OfTire(corner: Corner, tire: TireField)
    | OfMotion(motion: MotionField)
    | OfLap(lap: LapField)
    | OfWheel(corner: Corner, wheel: WheelField)

  /** A value in a row. `Truncated` is the unsigned integer that a float32 converts to. */
  datatype Cell =
    | Null
    | Text(text: string)
    | Stamp(time: int)
    | GameTitleOf(title: GameTitle)
    | Int(n: int)
    | Float(bits: Bits)
    | Truncated(bits: Bits)

  type Row = map<Column, Cell>

  // ---- the tables ------------------------------------------------------------

  function EnvelopeColumns(): (columns: set<Column>)
    ensures forall x: Column :: x in columns <==> x.Time? || x.SessionId? || x.UserId? || x.Title?
  {
    {Time, SessionId, UserId, Title}
  }

  function TireColumns(c: Corner): set<Column> {
    {OfTire(c, BrakeTemp), OfTire(c, InnerTemp), OfTire(c, SurfaceTemp), OfTire(c, Pressure)}
  }

  function WheelColumns(c: Corner): set<Column> {
    {OfWheel(c, WheelSpeed), OfWheel(c, VerticalForce), OfWheel(c, SlipAngle), OfWheel(c, SlipRatio),
     OfWheel(c, LateralForce), OfWheel(c, LongitudinalForce), OfWheel(c, SuspensionPosition),
     OfWheel(c, SuspensionVelocity)}
  }

  function VehicleColumns(): set<Column> {
    {OfVehicle(Speed), OfVehicle(Rpm), OfVehicle(Throttle), OfVehicle(Brake), OfVehicle(Steering), OfVehicle(Gear),
     OfVehicle(EngineTemperature)}
  }

  function MotionColumns(): set<Column> {
    {OfMotion(PositionX), OfMotion(PositionY), OfMotion(PositionZ),
     OfMotion(VelocityX), OfMotion(VelocityY), OfMotion(VelocityZ),
     OfMotion(GForceLateral), OfMotion(GForceLongitudinal), OfMotion(GForceVertical),
     OfMotion(Yaw), OfMotion(Pitch), OfMotion(Roll)}
  }

  function LapColumns(): set<Column> {
    {OfLap(LapNum), OfLap(CurrentLapTime), OfLap(Sector), OfLap(Sector1Time), OfLap(Sector2Time),
     OfLap(DeltaToCarInFront), OfLap(DeltaToRaceLeader), OfLap(LapDistance), OfLap(TotalDistance)}
  }

  /** The columns of the table of a kind, as its migration declares them; the
      `session_lap_data` table is not filled by COPY. */
  function Schema(k: Kind): set<Column> {
    match k
    case Vehicle =>
      EnvelopeColumns() + VehicleColumns()
      + TireColumns(FrontLeft) + TireColumns(FrontRight) + TireColumns(BackLeft) + TireColumns(BackRight)
    case Motion => EnvelopeColumns() + MotionColumns()
    case LiveLap => EnvelopeColumns() + LapColumns()
    case ExtendedWheel =>
      EnvelopeColumns()
      + WheelColumns(BackLeft) + WheelColumns(BackRight) + WheelColumns(FrontLeft) + WheelColumns(FrontRight)
    case SessionLap => {}
  }

  /** What the sets of columns hold. */
  lemma TireColumnsAre(c: Corner)
    ensures forall x :: x in TireColumns(c) <==> x.OfTire? && x.corner == c
  {
    forall x: Column | x.OfTire? && x.corner == c ensures x in TireColumns(c) {
      match x.tire
      case BrakeTemp =>
      case InnerTemp =>
      case SurfaceTemp =>
      case Pressure =>
    }
  }

  lemma WheelColumnsAre(c: Corner)
    ensures forall x :: x in WheelColumns(c) <==> x.OfWheel? && x.corner == c
  {
    forall x: Column | x.OfWheel? && x.corner == c ensures x in WheelColumns(c) {
      match x.wheel
      case WheelSpeed =>
      case VerticalForce =>
      case SlipAngle =>
      case SlipRatio =>
      case LateralForce =>
      case LongitudinalForce =>
      case SuspensionPosition =>
      case SuspensionVelocity =>
    }
  }

  lemma VehicleColumnsAre()
    ensures forall x :: x in VehicleColumns() <==> x.OfVehicle?
  {
    forall x: Column | x.OfVehicle? ensures x in VehicleColumns() {
      match x.vehicle
      case Speed =>
      case Rpm =>
      case Throttle =>
      case Brake =>
      case Steering =>
      case Gear =>
      case EngineTemperature =>
    }
  }

  lemma MotionColumnsAre()
    ensures forall x :: x in MotionColumns() <==> x.OfMotion?
  {
    forall x: Column | x.OfMotion? ensures x in MotionColumns() {
      match x.motion
      case PositionX =>
      case PositionY =>
      case PositionZ =>
      case VelocityX =>
      case VelocityY =>
      case VelocityZ =>
      case GForceLateral =>
      case GForceLongitudinal =>
      case GForceVertical =>
      case Yaw =>
      case Pitch =>
      case Roll =>
    }
  }

  lemma LapColumnsAre()
    ensures forall x :: x in LapColumns() <==> x.OfLap?
  {
    forall x: Column | x.OfLap? ensures x in LapColumns() {
      match x.lap
      case LapNum =>
      case CurrentLapTime =>
      case Sector =>
      case Sector1Time =>
      case Sector2Time =>
      case DeltaToCarInFront =>
      case DeltaToRaceLeader =>
      case LapDistance =>
      case TotalDistance =>
    }
  }

  // ---- the row builders ------------------------------------------------------

  /** A row, an error, or the dereference of a submessage that is nil. */
  datatype Built = Built(row: Row) | NotBuilt | NilPanic

  function EnvelopeCells(m: GameTelemetry): (cells: Row)
    ensures cells.Keys == EnvelopeColumns()
  {
    map[Time := Stamp(m.timestamp), SessionId := Text(m.sessionId), UserId := Text(m.userId),
        Title := GameTitleOf(m.title)]
  }

  function TireCells(c: Corner, t: TireData): (cells: Row)
    ensures cells.Keys == TireColumns(c)
  {
    map[OfTire(c, BrakeTemp) := Int(t.brakeTemperature),
        OfTire(c, InnerTemp) := Int(t.innerTemperature),
        OfTire(c, SurfaceTemp) := Int(t.surfaceTemperature),
        OfTire(c, Pressure) := Truncated(t.pressure)]
  }

  function VehicleCells(v: VehicleData): (cells: Row)
    ensures cells.Keys == VehicleColumns()
  {
    map[OfVehicle(Speed) := Int(v.speed), OfVehicle(Rpm) := Int(v.rpm), OfVehicle(Throttle) := Float(v.throttle),
        OfVehicle(Brake) := Float(v.brake), OfVehicle(Steering) := Float(v.steering), OfVehicle(Gear) := Int(v.gear),
        OfVehicle(EngineTemperature) := Int(v.engineTemperature)]
  }

  function MotionCells(d: MotionData): (cells: Row)
    ensures cells.Keys == MotionColumns()
  {
    map[OfMotion(PositionX) := Float(d.positionX), OfMotion(PositionY) := Float(d.positionY),
        OfMotion(PositionZ) := Float(d.positionZ), OfMotion(VelocityX) := Float(d.velocityX),
        OfMotion(VelocityY) := Float(d.velocityY), OfMotion(VelocityZ) := Float(d.velocityZ),
        OfMotion(GForceLateral) := Float(d.gForceLateral), OfMotion(GForceLongitudinal) := Float(d.gForceLongitudinal),
        OfMotion(GForceVertical) := Float(d.gForceVertical),
        OfMotion(Yaw) := Float(d.yaw), OfMotion(Pitch) := Float(d.pitch), OfMotion(Roll) := Float(d.roll)]
  }

  function LapCells(l: CurrentLapData): (cells: Row)
    ensures cells.Keys == LapColumns()
  {
    map[OfLap(LapNum) := Int(l.lapNum), OfLap(CurrentLapTime) := Int(l.lapTime), OfLap(Sector) := Int(l.sector),
        OfLap(Sector1Time) := Int(l.sector1Time), OfLap(Sector2Time) := Int(l.sector2Time),
        OfLap(DeltaToCarInFront) := Int(l.deltaToCarInFront), OfLap(DeltaToRaceLeader) := Int(l.deltaToRaceLeader),
        OfLap(LapDistance) := Float(l.lapDistance), OfLap(TotalDistance) := Float(l.totalDistance)]
  }

  function WheelCells(c: Corner, w: ExtendedWheelData): (cells: Row)
    ensures cells.Keys == WheelColumns(c)
  {
    map[OfWheel(c, WheelSpeed) := Float(w.wheelSpeed), OfWheel(c, VerticalForce) := Float(w.verticalForce),
        OfWheel(c, SlipAngle) := Float(w.slipAngle), OfWheel(c, SlipRatio) := Float(w.slipRatio),
        OfWheel(c, LateralForce) := Float(w.lateralForce), OfWheel(c, LongitudinalForce) := Float(w.longitudinalForce),
        OfWheel(c, SuspensionPosition) := Float(w.suspensionPosition),
        OfWheel(c, SuspensionVelocity) := Float(w.suspensionVelocity)]
  }

  /** Despite a comment in the Go code, absent tires are dereferenced, not left null. */
  function BuildVehicle(m: GameTelemetry): Built {
    if !m.data.VehicleDataOf? then NotBuilt
    else if !Complete(m) then NilPanic
    else
      var t := m.data.vehicle.tires.value;
      Built(EnvelopeCells(m) + VehicleCells(m.data.vehicle)
            + TireCells(FrontLeft, t.frontLeft.value) + TireCells(FrontRight, t.frontRight.value)
            + TireCells(BackLeft, t.backLeft.value) + TireCells(BackRight, t.backRight.value))
  }

  function BuildMotion(m: GameTelemetry): Built {
    if !m.data.MotionDataOf? then NotBuilt else Built(EnvelopeCells(m) + MotionCells(m.data.motion))
  }

  function BuildCurrentLap(m: GameTelemetry): Built {
    if !m.data.CurrentLapDataOf? then NotBuilt else Built(EnvelopeCells(m) + LapCells(m.data.currentLap))
  }

  function BuildExtendedWheel(m: GameTelemetry): Built {
    if !m.data.WheelDataOf? then NotBuilt
    else if !Complete(m) then NilPanic
    else
      var w := m.data.wheels;
      Built(EnvelopeCells(m)
            + WheelCells(BackLeft, w.backLeft.value) + WheelCells(BackRight, w.backRight.value)
            + WheelCells(FrontLeft, w.frontLeft.value) + WheelCells(FrontRight, w.frontRight.value))
  }

  /** `buildRowForCopy`; there is no case for the `session_lap_data` table. */
  function BuildRow(m: GameTelemetry, table: Kind): Built {
    match table
    case Vehicle => BuildVehicle(m)
    case Motion => BuildMotion(m)
    case ExtendedWheel => BuildExtendedWheel(m)
    case LiveLap => BuildCurrentLap(m)
    case SessionLap => NotBuilt
  }

  /** A row is built exactly for a complete message of the table's kind; a message of the
      kind with a missing submessage panics; anything else is an error. Every built row
      has exactly the columns of the table, so all rows of a table share their keys. */
  lemma BuildExactly(m: GameTelemetry, table: Kind)
    ensures BuildRow(m, table).Built? <==> KindOf(m) == Some(table) && table != SessionLap && Complete(m)
    ensures BuildRow(m, table).NilPanic? <==> KindOf(m) == Some(table) && table != SessionLap && !Complete(m)
    ensures BuildRow(m, table).Built? ==> BuildRow(m, table).row.Keys == Schema(table)
  {
    hide EnvelopeCells, VehicleCells, TireCells, MotionCells, LapCells, WheelCells,
         EnvelopeColumns, VehicleColumns, MotionColumns, LapColumns, TireColumns, WheelColumns;
  }
}
