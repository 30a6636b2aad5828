/** The packed packet structs of F1 23, their field offsets, and the decoded records. */
module F123Packets {
  import opened PackedCodec
  import opened Products

  const U8 := Uint(1)
  const I8 := Sint(1)
  const U16 := Uint(2)
  const I16 := Sint(2)
  const U32 := Uint(4)
  const F32 := Uint(4)
  const U64 := Uint(8)

  // ---- packet types ----------------------------------------------------------

  const CAR_MOTION_PACKET := 0
  const LAP_DATA_PACKET := 2
  const CAR_TELEMETRY_PACKET := 6
  const SESSION_HISTORY_PACKET := 11
  const MOTION_EX_PACKET := 13

  /** The array packets carry one element for each of the 22 cars. */
  const CARS := 22

  /** The fixed array bounds of a session history. */
  const MAX_LAPS: nat := 100
  const MAX_STINTS: nat := 8

  const REAR_LEFT := 0
  const REAR_RIGHT := 1
  const FRONT_LEFT := 2
  const FRONT_RIGHT := 3

  // ---- layouts ---------------------------------------------------------------
  //
  // The structs are written as groups of consecutive fields: a packed struct inside a
  // packed struct adds no bytes, so the grouping does not move any field.

  const PACKET_HEADER_VERSION: Layout :=
    Struct(U16, // PacketFormat
    Struct(U8, // GameYear
    Struct(U8, // GameMajorVersion
    Struct(U8, // GameMinorVersion
    Struct(U8, // PacketVersion
    Struct(U8, // PacketId
    End))))))

  const PACKET_HEADER_FRAME: Layout :=
    Struct(U64, // SessionUID
    Struct(F32, // SessionTime
    Struct(U32, // FrameIdentifier
    Struct(U32, // OverallFrameIdentifier
    Struct(U8, // PlayerCarIndex
    Struct(U8, // SecondaryPlayerCarIndex
    End))))))

  /** PacketHeader, sent in front of every body. */
  const PACKET_HEADER: Layout :=
    Struct(PACKET_HEADER_VERSION,
    Struct(PACKET_HEADER_FRAME,
    End))

  const CAR_TELEMETRY_CONTROLS: Layout :=
    Struct(U16, // Speed
    Struct(F32, // Throttle
    Struct(F32, // Steer
    Struct(F32, // Brake
    Struct(U8, // Clutch
    Struct(I8, // Gear
    End))))))

  const CAR_TELEMETRY_ENGINE: Layout :=
    Struct(U16, // EngineRPM
    Struct(U8, // DRS
    Struct(U8, // RevLightsPercent
    Struct(U16, // RevLightsBitValue
    End))))

  const CAR_TELEMETRY_TYRES: Layout :=
    Struct(Repeat(4, U16), // BrakesTemperature
    Struct(Repeat(4, U8), // TyresSurfaceTemperature
    Struct(Repeat(4, U8), // TyresInnerTemperature
    Struct(U16, // EngineTemperature
    Struct(Repeat(4, F32), // TyresPressure
    Struct(Repeat(4, U8), // SurfaceType
    End))))))

  /** CarTelemetryData, one element of a car telemetry packet. */
  const CAR_TELEMETRY: Layout :=
    Struct(CAR_TELEMETRY_CONTROLS,
    Struct(CAR_TELEMETRY_ENGINE,
    Struct(CAR_TELEMETRY_TYRES,
    End)))

  const CAR_MOTION_POSITION: Layout :=
    Struct(F32, // WorldPositionX
    Struct(F32, // WorldPositionY
    Struct(F32, // WorldPositionZ
    Struct(F32, // WorldVelocityX
    Struct(F32, // WorldVelocityY
    Struct(F32, // WorldVelocityZ
    End))))))

  const CAR_MOTION_DIRECTIONS: Layout :=
    Struct(I16, // WorldForwardDirX
    Struct(I16, // WorldForwardDirY
    Struct(I16, // WorldForwardDirZ
    Struct(I16, // WorldRightDirX
    Struct(I16, // WorldRightDirY
    Struct(I16, // WorldRightDirZ
    End))))))

  const CAR_MOTION_FORCES: Layout :=
    Struct(F32, // GForceLateral
    Struct(F32, // GForceLongitudinal
    Struct(F32, // GForceVertical
    Struct(F32, // Yaw
    Struct(F32, // Pitch
    Struct(F32, // Roll
    End))))))

  /** CarMotionData, one element of a motion packet. */
  const CAR_MOTION: Layout :=
    Struct(CAR_MOTION_POSITION,
    Struct(CAR_MOTION_DIRECTIONS,
    Struct(CAR_MOTION_FORCES,
    End)))

  const LAP_DATA_TIMES: Layout :=
    Struct(U32, // LastLapTimeInMS
    Struct(U32, // CurrentLapTimeInMS
    Struct(U16, // Sector1TimeInMS
    Struct(U8, // Sector1TimeMinutes
    Struct(U16, // Sector2TimeInMS
    Struct(U8, // Sector2TimeMinutes
    End))))))

  const LAP_DATA_GAPS: Layout :=
    Struct(U16, // DeltaToCarInFrontInMS
    Struct(U16, // DeltaToRaceLeaderInMS
    Struct(F32, // LapDistance
    Struct(F32, // TotalDistance
    Struct(F32, // SafetyCarDelta
    End)))))

  const LAP_DATA_STATUS: Layout :=
    Struct(U8, // CarPosition
    Struct(U8, // CurrentLapNum
    Struct(U8, // PitStatus
    Struct(U8, // NumPitStops
    Struct(U8, // Sector
    Struct(U8, // CurrentLapInvalid
    End))))))

  const LAP_DATA_RESULT: Layout :=
    Struct(U8, // Penalties
    Struct(U8, // TotalWarnings
    Struct(U8, // CornerCuttingWarnings
    Struct(U8, // NumUnservedDriveThroughPens
    Struct(U8, // NumUnservedStopGoPens
    Struct(U8, // GridPosition
    Struct(U8, // DriverStatus
    Struct(U8, // ResultStatus
    Struct(U8, // PitLaneTimerActive
    Struct(U16, // PitLaneTimeInLaneInMS
    Struct(U16, // PitStopTimerInMS
    Struct(U8, // PitStopShouldServePen
    End))))))))))))

  /** LapData, one element of a lap data packet. */
  const LAP_DATA: Layout :=
    Struct(LAP_DATA_TIMES,
    Struct(LAP_DATA_GAPS,
    Struct(LAP_DATA_STATUS,
    Struct(LAP_DATA_RESULT,
    End))))

  const EXTENDED_MOTION_SUSPENSION: Layout :=
    Struct(Repeat(4, F32), // SuspensionPosition
    Struct(Repeat(4, F32), // SuspensionVelocity
    Struct(Repeat(4, F32), // SuspensionAcceleration
    Struct(Repeat(4, F32), // WheelSpeed
    End))))

  const EXTENDED_MOTION_SLIP: Layout :=
    Struct(Repeat(4, F32), // WheelSlipRatio
    Struct(Repeat(4, F32), // WheelSlipAngle
    Struct(Repeat(4, F32), // WheelLatForce
    Struct(Repeat(4, F32), // WheelLonForce
    End))))

  const EXTENDED_MOTION_BODY: Layout :=
    Struct(F32, // HeightOfCOGAboveGround
    Struct(F32, // LocalVelocityX
    Struct(F32, // LocalVelocityY
    Struct(F32, // LocalVelocityZ
    End))))

  const EXTENDED_MOTION_ANGULAR: Layout :=
    Struct(F32, // AngularVelocityX
    Struct(F32, // AngularVelocityY
    Struct(F32, // AngularVelocityZ
    Struct(F32, // AngularAccelerationX
    Struct(F32, // AngularAccelerationY
    Struct(F32, // AngularAccelerationZ
    Struct(F32, // FrontWheelsAngle
    End)))))))

  const EXTENDED_MOTION_VERTICAL: Layout :=
    Struct(Repeat(4, F32), // WheelVertForce
    End)

  /** ExtendedMotionData. */
  const EXTENDED_MOTION: Layout :=
    Struct(EXTENDED_MOTION_SUSPENSION,
    Struct(EXTENDED_MOTION_SLIP,
    Struct(EXTENDED_MOTION_BODY,
    Struct(EXTENDED_MOTION_ANGULAR,
    Struct(EXTENDED_MOTION_VERTICAL,
    End)))))

  const LAP_HISTORY_SECTORS: Layout :=
    Struct(U32, // LapTimeInMS
    Struct(U16, // Sector1TimeInMS
    Struct(U8, // Sector1TimeMinutes
    Struct(U16, // Sector2TimeInMS
    Struct(U8, // Sector2TimeMinutes
    Struct(U16, // Sector3TimeInMS
    Struct(U8, // Sector3TimeMinutes
    Struct(U8, // LapValidBitFlags
    End))))))))

  /** LapHistoryData, one lap of a session history. */
  const LAP_HISTORY: Layout :=
    Struct(LAP_HISTORY_SECTORS, End)

  /** TyreStintHistoryData. */
  const TYRE_STINT: Layout :=
    Struct(U8, // EndLap
    Struct(U8, // TyreActualCompound
    Struct(U8, // TyreVisualCompound
    End)))

  const SESSION_HISTORY_SUMMARY: Layout :=
    Struct(U8, // CurrentCarIdx
    Struct(U8, // NumLaps
    Struct(U8, // NumTyreStints
    Struct(U8, // BestLapTimeLapNum
    Struct(U8, // BestSector1LapNum
    Struct(U8, // BestSector2LapNum
    Struct(U8, // BestSector3LapNum
    End)))))))

  /** SessionHistoryData, with room for a fixed number of laps and tyre stints. */
  const SESSION_HISTORY: Layout :=
    HistoryLayout(MAX_LAPS, MAX_STINTS)

  function HistoryLayout(laps: nat, stints: nat): Layout {
    Struct(SESSION_HISTORY_SUMMARY,
    Struct(Repeat(laps, LAP_HISTORY), // LapHistoryData
    Struct(Repeat(stints, TYRE_STINT), // TyreStintsHistoryData
    End)))
  }

  // ---- field offsets ---------------------------------------------------------
  //
  // Where each field that ingest reads lies, and how long each struct is.

  lemma SizeOfGroups(a: Layout, b: Layout, c: Layout)
    ensures Size(Struct(a, Struct(b, c))) == Size(a) + Size(b) + Size(c)
  {
  }

  lemma PacketHeaderVersionOffsets()
    ensures FieldIs(PACKET_HEADER_VERSION, 5, 6, U8) // PacketId
    ensures Size(PACKET_HEADER_VERSION) == 7
  {
    var l := PACKET_HEADER_VERSION;
    assert Before(l, 1) == 2 && Before(l, 2) == 3 && Before(l, 3) == 4 && Before(l, 4) == 5;
    assert Before(l, 5) == 6;
    SizeIsBeforeAndTail(l, 5);
  }

  lemma PacketHeaderFrameOffsets()
    ensures FieldIs(PACKET_HEADER_FRAME, 0, 0, U64) // SessionUID
    ensures FieldIs(PACKET_HEADER_FRAME, 4, 20, U8) // PlayerCarIndex
    ensures Size(PACKET_HEADER_FRAME) == 22
  {
    var l := PACKET_HEADER_FRAME;
    assert Before(l, 1) == 8 && Before(l, 2) == 12 && Before(l, 3) == 16 && Before(l, 4) == 20;
    assert Before(l, 5) == 21;
    SizeIsBeforeAndTail(l, 5);
  }

  lemma PacketHeaderOffsets()
    ensures FieldIs(PACKET_HEADER, 0, 0, PACKET_HEADER_VERSION)
    ensures FieldIs(PACKET_HEADER, 1, 7, PACKET_HEADER_FRAME)
    ensures Size(PACKET_HEADER) == 29
  {
    PacketHeaderVersionOffsets();
    PacketHeaderFrameOffsets();
    SizeIsBeforeAndTail(PACKET_HEADER, 1);
  }

  lemma CarTelemetryControlsOffsets()
    ensures FieldIs(CAR_TELEMETRY_CONTROLS, 0, 0, U16) // Speed
    ensures FieldIs(CAR_TELEMETRY_CONTROLS, 1, 2, F32) // Throttle
    ensures FieldIs(CAR_TELEMETRY_CONTROLS, 2, 6, F32) // Steer
    ensures FieldIs(CAR_TELEMETRY_CONTROLS, 3, 10, F32) // Brake
    ensures FieldIs(CAR_TELEMETRY_CONTROLS, 5, 15, I8) // Gear
    ensures Size(CAR_TELEMETRY_CONTROLS) == 16
  {
    var l := CAR_TELEMETRY_CONTROLS;
    assert Before(l, 1) == 2 && Before(l, 2) == 6 && Before(l, 3) == 10 && Before(l, 4) == 14;
    assert Before(l, 5) == 15;
    SizeIsBeforeAndTail(l, 5);
  }

  lemma CarTelemetryEngineOffsets()
    ensures FieldIs(CAR_TELEMETRY_ENGINE, 0, 0, U16) // EngineRPM
    ensures Size(CAR_TELEMETRY_ENGINE) == 6
  {
    var l := CAR_TELEMETRY_ENGINE;
    assert Before(l, 1) == 2 && Before(l, 2) == 3 && Before(l, 3) == 4;
    SizeIsBeforeAndTail(l, 3);
  }

  lemma CarTelemetryTyresOffsets()
    ensures FieldIs(CAR_TELEMETRY_TYRES, 0, 0, Repeat(4, U16)) // BrakesTemperature
    ensures FieldIs(CAR_TELEMETRY_TYRES, 1, 8, Repeat(4, U8)) // TyresSurfaceTemperature
    ensures FieldIs(CAR_TELEMETRY_TYRES, 2, 12, Repeat(4, U8)) // TyresInnerTemperature
    ensures FieldIs(CAR_TELEMETRY_TYRES, 3, 16, U16) // EngineTemperature
    ensures FieldIs(CAR_TELEMETRY_TYRES, 4, 18, Repeat(4, F32)) // TyresPressure
    ensures Size(CAR_TELEMETRY_TYRES) == 38
  {
    var l := CAR_TELEMETRY_TYRES;
    assert Before(l, 1) == 8 && Before(l, 2) == 12 && Before(l, 3) == 16 && Before(l, 4) == 18;
    assert Before(l, 5) == 34;
    SizeIsBeforeAndTail(l, 5);
  }

  lemma CarTelemetryOffsets()
    ensures FieldIs(CAR_TELEMETRY, 0, 0, CAR_TELEMETRY_CONTROLS)
    ensures FieldIs(CAR_TELEMETRY, 1, 16, CAR_TELEMETRY_ENGINE)
    ensures FieldIs(CAR_TELEMETRY, 2, 22, CAR_TELEMETRY_TYRES)
    ensures Size(CAR_TELEMETRY) == 60
  {
    CarTelemetryControlsOffsets();
    CarTelemetryEngineOffsets();
    CarTelemetryTyresOffsets();
    SizeOfGroups(CAR_TELEMETRY_CONTROLS, CAR_TELEMETRY_ENGINE, CAR_TELEMETRY.rest.rest);
  }

  lemma CarMotionPositionOffsets()
    ensures FieldIs(CAR_MOTION_POSITION, 0, 0, F32) // WorldPositionX
    ensures FieldIs(CAR_MOTION_POSITION, 1, 4, F32) // WorldPositionY
    ensures FieldIs(CAR_MOTION_POSITION, 2, 8, F32) // WorldPositionZ
    ensures FieldIs(CAR_MOTION_POSITION, 3, 12, F32) // WorldVelocityX
    ensures FieldIs(CAR_MOTION_POSITION, 4, 16, F32) // WorldVelocityY
    ensures FieldIs(CAR_MOTION_POSITION, 5, 20, F32) // WorldVelocityZ
    ensures Size(CAR_MOTION_POSITION) == 24
  {
    var l := CAR_MOTION_POSITION;
    assert Before(l, 1) == 4 && Before(l, 2) == 8 && Before(l, 3) == 12 && Before(l, 4) == 16;
    assert Before(l, 5) == 20;
    SizeIsBeforeAndTail(l, 5);
  }

  lemma CarMotionDirectionsOffsets()
    ensures Size(CAR_MOTION_DIRECTIONS) == 12
  {
    var l := CAR_MOTION_DIRECTIONS;
    assert Before(l, 1) == 2 && Before(l, 2) == 4 && Before(l, 3) == 6 && Before(l, 4) == 8;
    assert Before(l, 5) == 10;
    SizeIsBeforeAndTail(l, 5);
  }

  lemma CarMotionForcesOffsets()
    ensures FieldIs(CAR_MOTION_FORCES, 0, 0, F32) // GForceLateral
    ensures FieldIs(CAR_MOTION_FORCES, 1, 4, F32) // GForceLongitudinal
    ensures FieldIs(CAR_MOTION_FORCES, 2, 8, F32) // GForceVertical
    ensures FieldIs(CAR_MOTION_FORCES, 3, 12, F32) // Yaw
    ensures FieldIs(CAR_MOTION_FORCES, 4, 16, F32) // Pitch
    ensures FieldIs(CAR_MOTION_FORCES, 5, 20, F32) // Roll
    ensures Size(CAR_MOTION_FORCES) == 24
  {
    var l := CAR_MOTION_FORCES;
    assert Before(l, 1) == 4 && Before(l, 2) == 8 && Before(l, 3) == 12 && Before(l, 4) == 16;
    assert Before(l, 5) == 20;
    SizeIsBeforeAndTail(l, 5);
  }

  lemma CarMotionOffsets()
    ensures FieldIs(CAR_MOTION, 0, 0, CAR_MOTION_POSITION)
    ensures FieldIs(CAR_MOTION, 1, 24, CAR_MOTION_DIRECTIONS)
    ensures FieldIs(CAR_MOTION, 2, 36, CAR_MOTION_FORCES)
    ensures Size(CAR_MOTION) == 60
  {
    CarMotionPositionOffsets();
    CarMotionDirectionsOffsets();
    CarMotionForcesOffsets();
    SizeOfGroups(CAR_MOTION_POSITION, CAR_MOTION_DIRECTIONS, CAR_MOTION.rest.rest);
  }

  lemma LapDataTimesOffsets()
    ensures FieldIs(LAP_DATA_TIMES, 0, 0, U32) // LastLapTimeInMS
    ensures FieldIs(LAP_DATA_TIMES, 2, 8, U16) // Sector1TimeInMS
    ensures FieldIs(LAP_DATA_TIMES, 4, 11, U16) // Sector2TimeInMS
    ensures Size(LAP_DATA_TIMES) == 14
  {
    var l := LAP_DATA_TIMES;
    assert Before(l, 1) == 4 && Before(l, 2) == 8 && Before(l, 3) == 10 && Before(l, 4) == 11;
    assert Before(l, 5) == 13;
    SizeIsBeforeAndTail(l, 5);
  }

  lemma LapDataGapsOffsets()
    ensures FieldIs(LAP_DATA_GAPS, 0, 0, U16) // DeltaToCarInFrontInMS
    ensures FieldIs(LAP_DATA_GAPS, 1, 2, U16) // DeltaToRaceLeaderInMS
    ensures FieldIs(LAP_DATA_GAPS, 2, 4, F32) // LapDistance
    ensures FieldIs(LAP_DATA_GAPS, 3, 8, F32) // TotalDistance
    ensures Size(LAP_DATA_GAPS) == 16
  {
    var l := LAP_DATA_GAPS;
    assert Before(l, 1) == 2 && Before(l, 2) == 4 && Before(l, 3) == 8 && Before(l, 4) == 12;
    SizeIsBeforeAndTail(l, 4);
  }

  lemma LapDataStatusOffsets()
    ensures FieldIs(LAP_DATA_STATUS, 1, 1, U8) // CurrentLapNum
    ensures FieldIs(LAP_DATA_STATUS, 4, 4, U8) // Sector
    ensures Size(LAP_DATA_STATUS) == 6
  {
    var l := LAP_DATA_STATUS;
    assert Before(l, 1) == 1 && Before(l, 2) == 2 && Before(l, 3) == 3 && Before(l, 4) == 4;
    assert Before(l, 5) == 5;
    SizeIsBeforeAndTail(l, 5);
  }

  lemma LapDataResultOffsets()
    ensures Size(LAP_DATA_RESULT) == 14
  {
    var l := LAP_DATA_RESULT;
    assert Before(l, 1) == 1 && Before(l, 2) == 2 && Before(l, 3) == 3 && Before(l, 4) == 4;
    assert Before(l, 5) == 5 && Before(l, 6) == 6 && Before(l, 7) == 7 && Before(l, 8) == 8;
    assert Before(l, 9) == 9 && Before(l, 10) == 11 && Before(l, 11) == 13;
    SizeIsBeforeAndTail(l, 11);
  }

  lemma LapDataOffsets()
    ensures FieldIs(LAP_DATA, 0, 0, LAP_DATA_TIMES)
    ensures FieldIs(LAP_DATA, 1, 14, LAP_DATA_GAPS)
    ensures FieldIs(LAP_DATA, 2, 30, LAP_DATA_STATUS)
    ensures Size(LAP_DATA) == 50
  {
    LapDataTimesOffsets();
    LapDataGapsOffsets();
    LapDataStatusOffsets();
    LapDataResultOffsets();
    FourGroups(LAP_DATA_TIMES, LAP_DATA_GAPS, LAP_DATA_STATUS, LAP_DATA_RESULT);
  }

  lemma FourGroups(a: Layout, b: Layout, c: Layout, d: Layout)
    ensures var l := Struct(a, Struct(b, Struct(c, Struct(d, End))));
            && FieldIs(l, 0, 0, a)
            && FieldIs(l, 1, Size(a), b)
            && FieldIs(l, 2, Size(a) + Size(b), c)
            && Size(l) == Size(a) + Size(b) + Size(c) + Size(d)
  {
    var l := Struct(a, Struct(b, Struct(c, Struct(d, End))));
    assert Tail(l, 0) == l && Before(l, 0) == 0;
    assert Tail(l, 1) == l.rest && Before(l, 1) == Size(a);
    SizeOfGroups(c, d, End);
    SizeOfGroups(a, b, l.rest.rest);
  }

  lemma ExtendedMotionSuspensionOffsets()
    ensures FieldIs(EXTENDED_MOTION_SUSPENSION, 0, 0, Repeat(4, F32)) // SuspensionPosition
    ensures FieldIs(EXTENDED_MOTION_SUSPENSION, 1, 16, Repeat(4, F32)) // SuspensionVelocity
    ensures FieldIs(EXTENDED_MOTION_SUSPENSION, 3, 48, Repeat(4, F32)) // WheelSpeed
    ensures Size(EXTENDED_MOTION_SUSPENSION) == 64
  {
    var l := EXTENDED_MOTION_SUSPENSION;
    assert Before(l, 1) == 16 && Before(l, 2) == 32 && Before(l, 3) == 48;
    SizeIsBeforeAndTail(l, 3);
  }

  lemma ExtendedMotionSlipOffsets()
    ensures FieldIs(EXTENDED_MOTION_SLIP, 0, 0, Repeat(4, F32)) // WheelSlipRatio
    ensures FieldIs(EXTENDED_MOTION_SLIP, 1, 16, Repeat(4, F32)) // WheelSlipAngle
    ensures FieldIs(EXTENDED_MOTION_SLIP, 2, 32, Repeat(4, F32)) // WheelLatForce
    ensures FieldIs(EXTENDED_MOTION_SLIP, 3, 48, Repeat(4, F32)) // WheelLonForce
    ensures Size(EXTENDED_MOTION_SLIP) == 64
  {
    var l := EXTENDED_MOTION_SLIP;
    assert Before(l, 1) == 16 && Before(l, 2) == 32 && Before(l, 3) == 48;
    SizeIsBeforeAndTail(l, 3);
  }

  lemma ExtendedMotionBodyOffsets()
    ensures Size(EXTENDED_MOTION_BODY) == 16
  {
    var l := EXTENDED_MOTION_BODY;
    assert Before(l, 1) == 4 && Before(l, 2) == 8 && Before(l, 3) == 12;
    SizeIsBeforeAndTail(l, 3);
  }

  lemma ExtendedMotionAngularOffsets()
    ensures Size(EXTENDED_MOTION_ANGULAR) == 28
  {
    var l := EXTENDED_MOTION_ANGULAR;
    assert Before(l, 1) == 4 && Before(l, 2) == 8 && Before(l, 3) == 12 && Before(l, 4) == 16;
    assert Before(l, 5) == 20 && Before(l, 6) == 24;
    SizeIsBeforeAndTail(l, 6);
  }

  lemma ExtendedMotionVerticalOffsets()
    ensures FieldIs(EXTENDED_MOTION_VERTICAL, 0, 0, Repeat(4, F32)) // WheelVertForce
    ensures Size(EXTENDED_MOTION_VERTICAL) == 16
  {
    var l := EXTENDED_MOTION_VERTICAL;
    SizeIsBeforeAndTail(l, 0);
  }

  lemma ExtendedMotionOffsets()
    ensures FieldIs(EXTENDED_MOTION, 0, 0, EXTENDED_MOTION_SUSPENSION)
    ensures FieldIs(EXTENDED_MOTION, 1, 64, EXTENDED_MOTION_SLIP)
    ensures FieldIs(EXTENDED_MOTION, 2, 128, EXTENDED_MOTION_BODY)
    ensures FieldIs(EXTENDED_MOTION, 3, 144, EXTENDED_MOTION_ANGULAR)
    ensures FieldIs(EXTENDED_MOTION, 4, 172, EXTENDED_MOTION_VERTICAL)
    ensures Size(EXTENDED_MOTION) == 188
  {
    ExtendedMotionSuspensionOffsets();
    ExtendedMotionSlipOffsets();
    ExtendedMotionBodyOffsets();
    ExtendedMotionAngularOffsets();
    SizeIsBeforeAndTail(EXTENDED_MOTION, 4);
  }

  lemma LapHistoryOffsets()
    ensures FieldIs(LAP_HISTORY, 0, 0, LAP_HISTORY_SECTORS)
    ensures FieldIs(LAP_HISTORY_SECTORS, 0, 0, U32) // LapTimeInMS
    ensures FieldIs(LAP_HISTORY_SECTORS, 1, 4, U16) // Sector1TimeInMS
    ensures FieldIs(LAP_HISTORY_SECTORS, 3, 7, U16) // Sector2TimeInMS
    ensures FieldIs(LAP_HISTORY_SECTORS, 5, 10, U16) // Sector3TimeInMS
    ensures FieldIs(LAP_HISTORY_SECTORS, 7, 13, U8) // LapValidBitFlags
    ensures Size(LAP_HISTORY) == 14
  {
    var l := LAP_HISTORY_SECTORS;
    assert Before(l, 1) == 4 && Before(l, 2) == 6 && Before(l, 3) == 7 && Before(l, 4) == 9;
    assert Before(l, 5) == 10 && Before(l, 6) == 12 && Before(l, 7) == 13;
    SizeIsBeforeAndTail(l, 7);
  }

  lemma SessionHistorySummaryOffsets()
    ensures FieldIs(SESSION_HISTORY_SUMMARY, 0, 0, U8) // CurrentCarIdx
    ensures FieldIs(SESSION_HISTORY_SUMMARY, 1, 1, U8) // NumLaps
    ensures Size(SESSION_HISTORY_SUMMARY) == 7
  {
    SizeIsBeforeAndTail(SESSION_HISTORY_SUMMARY, 6);
  }

  lemma TyreStintOffsets()
    ensures Size(TYRE_STINT) == 3
  {
  }

  lemma HistoryLayoutOffsets(laps: nat, stints: nat)
    ensures FieldIs(HistoryLayout(laps, stints), 0, 0, SESSION_HISTORY_SUMMARY)
    ensures FieldIs(HistoryLayout(laps, stints), 1, 7, Repeat(laps, LAP_HISTORY))
    ensures Size(HistoryLayout(laps, stints)) == 7 + 14 * laps + 3 * stints
  {
    SessionHistorySummaryOffsets();
    LapHistoryOffsets();
    TyreStintOffsets();
    ThreeGroups(SESSION_HISTORY_SUMMARY, laps, LAP_HISTORY, stints, TYRE_STINT);
    TimesIsProduct(laps, 14);
    TimesIsProduct(stints, 3);
  }

  /** A group followed by two arrays. */
  lemma ThreeGroups(a: Layout, m: nat, b: Layout, n: nat, c: Layout)
    ensures var l := Struct(a, Struct(Repeat(m, b), Struct(Repeat(n, c), End)));
            && FieldIs(l, 0, 0, a)
            && FieldIs(l, 1, Size(a), Repeat(m, b))
            && Size(l) == Size(a) + Times(m, Size(b)) + Times(n, Size(c))
  {
    hide Times;
    var l := Struct(a, Struct(Repeat(m, b), Struct(Repeat(n, c), End)));
    assert Tail(l, 0) == l && Before(l, 0) == 0;
    SizeOfGroups(a, Repeat(m, b), l.rest.rest);
    assert Size(End) == 0;
  }

  lemma SessionHistoryOffsets()
    ensures FieldIs(SESSION_HISTORY, 0, 0, SESSION_HISTORY_SUMMARY)
    ensures FieldIs(SESSION_HISTORY, 1, 7, Repeat(MAX_LAPS, LAP_HISTORY))
    ensures Size(SESSION_HISTORY) == 1431
  {
    HistoryLayoutOffsets(MAX_LAPS, MAX_STINTS);
  }

  /** The lengths of the header and of the five bodies that ingest decodes. */
  lemma PacketSizes()
    ensures Size(PACKET_HEADER) == 29
    ensures Size(CAR_TELEMETRY) == 60
    ensures Size(CAR_MOTION) == 60
    ensures Size(LAP_DATA) == 50
    ensures Size(SESSION_HISTORY) == 1431
    ensures Size(EXTENDED_MOTION) == 188
  {
    PacketHeaderOffsets();
    CarTelemetryOffsets();
    CarMotionOffsets();
    LapDataOffsets();
    SessionHistoryOffsets();
    ExtendedMotionOffsets();
  }

  // ---- decoded records -------------------------------------------------------
  //
  // The fields that ingest reads. `...Of` takes them from a decoded value, as the
  // struct fields are; `...At` takes them from raw bytes at fixed offsets. The lemmas
  // say that the two agree.

  /** A four-element array, in wheel order. */
  type Four = s: seq<int> | |s| == 4 witness [0, 0, 0, 0]

  datatype PacketHeader = PacketHeader(packetId: int, sessionUID: nat, playerCarIndex: nat)

  datatype CarTelemetryData = CarTelemetryData(
    speed: int, throttle: int, steer: int, brake: int, gear: int, engineRPM: int,
    brakesTemperature: Four,
    tyresSurfaceTemperature: Four,
    tyresInnerTemperature: Four,
    engineTemperature: int,
    tyresPressure: Four)

  datatype CarMotionData = CarMotionData(
    worldPositionX: int, worldPositionY: int, worldPositionZ: int,
    worldVelocityX: int, worldVelocityY: int, worldVelocityZ: int,
    gForceLateral: int, gForceLongitudinal: int, gForceVertical: int,
    yaw: int, pitch: int, roll: int)

  datatype LapData = LapData(
    lastLapTimeInMS: int, sector1TimeInMS: int, sector2TimeInMS: int,
    deltaToCarInFrontInMS: int, deltaToRaceLeaderInMS: int,
    lapDistance: int, totalDistance: int,
    currentLapNum: int, sector: int)

  datatype LapHistoryData = LapHistoryData(
    lapTimeInMS: int, sector1TimeInMS: int, sector2TimeInMS: int, sector3TimeInMS: int,
    lapValidBitFlags: nat)

  datatype SessionHistoryData = SessionHistoryData(
    currentCarIdx: nat, numLaps: nat, lapHistoryData: seq<LapHistoryData>)

  datatype ExtendedMotionData = ExtendedMotionData(
    suspensionPosition: Four, suspensionVelocity: Four,
    wheelSpeed: Four, wheelSlipRatio: Four, wheelSlipAngle: Four,
    wheelLatForce: Four, wheelLonForce: Four, wheelVertForce: Four)

  function Natural(n: int): nat {
    if n < 0 then 0 else n
  }

  function Wheels(v: Value, g: nat, i: nat): (r: seq<int>)
    ensures |r| == 4
  {
    [IntAt(v, Cell(g, i, 0)), IntAt(v, Cell(g, i, 1)), IntAt(v, Cell(g, i, 2)), IntAt(v, Cell(g, i, 3))]
  }

  function WheelsAt(buf: seq<byte>, o: nat, w: Width): (r: seq<int>)
    requires o + 4 * w <= |buf|
    ensures |r| == 4
  {
    [LittleEndian(buf, o, w), LittleEndian(buf, o + w, w), LittleEndian(buf, o + 2 * w, w), LittleEndian(buf, o + 3 * w, w)]
  }

  lemma WheelsAgree(l: Layout, buf: seq<byte>, o: nat, g: nat, gOff: nat, m: Layout, i: nat, off: nat, w: Width)
    requires o + Size(l) <= |buf| && FieldIs(l, g, gOff, m) && FieldIs(m, i, off, Repeat(4, Uint(w)))
    ensures gOff + off + 4 * w <= Size(l)
    ensures Wheels(Decode(l, buf, o), g, i) == WheelsAt(buf, o + gOff + off, w)
  {
    UintCell(l, buf, o, g, gOff, m, i, off, 4, w, 0);
    UintCell(l, buf, o, g, gOff, m, i, off, 4, w, 1);
    UintCell(l, buf, o, g, gOff, m, i, off, 4, w, 2);
    UintCell(l, buf, o, g, gOff, m, i, off, 4, w, 3);
    assert Times(1, w) == w && Times(2, w) == 2 * w && Times(3, w) == 3 * w;
  }

  function HeaderOf(v: Value): PacketHeader {
    PacketHeader(IntAt(v, Field(0, 5)), Natural(IntAt(v, Field(1, 0))), Natural(IntAt(v, Field(1, 4))))
  }

  function HeaderAt(buf: seq<byte>, o: nat): PacketHeader
    requires o + 29 <= |buf|
  {
    PacketHeader(LittleEndian(buf, o + 6, 1), LittleEndian(buf, o + 7, 8), LittleEndian(buf, o + 27, 1))
  }

  predicate HeaderLaidOut(l: Layout, v: Layout, f: Layout) {
    && Size(l) == 29
    && FieldIs(l, 0, 0, v)
    && FieldIs(l, 1, 7, f)
    && FieldIs(v, 5, 6, U8)
    && FieldIs(f, 0, 0, U64)
    && FieldIs(f, 4, 20, U8)
  }

  lemma HeaderIsLaidOut()
    ensures HeaderLaidOut(PACKET_HEADER, PACKET_HEADER_VERSION, PACKET_HEADER_FRAME)
  {
    PacketHeaderOffsets();
    PacketHeaderVersionOffsets();
    PacketHeaderFrameOffsets();
  }

  lemma HeaderAgrees(buf: seq<byte>, o: nat)
    requires o + 29 <= |buf|
    ensures Size(PACKET_HEADER) == 29
    ensures HeaderOf(Decode(PACKET_HEADER, buf, o)) == HeaderAt(buf, o)
  {
    HeaderIsLaidOut();
    HeaderLayoutAgrees(PACKET_HEADER, PACKET_HEADER_VERSION, PACKET_HEADER_FRAME, buf, o);
  }

  lemma HeaderLayoutAgrees(l: Layout, v: Layout, f: Layout, buf: seq<byte>, o: nat)
    requires HeaderLaidOut(l, v, f) && o + 29 <= |buf|
    ensures HeaderOf(Decode(l, buf, o)) == HeaderAt(buf, o)
  {
    UintField(l, buf, o, 0, 0, v, 5, 6, 1);
    UintField(l, buf, o, 1, 7, f, 0, 0, 8);
    UintField(l, buf, o, 1, 7, f, 4, 20, 1);
  }

  function CarTelemetryOf(v: Value): CarTelemetryData {
    CarTelemetryData(
      IntAt(v, Field(0, 0)), IntAt(v, Field(0, 1)), IntAt(v, Field(0, 2)), IntAt(v, Field(0, 3)),
      IntAt(v, Field(0, 5)), IntAt(v, Field(1, 0)),
      Wheels(v, 2, 0), Wheels(v, 2, 1), Wheels(v, 2, 2), IntAt(v, Field(2, 3)), Wheels(v, 2, 4))
  }

  function CarTelemetryAt(buf: seq<byte>, o: nat): CarTelemetryData
    requires o + 60 <= |buf|
  {
    CarTelemetryData(
      speed := LittleEndian(buf, o, 2),
      throttle := LittleEndian(buf, o + 2, 4),
      steer := LittleEndian(buf, o + 6, 4),
      brake := LittleEndian(buf, o + 10, 4),
      gear := Signed(LittleEndian(buf, o + 15, 1), 1),
      engineRPM := LittleEndian(buf, o + 16, 2),
      brakesTemperature := WheelsAt(buf, o + 22, 2),
      tyresSurfaceTemperature := WheelsAt(buf, o + 30, 1),
      tyresInnerTemperature := WheelsAt(buf, o + 34, 1),
      engineTemperature := LittleEndian(buf, o + 38, 2),
      tyresPressure := WheelsAt(buf, o + 40, 4))
  }

  predicate CarTelemetryLaidOut(l: Layout, c: Layout, e: Layout, t: Layout) {
    && Size(l) == 60
    && FieldIs(l, 0, 0, c)
    && FieldIs(l, 1, 16, e)
    && FieldIs(l, 2, 22, t)
    && FieldIs(c, 0, 0, U16)
    && FieldIs(c, 1, 2, F32)
    && FieldIs(c, 2, 6, F32)
    && FieldIs(c, 3, 10, F32)
    && FieldIs(c, 5, 15, I8)
    && FieldIs(e, 0, 0, U16)
    && FieldIs(t, 0, 0, Repeat(4, U16))
    && FieldIs(t, 1, 8, Repeat(4, U8))
    && FieldIs(t, 2, 12, Repeat(4, U8))
    && FieldIs(t, 3, 16, U16)
    && FieldIs(t, 4, 18, Repeat(4, F32))
  }

  lemma CarTelemetryIsLaidOut()
    ensures CarTelemetryLaidOut(CAR_TELEMETRY, CAR_TELEMETRY_CONTROLS, CAR_TELEMETRY_ENGINE, CAR_TELEMETRY_TYRES)
  {
    CarTelemetryOffsets();
    CarTelemetryControlsOffsets();
    CarTelemetryEngineOffsets();
    CarTelemetryTyresOffsets();
  }

  lemma CarTelemetryAgrees(buf: seq<byte>, o: nat)
    requires o + 60 <= |buf|
    ensures Size(CAR_TELEMETRY) == 60
    ensures CarTelemetryOf(Decode(CAR_TELEMETRY, buf, o)) == CarTelemetryAt(buf, o)
  {
    CarTelemetryIsLaidOut();
    CarTelemetryLayoutAgrees(CAR_TELEMETRY, CAR_TELEMETRY_CONTROLS, CAR_TELEMETRY_ENGINE, CAR_TELEMETRY_TYRES, buf, o);
  }

  lemma CarTelemetryLayoutAgrees(l: Layout, c: Layout, e: Layout, t: Layout, buf: seq<byte>, o: nat)
    requires CarTelemetryLaidOut(l, c, e, t) && o + 60 <= |buf|
    ensures CarTelemetryOf(Decode(l, buf, o)) == CarTelemetryAt(buf, o)
  {
    hide Decode, IntAt, LittleEndian, FieldIs, Size;
    UintField(l, buf, o, 0, 0, c, 0, 0, 2);
    UintField(l, buf, o, 0, 0, c, 1, 2, 4);
    UintField(l, buf, o, 0, 0, c, 2, 6, 4);
    UintField(l, buf, o, 0, 0, c, 3, 10, 4);
    SintField(l, buf, o, 0, 0, c, 5, 15, 1);
    UintField(l, buf, o, 1, 16, e, 0, 0, 2);
    WheelsAgree(l, buf, o, 2, 22, t, 0, 0, 2);
    WheelsAgree(l, buf, o, 2, 22, t, 1, 8, 1);
    WheelsAgree(l, buf, o, 2, 22, t, 2, 12, 1);
    UintField(l, buf, o, 2, 22, t, 3, 16, 2);
    WheelsAgree(l, buf, o, 2, 22, t, 4, 18, 4);
  }

  function CarMotionOf(v: Value): CarMotionData {
    CarMotionData(
      IntAt(v, Field(0, 0)), IntAt(v, Field(0, 1)), IntAt(v, Field(0, 2)),
      IntAt(v, Field(0, 3)), IntAt(v, Field(0, 4)), IntAt(v, Field(0, 5)),
      IntAt(v, Field(2, 0)), IntAt(v, Field(2, 1)), IntAt(v, Field(2, 2)),
      IntAt(v, Field(2, 3)), IntAt(v, Field(2, 4)), IntAt(v, Field(2, 5)))
  }

  function CarMotionAt(buf: seq<byte>, o: nat): CarMotionData
    requires o + 60 <= |buf|
  {
    CarMotionData(
      worldPositionX := LittleEndian(buf, o, 4),
      worldPositionY := LittleEndian(buf, o + 4, 4),
      worldPositionZ := LittleEndian(buf, o + 8, 4),
      worldVelocityX := LittleEndian(buf, o + 12, 4),
      worldVelocityY := LittleEndian(buf, o + 16, 4),
      worldVelocityZ := LittleEndian(buf, o + 20, 4),
      gForceLateral := LittleEndian(buf, o + 36, 4),
      gForceLongitudinal := LittleEndian(buf, o + 40, 4),
      gForceVertical := LittleEndian(buf, o + 44, 4),
      yaw := LittleEndian(buf, o + 48, 4),
      pitch := LittleEndian(buf, o + 52, 4),
      roll := LittleEndian(buf, o + 56, 4))
  }

  predicate CarMotionLaidOut(l: Layout, p: Layout, f: Layout) {
    && Size(l) == 60
    && FieldIs(l, 0, 0, p)
    && FieldIs(l, 2, 36, f)
    && FieldIs(p, 0, 0, F32)
    && FieldIs(p, 1, 4, F32)
    && FieldIs(p, 2, 8, F32)
    && FieldIs(p, 3, 12, F32)
    && FieldIs(p, 4, 16, F32)
    && FieldIs(p, 5, 20, F32)
    && FieldIs(f, 0, 0, F32)
    && FieldIs(f, 1, 4, F32)
    && FieldIs(f, 2, 8, F32)
    && FieldIs(f, 3, 12, F32)
    && FieldIs(f, 4, 16, F32)
    && FieldIs(f, 5, 20, F32)
  }

  lemma CarMotionIsLaidOut()
    ensures CarMotionLaidOut(CAR_MOTION, CAR_MOTION_POSITION, CAR_MOTION_FORCES)
  {
    CarMotionOffsets();
    CarMotionPositionOffsets();
    CarMotionForcesOffsets();
  }

  lemma CarMotionAgrees(buf: seq<byte>, o: nat)
    requires o + 60 <= |buf|
    ensures Size(CAR_MOTION) == 60
    ensures CarMotionOf(Decode(CAR_MOTION, buf, o)) == CarMotionAt(buf, o)
  {
    CarMotionIsLaidOut();
    CarMotionLayoutAgrees(CAR_MOTION, CAR_MOTION_POSITION, CAR_MOTION_FORCES, buf, o);
  }

  lemma CarMotionLayoutAgrees(l: Layout, p: Layout, f: Layout, buf: seq<byte>, o: nat)
    requires CarMotionLaidOut(l, p, f) && o + 60 <= |buf|
    ensures CarMotionOf(Decode(l, buf, o)) == CarMotionAt(buf, o)
  {
    hide Decode, IntAt, LittleEndian, FieldIs, Size;
    UintField(l, buf, o, 0, 0, p, 0, 0, 4);
    UintField(l, buf, o, 0, 0, p, 1, 4, 4);
    UintField(l, buf, o, 0, 0, p, 2, 8, 4);
    UintField(l, buf, o, 0, 0, p, 3, 12, 4);
    UintField(l, buf, o, 0, 0, p, 4, 16, 4);
    UintField(l, buf, o, 0, 0, p, 5, 20, 4);
    UintField(l, buf, o, 2, 36, f, 0, 0, 4);
    UintField(l, buf, o, 2, 36, f, 1, 4, 4);
    UintField(l, buf, o, 2, 36, f, 2, 8, 4);
    UintField(l, buf, o, 2, 36, f, 3, 12, 4);
    UintField(l, buf, o, 2, 36, f, 4, 16, 4);
    UintField(l, buf, o, 2, 36, f, 5, 20, 4);
  }

  function LapDataOf(v: Value): LapData {
    LapData(
      IntAt(v, Field(0, 0)), IntAt(v, Field(0, 2)), IntAt(v, Field(0, 4)),
      IntAt(v, Field(1, 0)), IntAt(v, Field(1, 1)), IntAt(v, Field(1, 2)), IntAt(v, Field(1, 3)),
      IntAt(v, Field(2, 1)), IntAt(v, Field(2, 4)))
  }

  function LapDataAt(buf: seq<byte>, o: nat): LapData
    requires o + 50 <= |buf|
  {
    LapData(
      lastLapTimeInMS := LittleEndian(buf, o, 4),
      sector1TimeInMS := LittleEndian(buf, o + 8, 2),
      sector2TimeInMS := LittleEndian(buf, o + 11, 2),
      deltaToCarInFrontInMS := LittleEndian(buf, o + 14, 2),
      deltaToRaceLeaderInMS := LittleEndian(buf, o + 16, 2),
      lapDistance := LittleEndian(buf, o + 18, 4),
      totalDistance := LittleEndian(buf, o + 22, 4),
      currentLapNum := LittleEndian(buf, o + 31, 1),
      sector := LittleEndian(buf, o + 34, 1))
  }

  predicate LapDataLaidOut(l: Layout, t: Layout, g: Layout, s: Layout) {
    && Size(l) == 50
    && FieldIs(l, 0, 0, t)
    && FieldIs(l, 1, 14, g)
    && FieldIs(l, 2, 30, s)
    && FieldIs(t, 0, 0, U32)
    && FieldIs(t, 2, 8, U16)
    && FieldIs(t, 4, 11, U16)
    && FieldIs(g, 0, 0, U16)
    && FieldIs(g, 1, 2, U16)
    && FieldIs(g, 2, 4, F32)
    && FieldIs(g, 3, 8, F32)
    && FieldIs(s, 1, 1, U8)
    && FieldIs(s, 4, 4, U8)
  }

  lemma LapDataIsLaidOut()
    ensures LapDataLaidOut(LAP_DATA, LAP_DATA_TIMES, LAP_DATA_GAPS, LAP_DATA_STATUS)
  {
    LapDataOffsets();
    LapDataTimesOffsets();
    LapDataGapsOffsets();
    LapDataStatusOffsets();
  }

  lemma LapDataAgrees(buf: seq<byte>, o: nat)
    requires o + 50 <= |buf|
    ensures Size(LAP_DATA) == 50
    ensures LapDataOf(Decode(LAP_DATA, buf, o)) == LapDataAt(buf, o)
  {
    LapDataIsLaidOut();
    LapDataLayoutAgrees(LAP_DATA, LAP_DATA_TIMES, LAP_DATA_GAPS, LAP_DATA_STATUS, buf, o);
  }

  lemma LapDataLayoutAgrees(l: Layout, t: Layout, g: Layout, s: Layout, buf: seq<byte>, o: nat)
    requires LapDataLaidOut(l, t, g, s) && o + 50 <= |buf|
    ensures LapDataOf(Decode(l, buf, o)) == LapDataAt(buf, o)
  {
    hide Decode, IntAt, LittleEndian, FieldIs, Size;
    UintField(l, buf, o, 0, 0, t, 0, 0, 4);
    UintField(l, buf, o, 0, 0, t, 2, 8, 2);
    UintField(l, buf, o, 0, 0, t, 4, 11, 2);
    UintField(l, buf, o, 1, 14, g, 0, 0, 2);
    UintField(l, buf, o, 1, 14, g, 1, 2, 2);
    UintField(l, buf, o, 1, 14, g, 2, 4, 4);
    UintField(l, buf, o, 1, 14, g, 3, 8, 4);
    UintField(l, buf, o, 2, 30, s, 1, 1, 1);
    UintField(l, buf, o, 2, 30, s, 4, 4, 1);
  }

  function LapHistoryOf(v: Value): LapHistoryData {
    LapHistoryData(
      IntAt(v, Field(0, 0)), IntAt(v, Field(0, 1)), IntAt(v, Field(0, 3)), IntAt(v, Field(0, 5)),
      Natural(IntAt(v, Field(0, 7))))
  }

  function LapHistoryAt(buf: seq<byte>, o: nat): LapHistoryData
    requires o + 14 <= |buf|
  {
    LapHistoryData(
      lapTimeInMS := LittleEndian(buf, o, 4),
      sector1TimeInMS := LittleEndian(buf, o + 4, 2),
      sector2TimeInMS := LittleEndian(buf, o + 7, 2),
      sector3TimeInMS := LittleEndian(buf, o + 10, 2),
      lapValidBitFlags := LittleEndian(buf, o + 13, 1))
  }

  lemma LapHistoryAgrees(buf: seq<byte>, o: nat)
    requires o + 14 <= |buf|
    ensures Size(LAP_HISTORY) == 14
    ensures LapHistoryOf(Decode(LAP_HISTORY, buf, o)) == LapHistoryAt(buf, o)
  {
    LapHistoryOffsets();
    UintField(LAP_HISTORY, buf, o, 0, 0, LAP_HISTORY_SECTORS, 0, 0, 4);
    UintField(LAP_HISTORY, buf, o, 0, 0, LAP_HISTORY_SECTORS, 1, 4, 2);
    UintField(LAP_HISTORY, buf, o, 0, 0, LAP_HISTORY_SECTORS, 3, 7, 2);
    UintField(LAP_HISTORY, buf, o, 0, 0, LAP_HISTORY_SECTORS, 5, 10, 2);
    UintField(LAP_HISTORY, buf, o, 0, 0, LAP_HISTORY_SECTORS, 7, 13, 1);
  }

  /** The laps array of a decoded history, element by element. */
  function LapsOf(items: seq<Value>): (laps: seq<LapHistoryData>)
    ensures |laps| == |items|
  {
    seq(|items|, i requires 0 <= i < |items| => LapHistoryOf(items[i]))
  }

  function SessionHistoryOf(v: Value): SessionHistoryData {
    var laps := Pick(v, Into(1, Here));
    SessionHistoryData(
      Natural(IntAt(v, Field(0, 0))), Natural(IntAt(v, Field(0, 1))),
      if laps.Items? then LapsOf(laps.items) else [])
  }

  /** A decoded history: the two counters, and each of its n laps at its own offset. */
  predicate HistoryStands(h: SessionHistoryData, n: nat, buf: seq<byte>, o: nat)
    requires o + 7 + 14 * n <= |buf|
  {
    && h.currentCarIdx == LittleEndian(buf, o, 1)
    && h.numLaps == LittleEndian(buf, o + 1, 1)
    && |h.lapHistoryData| == n
    && forall i | 0 <= i < n :: h.lapHistoryData[i] == LapHistoryAt(buf, o + 7 + 14 * i)
  }

  lemma SessionHistoryAgrees(buf: seq<byte>, o: nat)
    requires o + 1431 <= |buf|
    ensures Size(SESSION_HISTORY) == 1431
    ensures HistoryStands(SessionHistoryOf(Decode(SESSION_HISTORY, buf, o)), MAX_LAPS, buf, o)
  {
    SessionHistoryOffsets();
    HistoryAgrees(SESSION_HISTORY, MAX_LAPS, buf, o);
  }

  lemma HistoryAgrees(l: Layout, n: nat, buf: seq<byte>, o: nat)
    requires o + Size(l) <= |buf|
    requires FieldIs(l, 0, 0, SESSION_HISTORY_SUMMARY) && FieldIs(l, 1, 7, Repeat(n, LAP_HISTORY))
    ensures 7 + 14 * n <= Size(l)
    ensures HistoryStands(SessionHistoryOf(Decode(l, buf, o)), n, buf, o)
  {
    hide Decode, DecodeItems, IntAt, LittleEndian, LapHistoryAt, LapHistoryOf, FieldIs, Size, Times;
    SessionHistorySummaryOffsets();
    UintField(l, buf, o, 0, 0, SESSION_HISTORY_SUMMARY, 0, 0, 1);
    UintField(l, buf, o, 0, 0, SESSION_HISTORY_SUMMARY, 1, 1, 1);
    LapHistoryOffsets();
    TimesIsProduct(n, 14);
    LapsField(l, n, LAP_HISTORY, buf, o);
    LapItemsAgree(n, buf, o + 7);
  }

  lemma LapsField(l: Layout, n: nat, e: Layout, buf: seq<byte>, o: nat)
    requires o + Size(l) <= |buf| && FieldIs(l, 1, 7, Repeat(n, e))
    ensures 7 + Times(n, Size(e)) <= Size(l)
    ensures Pick(Decode(l, buf, o), Into(1, Here)) == Items(DecodeItems(e, n, buf, o + 7))
  {
    FieldOffset(l, 1, Here);
    PickIsDecodeAtOffset(l, buf, o, Into(1, Here));
  }

  lemma LapItemsAgree(n: nat, buf: seq<byte>, o: nat)
    requires Times(n, Size(LAP_HISTORY)) == 14 * n && o + 14 * n <= |buf|
    ensures var laps := LapsOf(DecodeItems(LAP_HISTORY, n, buf, o));
            forall i | 0 <= i < n :: laps[i] == LapHistoryAt(buf, o + 14 * i)
  {
    hide Decode, DecodeItems, LapHistoryOf, LapHistoryAt, LittleEndian, Times;
    forall i | 0 <= i < n
      ensures LapHistoryOf(DecodeItems(LAP_HISTORY, n, buf, o)[i]) == LapHistoryAt(buf, o + 14 * i)
    {
      LapHistoryAgrees(buf, o + 14 * i);
      TimesIsProduct(i, 14);
      LapItemAgrees(LAP_HISTORY, n, buf, o, i, o + 14 * i);
    }
  }

  lemma LapItemAgrees(e: Layout, n: nat, buf: seq<byte>, o: nat, i: nat, at: nat)
    requires i < n && o + Times(n, Size(e)) <= |buf|
    requires at == o + Times(i, Size(e)) && at + 14 <= |buf| && Size(e) == 14
    requires LapHistoryOf(Decode(e, buf, at)) == LapHistoryAt(buf, at)
    ensures LapHistoryOf(DecodeItems(e, n, buf, o)[i]) == LapHistoryAt(buf, at)
  {
    DecodeItemsAt(e, n, buf, o, i);
  }

  function ExtendedMotionOf(v: Value): ExtendedMotionData {
    ExtendedMotionData(
      Wheels(v, 0, 0), Wheels(v, 0, 1), Wheels(v, 0, 3),
      Wheels(v, 1, 0), Wheels(v, 1, 1), Wheels(v, 1, 2), Wheels(v, 1, 3),
      Wheels(v, 4, 0))
  }

  function ExtendedMotionAt(buf: seq<byte>, o: nat): ExtendedMotionData
    requires o + 188 <= |buf|
  {
    ExtendedMotionData(
      suspensionPosition := WheelsAt(buf, o, 4),
      suspensionVelocity := WheelsAt(buf, o + 16, 4),
      wheelSpeed := WheelsAt(buf, o + 48, 4),
      wheelSlipRatio := WheelsAt(buf, o + 64, 4),
      wheelSlipAngle := WheelsAt(buf, o + 80, 4),
      wheelLatForce := WheelsAt(buf, o + 96, 4),
      wheelLonForce := WheelsAt(buf, o + 112, 4),
      wheelVertForce := WheelsAt(buf, o + 172, 4))
  }

  predicate ExtendedMotionLaidOut(l: Layout, s: Layout, f: Layout, v: Layout) {
    && Size(l) == 188
    && FieldIs(l, 0, 0, s)
    && FieldIs(l, 1, 64, f)
    && FieldIs(l, 4, 172, v)
    && FieldIs(s, 0, 0, Repeat(4, F32))
    && FieldIs(s, 1, 16, Repeat(4, F32))
    && FieldIs(s, 3, 48, Repeat(4, F32))
    && FieldIs(f, 0, 0, Repeat(4, F32))
    && FieldIs(f, 1, 16, Repeat(4, F32))
    && FieldIs(f, 2, 32, Repeat(4, F32))
    && FieldIs(f, 3, 48, Repeat(4, F32))
    && FieldIs(v, 0, 0, Repeat(4, F32))
  }

  lemma ExtendedMotionIsLaidOut()
    ensures ExtendedMotionLaidOut(
              EXTENDED_MOTION, EXTENDED_MOTION_SUSPENSION, EXTENDED_MOTION_SLIP, EXTENDED_MOTION_VERTICAL)
  {
    ExtendedMotionOffsets();
    ExtendedMotionSuspensionOffsets();
    ExtendedMotionSlipOffsets();
    ExtendedMotionVerticalOffsets();
  }

  lemma ExtendedMotionAgrees(buf: seq<byte>, o: nat)
    requires o + 188 <= |buf|
    ensures Size(EXTENDED_MOTION) == 188
    ensures ExtendedMotionOf(Decode(EXTENDED_MOTION, buf, o)) == ExtendedMotionAt(buf, o)
  {
    ExtendedMotionIsLaidOut();
    ExtendedMotionLayoutAgrees(
      EXTENDED_MOTION, EXTENDED_MOTION_SUSPENSION, EXTENDED_MOTION_SLIP, EXTENDED_MOTION_VERTICAL, buf, o);
  }

  lemma ExtendedMotionLayoutAgrees(l: Layout, s: Layout, f: Layout, v: Layout, buf: seq<byte>, o: nat)
    requires ExtendedMotionLaidOut(l, s, f, v) && o + 188 <= |buf|
    ensures ExtendedMotionOf(Decode(l, buf, o)) == ExtendedMotionAt(buf, o)
  {
    hide Decode, IntAt, LittleEndian, FieldIs, Size;
    WheelsAgree(l, buf, o, 0, 0, s, 0, 0, 4);
    WheelsAgree(l, buf, o, 0, 0, s, 1, 16, 4);
    WheelsAgree(l, buf, o, 0, 0, s, 3, 48, 4);
    WheelsAgree(l, buf, o, 1, 64, f, 0, 0, 4);
    WheelsAgree(l, buf, o, 1, 64, f, 1, 16, 4);
    WheelsAgree(l, buf, o, 1, 64, f, 2, 32, 4);
    WheelsAgree(l, buf, o, 1, 64, f, 3, 48, 4);
    WheelsAgree(l, buf, o, 4, 172, v, 0, 0, 4);
  }

  /** In a packet holding one element for each car, the i-th decoded element is the
      element decoded at i times the element size. */
  lemma CarElementAtOffset(e: Layout, buf: seq<byte>, o: nat, i: nat)
    requires i < CARS && o + CARS * Size(e) <= |buf|
    ensures Size(Repeat(CARS, e)) == CARS * Size(e)
    ensures ElementIs(e, CARS, buf, o, i)
  {
    ElementAtOffset(e, CARS, buf, o, i);
  }

  predicate ElementIs(e: Layout, n: nat, buf: seq<byte>, o: nat, i: nat)
    requires i < n && o + n * Size(e) <= |buf| && Size(Repeat(n, e)) == n * Size(e)
  {
    var cars := Decode(Repeat(n, e), buf, o);
    && cars.Items? && |cars.items| == n
    && o + i * Size(e) + Size(e) <= |buf|
    && cars.items[i] == Decode(e, buf, o + i * Size(e))
  }

  lemma ElementAtOffset(e: Layout, n: nat, buf: seq<byte>, o: nat, i: nat)
    requires i < n && o + n * Size(e) <= |buf|
    ensures Size(Repeat(n, e)) == n * Size(e)
    ensures ElementIs(e, n, buf, o, i)
  {
    TimesIsProduct(n, Size(e));
    TimesIsProduct(i, Size(e));
    DecodeItemsAt(e, n, buf, o, i);
  }
}
