/** What the persisting operations write: the full store of the settings, the
    per-extruder block, the inactive operating mode's homing defaults, the
    restore of the defaults, the reset after a failed boot check and the
    extruder-count migration. Each is a sequence of field writes
    (`Writes.PutAll`), usually followed by the checksum, so that the
    imperative operations in `Engine` can be proved against these functions
    and their properties proved here once. */
module Persist {
  import opened Bytes
  import opened Float32
  import opened Layout
  import opened Settings
  import opened Writes
  import opened Checksum

  /** A C `bool` stored as a byte. */
  function BoolByte(b: bool): Byte {
    if b then 1 else 0
  }

  /** The magic byte, the extruder count and the baud rate (lines 317-319). */
  function IdentityWrites(C: Config, m: Mirror): (ws: seq<Write>)
    ensures ValidWrites(ws)
  {
    [Write(Magic, C.magic), Write(NumExtruders, C.numExtruders), Write(Baudrate, m.baudrate)]
  }

  /** Timeouts, steps, feed rates, Z offset and move modes (lines 320-334). */
  function BasicWrites(C: Config, m: Mirror): (ws: seq<Write>)
    requires WellFormed(C, m)
    ensures ValidWrites(ws)
  {
    [ Write(MaxInactiveTime, m.maxInactiveTime), Write(StepperInactiveTime, m.stepperInactiveTime),
      Write(AxisStepsPerMM(0), m.axisStepsPerMM[0]), Write(AxisStepsPerMM(1), m.axisStepsPerMM[1]),
      Write(AxisStepsPerMM(2), m.axisStepsPerMM[2]),
      Write(AxisMaxFeedrate(0), m.maxFeedrate[0]), Write(AxisMaxFeedrate(1), m.maxFeedrate[1]),
      Write(AxisMaxFeedrate(2), m.maxFeedrate[2]),
      Write(ZOffset, m.zOffset), Write(ZMode, m.zMode),
      Write(MoveMode(0), m.moveMode[0]), Write(MoveMode(1), m.moveMode[1]), Write(MoveMode(2), m.moveMode[2]),
      Write(MoveKosys, BoolByte(m.moveKosys)), Write(MovePositionFeedrate, BoolByte(m.movePositionFeedrate)) ]
  }

  /** Identity, serial and motion basics (lines 317-334). */
  function HeaderWrites(C: Config, m: Mirror): (ws: seq<Write>)
    requires WellFormed(C, m)
    ensures ValidWrites(ws)
  {
    ValidWritesAppend(IdentityWrites(C, m), BasicWrites(C, m));
    IdentityWrites(C, m) + BasicWrites(C, m)
  }

  /** Homing feed rates of the active mode, jerks, and the active mode's
      accelerations: per axis when printing, one value when milling (lines 336-367). */
  function MotionWrites(C: Config, m: Mirror): (ws: seq<Write>)
    requires WellFormed(C, m)
    ensures ValidWrites(ws)
  {
    var mode := m.operatingMode;
    [ Write(HomingFeedrate(mode, 0), m.homingFeedrate[0]), Write(HomingFeedrate(mode, 1), m.homingFeedrate[1]),
      Write(HomingFeedrate(mode, 2), m.homingFeedrate[2]),
      Write(MaxXYJerk, m.maxXYJerk), Write(MaxZJerk, m.maxZJerk) ]
    + if mode == Print then
        [ Write(MaxAccel(0), m.maxAccel[0]), Write(MaxAccel(1), m.maxAccel[1]), Write(MaxAccel(2), m.maxAccel[2]),
          Write(MaxTravelAccel(0), m.maxTravelAccel[0]), Write(MaxTravelAccel(1), m.maxTravelAccel[1]),
          Write(MaxTravelAccel(2), m.maxTravelAccel[2]) ]
      else
        [ Write(MillAcceleration, m.millAcceleration) ]
  }

  /** Heated bed controller and axis lengths; the X length goes to the active mode's field (lines 373-403). */
  function BedWrites(C: Config, m: Mirror): (ws: seq<Write>)
    requires WellFormed(C, m)
    ensures ValidWrites(ws)
  {
    [ Write(BedDriveMax, m.bed.driveMax), Write(BedDriveMin, m.bed.driveMin),
      Write(BedPGain, m.bed.pGain), Write(BedIGain, m.bed.iGain), Write(BedDGain, m.bed.dGain),
      Write(BedPidMax, m.bed.pidMax), Write(BedSensorType, m.bed.sensorType),
      Write(XLength(m.operatingMode), m.axisLength[0]),
      Write(YLength, m.axisLength[1]), Write(ZLength, m.axisLength[2]) ]
  }

  /** One extruder block (storeExtruderDataIntoEEPROM, lines 526-561). The
      retract-during-heat-up fields always receive the extruder-0 constants
      and the advance field 0.0 in the modelled configuration. */
  function ExtruderWrites(C: Config, m: Mirror, e: int): (ws: seq<Write>)
    requires WellFormed(C, m) && 0 <= e < |m.extruders| && e < MaxExtruders
    ensures ValidWrites(ws)
  {
    var x := m.extruders[e];
    [ Write(Ext(e, StepsPerMM), x.stepsPerMM), Write(Ext(e, MaxFeedrate), x.maxFeedrate),
      Write(Ext(e, MaxStartFeedrate), x.maxStartFeedrate), Write(Ext(e, MaxAcceleration), x.maxAcceleration),
      Write(Ext(e, DriveMax), x.heater.driveMax), Write(Ext(e, DriveMin), x.heater.driveMin),
      Write(Ext(e, PidPGain), x.heater.pGain), Write(Ext(e, PidIGain), x.heater.iGain),
      Write(Ext(e, PidDGain), x.heater.dGain), Write(Ext(e, PidMax), x.heater.pidMax),
      Write(Ext(e, SensorType), x.heater.sensorType),
      Write(Ext(e, OffsetX), x.offset[0]), Write(Ext(e, OffsetY), x.offset[1]), Write(Ext(e, OffsetZ), x.offset[2]),
      Write(Ext(e, WaitRetractTemp), C.waitRetractTemp), Write(Ext(e, WaitRetractUnits), C.waitRetractUnits),
      Write(Ext(e, CoolerSpeed), x.coolerSpeed), Write(Ext(e, AdvanceL), Zero) ]
  }

  /** The blocks of extruders 0 .. n-1, in order (the loop of lines 405-407). */
  function ExtrudersWrites(C: Config, m: Mirror, n: nat): (ws: seq<Write>)
    requires WellFormed(C, m) && n <= |m.extruders| && n <= MaxExtruders
    ensures ValidWrites(ws)
  {
    if n == 0 then [] else ExtrudersWrites(C, m, n - 1) + ExtruderWrites(C, m, n - 1)
  }

  /** The usage counters of the active mode are zeroed only for a corrupted store (lines 415-435). */
  function CounterWrites(m: Mirror, corrupted: bool): (ws: seq<Write>)
    ensures ValidWrites(ws)
  {
    if !corrupted then []
    else if m.operatingMode == Print then
      [ Write(PrintingTime, 0), Write(PrintingDistance, Zero),
        Write(PrintingTimeService, 0), Write(PrintingDistanceService, Zero) ]
    else
      [ Write(MillingTime, 0), Write(MillingTimeService, 0) ]
  }

  /** Motor currents of the 3 + NUM_EXTRUDER driven channels (lines 496-502). */
  function MotorCurrentWrites(C: Config, m: Mirror): (ws: seq<Write>)
    requires ValidConfig(C) && WellFormed(C, m)
    ensures ValidWrites(ws)
  {
    [ Write(MotorCurrent(0), m.motorCurrent[0]), Write(MotorCurrent(1), m.motorCurrent[1]),
      Write(MotorCurrent(2), m.motorCurrent[2]), Write(MotorCurrent(3), m.motorCurrent[3]) ]
    + if C.numExtruders > 1 then [Write(MotorCurrent(4), m.motorCurrent[4])] else []
  }

  /** Operating mode and Z step size (lines 465-472). */
  function ModeWrites(C: Config, m: Mirror): (ws: seq<Write>)
    ensures ValidWrites(ws)
  {
    [Write(OperatingMode, ModeCode(C, m.operatingMode)), Write(ZStepSize, m.manualStepsZ)]
  }

  /** Step packing, counters, mode, Z step size, motor currents and the version byte (lines 408-520). */
  function TailWrites(C: Config, m: Mirror, corrupted: bool): (ws: seq<Write>)
    requires ValidConfig(C) && WellFormed(C, m)
    ensures ValidWrites(ws)
  {
    var a := [Write(StepPackingMinInterval, m.stepsPackingMinInterval)];
    var v := [Write(Version, C.protocolVersion)];
    ValidWritesAppend(a, CounterWrites(m, corrupted));
    ValidWritesAppend(a + CounterWrites(m, corrupted), ModeWrites(C, m));
    ValidWritesAppend(a + CounterWrites(m, corrupted) + ModeWrites(C, m), MotorCurrentWrites(C, m));
    ValidWritesAppend(a + CounterWrites(m, corrupted) + ModeWrites(C, m) + MotorCurrentWrites(C, m), v);
    a + CounterWrites(m, corrupted) + ModeWrites(C, m) + MotorCurrentWrites(C, m) + v
  }

  /** Every write of storeDataIntoEEPROM, in order. */
  function StoreWrites(C: Config, m: Mirror, corrupted: bool): (ws: seq<Write>)
    requires ValidConfig(C) && WellFormed(C, m)
    ensures ValidWrites(ws)
  {
    HeaderWrites(C, m) + MotionWrites(C, m) + BedWrites(C, m)
    + ExtrudersWrites(C, m, C.numExtruders) + TailWrites(C, m, corrupted)
  }

  /** The image after storeDataIntoEEPROM: all writes, then the checksum. */
  function StoreSpec(L: Layout, C: Config, s: seq<Byte>, m: Mirror, corrupted: bool): (r: seq<Byte>)
    requires ValidLayout(L) && ValidConfig(C) && WellFormed(C, m) && |s| == StoreSize
    ensures |r| == StoreSize
  {
    WithChecksum(L, PutAll(L, s, StoreWrites(C, m, corrupted)))
  }

  /** The image after storeExtruderDataIntoEEPROM(e) (no checksum of its own). */
  function StoreExtruderSpec(L: Layout, C: Config, s: seq<Byte>, m: Mirror, e: int): (r: seq<Byte>)
    requires ValidLayout(L) && WellFormed(C, m) && |s| == StoreSize
    requires 0 <= e < |m.extruders| && e < MaxExtruders
    ensures |r| == StoreSize
  {
    PutAll(L, s, ExtruderWrites(C, m, e))
  }

  /** The inactive mode's homing feed rates receive their defaults (lines 570-587). */
  function InitModesWrites(C: Config, active: Mode): (ws: seq<Write>)
    requires ValidConfig(C)
    ensures ValidWrites(ws)
  {
    var other := if active == Print then Mill else Print;
    var d := HomingDefaults(C, other);
    [ Write(HomingFeedrate(other, 0), d[0]), Write(HomingFeedrate(other, 1), d[1]),
      Write(HomingFeedrate(other, 2), d[2]) ]
  }

  function InitModesSpec(L: Layout, C: Config, s: seq<Byte>, active: Mode): (r: seq<Byte>)
    requires ValidLayout(L) && ValidConfig(C) && |s| == StoreSize
    ensures |r| == StoreSize
  {
    WithChecksum(L, PutAll(L, s, InitModesWrites(C, active)))
  }

  /** The usage counters of both modes (lines 415-435). */
  predicate IsCounter(f: Field) {
    f == PrintingTime || f == PrintingDistance || f == PrintingTimeService
    || f == PrintingDistanceService || f == MillingTime || f == MillingTimeService
  }

  /** The block of extruder `e` names only fields of that block. */
  lemma ExtruderWritesOnlyBlock(C: Config, m: Mirror, e: int, f: Field)
    requires WellFormed(C, m) && 0 <= e < |m.extruders| && e < MaxExtruders
    requires !(f.Ext? && f.extruder == e)
    ensures Untouched(ExtruderWrites(C, m, e), f)
  {
  }

  lemma {:induction false} ExtrudersWritesOnlyBlocks(C: Config, m: Mirror, n: nat, f: Field)
    requires WellFormed(C, m) && n <= |m.extruders| && n <= MaxExtruders && !f.Ext?
    ensures Untouched(ExtrudersWrites(C, m, n), f)
  {
    if n > 0 {
      ExtrudersWritesOnlyBlocks(C, m, n - 1, f);
      ExtruderWritesOnlyBlock(C, m, n - 1, f);
      UntouchedAppend(ExtrudersWrites(C, m, n - 1), ExtruderWrites(C, m, n - 1), f);
    }
  }

  /** The identity fields: the magic byte, the extruder count, the baud rate
      and the version byte. */
  predicate IsIdentity(f: Field) {
    f == Magic || f == NumExtruders || f == Baudrate || f == Version
  }

  /** The header writes the magic byte, the extruder count and the baud rate,
      each with one value only. */
  lemma HeaderWritesIdentity(C: Config, m: Mirror)
    requires WellFormed(C, m)
    ensures var ws := HeaderWrites(C, m);
      && Write(Magic, C.magic) in ws && Write(NumExtruders, C.numExtruders) in ws
      && Write(Baudrate, m.baudrate) in ws
      && OnlyWrites(ws, Magic, C.magic) && OnlyWrites(ws, NumExtruders, C.numExtruders)
      && OnlyWrites(ws, Baudrate, m.baudrate)
  {
    var a, b := IdentityWrites(C, m), BasicWrites(C, m);
    assert a[0] in a + b && a[1] in a + b && a[2] in a + b;
    BasicWritesUntouched(C, m, Magic);
    OnlyWritesAppend(a, b, Magic, C.magic);
    BasicWritesUntouched(C, m, NumExtruders);
    OnlyWritesAppend(a, b, NumExtruders, C.numExtruders);
    BasicWritesUntouched(C, m, Baudrate);
    OnlyWritesAppend(a, b, Baudrate, m.baudrate);
  }

  /** The basic settings name no identity field and no counter. */
  lemma BasicWritesUntouched(C: Config, m: Mirror, f: Field)
    requires WellFormed(C, m) && (IsIdentity(f) || IsCounter(f))
    ensures Untouched(BasicWrites(C, m), f)
  {
  }

  /** The header names neither the version byte nor a counter. */
  lemma HeaderWritesUntouched(C: Config, m: Mirror, f: Field)
    requires WellFormed(C, m) && (f == Version || IsCounter(f))
    ensures Untouched(HeaderWrites(C, m), f)
  {
    BasicWritesUntouched(C, m, f);
    UntouchedAppend(IdentityWrites(C, m), BasicWrites(C, m), f);
  }

  /** The motion writes name no identity field and no counter. */
  lemma MotionWritesUntouched(C: Config, m: Mirror, f: Field)
    requires WellFormed(C, m) && (IsIdentity(f) || IsCounter(f))
    ensures Untouched(MotionWrites(C, m), f)
  {
  }

  /** The bed writes name no identity field and no counter. */
  lemma BedWritesUntouched(C: Config, m: Mirror, f: Field)
    requires WellFormed(C, m) && (IsIdentity(f) || IsCounter(f))
    ensures Untouched(BedWrites(C, m), f)
  {
  }

  /** The counter writes name no identity field and write nothing but zero. */
  lemma CounterWritesFacts(m: Mirror, corrupted: bool, f: Field)
    requires IsIdentity(f) || IsCounter(f)
    ensures IsIdentity(f) ==> Untouched(CounterWrites(m, corrupted), f)
    ensures OnlyWrites(CounterWrites(m, corrupted), f, 0)
  {
  }

  /** Step packing, mode and motor current writes name no identity field and no counter. */
  lemma TailPartsUntouched(C: Config, m: Mirror, f: Field)
    requires ValidConfig(C) && WellFormed(C, m) && (IsIdentity(f) || IsCounter(f))
    ensures Untouched([Write(StepPackingMinInterval, m.stepsPackingMinInterval)], f)
    ensures Untouched(ModeWrites(C, m), f) && Untouched(MotorCurrentWrites(C, m), f)
  {
  }

  /** The tail names no identity field but the version byte, which it writes
      with one value; it writes nothing but zero to a counter. */
  lemma TailWritesFacts(C: Config, m: Mirror, corrupted: bool, f: Field)
    requires ValidConfig(C) && WellFormed(C, m) && (IsIdentity(f) || IsCounter(f))
    ensures f == Magic || f == NumExtruders || f == Baudrate ==> Untouched(TailWrites(C, m, corrupted), f)
    ensures f == Version ==> Write(Version, C.protocolVersion) in TailWrites(C, m, corrupted)
    ensures OnlyWrites(TailWrites(C, m, corrupted), f, if f == Version then C.protocolVersion else 0)
  {
    var a := [Write(StepPackingMinInterval, m.stepsPackingMinInterval)];
    var c, d, e := CounterWrites(m, corrupted), ModeWrites(C, m), MotorCurrentWrites(C, m);
    var v := [Write(Version, C.protocolVersion)];
    var value := if f == Version then C.protocolVersion else 0;
    TailPartsUntouched(C, m, f);
    CounterWritesFacts(m, corrupted, f);
    if f == Version {
      assert v[0] in a + c + d + e + v;
    }
    if f == Magic || f == NumExtruders || f == Baudrate {
      UntouchedAppend(a, c, f);
      UntouchedAppend(a + c, d, f);
      UntouchedAppend(a + c + d, e, f);
      UntouchedAppend(a + c + d + e, v, f);
    } else {
      OnlyWritesAppend(a, c, f, value);
      OnlyWritesAppend(a + c, d, f, value);
      OnlyWritesAppend(a + c + d, e, f, value);
      OnlyWritesAppend(a + c + d + e, v, f, value);
    }
  }

  /** A full store writes this build's EEPROM mode into the magic byte. */
  lemma StoredMagic(L: Layout, C: Config, s: seq<Byte>, m: Mirror, corrupted: bool)
    requires ValidLayout(L) && ValidConfig(C) && WellFormed(C, m) && |s| == StoreSize
    ensures Get(L, PutAll(L, s, StoreWrites(C, m, corrupted)), Magic) == C.magic
  {
    HeaderWritesIdentity(C, m);
    MotionWritesUntouched(C, m, Magic);
    BedWritesUntouched(C, m, Magic);
    ExtrudersWritesOnlyBlocks(C, m, C.numExtruders, Magic);
    TailWritesFacts(C, m, corrupted, Magic);
    PutAllFirstOfFive(L, s, HeaderWrites(C, m), MotionWrites(C, m), BedWrites(C, m),
      ExtrudersWrites(C, m, C.numExtruders), TailWrites(C, m, corrupted), Magic, C.magic);
  }

  /** A full store writes this build's extruder count. */
  lemma StoredNumExtruders(L: Layout, C: Config, s: seq<Byte>, m: Mirror, corrupted: bool)
    requires ValidLayout(L) && ValidConfig(C) && WellFormed(C, m) && |s| == StoreSize
    ensures Get(L, PutAll(L, s, StoreWrites(C, m, corrupted)), NumExtruders) == C.numExtruders
  {
    HeaderWritesIdentity(C, m);
    MotionWritesUntouched(C, m, NumExtruders);
    BedWritesUntouched(C, m, NumExtruders);
    ExtrudersWritesOnlyBlocks(C, m, C.numExtruders, NumExtruders);
    TailWritesFacts(C, m, corrupted, NumExtruders);
    PutAllFirstOfFive(L, s, HeaderWrites(C, m), MotionWrites(C, m), BedWrites(C, m),
      ExtrudersWrites(C, m, C.numExtruders), TailWrites(C, m, corrupted), NumExtruders, C.numExtruders);
  }

  /** A full store writes the mirror's baud rate. */
  lemma StoredBaudrate(L: Layout, C: Config, s: seq<Byte>, m: Mirror, corrupted: bool)
    requires ValidLayout(L) && ValidConfig(C) && WellFormed(C, m) && |s| == StoreSize
    ensures Get(L, PutAll(L, s, StoreWrites(C, m, corrupted)), Baudrate) == m.baudrate
  {
    assert InRange(KindOf(Baudrate), m.baudrate);
    HeaderWritesIdentity(C, m);
    MotionWritesUntouched(C, m, Baudrate);
    BedWritesUntouched(C, m, Baudrate);
    ExtrudersWritesOnlyBlocks(C, m, C.numExtruders, Baudrate);
    TailWritesFacts(C, m, corrupted, Baudrate);
    PutAllFirstOfFive(L, s, HeaderWrites(C, m), MotionWrites(C, m), BedWrites(C, m),
      ExtrudersWrites(C, m, C.numExtruders), TailWrites(C, m, corrupted), Baudrate, m.baudrate);
  }

  /** A full store writes this build's protocol version into the version byte. */
  lemma StoredVersion(L: Layout, C: Config, s: seq<Byte>, m: Mirror, corrupted: bool)
    requires ValidLayout(L) && ValidConfig(C) && WellFormed(C, m) && |s| == StoreSize
    ensures Get(L, PutAll(L, s, StoreWrites(C, m, corrupted)), Version) == C.protocolVersion
  {
    HeaderWritesUntouched(C, m, Version);
    MotionWritesUntouched(C, m, Version);
    BedWritesUntouched(C, m, Version);
    ExtrudersWritesOnlyBlocks(C, m, C.numExtruders, Version);
    TailWritesFacts(C, m, corrupted, Version);
    PutAllLastOfFive(L, s, HeaderWrites(C, m), MotionWrites(C, m), BedWrites(C, m),
      ExtrudersWrites(C, m, C.numExtruders), TailWrites(C, m, corrupted), Version, C.protocolVersion);
  }

  // ------------------------------------------------------------ the stored value of every field

  /** The usage counters of a mode. */
  predicate ModeCounter(mode: Mode, f: Field) {
    if mode == Print then
      f == PrintingTime || f == PrintingDistance || f == PrintingTimeService || f == PrintingDistanceService
    else f == MillingTime || f == MillingTimeService
  }

  /** The value a full store gives field `x` of an extruder block. */
  function ExtValue(C: Config, x: Extruder, xf: ExtField): int
    requires WellFormedExtruder(x)
  {
    match xf
    case StepsPerMM => x.stepsPerMM
    case MaxFeedrate => x.maxFeedrate
    case MaxStartFeedrate => x.maxStartFeedrate
    case MaxAcceleration => x.maxAcceleration
    case DriveMax => x.heater.driveMax
    case DriveMin => x.heater.driveMin
    case PidPGain => x.heater.pGain
    case PidIGain => x.heater.iGain
    case PidDGain => x.heater.dGain
    case PidMax => x.heater.pidMax
    case SensorType => x.heater.sensorType
    case OffsetX => x.offset[0]
    case OffsetY => x.offset[1]
    case OffsetZ => x.offset[2]
    case WaitRetractTemp => C.waitRetractTemp
    case WaitRetractUnits => C.waitRetractUnits
    case CoolerSpeed => x.coolerSpeed
    case AdvanceL => Zero
  }

  /** Field by field, what storeDataIntoEEPROM leaves in the store: `Some(v)`
      for a field it writes with `v`, `None` for one it leaves as it was (the
      other mode's homing feed rates and X length, the accelerations the
      active mode does not use, the counters unless the store was corrupted,
      the blocks and driver channels the build does not have, and the
      micro-step marker). */
  function StoreValue(C: Config, m: Mirror, corrupted: bool, f: Field): Option<int>
    requires ValidConfig(C) && WellFormed(C, m)
  {
    var mode := m.operatingMode;
    match f
    case Magic => Some(C.magic)
    case NumExtruders => Some(C.numExtruders)
    case Baudrate => Some(m.baudrate)
    case MaxInactiveTime => Some(m.maxInactiveTime)
    case StepperInactiveTime => Some(m.stepperInactiveTime)
    case AxisStepsPerMM(a) => Some(m.axisStepsPerMM[a])
    case AxisMaxFeedrate(a) => Some(m.maxFeedrate[a])
    case ZOffset => Some(m.zOffset)
    case ZMode => Some(m.zMode)
    case MoveMode(a) => Some(m.moveMode[a])
    case MoveKosys => Some(BoolByte(m.moveKosys))
    case MovePositionFeedrate => Some(BoolByte(m.movePositionFeedrate))
    case HomingFeedrate(md, a) => if md == mode then Some(m.homingFeedrate[a]) else None
    case MaxXYJerk => Some(m.maxXYJerk)
    case MaxZJerk => Some(m.maxZJerk)
    case MaxAccel(a) => if mode == Print then Some(m.maxAccel[a]) else None
    case MaxTravelAccel(a) => if mode == Print then Some(m.maxTravelAccel[a]) else None
    case MillAcceleration => if mode == Mill then Some(m.millAcceleration) else None
    case BedDriveMax => Some(m.bed.driveMax)
    case BedDriveMin => Some(m.bed.driveMin)
    case BedPGain => Some(m.bed.pGain)
    case BedIGain => Some(m.bed.iGain)
    case BedDGain => Some(m.bed.dGain)
    case BedPidMax => Some(m.bed.pidMax)
    case BedSensorType => Some(m.bed.sensorType)
    case XLength(md) => if md == mode then Some(m.axisLength[0]) else None
    case YLength => Some(m.axisLength[1])
    case ZLength => Some(m.axisLength[2])
    case StepPackingMinInterval => Some(m.stepsPackingMinInterval)
    case PrintingTime | PrintingDistance | PrintingTimeService | PrintingDistanceService
      | MillingTime | MillingTimeService =>
      if corrupted && ModeCounter(mode, f) then Some(0) else None
    case OperatingMode => Some(ModeCode(C, mode))
    case ZStepSize => Some(m.manualStepsZ)
    case MotorCurrent(c) => if 0 <= c < 3 + C.numExtruders then Some(m.motorCurrent[c]) else None
    case MicroStepsUsed => None
    case Version => Some(C.protocolVersion)
    case Ext(e, x) => if 0 <= e < C.numExtruders then Some(ExtValue(C, m.extruders[e], x)) else None
  }

  /** Every write of `ws` writes to its field the value `StoreValue` names. */
  predicate Agrees(C: Config, m: Mirror, corrupted: bool, ws: seq<Write>)
    requires ValidConfig(C) && WellFormed(C, m)
  {
    forall i :: 0 <= i < |ws| ==> StoreValue(C, m, corrupted, ws[i].field) == Some(ws[i].value)
  }

  lemma AgreesAppend(C: Config, m: Mirror, corrupted: bool, a: seq<Write>, b: seq<Write>)
    requires ValidConfig(C) && WellFormed(C, m)
    requires Agrees(C, m, corrupted, a) && Agrees(C, m, corrupted, b)
    ensures Agrees(C, m, corrupted, a + b)
  {
    forall i | 0 <= i < |a + b|
      ensures StoreValue(C, m, corrupted, (a + b)[i].field) == Some((a + b)[i].value)
    {
      if i >= |a| {
        assert (a + b)[i] == b[i - |a|];
      }
    }
  }

  lemma HeaderAgrees(C: Config, m: Mirror, corrupted: bool)
    requires ValidConfig(C) && WellFormed(C, m)
    ensures Agrees(C, m, corrupted, HeaderWrites(C, m))
  {
    AgreesAppend(C, m, corrupted, IdentityWrites(C, m), BasicWrites(C, m));
  }

  lemma MotionAgrees(C: Config, m: Mirror, corrupted: bool)
    requires ValidConfig(C) && WellFormed(C, m)
    ensures Agrees(C, m, corrupted, MotionWrites(C, m))
  {
  }

  lemma BedAgrees(C: Config, m: Mirror, corrupted: bool)
    requires ValidConfig(C) && WellFormed(C, m)
    ensures Agrees(C, m, corrupted, BedWrites(C, m))
  {
  }

  /** Every write of an extruder block names a field of that block with its value. */
  lemma ExtruderBlockValues(C: Config, m: Mirror, e: int)
    requires WellFormed(C, m) && 0 <= e < |m.extruders| && e < MaxExtruders
    ensures var ws := ExtruderWrites(C, m, e);
      forall i :: 0 <= i < |ws| ==>
        (ws[i].field.Ext? && ws[i].field.extruder == e && ws[i].value == ExtValue(C, m.extruders[e], ws[i].field.field))
  {
  }

  lemma ExtruderAgrees(C: Config, m: Mirror, corrupted: bool, e: int)
    requires ValidConfig(C) && WellFormed(C, m) && 0 <= e < C.numExtruders
    ensures Agrees(C, m, corrupted, ExtruderWrites(C, m, e))
  {
    ExtruderBlockValues(C, m, e);
  }

  lemma {:induction false} ExtrudersAgree(C: Config, m: Mirror, corrupted: bool, n: nat)
    requires ValidConfig(C) && WellFormed(C, m) && n <= C.numExtruders
    ensures Agrees(C, m, corrupted, ExtrudersWrites(C, m, n))
  {
    if n > 0 {
      ExtrudersAgree(C, m, corrupted, n - 1);
      ExtruderAgrees(C, m, corrupted, n - 1);
      AgreesAppend(C, m, corrupted, ExtrudersWrites(C, m, n - 1), ExtruderWrites(C, m, n - 1));
    }
  }

  lemma CounterAgrees(C: Config, m: Mirror, corrupted: bool)
    requires ValidConfig(C) && WellFormed(C, m)
    ensures Agrees(C, m, corrupted, CounterWrites(m, corrupted))
  {
  }

  lemma MotorCurrentAgrees(C: Config, m: Mirror, corrupted: bool)
    requires ValidConfig(C) && WellFormed(C, m)
    ensures Agrees(C, m, corrupted, MotorCurrentWrites(C, m))
  {
  }

  lemma TailAgrees(C: Config, m: Mirror, corrupted: bool)
    requires ValidConfig(C) && WellFormed(C, m)
    ensures Agrees(C, m, corrupted, TailWrites(C, m, corrupted))
  {
    var a := [Write(StepPackingMinInterval, m.stepsPackingMinInterval)];
    var c, d, e := CounterWrites(m, corrupted), ModeWrites(C, m), MotorCurrentWrites(C, m);
    var v := [Write(Version, C.protocolVersion)];
    CounterAgrees(C, m, corrupted);
    MotorCurrentAgrees(C, m, corrupted);
    AgreesAppend(C, m, corrupted, a, c);
    AgreesAppend(C, m, corrupted, a + c, d);
    AgreesAppend(C, m, corrupted, a + c + d, e);
    AgreesAppend(C, m, corrupted, a + c + d + e, v);
  }

  /** A full store writes nothing but the values `StoreValue` names. */
  lemma StoreAgrees(C: Config, m: Mirror, corrupted: bool)
    requires ValidConfig(C) && WellFormed(C, m)
    ensures Agrees(C, m, corrupted, StoreWrites(C, m, corrupted))
  {
    var h, mo, b := HeaderWrites(C, m), MotionWrites(C, m), BedWrites(C, m);
    var x, t := ExtrudersWrites(C, m, C.numExtruders), TailWrites(C, m, corrupted);
    HeaderAgrees(C, m, corrupted);
    MotionAgrees(C, m, corrupted);
    BedAgrees(C, m, corrupted);
    ExtrudersAgree(C, m, corrupted, C.numExtruders);
    TailAgrees(C, m, corrupted);
    AgreesAppend(C, m, corrupted, h, mo);
    AgreesAppend(C, m, corrupted, h + mo, b);
    AgreesAppend(C, m, corrupted, h + mo + b, x);
    AgreesAppend(C, m, corrupted, h + mo + b + x, t);
  }

  /** Which of the five parts of a full store names a field (5: none does). */
  function StorePart(f: Field): (k: nat)
    ensures k <= 5 && (k == 5 <==> f == MicroStepsUsed)
  {
    match f
    case Magic | NumExtruders | Baudrate | MaxInactiveTime | StepperInactiveTime
      | AxisStepsPerMM(_) | AxisMaxFeedrate(_) | ZOffset | ZMode | MoveMode(_)
      | MoveKosys | MovePositionFeedrate => 0
    case HomingFeedrate(_, _) | MaxXYJerk | MaxZJerk | MaxAccel(_) | MaxTravelAccel(_)
      | MillAcceleration => 1
    case BedDriveMax | BedDriveMin | BedPGain | BedIGain | BedDGain | BedPidMax | BedSensorType
      | XLength(_) | YLength | ZLength => 2
    case Ext(_, _) => 3
    case MicroStepsUsed => 5
    case _ => 4
  }

  lemma HeaderWritten(C: Config, m: Mirror, corrupted: bool, f: Field)
    requires ValidConfig(C) && WellFormed(C, m) && StorePart(f) == 0
    ensures StoreValue(C, m, corrupted, f).Some?
    ensures Write(f, StoreValue(C, m, corrupted, f).value) in HeaderWrites(C, m)
  {
    if f == Magic || f == NumExtruders || f == Baudrate {
      assert Write(f, StoreValue(C, m, corrupted, f).value) in IdentityWrites(C, m);
    } else {
      BasicWritten(C, m, corrupted, f);
    }
  }

  lemma BasicWritten(C: Config, m: Mirror, corrupted: bool, f: Field)
    requires ValidConfig(C) && WellFormed(C, m) && StorePart(f) == 0
    requires f != Magic && f != NumExtruders && f != Baudrate
    ensures StoreValue(C, m, corrupted, f).Some?
    ensures Write(f, StoreValue(C, m, corrupted, f).value) in BasicWrites(C, m)
  {
    var ws := BasicWrites(C, m);
    match f
    case AxisStepsPerMM(a) =>
      assert ws[2 + a] == Write(f, m.axisStepsPerMM[a]);
    case AxisMaxFeedrate(a) =>
      assert ws[5 + a] == Write(f, m.maxFeedrate[a]);
    case MoveMode(a) =>
      assert ws[10 + a] == Write(f, m.moveMode[a]);
    case _ =>
  }

  lemma MotionWritten(C: Config, m: Mirror, corrupted: bool, f: Field)
    requires ValidConfig(C) && WellFormed(C, m) && StorePart(f) == 1
    requires StoreValue(C, m, corrupted, f).Some?
    ensures Write(f, StoreValue(C, m, corrupted, f).value) in MotionWrites(C, m)
  {
    var ws := MotionWrites(C, m);
    match f
    case HomingFeedrate(md, a) =>
      assert ws[a] == Write(f, m.homingFeedrate[a]);
    case MaxAccel(a) =>
      assert ws[5 + a] == Write(f, m.maxAccel[a]);
    case MaxTravelAccel(a) =>
      assert ws[8 + a] == Write(f, m.maxTravelAccel[a]);
    case _ =>
  }

  lemma BedWritten(C: Config, m: Mirror, corrupted: bool, f: Field)
    requires ValidConfig(C) && WellFormed(C, m) && StorePart(f) == 2
    requires StoreValue(C, m, corrupted, f).Some?
    ensures Write(f, StoreValue(C, m, corrupted, f).value) in BedWrites(C, m)
  {
  }

  /** The position of a field's write in an extruder block. */
  function ExtWriteIndex(x: ExtField): (i: nat)
    ensures i < 18
  {
    match x
    case StepsPerMM => 0
    case MaxFeedrate => 1
    case MaxStartFeedrate => 2
    case MaxAcceleration => 3
    case DriveMax => 4
    case DriveMin => 5
    case PidPGain => 6
    case PidIGain => 7
    case PidDGain => 8
    case PidMax => 9
    case SensorType => 10
    case OffsetX => 11
    case OffsetY => 12
    case OffsetZ => 13
    case WaitRetractTemp => 14
    case WaitRetractUnits => 15
    case CoolerSpeed => 16
    case AdvanceL => 17
  }

  lemma ExtruderWriteAt(C: Config, m: Mirror, e: int, x: ExtField)
    requires WellFormed(C, m) && 0 <= e < |m.extruders| && e < MaxExtruders
    ensures ExtruderWrites(C, m, e)[ExtWriteIndex(x)] == Write(Ext(e, x), ExtValue(C, m.extruders[e], x))
  {
  }

  lemma {:induction false} ExtrudersWritten(C: Config, m: Mirror, n: nat, e: int, x: ExtField)
    requires WellFormed(C, m) && n <= |m.extruders| && n <= MaxExtruders && 0 <= e < n
    ensures Write(Ext(e, x), ExtValue(C, m.extruders[e], x)) in ExtrudersWrites(C, m, n)
  {
    if e == n - 1 {
      ExtruderWriteAt(C, m, e, x);
      assert Write(Ext(e, x), ExtValue(C, m.extruders[e], x)) in ExtruderWrites(C, m, e);
    } else {
      ExtrudersWritten(C, m, n - 1, e, x);
    }
  }

  lemma TailWritten(C: Config, m: Mirror, corrupted: bool, f: Field)
    requires ValidConfig(C) && WellFormed(C, m) && StorePart(f) == 4
    requires StoreValue(C, m, corrupted, f).Some?
    ensures Write(f, StoreValue(C, m, corrupted, f).value) in TailWrites(C, m, corrupted)
  {
    var e := MotorCurrentWrites(C, m);
    match f
    case MotorCurrent(ch) =>
      assert e[ch] == Write(f, m.motorCurrent[ch]);
    case _ =>
  }

  /** Every field the store names is written with the value `StoreValue` names. */
  lemma StoreWritten(C: Config, m: Mirror, corrupted: bool, f: Field)
    requires ValidConfig(C) && WellFormed(C, m) && StoreValue(C, m, corrupted, f).Some?
    ensures Write(f, StoreValue(C, m, corrupted, f).value) in StoreWrites(C, m, corrupted)
  {
    var k := StorePart(f);
    if k == 0 {
      HeaderWritten(C, m, corrupted, f);
    } else if k == 1 {
      MotionWritten(C, m, corrupted, f);
    } else if k == 2 {
      BedWritten(C, m, corrupted, f);
    } else if k == 3 {
      assert f.Ext?;
      ExtrudersWritten(C, m, C.numExtruders, f.extruder, f.field);
    } else {
      TailWritten(C, m, corrupted, f);
    }
  }

  /** A full store writes to every field exactly the value `StoreValue` names. */
  lemma StoreExactly(C: Config, m: Mirror, corrupted: bool, f: Field)
    requires ValidConfig(C) && WellFormed(C, m)
    ensures WritesExactly(StoreWrites(C, m, corrupted), f, StoreValue(C, m, corrupted, f))
  {
    var ws := StoreWrites(C, m, corrupted);
    StoreAgrees(C, m, corrupted);
    if StoreValue(C, m, corrupted, f).Some? {
      StoreWritten(C, m, corrupted, f);
    }
  }

  /** Every field after a full store holds the value the store writes to it,
      or what it held before when the store leaves it alone. */
  lemma StoredField(L: Layout, C: Config, s: seq<Byte>, m: Mirror, corrupted: bool, f: Field)
    requires ValidLayout(L) && ValidConfig(C) && WellFormed(C, m) && |s| == StoreSize && ValidField(f)
    ensures var o := StoreValue(C, m, corrupted, f);
      Get(L, StoreSpec(L, C, s, m, corrupted), f) == if o.Some? then Norm(KindOf(f), o.value) else Get(L, s, f)
  {
    var s1 := PutAll(L, s, StoreWrites(C, m, corrupted));
    StoreExactly(C, m, corrupted, f);
    PutAllExactly(L, s, StoreWrites(C, m, corrupted), f, StoreValue(C, m, corrupted, f));
    WithChecksumKeepsFields(L, s1);
  }

  /** A full store zeroes the counters of the active mode when the store was
      corrupted, and leaves every other counter as it was (lines 415-435). */
  lemma StoredCounter(L: Layout, C: Config, s: seq<Byte>, m: Mirror, corrupted: bool, f: Field)
    requires ValidLayout(L) && ValidConfig(C) && WellFormed(C, m) && |s| == StoreSize && IsCounter(f)
    ensures Get(L, StoreSpec(L, C, s, m, corrupted), f)
      == if corrupted && ModeCounter(m.operatingMode, f) then 0 else Get(L, s, f)
  {
    CounterValue(C, m, corrupted, f);
    assert InRange(KindOf(f), 0);
    StoredField(L, C, s, m, corrupted, f);
  }

  lemma CounterValue(C: Config, m: Mirror, corrupted: bool, f: Field)
    requires ValidConfig(C) && WellFormed(C, m) && IsCounter(f)
    ensures StoreValue(C, m, corrupted, f)
      == if corrupted && ModeCounter(m.operatingMode, f) then Some(0) else None
  {
  }

  // ------------------------------------------------------------ restore

  /** The settings of extruder `e` reset to its build defaults (lines 57-124). */
  function RestoreExtruderSpec(C: Config, m: Mirror, e: int): (r: Mirror)
    requires ValidConfig(C) && WellFormed(C, m) && 0 <= e < |m.extruders|
    ensures WellFormed(C, r)
  {
    m.(extruders := m.extruders[e := C.extruders[e]])
  }

  /** The first part of restoreEEPROMSettingsFromConfiguration (lines 128-189):
      serial, timeouts, steps, feed rates, micro-step modes, the homing feed
      rates of the current mode, jerks, move modes, accelerations, the bed
      controller and the axis lengths, with the X length of the current mode. */
  function RestoreMotion(C: Config, m: Mirror): (r: Mirror)
    requires ValidConfig(C) && WellFormed(C, m)
    ensures WellFormed(C, r)
  {
    m.(baudrate := C.baudrate, maxInactiveTime := C.maxInactiveTime,
       stepperInactiveTime := C.stepperInactiveTime,
       axisStepsPerMM := C.axisStepsPerMM, maxFeedrate := C.maxFeedrate,
       microSteps := C.microSteps,
       homingFeedrate := HomingDefaults(C, m.operatingMode),
       maxXYJerk := C.maxXYJerk, maxZJerk := C.maxZJerk,
       moveMode := C.moveMode, moveKosys := C.moveKosys, movePositionFeedrate := C.movePositionFeedrate,
       maxAccel := C.maxAccel, maxTravelAccel := C.maxTravelAccel,
       bed := C.bed,
       axisLength := [XLengthDefault(C, m.operatingMode), C.yLength, C.zLength])
  }

  /** The last part (lines 210-294): step packing, Z scale mode, the motor
      currents of the 3 + NUM_EXTRUDER driven channels and the Z jog steps. */
  function RestoreTail(C: Config, m: Mirror): (r: Mirror)
    requires ValidConfig(C) && WellFormed(C, m)
    ensures WellFormed(C, r)
  {
    var driven := 3 + C.numExtruders;
    m.(stepsPackingMinInterval := C.stepPacking, zMode := C.zMode,
       motorCurrent := C.motorCurrentNormal[..driven] + m.motorCurrent[driven..],
       manualStepsZ := C.manualStepsZ)
  }

  /** The mirror after restoreEEPROMSettingsFromConfiguration (lines 126-297):
      the first part, the defaults of every extruder the build has, the last part. */
  function RestoreMirror(C: Config, m: Mirror): (r: Mirror)
    requires ValidConfig(C) && WellFormed(C, m)
    ensures WellFormed(C, r)
    ensures r.baudrate == C.baudrate && r.operatingMode == m.operatingMode
  {
    var m1 := RestoreMotion(C, m);
    var m2 := RestoreExtruderSpec(C, m1, 0);
    var m3 := if C.numExtruders > 1 then RestoreExtruderSpec(C, m2, 1) else m2;
    RestoreTail(C, m3)
  }

  /** The restore's only store write: when any channel's micro-step mode
      differs from its initial value, the stored micro-step settings are
      marked invalid once. */
  function RestoreImage(L: Layout, C: Config, s: seq<Byte>, m: Mirror): (r: seq<Byte>)
    requires ValidLayout(L) && ValidConfig(C) && WellFormed(C, m) && |s| == StoreSize
    ensures |r| == StoreSize
  {
    if m.microSteps != C.microSteps then Put(L, s, MicroStepsUsed, 0) else s
  }

  // ------------------------------------------------------------ reset and migration

  function ZeroImage(): (z: seq<Byte>)
    ensures |z| == StoreSize && forall j :: 0 <= j < StoreSize ==> z[j] == 0
  {
    seq(StoreSize, j => 0)
  }

  datatype Snapshot = Snapshot(mem: seq<Byte>, cfg: Mirror)

  /** The reset branch of init (lines 1065-1087): wipe, restore the defaults,
      store them (zeroing the counters when corrupted) and write the inactive
      mode's homing defaults. */
  function ResetSpec(L: Layout, C: Config, m: Mirror, corrupted: bool): (r: Snapshot)
    requires ValidLayout(L) && ValidConfig(C) && WellFormed(C, m)
    ensures |r.mem| == StoreSize && WellFormed(C, r.cfg)
  {
    var m1 := RestoreMirror(C, m);
    var s1 := RestoreImage(L, C, ZeroImage(), m);
    var s2 := StoreSpec(L, C, s1, m1, corrupted);
    Snapshot(InitModesSpec(L, C, s2, m1.operatingMode), m1)
  }

  /** A reset leaves a store that names this build's EEPROM mode, extruder
      count and protocol version and holds the default baud rate. */
  lemma ResetIdentity(L: Layout, C: Config, m: Mirror, corrupted: bool)
    requires ValidLayout(L) && ValidConfig(C) && WellFormed(C, m)
    ensures var r := ResetSpec(L, C, m, corrupted).mem;
      && Get(L, r, Magic) == C.magic && Get(L, r, NumExtruders) == C.numExtruders
      && Get(L, r, Baudrate) == C.baudrate && Get(L, r, Version) == C.protocolVersion
  {
    var m1 := RestoreMirror(C, m);
    var s1 := RestoreImage(L, C, ZeroImage(), m);
    StoreThenModesIdentity(L, C, s1, m1, corrupted, m1.operatingMode);
  }

  /** A reset leaves every usage counter at zero, whether or not the store
      was corrupted: the wipe comes before the store. */
  lemma ResetCounter(L: Layout, C: Config, m: Mirror, corrupted: bool, f: Field)
    requires ValidLayout(L) && ValidConfig(C) && WellFormed(C, m) && IsCounter(f)
    ensures Get(L, ResetSpec(L, C, m, corrupted).mem, f) == 0
  {
    var m1 := RestoreMirror(C, m);
    var s1 := RestoreImage(L, C, ZeroImage(), m);
    WipedField(L, C, m, f);
    StoreThenModesCounter(L, C, s1, m1, corrupted, m1.operatingMode, f);
  }

  /** After the wipe and the restore every field but the micro-step marker reads zero. */
  lemma WipedField(L: Layout, C: Config, m: Mirror, f: Field)
    requires ValidLayout(L) && ValidConfig(C) && WellFormed(C, m) && ValidField(f)
    ensures Get(L, RestoreImage(L, C, ZeroImage(), m), f) == 0
  {
    assert InBounds(L, f);
    ValueAtZeros(ZeroImage(), FieldAddr(L, f), KindOf(f));
  }

  /** The homing defaults name neither an identity field nor a counter. */
  lemma InitModesWritesUntouched(C: Config, mode: Mode, f: Field)
    requires ValidConfig(C) && (IsIdentity(f) || IsCounter(f))
    ensures Untouched(InitModesWrites(C, mode), f)
  {
  }

  /** A field no write names keeps its value through a checksum, the writes
      and another checksum. */
  lemma FrameThroughChecksums(L: Layout, s: seq<Byte>, ws: seq<Write>, f: Field)
    requires ValidLayout(L) && |s| == StoreSize && ValidWrites(ws) && ValidField(f) && Untouched(ws, f)
    ensures Get(L, WithChecksum(L, PutAll(L, WithChecksum(L, s), ws)), f) == Get(L, s, f)
  {
    WithChecksumKeepsFields(L, s);
    PutAllFrame(L, WithChecksum(L, s), ws, f);
    WithChecksumKeepsFields(L, PutAll(L, WithChecksum(L, s), ws));
  }

  /** The checksum and the homing defaults of a mode leave the identity
      fields and the counters as they are. */
  lemma ModesKeep(L: Layout, C: Config, s: seq<Byte>, mode: Mode, f: Field)
    requires ValidLayout(L) && ValidConfig(C) && |s| == StoreSize && (IsIdentity(f) || IsCounter(f))
    ensures Get(L, InitModesSpec(L, C, WithChecksum(L, s), mode), f) == Get(L, s, f)
    ensures Get(L, WithChecksum(L, s), f) == Get(L, s, f)
  {
    InitModesWritesUntouched(C, mode, f);
    FrameThroughChecksums(L, s, InitModesWrites(C, mode), f);
    WithChecksumKeepsFields(L, s);
  }

  /** A full store followed by the homing defaults of a mode names this
      build's EEPROM mode, extruder count and protocol version, and holds the
      mirror's baud rate. */
  lemma StoreThenModesIdentity(L: Layout, C: Config, s: seq<Byte>, m: Mirror, corrupted: bool, mode: Mode)
    requires ValidLayout(L) && ValidConfig(C) && WellFormed(C, m) && |s| == StoreSize
    ensures var r := InitModesSpec(L, C, StoreSpec(L, C, s, m, corrupted), mode);
      && Get(L, r, Magic) == C.magic && Get(L, r, NumExtruders) == C.numExtruders
      && Get(L, r, Baudrate) == m.baudrate && Get(L, r, Version) == C.protocolVersion
  {
    var s2 := PutAll(L, s, StoreWrites(C, m, corrupted));
    StoredMagic(L, C, s, m, corrupted);
    ModesKeep(L, C, s2, mode, Magic);
    StoredNumExtruders(L, C, s, m, corrupted);
    ModesKeep(L, C, s2, mode, NumExtruders);
    StoredBaudrate(L, C, s, m, corrupted);
    ModesKeep(L, C, s2, mode, Baudrate);
    StoredVersion(L, C, s, m, corrupted);
    ModesKeep(L, C, s2, mode, Version);
  }

  /** A counter that was zero is zero after a full store and the homing defaults. */
  lemma StoreThenModesCounter(L: Layout, C: Config, s: seq<Byte>, m: Mirror, corrupted: bool, mode: Mode, f: Field)
    requires ValidLayout(L) && ValidConfig(C) && WellFormed(C, m) && |s| == StoreSize
    requires IsCounter(f) && Get(L, s, f) == 0
    ensures Get(L, InitModesSpec(L, C, StoreSpec(L, C, s, m, corrupted), mode), f) == 0
  {
    StoredCounter(L, C, s, m, corrupted, f);
    ModesKeep(L, C, PutAll(L, s, StoreWrites(C, m, corrupted)), mode, f);
  }

  /** With the store mapped at offset 0, a reset leaves a consistent store. */
  lemma ResetConsistent(L: Layout, C: Config, m: Mirror, corrupted: bool)
    requires ValidLayout(L) && ValidConfig(C) && WellFormed(C, m) && L.eepromOffset == 0
    ensures Consistent(L, ResetSpec(L, C, m, corrupted).mem)
  {
    var m1 := RestoreMirror(C, m);
    var s2 := StoreSpec(L, C, RestoreImage(L, C, ZeroImage(), m), m1, corrupted);
    WithChecksumConsistent(L, PutAll(L, s2, InitModesWrites(C, m1.operatingMode)));
  }
  /** The migration to a newly added second extruder (lines 1089-1107): the
      defaults of its block in memory and in the store, the print-mode X
      length and the extruder count, then the checksum. */
  function GrowSpec(L: Layout, C: Config, s: seq<Byte>, m: Mirror): (r: Snapshot)
    requires ValidLayout(L) && ValidConfig(C) && WellFormed(C, m) && |s| == StoreSize && C.numExtruders == 2
    ensures |r.mem| == StoreSize && WellFormed(C, r.cfg)
  {
    var m1 := RestoreExtruderSpec(C, m, 1);
    var m2 := m1.(axisLength := m1.axisLength[0 := C.xLengthPrint]);
    Snapshot(WithChecksum(L, PutAll(L, StoreExtruderSpec(L, C, s, m1, 1), MigrationWrites(C))), m2)
  }

  /** The writes both migrations end with: the print-mode X length and the
      extruder count (lines 1098-1101 and 1111-1114). */
  function MigrationWrites(C: Config): (ws: seq<Write>)
    ensures ValidWrites(ws)
  {
    [Write(XLength(Print), C.xLengthPrint), Write(NumExtruders, C.numExtruders)]
  }

  /** The two migration writes, one after the other. */
  lemma MigrationWritesEffect(L: Layout, C: Config, s: seq<Byte>)
    requires ValidLayout(L) && |s| == StoreSize
    ensures PutAll(L, s, MigrationWrites(C))
      == Put(L, Put(L, s, XLength(Print), C.xLengthPrint), NumExtruders, C.numExtruders)
  {
    var w0 := Write(XLength(Print), C.xLengthPrint);
    var w1 := Write(NumExtruders, C.numExtruders);
    PutAllSnoc(L, s, [], w0);
    PutAllSnoc(L, s, [w0], w1);
    assert MigrationWrites(C) == [w0] + [w1];
  }

  /** The two migration writes and the checksum after them change no field
      but the print-mode X length and the extruder count, which end with this
      build's values. */
  lemma MigrationFacts(L: Layout, C: Config, s: seq<Byte>)
    requires ValidLayout(L) && ValidConfig(C) && |s| == StoreSize
    ensures var r := WithChecksum(L, PutAll(L, s, MigrationWrites(C)));
      && Get(L, r, NumExtruders) == C.numExtruders && Get(L, r, XLength(Print)) == C.xLengthPrint
      && forall f {:trigger Get(L, s, f)} :: ValidField(f) && f != NumExtruders && f != XLength(Print) ==> Get(L, r, f) == Get(L, s, f)
  {
    MigrationWritesEffect(L, C, s);
    WithChecksumKeepsFields(L, PutAll(L, s, MigrationWrites(C)));
  }

  /** Growing to two extruders writes the second block with this build's
      defaults for it, then the print-mode X length and the extruder count;
      no other field changes, and no byte outside the second block, those two
      fields and the integrity byte changes: the magic byte and the first
      extruder's block keep their values. */
  lemma GrowFacts(L: Layout, C: Config, s: seq<Byte>, m: Mirror)
    requires ValidLayout(L) && ValidConfig(C) && WellFormed(C, m) && |s| == StoreSize && C.numExtruders == 2
    ensures var r := GrowSpec(L, C, s, m).mem;
      && Get(L, r, NumExtruders) == C.numExtruders && Get(L, r, XLength(Print)) == C.xLengthPrint
      && (forall x :: Get(L, r, Ext(1, x)) == Norm(KindOf(Ext(1, x)), ExtValue(C, C.extruders[1], x)))
      && (forall f {:trigger Get(L, s, f)} :: ValidField(f) && f != NumExtruders && f != XLength(Print) && !(f.Ext? && f.extruder == 1)
           ==> Get(L, r, f) == Get(L, s, f))
      && (forall j :: 0 <= j < StoreSize && j != L.integrity
           && !(ExtruderOffset(L, 1) <= j < ExtruderOffset(L, 1) + L.extLength)
           && !Covers(L, NumExtruders, j) && !Covers(L, XLength(Print), j)
           ==> r[j] == s[j])
  {
    GrowKeepsFields(L, C, s, m);
    GrowWritesDefaults(L, C, s, m);
    GrowKeepsBytes(L, C, s, m);
  }

  lemma GrowKeepsFields(L: Layout, C: Config, s: seq<Byte>, m: Mirror)
    requires ValidLayout(L) && ValidConfig(C) && WellFormed(C, m) && |s| == StoreSize && C.numExtruders == 2
    ensures var r := GrowSpec(L, C, s, m).mem;
      && Get(L, r, NumExtruders) == C.numExtruders && Get(L, r, XLength(Print)) == C.xLengthPrint
      && forall f {:trigger Get(L, s, f)} :: ValidField(f) && f != NumExtruders && f != XLength(Print) && !(f.Ext? && f.extruder == 1)
           ==> Get(L, r, f) == Get(L, s, f)
  {
    var m1 := RestoreExtruderSpec(C, m, 1);
    var s1 := StoreExtruderSpec(L, C, s, m1, 1);
    MigrationFacts(L, C, s1);
    forall f | ValidField(f) && !(f.Ext? && f.extruder == 1)
      ensures Get(L, s1, f) == Get(L, s, f)
    {
      ExtruderWritesOnlyBlock(C, m1, 1, f);
      PutAllFrame(L, s, ExtruderWrites(C, m1, 1), f);
    }
  }

  lemma GrowWritesDefaults(L: Layout, C: Config, s: seq<Byte>, m: Mirror)
    requires ValidLayout(L) && ValidConfig(C) && WellFormed(C, m) && |s| == StoreSize && C.numExtruders == 2
    ensures forall x :: Get(L, GrowSpec(L, C, s, m).mem, Ext(1, x)) == Norm(KindOf(Ext(1, x)), ExtValue(C, C.extruders[1], x))
  {
    forall x
      ensures Get(L, GrowSpec(L, C, s, m).mem, Ext(1, x)) == Norm(KindOf(Ext(1, x)), ExtValue(C, C.extruders[1], x))
    {
      GrowWritesDefault(L, C, s, m, x);
    }
  }

  lemma GrowWritesDefault(L: Layout, C: Config, s: seq<Byte>, m: Mirror, x: ExtField)
    requires ValidLayout(L) && ValidConfig(C) && WellFormed(C, m) && |s| == StoreSize && C.numExtruders == 2
    ensures Get(L, GrowSpec(L, C, s, m).mem, Ext(1, x)) == Norm(KindOf(Ext(1, x)), ExtValue(C, C.extruders[1], x))
  {
    var m1 := RestoreExtruderSpec(C, m, 1);
    var s1 := StoreExtruderSpec(L, C, s, m1, 1);
    MigrationKeeps(L, C, s1, Ext(1, x));
    ExtruderStored(L, C, s, m1, 1, x);
  }

  /** The migration writes and the checksum after them keep any other field. */
  lemma MigrationKeeps(L: Layout, C: Config, s: seq<Byte>, f: Field)
    requires ValidLayout(L) && |s| == StoreSize && ValidField(f) && f != NumExtruders && f != XLength(Print)
    ensures Get(L, WithChecksum(L, PutAll(L, s, MigrationWrites(C))), f) == Get(L, s, f)
  {
    PutAllFrame(L, s, MigrationWrites(C), f);
    WithChecksumKeepsFields(L, PutAll(L, s, MigrationWrites(C)));
  }

  /** Storing one extruder's block leaves each of its fields with its value. */
  lemma ExtruderStored(L: Layout, C: Config, s: seq<Byte>, m: Mirror, e: int, x: ExtField)
    requires ValidLayout(L) && WellFormed(C, m) && |s| == StoreSize && 0 <= e < |m.extruders| && e < MaxExtruders
    ensures Get(L, StoreExtruderSpec(L, C, s, m, e), Ext(e, x)) == Norm(KindOf(Ext(e, x)), ExtValue(C, m.extruders[e], x))
  {
    var ws := ExtruderWrites(C, m, e);
    ExtruderExactly(C, m, e, x);
    WrittenField(L, s, ws, Ext(e, x), ExtValue(C, m.extruders[e], x));
  }

  lemma WrittenField(L: Layout, s: seq<Byte>, ws: seq<Write>, f: Field, v: int)
    requires ValidLayout(L) && |s| == StoreSize && ValidWrites(ws) && ValidField(f)
    requires WritesExactly(ws, f, Some(v))
    ensures Get(L, PutAll(L, s, ws), f) == Norm(KindOf(f), v)
  {
    PutAllWritten(L, s, ws, f, v);
  }

  lemma GrowKeepsBytes(L: Layout, C: Config, s: seq<Byte>, m: Mirror)
    requires ValidLayout(L) && ValidConfig(C) && WellFormed(C, m) && |s| == StoreSize && C.numExtruders == 2
    ensures var r := GrowSpec(L, C, s, m).mem;
      forall j :: 0 <= j < StoreSize && j != L.integrity
        && !(ExtruderOffset(L, 1) <= j < ExtruderOffset(L, 1) + L.extLength)
        && !Covers(L, NumExtruders, j) && !Covers(L, XLength(Print), j)
        ==> r[j] == s[j]
  {
    var m1 := RestoreExtruderSpec(C, m, 1);
    var s1 := StoreExtruderSpec(L, C, s, m1, 1);
    var s2 := PutAll(L, s1, MigrationWrites(C));
    forall j | 0 <= j < StoreSize && j != L.integrity
        && !(ExtruderOffset(L, 1) <= j < ExtruderOffset(L, 1) + L.extLength)
        && !Covers(L, NumExtruders, j) && !Covers(L, XLength(Print), j)
      ensures WithChecksum(L, s2)[j] == s[j]
    {
      GrowKeepsByte(L, C, s, m1, j);
    }
  }

  lemma GrowKeepsByte(L: Layout, C: Config, s: seq<Byte>, m1: Mirror, j: int)
    requires ValidLayout(L) && WellFormed(C, m1) && |s| == StoreSize && 2 <= |m1.extruders|
    requires 0 <= j < StoreSize && !(ExtruderOffset(L, 1) <= j < ExtruderOffset(L, 1) + L.extLength)
    requires !Covers(L, NumExtruders, j) && !Covers(L, XLength(Print), j)
    ensures PutAll(L, StoreExtruderSpec(L, C, s, m1, 1), MigrationWrites(C))[j] == s[j]
  {
    ExtruderKeepsByte(L, C, s, m1, 1, j);
    PutAllByteFrame(L, StoreExtruderSpec(L, C, s, m1, 1), MigrationWrites(C), j);
  }

  /** Storing one extruder's block changes no byte outside the block. */
  lemma ExtruderKeepsByte(L: Layout, C: Config, s: seq<Byte>, m: Mirror, e: int, j: int)
    requires ValidLayout(L) && WellFormed(C, m) && |s| == StoreSize && 0 <= e < |m.extruders| && e < MaxExtruders
    requires 0 <= j < StoreSize && !(ExtruderOffset(L, e) <= j < ExtruderOffset(L, e) + L.extLength)
    ensures StoreExtruderSpec(L, C, s, m, e)[j] == s[j]
  {
    ExtruderBytes(L, C, m, e, j);
    PutAllByteFrame(L, s, ExtruderWrites(C, m, e), j);
  }

  /** An extruder block writes every field of the block with its value. */
  lemma ExtruderExactly(C: Config, m: Mirror, e: int, x: ExtField)
    requires WellFormed(C, m) && 0 <= e < |m.extruders| && e < MaxExtruders
    ensures WritesExactly(ExtruderWrites(C, m, e), Ext(e, x), Some(ExtValue(C, m.extruders[e], x)))
  {
    ExtruderWriteAt(C, m, e, x);
    ExtruderBlockValues(C, m, e);
  }

  /** An extruder block covers no byte outside the block. */
  lemma ExtruderBytes(L: Layout, C: Config, m: Mirror, e: int, j: int)
    requires ValidLayout(L) && WellFormed(C, m) && 0 <= e < |m.extruders| && e < MaxExtruders
    requires !(ExtruderOffset(L, e) <= j < ExtruderOffset(L, e) + L.extLength)
    ensures ByteUntouched(L, ExtruderWrites(C, m, e), j)
  {
    var ws := ExtruderWrites(C, m, e);
    ExtruderBlockValues(C, m, e);
    forall i | 0 <= i < |ws|
      ensures !Covers(L, ws[i].field, j)
    {
      assert InBlock(L, ws[i].field.field);
    }
  }

  /** A removed second extruder (lines 1109-1122). */
  function ShrinkSpec(L: Layout, C: Config, s: seq<Byte>, m: Mirror): (r: Snapshot)
    requires ValidLayout(L) && ValidConfig(C) && WellFormed(C, m) && |s| == StoreSize
    ensures |r.mem| == StoreSize && WellFormed(C, r.cfg)
  {
    Snapshot(WithChecksum(L, PutAll(L, s, MigrationWrites(C))), m.(axisLength := m.axisLength[0 := C.xLengthPrint]))
  }
}
