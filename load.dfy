/** readDataFromEEPROM (lines 589-1046) as a chain of steps over the store
    image, the mirror and the `change` flag. Every step reads stored fields
    into the mirror and, where a guard rejects a stored value, writes a fix
    back and raises `change`. */
module Load {
  import opened Bytes
  import opened Float32
  import opened Layout
  import opened Settings
  import opened Writes
  import opened Checksum
  import opened Persist

  /** The state a load step works on: store image, mirror, and the `change` flag. */
  datatype St = St(store: Store, cfg: Mirror, change: bool) {
    const mem: seq<Byte> := store.bytes
  }

  /** The store image as a load step sees it: the 2048 bytes of the EEPROM. */
  datatype Store = Store(bytes: seq<Byte>)

  ghost predicate Good(L: Layout, C: Config, st: St) {
    ValidLayout(L) && ValidConfig(C) && |st.mem| == StoreSize && WellFormed(C, st.cfg)
  }

  /** A load step writes the store only when it raises `change`, and never lowers `change`. */
  ghost predicate Step(st: St, r: St) {
    (st.change ==> r.change) && (r.mem == st.mem || r.change)
  }

  /** A step that only reads: the store and the flag stay as they are. */
  ghost predicate ReadOnly(st: St, r: St) {
    r.mem == st.mem && r.change == st.change
  }

  function SetExt(m: Mirror, e: int, x: Extruder): Mirror
    requires 0 <= e < |m.extruders|
  {
    m.(extruders := m.extruders[e := x])
  }

  /** Replacing one extruder by a well-formed one keeps the mirror well formed. */
  lemma SetExtWellFormed(C: Config, m: Mirror, e: int, x: Extruder)
    requires WellFormed(C, m) && 0 <= e < |m.extruders| && WellFormedExtruder(x)
    ensures WellFormed(C, SetExt(m, e, x))
  {
  }

  // ------------------------------------------------------------ lines 594-613

  /** Serial, timeouts and steps per mm are taken as stored. */
  function LoadHeader(L: Layout, C: Config, st: St): (r: St)
    requires Good(L, C, st)
    ensures Good(L, C, r) && ReadOnly(st, r)
  {
    var s := st.mem;
    st.(cfg := st.cfg.(
      baudrate := GetInt32(L, s, Baudrate),
      maxInactiveTime := GetInt32(L, s, MaxInactiveTime),
      stepperInactiveTime := GetInt32(L, s, StepperInactiveTime),
      axisStepsPerMM := [GetFloat(L, s, AxisStepsPerMM(0)), GetFloat(L, s, AxisStepsPerMM(1)),
                         GetFloat(L, s, AxisStepsPerMM(2))]))
  }

  /** A stored max feed rate above the limit in memory is overwritten with that limit. */
  function MaxFeedrateAxis(L: Layout, C: Config, st: St, a: Axis): (r: St)
    requires Good(L, C, st)
    ensures Good(L, C, r) && Step(st, r)
  {
    var tmp := GetFloat(L, st.mem, AxisMaxFeedrate(a));
    var limit := st.cfg.maxFeedrate[a];
    if Lt(limit, tmp) then St(Store(Put(L, st.mem, AxisMaxFeedrate(a), limit)), st.cfg, true)
    else st.(cfg := st.cfg.(maxFeedrate := st.cfg.maxFeedrate[a := tmp]))
  }

  /** The max feed rates start from their defaults; then axes 0 .. n-1 are checked. */
  function MaxFeedrateUpTo(L: Layout, C: Config, st: St, n: nat): (r: St)
    requires Good(L, C, st) && n <= 3
    ensures Good(L, C, r) && Step(st, r)
  {
    if n == 0 then st.(cfg := st.cfg.(maxFeedrate := C.maxFeedrate))
    else MaxFeedrateAxis(L, C, MaxFeedrateUpTo(L, C, st, n - 1), n - 1)
  }

  // ------------------------------------------------------------ lines 615-669

  /** Z offset and mode, move modes and flags, and jerks, taken as stored. */
  function LoadMisc(L: Layout, C: Config, st: St): (r: St)
    requires Good(L, C, st)
    ensures Good(L, C, r) && ReadOnly(st, r)
  {
    var s := st.mem;
    st.(cfg := st.cfg.(
      zOffset := GetInt32(L, s, ZOffset), zMode := GetByte(L, s, ZMode),
      moveMode := [GetByte(L, s, MoveMode(0)), GetByte(L, s, MoveMode(1)), GetByte(L, s, MoveMode(2))],
      moveKosys := GetByte(L, s, MoveKosys) != 0,
      movePositionFeedrate := GetByte(L, s, MovePositionFeedrate) != 0,
      maxXYJerk := GetFloat(L, s, MaxXYJerk), maxZJerk := GetFloat(L, s, MaxZJerk)))
  }

  function AccelField(travel: bool, a: Axis): Field {
    if travel then MaxTravelAccel(a) else MaxAccel(a)
  }

  function AccelOf(m: Mirror, travel: bool): seq<Float> {
    if travel then m.maxTravelAccel else m.maxAccel
  }

  function AccelDefault(C: Config, travel: bool, a: Axis): Float
    requires ValidConfig(C)
  {
    if travel then C.maxTravelAccel[a] else C.maxAccel[a]
  }

  function WithAccel(m: Mirror, travel: bool, v: seq<Float>): Mirror {
    if travel then m.(maxTravelAccel := v) else m.(maxAccel := v)
  }

  /** The three stored (travel) accelerations are read into memory. */
  function ReadAccels(L: Layout, C: Config, st: St, travel: bool): (r: St)
    requires Good(L, C, st)
    ensures Good(L, C, r) && ReadOnly(st, r)
  {
    var s := st.mem;
    var v := [GetFloat(L, s, AccelField(travel, 0)), GetFloat(L, s, AccelField(travel, 1)),
              GetFloat(L, s, AccelField(travel, 2))];
    st.(cfg := WithAccel(st.cfg, travel, v))
  }

  /** An acceleration outside its window becomes the default in memory and in the store. */
  function AccelCheck(L: Layout, C: Config, st: St, travel: bool, a: Axis): (r: St)
    requires Good(L, C, st)
    ensures Good(L, C, r) && Step(st, r)
  {
    var v := AccelOf(st.cfg, travel)[a];
    if !AccelOk(C, a, v) then
      var d := AccelDefault(C, travel, a);
      St(Store(Put(L, st.mem, AccelField(travel, a), d)),
         WithAccel(st.cfg, travel, AccelOf(st.cfg, travel)[a := d]), true)
    else st
  }

  /** Read, then check X, Y and Z. */
  function LoadAccelGroup(L: Layout, C: Config, st: St, travel: bool): (r: St)
    requires Good(L, C, st)
    ensures Good(L, C, r) && Step(st, r)
  {
    var s0 := ReadAccels(L, C, st, travel);
    AccelCheck(L, C, AccelCheck(L, C, AccelCheck(L, C, s0, travel, 0), travel, 1), travel, 2)
  }

  function LoadAccels(L: Layout, C: Config, st: St): (r: St)
    requires Good(L, C, st)
    ensures Good(L, C, r) && Step(st, r)
  {
    LoadAccelGroup(L, C, LoadAccelGroup(L, C, st, false), true)
  }

  // ------------------------------------------------------------ lines 672-701

  /** The bed controller is taken as stored; a zero sensor type means the default. */
  function LoadBed(L: Layout, C: Config, st: St): (r: St)
    requires Good(L, C, st)
    ensures Good(L, C, r) && ReadOnly(st, r)
  {
    var s := st.mem;
    var sensor := GetByte(L, s, BedSensorType);
    st.(cfg := st.cfg.(bed := Heater(
      GetByte(L, s, BedDriveMax), GetByte(L, s, BedDriveMin),
      GetFloat(L, s, BedPGain), GetFloat(L, s, BedIGain), GetFloat(L, s, BedDGain),
      GetByte(L, s, BedPidMax), if sensor != 0 then sensor else C.bed.sensorType)))
  }

  /** The X length of the mode in memory; out of (0, 245] it becomes the mode's default. */
  function LoadXLength(L: Layout, C: Config, st: St): (r: St)
    requires Good(L, C, st)
    ensures Good(L, C, r) && Step(st, r)
  {
    var mode := st.cfg.operatingMode;
    var v := GetFloat(L, st.mem, XLength(mode));
    if !XLengthOk(v) then
      var d := XLengthDefault(C, mode);
      St(Store(Put(L, st.mem, XLength(mode), d)), st.cfg.(axisLength := st.cfg.axisLength[0 := d]), true)
    else st.(cfg := st.cfg.(axisLength := st.cfg.axisLength[0 := v]))
  }

  function LoadYZLength(L: Layout, C: Config, st: St): (r: St)
    requires Good(L, C, st)
    ensures Good(L, C, r) && ReadOnly(st, r)
  {
    var s := st.mem;
    st.(cfg := st.cfg.(axisLength := st.cfg.axisLength[1 := GetFloat(L, s, YLength)][2 := GetFloat(L, s, ZLength)]))
  }

  // ------------------------------------------------------------ lines 704-799

  /** Steps per mm below 5540 are taken; otherwise the value in memory is written back. */
  function ExtSteps(L: Layout, C: Config, st: St, e: int): (r: St)
    requires Good(L, C, st) && 0 <= e < C.numExtruders
    ensures Good(L, C, r) && Step(st, r)
  {
    var x := st.cfg.extruders[e];
    var tmp := GetFloat(L, st.mem, Ext(e, StepsPerMM));
    if ExtStepsOk(tmp) then st.(cfg := SetExt(st.cfg, e, x.(stepsPerMM := tmp)))
    else St(Store(Put(L, st.mem, Ext(e, StepsPerMM), x.stepsPerMM)), st.cfg, true)
  }

  /** A max feed rate in (0, 100) is taken; otherwise the value in memory is written back. */
  function ExtFeedrate(L: Layout, C: Config, st: St, e: int): (r: St)
    requires Good(L, C, st) && 0 <= e < C.numExtruders
    ensures Good(L, C, r) && Step(st, r)
  {
    var x := st.cfg.extruders[e];
    var tmp := GetFloat(L, st.mem, Ext(e, MaxFeedrate));
    if ExtFeedrateOk(tmp) then st.(cfg := SetExt(st.cfg, e, x.(maxFeedrate := tmp)))
    else St(Store(Put(L, st.mem, Ext(e, MaxFeedrate), x.maxFeedrate)), st.cfg, true)
  }

  /** A start feed rate in (0, maxFeedrate] is taken; otherwise min(maxFeedrate, value in memory)
      becomes the value in memory and in the store. */
  function ExtStartFeedrate(L: Layout, C: Config, st: St, e: int): (r: St)
    requires Good(L, C, st) && 0 <= e < C.numExtruders
    ensures Good(L, C, r) && Step(st, r)
  {
    var x := st.cfg.extruders[e];
    var tmp := GetFloat(L, st.mem, Ext(e, MaxStartFeedrate));
    if ExtStartFeedrateOk(tmp, x.maxFeedrate) then st.(cfg := SetExt(st.cfg, e, x.(maxStartFeedrate := tmp)))
    else
      var v := Min(x.maxFeedrate, x.maxStartFeedrate);
      St(Store(Put(L, st.mem, Ext(e, MaxStartFeedrate), v)), SetExt(st.cfg, e, x.(maxStartFeedrate := v)), true)
  }

  /** An acceleration in (0, 10000) is taken; otherwise the value in memory is written back. */
  function ExtAccel(L: Layout, C: Config, st: St, e: int): (r: St)
    requires Good(L, C, st) && 0 <= e < C.numExtruders
    ensures Good(L, C, r) && Step(st, r)
  {
    var x := st.cfg.extruders[e];
    var tmp := GetFloat(L, st.mem, Ext(e, MaxAcceleration));
    if ExtAccelOk(tmp) then st.(cfg := SetExt(st.cfg, e, x.(maxAcceleration := tmp)))
    else St(Store(Put(L, st.mem, Ext(e, MaxAcceleration), x.maxAcceleration)), st.cfg, true)
  }

  /** A sentinel drive pair is replaced by the extruder's defaults, written min first. */
  function ExtDrive(L: Layout, C: Config, st: St, e: int): (r: St)
    requires Good(L, C, st) && 0 <= e < C.numExtruders
    ensures Good(L, C, r) && Step(st, r)
  {
    var x := st.cfg.extruders[e];
    var dmax := GetByte(L, st.mem, Ext(e, DriveMax));
    var dmin := GetByte(L, st.mem, Ext(e, DriveMin));
    if DriveSentinel(dmin, dmax) then
      var d := C.extruders[e].heater;
      var s1 := Put(L, st.mem, Ext(e, DriveMin), d.driveMin);
      St(Store(Put(L, s1, Ext(e, DriveMax), d.driveMax)),
         SetExt(st.cfg, e, x.(heater := x.heater.(driveMin := d.driveMin, driveMax := d.driveMax))), true)
    else st.(cfg := SetExt(st.cfg, e, x.(heater := x.heater.(driveMin := dmin, driveMax := dmax))))
  }

  /** The PID gains are taken as stored. */
  function ExtGains(L: Layout, C: Config, st: St, e: int): (r: St)
    requires Good(L, C, st) && 0 <= e < C.numExtruders
    ensures Good(L, C, r) && ReadOnly(st, r)
  {
    var x := st.cfg.extruders[e];
    var s := st.mem;
    st.(cfg := SetExt(st.cfg, e, x.(heater := x.heater.(
      pGain := GetFloat(L, s, Ext(e, PidPGain)), iGain := GetFloat(L, s, Ext(e, PidIGain)),
      dGain := GetFloat(L, s, Ext(e, PidDGain))))))
  }

  /** A zero PID maximum is replaced in the store by the value in memory. */
  function ExtPidMax(L: Layout, C: Config, st: St, e: int): (r: St)
    requires Good(L, C, st) && 0 <= e < C.numExtruders
    ensures Good(L, C, r) && Step(st, r)
  {
    var x := st.cfg.extruders[e];
    var b := GetByte(L, st.mem, Ext(e, PidMax));
    if b > 0 then st.(cfg := SetExt(st.cfg, e, x.(heater := x.heater.(pidMax := b))))
    else St(Store(Put(L, st.mem, Ext(e, PidMax), x.heater.pidMax)), st.cfg, true)
  }

  /** A sensor type in 1..100 is taken; any other is ignored without a repair. */
  function ExtSensor(L: Layout, C: Config, st: St, e: int): (r: St)
    requires Good(L, C, st) && 0 <= e < C.numExtruders
    ensures Good(L, C, r) && ReadOnly(st, r)
  {
    var x := st.cfg.extruders[e];
    var b := GetByte(L, st.mem, Ext(e, SensorType));
    if SensorTypeOk(b) then st.(cfg := SetExt(st.cfg, e, x.(heater := x.heater.(sensorType := b))))
    else st
  }

  /** The three offsets are read into memory as stored. */
  function ReadOffsets(L: Layout, C: Config, st: St, e: int): (r: St)
    requires Good(L, C, st) && 0 <= e < C.numExtruders
    ensures Good(L, C, r) && ReadOnly(st, r)
  {
    var s := st.mem;
    var x := st.cfg.extruders[e].(offset :=
      [GetFloat(L, s, Ext(e, OffsetX)), GetFloat(L, s, Ext(e, OffsetY)), GetFloat(L, s, Ext(e, OffsetZ))]);
    SetExtWellFormed(C, st.cfg, e, x);
    st.(cfg := SetExt(st.cfg, e, x))
  }

  /** A positive Z offset in memory becomes 0 in memory and in the store. */
  function OffsetZCheck(L: Layout, C: Config, st: St, e: int): (r: St)
    requires Good(L, C, st) && 0 <= e < C.numExtruders
    ensures Good(L, C, r) && Step(st, r)
  {
    var x := st.cfg.extruders[e];
    if OffsetZOk(x.offset[2]) then st
    else
      var x' := x.(offset := [x.offset[0], x.offset[1], Zero]);
      SetExtWellFormed(C, st.cfg, e, x');
      St(Store(Put(L, st.mem, Ext(e, OffsetZ), Zero)), SetExt(st.cfg, e, x'), true)
  }

  /** Offsets are taken as stored; a positive Z offset becomes 0 in memory and in the store. */
  function ExtOffsets(L: Layout, C: Config, st: St, e: int): (r: St)
    requires Good(L, C, st) && 0 <= e < C.numExtruders
    ensures Good(L, C, r) && Step(st, r)
  {
    OffsetZCheck(L, C, ReadOffsets(L, C, st, e), e)
  }

  /** The cooler speed exists from store version 2 on. */
  function ExtCooler(L: Layout, C: Config, st: St, e: int, version: Byte): (r: St)
    requires Good(L, C, st) && 0 <= e < C.numExtruders
    ensures Good(L, C, r) && ReadOnly(st, r)
  {
    var x := st.cfg.extruders[e];
    if version > 1 then st.(cfg := SetExt(st.cfg, e, x.(coolerSpeed := GetByte(L, st.mem, Ext(e, CoolerSpeed)))))
    else st
  }

  /** Limits of the extruder's motion (lines 707-737). */
  function ExtMotion(L: Layout, C: Config, st: St, e: int): (r: St)
    requires Good(L, C, st) && 0 <= e < C.numExtruders
    ensures Good(L, C, r) && Step(st, r)
  {
    ExtAccel(L, C, ExtStartFeedrate(L, C, ExtFeedrate(L, C, ExtSteps(L, C, st, e), e), e), e)
  }

  /** The extruder's heater, offsets and cooler (lines 739-798). */
  function ExtHeater(L: Layout, C: Config, st: St, e: int, version: Byte): (r: St)
    requires Good(L, C, st) && 0 <= e < C.numExtruders
    ensures Good(L, C, r) && Step(st, r)
  {
    var s1 := ExtPidMax(L, C, ExtGains(L, C, ExtDrive(L, C, st, e), e), e);
    ExtCooler(L, C, ExtOffsets(L, C, ExtSensor(L, C, s1, e), e), e, version)
  }

  function LoadExtruder(L: Layout, C: Config, st: St, e: int, version: Byte): (r: St)
    requires Good(L, C, st) && 0 <= e < C.numExtruders
    ensures Good(L, C, r) && Step(st, r)
  {
    ExtHeater(L, C, ExtMotion(L, C, st, e), e, version)
  }

  /** Extruders 0 .. n-1 loaded in order. */
  function ExtrudersUpTo(L: Layout, C: Config, st: St, n: nat, version: Byte): (r: St)
    requires Good(L, C, st) && n <= C.numExtruders
    ensures Good(L, C, r) && Step(st, r)
    decreases n, 1
  {
    if n == 0 then st else ExtrudersThrough(L, C, st, n - 1, version)
  }

  /** The state after extruder blocks 0..e. */
  function ExtrudersThrough(L: Layout, C: Config, st: St, e: nat, version: Byte): (r: St)
    requires Good(L, C, st) && e < C.numExtruders
    ensures Good(L, C, r) && Step(st, r)
    decreases e + 1, 0
  {
    LoadExtruder(L, C, ExtrudersUpTo(L, C, st, e, version), e, version)
  }

  ghost predicate ExtrudersLoaded(L: Layout, C: Config, st: St, n: nat, version: Byte, r: St)
    requires Good(L, C, st) && n <= C.numExtruders
  {
    r == ExtrudersUpTo(L, C, st, n, version)
  }

  // ------------------------------------------------------------ lines 840-1013

  /** Any stored mode byte but the mill code means printing. */
  function StoredMode(L: Layout, C: Config, s: seq<Byte>): Mode
    requires ValidLayout(L) && |s| == StoreSize
  {
    if GetByte(L, s, OperatingMode) == C.millCode then Mill else Print
  }

  /** A stored homing feed rate of the loaded mode above the loaded max feed
      rate is overwritten with the default; otherwise it is taken. */
  function HomingAxis(L: Layout, C: Config, st: St, a: Axis): (r: St)
    requires Good(L, C, st)
    ensures Good(L, C, r) && Step(st, r)
  {
    var f := HomingFeedrate(st.cfg.operatingMode, a);
    var tmp := GetFloat(L, st.mem, f);
    if Lt(st.cfg.maxFeedrate[a], tmp) then St(Store(Put(L, st.mem, f, st.cfg.homingFeedrate[a])), st.cfg, true)
    else st.(cfg := st.cfg.(homingFeedrate := st.cfg.homingFeedrate[a := tmp]))
  }

  /** The mode is loaded and its homing defaults set; then axes 0 .. n-1 are checked. */
  function HomingUpTo(L: Layout, C: Config, st: St, n: nat): (r: St)
    requires Good(L, C, st) && n <= 3
    ensures Good(L, C, r) && Step(st, r)
  {
    if n == 0 then
      var mode := StoredMode(L, C, st.mem);
      st.(cfg := st.cfg.(operatingMode := mode, homingFeedrate := HomingDefaults(C, mode)))
    else HomingAxis(L, C, HomingUpTo(L, C, st, n - 1), n - 1)
  }

  /** The Arduino `constrain` macro. */
  function Constrain(x: int, lo: int, hi: int): (r: int)
    ensures r == x || r == lo || r == hi
    ensures lo <= hi ==> lo <= r <= hi
    ensures lo <= x <= hi ==> r == x
  {
    if x < lo then lo else if x > hi then hi else x
  }

  /** The Z step size, read as an unsigned short and constrained to [1, largest table entry]. */
  function LoadManualSteps(L: Layout, C: Config, st: St): (r: St)
    requires Good(L, C, st)
    ensures Good(L, C, r) && ReadOnly(st, r)
  {
    var raw := GetInt16(L, st.mem, ZStepSize) % 0x1_0000;
    st.(cfg := st.cfg.(manualStepsZ := Constrain(raw, 1, C.stepTableMax)))
  }

  /** A milling acceleration that is not positive becomes the default in memory and in the store. */
  function LoadMillAccel(L: Layout, C: Config, st: St): (r: St)
    requires Good(L, C, st)
    ensures Good(L, C, r) && Step(st, r)
  {
    var v := GetInt16(L, st.mem, MillAcceleration);
    if v <= 0 then
      St(Store(Put(L, st.mem, MillAcceleration, C.millerAcceleration)), st.cfg.(millAcceleration := C.millerAcceleration), true)
    else st.(cfg := st.cfg.(millAcceleration := v))
  }

  /** A motor current within [min, max] is taken; otherwise only the store
      receives the normal current, and memory keeps its value. */
  function MotorCurrentChannel(L: Layout, C: Config, st: St, ch: int): (r: St)
    requires Good(L, C, st) && 0 <= ch < C.channels
    ensures Good(L, C, r) && Step(st, r)
  {
    var b := GetByte(L, st.mem, MotorCurrent(ch));
    if MotorCurrentOk(C, ch, b) then st.(cfg := st.cfg.(motorCurrent := st.cfg.motorCurrent[ch := b]))
    else St(Store(Put(L, st.mem, MotorCurrent(ch), C.motorCurrentNormal[ch])), st.cfg, true)
  }

  /** The state after channels 0..n-1 of the motor current loop. */
  function MotorCurrentUpTo(L: Layout, C: Config, st: St, n: nat): (r: St)
    requires Good(L, C, st) && n <= C.channels
    ensures Good(L, C, r) && Step(st, r)
    decreases n, 1
  {
    if n == 0 then st else MotorCurrentThrough(L, C, st, n - 1)
  }

  /** The state after channels 0..ch of the motor current loop. */
  function MotorCurrentThrough(L: Layout, C: Config, st: St, ch: nat): (r: St)
    requires Good(L, C, st) && ch < C.channels
    ensures Good(L, C, r) && Step(st, r)
    decreases ch + 1, 0
  {
    MotorCurrentChannel(L, C, MotorCurrentUpTo(L, C, st, ch), ch)
  }

  ghost predicate MotorCurrentsLoaded(L: Layout, C: Config, st: St, n: nat, r: St)
    requires Good(L, C, st) && n <= C.channels
  {
    r == MotorCurrentUpTo(L, C, st, n)
  }

  /** A zero step packing interval becomes the default in memory and in the
      store; any other is constrained to [min, max] in memory only. */
  function LoadStepPacking(L: Layout, C: Config, st: St): (r: St)
    requires Good(L, C, st)
    ensures Good(L, C, r) && Step(st, r)
  {
    var v := GetInt16(L, st.mem, StepPackingMinInterval);
    if v == 0 then
      St(Store(Put(L, st.mem, StepPackingMinInterval, C.stepPacking)), st.cfg.(stepsPackingMinInterval := C.stepPacking), true)
    else
      st.(cfg := st.cfg.(stepsPackingMinInterval := Constrain(v, C.stepPackingMin, C.stepPackingMax)))
  }

  // ------------------------------------------------------------ the whole load

  /** Everything up to the X, Y and Z lengths (lines 594-701). */
  function LoadAxes(L: Layout, C: Config, st: St): (r: St)
    requires Good(L, C, st)
    ensures Good(L, C, r) && Step(st, r)
  {
    var s2 := MaxFeedrateUpTo(L, C, LoadHeader(L, C, st), 3);
    var s4 := LoadAccels(L, C, LoadMisc(L, C, s2));
    LoadYZLength(L, C, LoadXLength(L, C, LoadBed(L, C, s4)))
  }

  /** Everything after the extruders (lines 840-1013). */
  function LoadRest(L: Layout, C: Config, st: St): (r: St)
    requires Good(L, C, st)
    ensures Good(L, C, r) && Step(st, r)
  {
    var s8 := HomingUpTo(L, C, st, 3);
    var s9 := LoadMillAccel(L, C, LoadManualSteps(L, C, s8));
    LoadStepPacking(L, C, MotorCurrentUpTo(L, C, s9, C.channels))
  }

  /** All field steps, with the version byte read before any of them. */
  function LoadFields(L: Layout, C: Config, st: St, version: Byte): (r: St)
    requires Good(L, C, st)
    ensures Good(L, C, r) && Step(st, r)
  {
    LoadRest(L, C, ExtrudersUpTo(L, C, LoadAxes(L, C, st), C.numExtruders, version))
  }

  /** The end of a load: one checksum if any field was repaired, then a full
      store when the stored version is not the current one (lines 1034-1040). */
  function FinishLoad(L: Layout, C: Config, f: St, version: Byte): (r: St)
    requires Good(L, C, f)
    ensures Good(L, C, r)
  {
    var s1 := if f.change then WithChecksum(L, f.mem) else f.mem;
    var s2 := if version != C.protocolVersion then StoreSpec(L, C, s1, f.cfg, false) else s1;
    St(Store(s2), f.cfg, f.change)
  }

  /** How often the end of a load rewrites the integrity byte: once for the
      repairs, once more inside the full store of a changed version. */
  function FinishChecksumWrites(C: Config, change: bool, version: Byte): nat {
    (if change then 1 else 0) + (if version != C.protocolVersion then 1 else 0)
  }

  /** The whole load: the version byte, the field steps, then the end of the load. */
  function LoadSpec(L: Layout, C: Config, st: St): (r: St)
    requires Good(L, C, st)
    ensures Good(L, C, r)
  {
    var version := GetByte(L, st.mem, Version);
    FinishLoad(L, C, LoadFields(L, C, st, version), version)
  }

  function LoadChecksumWrites(L: Layout, C: Config, st: St): nat
    requires Good(L, C, st)
  {
    var version := GetByte(L, st.mem, Version);
    FinishChecksumWrites(C, LoadFields(L, C, st, version).change, version)
  }

  /** With the store mapped at offset 0, a load leaves a consistent store
      consistent: it writes a field only when it also rewrites the checksum,
      and the full store of a changed version ends with the checksum. */
  lemma LoadKeepsConsistent(L: Layout, C: Config, st: St)
    requires Good(L, C, st) && L.eepromOffset == 0 && Consistent(L, st.mem)
    ensures Consistent(L, LoadSpec(L, C, st).mem)
  {
    var version := GetByte(L, st.mem, Version);
    var f := LoadFields(L, C, st, version);
    FinishConsistent(L, C, st, f, version);
  }

  lemma FinishConsistent(L: Layout, C: Config, st: St, f: St, version: Byte)
    requires Good(L, C, st) && Good(L, C, f) && L.eepromOffset == 0 && Consistent(L, st.mem) && Step(st, f)
    ensures Consistent(L, FinishLoad(L, C, f, version).mem)
  {
    var s1 := if f.change then WithChecksum(L, f.mem) else f.mem;
    if f.change {
      WithChecksumConsistent(L, f.mem);
    }
    if version != C.protocolVersion {
      WithChecksumConsistent(L, PutAll(L, s1, StoreWrites(C, f.cfg, false)));
    }
  }
}
