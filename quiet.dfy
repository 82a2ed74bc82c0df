/** When a load repairs nothing. Every guard of readDataFromEEPROM (lines
    589-1046) is stated here on the stored image alone; a load from a state
    without pending changes raises `change` exactly when one of them fails,
    and when none fails it leaves the store as it was and sets memory to the
    values the image holds (`QuietMirror`). A full store of settings that
    pass the guards is such an image, so storing and loading again gives the
    settings back. */
module Quiet {
  import opened Bytes
  import opened Float32
  import opened Layout
  import opened Settings
  import opened Writes
  import opened Checksum
  import opened Persist
  import opened Load
  import opened Repair

  // ------------------------------------------------------------ the guards on a stored image

  /** The stored max feed rate of axis `a` does not exceed its limit. */
  ghost predicate MaxFeedrateOk(L: Layout, C: Config, s: seq<Byte>, a: Axis)
    requires ValidLayout(L) && ValidConfig(C) && |s| == StoreSize
  {
    !Lt(C.maxFeedrate[a], GetFloat(L, s, AxisMaxFeedrate(a)))
  }

  /** No stored max feed rate exceeds its limit (lines 604-612). */
  ghost predicate FeedratesValid(L: Layout, C: Config, s: seq<Byte>)
    requires ValidLayout(L) && ValidConfig(C) && |s| == StoreSize
  {
    MaxFeedrateOk(L, C, s, 0) && MaxFeedrateOk(L, C, s, 1) && MaxFeedrateOk(L, C, s, 2)
  }

  /** Every stored acceleration of a group lies in its window (lines 616-683). */
  ghost predicate AccelsValid(L: Layout, C: Config, s: seq<Byte>, travel: bool)
    requires ValidLayout(L) && ValidConfig(C) && |s| == StoreSize
  {
    && AccelOk(C, 0, GetFloat(L, s, AccelField(travel, 0)))
    && AccelOk(C, 1, GetFloat(L, s, AccelField(travel, 1)))
    && AccelOk(C, 2, GetFloat(L, s, AccelField(travel, 2)))
  }

  /** The max feed rates, both acceleration groups and the X length of `mode`
      (the mode in memory before the load) pass their checks (lines 604-697). */
  ghost predicate AxesValid(L: Layout, C: Config, s: seq<Byte>, mode: Mode)
    requires ValidLayout(L) && ValidConfig(C) && |s| == StoreSize
  {
    FeedratesValid(L, C, s) && AccelsValid(L, C, s, false) && AccelsValid(L, C, s, true)
    && XLengthOk(GetFloat(L, s, XLength(mode)))
  }

  /** Extruder `e`'s steps, feed rates and acceleration pass their checks (lines 707-737). */
  ghost predicate ExtMotionValid(L: Layout, s: seq<Byte>, e: int)
    requires ValidLayout(L) && |s| == StoreSize && 0 <= e < MaxExtruders
  {
    var feed := GetFloat(L, s, Ext(e, MaxFeedrate));
    && ExtStepsOk(GetFloat(L, s, Ext(e, StepsPerMM)))
    && ExtFeedrateOk(feed)
    && ExtStartFeedrateOk(GetFloat(L, s, Ext(e, MaxStartFeedrate)), feed)
    && ExtAccelOk(GetFloat(L, s, Ext(e, MaxAcceleration)))
  }

  /** Extruder `e`'s drive pair is no sentinel and its PID maximum is positive (lines 742-771). */
  ghost predicate ExtControlValid(L: Layout, s: seq<Byte>, e: int)
    requires ValidLayout(L) && |s| == StoreSize && 0 <= e < MaxExtruders
  {
    !DriveSentinel(GetByte(L, s, Ext(e, DriveMin)), GetByte(L, s, Ext(e, DriveMax)))
    && GetByte(L, s, Ext(e, PidMax)) > 0
  }

  /** Extruder `e`'s stored block passes every check that repairs (lines 707-783). */
  ghost predicate ExtruderValid(L: Layout, s: seq<Byte>, e: int)
    requires ValidLayout(L) && |s| == StoreSize && 0 <= e < MaxExtruders
  {
    ExtMotionValid(L, s, e) && ExtControlValid(L, s, e) && OffsetZOk(GetFloat(L, s, Ext(e, OffsetZ)))
  }

  /** Extruder blocks 0 .. n-1 pass their checks. */
  ghost predicate ExtrudersValid(L: Layout, s: seq<Byte>, n: nat)
    requires ValidLayout(L) && |s| == StoreSize && n <= MaxExtruders
  {
    n == 0 || (ExtrudersValid(L, s, n - 1) && ExtruderValid(L, s, n - 1))
  }

  /** The stored homing feed rate of axis `a` in the stored mode does not
      exceed the stored max feed rate of that axis. */
  ghost predicate HomingOk(L: Layout, C: Config, s: seq<Byte>, a: Axis)
    requires ValidLayout(L) && |s| == StoreSize
  {
    !Lt(GetFloat(L, s, AxisMaxFeedrate(a)), GetFloat(L, s, HomingFeedrate(StoredMode(L, C, s), a)))
  }

  /** No stored homing feed rate of the stored mode exceeds the stored max
      feed rate of its axis (lines 857-870). */
  ghost predicate HomingValid(L: Layout, C: Config, s: seq<Byte>)
    requires ValidLayout(L) && |s| == StoreSize
  {
    HomingOk(L, C, s, 0) && HomingOk(L, C, s, 1) && HomingOk(L, C, s, 2)
  }

  /** The stored currents of channels 0 .. n-1 lie in their windows (lines 980-1003). */
  ghost predicate CurrentsValid(L: Layout, C: Config, s: seq<Byte>, n: nat)
    requires ValidLayout(L) && ValidConfig(C) && |s| == StoreSize && n <= C.channels
  {
    n == 0 || (CurrentsValid(L, C, s, n - 1) && MotorCurrentOk(C, n - 1, GetByte(L, s, MotorCurrent(n - 1))))
  }

  /** The homing feed rates, the milling acceleration, the motor currents and
      the step packing interval pass their checks (lines 840-1013). */
  ghost predicate RestValid(L: Layout, C: Config, s: seq<Byte>)
    requires ValidLayout(L) && ValidConfig(C) && |s| == StoreSize
  {
    var millAcceleration := GetInt16(L, s, MillAcceleration);
    var stepPacking := GetInt16(L, s, StepPackingMinInterval);
    HomingValid(L, C, s) && millAcceleration > 0 && CurrentsValid(L, C, s, C.channels) && stepPacking != 0
  }

  /** Every load guard holds on the stored image. */
  ghost predicate AllValid(L: Layout, C: Config, s: seq<Byte>, mode: Mode)
    requires ValidLayout(L) && ValidConfig(C) && |s| == StoreSize
  {
    && AxesValid(L, C, s, mode)
    && ExtrudersValid(L, s, C.numExtruders)
    && RestValid(L, C, s)
  }

  // ------------------------------------------------------------ what a quiet load puts in memory

  function StoredSteps(L: Layout, s: seq<Byte>): (v: seq<Float>)
    requires ValidLayout(L) && |s| == StoreSize
    ensures |v| == 3
  {
    [GetFloat(L, s, AxisStepsPerMM(0)), GetFloat(L, s, AxisStepsPerMM(1)), GetFloat(L, s, AxisStepsPerMM(2))]
  }

  function StoredFeedrates(L: Layout, s: seq<Byte>): (v: seq<Float>)
    requires ValidLayout(L) && |s| == StoreSize
    ensures |v| == 3
  {
    [GetFloat(L, s, AxisMaxFeedrate(0)), GetFloat(L, s, AxisMaxFeedrate(1)), GetFloat(L, s, AxisMaxFeedrate(2))]
  }

  function StoredMoveModes(L: Layout, s: seq<Byte>): (v: seq<Byte>)
    requires ValidLayout(L) && |s| == StoreSize
    ensures |v| == 3
  {
    [GetByte(L, s, MoveMode(0)), GetByte(L, s, MoveMode(1)), GetByte(L, s, MoveMode(2))]
  }

  function StoredAccels(L: Layout, s: seq<Byte>, travel: bool): (v: seq<Float>)
    requires ValidLayout(L) && |s| == StoreSize
    ensures |v| == 3
  {
    [GetFloat(L, s, AccelField(travel, 0)), GetFloat(L, s, AccelField(travel, 1)),
     GetFloat(L, s, AccelField(travel, 2))]
  }

  /** The bed controller as loaded: a zero sensor type means the default. */
  function StoredBed(L: Layout, C: Config, s: seq<Byte>): Heater
    requires ValidLayout(L) && |s| == StoreSize
  {
    var sensor := GetByte(L, s, BedSensorType);
    Heater(
      GetByte(L, s, BedDriveMax), GetByte(L, s, BedDriveMin),
      GetFloat(L, s, BedPGain), GetFloat(L, s, BedIGain), GetFloat(L, s, BedDGain),
      GetByte(L, s, BedPidMax), if sensor != 0 then sensor else C.bed.sensorType)
  }

  /** The axis lengths, with the X length of `mode`. */
  function StoredLengths(L: Layout, s: seq<Byte>, mode: Mode): (v: seq<Float>)
    requires ValidLayout(L) && |s| == StoreSize
    ensures |v| == 3
  {
    [GetFloat(L, s, XLength(mode)), GetFloat(L, s, YLength), GetFloat(L, s, ZLength)]
  }

  /** The homing feed rates of the stored mode, as stored. */
  function StoredHoming(L: Layout, C: Config, s: seq<Byte>): (v: seq<Float>)
    requires ValidLayout(L) && |s| == StoreSize
    ensures |v| == 3
  {
    var mode := StoredMode(L, C, s);
    [GetFloat(L, s, HomingFeedrate(mode, 0)), GetFloat(L, s, HomingFeedrate(mode, 1)),
     GetFloat(L, s, HomingFeedrate(mode, 2))]
  }

  /** Serial, timeouts, steps per mm and max feed rates as stored. */
  function HeaderMirror(L: Layout, s: seq<Byte>, m: Mirror): Mirror
    requires ValidLayout(L) && |s| == StoreSize
  {
    m.(baudrate := GetInt32(L, s, Baudrate),
      maxInactiveTime := GetInt32(L, s, MaxInactiveTime),
      stepperInactiveTime := GetInt32(L, s, StepperInactiveTime),
      axisStepsPerMM := StoredSteps(L, s),
      maxFeedrate := StoredFeedrates(L, s))
  }

  /** Z offset and mode, move modes and flags, and jerks as stored. */
  function MiscMirror(L: Layout, s: seq<Byte>, m: Mirror): Mirror
    requires ValidLayout(L) && |s| == StoreSize
  {
    m.(zOffset := GetInt32(L, s, ZOffset), zMode := GetByte(L, s, ZMode),
      moveMode := StoredMoveModes(L, s),
      moveKosys := GetByte(L, s, MoveKosys) != 0,
      movePositionFeedrate := GetByte(L, s, MovePositionFeedrate) != 0,
      maxXYJerk := GetFloat(L, s, MaxXYJerk), maxZJerk := GetFloat(L, s, MaxZJerk))
  }

  /** Both acceleration groups as stored. */
  function AccelMirror(L: Layout, s: seq<Byte>, m: Mirror): Mirror
    requires ValidLayout(L) && |s| == StoreSize
  {
    m.(maxAccel := StoredAccels(L, s, false), maxTravelAccel := StoredAccels(L, s, true))
  }

  /** The bed controller and the axis lengths as loaded. */
  function BedMirror(L: Layout, C: Config, s: seq<Byte>, m: Mirror): Mirror
    requires ValidLayout(L) && |s| == StoreSize
  {
    m.(bed := StoredBed(L, C, s), axisLength := StoredLengths(L, s, m.operatingMode))
  }

  /** The settings up to the axis lengths as a load that repairs nothing leaves them. */
  function AxesMirror(L: Layout, C: Config, s: seq<Byte>, m: Mirror): Mirror
    requires ValidLayout(L) && |s| == StoreSize
  {
    BedMirror(L, C, s, AccelMirror(L, s, MiscMirror(L, s, HeaderMirror(L, s, m))))
  }

  /** An extruder's motion limits as stored. */
  function MotionMirror(L: Layout, s: seq<Byte>, e: int, x: Extruder): Extruder
    requires ValidLayout(L) && |s| == StoreSize && 0 <= e < MaxExtruders
  {
    x.(stepsPerMM := GetFloat(L, s, Ext(e, StepsPerMM)),
      maxFeedrate := GetFloat(L, s, Ext(e, MaxFeedrate)),
      maxStartFeedrate := GetFloat(L, s, Ext(e, MaxStartFeedrate)),
      maxAcceleration := GetFloat(L, s, Ext(e, MaxAcceleration)))
  }

  /** An extruder's drive limits, gains and PID maximum as stored. */
  function ControlMirror(L: Layout, s: seq<Byte>, e: int, x: Extruder): Extruder
    requires ValidLayout(L) && |s| == StoreSize && 0 <= e < MaxExtruders
  {
    x.(heater := x.heater.(
      driveMax := GetByte(L, s, Ext(e, DriveMax)), driveMin := GetByte(L, s, Ext(e, DriveMin)),
      pGain := GetFloat(L, s, Ext(e, PidPGain)), iGain := GetFloat(L, s, Ext(e, PidIGain)),
      dGain := GetFloat(L, s, Ext(e, PidDGain)), pidMax := GetByte(L, s, Ext(e, PidMax))))
  }

  /** An extruder's sensor type (kept when the stored one is outside 1..100),
      offsets and, from store version 2 on, cooler speed as loaded. */
  function FittingsMirror(L: Layout, s: seq<Byte>, e: int, x: Extruder, version: Byte): Extruder
    requires ValidLayout(L) && |s| == StoreSize && 0 <= e < MaxExtruders
  {
    var sensor := GetByte(L, s, Ext(e, SensorType));
    x.(heater := x.heater.(sensorType := if SensorTypeOk(sensor) then sensor else x.heater.sensorType),
      offset := [GetFloat(L, s, Ext(e, OffsetX)), GetFloat(L, s, Ext(e, OffsetY)), GetFloat(L, s, Ext(e, OffsetZ))],
      coolerSpeed := if version > 1 then GetByte(L, s, Ext(e, CoolerSpeed)) else x.coolerSpeed)
  }

  /** Extruder `e` as a load that repairs nothing leaves it. */
  function ExtruderMirror(L: Layout, s: seq<Byte>, e: int, x: Extruder, version: Byte): Extruder
    requires ValidLayout(L) && |s| == StoreSize && 0 <= e < MaxExtruders
  {
    FittingsMirror(L, s, e, ControlMirror(L, s, e, MotionMirror(L, s, e, x)), version)
  }

  /** Extruders 0 .. n-1 of `xs` replaced by what a quiet load leaves of them. */
  function ExtrudersSeq(L: Layout, s: seq<Byte>, xs: seq<Extruder>, n: nat, version: Byte): (r: seq<Extruder>)
    requires ValidLayout(L) && |s| == StoreSize && n <= |xs| && n <= MaxExtruders
    ensures |r| == |xs|
  {
    if n == 0 then xs
    else ExtrudersSeq(L, s, xs, n - 1, version)[n - 1 := ExtruderMirror(L, s, n - 1, xs[n - 1], version)]
  }

  /** The motor currents of channels 0 .. n-1 of `cs` replaced by the stored ones. */
  function CurrentsSeq(L: Layout, s: seq<Byte>, cs: seq<Byte>, n: nat): (r: seq<Byte>)
    requires ValidLayout(L) && |s| == StoreSize && n <= |cs| && n <= MaxChannels
    ensures |r| == |cs|
  {
    if n == 0 then cs else CurrentsSeq(L, s, cs, n - 1)[n - 1 := GetByte(L, s, MotorCurrent(n - 1))]
  }

  /** The operating mode and its homing feed rates as stored. */
  function HomingMirror(L: Layout, C: Config, s: seq<Byte>, m: Mirror): Mirror
    requires ValidLayout(L) && |s| == StoreSize
  {
    m.(operatingMode := StoredMode(L, C, s), homingFeedrate := StoredHoming(L, C, s))
  }

  /** The Z step size (reinterpreted unsigned, constrained) and the milling acceleration as loaded. */
  function ManualMillMirror(L: Layout, C: Config, s: seq<Byte>, m: Mirror): Mirror
    requires ValidLayout(L) && |s| == StoreSize
  {
    m.(manualStepsZ := Constrain(GetInt16(L, s, ZStepSize) % 0x1_0000, 1, C.stepTableMax),
      millAcceleration := GetInt16(L, s, MillAcceleration))
  }

  /** The motor currents and the step packing interval (constrained) as loaded. */
  function TailMirror(L: Layout, C: Config, s: seq<Byte>, m: Mirror): Mirror
    requires ValidLayout(L) && |s| == StoreSize && 0 <= C.channels <= |m.motorCurrent| && C.channels <= MaxChannels
  {
    m.(motorCurrent := CurrentsSeq(L, s, m.motorCurrent, C.channels),
      stepsPackingMinInterval := Constrain(GetInt16(L, s, StepPackingMinInterval), C.stepPackingMin, C.stepPackingMax))
  }

  /** The settings after the extruders as a load that repairs nothing leaves them. */
  function RestMirror(L: Layout, C: Config, s: seq<Byte>, m: Mirror): Mirror
    requires ValidLayout(L) && |s| == StoreSize && 0 <= C.channels <= |m.motorCurrent| && C.channels <= MaxChannels
  {
    TailMirror(L, C, s, ManualMillMirror(L, C, s, HomingMirror(L, C, s, m)))
  }

  /** Memory after a load that repairs nothing, from memory `m` before it. */
  function QuietMirror(L: Layout, C: Config, s: seq<Byte>, m: Mirror, version: Byte): Mirror
    requires ValidLayout(L) && ValidConfig(C) && |s| == StoreSize && WellFormed(C, m)
  {
    var a := AxesMirror(L, C, s, m);
    RestMirror(L, C, s, a.(extruders := ExtrudersSeq(L, s, a.extruders, C.numExtruders, version)))
  }

  // ------------------------------------------------------------ lines 594-701

  lemma {:induction false} FeedratesQuiet(L: Layout, C: Config, st: St)
    requires Good(L, C, st) && !st.change
    ensures var r := MaxFeedrateUpTo(L, C, st, 3);
      && (!r.change <==> FeedratesValid(L, C, st.mem))
      && (!r.change ==> r == st.(cfg := st.cfg.(maxFeedrate := StoredFeedrates(L, st.mem))))
  {
    var s0 := MaxFeedrateUpTo(L, C, st, 0);
    var s1 := MaxFeedrateUpTo(L, C, st, 1);
    var s2 := MaxFeedrateUpTo(L, C, st, 2);
    MaxFeedrateRepairs(L, C, s0, 0);
    MaxFeedrateRepairs(L, C, s1, 1);
    MaxFeedrateRepairs(L, C, s2, 2);
    if !s2.change {
      var v := StoredFeedrates(L, st.mem);
      assert C.maxFeedrate[0 := v[0]][1 := v[1]][2 := v[2]] == v;
    }
  }

  lemma {:induction false} HeaderQuiet(L: Layout, C: Config, st: St)
    requires Good(L, C, st) && !st.change
    ensures var r := MaxFeedrateUpTo(L, C, LoadHeader(L, C, st), 3);
      && (!r.change <==> FeedratesValid(L, C, st.mem))
      && (!r.change ==> r == St(st.store, HeaderMirror(L, st.mem, st.cfg), false))
  {
    var s1 := LoadHeader(L, C, st);
    assert s1.cfg.axisStepsPerMM == StoredSteps(L, st.mem);
    FeedratesQuiet(L, C, s1);
  }

  lemma {:induction false} AccelGroupQuiet(L: Layout, C: Config, st: St, travel: bool)
    requires Good(L, C, st) && !st.change
    ensures var r := LoadAccelGroup(L, C, st, travel);
      && (!r.change <==> AccelsValid(L, C, st.mem, travel))
      && (!r.change ==> r == st.(cfg := WithAccel(st.cfg, travel, StoredAccels(L, st.mem, travel))))
  {
    var s0 := ReadAccels(L, C, st, travel);
    assert AccelOf(s0.cfg, travel) == StoredAccels(L, st.mem, travel);
  }

  lemma {:induction false} MiscAccelsQuiet(L: Layout, C: Config, st: St)
    requires Good(L, C, st) && !st.change
    ensures var r := LoadAccels(L, C, LoadMisc(L, C, st));
      && (!r.change <==> AccelsValid(L, C, st.mem, false) && AccelsValid(L, C, st.mem, true))
      && (!r.change ==> r == St(st.store, AccelMirror(L, st.mem, MiscMirror(L, st.mem, st.cfg)), false))
  {
    var s3 := LoadMisc(L, C, st);
    assert s3 == St(st.store, MiscMirror(L, st.mem, st.cfg), false);
    var s4 := LoadAccelGroup(L, C, s3, false);
    AccelGroupQuiet(L, C, s3, false);
    if !s4.change {
      AccelGroupQuiet(L, C, s4, true);
    }
  }

  lemma {:induction false} XLengthQuiet(L: Layout, C: Config, st: St)
    requires Good(L, C, st) && !st.change
    ensures var r := LoadXLength(L, C, st); var v := GetFloat(L, st.mem, XLength(st.cfg.operatingMode));
      && (!r.change <==> XLengthOk(v))
      && (!r.change ==> r == st.(cfg := st.cfg.(axisLength := st.cfg.axisLength[0 := v])))
  {
  }

  lemma {:induction false} BedQuiet(L: Layout, C: Config, st: St)
    requires Good(L, C, st) && !st.change
    ensures var r := LoadYZLength(L, C, LoadXLength(L, C, LoadBed(L, C, st)));
      && (!r.change <==> XLengthOk(GetFloat(L, st.mem, XLength(st.cfg.operatingMode))))
      && (!r.change ==> r == St(st.store, BedMirror(L, C, st.mem, st.cfg), false))
  {
    var s1 := LoadBed(L, C, st);
    XLengthQuiet(L, C, s1);
    assert s1.cfg.bed == StoredBed(L, C, st.mem);
  }

  /** The steps up to the axis lengths repair nothing exactly when the
      feed rate, acceleration and X length guards hold. */
  lemma {:induction false} AxesQuiet(L: Layout, C: Config, st: St)
    requires Good(L, C, st) && !st.change
    ensures var r := LoadAxes(L, C, st);
      && (!r.change <==> AxesValid(L, C, st.mem, st.cfg.operatingMode))
      && (!r.change ==> r == St(st.store, AxesMirror(L, C, st.mem, st.cfg), false))
  {
    var s2 := MaxFeedrateUpTo(L, C, LoadHeader(L, C, st), 3);
    var s4 := LoadAccels(L, C, LoadMisc(L, C, s2));
    HeaderQuiet(L, C, st);
    if !s2.change {
      MiscAccelsQuiet(L, C, s2);
      if !s4.change {
        BedQuiet(L, C, s4);
      }
    }
  }

  // ------------------------------------------------------------ lines 704-799

  lemma {:induction false} ExtMotionQuiet(L: Layout, C: Config, st: St, e: int)
    requires Good(L, C, st) && !st.change && 0 <= e < C.numExtruders
    ensures var r := ExtMotion(L, C, st, e);
      && (!r.change <==> ExtMotionValid(L, st.mem, e))
      && (!r.change ==> r == St(st.store, SetExt(st.cfg, e, MotionMirror(L, st.mem, e, st.cfg.extruders[e])), false))
  {
    var s1 := ExtSteps(L, C, st, e);
    var s2 := ExtFeedrate(L, C, s1, e);
    var s3 := ExtStartFeedrate(L, C, s2, e);
    ExtStepsRepairs(L, C, st, e);
    ExtFeedrateRepairs(L, C, s1, e);
    StartFeedrateRepairs(L, C, s2, e);
    ExtAccelRepairs(L, C, s3, e);
  }

  lemma {:induction false} ExtDriveQuiet(L: Layout, C: Config, st: St, e: int)
    requires Good(L, C, st) && !st.change && 0 <= e < C.numExtruders
    ensures var r := ExtDrive(L, C, st, e); var x := st.cfg.extruders[e];
      var dmax := GetByte(L, st.mem, Ext(e, DriveMax)); var dmin := GetByte(L, st.mem, Ext(e, DriveMin));
      && (!r.change <==> !DriveSentinel(dmin, dmax))
      && (!r.change ==> r == st.(cfg := SetExt(st.cfg, e, x.(heater := x.heater.(driveMin := dmin, driveMax := dmax)))))
  {
  }

  lemma {:induction false} ExtControlQuiet(L: Layout, C: Config, st: St, e: int)
    requires Good(L, C, st) && !st.change && 0 <= e < C.numExtruders
    ensures var r := ExtPidMax(L, C, ExtGains(L, C, ExtDrive(L, C, st, e), e), e);
      && (!r.change <==> ExtControlValid(L, st.mem, e))
      && (!r.change ==> r == St(st.store, SetExt(st.cfg, e, ControlMirror(L, st.mem, e, st.cfg.extruders[e])), false))
  {
    var s := st.mem;
    var x := st.cfg.extruders[e];
    var s1 := ExtDrive(L, C, st, e);
    ExtDriveQuiet(L, C, st, e);
    if !s1.change {
      var x1 := x.(heater := x.heater.(driveMin := GetByte(L, s, Ext(e, DriveMin)), driveMax := GetByte(L, s, Ext(e, DriveMax))));
      var x2 := x1.(heater := x1.heater.(pGain := GetFloat(L, s, Ext(e, PidPGain)), iGain := GetFloat(L, s, Ext(e, PidIGain)),
        dGain := GetFloat(L, s, Ext(e, PidDGain))));
      var x3 := x2.(heater := x2.heater.(pidMax := GetByte(L, s, Ext(e, PidMax))));
      var s2 := ExtGains(L, C, s1, e);
      SetExtTwice(st.cfg, e, x1, x2);
      assert s2 == st.(cfg := SetExt(st.cfg, e, x2));
      ExtPidMaxRepairs(L, C, s2, e);
      SetExtTwice(st.cfg, e, x2, x3);
      assert x3 == ControlMirror(L, s, e, x);
    }
  }

  lemma {:induction false} ExtFittingsQuiet(L: Layout, C: Config, st: St, e: int, version: Byte)
    requires Good(L, C, st) && !st.change && 0 <= e < C.numExtruders
    ensures var r := ExtCooler(L, C, ExtOffsets(L, C, ExtSensor(L, C, st, e), e), e, version);
      && (!r.change <==> OffsetZOk(GetFloat(L, st.mem, Ext(e, OffsetZ))))
      && (!r.change ==> r == St(st.store, SetExt(st.cfg, e, FittingsMirror(L, st.mem, e, st.cfg.extruders[e], version)), false))
  {
    var s4 := ExtSensor(L, C, st, e);
    var s5 := ReadOffsets(L, C, s4, e);
    assert s5.cfg.extruders[e].offset[2] == GetFloat(L, st.mem, Ext(e, OffsetZ));
  }

  /** Replacing an extruder twice keeps the second replacement. */
  lemma {:induction false} SetExtTwice(m: Mirror, e: int, x: Extruder, y: Extruder)
    requires 0 <= e < |m.extruders|
    ensures SetExt(m, e, x).extruders[e] == x
    ensures SetExt(SetExt(m, e, x), e, y) == SetExt(m, e, y)
  {
  }

  /** One extruder block repairs nothing exactly when the block passes its guards. */
  lemma {:induction false} ExtruderQuiet(L: Layout, C: Config, st: St, e: int, version: Byte)
    requires Good(L, C, st) && !st.change && 0 <= e < C.numExtruders
    ensures var r := LoadExtruder(L, C, st, e, version);
      && (!r.change <==> ExtruderValid(L, st.mem, e))
      && (!r.change ==> r == St(st.store, SetExt(st.cfg, e, ExtruderMirror(L, st.mem, e, st.cfg.extruders[e], version)), false))
  {
    var s := st.mem;
    var x := st.cfg.extruders[e];
    var s1 := ExtMotion(L, C, st, e);
    var s3 := ExtPidMax(L, C, ExtGains(L, C, ExtDrive(L, C, s1, e), e), e);
    var x1 := MotionMirror(L, s, e, x);
    var x3 := ControlMirror(L, s, e, x1);
    ExtMotionQuiet(L, C, st, e);
    if !s1.change {
      SetExtTwice(st.cfg, e, x1, x3);
      ExtControlQuiet(L, C, s1, e);
      if !s3.change {
        assert s3 == St(st.store, SetExt(st.cfg, e, x3), false);
        SetExtTwice(st.cfg, e, x3, ExtruderMirror(L, s, e, x, version));
        ExtFittingsQuiet(L, C, s3, e, version);
      }
    }
  }

  /** `ExtrudersSeq` keeps the extruders from `n` on. */
  lemma {:induction false} ExtrudersSeqKeeps(L: Layout, s: seq<Byte>, xs: seq<Extruder>, n: nat, version: Byte, j: int)
    requires ValidLayout(L) && |s| == StoreSize && n <= |xs| && n <= MaxExtruders && n <= j < |xs|
    ensures ExtrudersSeq(L, s, xs, n, version)[j] == xs[j]
  {
    if n > 0 {
      ExtrudersSeqKeeps(L, s, xs, n - 1, version, j);
    }
  }

  /** Loading extruder n-1 quietly after extruders 0 .. n-2 gives `ExtrudersSeq` of n. */
  lemma {:induction false} ExtrudersSeqStep(L: Layout, s: seq<Byte>, m: Mirror, n: nat, version: Byte)
    requires ValidLayout(L) && |s| == StoreSize && 0 < n <= |m.extruders| && n <= MaxExtruders
    ensures var before := m.(extruders := ExtrudersSeq(L, s, m.extruders, n - 1, version));
      SetExt(before, n - 1, ExtruderMirror(L, s, n - 1, before.extruders[n - 1], version))
        == m.(extruders := ExtrudersSeq(L, s, m.extruders, n, version))
  {
    ExtrudersSeqKeeps(L, s, m.extruders, n - 1, version, n - 1);
  }

  /** `ExtruderQuiet` for the block loaded after blocks 0 .. e-1. */
  lemma {:induction false} ExtrudersThroughQuiet(L: Layout, C: Config, st: St, e: nat, version: Byte)
    requires Good(L, C, st) && e < C.numExtruders
    ensures var p := ExtrudersUpTo(L, C, st, e, version); var r := ExtrudersUpTo(L, C, st, e + 1, version);
      && (p.change ==> r.change)
      && (!p.change ==> (!r.change <==> ExtruderValid(L, p.mem, e)))
      && (!p.change && !r.change ==>
            r == St(p.store, SetExt(p.cfg, e, ExtruderMirror(L, p.mem, e, p.cfg.extruders[e], version)), false))
  {
    var p := ExtrudersUpTo(L, C, st, e, version);
    assert ExtrudersUpTo(L, C, st, e + 1, version) == LoadExtruder(L, C, p, e, version);
    if !p.change {
      ExtruderQuiet(L, C, p, e, version);
    }
  }

  /** One more extruder block loaded quietly extends `ExtrudersSeq` by one. */
  lemma {:induction false} ExtrudersStepQuiet(L: Layout, C: Config, st: St, n: nat, version: Byte)
    requires Good(L, C, st) && !st.change && 0 < n <= C.numExtruders
    requires var p := ExtrudersUpTo(L, C, st, n - 1, version);
      && !p.change && ExtrudersValid(L, st.mem, n - 1)
      && p == St(st.store, st.cfg.(extruders := ExtrudersSeq(L, st.mem, st.cfg.extruders, n - 1, version)), false)
    ensures var r := ExtrudersUpTo(L, C, st, n, version);
      && (!r.change <==> ExtrudersValid(L, st.mem, n))
      && (!r.change ==> r == St(st.store, st.cfg.(extruders := ExtrudersSeq(L, st.mem, st.cfg.extruders, n, version)), false))
  {
    assert |st.cfg.extruders| == C.numExtruders <= MaxExtruders;
    ExtrudersThroughQuiet(L, C, st, n - 1, version);
    ExtrudersSeqStep(L, st.mem, st.cfg, n, version);
  }

  /** Blocks 0 .. n-1 raise `change` exactly when one of them fails a guard
      on the stored image; when none does, memory holds `ExtrudersSeq`. */
  ghost predicate ExtrudersQuietUpTo(L: Layout, C: Config, st: St, n: nat, version: Byte)
    requires Good(L, C, st) && n <= C.numExtruders
  {
    var r := ExtrudersUpTo(L, C, st, n, version);
    && (!r.change <==> ExtrudersValid(L, st.mem, n))
    && (!r.change ==> r == St(st.store, st.cfg.(extruders := ExtrudersSeq(L, st.mem, st.cfg.extruders, n, version)), false))
  }

  /** Loading one more extruder block keeps the shape of `ExtrudersQuiet`. */
  lemma {:induction false} ExtrudersStep(L: Layout, C: Config, st: St, k: nat, version: Byte)
    requires Good(L, C, st) && !st.change && k < C.numExtruders
    requires ExtrudersQuietUpTo(L, C, st, k, version)
    ensures ExtrudersQuietUpTo(L, C, st, k + 1, version)
  {
    if ExtrudersUpTo(L, C, st, k, version).change {
      ExtrudersThroughQuiet(L, C, st, k, version);
    } else {
      ExtrudersStepQuiet(L, C, st, k + 1, version);
    }
  }

  lemma {:induction false} ExtrudersQuiet(L: Layout, C: Config, st: St, n: nat, version: Byte)
    requires Good(L, C, st) && !st.change && n <= C.numExtruders
    ensures ExtrudersQuietUpTo(L, C, st, n, version)
  {
    if n > 0 {
      ExtrudersQuiet(L, C, st, n - 1, version);
      ExtrudersStep(L, C, st, n - 1, version);
    }
  }

  // ------------------------------------------------------------ lines 840-1013

  /** Homing feed rates `d` with the first `n` replaced by the stored ones of `mode`. */
  function HomingSeq(L: Layout, s: seq<Byte>, mode: Mode, d: seq<Float>, n: nat): (r: seq<Float>)
    requires ValidLayout(L) && |s| == StoreSize && |d| == 3 && n <= 3
    ensures |r| == 3
  {
    if n == 0 then d else HomingSeq(L, s, mode, d, n - 1)[n - 1 := GetFloat(L, s, HomingFeedrate(mode, n - 1))]
  }

  /** The state of the homing loop after axes 0 .. n-1 when none is repaired. */
  function HomingUpToMirror(L: Layout, C: Config, s: seq<Byte>, m: Mirror, n: nat): Mirror
    requires ValidLayout(L) && ValidConfig(C) && |s| == StoreSize && n <= 3
  {
    var mode := StoredMode(L, C, s);
    m.(operatingMode := mode, homingFeedrate := HomingSeq(L, s, mode, HomingDefaults(C, mode), n))
  }

  /** The homing checks of axes 0 .. n-1 pass against the max feed rates `limits`. */
  ghost predicate HomingUpToValid(L: Layout, C: Config, s: seq<Byte>, limits: seq<Float>, n: nat)
    requires ValidLayout(L) && |s| == StoreSize && |limits| == 3 && n <= 3
  {
    n == 0 || (HomingUpToValid(L, C, s, limits, n - 1)
      && !Lt(limits[n - 1], GetFloat(L, s, HomingFeedrate(StoredMode(L, C, s), n - 1))))
  }

  lemma {:induction false} HomingUpToQuiet(L: Layout, C: Config, st: St, n: nat)
    requires Good(L, C, st) && !st.change && n <= 3
    ensures var r := HomingUpTo(L, C, st, n);
      && (!r.change <==> HomingUpToValid(L, C, st.mem, st.cfg.maxFeedrate, n))
      && (!r.change ==> r == St(st.store, HomingUpToMirror(L, C, st.mem, st.cfg, n), false))
  {
    if n > 0 {
      var p := HomingUpTo(L, C, st, n - 1);
      HomingUpToQuiet(L, C, st, n - 1);
      HomingRepairs(L, C, p, n - 1);
    }
  }

  /** All three homing feed rates replaced are the stored ones. */
  lemma {:induction false} HomingSeqAll(L: Layout, C: Config, s: seq<Byte>, d: seq<Float>)
    requires ValidLayout(L) && |s| == StoreSize && |d| == 3
    ensures HomingSeq(L, s, StoredMode(L, C, s), d, 3) == StoredHoming(L, C, s)
  {
    var mode := StoredMode(L, C, s);
    var h := StoredHoming(L, C, s);
    assert HomingSeq(L, s, mode, d, 1) == d[0 := h[0]];
    assert HomingSeq(L, s, mode, d, 2) == d[0 := h[0]][1 := h[1]];
    assert HomingSeq(L, s, mode, d, 3) == d[0 := h[0]][1 := h[1]][2 := h[2]];
  }

  lemma {:induction false} HomingValidAll(L: Layout, C: Config, s: seq<Byte>)
    requires ValidLayout(L) && |s| == StoreSize
    ensures HomingUpToValid(L, C, s, StoredFeedrates(L, s), 3) <==> HomingValid(L, C, s)
  {
    var lim := StoredFeedrates(L, s);
    assert HomingUpToValid(L, C, s, lim, 1) <==> HomingOk(L, C, s, 0);
    assert HomingUpToValid(L, C, s, lim, 2) <==> HomingOk(L, C, s, 0) && HomingOk(L, C, s, 1);
  }

  lemma {:induction false} HomingQuiet(L: Layout, C: Config, st: St)
    requires Good(L, C, st) && !st.change && st.cfg.maxFeedrate == StoredFeedrates(L, st.mem)
    ensures var r := HomingUpTo(L, C, st, 3);
      && (!r.change <==> HomingValid(L, C, st.mem))
      && (!r.change ==> r == St(st.store, HomingMirror(L, C, st.mem, st.cfg), false))
  {
    var mode := StoredMode(L, C, st.mem);
    HomingUpToQuiet(L, C, st, 3);
    HomingSeqAll(L, C, st.mem, HomingDefaults(C, mode));
    HomingValidAll(L, C, st.mem);
  }

  lemma {:induction false} ManualMillQuiet(L: Layout, C: Config, st: St)
    requires Good(L, C, st) && !st.change
    ensures var r := LoadMillAccel(L, C, LoadManualSteps(L, C, st));
      && (!r.change <==> GetInt16(L, st.mem, MillAcceleration) > 0)
      && (!r.change ==> r == St(st.store, ManualMillMirror(L, C, st.mem, st.cfg), false))
  {
  }

  lemma {:induction false} MotorCurrentQuiet(L: Layout, C: Config, st: St, ch: int)
    requires Good(L, C, st) && 0 <= ch < C.channels
    ensures var r := MotorCurrentChannel(L, C, st, ch); var b := GetByte(L, st.mem, MotorCurrent(ch));
      && (MotorCurrentOk(C, ch, b) ==> r == st.(cfg := st.cfg.(motorCurrent := st.cfg.motorCurrent[ch := b])))
      && (!MotorCurrentOk(C, ch, b) ==> r.change)
  {
  }

  /** `CurrentsSeq` keeps the currents from channel `n` on ... */
  lemma {:induction false} CurrentsSeqKeeps(L: Layout, s: seq<Byte>, cs: seq<Byte>, n: nat, j: int)
    requires ValidLayout(L) && |s| == StoreSize && n <= |cs| && n <= MaxChannels && n <= j < |cs|
    ensures CurrentsSeq(L, s, cs, n)[j] == cs[j]
  {
    if n > 0 {
      CurrentsSeqKeeps(L, s, cs, n - 1, j);
    }
  }

  /** ... and holds the stored current of each channel below `n`. */
  lemma {:induction false} CurrentsSeqReplaces(L: Layout, s: seq<Byte>, cs: seq<Byte>, n: nat, j: int)
    requires ValidLayout(L) && |s| == StoreSize && n <= |cs| && n <= MaxChannels && 0 <= j < n
    ensures CurrentsSeq(L, s, cs, n)[j] == GetByte(L, s, MotorCurrent(j))
  {
    if j < n - 1 {
      CurrentsSeqReplaces(L, s, cs, n - 1, j);
    }
  }

  lemma {:induction false} MotorCurrentsQuiet(L: Layout, C: Config, st: St, n: nat)
    requires Good(L, C, st) && !st.change && n <= C.channels
    ensures var r := MotorCurrentUpTo(L, C, st, n);
      && (!r.change <==> CurrentsValid(L, C, st.mem, n))
      && (!r.change ==> r == st.(cfg := st.cfg.(motorCurrent := CurrentsSeq(L, st.mem, st.cfg.motorCurrent, n))))
  {
    assert |st.cfg.motorCurrent| == C.channels <= MaxChannels;
    if n > 0 {
      var p := MotorCurrentUpTo(L, C, st, n - 1);
      MotorCurrentsQuiet(L, C, st, n - 1);
      MotorCurrentQuiet(L, C, p, n - 1);
    }
  }

  lemma {:induction false} TailQuiet(L: Layout, C: Config, st: St)
    requires Good(L, C, st) && !st.change
    ensures var r := LoadStepPacking(L, C, MotorCurrentUpTo(L, C, st, C.channels));
      && (!r.change <==> CurrentsValid(L, C, st.mem, C.channels) && GetInt16(L, st.mem, StepPackingMinInterval) != 0)
      && (!r.change ==> r == St(st.store, TailMirror(L, C, st.mem, st.cfg), false))
  {
    MotorCurrentsQuiet(L, C, st, C.channels);
  }

  /** The steps after the extruders repair nothing exactly when the homing,
      milling acceleration, motor current and step packing guards hold. */
  lemma {:induction false} RestQuiet(L: Layout, C: Config, st: St)
    requires Good(L, C, st) && !st.change && st.cfg.maxFeedrate == StoredFeedrates(L, st.mem)
    ensures var r := LoadRest(L, C, st);
      && (!r.change <==> RestValid(L, C, st.mem))
      && (!r.change ==> r == St(st.store, RestMirror(L, C, st.mem, st.cfg), false))
  {
    var s8 := HomingUpTo(L, C, st, 3);
    var s9 := LoadMillAccel(L, C, LoadManualSteps(L, C, s8));
    HomingQuiet(L, C, st);
    if !s8.change {
      ManualMillQuiet(L, C, s8);
      if !s9.change {
        TailQuiet(L, C, s9);
      }
    }
  }

  // ------------------------------------------------------------ the whole load

  /** From a state without pending changes, the field steps raise `change`
      exactly when a guard fails on the stored image; when none fails they
      leave the store as it was and memory as `QuietMirror`. */
  lemma {:induction false} LoadFieldsQuiet(L: Layout, C: Config, st: St, version: Byte)
    requires Good(L, C, st) && !st.change
    ensures var r := LoadFields(L, C, st, version);
      && (!r.change <==> AllValid(L, C, st.mem, st.cfg.operatingMode))
      && (!r.change ==> r == St(st.store, QuietMirror(L, C, st.mem, st.cfg, version), false))
  {
    var a := LoadAxes(L, C, st);
    var x := ExtrudersUpTo(L, C, a, C.numExtruders, version);
    AxesQuiet(L, C, st);
    if !a.change {
      ExtrudersQuiet(L, C, a, C.numExtruders, version);
      if !x.change {
        RestQuiet(L, C, x);
      }
    }
  }

  /** A load from a store of the current version, with no change pending,
      rewrites the checksum exactly when some guard fails on the stored image;
      when every guard holds it leaves the store as it was, keeps `change`
      down and sets memory to the stored values (lines 1034-1040). */
  lemma {:induction false} QuietLoad(L: Layout, C: Config, st: St)
    requires Good(L, C, st) && !st.change
    requires GetByte(L, st.mem, Version) == C.protocolVersion
    ensures LoadChecksumWrites(L, C, st) == if AllValid(L, C, st.mem, st.cfg.operatingMode) then 0 else 1
    ensures AllValid(L, C, st.mem, st.cfg.operatingMode) ==>
      LoadSpec(L, C, st) == St(st.store, QuietMirror(L, C, st.mem, st.cfg, C.protocolVersion), false)
  {
    LoadFieldsQuiet(L, C, st, C.protocolVersion);
  }
}
