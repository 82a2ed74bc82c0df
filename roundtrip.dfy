/** Storing the settings and loading them again (storeDataIntoEEPROM, then
    readDataFromEEPROM). When the stored image passes every load guard, the
    load leaves the store and the `change` flag alone and hands back every
    setting the store wrote. The only settings it changes are the ones the
    store left alone in the active mode, and it reads those from the image. */
module RoundTrip {
  import opened Bytes
  import opened Layout
  import opened Settings
  import opened Writes
  import opened Persist
  import opened Load
  import opened Quiet

  /** What a full store of `m` writes to `f`; the name that `StoredAs` hangs on. */
  function Written(C: Config, m: Mirror, f: Field): Option<int>
    requires ValidConfig(C) && WellFormed(C, m)
  {
    StoreValue(C, m, false, f)
  }

  /** Every field a full store of `m` writes holds the written value in `S`. */
  ghost predicate StoredAs(L: Layout, C: Config, S: seq<Byte>, m: Mirror)
    requires ValidLayout(L) && ValidConfig(C) && WellFormed(C, m) && |S| == StoreSize
  {
    forall f {:trigger Written(C, m, f)} :: ValidField(f) && Written(C, m, f).Some? ==>
      Get(L, S, f) == Norm(KindOf(f), Written(C, m, f).value)
  }

  /** One field of `StoredAs`. */
  lemma StoredAt(L: Layout, C: Config, S: seq<Byte>, m: Mirror, f: Field)
    requires ValidLayout(L) && ValidConfig(C) && WellFormed(C, m) && |S| == StoreSize && StoredAs(L, C, S, m)
    requires ValidField(f) && StoreValue(C, m, false, f).Some?
    ensures Get(L, S, f) == Norm(KindOf(f), StoreValue(C, m, false, f).value)
  {
    assert Written(C, m, f).Some?;
  }

  lemma StoreSpecStoredAs(L: Layout, C: Config, s: seq<Byte>, m: Mirror)
    requires ValidLayout(L) && ValidConfig(C) && WellFormed(C, m) && |s| == StoreSize
    ensures StoredAs(L, C, StoreSpec(L, C, s, m, false), m)
  {
    forall f | ValidField(f) && Written(C, m, f).Some?
      ensures Get(L, StoreSpec(L, C, s, m, false), f) == Norm(KindOf(f), Written(C, m, f).value)
    {
      StoredField(L, C, s, m, false, f);
    }
  }

  /** Settings the load reads back unaltered: a Z step size in 1 .. the last
      table entry, a step packing interval inside its window, and a nonzero
      bed sensor type (the load constrains the first two and replaces a zero
      sensor type by the default). */
  predicate LoadsBack(C: Config, m: Mirror) {
    && 1 <= m.manualStepsZ <= C.stepTableMax
    && C.stepPackingMin <= m.stepsPackingMinInterval <= C.stepPackingMax
    && m.bed.sensorType != 0
  }

  /** `m` with the settings a store in `m`'s mode may leave alone read from
      `S`: both acceleration groups, the milling acceleration and the motor
      currents. */
  function Reloaded(L: Layout, C: Config, S: seq<Byte>, m: Mirror): (r: Mirror)
    requires ValidLayout(L) && ValidConfig(C) && WellFormed(C, m) && |S| == StoreSize
    ensures WellFormed(C, r)
  {
    m.(maxAccel := StoredAccels(L, S, false), maxTravelAccel := StoredAccels(L, S, true),
      millAcceleration := GetInt16(L, S, MillAcceleration),
      motorCurrent := CurrentsSeq(L, S, m.motorCurrent, C.channels))
  }

  // ------------------------------------------------------------ group by group

  lemma StepsBack(L: Layout, C: Config, S: seq<Byte>, m: Mirror)
    requires ValidLayout(L) && ValidConfig(C) && WellFormed(C, m) && |S| == StoreSize && StoredAs(L, C, S, m)
    ensures StoredSteps(L, S) == m.axisStepsPerMM
  {
    StoredAt(L, C, S, m, AxisStepsPerMM(0));
    StoredAt(L, C, S, m, AxisStepsPerMM(1));
    StoredAt(L, C, S, m, AxisStepsPerMM(2));
  }

  lemma FeedratesBack(L: Layout, C: Config, S: seq<Byte>, m: Mirror)
    requires ValidLayout(L) && ValidConfig(C) && WellFormed(C, m) && |S| == StoreSize && StoredAs(L, C, S, m)
    ensures StoredFeedrates(L, S) == m.maxFeedrate
  {
    StoredAt(L, C, S, m, AxisMaxFeedrate(0));
    StoredAt(L, C, S, m, AxisMaxFeedrate(1));
    StoredAt(L, C, S, m, AxisMaxFeedrate(2));
  }

  lemma HeaderBack(L: Layout, C: Config, S: seq<Byte>, m: Mirror)
    requires ValidLayout(L) && ValidConfig(C) && WellFormed(C, m) && |S| == StoreSize && StoredAs(L, C, S, m)
    ensures HeaderMirror(L, S, m) == m
  {
    StoredAt(L, C, S, m, Baudrate);
    StoredAt(L, C, S, m, MaxInactiveTime);
    StoredAt(L, C, S, m, StepperInactiveTime);
    StepsBack(L, C, S, m);
    FeedratesBack(L, C, S, m);
  }

  lemma MoveModesBack(L: Layout, C: Config, S: seq<Byte>, m: Mirror)
    requires ValidLayout(L) && ValidConfig(C) && WellFormed(C, m) && |S| == StoreSize && StoredAs(L, C, S, m)
    ensures StoredMoveModes(L, S) == m.moveMode
  {
    StoredAt(L, C, S, m, MoveMode(0));
    StoredAt(L, C, S, m, MoveMode(1));
    StoredAt(L, C, S, m, MoveMode(2));
  }

  /** The Z offset and mode come back. */
  lemma ZOffsetBack(L: Layout, C: Config, S: seq<Byte>, m: Mirror)
    requires ValidLayout(L) && ValidConfig(C) && WellFormed(C, m) && |S| == StoreSize && StoredAs(L, C, S, m)
    ensures GetInt32(L, S, ZOffset) == m.zOffset && GetByte(L, S, ZMode) == m.zMode
  {
    StoredAt(L, C, S, m, ZOffset);
    StoredAt(L, C, S, m, ZMode);
  }

  lemma JerksBack(L: Layout, C: Config, S: seq<Byte>, m: Mirror)
    requires ValidLayout(L) && ValidConfig(C) && WellFormed(C, m) && |S| == StoreSize && StoredAs(L, C, S, m)
    ensures GetFloat(L, S, MaxXYJerk) == m.maxXYJerk && GetFloat(L, S, MaxZJerk) == m.maxZJerk
  {
    StoredAt(L, C, S, m, MaxXYJerk);
    StoredAt(L, C, S, m, MaxZJerk);
  }

  /** The two move flags come back through their 0/1 bytes. */
  lemma FlagsBack(L: Layout, C: Config, S: seq<Byte>, m: Mirror)
    requires ValidLayout(L) && ValidConfig(C) && WellFormed(C, m) && |S| == StoreSize && StoredAs(L, C, S, m)
    ensures (GetByte(L, S, MoveKosys) != 0) == m.moveKosys
    ensures (GetByte(L, S, MovePositionFeedrate) != 0) == m.movePositionFeedrate
  {
    StoredAt(L, C, S, m, MoveKosys);
    StoredAt(L, C, S, m, MovePositionFeedrate);
  }

  lemma MiscBack(L: Layout, C: Config, S: seq<Byte>, m: Mirror)
    requires ValidLayout(L) && ValidConfig(C) && WellFormed(C, m) && |S| == StoreSize && StoredAs(L, C, S, m)
    ensures MiscMirror(L, S, m) == m
  {
    MoveModesBack(L, C, S, m);
    ZOffsetBack(L, C, S, m);
    JerksBack(L, C, S, m);
    FlagsBack(L, C, S, m);
  }

  lemma BedGainsBack(L: Layout, C: Config, S: seq<Byte>, m: Mirror)
    requires ValidLayout(L) && ValidConfig(C) && WellFormed(C, m) && |S| == StoreSize && StoredAs(L, C, S, m)
    ensures GetFloat(L, S, BedPGain) == m.bed.pGain && GetFloat(L, S, BedIGain) == m.bed.iGain
    ensures GetFloat(L, S, BedDGain) == m.bed.dGain
  {
    StoredAt(L, C, S, m, BedPGain);
    StoredAt(L, C, S, m, BedIGain);
    StoredAt(L, C, S, m, BedDGain);
  }

  lemma BedDriveBack(L: Layout, C: Config, S: seq<Byte>, m: Mirror)
    requires ValidLayout(L) && ValidConfig(C) && WellFormed(C, m) && |S| == StoreSize && StoredAs(L, C, S, m)
    ensures GetByte(L, S, BedDriveMax) == m.bed.driveMax && GetByte(L, S, BedDriveMin) == m.bed.driveMin
  {
    StoredAt(L, C, S, m, BedDriveMax);
    StoredAt(L, C, S, m, BedDriveMin);
  }

  lemma BedPidMaxSensorBack(L: Layout, C: Config, S: seq<Byte>, m: Mirror)
    requires ValidLayout(L) && ValidConfig(C) && WellFormed(C, m) && |S| == StoreSize && StoredAs(L, C, S, m)
    ensures GetByte(L, S, BedPidMax) == m.bed.pidMax && GetByte(L, S, BedSensorType) == m.bed.sensorType
  {
    StoredAt(L, C, S, m, BedPidMax);
    StoredAt(L, C, S, m, BedSensorType);
  }

  /** A nonzero bed sensor type brings the whole bed controller back. */
  lemma StoredBedBack(L: Layout, C: Config, S: seq<Byte>, m: Mirror)
    requires ValidLayout(L) && ValidConfig(C) && WellFormed(C, m) && |S| == StoreSize && StoredAs(L, C, S, m)
    requires m.bed.sensorType != 0
    ensures StoredBed(L, C, S) == m.bed
  {
    BedGainsBack(L, C, S, m);
    BedDriveBack(L, C, S, m);
    BedPidMaxSensorBack(L, C, S, m);
  }

  lemma LengthsBack(L: Layout, C: Config, S: seq<Byte>, m: Mirror)
    requires ValidLayout(L) && ValidConfig(C) && WellFormed(C, m) && |S| == StoreSize && StoredAs(L, C, S, m)
    ensures StoredLengths(L, S, m.operatingMode) == m.axisLength
  {
    StoredAt(L, C, S, m, XLength(m.operatingMode));
    StoredAt(L, C, S, m, YLength);
    StoredAt(L, C, S, m, ZLength);
  }

  /** The bed and the axis lengths of a mirror that holds `m`'s. */
  lemma BedBack(L: Layout, C: Config, S: seq<Byte>, m: Mirror, x: Mirror)
    requires ValidLayout(L) && ValidConfig(C) && WellFormed(C, m) && |S| == StoreSize && StoredAs(L, C, S, m)
    requires m.bed.sensorType != 0
    requires x.bed == m.bed && x.axisLength == m.axisLength && x.operatingMode == m.operatingMode
    ensures BedMirror(L, C, S, x) == x
  {
    StoredBedBack(L, C, S, m);
    LengthsBack(L, C, S, m);
  }

  /** The axes part of the load reads back everything but the accelerations. */
  lemma AxesBack(L: Layout, C: Config, S: seq<Byte>, m: Mirror)
    requires ValidLayout(L) && ValidConfig(C) && WellFormed(C, m) && |S| == StoreSize && StoredAs(L, C, S, m)
    requires m.bed.sensorType != 0
    ensures AxesMirror(L, C, S, m)
      == m.(maxAccel := StoredAccels(L, S, false), maxTravelAccel := StoredAccels(L, S, true))
  {
    HeaderBack(L, C, S, m);
    MiscBack(L, C, S, m);
    BedBack(L, C, S, m, AccelMirror(L, S, m));
  }

  lemma MotionBack(L: Layout, C: Config, S: seq<Byte>, m: Mirror, e: int)
    requires ValidLayout(L) && ValidConfig(C) && WellFormed(C, m) && |S| == StoreSize && StoredAs(L, C, S, m)
    requires 0 <= e < C.numExtruders
    ensures MotionMirror(L, S, e, m.extruders[e]) == m.extruders[e]
  {
    StoredAt(L, C, S, m, Ext(e, StepsPerMM));
    StoredAt(L, C, S, m, Ext(e, MaxFeedrate));
    StoredAt(L, C, S, m, Ext(e, MaxStartFeedrate));
    StoredAt(L, C, S, m, Ext(e, MaxAcceleration));
  }

  lemma ControlBack(L: Layout, C: Config, S: seq<Byte>, m: Mirror, e: int)
    requires ValidLayout(L) && ValidConfig(C) && WellFormed(C, m) && |S| == StoreSize && StoredAs(L, C, S, m)
    requires 0 <= e < C.numExtruders
    ensures ControlMirror(L, S, e, m.extruders[e]) == m.extruders[e]
  {
    StoredAt(L, C, S, m, Ext(e, DriveMax));
    StoredAt(L, C, S, m, Ext(e, DriveMin));
    StoredAt(L, C, S, m, Ext(e, PidPGain));
    StoredAt(L, C, S, m, Ext(e, PidIGain));
    StoredAt(L, C, S, m, Ext(e, PidDGain));
    StoredAt(L, C, S, m, Ext(e, PidMax));
  }

  /** The sensor type comes back whether or not the load accepts it: when it
      does not, it keeps the one memory holds, which is the same. */
  lemma FittingsBack(L: Layout, C: Config, S: seq<Byte>, m: Mirror, e: int, version: Byte)
    requires ValidLayout(L) && ValidConfig(C) && WellFormed(C, m) && |S| == StoreSize && StoredAs(L, C, S, m)
    requires 0 <= e < C.numExtruders
    ensures FittingsMirror(L, S, e, m.extruders[e], version) == m.extruders[e]
  {
    StoredAt(L, C, S, m, Ext(e, SensorType));
    StoredAt(L, C, S, m, Ext(e, OffsetX));
    StoredAt(L, C, S, m, Ext(e, OffsetY));
    StoredAt(L, C, S, m, Ext(e, OffsetZ));
    StoredAt(L, C, S, m, Ext(e, CoolerSpeed));
  }

  lemma ExtruderBack(L: Layout, C: Config, S: seq<Byte>, m: Mirror, e: int, version: Byte)
    requires ValidLayout(L) && ValidConfig(C) && WellFormed(C, m) && |S| == StoreSize && StoredAs(L, C, S, m)
    requires 0 <= e < C.numExtruders
    ensures ExtruderMirror(L, S, e, m.extruders[e], version) == m.extruders[e]
  {
    MotionBack(L, C, S, m, e);
    ControlBack(L, C, S, m, e);
    FittingsBack(L, C, S, m, e, version);
  }

  /** The loaded extruders are the stored ones. */
  lemma {:induction false} ExtrudersBack(L: Layout, C: Config, S: seq<Byte>, m: Mirror, n: nat, version: Byte)
    requires ValidLayout(L) && ValidConfig(C) && WellFormed(C, m) && |S| == StoreSize && StoredAs(L, C, S, m)
    requires n <= C.numExtruders
    ensures ExtrudersSeq(L, S, m.extruders, n, version) == m.extruders
  {
    if n > 0 {
      ExtrudersBack(L, C, S, m, n - 1, version);
      ExtruderBack(L, C, S, m, n - 1, version);
    }
  }

  /** The operating mode and its homing feed rates of a mirror that holds `m`'s. */
  lemma HomingBack(L: Layout, C: Config, S: seq<Byte>, m: Mirror, x: Mirror)
    requires ValidLayout(L) && ValidConfig(C) && WellFormed(C, m) && |S| == StoreSize && StoredAs(L, C, S, m)
    requires x.operatingMode == m.operatingMode && x.homingFeedrate == m.homingFeedrate
    ensures HomingMirror(L, C, S, x) == x
  {
    StoredAt(L, C, S, m, OperatingMode);
    assert StoredMode(L, C, S) == m.operatingMode;
    var mode := m.operatingMode;
    StoredAt(L, C, S, m, HomingFeedrate(mode, 0));
    StoredAt(L, C, S, m, HomingFeedrate(mode, 1));
    StoredAt(L, C, S, m, HomingFeedrate(mode, 2));
    assert StoredHoming(L, C, S) == m.homingFeedrate;
  }

  /** A Z step size below 0x10000 comes back through its signed 16-bit slot. */
  lemma StepSizeBack(v: int)
    requires 0 <= v < 0x1_0000
    ensures Norm(KInt16, v) % 0x1_0000 == v
  {
  }

  /** The Z step size and the step packing interval come back through their
      constraints when they already lie inside them. */
  lemma StepsZPackingBack(L: Layout, C: Config, S: seq<Byte>, m: Mirror)
    requires ValidLayout(L) && ValidConfig(C) && WellFormed(C, m) && |S| == StoreSize && StoredAs(L, C, S, m)
    requires LoadsBack(C, m)
    ensures Constrain(GetInt16(L, S, ZStepSize) % 0x1_0000, 1, C.stepTableMax) == m.manualStepsZ
    ensures Constrain(GetInt16(L, S, StepPackingMinInterval), C.stepPackingMin, C.stepPackingMax)
      == m.stepsPackingMinInterval
  {
    StepSizeBack(m.manualStepsZ);
    StoredAt(L, C, S, m, ZStepSize);
    StoredAt(L, C, S, m, StepPackingMinInterval);
  }

  /** The steps after the extruders read back everything but the milling
      acceleration and the motor currents. */
  lemma RestBack(L: Layout, C: Config, S: seq<Byte>, m: Mirror, x: Mirror)
    requires ValidLayout(L) && ValidConfig(C) && WellFormed(C, m) && |S| == StoreSize && StoredAs(L, C, S, m)
    requires LoadsBack(C, m) && WellFormed(C, x)
    requires x.operatingMode == m.operatingMode && x.homingFeedrate == m.homingFeedrate
    requires x.manualStepsZ == m.manualStepsZ && x.stepsPackingMinInterval == m.stepsPackingMinInterval
    ensures RestMirror(L, C, S, x)
      == x.(millAcceleration := GetInt16(L, S, MillAcceleration),
            motorCurrent := CurrentsSeq(L, S, x.motorCurrent, C.channels))
  {
    HomingBack(L, C, S, m, x);
    StepsZPackingBack(L, C, S, m);
  }

  /** After a full store of `m`, a load that repairs nothing leaves memory as
      `Reloaded`. */
  lemma QuietMirrorBack(L: Layout, C: Config, S: seq<Byte>, m: Mirror, version: Byte)
    requires ValidLayout(L) && ValidConfig(C) && WellFormed(C, m) && |S| == StoreSize && StoredAs(L, C, S, m)
    requires LoadsBack(C, m)
    ensures QuietMirror(L, C, S, m, version) == Reloaded(L, C, S, m)
  {
    var a := AxesMirror(L, C, S, m);
    AxesBack(L, C, S, m);
    ExtrudersBack(L, C, S, m, C.numExtruders, version);
    assert a.(extruders := ExtrudersSeq(L, S, a.extruders, C.numExtruders, version)) == a;
    RestBack(L, C, S, m, a);
  }

  /** The motor currents `Reloaded` reads from the image are the ones the
      store wrote, on every channel the store writes. */
  lemma CurrentStoresSame(L: Layout, C: Config, S: seq<Byte>, m: Mirror, c: int)
    requires ValidLayout(L) && ValidConfig(C) && WellFormed(C, m) && |S| == StoreSize && StoredAs(L, C, S, m)
    requires ValidField(MotorCurrent(c))
    ensures StoreValue(C, Reloaded(L, C, S, m), false, MotorCurrent(c)) == StoreValue(C, m, false, MotorCurrent(c))
  {
    if c < 3 + C.numExtruders {
      CurrentsSeqReplaces(L, S, m.motorCurrent, C.channels, c);
      StoredAt(L, C, S, m, MotorCurrent(c));
    }
  }

  /** The accelerations `Reloaded` reads from the image are the ones the
      store wrote, in the mode whose store writes them. */
  lemma AccelStoresSame(L: Layout, C: Config, S: seq<Byte>, m: Mirror, travel: bool, a: Axis)
    requires ValidLayout(L) && ValidConfig(C) && WellFormed(C, m) && |S| == StoreSize && StoredAs(L, C, S, m)
    ensures var f := AccelField(travel, a);
      StoreValue(C, Reloaded(L, C, S, m), false, f) == StoreValue(C, m, false, f)
  {
    if m.operatingMode == Print {
      StoredAt(L, C, S, m, AccelField(travel, a));
    }
  }

  lemma MillStoresSame(L: Layout, C: Config, S: seq<Byte>, m: Mirror)
    requires ValidLayout(L) && ValidConfig(C) && WellFormed(C, m) && |S| == StoreSize && StoredAs(L, C, S, m)
    ensures StoreValue(C, Reloaded(L, C, S, m), false, MillAcceleration) == StoreValue(C, m, false, MillAcceleration)
  {
    if m.operatingMode == Mill {
      StoredAt(L, C, S, m, MillAcceleration);
    }
  }

  /** Mirrors that differ at most in the accelerations, the milling
      acceleration and the motor currents store every other field alike. */
  lemma UntouchedStoresSame(C: Config, m: Mirror, r: Mirror, f: Field)
    requires ValidConfig(C) && WellFormed(C, m) && WellFormed(C, r)
    requires r == m.(maxAccel := r.maxAccel, maxTravelAccel := r.maxTravelAccel,
                     millAcceleration := r.millAcceleration, motorCurrent := r.motorCurrent)
    requires !f.MaxAccel? && !f.MaxTravelAccel? && !f.MillAcceleration? && !f.MotorCurrent?
    ensures StoreValue(C, r, false, f) == StoreValue(C, m, false, f)
  {
  }

  /** `Reloaded` differs from `m` only where the store writes nothing: storing
      it again writes every field exactly as storing `m` does. */
  lemma ReloadedStoresSame(L: Layout, C: Config, S: seq<Byte>, m: Mirror, f: Field)
    requires ValidLayout(L) && ValidConfig(C) && WellFormed(C, m) && |S| == StoreSize && StoredAs(L, C, S, m)
    requires ValidField(f)
    ensures StoreValue(C, Reloaded(L, C, S, m), false, f) == StoreValue(C, m, false, f)
  {
    if f.MotorCurrent? {
      CurrentStoresSame(L, C, S, m, f.channel);
    } else if f.MaxAccel? || f.MaxTravelAccel? {
      AccelStoresSame(L, C, S, m, f.MaxTravelAccel?, f.axis);
    } else if f.MillAcceleration? {
      MillStoresSame(L, C, S, m);
    } else {
      UntouchedStoresSame(C, m, Reloaded(L, C, S, m), f);
    }
  }

  /** A load of an image that holds a full store of `m` and passes every load
      guard writes nothing, keeps `change` down and leaves memory as `Reloaded`. */
  lemma LoadBack(L: Layout, C: Config, S: seq<Byte>, m: Mirror)
    requires ValidLayout(L) && ValidConfig(C) && WellFormed(C, m) && |S| == StoreSize && StoredAs(L, C, S, m)
    requires LoadsBack(C, m) && AllValid(L, C, S, m.operatingMode)
    ensures LoadChecksumWrites(L, C, St(Store(S), m, false)) == 0
    ensures LoadSpec(L, C, St(Store(S), m, false)) == St(Store(S), Reloaded(L, C, S, m), false)
  {
    StoredAt(L, C, S, m, Version);
    QuietLoad(L, C, St(Store(S), m, false));
    QuietMirrorBack(L, C, S, m, C.protocolVersion);
  }

  /** Storing `m` and loading it again: when the image passes every load
      guard, the load writes nothing, keeps `change` down and puts back every
      setting the store wrote. */
  lemma StoreThenLoad(L: Layout, C: Config, s: seq<Byte>, m: Mirror)
    requires ValidLayout(L) && ValidConfig(C) && WellFormed(C, m) && |s| == StoreSize && LoadsBack(C, m)
    requires AllValid(L, C, StoreSpec(L, C, s, m, false), m.operatingMode)
    ensures var S := StoreSpec(L, C, s, m, false);
      var st := St(Store(S), m, false);
      && LoadChecksumWrites(L, C, st) == 0
      && LoadSpec(L, C, st) == St(Store(S), Reloaded(L, C, S, m), false)
  {
    StoreSpecStoredAs(L, C, s, m);
    LoadBack(L, C, StoreSpec(L, C, s, m, false), m);
  }
}
