/** The settings persistence engine: the store, the mirror it is loaded into,
    and the operations of the EEPROM class, each proved against the
    specification functions of `Checksum`, `Persist` and `Load`. */
module Engine {
  import opened Bytes
  import opened Float32
  import opened Layout
  import opened Settings
  import opened Writes
  import opened Checksum
  import opened Persist
  import opened Load
  import opened ByteStore
  import opened Entry

  class Eeprom {
    const L: Layout
    const C: Config
    const hal: Hal
    /** The settings variables of the firmware. */
    var cfg: Mirror
    /** How many times the integrity byte has been rewritten. */
    ghost var checksumWrites: nat

    ghost predicate Valid()
      reads this
    {
      ValidLayout(L) && ValidConfig(C) && hal.mem.Length == StoreSize && WellFormed(C, cfg)
    }

    function Image(): seq<Byte>
      reads hal.mem
    {
      hal.mem[..]
    }

    constructor (layout: Layout, config: Config, store: Hal, settings: Mirror)
      requires ValidLayout(layout) && ValidConfig(config) && store.mem.Length == StoreSize
      requires WellFormed(config, settings)
      ensures Valid()
      ensures L == layout && C == config && hal == store && cfg == settings
      ensures checksumWrites == 0
    {
      L := layout;
      C := config;
      hal := store;
      cfg := settings;
      checksumWrites := 0;
    }

    /** The stored value of a field. */
    method ReadField(f: Field) returns (v: int)
      requires ValidLayout(L) && hal.mem.Length == StoreSize && ValidField(f)
      ensures v == Get(L, Image(), f)
    {
      assert InBounds(L, f);
      v := hal.Read(FieldAddr(L, f), KindOf(f));
    }

    /** The typed reads of the store (eprGetByte, eprGetInt16, eprGetInt32, eprGetFloat). */
    method ReadByte(f: Field) returns (v: Byte)
      requires ValidLayout(L) && hal.mem.Length == StoreSize && ValidField(f) && KindOf(f) == KByte
      ensures v == GetByte(L, Image(), f)
    {
      v := ReadField(f);
    }

    method ReadInt16(f: Field) returns (v: Int16)
      requires ValidLayout(L) && hal.mem.Length == StoreSize && ValidField(f) && KindOf(f) == KInt16
      ensures v == GetInt16(L, Image(), f)
    {
      v := ReadField(f);
    }

    method ReadInt32(f: Field) returns (v: Int32)
      requires ValidLayout(L) && hal.mem.Length == StoreSize && ValidField(f) && KindOf(f) == KInt32
      ensures v == GetInt32(L, Image(), f)
    {
      v := ReadField(f);
    }

    method ReadFloat(f: Field) returns (v: Float)
      requires ValidLayout(L) && hal.mem.Length == StoreSize && ValidField(f) && KindOf(f) == KFloat
      ensures v == GetFloat(L, Image(), f)
    {
      v := ReadField(f);
    }

    /** Write one field. */
    method WriteField(f: Field, v: int)
      requires ValidLayout(L) && hal.mem.Length == StoreSize && ValidField(f)
      modifies hal.mem
      ensures Image() == Put(L, old(Image()), f, v)
    {
      assert InBounds(L, f);
      hal.Write(FieldAddr(L, f), KindOf(f), v);
    }

    /** Issue the writes of `ws` to the store, one field after the other. */
    method Apply(ws: seq<Write>)
      requires Valid() && ValidWrites(ws)
      modifies hal.mem
      ensures Image() == PutAll(L, old(Image()), ws)
    {
      ghost var s0 := Image();
      var i := 0;
      while i < |ws|
        invariant 0 <= i <= |ws| && ValidWrites(ws[..i])
        invariant Image() == PutAll(L, s0, ws[..i])
      {
        WriteField(ws[i].field, ws[i].value);
        PutAllSnoc(L, s0, ws[..i], ws[i]);
        assert ws[..i + 1] == ws[..i] + [ws[i]];
        i := i + 1;
      }
      assert ws[..i] == ws;
    }

    // ---------------------------------------------------------- checksum and wipe

    /** computeChecksum: the 8-bit running sum over all addresses but the skipped one. */
    method ComputeChecksum() returns (c: Byte)
      requires Valid()
      ensures c == Checksum.Checksum(L, Image())
    {
      var skip := L.eepromOffset + L.integrity;
      c := 0;
      var i := 0;
      while i < StoreSize
        invariant 0 <= i <= StoreSize
        invariant c == SumExcept(Image(), i, skip) % 256
      {
        SumStep(Image(), i, skip, c);
        if i != skip {
          var b := hal.Read(i, KByte);
          ByteAccess(Image(), i, 0);
          c := (c + b) % 256;
        }
        i := i + 1;
      }
    }

    /** updateChecksum: the integrity byte receives the checksum. */
    method UpdateChecksum()
      requires Valid()
      modifies this`checksumWrites, hal.mem
      ensures Image() == WithChecksum(L, old(Image()))
      ensures checksumWrites == old(checksumWrites) + 1
    {
      var c := ComputeChecksum();
      ByteAccess(Image(), L.integrity, c);
      hal.Write(L.integrity, KByte, c);
      checksumWrites := checksumWrites + 1;
    }

    /** clearEEPROM: every address becomes 0. */
    method Clear()
      requires Valid()
      modifies hal.mem
      ensures Image() == ZeroImage()
    {
      var i := 0;
      while i < StoreSize
        invariant 0 <= i <= StoreSize
        invariant forall j :: 0 <= j < i ==> hal.mem[j] == 0
      {
        ByteAccess(Image(), i, 0);
        hal.Write(i, KByte, 0);
        i := i + 1;
      }
      assert Image() == ZeroImage();
    }

    // ---------------------------------------------------------- persist

    /** storeExtruderDataIntoEEPROM(e): the block of extruder `e`, without checksum. */
    method StoreExtruderData(e: int)
      requires Valid() && 0 <= e < C.numExtruders
      modifies hal.mem
      ensures Image() == StoreExtruderSpec(L, C, old(Image()), cfg, e)
    {
      Apply(ExtruderWrites(C, cfg, e));
    }

    /** storeDataIntoEEPROM(corrupted): every setting, the version byte, then the checksum. */
    method StoreData(corrupted: bool)
      requires Valid()
      modifies this`checksumWrites, hal.mem
      ensures Image() == StoreSpec(L, C, old(Image()), cfg, corrupted)
      ensures checksumWrites == old(checksumWrites) + 1
    {
      Apply(StoreWrites(C, cfg, corrupted));
      UpdateChecksum();
    }

    /** initializeAllOperatingModes: the homing feed rates of the inactive mode get their defaults. */
    method InitializeAllOperatingModes()
      requires Valid()
      modifies this`checksumWrites, hal.mem
      ensures Image() == InitModesSpec(L, C, old(Image()), cfg.operatingMode)
      ensures checksumWrites == old(checksumWrites) + 1
    {
      Apply(InitModesWrites(C, cfg.operatingMode));
      UpdateChecksum();
    }

    // ---------------------------------------------------------- restore defaults

    /** restoreEEPROMExtruderSettingsFromConfiguration(e): the settings of an
        extruder the build has return to its defaults; any other id changes nothing. */
    method RestoreExtruderSettings(e: Byte)
      requires Valid()
      modifies this`cfg
      ensures Valid()
      ensures e < C.numExtruders ==> cfg == RestoreExtruderSpec(C, old(cfg), e)
      ensures e >= C.numExtruders ==> cfg == old(cfg)
    {
      if e == 0 {
        cfg := cfg.(extruders := cfg.extruders[0 := C.extruders[0]]);
      }
      if C.numExtruders > 1 && e == 1 {
        cfg := cfg.(extruders := cfg.extruders[1 := C.extruders[1]]);
      }
    }

    /** The micro-step loop of the restore: every channel's mode value returns
        to its initial one, and the first channel that differs marks the stored
        micro-step settings invalid, once. */
    method RestoreMicroSteps()
      requires Valid()
      modifies this`cfg, hal.mem
      ensures Valid()
      ensures cfg == old(cfg).(microSteps := C.microSteps)
      ensures Image() == RestoreImage(L, C, old(Image()), old(cfg))
    {
      ghost var m0 := cfg;
      ghost var s0 := Image();
      var changed := false;
      var ax := 0;
      while ax < MicroStepChannels
        invariant 0 <= ax <= MicroStepChannels && Valid()
        invariant cfg == m0.(microSteps := cfg.microSteps)
        invariant forall i :: 0 <= i < ax ==> cfg.microSteps[i] == C.microSteps[i]
        invariant forall i :: ax <= i < MicroStepChannels ==> cfg.microSteps[i] == m0.microSteps[i]
        invariant changed <==> exists i :: 0 <= i < ax && m0.microSteps[i] != C.microSteps[i]
        invariant Image() == if changed then Put(L, s0, MicroStepsUsed, 0) else s0
      {
        if cfg.microSteps[ax] != C.microSteps[ax] {
          if !changed {
            changed := true;
            WriteField(MicroStepsUsed, 0);
          }
          cfg := cfg.(microSteps := cfg.microSteps[ax := C.microSteps[ax]]);
        }
        ax := ax + 1;
      }
      assert cfg.microSteps == C.microSteps;
      assert changed <==> m0.microSteps != C.microSteps;
    }

    /** The motor current loop of the restore: the 3 + NUM_EXTRUDER driven
        channels get their normal current. */
    method RestoreMotorCurrents()
      requires Valid()
      modifies this`cfg
      ensures Valid()
      ensures cfg == old(cfg).(motorCurrent := C.motorCurrentNormal[..3 + C.numExtruders] + old(cfg).motorCurrent[3 + C.numExtruders..])
    {
      ghost var m0 := cfg;
      var stp := 0;
      while stp < 3 + C.numExtruders
        invariant 0 <= stp <= 3 + C.numExtruders && Valid()
        invariant cfg == m0.(motorCurrent := cfg.motorCurrent)
        invariant forall i :: 0 <= i < stp ==> cfg.motorCurrent[i] == C.motorCurrentNormal[i]
        invariant forall i :: stp <= i < C.channels ==> cfg.motorCurrent[i] == m0.motorCurrent[i]
      {
        cfg := cfg.(motorCurrent := cfg.motorCurrent[stp := C.motorCurrentNormal[stp]]);
        stp := stp + 1;
      }
      assert cfg.motorCurrent == C.motorCurrentNormal[..stp] + m0.motorCurrent[stp..];
    }

    /** The first part of the restore, up to the axis lengths. */
    method RestoreMotionSettings()
      requires Valid()
      modifies this`cfg, hal.mem
      ensures Valid()
      ensures cfg == RestoreMotion(C, old(cfg))
      ensures Image() == RestoreImage(L, C, old(Image()), old(cfg))
    {
      var m := cfg.(baudrate := C.baudrate, maxInactiveTime := C.maxInactiveTime,
        stepperInactiveTime := C.stepperInactiveTime,
        axisStepsPerMM := C.axisStepsPerMM, maxFeedrate := C.maxFeedrate);
      cfg := m;
      RestoreMicroSteps();
      m := cfg;
      if m.operatingMode == Print {
        m := m.(homingFeedrate := C.homingPrint);
      } else {
        m := m.(homingFeedrate := C.homingMill);
      }
      m := m.(maxXYJerk := C.maxXYJerk, maxZJerk := C.maxZJerk,
        moveMode := C.moveMode, moveKosys := C.moveKosys, movePositionFeedrate := C.movePositionFeedrate,
        maxAccel := C.maxAccel, maxTravelAccel := C.maxTravelAccel, bed := C.bed);
      var xLength := if m.operatingMode == Print then C.xLengthPrint else C.xLengthMill;
      cfg := m.(axisLength := [xLength, C.yLength, C.zLength]);
    }

    /** The last part of the restore, after the extruders. */
    method RestoreTailSettings()
      requires Valid()
      modifies this`cfg
      ensures Valid()
      ensures cfg == RestoreTail(C, old(cfg))
    {
      cfg := cfg.(stepsPackingMinInterval := C.stepPacking, zMode := C.zMode);
      RestoreMotorCurrents();
      cfg := cfg.(manualStepsZ := C.manualStepsZ);
    }

    /** restoreEEPROMSettingsFromConfiguration: the defaults of the build in
        memory; the store only learns that the micro-step settings are stale. */
    method RestoreSettings()
      requires Valid()
      modifies this`cfg, hal.mem
      ensures Valid()
      ensures cfg == RestoreMirror(C, old(cfg))
      ensures Image() == RestoreImage(L, C, old(Image()), old(cfg))
    {
      RestoreMotionSettings();
      RestoreExtruderSettings(0);
      RestoreExtruderSettings(1);
      RestoreTailSettings();
    }

    // ---------------------------------------------------------- load

    /** The state the load steps of `Load` describe. */
    function State(c: bool): St
      reads this, hal.mem
    {
      St(Store(Image()), cfg, c)
    }

    method LoadHeaderData(c: bool) returns (c': bool)
      requires Valid()
      modifies this`cfg
      ensures Valid() && State(c') == LoadHeader(L, C, old(State(c)))
    {
      var baud := ReadInt32(Baudrate);
      var inactive := ReadInt32(MaxInactiveTime);
      var stepperInactive := ReadInt32(StepperInactiveTime);
      var sx := ReadFloat(AxisStepsPerMM(0));
      var sy := ReadFloat(AxisStepsPerMM(1));
      var sz := ReadFloat(AxisStepsPerMM(2));
      cfg := cfg.(baudrate := baud, maxInactiveTime := inactive, stepperInactiveTime := stepperInactive,
                  axisStepsPerMM := [sx, sy, sz]);
      c' := c;
    }

    /** The max feed rates start from their defaults; the loop over the axes
        keeps a stored rate unless it is above the rate in memory. */
    method LoadMaxFeedrates(c: bool) returns (c': bool)
      requires Valid()
      modifies this`cfg, hal.mem
      ensures Valid() && State(c') == MaxFeedrateUpTo(L, C, old(State(c)), 3)
    {
      cfg := cfg.(maxFeedrate := C.maxFeedrate);
      c' := c;
      var a := 0;
      while a < 3
        invariant 0 <= a <= 3 && Valid()
        invariant State(c') == MaxFeedrateUpTo(L, C, old(State(c)), a)
      {
        c' := LoadMaxFeedrateAxis(a, c');
        a := a + 1;
      }
    }

    /** One axis of the max feed rate loop. */
    method LoadMaxFeedrateAxis(a: Axis, c: bool) returns (c': bool)
      requires Valid()
      modifies this`cfg, hal.mem
      ensures Valid() && State(c') == MaxFeedrateAxis(L, C, old(State(c)), a)
    {
      var tmp := ReadFloat(AxisMaxFeedrate(a));
      if Lt(cfg.maxFeedrate[a], tmp) {
        WriteField(AxisMaxFeedrate(a), cfg.maxFeedrate[a]);
        c' := true;
      } else {
        cfg := cfg.(maxFeedrate := cfg.maxFeedrate[a := tmp]);
        c' := c;
      }
    }

    // Lines 615-669.

    method LoadMiscData(c: bool) returns (c': bool)
      requires Valid()
      modifies this`cfg
      ensures Valid() && State(c') == LoadMisc(L, C, old(State(c)))
    {
      var zOffset := ReadInt32(ZOffset);
      var zMode := ReadByte(ZMode);
      var mx := ReadByte(MoveMode(0));
      var my := ReadByte(MoveMode(1));
      var mz := ReadByte(MoveMode(2));
      var kosys := ReadByte(MoveKosys);
      var positionFeedrate := ReadByte(MovePositionFeedrate);
      var xyJerk := ReadFloat(MaxXYJerk);
      var zJerk := ReadFloat(MaxZJerk);
      cfg := cfg.(zOffset := zOffset, zMode := zMode, moveMode := [mx, my, mz],
                  moveKosys := kosys != 0, movePositionFeedrate := positionFeedrate != 0,
                  maxXYJerk := xyJerk, maxZJerk := zJerk);
      c' := c;
    }

    /** The (travel) accelerations are read, then each axis outside its
        window gets its default in memory and in the store. */
    method LoadAccelData(travel: bool, c: bool) returns (c': bool)
      requires Valid()
      modifies this`cfg, hal.mem
      ensures Valid() && State(c') == LoadAccelGroup(L, C, old(State(c)), travel)
    {
      var ax := ReadFloat(AccelField(travel, 0));
      var ay := ReadFloat(AccelField(travel, 1));
      var az := ReadFloat(AccelField(travel, 2));
      cfg := WithAccel(cfg, travel, [ax, ay, az]);
      ghost var st1 := State(c);
      assert st1 == ReadAccels(L, C, old(State(c)), travel);
      c' := AccelRepair(travel, 0, c);
      c' := AccelRepair(travel, 1, c');
      c' := AccelRepair(travel, 2, c');
    }

    method AccelRepair(travel: bool, a: Axis, c: bool) returns (c': bool)
      requires Valid()
      modifies this`cfg, hal.mem
      ensures Valid() && State(c') == AccelCheck(L, C, old(State(c)), travel, a)
    {
      var v := AccelOf(cfg, travel)[a];
      if !AccelOk(C, a, v) {
        var d := AccelDefault(C, travel, a);
        cfg := WithAccel(cfg, travel, AccelOf(cfg, travel)[a := d]);
        WriteField(AccelField(travel, a), d);
        c' := true;
      } else {
        c' := c;
      }
    }

    // Lines 672-701.

    method LoadBedData(c: bool) returns (c': bool)
      requires Valid()
      modifies this`cfg
      ensures Valid() && State(c') == LoadBed(L, C, old(State(c)))
    {
      var driveMax := ReadByte(BedDriveMax);
      var driveMin := ReadByte(BedDriveMin);
      var p := ReadFloat(BedPGain);
      var i := ReadFloat(BedIGain);
      var d := ReadFloat(BedDGain);
      var pidMax := ReadByte(BedPidMax);
      var sensor := ReadByte(BedSensorType);
      cfg := cfg.(bed := Heater(driveMax, driveMin, p, i, d, pidMax,
                                if sensor != 0 then sensor else C.bed.sensorType));
      c' := c;
    }

    /** The X length of the mode in memory, repaired when out of (0, 245]; then Y and Z. */
    method LoadLengths(c: bool) returns (c': bool)
      requires Valid()
      modifies this`cfg, hal.mem
      ensures Valid() && State(c') == LoadYZLength(L, C, LoadXLength(L, C, old(State(c))))
    {
      var mode := cfg.operatingMode;
      var v := ReadFloat(XLength(mode));
      if !XLengthOk(v) {
        var d := XLengthDefault(C, mode);
        cfg := cfg.(axisLength := cfg.axisLength[0 := d]);
        WriteField(XLength(mode), d);
        c' := true;
      } else {
        cfg := cfg.(axisLength := cfg.axisLength[0 := v]);
        c' := c;
      }
      var y := ReadFloat(YLength);
      var z := ReadFloat(ZLength);
      cfg := cfg.(axisLength := cfg.axisLength[1 := y][2 := z]);
    }

    // Lines 704-799: one extruder.

    method LoadExtSteps(e: int, c: bool) returns (c': bool)
      requires Valid() && 0 <= e < C.numExtruders
      modifies this`cfg, hal.mem
      ensures Valid() && State(c') == ExtSteps(L, C, old(State(c)), e)
    {
      var x := cfg.extruders[e];
      var tmp := ReadFloat(Ext(e, StepsPerMM));
      if ExtStepsOk(tmp) {
        cfg := SetExt(cfg, e, x.(stepsPerMM := tmp));
        c' := c;
      } else {
        WriteField(Ext(e, StepsPerMM), x.stepsPerMM);
        c' := true;
      }
    }

    method LoadExtFeedrate(e: int, c: bool) returns (c': bool)
      requires Valid() && 0 <= e < C.numExtruders
      modifies this`cfg, hal.mem
      ensures Valid() && State(c') == ExtFeedrate(L, C, old(State(c)), e)
    {
      var x := cfg.extruders[e];
      var tmp := ReadFloat(Ext(e, MaxFeedrate));
      if ExtFeedrateOk(tmp) {
        cfg := SetExt(cfg, e, x.(maxFeedrate := tmp));
        c' := c;
      } else {
        WriteField(Ext(e, MaxFeedrate), x.maxFeedrate);
        c' := true;
      }
    }

    method LoadExtStartFeedrate(e: int, c: bool) returns (c': bool)
      requires Valid() && 0 <= e < C.numExtruders
      modifies this`cfg, hal.mem
      ensures Valid() && State(c') == ExtStartFeedrate(L, C, old(State(c)), e)
    {
      var x := cfg.extruders[e];
      var tmp := ReadFloat(Ext(e, MaxStartFeedrate));
      if ExtStartFeedrateOk(tmp, x.maxFeedrate) {
        cfg := SetExt(cfg, e, x.(maxStartFeedrate := tmp));
        c' := c;
      } else {
        var v := Min(x.maxFeedrate, x.maxStartFeedrate);
        cfg := SetExt(cfg, e, x.(maxStartFeedrate := v));
        WriteField(Ext(e, MaxStartFeedrate), v);
        c' := true;
      }
    }

    method LoadExtAccel(e: int, c: bool) returns (c': bool)
      requires Valid() && 0 <= e < C.numExtruders
      modifies this`cfg, hal.mem
      ensures Valid() && State(c') == ExtAccel(L, C, old(State(c)), e)
    {
      var x := cfg.extruders[e];
      var tmp := ReadFloat(Ext(e, MaxAcceleration));
      if ExtAccelOk(tmp) {
        cfg := SetExt(cfg, e, x.(maxAcceleration := tmp));
        c' := c;
      } else {
        WriteField(Ext(e, MaxAcceleration), x.maxAcceleration);
        c' := true;
      }
    }

    method LoadExtMotion(e: int, c: bool) returns (c': bool)
      requires Valid() && 0 <= e < C.numExtruders
      modifies this`cfg, hal.mem
      ensures Valid() && State(c') == ExtMotion(L, C, old(State(c)), e)
    {
      c' := LoadExtSteps(e, c);
      c' := LoadExtFeedrate(e, c');
      c' := LoadExtStartFeedrate(e, c');
      c' := LoadExtAccel(e, c');
    }

    method LoadExtDrive(e: int, c: bool) returns (c': bool)
      requires Valid() && 0 <= e < C.numExtruders
      modifies this`cfg, hal.mem
      ensures Valid() && State(c') == ExtDrive(L, C, old(State(c)), e)
    {
      var x := cfg.extruders[e];
      var dmax := ReadByte(Ext(e, DriveMax));
      var dmin := ReadByte(Ext(e, DriveMin));
      if DriveSentinel(dmin, dmax) {
        var d := C.extruders[e].heater;
        cfg := SetExt(cfg, e, x.(heater := x.heater.(driveMin := d.driveMin, driveMax := d.driveMax)));
        WriteField(Ext(e, DriveMin), d.driveMin);
        WriteField(Ext(e, DriveMax), d.driveMax);
        c' := true;
      } else {
        cfg := SetExt(cfg, e, x.(heater := x.heater.(driveMin := dmin, driveMax := dmax)));
        c' := c;
      }
    }

    method LoadExtGains(e: int, c: bool) returns (c': bool)
      requires Valid() && 0 <= e < C.numExtruders
      modifies this`cfg
      ensures Valid() && State(c') == ExtGains(L, C, old(State(c)), e)
    {
      var x := cfg.extruders[e];
      var p := ReadFloat(Ext(e, PidPGain));
      var i := ReadFloat(Ext(e, PidIGain));
      var d := ReadFloat(Ext(e, PidDGain));
      cfg := SetExt(cfg, e, x.(heater := x.heater.(pGain := p, iGain := i, dGain := d)));
      c' := c;
    }

    method LoadExtPidMax(e: int, c: bool) returns (c': bool)
      requires Valid() && 0 <= e < C.numExtruders
      modifies this`cfg, hal.mem
      ensures Valid() && State(c') == ExtPidMax(L, C, old(State(c)), e)
    {
      var x := cfg.extruders[e];
      var b := ReadByte(Ext(e, PidMax));
      if b > 0 {
        cfg := SetExt(cfg, e, x.(heater := x.heater.(pidMax := b)));
        c' := c;
      } else {
        WriteField(Ext(e, PidMax), x.heater.pidMax);
        c' := true;
      }
    }

    method LoadExtSensor(e: int, c: bool) returns (c': bool)
      requires Valid() && 0 <= e < C.numExtruders
      modifies this`cfg
      ensures Valid() && State(c') == ExtSensor(L, C, old(State(c)), e)
    {
      var x := cfg.extruders[e];
      var b := ReadByte(Ext(e, SensorType));
      if SensorTypeOk(b) {
        cfg := SetExt(cfg, e, x.(heater := x.heater.(sensorType := b)));
      }
      c' := c;
    }

    /** The three offsets of extruder `e`, read into memory. */
    method ReadExtOffsets(e: int, c: bool)
      requires Valid() && 0 <= e < C.numExtruders
      modifies this`cfg
      ensures Valid() && State(c) == ReadOffsets(L, C, old(State(c)), e)
    {
      var ox := ReadFloat(Ext(e, OffsetX));
      var oy := ReadFloat(Ext(e, OffsetY));
      var oz := ReadFloat(Ext(e, OffsetZ));
      var x := cfg.extruders[e].(offset := [ox, oy, oz]);
      SetExtWellFormed(C, cfg, e, x);
      cfg := SetExt(cfg, e, x);
    }

    /** A positive Z offset becomes 0 in memory and in the store. */
    method OffsetZRepair(e: int, c: bool) returns (c': bool)
      requires Valid() && 0 <= e < C.numExtruders
      modifies this`cfg, hal.mem
      ensures Valid() && State(c') == OffsetZCheck(L, C, old(State(c)), e)
    {
      var x := cfg.extruders[e];
      if !OffsetZOk(x.offset[2]) {
        var x' := x.(offset := [x.offset[0], x.offset[1], Zero]);
        SetExtWellFormed(C, cfg, e, x');
        cfg := SetExt(cfg, e, x');
        WriteField(Ext(e, OffsetZ), Zero);
        c' := true;
      } else {
        c' := c;
      }
    }

    method LoadExtOffsets(e: int, c: bool) returns (c': bool)
      requires Valid() && 0 <= e < C.numExtruders
      modifies this`cfg, hal.mem
      ensures Valid() && State(c') == ExtOffsets(L, C, old(State(c)), e)
    {
      ReadExtOffsets(e, c);
      c' := OffsetZRepair(e, c);
    }

    method LoadExtCooler(e: int, version: Byte, c: bool) returns (c': bool)
      requires Valid() && 0 <= e < C.numExtruders
      modifies this`cfg
      ensures Valid() && State(c') == ExtCooler(L, C, old(State(c)), e, version)
    {
      if version > 1 {
        var x := cfg.extruders[e];
        var b := ReadByte(Ext(e, CoolerSpeed));
        cfg := SetExt(cfg, e, x.(coolerSpeed := b));
      }
      c' := c;
    }

    method LoadExtHeater(e: int, version: Byte, c: bool) returns (c': bool)
      requires Valid() && 0 <= e < C.numExtruders
      modifies this`cfg, hal.mem
      ensures Valid() && State(c') == ExtHeater(L, C, old(State(c)), e, version)
    {
      c' := LoadExtDrive(e, c);
      c' := LoadExtGains(e, c');
      c' := LoadExtPidMax(e, c');
      c' := LoadExtSensor(e, c');
      c' := LoadExtOffsets(e, c');
      c' := LoadExtCooler(e, version, c');
    }

    /** The loop over the extruders. */
    method LoadExtruders(version: Byte, c: bool) returns (c': bool)
      requires Valid()
      modifies this`cfg, hal.mem
      ensures Valid() && ExtrudersLoaded(L, C, old(State(c)), C.numExtruders, version, State(c'))
    {
      ghost var st0 := State(c);
      c' := c;
      var e := 0;
      while e < C.numExtruders
        invariant 0 <= e <= C.numExtruders && Valid()
        invariant ExtrudersLoaded(L, C, st0, e, version, State(c'))
      {
        c' := LoadExtruderData(e, version, c', st0);
        e := e + 1;
      }
    }

    /** One extruder block: its motion limits, then its heater. */
    method LoadExtruderData(e: int, version: Byte, c: bool, ghost st0: St) returns (c': bool)
      requires Valid() && 0 <= e < C.numExtruders && Good(L, C, st0)
      requires ExtrudersLoaded(L, C, st0, e, version, State(c))
      modifies this`cfg, hal.mem
      ensures Valid() && ExtrudersLoaded(L, C, st0, e + 1, version, State(c'))
    {
      assert ExtrudersUpTo(L, C, st0, e + 1, version) == LoadExtruder(L, C, State(c), e, version);
      c' := LoadExtMotion(e, c);
      c' := LoadExtHeater(e, version, c');
    }

    // Lines 840-1013.

    /** The stored mode with its homing defaults; then the loop over the axes
        keeps a stored homing rate unless it is above the loaded max feed rate. */
    method LoadHoming(c: bool) returns (c': bool)
      requires Valid()
      modifies this`cfg, hal.mem
      ensures Valid() && State(c') == HomingUpTo(L, C, old(State(c)), 3)
    {
      var code := ReadByte(OperatingMode);
      var mode := if code == C.millCode then Mill else Print;
      cfg := cfg.(operatingMode := mode, homingFeedrate := HomingDefaults(C, mode));
      c' := c;
      var a := 0;
      while a < 3
        invariant 0 <= a <= 3 && Valid()
        invariant State(c') == HomingUpTo(L, C, old(State(c)), a)
      {
        c' := LoadHomingAxis(a, c');
        a := a + 1;
      }
    }

    /** One axis of the homing loop. */
    method LoadHomingAxis(a: Axis, c: bool) returns (c': bool)
      requires Valid()
      modifies this`cfg, hal.mem
      ensures Valid() && State(c') == HomingAxis(L, C, old(State(c)), a)
    {
      var f := HomingFeedrate(cfg.operatingMode, a);
      var tmp := ReadFloat(f);
      if Lt(cfg.maxFeedrate[a], tmp) {
        WriteField(f, cfg.homingFeedrate[a]);
        c' := true;
      } else {
        cfg := cfg.(homingFeedrate := cfg.homingFeedrate[a := tmp]);
        c' := c;
      }
    }

    method LoadManualStepsData(c: bool) returns (c': bool)
      requires Valid()
      modifies this`cfg
      ensures Valid() && State(c') == LoadManualSteps(L, C, old(State(c)))
    {
      var raw: int := ReadInt16(ZStepSize);
      cfg := cfg.(manualStepsZ := Constrain(raw % 0x1_0000, 1, C.stepTableMax));
      c' := c;
    }

    method LoadMillAccelData(c: bool) returns (c': bool)
      requires Valid()
      modifies this`cfg, hal.mem
      ensures Valid() && State(c') == LoadMillAccel(L, C, old(State(c)))
    {
      var v := ReadInt16(MillAcceleration);
      if v <= 0 {
        cfg := cfg.(millAcceleration := C.millerAcceleration);
        WriteField(MillAcceleration, C.millerAcceleration);
        c' := true;
      } else {
        cfg := cfg.(millAcceleration := v);
        c' := c;
      }
    }

    /** The loop over the motor driver channels: a current out of range is
        replaced in the store only. */
    method LoadMotorCurrents(c: bool) returns (c': bool)
      requires Valid()
      modifies this`cfg, hal.mem
      ensures Valid() && MotorCurrentsLoaded(L, C, old(State(c)), C.channels, State(c'))
    {
      ghost var st0 := State(c);
      c' := c;
      var ch := 0;
      while ch < C.channels
        invariant 0 <= ch <= C.channels && Valid() && Good(L, C, st0)
        invariant MotorCurrentsLoaded(L, C, st0, ch, State(c'))
        invariant st0 == old(State(c))
      {
        c' := LoadMotorCurrent(ch, c', st0);
        ch := ch + 1;
      }
    }

    /** One channel of the motor current loop. */
    method LoadMotorCurrent(ch: int, c: bool, ghost st0: St) returns (c': bool)
      requires Valid() && 0 <= ch < C.channels && Good(L, C, st0)
      requires MotorCurrentsLoaded(L, C, st0, ch, State(c))
      modifies this`cfg, hal.mem
      ensures Valid() && MotorCurrentsLoaded(L, C, st0, ch + 1, State(c'))
    {
      assert MotorCurrentUpTo(L, C, st0, ch + 1) == MotorCurrentChannel(L, C, State(c), ch);
      var b := ReadByte(MotorCurrent(ch));
      if MotorCurrentOk(C, ch, b) {
        cfg := cfg.(motorCurrent := cfg.motorCurrent[ch := b]);
        c' := c;
      } else {
        WriteField(MotorCurrent(ch), C.motorCurrentNormal[ch]);
        c' := true;
      }
    }

    method LoadStepPackingData(c: bool) returns (c': bool)
      requires Valid()
      modifies this`cfg, hal.mem
      ensures Valid() && State(c') == LoadStepPacking(L, C, old(State(c)))
    {
      var v := ReadInt16(StepPackingMinInterval);
      if v == 0 {
        cfg := cfg.(stepsPackingMinInterval := C.stepPacking);
        WriteField(StepPackingMinInterval, C.stepPacking);
        c' := true;
      } else {
        cfg := cfg.(stepsPackingMinInterval := Constrain(v, C.stepPackingMin, C.stepPackingMax));
        c' := c;
      }
    }

    // ---------------------------------------------------------- the whole load

    /** Lines 594-701: the fields before the extruder blocks. */
    method LoadAxesData(c: bool) returns (c': bool)
      requires Valid()
      modifies this`cfg, hal.mem
      ensures Valid() && State(c') == LoadAxes(L, C, old(State(c)))
    {
      c' := LoadHeaderData(c);
      c' := LoadMaxFeedrates(c');
      c' := LoadMiscData(c');
      c' := LoadAccelData(false, c');
      c' := LoadAccelData(true, c');
      c' := LoadBedData(c');
      c' := LoadLengths(c');
    }

    /** Lines 840-1013: the fields after the extruder blocks. */
    method LoadRestData(c: bool) returns (c': bool)
      requires Valid()
      modifies this`cfg, hal.mem
      ensures Valid() && State(c') == LoadRest(L, C, old(State(c)))
    {
      c' := LoadHoming(c);
      c' := LoadManualStepsData(c');
      c' := LoadMillAccelData(c');
      c' := LoadMotorCurrents(c');
      c' := LoadStepPackingData(c');
    }

    method LoadFieldsData(version: Byte, c: bool) returns (c': bool)
      requires Valid()
      modifies this`cfg, hal.mem
      ensures Valid() && State(c') == LoadFields(L, C, old(State(c)), version)
    {
      c' := LoadAxesData(c);
      c' := LoadExtruders(version, c');
      c' := LoadRestData(c');
    }

    /** The end of readDataFromEEPROM. */
    method FinishData(version: Byte, change: bool)
      requires Valid()
      modifies this`checksumWrites, hal.mem
      ensures Valid() && State(change) == FinishLoad(L, C, old(State(change)), version)
      ensures checksumWrites == old(checksumWrites) + FinishChecksumWrites(C, change, version)
    {
      if change {
        UpdateChecksum();
      }
      if version != C.protocolVersion {
        StoreData(false);
      }
    }

    /** readDataFromEEPROM: the stored version, every field with its repairs,
        one checksum for all repairs, and a full store when the version changed. */
    method ReadData()
      requires Valid()
      modifies this`cfg, this`checksumWrites, hal.mem
      ensures Valid()
      ensures Image() == LoadSpec(L, C, old(State(false))).mem
      ensures cfg == LoadSpec(L, C, old(State(false))).cfg
    {
      var version := ReadByte(Version);
      var change := LoadFieldsData(version, false);
      FinishData(version, change);
    }

    // ---------------------------------------------------------- entry points

    /** The writes both migrations end with: the print-mode X length in
        memory and in the store, and the extruder count of the build. */
    method WriteMigration()
      requires Valid()
      modifies this`cfg, hal.mem
      ensures Valid() && Image() == PutAll(L, old(Image()), MigrationWrites(C))
      ensures cfg == old(cfg).(axisLength := old(cfg).axisLength[0 := C.xLengthPrint])
    {
      MigrationWritesEffect(L, C, Image());
      cfg := cfg.(axisLength := cfg.axisLength[0 := C.xLengthPrint]);
      WriteField(XLength(Print), C.xLengthPrint);
      WriteField(NumExtruders, C.numExtruders);
    }

    /** The first steps of the growth migration: the second extruder's
        defaults in memory, then its block in the store. */
    method AddExtruderDefaults()
      requires Valid() && C.numExtruders == 2
      modifies this`cfg, hal.mem
      ensures Valid() && cfg == RestoreExtruderSpec(C, old(cfg), 1)
      ensures Image() == StoreExtruderSpec(L, C, old(Image()), cfg, 1)
    {
      RestoreExtruderSettings(1);
      StoreExtruderData(1);
    }

    /** A second extruder was added to the build (lines 1089-1107): its
        defaults in memory and in its block, the print-mode X length, the
        extruder count, the checksum. */
    method AddSecondExtruder()
      requires Valid() && C.numExtruders == 2
      modifies this`cfg, this`checksumWrites, hal.mem
      ensures Valid() && Snapshot(Image(), cfg) == GrowSpec(L, C, old(Image()), old(cfg))
      ensures checksumWrites == old(checksumWrites) + 1
    {
      AddExtruderDefaults();
      WriteMigration();
      UpdateChecksum();
    }

    /** The second extruder was removed from the build (lines 1109-1122): the
        print-mode X length, the extruder count, the checksum. */
    method RemoveSecondExtruder()
      requires Valid()
      modifies this`cfg, this`checksumWrites, hal.mem
      ensures Valid() && Snapshot(Image(), cfg) == ShrinkSpec(L, C, old(Image()), old(cfg))
      ensures checksumWrites == old(checksumWrites) + 1
    {
      WriteMigration();
      UpdateChecksum();
    }

    /** The checks init makes before it changes anything (lines 1058-1063). */
    method BootChecks() returns (corrupted: bool, wrongVersion: bool, grow: bool, shrink: bool)
      requires Valid()
      ensures corrupted == Corrupted(L, Image()) && wrongVersion == WrongVersion(L, C, Image())
      ensures grow == Grows(L, C, Image()) && shrink == Shrinks(L, C, Image())
    {
      var sum := ComputeChecksum();
      ByteAccess(Image(), L.integrity, 0);
      var integrity := hal.Read(L.integrity, KByte);
      corrupted := sum != integrity;
      var magic := ReadByte(Magic);
      wrongVersion := C.magic != magic;
      var count := ReadByte(NumExtruders);
      grow := C.numExtruders > count && C.numExtruders == 2;
      shrink := C.numExtruders < count && C.numExtruders == 1;
    }

    /** The reset branch of init (lines 1065-1068): wipe, restore the
        defaults, store them and give the inactive mode its homing defaults. */
    method Reset(corrupted: bool)
      requires Valid()
      modifies this`cfg, this`checksumWrites, hal.mem
      ensures Valid() && Snapshot(Image(), cfg) == ResetSpec(L, C, old(cfg), corrupted)
    {
      Clear();
      RestoreSettings();
      StoreData(corrupted);
      InitializeAllOperatingModes();
    }

    /** init: a corrupted store, a store of another EEPROM mode, or the three
        keys held at power-up reset the store, and init stops there; otherwise
        the extruder-count migration runs and the store is loaded. */
    method Init(keysPressed: bool)
      requires Valid()
      modifies this`cfg, this`checksumWrites, hal.mem
      ensures Valid()
      ensures Snapshot(Image(), cfg) == InitSpec(L, C, old(Image()), old(cfg), keysPressed)
    {
      var corrupted, wrongVersion, grow, shrink := BootChecks();
      if wrongVersion || corrupted || keysPressed {
        Reset(corrupted);
        return;
      }
      if grow {
        AddSecondExtruder();
      }
      if shrink {
        RemoveSecondExtruder();
      }
      ReadData();
    }

    /** update: the requested typed write at the raw address P, the checksum,
        and a full reload of the settings. */
    method Update(cmd: Command)
      requires Valid() && Fits(cmd)
      modifies this`cfg, this`checksumWrites, hal.mem
      ensures Valid()
      ensures Snapshot(Image(), cfg) == UpdateSpec(L, C, old(Image()), old(cfg), cmd)
    {
      if cmd.t.Some? && cmd.p.Some? {
        var p := cmd.p.value;
        match cmd.t.value
        case 0 =>
          if cmd.s.Some? {
            hal.Write(p, KByte, cmd.s.value);
          }
        case 1 =>
          if cmd.s.Some? {
            hal.Write(p, KInt16, cmd.s.value);
          }
        case 2 =>
          if cmd.s.Some? {
            hal.Write(p, KInt32, cmd.s.value);
          }
        case 3 =>
          if cmd.x.Some? {
            hal.Write(p, KFloat, cmd.x.value);
          }
        case _ =>
      }
      UpdateChecksum();
      ReadData();
    }

    /** initBaudrate: the stored baud rate, read early at boot, counts only
        when the store belongs to this build's EEPROM mode. */
    method InitBaudrate()
      requires Valid()
      modifies this`cfg
      ensures Valid() && cfg == BaudrateSpec(L, C, Image(), old(cfg))
    {
      var magic := ReadByte(Magic);
      if magic == C.magic {
        var b := ReadInt32(Baudrate);
        cfg := cfg.(baudrate := b);
      }
    }
  }
}
