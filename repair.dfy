/** What the repairs of readDataFromEEPROM promise: after a guard rejects a
    stored value, memory holds a value that passes the guard (given defaults
    that pass it) and the store holds the same value, so the next load keeps
    it without another repair; a value the guard accepts is taken without a
    write. */
module Repair {
  import opened Bytes
  import opened Float32
  import opened Layout
  import opened Settings
  import opened Writes
  import opened Checksum
  import opened Persist
  import opened Load

  /** Memory's (travel) acceleration of axis `a` is what the store holds. */
  ghost predicate AccelAgrees(L: Layout, C: Config, st: St, travel: bool, a: Axis)
    requires Good(L, C, st)
  {
    Get(L, st.mem, AccelField(travel, a)) == AccelOf(st.cfg, travel)[a]
  }

  /** One acceleration check (lines 636-669): an accepted value is left alone;
      a rejected one becomes the default in memory and in the store, which
      then passes the check. */
  lemma AccelCheckRepairs(L: Layout, C: Config, st: St, travel: bool, a: Axis)
    requires Good(L, C, st) && AccelOk(C, a, AccelDefault(C, travel, a))
    requires AccelAgrees(L, C, st, travel, a)
    ensures var r := AccelCheck(L, C, st, travel, a);
      && AccelOk(C, a, AccelOf(r.cfg, travel)[a])
      && AccelAgrees(L, C, r, travel, a)
      && (AccelOk(C, a, AccelOf(st.cfg, travel)[a]) ==> r == st)
      && (!AccelOk(C, a, AccelOf(st.cfg, travel)[a]) ==>
            r.change && AccelOf(r.cfg, travel)[a] == AccelDefault(C, travel, a))
  {
  }

  /** Axis `a` of a group passes its check, and the store holds what memory holds. */
  ghost predicate AccelSettled(L: Layout, C: Config, st: St, travel: bool, a: Axis)
    requires Good(L, C, st)
  {
    AccelOk(C, a, AccelOf(st.cfg, travel)[a]) && AccelAgrees(L, C, st, travel, a)
  }

  /** Checking axis `a` leaves another axis `b` as agreeing and as settled as it was. */
  lemma AccelCheckKeeps(L: Layout, C: Config, st: St, travel: bool, a: Axis, b: Axis)
    requires Good(L, C, st) && a != b
    ensures var r := AccelCheck(L, C, st, travel, a);
      && (AccelAgrees(L, C, st, travel, b) ==> AccelAgrees(L, C, r, travel, b))
      && (AccelSettled(L, C, st, travel, b) ==> AccelSettled(L, C, r, travel, b))
  {
    assert AccelField(travel, a) != AccelField(travel, b);
  }

  /** Reading a group makes memory agree with the store on all three axes. */
  lemma ReadAccelsAgree(L: Layout, C: Config, st: St, travel: bool)
    requires Good(L, C, st)
    ensures forall a: Axis :: AccelAgrees(L, C, ReadAccels(L, C, st, travel), travel, a)
  {
  }

  /** The three checks of a group, started where memory agrees with the store, settle every axis. */
  lemma {:induction false} AccelChecksSettle(L: Layout, C: Config, s0: St, travel: bool)
    requires Good(L, C, s0)
    requires forall a: Axis :: AccelOk(C, a, AccelDefault(C, travel, a)) && AccelAgrees(L, C, s0, travel, a)
    ensures var s1 := AccelCheck(L, C, s0, travel, 0); var s2 := AccelCheck(L, C, s1, travel, 1);
      var s3 := AccelCheck(L, C, s2, travel, 2);
      AccelSettled(L, C, s3, travel, 0) && AccelSettled(L, C, s3, travel, 1) && AccelSettled(L, C, s3, travel, 2)
  {
    var s1 := AccelCheck(L, C, s0, travel, 0);
    var s2 := AccelCheck(L, C, s1, travel, 1);
    var s3 := AccelCheck(L, C, s2, travel, 2);
    assert AccelOk(C, 0, AccelDefault(C, travel, 0)) && AccelAgrees(L, C, s0, travel, 0);
    assert AccelOk(C, 1, AccelDefault(C, travel, 1)) && AccelAgrees(L, C, s0, travel, 1);
    assert AccelOk(C, 2, AccelDefault(C, travel, 2)) && AccelAgrees(L, C, s0, travel, 2);
    AccelCheckRepairs(L, C, s0, travel, 0);
    AccelCheckKeeps(L, C, s0, travel, 0, 1);
    AccelCheckKeeps(L, C, s0, travel, 0, 2);
    AccelCheckRepairs(L, C, s1, travel, 1);
    AccelCheckKeeps(L, C, s1, travel, 1, 0);
    AccelCheckKeeps(L, C, s1, travel, 1, 2);
    AccelCheckRepairs(L, C, s2, travel, 2);
    AccelCheckKeeps(L, C, s2, travel, 2, 0);
    AccelCheckKeeps(L, C, s2, travel, 2, 1);
  }

  /** After a group of three acceleration checks every axis passes, and memory matches the store. */
  lemma {:induction false} AccelGroupRepairs(L: Layout, C: Config, st: St, travel: bool)
    requires Good(L, C, st) && DefaultsValid(C)
    ensures var r := LoadAccelGroup(L, C, st, travel);
      AccelSettled(L, C, r, travel, 0) && AccelSettled(L, C, r, travel, 1) && AccelSettled(L, C, r, travel, 2)
  {
    ReadAccelsAgree(L, C, st, travel);
    assert forall a: Axis :: AccelOk(C, a, AccelDefault(C, travel, a));
    AccelChecksSettle(L, C, ReadAccels(L, C, st, travel), travel);
  }

  /** The X length of the current mode (lines 685-697): afterwards it lies in
      (0, 245] in memory and the store holds it; an accepted stored value
      is taken without a write. */
  lemma XLengthRepairs(L: Layout, C: Config, st: St)
    requires Good(L, C, st) && DefaultsValid(C)
    ensures var r := LoadXLength(L, C, st); var f := XLength(st.cfg.operatingMode);
      && XLengthOk(r.cfg.axisLength[0])
      && Get(L, r.mem, f) == r.cfg.axisLength[0]
      && (XLengthOk(GetFloat(L, st.mem, f)) <==> r.mem == st.mem && r.change == st.change)
      && (XLengthOk(GetFloat(L, st.mem, f)) ==>
            r == st.(cfg := st.cfg.(axisLength := st.cfg.axisLength[0 := GetFloat(L, st.mem, f)])))
  {
    var mode := st.cfg.operatingMode;
    var v := GetFloat(L, st.mem, XLength(mode));
    if !XLengthOk(v) {
      var d := XLengthDefault(C, mode);
      var s1 := Put(L, st.mem, XLength(mode), d);
      assert Get(L, s1, XLength(mode)) == d;
      assert s1 != st.mem by { assert Get(L, s1, XLength(mode)) != Get(L, st.mem, XLength(mode)); }
    }
  }

  /** An extruder's start feed rate (lines 723-730): the store holds what
      memory holds afterwards; a rejected stored value is replaced by the
      smaller of the maximum feed rate and the value in memory. */
  lemma StartFeedrateRepairs(L: Layout, C: Config, st: St, e: int)
    requires Good(L, C, st) && 0 <= e < C.numExtruders
    ensures var r := ExtStartFeedrate(L, C, st, e);
      var x := st.cfg.extruders[e];
      var stored := GetFloat(L, st.mem, Ext(e, MaxStartFeedrate));
      var v := r.cfg.extruders[e].maxStartFeedrate;
      && Get(L, r.mem, Ext(e, MaxStartFeedrate)) == v
      && (ExtStartFeedrateOk(stored, x.maxFeedrate) ==>
            r == st.(cfg := SetExt(st.cfg, e, x.(maxStartFeedrate := stored))))
      && (!ExtStartFeedrateOk(stored, x.maxFeedrate) ==>
            v == Min(x.maxFeedrate, x.maxStartFeedrate) && r.change)
  {
  }

  /** An extruder's drive limits (lines 742-760): afterwards the pair in memory
      is no sentinel and the store holds it; a pair that is no sentinel is
      taken without a write. */
  lemma DriveRepairs(L: Layout, C: Config, st: St, e: int)
    requires Good(L, C, st) && 0 <= e < C.numExtruders && DefaultsValid(C)
    ensures var r := ExtDrive(L, C, st, e); var h := r.cfg.extruders[e].heater;
      && !DriveSentinel(h.driveMin, h.driveMax)
      && Get(L, r.mem, Ext(e, DriveMin)) == h.driveMin
      && Get(L, r.mem, Ext(e, DriveMax)) == h.driveMax
      && (var stored := (GetByte(L, st.mem, Ext(e, DriveMin)), GetByte(L, st.mem, Ext(e, DriveMax)));
          !DriveSentinel(stored.0, stored.1) ==> r.mem == st.mem && r.change == st.change)
  {
    var dmax := GetByte(L, st.mem, Ext(e, DriveMax));
    var dmin := GetByte(L, st.mem, Ext(e, DriveMin));
    if DriveSentinel(dmin, dmax) {
      var d := C.extruders[e].heater;
      assert ExtruderDefaultsValid(C.extruders[e]);
      var s1 := Put(L, st.mem, Ext(e, DriveMin), d.driveMin);
      var s2 := Put(L, s1, Ext(e, DriveMax), d.driveMax);
      assert Get(L, s1, Ext(e, DriveMin)) == d.driveMin;
      assert Get(L, s2, Ext(e, DriveMin)) == d.driveMin;
      assert Get(L, s2, Ext(e, DriveMax)) == d.driveMax;
    }
  }

  /** An extruder's Z offset (lines 779-783): afterwards it is not positive in
      memory and the store holds it; an accepted offset is taken without a
      write. */
  lemma OffsetZRepairs(L: Layout, C: Config, st: St, e: int)
    requires Good(L, C, st) && 0 <= e < C.numExtruders
    ensures var r := ExtOffsets(L, C, st, e); var z := r.cfg.extruders[e].offset[2];
      && OffsetZOk(z)
      && Get(L, r.mem, Ext(e, OffsetZ)) == z
      && (OffsetZOk(GetFloat(L, st.mem, Ext(e, OffsetZ))) ==> r.mem == st.mem && r.change == st.change)
      && (!OffsetZOk(GetFloat(L, st.mem, Ext(e, OffsetZ))) ==> z == Zero && r.change)
  {
    var z := GetFloat(L, st.mem, Ext(e, OffsetZ));
    var s1 := ReadOffsets(L, C, st, e);
    assert s1.cfg.extruders[e].offset[2] == z;
    if !OffsetZOk(z) {
      var x := s1.cfg.extruders[e];
      var m := SetExt(s1.cfg, e, x.(offset := [x.offset[0], x.offset[1], Zero]));
      assert m.extruders[e].offset[2] == Zero;
    }
  }

  /** A motor current channel (lines 979-988): a rejected stored current is
      replaced in the store only, by the normal current, which passes the
      check; memory then keeps the value it had. */
  lemma MotorCurrentRepairs(L: Layout, C: Config, st: St, ch: int)
    requires Good(L, C, st) && 0 <= ch < C.channels && DefaultsValid(C)
    ensures var r := MotorCurrentChannel(L, C, st, ch);
      var b := GetByte(L, st.mem, MotorCurrent(ch));
      && MotorCurrentOk(C, ch, Get(L, r.mem, MotorCurrent(ch)))
      && (MotorCurrentOk(C, ch, b) ==> r.mem == st.mem && r.cfg.motorCurrent[ch] == b)
      && (!MotorCurrentOk(C, ch, b) ==>
            r.cfg == st.cfg && r.change && Get(L, r.mem, MotorCurrent(ch)) == C.motorCurrentNormal[ch])
  {
    assert MotorCurrentOk(C, ch, C.motorCurrentNormal[ch]);
  }

  /** An axis's max feed rate (lines 606-612): afterwards memory's value does
      not exceed the limit the check used and the store holds it; an accepted
      stored value is taken without a write, a rejected one is replaced by
      the limit in memory and in the store. */
  lemma MaxFeedrateRepairs(L: Layout, C: Config, st: St, a: Axis)
    requires Good(L, C, st)
    ensures var r := MaxFeedrateAxis(L, C, st, a); var f := AxisMaxFeedrate(a);
      var stored := GetFloat(L, st.mem, f); var limit := st.cfg.maxFeedrate[a];
      && !Lt(limit, r.cfg.maxFeedrate[a])
      && Get(L, r.mem, f) == r.cfg.maxFeedrate[a]
      && (!Lt(limit, stored) ==>
            r == st.(cfg := st.cfg.(maxFeedrate := st.cfg.maxFeedrate[a := stored])))
      && (Lt(limit, stored) ==> r.change && r.cfg == st.cfg)
  {
  }

  /** A stored NaN max feed rate compares false with the limit, so it is
      taken into memory without a repair. */
  lemma NaNFeedrateTaken(L: Layout, C: Config, st: St, a: Axis)
    requires Good(L, C, st) && IsNaN(GetFloat(L, st.mem, AxisMaxFeedrate(a)))
    ensures var r := MaxFeedrateAxis(L, C, st, a);
      && r.mem == st.mem && r.change == st.change
      && r.cfg.maxFeedrate[a] == GetFloat(L, st.mem, AxisMaxFeedrate(a))
  {
  }

  /** An extruder's steps per mm (lines 707-713): an accepted stored value is
      taken without a write; a rejected one leaves memory as it was and the
      store receives memory's value, so afterwards the store holds what
      memory holds, which passes the check when memory's old value did. */
  lemma ExtStepsRepairs(L: Layout, C: Config, st: St, e: int)
    requires Good(L, C, st) && 0 <= e < C.numExtruders
    ensures var r := ExtSteps(L, C, st, e); var f := Ext(e, StepsPerMM);
      var stored := GetFloat(L, st.mem, f); var v := r.cfg.extruders[e].stepsPerMM;
      && Get(L, r.mem, f) == v
      && (ExtStepsOk(st.cfg.extruders[e].stepsPerMM) ==> ExtStepsOk(v))
      && (ExtStepsOk(stored) ==> r == st.(cfg := SetExt(st.cfg, e, st.cfg.extruders[e].(stepsPerMM := stored))))
      && (!ExtStepsOk(stored) ==> r.change && r.cfg == st.cfg)
  {
  }

  /** An extruder's max feed rate (lines 715-721), repaired the same way. */
  lemma ExtFeedrateRepairs(L: Layout, C: Config, st: St, e: int)
    requires Good(L, C, st) && 0 <= e < C.numExtruders
    ensures var r := ExtFeedrate(L, C, st, e); var f := Ext(e, MaxFeedrate);
      var stored := GetFloat(L, st.mem, f); var v := r.cfg.extruders[e].maxFeedrate;
      && Get(L, r.mem, f) == v
      && (ExtFeedrateOk(st.cfg.extruders[e].maxFeedrate) ==> ExtFeedrateOk(v))
      && (ExtFeedrateOk(stored) ==> r == st.(cfg := SetExt(st.cfg, e, st.cfg.extruders[e].(maxFeedrate := stored))))
      && (!ExtFeedrateOk(stored) ==> r.change && r.cfg == st.cfg)
  {
  }

  /** An extruder's acceleration (lines 732-738), repaired the same way. */
  lemma ExtAccelRepairs(L: Layout, C: Config, st: St, e: int)
    requires Good(L, C, st) && 0 <= e < C.numExtruders
    ensures var r := ExtAccel(L, C, st, e); var f := Ext(e, MaxAcceleration);
      var stored := GetFloat(L, st.mem, f); var v := r.cfg.extruders[e].maxAcceleration;
      && Get(L, r.mem, f) == v
      && (ExtAccelOk(st.cfg.extruders[e].maxAcceleration) ==> ExtAccelOk(v))
      && (ExtAccelOk(stored) ==> r == st.(cfg := SetExt(st.cfg, e, st.cfg.extruders[e].(maxAcceleration := stored))))
      && (!ExtAccelOk(stored) ==> r.change && r.cfg == st.cfg)
  {
  }

  /** An extruder's PID maximum (lines 764-769): a positive stored value is
      taken without a write; zero leaves memory as it was and the store
      receives memory's value. */
  lemma ExtPidMaxRepairs(L: Layout, C: Config, st: St, e: int)
    requires Good(L, C, st) && 0 <= e < C.numExtruders
    ensures var r := ExtPidMax(L, C, st, e); var f := Ext(e, PidMax);
      var stored := GetByte(L, st.mem, f); var v := r.cfg.extruders[e].heater.pidMax;
      && Get(L, r.mem, f) == v
      && (st.cfg.extruders[e].heater.pidMax > 0 ==> v > 0)
      && (stored > 0 ==> r == st.(cfg := SetExt(st.cfg, e, st.cfg.extruders[e].(heater :=
            st.cfg.extruders[e].heater.(pidMax := stored)))))
      && (stored == 0 ==> r.change && r.cfg == st.cfg)
  {
  }

  /** A homing feed rate of the loaded mode (lines 857-870): afterwards
      memory's value does not exceed the axis's max feed rate when the mode's
      default does not, and the store holds it; an accepted stored value is
      taken without a write, a rejected one is replaced in the store by the
      value in memory. */
  lemma HomingRepairs(L: Layout, C: Config, st: St, a: Axis)
    requires Good(L, C, st)
    ensures var r := HomingAxis(L, C, st, a); var f := HomingFeedrate(st.cfg.operatingMode, a);
      var stored := GetFloat(L, st.mem, f); var limit := st.cfg.maxFeedrate[a];
      var v := r.cfg.homingFeedrate[a];
      && Get(L, r.mem, f) == v
      && (!Lt(limit, st.cfg.homingFeedrate[a]) ==> !Lt(limit, v))
      && (!Lt(limit, stored) ==>
            r == st.(cfg := st.cfg.(homingFeedrate := st.cfg.homingFeedrate[a := stored])))
      && (Lt(limit, stored) ==> r.change && r.cfg == st.cfg)
  {
  }

  /** The milling acceleration (lines 927-933): afterwards it is positive in
      memory and the store holds it; a positive stored value is taken without
      a write, any other is replaced by the default in memory and in the store. */
  lemma MillAccelRepairs(L: Layout, C: Config, st: St)
    requires Good(L, C, st) && DefaultsValid(C)
    ensures var r := LoadMillAccel(L, C, st); var stored := GetInt16(L, st.mem, MillAcceleration);
      && r.cfg.millAcceleration > 0
      && Get(L, r.mem, MillAcceleration) == r.cfg.millAcceleration
      && (stored > 0 ==> r == st.(cfg := st.cfg.(millAcceleration := stored)))
      && (stored <= 0 ==> r.change && r.cfg.millAcceleration == C.millerAcceleration)
  {
  }

  /** The step packing interval (lines 1006-1013): afterwards it lies in
      [min, max] in memory; zero is replaced by the default in memory and in
      the store; any other stored value is constrained in memory and left
      in the store without a write. */
  lemma StepPackingRepairs(L: Layout, C: Config, st: St)
    requires Good(L, C, st) && DefaultsValid(C)
    ensures var r := LoadStepPacking(L, C, st); var stored := GetInt16(L, st.mem, StepPackingMinInterval);
      var v := r.cfg.stepsPackingMinInterval;
      && C.stepPackingMin <= v <= C.stepPackingMax
      && (stored != 0 ==>
            r == st.(cfg := st.cfg.(stepsPackingMinInterval := Constrain(stored, C.stepPackingMin, C.stepPackingMax))))
      && (stored == 0 ==> r.change && v == C.stepPacking && Get(L, r.mem, StepPackingMinInterval) == v)
  {
  }
}
