/** What a repair of readDataFromEEPROM leaves once the whole load is over.
    Every later step writes only its own fields and changes only its own
    part of memory, and the end of the load writes a field only with the
    value memory holds for it; so a repaired setting reaches the end of the
    load (and of init) unchanged, in memory and in the store, and the
    repair costs the load a checksum write. */
module Outcome {
  import opened Bytes
  import opened Float32
  import opened Layout
  import opened Settings
  import opened Writes
  import opened Checksum
  import opened Persist
  import opened Load
  import opened Repair
  import opened Entry
  import Quiet

  // ------------------------------------------------------------ lines 594-701

  /** The max feed rate checks write only max feed rates. */
  lemma {:induction false} FeedratesKeep(L: Layout, C: Config, st: St, n: nat, f: Field)
    requires Good(L, C, st) && n <= 3 && ValidField(f) && !f.AxisMaxFeedrate?
    ensures var r := MaxFeedrateUpTo(L, C, st, n);
      Get(L, r.mem, f) == Get(L, st.mem, f) && r.cfg == st.cfg.(maxFeedrate := r.cfg.maxFeedrate)
  {
    if n > 0 {
      FeedratesKeep(L, C, st, n - 1, f);
      FeedrateAxisKeeps(L, C, MaxFeedrateUpTo(L, C, st, n - 1), n - 1, f);
    }
  }

  lemma FeedrateAxisKeeps(L: Layout, C: Config, st: St, a: Axis, f: Field)
    requires Good(L, C, st) && ValidField(f) && !f.AxisMaxFeedrate?
    ensures var r := MaxFeedrateAxis(L, C, st, a);
      Get(L, r.mem, f) == Get(L, st.mem, f) && r.cfg == st.cfg.(maxFeedrate := r.cfg.maxFeedrate)
  {
  }

  /** A group of acceleration checks writes only that group's fields and
      changes only that group in memory. */
  lemma AccelGroupKeeps(L: Layout, C: Config, st: St, travel: bool, f: Field)
    requires Good(L, C, st) && ValidField(f)
    requires f != AccelField(travel, 0) && f != AccelField(travel, 1) && f != AccelField(travel, 2)
    ensures var r := LoadAccelGroup(L, C, st, travel);
      Get(L, r.mem, f) == Get(L, st.mem, f) && r.cfg == WithAccel(st.cfg, travel, AccelOf(r.cfg, travel))
  {
    var s0 := ReadAccels(L, C, st, travel);
    var s1 := AccelCheck(L, C, s0, travel, 0);
    var s2 := AccelCheck(L, C, s1, travel, 1);
    AccelCheckFrame(L, C, s0, travel, 0, f);
    AccelCheckFrame(L, C, s1, travel, 1, f);
    AccelCheckFrame(L, C, s2, travel, 2, f);
  }

  /** One acceleration check writes only its own field and changes only its
      group in memory. */
  lemma AccelCheckFrame(L: Layout, C: Config, st: St, travel: bool, a: Axis, f: Field)
    requires Good(L, C, st) && ValidField(f) && f != AccelField(travel, a)
    ensures var r := AccelCheck(L, C, st, travel, a);
      Get(L, r.mem, f) == Get(L, st.mem, f) && r.cfg == WithAccel(st.cfg, travel, AccelOf(r.cfg, travel))
  {
  }

  /** Checking axis `b` of a group leaves axis `a` alone, in memory and in the store. */
  lemma AccelCheckOther(L: Layout, C: Config, st: St, travel: bool, a: Axis, b: Axis)
    requires Good(L, C, st) && a != b
    ensures var r := AccelCheck(L, C, st, travel, b);
      && Get(L, r.mem, AccelField(travel, a)) == Get(L, st.mem, AccelField(travel, a))
      && AccelOf(r.cfg, travel)[a] == AccelOf(st.cfg, travel)[a]
  {
    AccelCheckFrame(L, C, st, travel, b, AccelField(travel, a));
  }

  /** The acceleration of axis `a` once its group has been read and checked:
      a stored value outside the window is the default, in memory and in the
      store, and `change` is raised. */
  lemma AccelGroupRepairsAxis(L: Layout, C: Config, st: St, travel: bool, a: Axis)
    requires Good(L, C, st) && !AccelOk(C, a, GetFloat(L, st.mem, AccelField(travel, a)))
    ensures var r := LoadAccelGroup(L, C, st, travel); var d := AccelDefault(C, travel, a);
      AccelOf(r.cfg, travel)[a] == d && Get(L, r.mem, AccelField(travel, a)) == d && r.change
  {
    var s0 := ReadAccels(L, C, st, travel);
    var s1 := AccelCheck(L, C, s0, travel, 0);
    var s2 := AccelCheck(L, C, s1, travel, 1);
    if a == 0 {
      AccelCheckOther(L, C, s1, travel, 0, 1);
      AccelCheckOther(L, C, s2, travel, 0, 2);
    } else if a == 1 {
      AccelCheckOther(L, C, s0, travel, 1, 0);
      AccelCheckOther(L, C, s2, travel, 1, 2);
    } else {
      AccelCheckOther(L, C, s0, travel, 2, 0);
      AccelCheckOther(L, C, s1, travel, 2, 1);
    }
  }

  /** Both acceleration groups: the other group leaves axis `a` of this one alone. */
  lemma AccelsRepairAxis(L: Layout, C: Config, st: St, travel: bool, a: Axis)
    requires Good(L, C, st) && !AccelOk(C, a, GetFloat(L, st.mem, AccelField(travel, a)))
    ensures var r := LoadAccels(L, C, st); var d := AccelDefault(C, travel, a);
      AccelOf(r.cfg, travel)[a] == d && Get(L, r.mem, AccelField(travel, a)) == d && r.change
  {
    var s1 := LoadAccelGroup(L, C, st, false);
    if travel {
      AccelGroupKeeps(L, C, st, false, AccelField(true, a));
      AccelGroupRepairsAxis(L, C, s1, true, a);
    } else {
      AccelGroupRepairsAxis(L, C, st, false, a);
      AccelGroupKeeps(L, C, s1, true, AccelField(false, a));
    }
  }

  /** The bed and the three lengths write only the X length of the mode and
      change only the bed and the lengths in memory. */
  lemma BedLengthsKeep(L: Layout, C: Config, st: St, f: Field)
    requires Good(L, C, st) && ValidField(f) && !f.XLength?
    ensures var r := LoadYZLength(L, C, LoadXLength(L, C, LoadBed(L, C, st)));
      && Get(L, r.mem, f) == Get(L, st.mem, f)
      && r.cfg == st.cfg.(bed := r.cfg.bed, axisLength := r.cfg.axisLength)
  {
  }

  /** Memory `m` and the image `mem` both hold the default acceleration of
      axis `a` of the group. */
  ghost predicate AccelIsDefault(L: Layout, C: Config, mem: seq<Byte>, m: Mirror, travel: bool, a: Axis)
    requires ValidLayout(L) && ValidConfig(C) && |mem| == StoreSize && WellFormed(C, m)
  {
    var d := AccelDefault(C, travel, a);
    AccelOf(m, travel)[a] == d && GetFloat(L, mem, AccelField(travel, a)) == d
  }

  /** A step that keeps the field and the group in memory keeps a default acceleration. */
  lemma AccelKept(L: Layout, C: Config, p: St, r: St, travel: bool, a: Axis)
    requires Good(L, C, p) && Good(L, C, r) && AccelIsDefault(L, C, p.mem, p.cfg, travel, a)
    requires Get(L, r.mem, AccelField(travel, a)) == Get(L, p.mem, AccelField(travel, a))
    requires AccelOf(r.cfg, travel) == AccelOf(p.cfg, travel)
    ensures AccelIsDefault(L, C, r.mem, r.cfg, travel, a)
  {
  }

  /** An acceleration outside its window is the default, in memory and in
      the store, after the steps before the extruder blocks. */
  lemma AxesRepairAccel(L: Layout, C: Config, st: St, travel: bool, a: Axis)
    requires Good(L, C, st) && !AccelOk(C, a, GetFloat(L, st.mem, AccelField(travel, a)))
    ensures var r := LoadAxes(L, C, st); AccelIsDefault(L, C, r.mem, r.cfg, travel, a) && r.change
  {
    var s1 := LoadHeader(L, C, st);
    var s2 := MaxFeedrateUpTo(L, C, s1, 3);
    var s3 := LoadMisc(L, C, s2);
    var s4 := LoadAccels(L, C, s3);
    var r := LoadAxes(L, C, st);
    FeedratesKeep(L, C, s1, 3, AccelField(travel, a));
    AccelsRepairAxis(L, C, s3, travel, a);
    BedLengthsKeep(L, C, s4, AccelField(travel, a));
    AccelKept(L, C, s4, r, travel, a);
  }

  /** The steps before the extruder blocks write no extruder field and leave
      the extruders in memory alone. */
  lemma AxesKeepExtruders(L: Layout, C: Config, st: St, f: Field)
    requires Good(L, C, st) && ValidField(f) && f.Ext?
    ensures var r := LoadAxes(L, C, st);
      Get(L, r.mem, f) == Get(L, st.mem, f) && r.cfg.extruders == st.cfg.extruders
  {
    var s1 := LoadHeader(L, C, st);
    var s2 := MaxFeedrateUpTo(L, C, s1, 3);
    var s3 := LoadMisc(L, C, s2);
    var s4 := LoadAccels(L, C, s3);
    FeedratesKeep(L, C, s1, 3, f);
    AccelGroupKeeps(L, C, s3, false, f);
    AccelGroupKeeps(L, C, LoadAccelGroup(L, C, s3, false), true, f);
    BedLengthsKeep(L, C, s4, f);
  }

  // ------------------------------------------------------------ lines 704-799

  /** `r` holds field `f` as `st` does and differs from `st` in memory at
      most in extruder `e`. */
  ghost predicate ExtFrame(L: Layout, C: Config, st: St, r: St, e: int, f: Field)
    requires Good(L, C, st) && Good(L, C, r) && 0 <= e < C.numExtruders && ValidField(f)
  {
    Get(L, r.mem, f) == Get(L, st.mem, f) && r.cfg == SetExt(st.cfg, e, r.cfg.extruders[e])
  }

  lemma ExtFrameChain(L: Layout, C: Config, a: St, b: St, c: St, e: int, f: Field)
    requires Good(L, C, a) && Good(L, C, b) && Good(L, C, c) && 0 <= e < C.numExtruders && ValidField(f)
    requires ExtFrame(L, C, a, b, e, f) && ExtFrame(L, C, b, c, e, f)
    ensures ExtFrame(L, C, a, c, e, f)
  {
    Quiet.SetExtTwice(a.cfg, e, b.cfg.extruders[e], c.cfg.extruders[e]);
  }

  // Each check of an extruder block writes only its own fields and changes
  // only that extruder in memory.

  lemma ExtStepsKeeps(L: Layout, C: Config, st: St, e: int, f: Field)
    requires Good(L, C, st) && 0 <= e < C.numExtruders && ValidField(f) && f != Ext(e, StepsPerMM)
    ensures ExtFrame(L, C, st, ExtSteps(L, C, st, e), e, f)
  {
  }

  lemma ExtFeedrateKeeps(L: Layout, C: Config, st: St, e: int, f: Field)
    requires Good(L, C, st) && 0 <= e < C.numExtruders && ValidField(f) && f != Ext(e, MaxFeedrate)
    ensures ExtFrame(L, C, st, ExtFeedrate(L, C, st, e), e, f)
  {
  }

  lemma ExtStartFeedrateKeeps(L: Layout, C: Config, st: St, e: int, f: Field)
    requires Good(L, C, st) && 0 <= e < C.numExtruders && ValidField(f) && f != Ext(e, MaxStartFeedrate)
    ensures ExtFrame(L, C, st, ExtStartFeedrate(L, C, st, e), e, f)
  {
  }

  lemma ExtAccelKeeps(L: Layout, C: Config, st: St, e: int, f: Field)
    requires Good(L, C, st) && 0 <= e < C.numExtruders && ValidField(f) && f != Ext(e, MaxAcceleration)
    ensures ExtFrame(L, C, st, ExtAccel(L, C, st, e), e, f)
  {
  }

  lemma ExtDriveKeeps(L: Layout, C: Config, st: St, e: int, f: Field)
    requires Good(L, C, st) && 0 <= e < C.numExtruders && ValidField(f) && f != Ext(e, DriveMin) && f != Ext(e, DriveMax)
    ensures ExtFrame(L, C, st, ExtDrive(L, C, st, e), e, f)
  {
  }

  lemma ExtGainsKeeps(L: Layout, C: Config, st: St, e: int, f: Field)
    requires Good(L, C, st) && 0 <= e < C.numExtruders && ValidField(f)
    ensures ExtFrame(L, C, st, ExtGains(L, C, st, e), e, f)
  {
  }

  lemma ExtPidMaxKeeps(L: Layout, C: Config, st: St, e: int, f: Field)
    requires Good(L, C, st) && 0 <= e < C.numExtruders && ValidField(f) && f != Ext(e, PidMax)
    ensures ExtFrame(L, C, st, ExtPidMax(L, C, st, e), e, f)
  {
  }

  lemma ExtSensorKeeps(L: Layout, C: Config, st: St, e: int, f: Field)
    requires Good(L, C, st) && 0 <= e < C.numExtruders && ValidField(f)
    ensures ExtFrame(L, C, st, ExtSensor(L, C, st, e), e, f)
  {
  }

  lemma ExtOffsetsKeeps(L: Layout, C: Config, st: St, e: int, f: Field)
    requires Good(L, C, st) && 0 <= e < C.numExtruders && ValidField(f) && f != Ext(e, OffsetZ)
    ensures ExtFrame(L, C, st, ExtOffsets(L, C, st, e), e, f)
  {
    var s1 := ReadOffsets(L, C, st, e);
    Quiet.SetExtTwice(st.cfg, e, s1.cfg.extruders[e], ExtOffsets(L, C, st, e).cfg.extruders[e]);
  }

  lemma ExtCoolerKeeps(L: Layout, C: Config, st: St, e: int, version: Byte, f: Field)
    requires Good(L, C, st) && 0 <= e < C.numExtruders && ValidField(f)
    ensures ExtFrame(L, C, st, ExtCooler(L, C, st, e, version), e, f)
  {
  }

  /** The motion limits of extruder `e` write only those four fields and
      change only extruder `e` in memory. */
  lemma MotionKeeps(L: Layout, C: Config, st: St, e: int, f: Field)
    requires Good(L, C, st) && 0 <= e < C.numExtruders && ValidField(f)
    requires f != Ext(e, StepsPerMM) && f != Ext(e, MaxFeedrate)
    requires f != Ext(e, MaxStartFeedrate) && f != Ext(e, MaxAcceleration)
    ensures ExtFrame(L, C, st, ExtMotion(L, C, st, e), e, f)
  {
    var s1 := ExtSteps(L, C, st, e);
    var s2 := ExtFeedrate(L, C, s1, e);
    var s3 := ExtStartFeedrate(L, C, s2, e);
    var r := ExtAccel(L, C, s3, e);
    ExtStepsKeeps(L, C, st, e, f);
    ExtFeedrateKeeps(L, C, s1, e, f);
    ExtStartFeedrateKeeps(L, C, s2, e, f);
    ExtAccelKeeps(L, C, s3, e, f);
    ExtFrameChain(L, C, st, s1, s2, e, f);
    ExtFrameChain(L, C, st, s2, s3, e, f);
    ExtFrameChain(L, C, st, s3, r, e, f);
  }

  /** The drive limits, gains and PID maximum of extruder `e` write only
      those three fields and change only extruder `e` in memory. */
  lemma ControlKeeps(L: Layout, C: Config, st: St, e: int, f: Field)
    requires Good(L, C, st) && 0 <= e < C.numExtruders && ValidField(f)
    requires f != Ext(e, DriveMin) && f != Ext(e, DriveMax) && f != Ext(e, PidMax)
    ensures ExtFrame(L, C, st, ExtPidMax(L, C, ExtGains(L, C, ExtDrive(L, C, st, e), e), e), e, f)
  {
    var s1 := ExtDrive(L, C, st, e);
    var s2 := ExtGains(L, C, s1, e);
    var r := ExtPidMax(L, C, s2, e);
    ExtDriveKeeps(L, C, st, e, f);
    ExtGainsKeeps(L, C, s1, e, f);
    ExtPidMaxKeeps(L, C, s2, e, f);
    ExtFrameChain(L, C, st, s1, s2, e, f);
    ExtFrameChain(L, C, st, s2, r, e, f);
  }

  /** The sensor, offsets and cooler of extruder `e` write only its Z offset
      and change only extruder `e` in memory. */
  lemma FittingsKeep(L: Layout, C: Config, st: St, e: int, version: Byte, f: Field)
    requires Good(L, C, st) && 0 <= e < C.numExtruders && ValidField(f) && f != Ext(e, OffsetZ)
    ensures ExtFrame(L, C, st, ExtCooler(L, C, ExtOffsets(L, C, ExtSensor(L, C, st, e), e), e, version), e, f)
  {
    var s1 := ExtSensor(L, C, st, e);
    var s2 := ExtOffsets(L, C, s1, e);
    var r := ExtCooler(L, C, s2, e, version);
    ExtSensorKeeps(L, C, st, e, f);
    ExtOffsetsKeeps(L, C, s1, e, f);
    ExtCoolerKeeps(L, C, s2, e, version, f);
    ExtFrameChain(L, C, st, s1, s2, e, f);
    ExtFrameChain(L, C, st, s2, r, e, f);
  }

  /** A block writes only fields of its own extruder and changes only that
      extruder in memory. */
  lemma ExtruderKeeps(L: Layout, C: Config, st: St, e: int, version: Byte, f: Field)
    requires Good(L, C, st) && 0 <= e < C.numExtruders && ValidField(f) && !(f.Ext? && f.extruder == e)
    ensures ExtFrame(L, C, st, LoadExtruder(L, C, st, e, version), e, f)
  {
    var s1 := ExtMotion(L, C, st, e);
    var s2 := ExtPidMax(L, C, ExtGains(L, C, ExtDrive(L, C, s1, e), e), e);
    var r := LoadExtruder(L, C, st, e, version);
    MotionKeeps(L, C, st, e, f);
    ControlKeeps(L, C, s1, e, f);
    FittingsKeep(L, C, s2, e, version, f);
    ExtFrameChain(L, C, st, s1, s2, e, f);
    ExtFrameChain(L, C, st, s2, r, e, f);
  }

  /** Blocks 0 .. n-1 write no field outside those blocks and change only the
      extruders in memory. */
  lemma {:induction false} ExtrudersKeep(L: Layout, C: Config, st: St, n: nat, version: Byte, f: Field)
    requires Good(L, C, st) && n <= C.numExtruders && ValidField(f) && !(f.Ext? && f.extruder < n)
    ensures var r := ExtrudersUpTo(L, C, st, n, version);
      Get(L, r.mem, f) == Get(L, st.mem, f) && r.cfg == st.cfg.(extruders := r.cfg.extruders)
  {
    if n > 0 {
      ExtrudersKeep(L, C, st, n - 1, version, f);
      NextBlockKeeps(L, C, st, n, version, f);
    }
  }

  /** Block n-1 on top of blocks 0 .. n-2 keeps every field outside it. */
  lemma NextBlockKeeps(L: Layout, C: Config, st: St, n: nat, version: Byte, f: Field)
    requires Good(L, C, st) && 0 < n <= C.numExtruders && ValidField(f) && !(f.Ext? && f.extruder == n - 1)
    ensures var p := ExtrudersUpTo(L, C, st, n - 1, version); var r := ExtrudersUpTo(L, C, st, n, version);
      Get(L, r.mem, f) == Get(L, p.mem, f) && r.cfg == p.cfg.(extruders := r.cfg.extruders)
  {
    var p := ExtrudersUpTo(L, C, st, n - 1, version);
    assert ExtrudersUpTo(L, C, st, n, version) == LoadExtruder(L, C, p, n - 1, version);
    ExtruderKeeps(L, C, p, n - 1, version, f);
  }

  /** The Z offset the image `s` holds for extruder `e` passes the guard. */
  ghost predicate StoredOffsetZOk(L: Layout, s: seq<Byte>, e: nat)
    requires ValidLayout(L) && |s| == StoreSize && e < MaxExtruders
  {
    OffsetZOk(GetFloat(L, s, Ext(e, OffsetZ)))
  }

  /** Extruder `e`'s Z offset in memory `m` and in the image `mem` once a
      load from the image `s` has checked it: not positive, the same in both,
      and 0 when `s` held it positive. */
  ghost predicate OffsetZSettled(L: Layout, C: Config, s: seq<Byte>, mem: seq<Byte>, m: Mirror, e: nat)
    requires ValidLayout(L) && ValidConfig(C) && |s| == StoreSize && |mem| == StoreSize
    requires WellFormed(C, m) && e < C.numExtruders
  {
    var z := m.extruders[e].offset[2];
    && OffsetZOk(z) && GetFloat(L, mem, Ext(e, OffsetZ)) == z
    && (!StoredOffsetZOk(L, s, e) ==> z == Zero)
  }

  /** A step that keeps the field and the extruder in memory keeps a settled Z offset. */
  lemma OffsetZKept(L: Layout, C: Config, s: seq<Byte>, p: St, r: St, e: nat)
    requires Good(L, C, p) && Good(L, C, r) && |s| == StoreSize && e < C.numExtruders
    requires OffsetZSettled(L, C, s, p.mem, p.cfg, e)
    requires Get(L, r.mem, Ext(e, OffsetZ)) == Get(L, p.mem, Ext(e, OffsetZ))
    requires r.cfg.extruders[e] == p.cfg.extruders[e]
    ensures OffsetZSettled(L, C, s, r.mem, r.cfg, e)
  {
  }

  /** Settled against an image is settled against any image holding the same Z offset. */
  lemma OffsetZFrom(L: Layout, C: Config, s: seq<Byte>, s': seq<Byte>, mem: seq<Byte>, m: Mirror, e: nat)
    requires ValidLayout(L) && ValidConfig(C) && |s| == StoreSize && |s'| == StoreSize && |mem| == StoreSize
    requires WellFormed(C, m) && e < C.numExtruders
    requires Get(L, s', Ext(e, OffsetZ)) == Get(L, s, Ext(e, OffsetZ)) && OffsetZSettled(L, C, s', mem, m, e)
    ensures OffsetZSettled(L, C, s, mem, m, e) && (StoredOffsetZOk(L, s, e) <==> StoredOffsetZOk(L, s', e))
  {
  }

  /** Extruder `e`'s Z offset after its block: never positive, the store holds
      it, and a positive stored offset became 0 and raised `change`. */
  lemma ExtruderOffsetZ(L: Layout, C: Config, st: St, e: int, version: Byte)
    requires Good(L, C, st) && 0 <= e < C.numExtruders
    ensures var r := LoadExtruder(L, C, st, e, version);
      OffsetZSettled(L, C, st.mem, r.mem, r.cfg, e) && (!StoredOffsetZOk(L, st.mem, e) ==> r.change)
  {
    var s1 := ExtMotion(L, C, st, e);
    var s2 := ExtPidMax(L, C, ExtGains(L, C, ExtDrive(L, C, s1, e), e), e);
    var s3 := ExtSensor(L, C, s2, e);
    MotionKeeps(L, C, st, e, Ext(e, OffsetZ));
    ControlKeeps(L, C, s1, e, Ext(e, OffsetZ));
    OffsetZRepairs(L, C, s3, e);
  }

  /** Extruder `e`'s Z offset once blocks 0 .. n-1 are loaded, for `e < n`:
      never positive, the store holds it, and a positive stored offset became
      0 and raised `change`. */
  lemma {:induction false} ExtrudersOffsetZ(L: Layout, C: Config, st: St, e: nat, n: nat, version: Byte)
    requires Good(L, C, st) && e < n <= C.numExtruders
    ensures var r := ExtrudersUpTo(L, C, st, n, version);
      OffsetZSettled(L, C, st.mem, r.mem, r.cfg, e) && (!StoredOffsetZOk(L, st.mem, e) ==> r.change)
  {
    var p := ExtrudersUpTo(L, C, st, n - 1, version);
    assert ExtrudersUpTo(L, C, st, n, version) == LoadExtruder(L, C, p, n - 1, version);
    if n - 1 == e {
      ExtrudersKeep(L, C, st, e, version, Ext(e, OffsetZ));
      ExtruderOffsetZ(L, C, p, e, version);
    } else {
      ExtrudersOffsetZ(L, C, st, e, n - 1, version);
      OtherBlockKeepsOffsetZ(L, C, st.mem, p, n - 1, version, e);
    }
  }

  /** The block of extruder `d` leaves a settled Z offset of extruder `e` settled. */
  lemma OtherBlockKeepsOffsetZ(L: Layout, C: Config, s: seq<Byte>, p: St, d: int, version: Byte, e: nat)
    requires Good(L, C, p) && |s| == StoreSize && 0 <= d < C.numExtruders && e < C.numExtruders && d != e
    requires OffsetZSettled(L, C, s, p.mem, p.cfg, e)
    ensures var r := LoadExtruder(L, C, p, d, version);
      OffsetZSettled(L, C, s, r.mem, r.cfg, e) && (p.change ==> r.change)
  {
    var r := LoadExtruder(L, C, p, d, version);
    ExtruderKeeps(L, C, p, d, version, Ext(e, OffsetZ));
    assert r.cfg.extruders[e] == p.cfg.extruders[e];
  }

  // ------------------------------------------------------------ lines 840-1013

  /** The homing checks write only homing feed rates and change only the
      mode and the homing feed rates in memory. */
  lemma {:induction false} HomingKeeps(L: Layout, C: Config, st: St, n: nat, f: Field)
    requires Good(L, C, st) && n <= 3 && ValidField(f) && !f.HomingFeedrate?
    ensures var r := HomingUpTo(L, C, st, n);
      && Get(L, r.mem, f) == Get(L, st.mem, f)
      && r.cfg == st.cfg.(operatingMode := r.cfg.operatingMode, homingFeedrate := r.cfg.homingFeedrate)
  {
    if n > 0 {
      HomingKeeps(L, C, st, n - 1, f);
      HomingAxisKeeps(L, C, HomingUpTo(L, C, st, n - 1), n - 1, f);
    }
  }

  lemma HomingAxisKeeps(L: Layout, C: Config, st: St, a: Axis, f: Field)
    requires Good(L, C, st) && ValidField(f) && !f.HomingFeedrate?
    ensures var r := HomingAxis(L, C, st, a);
      Get(L, r.mem, f) == Get(L, st.mem, f) && r.cfg == st.cfg.(homingFeedrate := r.cfg.homingFeedrate)
  {
  }

  /** The motor current checks write only motor currents and change only the
      motor currents in memory. */
  lemma {:induction false} CurrentsKeep(L: Layout, C: Config, st: St, n: nat, f: Field)
    requires Good(L, C, st) && n <= C.channels && ValidField(f) && !f.MotorCurrent?
    ensures var r := MotorCurrentUpTo(L, C, st, n);
      Get(L, r.mem, f) == Get(L, st.mem, f) && r.cfg == st.cfg.(motorCurrent := r.cfg.motorCurrent)
  {
    if n > 0 {
      var p := MotorCurrentUpTo(L, C, st, n - 1);
      assert MotorCurrentUpTo(L, C, st, n) == MotorCurrentChannel(L, C, p, n - 1);
      CurrentsKeep(L, C, st, n - 1, f);
      CurrentChannelKeeps(L, C, p, n - 1, f);
    }
  }

  lemma CurrentChannelKeeps(L: Layout, C: Config, st: St, ch: int, f: Field)
    requires Good(L, C, st) && 0 <= ch < C.channels && ValidField(f) && !f.MotorCurrent?
    ensures var r := MotorCurrentChannel(L, C, st, ch);
      Get(L, r.mem, f) == Get(L, st.mem, f) && r.cfg == st.cfg.(motorCurrent := r.cfg.motorCurrent)
  {
  }

  /** The fields the steps after the extruder blocks may write. */
  predicate RestField(f: Field) {
    f.HomingFeedrate? || f.MillAcceleration? || f.MotorCurrent? || f.StepPackingMinInterval?
  }

  // The manual Z steps, the milling acceleration and the step packing write
  // only their own fields and change only those in memory.

  lemma ManualStepsKeeps(L: Layout, C: Config, st: St, f: Field)
    requires Good(L, C, st) && ValidField(f)
    ensures var r := LoadManualSteps(L, C, st);
      Get(L, r.mem, f) == Get(L, st.mem, f) && r.cfg == st.cfg.(manualStepsZ := r.cfg.manualStepsZ)
  {
  }

  lemma MillAccelKeeps(L: Layout, C: Config, st: St, f: Field)
    requires Good(L, C, st) && ValidField(f) && !f.MillAcceleration?
    ensures var r := LoadMillAccel(L, C, st);
      Get(L, r.mem, f) == Get(L, st.mem, f) && r.cfg == st.cfg.(millAcceleration := r.cfg.millAcceleration)
  {
  }

  lemma StepPackingKeeps(L: Layout, C: Config, st: St, f: Field)
    requires Good(L, C, st) && ValidField(f) && !f.StepPackingMinInterval?
    ensures var r := LoadStepPacking(L, C, st);
      Get(L, r.mem, f) == Get(L, st.mem, f) && r.cfg == st.cfg.(stepsPackingMinInterval := r.cfg.stepsPackingMinInterval)
  {
  }

  /** The steps after the extruder blocks write only their own fields and
      leave the accelerations and the extruders in memory alone. */
  lemma RestKeeps(L: Layout, C: Config, st: St, f: Field)
    requires Good(L, C, st) && ValidField(f) && !RestField(f)
    ensures var r := LoadRest(L, C, st);
      && Get(L, r.mem, f) == Get(L, st.mem, f)
      && r.cfg.maxAccel == st.cfg.maxAccel && r.cfg.maxTravelAccel == st.cfg.maxTravelAccel
      && r.cfg.extruders == st.cfg.extruders
  {
    var s1 := HomingUpTo(L, C, st, 3);
    var s2 := LoadManualSteps(L, C, s1);
    var s3 := LoadMillAccel(L, C, s2);
    var s4 := MotorCurrentUpTo(L, C, s3, C.channels);
    HomingKeeps(L, C, st, 3, f);
    ManualStepsKeeps(L, C, s1, f);
    MillAccelKeeps(L, C, s2, f);
    CurrentsKeep(L, C, s3, C.channels, f);
    StepPackingKeeps(L, C, s4, f);
  }

  // ------------------------------------------------------------ lines 1034-1040

  /** The end of a load keeps a field whose stored value is the one a full
      store of memory would write (or that a full store leaves alone), and
      changes neither memory nor `change`. */
  lemma FinishKeeps(L: Layout, C: Config, fs: St, version: Byte, g: Field)
    requires Good(L, C, fs) && ValidField(g)
    requires var o := StoreValue(C, fs.cfg, false, g); o.Some? ==> Norm(KindOf(g), o.value) == Get(L, fs.mem, g)
    ensures var r := FinishLoad(L, C, fs, version);
      Get(L, r.mem, g) == Get(L, fs.mem, g) && r.cfg == fs.cfg && r.change == fs.change
  {
    var s1 := if fs.change then WithChecksum(L, fs.mem) else fs.mem;
    WithChecksumKeepsFields(L, fs.mem);
    if version != C.protocolVersion {
      StoredField(L, C, s1, fs.cfg, false, g);
    }
  }

  /** The end of a load keeps a settled Z offset settled. */
  lemma FinishKeepsOffsetZ(L: Layout, C: Config, s: seq<Byte>, fs: St, version: Byte, e: nat)
    requires Good(L, C, fs) && |s| == StoreSize && e < C.numExtruders
    requires OffsetZSettled(L, C, s, fs.mem, fs.cfg, e)
    ensures var r := FinishLoad(L, C, fs, version);
      OffsetZSettled(L, C, s, r.mem, r.cfg, e) && r.change == fs.change
  {
    assert StoreValue(C, fs.cfg, false, Ext(e, OffsetZ)) == Some(fs.cfg.extruders[e].offset[2]);
    FinishKeeps(L, C, fs, version, Ext(e, OffsetZ));
  }

  /** The end of a load keeps a default acceleration. */
  lemma FinishKeepsAccel(L: Layout, C: Config, fs: St, version: Byte, travel: bool, a: Axis)
    requires Good(L, C, fs) && AccelIsDefault(L, C, fs.mem, fs.cfg, travel, a)
    ensures var r := FinishLoad(L, C, fs, version);
      AccelIsDefault(L, C, r.mem, r.cfg, travel, a) && r.change == fs.change
  {
    FinishKeeps(L, C, fs, version, AccelField(travel, a));
  }

  // ------------------------------------------------------------ the whole load

  /** An acceleration outside its window is the default, in memory and in
      the store, once the extruder blocks are loaded. */
  lemma BlocksRepairAccel(L: Layout, C: Config, st: St, version: Byte, travel: bool, a: Axis)
    requires Good(L, C, st) && !AccelOk(C, a, GetFloat(L, st.mem, AccelField(travel, a)))
    ensures var r := ExtrudersUpTo(L, C, LoadAxes(L, C, st), C.numExtruders, version);
      AccelIsDefault(L, C, r.mem, r.cfg, travel, a) && r.change
  {
    var s := LoadAxes(L, C, st);
    var x := ExtrudersUpTo(L, C, s, C.numExtruders, version);
    AxesRepairAccel(L, C, st, travel, a);
    ExtrudersKeep(L, C, s, C.numExtruders, version, AccelField(travel, a));
    AccelKept(L, C, s, x, travel, a);
  }

  /** The steps after the extruder blocks keep a default acceleration. */
  lemma RestKeepsAccel(L: Layout, C: Config, x: St, travel: bool, a: Axis)
    requires Good(L, C, x) && AccelIsDefault(L, C, x.mem, x.cfg, travel, a)
    ensures var r := LoadRest(L, C, x); AccelIsDefault(L, C, r.mem, r.cfg, travel, a) && (x.change ==> r.change)
  {
    RestKeeps(L, C, x, AccelField(travel, a));
    AccelKept(L, C, x, LoadRest(L, C, x), travel, a);
  }

  /** An acceleration outside its window is the default, in memory and in
      the store, once every field has been read and checked. */
  lemma FieldsRepairAccel(L: Layout, C: Config, st: St, version: Byte, travel: bool, a: Axis)
    requires Good(L, C, st) && !AccelOk(C, a, GetFloat(L, st.mem, AccelField(travel, a)))
    ensures var r := LoadFields(L, C, st, version); AccelIsDefault(L, C, r.mem, r.cfg, travel, a) && r.change
  {
    BlocksRepairAccel(L, C, st, version, travel, a);
    RestKeepsAccel(L, C, ExtrudersUpTo(L, C, LoadAxes(L, C, st), C.numExtruders, version), travel, a);
  }

  /** An acceleration the load finds outside its window ends the load as the
      default, in memory and in the store, with `change` raised. */
  lemma AccelRepairLasts(L: Layout, C: Config, st: St, travel: bool, a: Axis)
    requires Good(L, C, st) && !AccelOk(C, a, GetFloat(L, st.mem, AccelField(travel, a)))
    ensures var r := LoadSpec(L, C, st); AccelIsDefault(L, C, r.mem, r.cfg, travel, a) && r.change
  {
    var version := GetByte(L, st.mem, Version);
    FieldsRepairAccel(L, C, st, version, travel, a);
    FinishKeepsAccel(L, C, LoadFields(L, C, st, version), version, travel, a);
  }

  /** A load that repairs an acceleration rewrites the checksum at least once. */
  lemma AccelRepairWritesChecksum(L: Layout, C: Config, st: St, travel: bool, a: Axis)
    requires Good(L, C, st) && !AccelOk(C, a, GetFloat(L, st.mem, AccelField(travel, a)))
    ensures LoadChecksumWrites(L, C, st) >= 1
  {
    FieldsRepairAccel(L, C, st, GetByte(L, st.mem, Version), travel, a);
  }

  /** Every extruder's Z offset once the extruder blocks are loaded. */
  lemma BlocksOffsetZ(L: Layout, C: Config, st: St, version: Byte, e: nat)
    requires Good(L, C, st) && e < C.numExtruders
    ensures var r := ExtrudersUpTo(L, C, LoadAxes(L, C, st), C.numExtruders, version);
      OffsetZSettled(L, C, st.mem, r.mem, r.cfg, e) && (!StoredOffsetZOk(L, st.mem, e) ==> r.change)
  {
    var s := LoadAxes(L, C, st);
    var x := ExtrudersUpTo(L, C, s, C.numExtruders, version);
    AxesKeepExtruders(L, C, st, Ext(e, OffsetZ));
    ExtrudersOffsetZ(L, C, s, e, C.numExtruders, version);
    OffsetZFrom(L, C, st.mem, s.mem, x.mem, x.cfg, e);
  }

  /** The steps after the extruder blocks keep a settled Z offset settled. */
  lemma RestKeepsOffsetZ(L: Layout, C: Config, s: seq<Byte>, x: St, e: nat)
    requires Good(L, C, x) && |s| == StoreSize && e < C.numExtruders && OffsetZSettled(L, C, s, x.mem, x.cfg, e)
    ensures var r := LoadRest(L, C, x); OffsetZSettled(L, C, s, r.mem, r.cfg, e) && (x.change ==> r.change)
  {
    RestKeeps(L, C, x, Ext(e, OffsetZ));
    OffsetZKept(L, C, s, x, LoadRest(L, C, x), e);
  }

  /** Every extruder's Z offset once every field has been read and checked:
      never positive, the store holds it, and a positive stored offset
      became 0 and raised `change`. */
  lemma FieldsOffsetZ(L: Layout, C: Config, st: St, version: Byte, e: nat)
    requires Good(L, C, st) && e < C.numExtruders
    ensures var r := LoadFields(L, C, st, version);
      OffsetZSettled(L, C, st.mem, r.mem, r.cfg, e) && (!StoredOffsetZOk(L, st.mem, e) ==> r.change)
  {
    BlocksOffsetZ(L, C, st, version, e);
    RestKeepsOffsetZ(L, C, st.mem, ExtrudersUpTo(L, C, LoadAxes(L, C, st), C.numExtruders, version), e);
  }

  /** Every extruder's Z offset ends the load not positive, in memory and in
      the store alike; a positive stored offset ends as 0 with `change` raised. */
  lemma OffsetZLasts(L: Layout, C: Config, st: St, e: nat)
    requires Good(L, C, st) && e < C.numExtruders
    ensures var r := LoadSpec(L, C, st);
      OffsetZSettled(L, C, st.mem, r.mem, r.cfg, e) && (!StoredOffsetZOk(L, st.mem, e) ==> r.change)
  {
    var version := GetByte(L, st.mem, Version);
    FieldsOffsetZ(L, C, st, version, e);
    FinishKeepsOffsetZ(L, C, st.mem, LoadFields(L, C, st, version), version, e);
  }

  /** A load that finds a positive Z offset rewrites the checksum at least once. */
  lemma OffsetZRepairWritesChecksum(L: Layout, C: Config, st: St, e: nat)
    requires Good(L, C, st) && e < C.numExtruders && !StoredOffsetZOk(L, st.mem, e)
    ensures LoadChecksumWrites(L, C, st) >= 1
  {
    FieldsOffsetZ(L, C, st, GetByte(L, st.mem, Version), e);
  }

  // ------------------------------------------------------------ init

  /** The extruder-count migration writes only the count, the print-mode X
      length and the second block. */
  lemma MigrateKeeps(L: Layout, C: Config, s: seq<Byte>, m: Mirror, f: Field)
    requires ValidLayout(L) && ValidConfig(C) && WellFormed(C, m) && |s| == StoreSize && ValidField(f)
    requires f != NumExtruders && f != XLength(Print) && !(f.Ext? && f.extruder == 1)
    ensures Get(L, Migrate(L, C, s, m).mem, f) == Get(L, s, f)
  {
    if Grows(L, C, s) {
      GrowKeepsFields(L, C, s, m);
    } else if Shrinks(L, C, s) {
      MigrationFacts(L, C, s);
    }
  }

  /** Init without a reset: an acceleration stored outside its window is the
      default afterwards, in memory and in the store, and the load inside
      init rewrites the checksum at least once. */
  lemma InitRepairsAccel(L: Layout, C: Config, s: seq<Byte>, m: Mirror, keys: bool, travel: bool, a: Axis)
    requires ValidLayout(L) && ValidConfig(C) && WellFormed(C, m) && |s| == StoreSize
    requires !NeedsReset(L, C, s, keys) && !AccelOk(C, a, GetFloat(L, s, AccelField(travel, a)))
    ensures var r := InitSpec(L, C, s, m, keys); var r1 := Migrate(L, C, s, m);
      AccelIsDefault(L, C, r.mem, r.cfg, travel, a) && LoadChecksumWrites(L, C, St(Store(r1.mem), r1.cfg, false)) >= 1
  {
    var r1 := Migrate(L, C, s, m);
    MigrateKeeps(L, C, s, m, AccelField(travel, a));
    AccelRepairLasts(L, C, St(Store(r1.mem), r1.cfg, false), travel, a);
    AccelRepairWritesChecksum(L, C, St(Store(r1.mem), r1.cfg, false), travel, a);
  }

  /** Init without a reset leaves every extruder's Z offset not positive, in
      memory and in the store alike; one the migrated store holds positive
      ends as 0, and the load inside init rewrites the checksum. */
  lemma InitOffsetZ(L: Layout, C: Config, s: seq<Byte>, m: Mirror, keys: bool, e: nat)
    requires ValidLayout(L) && ValidConfig(C) && WellFormed(C, m) && |s| == StoreSize
    requires !NeedsReset(L, C, s, keys) && e < C.numExtruders
    ensures var r := InitSpec(L, C, s, m, keys); var r1 := Migrate(L, C, s, m);
      && OffsetZSettled(L, C, r1.mem, r.mem, r.cfg, e)
      && (!StoredOffsetZOk(L, r1.mem, e) ==> LoadChecksumWrites(L, C, St(Store(r1.mem), r1.cfg, false)) >= 1)
  {
    var r1 := Migrate(L, C, s, m);
    OffsetZLasts(L, C, St(Store(r1.mem), r1.cfg, false), e);
    if !StoredOffsetZOk(L, r1.mem, e) {
      OffsetZRepairWritesChecksum(L, C, St(Store(r1.mem), r1.cfg, false), e);
    }
  }
}
