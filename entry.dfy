/** The public entry points of the EEPROM class that sit on top of store and
    load: the boot check with its reset and extruder-count migration (init),
    the command that pokes one stored value (update) and the early read of
    the baud rate (initBaudrate). */
module Entry {
  import opened Bytes
  import opened Float32
  import opened Layout
  import opened Settings
  import opened Writes
  import opened Checksum
  import opened Persist
  import opened Load

  // ------------------------------------------------------------ init

  /** The stored integrity byte does not match the checksum (line 1058). */
  predicate Corrupted(L: Layout, s: seq<Byte>)
    requires ValidLayout(L) && |s| == StoreSize
  {
    Checksum.Checksum(L, s) != s[L.integrity]
  }

  /** The magic byte is not this build's EEPROM_MODE (line 1059). */
  predicate WrongVersion(L: Layout, C: Config, s: seq<Byte>)
    requires ValidLayout(L) && |s| == StoreSize
  {
    C.magic != GetByte(L, s, Magic)
  }

  /** Any of the three reasons init wipes the store; `keys` stands for the
      back, OK and play keys all held at power-up (lines 1058-1065). */
  predicate NeedsReset(L: Layout, C: Config, s: seq<Byte>, keys: bool)
    requires ValidLayout(L) && |s| == StoreSize
  {
    WrongVersion(L, C, s) || Corrupted(L, s) || keys
  }

  /** The build has a second extruder the store does not know of (line 1062). */
  predicate Grows(L: Layout, C: Config, s: seq<Byte>)
    requires ValidLayout(L) && |s| == StoreSize
  {
    C.numExtruders > GetByte(L, s, NumExtruders) && C.numExtruders == 2
  }

  /** The store knows of a second extruder the build no longer has (line 1063). */
  predicate Shrinks(L: Layout, C: Config, s: seq<Byte>)
    requires ValidLayout(L) && |s| == StoreSize
  {
    C.numExtruders < GetByte(L, s, NumExtruders) && C.numExtruders == 1
  }

  /** The extruder-count migration of lines 1089-1123, decided on the store
      as init found it. */
  function Migrate(L: Layout, C: Config, s: seq<Byte>, m: Mirror): (r: Snapshot)
    requires ValidLayout(L) && ValidConfig(C) && WellFormed(C, m) && |s| == StoreSize
    ensures |r.mem| == StoreSize && WellFormed(C, r.cfg)
  {
    var r1 := if Grows(L, C, s) then GrowSpec(L, C, s, m) else Snapshot(s, m);
    if Shrinks(L, C, s) then ShrinkSpec(L, C, r1.mem, r1.cfg) else r1
  }

  /** init: reset and stop, or migrate and load. */
  function InitSpec(L: Layout, C: Config, s: seq<Byte>, m: Mirror, keys: bool): (r: Snapshot)
    requires ValidLayout(L) && ValidConfig(C) && WellFormed(C, m) && |s| == StoreSize
    ensures |r.mem| == StoreSize && WellFormed(C, r.cfg)
  {
    if NeedsReset(L, C, s, keys) then ResetSpec(L, C, m, Corrupted(L, s))
    else
      var r1 := Migrate(L, C, s, m);
      var r2 := LoadSpec(L, C, St(Store(r1.mem), r1.cfg, false));
      Snapshot(r2.mem, r2.cfg)
  }

  // ------------------------------------------------------------ update

  /** The parameters of the settings command that update reads: T selects
      the kind, P the address, S an integer value and X a float value. */
  datatype Command = Command(t: Option<int>, p: Option<int>, s: Option<int>, x: Option<Float>)

  /** One typed write at a raw address. */
  datatype Poke = Poke(pos: int, kind: Kind, value: int)

  /** The write a command asks for (lines 21-45): T 0, 1 and 2 write S as a
      byte, an int16 or an int32, T 3 writes X as a float; without T and P,
      without the value the type needs, or with another T nothing is written. */
  function Requested(cmd: Command): (r: Option<Poke>)
    ensures r.Some? <==>
      (cmd.t.Some? && cmd.p.Some? &&
       ((0 <= cmd.t.value <= 2 && cmd.s.Some?) || (cmd.t.value == 3 && cmd.x.Some?)))
    ensures r.Some? ==> r.value.pos == cmd.p.value
    ensures r.Some? && cmd.t.value == 3 ==> r.value.kind == KFloat && r.value.value == cmd.x.value
    ensures r.Some? && cmd.t.value != 3 ==> r.value.kind == [KByte, KInt16, KInt32][cmd.t.value] && r.value.value == cmd.s.value
  {
    if cmd.t.None? || cmd.p.None? then None
    else
      var p := cmd.p.value;
      match cmd.t.value
      case 0 => if cmd.s.Some? then Some(Poke(p, KByte, cmd.s.value)) else None
      case 1 => if cmd.s.Some? then Some(Poke(p, KInt16, cmd.s.value)) else None
      case 2 => if cmd.s.Some? then Some(Poke(p, KInt32, cmd.s.value)) else None
      case 3 => if cmd.x.Some? then Some(Poke(p, KFloat, cmd.x.value)) else None
      case _ => None
  }

  /** The requested write, if any, lies inside the store. */
  predicate Fits(cmd: Command) {
    match Requested(cmd)
    case None => true
    case Some(w) => 0 <= w.pos && w.pos + Width(w.kind) <= StoreSize
  }

  /** The store after the poke and the checksum, before it is reloaded. */
  function UpdateImage(L: Layout, s: seq<Byte>, cmd: Command): (r: seq<Byte>)
    requires ValidLayout(L) && |s| == StoreSize && Fits(cmd)
    ensures |r| == StoreSize
  {
    var s1 := match Requested(cmd)
      case None => s
      case Some(w) => WriteAt(s, w.pos, w.kind, w.value);
    WithChecksum(L, s1)
  }

  /** update: the poke, the checksum, then a full load (lines 20-55). */
  function UpdateSpec(L: Layout, C: Config, s: seq<Byte>, m: Mirror, cmd: Command): (r: Snapshot)
    requires ValidLayout(L) && ValidConfig(C) && WellFormed(C, m) && |s| == StoreSize && Fits(cmd)
    ensures |r.mem| == StoreSize && WellFormed(C, r.cfg)
  {
    var r1 := LoadSpec(L, C, St(Store(UpdateImage(L, s, cmd)), m, false));
    Snapshot(r1.mem, r1.cfg)
  }

  // ------------------------------------------------------------ initBaudrate

  /** initBaudrate: the stored baud rate is taken only from a store of this
      build's EEPROM mode (lines 1048-1054). */
  function BaudrateSpec(L: Layout, C: Config, s: seq<Byte>, m: Mirror): (r: Mirror)
    requires ValidLayout(L) && |s| == StoreSize
  {
    if GetByte(L, s, Magic) == C.magic then m.(baudrate := GetInt32(L, s, Baudrate)) else m
  }

  // ------------------------------------------------------------ properties

  /** A store a reset just wrote passes every boot check: the next init with
      no keys held neither resets nor migrates. */
  lemma ResetIsStable(L: Layout, C: Config, m: Mirror, corrupted: bool)
    requires ValidLayout(L) && ValidConfig(C) && WellFormed(C, m) && L.eepromOffset == 0
    ensures var r := ResetSpec(L, C, m, corrupted).mem;
      !NeedsReset(L, C, r, false) && !Grows(L, C, r) && !Shrinks(L, C, r)
  {
    ResetIdentity(L, C, m, corrupted);
    ResetConsistent(L, C, m, corrupted);
    PassesBootChecks(L, C, ResetSpec(L, C, m, corrupted).mem);
  }

  /** A consistent store that names this build's EEPROM mode and extruder
      count passes every boot check. */
  lemma PassesBootChecks(L: Layout, C: Config, r: seq<Byte>)
    requires ValidLayout(L) && |r| == StoreSize && Consistent(L, r)
    requires Get(L, r, Magic) == C.magic && Get(L, r, NumExtruders) == C.numExtruders
    ensures !NeedsReset(L, C, r, false) && !Grows(L, C, r) && !Shrinks(L, C, r)
  {
  }

  /** After a reset the early baud-rate read finds the build's default. */
  lemma BaudrateAfterReset(L: Layout, C: Config, m: Mirror, corrupted: bool, m': Mirror)
    requires ValidLayout(L) && ValidConfig(C) && WellFormed(C, m)
    ensures BaudrateSpec(L, C, ResetSpec(L, C, m, corrupted).mem, m').baudrate == C.baudrate
  {
    ResetIdentity(L, C, m, corrupted);
  }

  /** Any single changed byte of a consistent store, the integrity byte
      included, fails the checksum test, so init resets the store and zeroes
      the usage counters. */
  lemma SingleByteChangeForcesReset(L: Layout, C: Config, s: seq<Byte>, k: int, b: Byte, keys: bool)
    requires ValidLayout(L) && |s| == StoreSize && L.eepromOffset == 0
    requires Consistent(L, s) && 0 <= k < StoreSize && b != s[k]
    ensures Corrupted(L, s[k := b]) && NeedsReset(L, C, s[k := b], keys)
  {
    if k == L.integrity {
      ChecksumIgnoresIntegrity(L, s, b);
    } else {
      SingleByteCorruptionDetected(L, s, k, b);
    }
  }

  /** After the migration the stored extruder count is settled: a second
      migration would do nothing. The magic byte is kept, and with the store
      mapped at offset 0 a consistent store stays consistent. */
  lemma MigrateSettles(L: Layout, C: Config, s: seq<Byte>, m: Mirror)
    requires ValidLayout(L) && ValidConfig(C) && WellFormed(C, m) && |s| == StoreSize
    ensures var r := Migrate(L, C, s, m).mem;
      && !Grows(L, C, r) && !Shrinks(L, C, r)
      && GetByte(L, r, Magic) == GetByte(L, s, Magic)
      && (L.eepromOffset == 0 && Consistent(L, s) ==> Consistent(L, r))
  {
    if Grows(L, C, s) {
      GrowSettles(L, C, s, m);
    } else if Shrinks(L, C, s) {
      ShrinkSettles(L, C, s);
    }
  }

  /** A store that names this build's extruder count needs no migration. */
  lemma CountSettled(L: Layout, C: Config, r: seq<Byte>)
    requires ValidLayout(L) && |r| == StoreSize && Get(L, r, NumExtruders) == C.numExtruders
    ensures !Grows(L, C, r) && !Shrinks(L, C, r)
  {
  }

  lemma GrowSettles(L: Layout, C: Config, s: seq<Byte>, m: Mirror)
    requires ValidLayout(L) && ValidConfig(C) && WellFormed(C, m) && |s| == StoreSize && Grows(L, C, s)
    ensures var r := GrowSpec(L, C, s, m).mem;
      && !Grows(L, C, r) && !Shrinks(L, C, r)
      && GetByte(L, r, Magic) == GetByte(L, s, Magic)
      && (L.eepromOffset == 0 ==> Consistent(L, r))
  {
    GrowKeepsFields(L, C, s, m);
    CountSettled(L, C, GrowSpec(L, C, s, m).mem);
    if L.eepromOffset == 0 {
      var m1 := RestoreExtruderSpec(C, m, 1);
      WithChecksumConsistent(L, PutAll(L, StoreExtruderSpec(L, C, s, m1, 1), MigrationWrites(C)));
    }
  }

  lemma ShrinkSettles(L: Layout, C: Config, s: seq<Byte>)
    requires ValidLayout(L) && ValidConfig(C) && |s| == StoreSize
    ensures var r := WithChecksum(L, PutAll(L, s, MigrationWrites(C)));
      && !Grows(L, C, r) && !Shrinks(L, C, r)
      && GetByte(L, r, Magic) == GetByte(L, s, Magic)
      && (L.eepromOffset == 0 ==> Consistent(L, r))
  {
    MigrationFacts(L, C, s);
    CountSettled(L, C, WithChecksum(L, PutAll(L, s, MigrationWrites(C))));
    if L.eepromOffset == 0 {
      WithChecksumConsistent(L, PutAll(L, s, MigrationWrites(C)));
    }
  }

  /** With the store mapped at offset 0, init always leaves a consistent
      store, whichever way it went. */
  lemma InitLeavesStoreConsistent(L: Layout, C: Config, s: seq<Byte>, m: Mirror, keys: bool)
    requires ValidLayout(L) && ValidConfig(C) && WellFormed(C, m) && |s| == StoreSize && L.eepromOffset == 0
    ensures Consistent(L, InitSpec(L, C, s, m, keys).mem)
  {
    if NeedsReset(L, C, s, keys) {
      ResetConsistent(L, C, m, Corrupted(L, s));
    } else {
      var r1 := Migrate(L, C, s, m);
      MigrateSettles(L, C, s, m);
      LoadKeepsConsistent(L, C, St(Store(r1.mem), r1.cfg, false));
    }
  }

  /** The command's value reads back from the image update leaves, unless
      the poke covered the integrity byte; nothing else but the integrity
      byte changes, and with the store mapped at offset 0 the image is
      consistent. */
  lemma UpdatePokes(L: Layout, s: seq<Byte>, cmd: Command)
    requires ValidLayout(L) && |s| == StoreSize && Fits(cmd)
    ensures var r := UpdateImage(L, s, cmd);
      && (L.eepromOffset == 0 ==> Consistent(L, r))
      && match Requested(cmd)
         case None => forall j :: 0 <= j < StoreSize && j != L.integrity ==> r[j] == s[j]
         case Some(w) =>
           && (forall j :: 0 <= j < StoreSize && j != L.integrity && !(w.pos <= j < w.pos + Width(w.kind)) ==> r[j] == s[j])
           && (!(w.pos <= L.integrity < w.pos + Width(w.kind)) ==> ValueAt(r, w.pos, w.kind) == Norm(w.kind, w.value))
  {
    var s1 := match Requested(cmd)
      case None => s
      case Some(w) => WriteAt(s, w.pos, w.kind, w.value);
    if L.eepromOffset == 0 {
      WithChecksumConsistent(L, s1);
    }
    match Requested(cmd)
    case None =>
    case Some(w) =>
      WriteAtFacts(s, w.pos, w.kind, w.value);
      if !(w.pos <= L.integrity < w.pos + Width(w.kind)) {
        ValueAtFrame(WithChecksum(L, s1), s1, w.pos, w.kind);
      }
  }
}
