/** The schema over the byte store: which logical field lives at which
    address with which width, the per-extruder block indexer, and the typed
    read and write of one field of a whole-store image. The numeric addresses
    are build constants that are not part of this model, so they are a
    `Layout` parameter constrained by `ValidLayout`. */
module Layout {
  import opened Bytes
  import opened Float32

  /** X, Y, Z. */
  type Axis = a: int | 0 <= a < 3

  /** The two operating modes; each keeps its own stored homing feed rates and X length. */
  datatype Mode = Print | Mill

  /** The firmware supports at most two extruders and five stepper driver channels. */
  const MaxExtruders := 2
  const MaxChannels := 5

  /** Fields repeated in every extruder block (EPR_EXTRUDER_*). */
  datatype ExtField =
    | StepsPerMM | MaxFeedrate | MaxStartFeedrate | MaxAcceleration
    | DriveMax | DriveMin | PidPGain | PidIGain | PidDGain | PidMax | SensorType
    | OffsetX | OffsetY | OffsetZ | WaitRetractTemp | WaitRetractUnits
    | CoolerSpeed | AdvanceL

  /** Every stored setting of the modelled configuration. */
  datatype Field =
    | Ext(extruder: int, field: ExtField)
    | AxisMaxFeedrate(axis: Axis) | HomingFeedrate(mode: Mode, axis: Axis) | MotorCurrent(channel: int)
    | MaxAccel(axis: Axis) | MaxTravelAccel(axis: Axis) | AxisStepsPerMM(axis: Axis)
    | XLength(mode: Mode) | YLength | ZLength | MoveMode(axis: Axis)
    | Magic | NumExtruders | Baudrate | MaxInactiveTime | StepperInactiveTime
    | ZOffset | ZMode | MoveKosys | MovePositionFeedrate
    | MaxXYJerk | MaxZJerk | MillAcceleration
    | BedDriveMax | BedDriveMin | BedPGain | BedIGain | BedDGain | BedPidMax | BedSensorType
    | StepPackingMinInterval
    | PrintingTime | PrintingDistance | PrintingTimeService | PrintingDistanceService
    | MillingTime | MillingTimeService
    | OperatingMode | ZStepSize | MicroStepsUsed | Version

  function ExtKind(x: ExtField): Kind {
    match x
    case DriveMax | DriveMin | PidMax | SensorType | CoolerSpeed => KByte
    case WaitRetractTemp | WaitRetractUnits => KInt16
    case _ => KFloat
  }

  /** The storage kind of each field, as the typed set and get calls use it. */
  function KindOf(f: Field): Kind {
    match f
    case Magic | NumExtruders | ZMode | MoveMode(_) | MoveKosys | MovePositionFeedrate
      | BedDriveMax | BedDriveMin | BedPidMax | BedSensorType
      | OperatingMode | MotorCurrent(_) | MicroStepsUsed | Version => KByte
    case MillAcceleration | StepPackingMinInterval | ZStepSize => KInt16
    case Baudrate | MaxInactiveTime | StepperInactiveTime | ZOffset
      | PrintingTime | PrintingTimeService | MillingTime | MillingTimeService => KInt32
    case Ext(_, x) => ExtKind(x)
    case _ => KFloat
  }

  /** The address constants of one build. `addr` gives the EPR_* address of
      every field outside the extruder blocks; of the groups the firmware
      indexes arithmetically only the first member's entry is used. */
  datatype Layout = Layout(
    addr: Field -> int,
    extRel: ExtField -> int,  // EPR_EXTRUDER_* offset inside a block
    extOffset: int,           // EEPROM_EXTRUDER_OFFSET
    extLength: int,           // EEPROM_EXTRUDER_LENGTH
    integrity: int,           // EPR_INTEGRITY_BYTE
    eepromOffset: int)        // EEPROM_OFFSET

  /** Base address of extruder block `e` (getExtruderOffset). */
  function ExtruderOffset(L: Layout, e: int): int {
    e * L.extLength + L.extOffset
  }

  /** Address of a field. The max feed rates and the homing feed rates of one
      mode are read back as `first + 4 * axis` and the motor currents as
      `first + channel`, so the model places those groups that way. */
  function FieldAddr(L: Layout, f: Field): int {
    match f
    case AxisMaxFeedrate(a) => L.addr(AxisMaxFeedrate(0)) + 4 * a
    case HomingFeedrate(m, a) => L.addr(HomingFeedrate(m, 0)) + 4 * a
    case MotorCurrent(c) => L.addr(MotorCurrent(0)) + c
    case Ext(e, x) => ExtruderOffset(L, e) + L.extRel(x)
    case _ => L.addr(f)
  }

  predicate ValidField(f: Field) {
    match f
    case Ext(e, _) => 0 <= e < MaxExtruders
    case MotorCurrent(c) => 0 <= c < MaxChannels
    case _ => true
  }

  function End(L: Layout, f: Field): int {
    FieldAddr(L, f) + Width(KindOf(f))
  }

  predicate Covers(L: Layout, f: Field, j: int) {
    FieldAddr(L, f) <= j < End(L, f)
  }

  predicate InBounds(L: Layout, f: Field) {
    0 <= FieldAddr(L, f) && End(L, f) <= StoreSize
  }

  predicate Separate(L: Layout, f: Field, g: Field) {
    End(L, f) <= FieldAddr(L, g) || End(L, g) <= FieldAddr(L, f)
  }

  predicate ApartFromIntegrity(L: Layout, f: Field) {
    !Covers(L, f, L.integrity)
  }

  predicate InBlock(L: Layout, x: ExtField) {
    0 <= L.extRel(x) && L.extRel(x) + Width(ExtKind(x)) <= L.extLength
  }

  /** What the firmware relies on of its address constants: every field lies
      inside the store, no two fields overlap, none covers the integrity byte,
      and every extruder field lies inside its block. */
  ghost predicate ValidLayout(L: Layout) {
    && 0 <= L.integrity < StoreSize
    && 0 <= L.extOffset && 0 < L.extLength
    && (forall x {:trigger InBlock(L, x)} :: InBlock(L, x))
    && (forall f {:trigger InBounds(L, f)} :: ValidField(f) ==> InBounds(L, f))
    && (forall f {:trigger ApartFromIntegrity(L, f)} :: ValidField(f) ==> ApartFromIntegrity(L, f))
    && (forall f, g {:trigger Separate(L, f, g)} :: ValidField(f) && ValidField(g) && f != g ==> Separate(L, f, g))
  }

  /** The value of field `f` in store image `s`. */
  function Get(L: Layout, s: seq<Byte>, f: Field): (v: int)
    requires ValidLayout(L) && ValidField(f) && |s| == StoreSize
    ensures InRange(KindOf(f), v)
  {
    assert InBounds(L, f);
    ValueAt(s, FieldAddr(L, f), KindOf(f))
  }

  /** Store image `s` after writing `v` into field `f`. */
  function Put(L: Layout, s: seq<Byte>, f: Field, v: int): (r: seq<Byte>)
    requires ValidLayout(L) && ValidField(f) && |s| == StoreSize
    ensures |r| == StoreSize
    ensures forall j {:trigger r[j]} :: 0 <= j < StoreSize && !Covers(L, f, j) ==> r[j] == s[j]
    ensures r[L.integrity] == s[L.integrity]
    ensures Get(L, r, f) == Norm(KindOf(f), v)
    ensures forall g {:trigger Get(L, r, g)} :: ValidField(g) && g != f ==> Get(L, r, g) == Get(L, s, g)
  {
    assert InBounds(L, f);
    PutFacts(L, s, f, v);
    WriteAt(s, FieldAddr(L, f), KindOf(f), v)
  }

  lemma PutFacts(L: Layout, s: seq<Byte>, f: Field, v: int)
    requires ValidLayout(L) && ValidField(f) && |s| == StoreSize
    requires InBounds(L, f)
    ensures var r := WriteAt(s, FieldAddr(L, f), KindOf(f), v);
      && (forall j :: 0 <= j < StoreSize && !Covers(L, f, j) ==> r[j] == s[j])
      && r[L.integrity] == s[L.integrity]
      && Get(L, r, f) == Norm(KindOf(f), v)
      && (forall g {:trigger Get(L, r, g)} :: ValidField(g) && g != f ==> Get(L, r, g) == Get(L, s, g))
  {
    var r := WriteAt(s, FieldAddr(L, f), KindOf(f), v);
    WriteAtFacts(s, FieldAddr(L, f), KindOf(f), v);
    assert ApartFromIntegrity(L, f);
    forall g | ValidField(g) && g != f
      ensures Get(L, r, g) == Get(L, s, g)
    {
      assert Separate(L, f, g) && InBounds(L, g);
      WriteAtDisjoint(s, FieldAddr(L, f), KindOf(f), v, FieldAddr(L, g), KindOf(g));
    }
  }

  /** Typed views of `Get` for the four kinds. */
  function GetByte(L: Layout, s: seq<Byte>, f: Field): Byte
    requires ValidLayout(L) && ValidField(f) && |s| == StoreSize && KindOf(f) == KByte
  {
    Get(L, s, f)
  }

  function GetInt16(L: Layout, s: seq<Byte>, f: Field): Int16
    requires ValidLayout(L) && ValidField(f) && |s| == StoreSize && KindOf(f) == KInt16
  {
    Get(L, s, f)
  }

  function GetInt32(L: Layout, s: seq<Byte>, f: Field): Int32
    requires ValidLayout(L) && ValidField(f) && |s| == StoreSize && KindOf(f) == KInt32
  {
    Get(L, s, f)
  }

  function GetFloat(L: Layout, s: seq<Byte>, f: Field): Float
    requires ValidLayout(L) && ValidField(f) && |s| == StoreSize && KindOf(f) == KFloat
  {
    Get(L, s, f)
  }

  /** Images that agree outside the bytes of a set of fields (and the integrity byte, when `withIntegrity`). */
  predicate SameOutside(L: Layout, s: seq<Byte>, t: seq<Byte>, fs: set<Field>, withIntegrity: bool)
    requires |s| == StoreSize && |t| == StoreSize
  {
    forall j :: 0 <= j < StoreSize && (withIntegrity ==> j != L.integrity) && (forall f :: f in fs ==> !Covers(L, f, j)) ==> s[j] == t[j]
  }

  // ---------------------------------------------------------------- block indexer

  datatype Option<T> = None | Some(value: T)

  /** The 1-based extruder number the settings report prefixes to an address
      (writeExtruderPrefix): none below the block region or from address 800 on. */
  function ExtruderPrefix(L: Layout, pos: int): Option<int>
    requires 0 < L.extLength
  {
    if pos < L.extOffset || pos >= 800 then None
    else Some((pos - L.extOffset) / L.extLength + 1)
  }

  /** Consecutive extruder blocks are one block length apart. */
  lemma {:induction false} ExtruderOffsetStep(L: Layout, i: int)
    ensures ExtruderOffset(L, i + 1) - ExtruderOffset(L, i) == L.extLength
  {
    assert (i + 1) * L.extLength == i * L.extLength + L.extLength;
  }

  lemma DivUnique(a: int, d: int, q: int, r: int)
    requires 0 < d && 0 <= r < d && a == q * d + r
    ensures a / d == q && a % d == r
  {
    var k := a / d - q;
    assert k * d == r - a % d;
    if k > 0 {
      MulAtLeast(k, d);
    } else if k < 0 {
      MulAtLeast(-k, d);
    }
  }

  lemma MulAtLeast(k: int, d: int)
    requires 0 < k && 0 < d
    ensures k * d >= d
  {
    assert k * d == (k - 1) * d + d;
  }

  /** An address inside block `i` (below 800) is labelled extruder `i + 1`. */
  lemma PrefixOfBlock(L: Layout, i: nat, k: int)
    requires 0 <= L.extOffset && 0 < L.extLength
    requires 0 <= k < L.extLength && ExtruderOffset(L, i) + k < 800
    ensures ExtruderPrefix(L, ExtruderOffset(L, i) + k) == Some(i + 1)
  {
    assert i * L.extLength >= 0;
    DivUnique(ExtruderOffset(L, i) + k - L.extOffset, L.extLength, i, k);
  }

  /** Conversely, a labelled address lies in the block of the label, and an
      unlabelled one lies below the block region or from 800 on. */
  lemma PrefixInBlock(L: Layout, pos: int)
    requires 0 <= L.extOffset && 0 < L.extLength
    ensures ExtruderPrefix(L, pos).Some? <==> L.extOffset <= pos < 800
    ensures ExtruderPrefix(L, pos).Some? ==>
      var n := ExtruderPrefix(L, pos).value;
      1 <= n && ExtruderOffset(L, n - 1) <= pos < ExtruderOffset(L, n - 1) + L.extLength
  {
    if L.extOffset <= pos < 800 {
      var d := pos - L.extOffset;
      var q, r := d / L.extLength, d % L.extLength;
      assert d == q * L.extLength + r;
      assert q >= 0;
      assert ExtruderOffset(L, q) == q * L.extLength + L.extOffset;
    }
  }

  /** Every extruder field is labelled with its own extruder number. */
  lemma PrefixOfExtruderField(L: Layout, e: int, x: ExtField)
    requires ValidLayout(L) && 0 <= e < MaxExtruders
    requires FieldAddr(L, Ext(e, x)) < 800
    ensures ExtruderPrefix(L, FieldAddr(L, Ext(e, x))) == Some(e + 1)
  {
    assert InBlock(L, x);
    PrefixOfBlock(L, e, L.extRel(x));
  }
}
