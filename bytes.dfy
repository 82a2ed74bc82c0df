/** Byte-level encoding of the typed values the settings store holds.
    The store is 2048 bytes; a field is a byte, an int16, an int32 or a float,
    kept little-endian (two's complement for the signed kinds, the raw
    IEEE-754 bit pattern for a float). */
module Bytes {

  /** Size of the non-volatile store: every scan runs over addresses 0..2047. */
  const StoreSize := 2048

  type Byte = b: int | 0 <= b < 256
  type Int16 = v: int | -0x8000 <= v < 0x8000
  type Int32 = v: int | -0x8000_0000 <= v < 0x8000_0000
  type UInt32 = v: int | 0 <= v < 0x1_0000_0000

  /** The four storage kinds of a field (the type code 0..3 of a live edit). */
  datatype Kind = KByte | KInt16 | KInt32 | KFloat

  function Width(k: Kind): nat {
    match k
    case KByte => 1
    case KInt16 => 2
    case KInt32 => 4
    case KFloat => 4
  }

  function Modulus(k: Kind): nat {
    match k
    case KByte => 0x100
    case KInt16 => 0x1_0000
    case KInt32 => 0x1_0000_0000
    case KFloat => 0x1_0000_0000
  }

  /** The values a field of kind `k` can hold. */
  predicate InRange(k: Kind, v: int) {
    match k
    case KByte => 0 <= v < 0x100
    case KInt16 => -0x8000 <= v < 0x8000
    case KInt32 => -0x8000_0000 <= v < 0x8000_0000
    case KFloat => 0 <= v < 0x1_0000_0000
  }

  /** Reinterpret an unsigned bit pattern of kind `k` as the kind's value. */
  function Signed(k: Kind, u: int): int {
    match k
    case KByte => u
    case KFloat => u
    case KInt16 => if u >= 0x8000 then u - 0x1_0000 else u
    case KInt32 => if u >= 0x8000_0000 then u - 0x1_0000_0000 else u
  }

  /** The value a C conversion to the kind's storage type leaves of `v`
      (truncation to the low bits, then two's complement for signed kinds). */
  function Norm(k: Kind, v: int): (r: int)
    ensures InRange(k, r)
    ensures InRange(k, v) ==> r == v
  {
    Signed(k, Wrap(k, v))
  }

  /** The low `Width(k)` bytes of `v` as an unsigned number: `v` modulo the
      kind's modulus, written out per kind so that every remainder is taken
      by a constant. */
  function Wrap(k: Kind, v: int): (u: int)
    ensures 0 <= u < Modulus(k)
  {
    match k
    case KByte => v % 0x100
    case KInt16 => v % 0x1_0000
    case KInt32 => v % 0x1_0000_0000
    case KFloat => v % 0x1_0000_0000
  }

  /** The `w` low bytes of `u`, least significant first. */
  function LowBytes(u: nat, w: nat): (bs: seq<Byte>)
    ensures |bs| == w
  {
    if w == 0 then [] else [u % 0x100] + LowBytes(u / 0x100, w - 1)
  }

  /** The number held by the little-endian bytes `bs`. */
  function Unsigned(bs: seq<Byte>): nat {
    if |bs| == 0 then 0 else bs[0] + 0x100 * Unsigned(bs[1..])
  }

  /** Little-endian bytes of `v` (after truncation to the kind's width). */
  function Encode(k: Kind, v: int): (bs: seq<Byte>)
    ensures |bs| == Width(k)
  {
    LowBytes(Wrap(k, v), Width(k))
  }

  /** The value held by the `Width(k)` little-endian bytes `bs`. */
  function Decode(k: Kind, bs: seq<Byte>): (v: int)
    requires |bs| == Width(k)
  {
    Signed(k, Unsigned(bs))
  }

  function Pow256(w: nat): (p: nat)
    ensures p > 0
  {
    if w == 0 then 1 else 0x100 * Pow256(w - 1)
  }

  /** `w` bytes hold exactly the numbers below 256^w, and give them back. */
  lemma {:induction false} UnsignedLowBytes(u: nat, w: nat)
    ensures Unsigned(LowBytes(u, w)) == u % Pow256(w)
  {
    if w > 0 {
      var bs := LowBytes(u, w);
      assert bs[1..] == LowBytes(u / 0x100, w - 1);
      UnsignedLowBytes(u / 0x100, w - 1);
      DivMod256(u, Pow256(w - 1));
    }
  }

  lemma DivMod256(u: nat, p: nat)
    requires p > 0
    ensures u % 0x100 + 0x100 * ((u / 0x100) % p) == u % (0x100 * p)
  {
    var q := u / 0x100;
    assert u == u % 0x100 + 0x100 * q;
    assert q == (q / p) * p + q % p;
    assert u == (u % 0x100 + 0x100 * (q % p)) + (0x100 * p) * (q / p);
    assert 0 <= u % 0x100 + 0x100 * (q % p) < 0x100 * p;
    ModUnique(u, 0x100 * p, q / p, u % 0x100 + 0x100 * (q % p));
  }

  /** Euclidean division is unique. */
  lemma ModUnique(u: int, m: int, q: int, r: int)
    requires m > 0 && 0 <= r < m && u == m * q + r
    ensures u % m == r
  {
    var q' := u / m;
    assert u == m * q' + u % m;
    if q' < q {
      MulStep(m, q', q);
    } else if q' > q {
      MulStep(m, q, q');
    }
  }

  lemma MulStep(m: int, a: int, b: int)
    requires m > 0 && a < b
    ensures m * a + m <= m * b
  {
    var d := b - a - 1;
    assert m * b == m * a + m + m * d;
    assert m * d >= 0;
  }

  lemma Pow256Width(k: Kind)
    ensures Pow256(Width(k)) == Modulus(k)
  {
    assert Pow256(1) == 0x100;
    assert Pow256(2) == 0x1_0000;
    assert Pow256(4) == 0x100 * (0x100 * Pow256(2));
  }

  /** Decoding what was encoded gives back the (truncated) value. */
  lemma DecodeEncode(k: Kind, v: int)
    ensures Decode(k, Encode(k, v)) == Norm(k, v)
  {
    var u := Wrap(k, v);
    UnsignedLowBytes(u, Width(k));
    Pow256Width(k);
    ModUnique(u, Modulus(k), 0, u);
  }

  /** `s` with `bs[i]` stored at `pos + i` for each i. */
  function WriteBytes(s: seq<Byte>, pos: int, bs: seq<Byte>): (r: seq<Byte>)
    requires 0 <= pos && pos + |bs| <= |s|
    ensures |r| == |s|
  {
    if |bs| == 0 then s else WriteBytes(s, pos, bs[..|bs| - 1])[pos + |bs| - 1 := bs[|bs| - 1]]
  }

  lemma {:induction false} WriteBytesIndex(s: seq<Byte>, pos: int, bs: seq<Byte>)
    requires 0 <= pos && pos + |bs| <= |s|
    ensures forall j :: 0 <= j < |s| && !(pos <= j < pos + |bs|) ==> WriteBytes(s, pos, bs)[j] == s[j]
    ensures forall j :: pos <= j < pos + |bs| ==> WriteBytes(s, pos, bs)[j] == bs[j - pos]
  {
    if |bs| > 0 {
      var p := bs[..|bs| - 1];
      WriteBytesIndex(s, pos, p);
      assert forall i :: 0 <= i < |p| ==> p[i] == bs[i];
    }
  }

  /** The store after writing the encoding of `v` (kind `k`) at `pos`. */
  function WriteAt(s: seq<Byte>, pos: int, k: Kind, v: int): (r: seq<Byte>)
    requires 0 <= pos && pos + Width(k) <= |s|
    ensures |r| == |s|
  {
    WriteBytes(s, pos, Encode(k, v))
  }

  /** The number held by the little-endian bytes [pos, end). */
  function UnsignedAt(s: seq<Byte>, pos: int, end: int): int
    requires 0 <= pos <= end <= |s|
    decreases end - pos
  {
    if pos == end then 0 else s[pos] + 0x100 * UnsignedAt(s, pos + 1, end)
  }

  /** Reading in place is decoding the slice. */
  lemma {:induction false} UnsignedAtSlice(s: seq<Byte>, pos: int, end: int)
    requires 0 <= pos <= end <= |s|
    ensures UnsignedAt(s, pos, end) == Unsigned(s[pos..end])
    decreases end - pos
  {
    if pos < end {
      UnsignedAtSlice(s, pos + 1, end);
      assert s[pos..end][1..] == s[pos + 1..end];
    }
  }

  /** The value of kind `k` stored at `pos`. */
  function ValueAt(s: seq<Byte>, pos: int, k: Kind): (v: int)
    requires 0 <= pos && pos + Width(k) <= |s|
    ensures InRange(k, v)
  {
    UnsignedAtSlice(s, pos, pos + Width(k));
    UnsignedBound(s[pos..pos + Width(k)]);
    Pow256Width(k);
    Signed(k, UnsignedAt(s, pos, pos + Width(k)))
  }

  lemma {:induction false} UnsignedBound(bs: seq<Byte>)
    ensures Unsigned(bs) < Pow256(|bs|)
  {
    if |bs| > 0 {
      UnsignedBound(bs[1..]);
    }
  }

  /** A write changes exactly the bytes [pos, pos + width) and a read of the
      same place and kind returns the written value. */
  lemma WriteAtFacts(s: seq<Byte>, pos: int, k: Kind, v: int)
    requires 0 <= pos && pos + Width(k) <= |s|
    ensures forall j :: 0 <= j < |s| && !(pos <= j < pos + Width(k)) ==> WriteAt(s, pos, k, v)[j] == s[j]
    ensures forall j :: pos <= j < pos + Width(k) ==> WriteAt(s, pos, k, v)[j] == Encode(k, v)[j - pos]
    ensures ValueAt(WriteAt(s, pos, k, v), pos, k) == Norm(k, v)
  {
    var r := WriteAt(s, pos, k, v);
    WriteBytesIndex(s, pos, Encode(k, v));
    UnsignedAtSlice(r, pos, pos + Width(k));
    assert r[pos..pos + Width(k)] == Encode(k, v);
    DecodeEncode(k, v);
  }

  /** A single byte is read and written as itself. */
  lemma ByteAccess(s: seq<Byte>, pos: int, v: Byte)
    requires 0 <= pos < |s|
    ensures ValueAt(s, pos, KByte) == s[pos]
    ensures WriteAt(s, pos, KByte, v) == s[pos := v]
  {
    assert UnsignedAt(s, pos, pos + 1) == s[pos] + 0x100 * UnsignedAt(s, pos + 1, pos + 1);
    assert Encode(KByte, v) == [v] + LowBytes(v / 0x100, 0);
    assert WriteBytes(s, pos, [v]) == WriteBytes(s, pos, [])[pos := v];
  }

  lemma {:induction false} UnsignedZeros(bs: seq<Byte>)
    requires forall i :: 0 <= i < |bs| ==> bs[i] == 0
    ensures Unsigned(bs) == 0
  {
    if |bs| > 0 {
      UnsignedZeros(bs[1..]);
    }
  }

  /** Zero bytes read as 0 in every kind. */
  lemma ValueAtZeros(s: seq<Byte>, pos: int, k: Kind)
    requires 0 <= pos && pos + Width(k) <= |s|
    requires forall j :: pos <= j < pos + Width(k) ==> s[j] == 0
    ensures ValueAt(s, pos, k) == 0
  {
    UnsignedAtSlice(s, pos, pos + Width(k));
    UnsignedZeros(s[pos..pos + Width(k)]);
  }

  /** A write leaves a read of bytes it does not cover unchanged. */
  lemma WriteAtDisjoint(s: seq<Byte>, p: int, k: Kind, v: int, q: int, k2: Kind)
    requires 0 <= p && p + Width(k) <= |s| && 0 <= q && q + Width(k2) <= |s|
    requires p + Width(k) <= q || q + Width(k2) <= p
    ensures ValueAt(WriteAt(s, p, k, v), q, k2) == ValueAt(s, q, k2)
  {
    WriteAtFacts(s, p, k, v);
    ValueAtFrame(WriteAt(s, p, k, v), s, q, k2);
  }

  /** A read depends only on the bytes it covers. */
  lemma ValueAtFrame(s: seq<Byte>, t: seq<Byte>, pos: int, k: Kind)
    requires 0 <= pos && pos + Width(k) <= |s| && |s| == |t|
    requires forall j :: pos <= j < pos + Width(k) ==> s[j] == t[j]
    ensures ValueAt(s, pos, k) == ValueAt(t, pos, k)
  {
    UnsignedAtSlice(s, pos, pos + Width(k));
    UnsignedAtSlice(t, pos, pos + Width(k));
    assert s[pos..pos + Width(k)] == t[pos..pos + Width(k)];
  }
}
