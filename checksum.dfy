/** The integrity byte: an 8-bit sum of every store byte but one. */
module Checksum {
  import opened Bytes
  import opened Layout

  /** Sum of the bytes at addresses [0, n) of `s`, leaving out address `skip`. */
  function SumExcept(s: seq<Byte>, n: nat, skip: int): nat
    requires n <= |s|
  {
    if n == 0 then 0
    else SumExcept(s, n - 1, skip) + (if n - 1 == skip then 0 else s[n - 1])
  }

  /** The address the scan leaves out: EEPROM_OFFSET + EPR_INTEGRITY_BYTE. */
  function SkipAddr(L: Layout): int {
    L.eepromOffset + L.integrity
  }

  /** The checksum of a store image: the wrapped 8-bit sum over all 2048 addresses but the skipped one. */
  function Checksum(L: Layout, s: seq<Byte>): Byte
    requires |s| == StoreSize
  {
    SumExcept(s, StoreSize, SkipAddr(L)) % 256
  }

  /** The integrity byte holds the checksum of the rest. */
  ghost predicate Consistent(L: Layout, s: seq<Byte>)
    requires ValidLayout(L) && |s| == StoreSize
  {
    s[L.integrity] == Checksum(L, s)
  }

  /** A store image after its checksum is written into the integrity byte. */
  function WithChecksum(L: Layout, s: seq<Byte>): (r: seq<Byte>)
    requires ValidLayout(L) && |s| == StoreSize
    ensures |r| == StoreSize
    ensures forall j :: 0 <= j < StoreSize && j != L.integrity ==> r[j] == s[j]
  {
    s[L.integrity := Checksum(L, s)]
  }

  /** Writing the integrity byte changes no field. */
  lemma WithChecksumKeepsFields(L: Layout, s: seq<Byte>)
    requires ValidLayout(L) && |s| == StoreSize
    ensures forall f {:trigger Get(L, WithChecksum(L, s), f)} :: ValidField(f) ==> Get(L, WithChecksum(L, s), f) == Get(L, s, f)
  {
    forall f | ValidField(f)
      ensures Get(L, WithChecksum(L, s), f) == Get(L, s, f)
    {
      assert InBounds(L, f) && ApartFromIntegrity(L, f);
      ValueAtFrame(WithChecksum(L, s), s, FieldAddr(L, f), KindOf(f));
    }
  }

  /** One step of the 8-bit running sum: adding the next byte modulo 256
      keeps the running value equal to the sum so far modulo 256. */
  lemma SumStep(s: seq<Byte>, i: nat, skip: int, c: int)
    requires i < |s| && c == SumExcept(s, i, skip) % 256
    ensures SumExcept(s, i + 1, skip) % 256 == if i == skip then c else (c + s[i]) % 256
  {
    if i != skip {
      var x := SumExcept(s, i, skip);
      var q2 := (c + s[i]) / 256;
      assert c + s[i] == 256 * q2 + (c + s[i]) % 256;
      assert x == 256 * (x / 256) + c;
      ModUnique(x + s[i], 256, x / 256 + q2, (c + s[i]) % 256);
    }
  }

  /** The skipped address does not take part in the sum. */
  lemma {:induction false} SumIgnoresSkipped(s: seq<Byte>, n: nat, skip: int, b: Byte)
    requires n <= |s| && 0 <= skip < |s|
    ensures SumExcept(s[skip := b], n, skip) == SumExcept(s, n, skip)
  {
    if n > 0 {
      SumIgnoresSkipped(s, n - 1, skip, b);
    }
  }

  /** Changing one counted byte shifts the sum by the byte's change. */
  lemma {:induction false} SumUpdate(s: seq<Byte>, n: nat, skip: int, k: int, b: Byte)
    requires n <= |s| && 0 <= k < |s| && k != skip
    ensures SumExcept(s[k := b], n, skip) == SumExcept(s, n, skip) + (if k < n then b - s[k] else 0)
  {
    if n > 0 {
      SumUpdate(s, n - 1, skip, k, b);
    }
  }

  lemma {:induction false} SumOfZeros(s: seq<Byte>, n: nat, skip: int)
    requires n <= |s|
    requires forall j :: 0 <= j < |s| ==> s[j] == 0
    ensures SumExcept(s, n, skip) == 0
  {
    if n > 0 {
      SumOfZeros(s, n - 1, skip);
    }
  }

  /** With the store mapped at offset 0, the checksum does not depend on the
      integrity byte, so writing it there leaves a consistent image. */
  lemma WithChecksumConsistent(L: Layout, s: seq<Byte>)
    requires ValidLayout(L) && |s| == StoreSize && L.eepromOffset == 0
    ensures Consistent(L, WithChecksum(L, s))
    ensures Checksum(L, WithChecksum(L, s)) == Checksum(L, s)
  {
    SumIgnoresSkipped(s, StoreSize, L.integrity, Checksum(L, s));
  }

  /** The checksum of an image depends on nothing but the counted bytes. */
  lemma ChecksumIgnoresIntegrity(L: Layout, s: seq<Byte>, b: Byte)
    requires ValidLayout(L) && |s| == StoreSize && L.eepromOffset == 0
    ensures Checksum(L, s[L.integrity := b]) == Checksum(L, s)
    ensures Consistent(L, s[L.integrity := b]) <==> b == Checksum(L, s)
  {
    SumIgnoresSkipped(s, StoreSize, L.integrity, b);
  }

  /** A single corrupted byte outside the integrity byte is always detected. */
  lemma SingleByteCorruptionDetected(L: Layout, s: seq<Byte>, k: int, b: Byte)
    requires ValidLayout(L) && |s| == StoreSize && L.eepromOffset == 0
    requires 0 <= k < StoreSize && k != L.integrity && b != s[k]
    requires Consistent(L, s)
    ensures !Consistent(L, s[k := b])
  {
    var t := s[k := b];
    SumUpdate(s, StoreSize, L.integrity, k, b);
    var before := SumExcept(s, StoreSize, L.integrity);
    assert SumExcept(t, StoreSize, L.integrity) == before + (b - s[k]);
    assert t[L.integrity] == s[L.integrity];
  }

  /** An all-zero image has checksum 0, so a wiped store is consistent. */
  lemma ZeroImageConsistent(L: Layout, s: seq<Byte>)
    requires ValidLayout(L) && |s| == StoreSize
    requires forall j :: 0 <= j < StoreSize ==> s[j] == 0
    ensures Checksum(L, s) == 0 && Consistent(L, s)
  {
    SumOfZeros(s, StoreSize, SkipAddr(L));
  }
}
