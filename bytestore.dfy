/** The non-volatile byte store behind the settings: 2048 bytes with typed
    reads and writes at an address. */
module ByteStore {
  import opened Bytes

  class Hal {
    const mem: array<Byte>

    constructor (init: seq<Byte>)
      requires |init| == StoreSize
      ensures mem.Length == StoreSize && mem[..] == init
      ensures fresh(mem)
    {
      mem := new Byte[StoreSize](i requires 0 <= i < StoreSize => init[i]);
    }

    /** The value of kind `k` stored at `pos`. */
    method Read(pos: int, k: Kind) returns (v: int)
      requires 0 <= pos && pos + Width(k) <= mem.Length
      ensures InRange(k, v)
      ensures v == ValueAt(mem[..], pos, k)
    {
      v := ValueAt(mem[..], pos, k);
    }

    /** Write `v` (truncated to the kind) at `pos`: only bytes [pos, pos + width)
        change, and reading the same place and kind gives the value back. */
    method Write(pos: int, k: Kind, v: int)
      requires 0 <= pos && pos + Width(k) <= mem.Length
      modifies mem
      ensures forall j :: 0 <= j < mem.Length && !(pos <= j < pos + Width(k)) ==> mem[j] == old(mem[j])
      ensures ValueAt(mem[..], pos, k) == Norm(k, v)
      ensures mem[..] == WriteAt(old(mem[..]), pos, k, v)
    {
      var bs := Encode(k, v);
      var i := 0;
      while i < |bs|
        invariant 0 <= i <= |bs|
        invariant forall j :: 0 <= j < mem.Length && !(pos <= j < pos + i) ==> mem[j] == old(mem[j])
        invariant forall j :: pos <= j < pos + i ==> mem[j] == bs[j - pos]
      {
        mem[pos + i] := bs[i];
        i := i + 1;
      }
      WriteAtFacts(old(mem[..]), pos, k, v);
      assert mem[..] == WriteAt(old(mem[..]), pos, k, v);
    }
  }
}
