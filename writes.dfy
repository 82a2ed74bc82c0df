/** A sequence of typed field writes and its effect on a store image. The
    persist operations issue fixed sequences of writes; this module proves
    once what any such sequence does: the last write of a field wins, a
    field no write names keeps its value, bytes no write covers keep theirs. */
module Writes {
  import opened Bytes
  import opened Layout

  datatype Write = Write(field: Field, value: int)

  predicate ValidWrites(ws: seq<Write>) {
    forall i :: 0 <= i < |ws| ==> ValidField(ws[i].field)
  }

  /** No write of `ws` names field `f`. */
  predicate Untouched(ws: seq<Write>, f: Field) {
    forall i :: 0 <= i < |ws| ==> ws[i].field != f
  }

  /** No write of `ws` covers address `j`. */
  predicate ByteUntouched(L: Layout, ws: seq<Write>, j: int) {
    forall i :: 0 <= i < |ws| ==> !Covers(L, ws[i].field, j)
  }

  /** Every write of `ws` to field `f` writes `v`. */
  predicate OnlyWrites(ws: seq<Write>, f: Field, v: int) {
    forall i :: 0 <= i < |ws| && ws[i].field == f ==> ws[i].value == v
  }

  /** The image after the writes of `ws`, in order. */
  function PutAll(L: Layout, s: seq<Byte>, ws: seq<Write>): (r: seq<Byte>)
    requires ValidLayout(L) && |s| == StoreSize && ValidWrites(ws)
    ensures |r| == StoreSize
    ensures r[L.integrity] == s[L.integrity]
    decreases |ws|
  {
    if ws == [] then s
    else
      var w := ws[|ws| - 1];
      assert w in ws;
      Put(L, PutAll(L, s, ws[..|ws| - 1]), w.field, w.value)
  }

  lemma PutAllSnoc(L: Layout, s: seq<Byte>, ws: seq<Write>, w: Write)
    requires ValidLayout(L) && |s| == StoreSize && ValidWrites(ws) && ValidField(w.field)
    ensures ValidWrites(ws + [w])
    ensures PutAll(L, s, ws + [w]) == Put(L, PutAll(L, s, ws), w.field, w.value)
  {
    assert (ws + [w])[..|ws|] == ws;
  }

  /** Writing `a` then `b` is writing their concatenation. */
  lemma {:induction false} PutAllAppend(L: Layout, s: seq<Byte>, a: seq<Write>, b: seq<Write>)
    requires ValidLayout(L) && |s| == StoreSize && ValidWrites(a) && ValidWrites(b)
    ensures ValidWrites(a + b)
    ensures PutAll(L, s, a + b) == PutAll(L, PutAll(L, s, a), b)
    decreases |b|
  {
    if b == [] {
      assert a + b == a;
    } else {
      var b' := b[..|b| - 1];
      var w := b[|b| - 1];
      assert w in b;
      assert forall x :: x in b' ==> x in b;
      assert a + b == (a + b') + [w];
      PutAllAppend(L, s, a, b');
      PutAllSnoc(L, s, a + b', w);
    }
  }

  /** A field no write names keeps its value. */
  lemma {:induction false} PutAllFrame(L: Layout, s: seq<Byte>, ws: seq<Write>, f: Field)
    requires ValidLayout(L) && |s| == StoreSize && ValidWrites(ws) && ValidField(f)
    requires Untouched(ws, f)
    ensures Get(L, PutAll(L, s, ws), f) == Get(L, s, f)
    decreases |ws|
  {
    if ws != [] {
      var w := ws[|ws| - 1];
      assert w in ws;
      PutAllFrame(L, s, ws[..|ws| - 1], f);
    }
  }

  /** A byte no write covers keeps its value. */
  lemma {:induction false} PutAllByteFrame(L: Layout, s: seq<Byte>, ws: seq<Write>, j: int)
    requires ValidLayout(L) && |s| == StoreSize && ValidWrites(ws) && 0 <= j < StoreSize
    requires ByteUntouched(L, ws, j)
    ensures PutAll(L, s, ws)[j] == s[j]
    decreases |ws|
  {
    if ws != [] {
      var w := ws[|ws| - 1];
      assert w in ws;
      PutAllByteFrame(L, s, ws[..|ws| - 1], j);
    }
  }

  /** The last write of a field decides its value. */
  lemma LastWriteWins(L: Layout, s: seq<Byte>, a: seq<Write>, f: Field, v: int, b: seq<Write>)
    requires ValidLayout(L) && |s| == StoreSize && ValidWrites(a) && ValidField(f) && ValidWrites(b)
    requires Untouched(b, f)
    ensures ValidWrites(a + [Write(f, v)] + b)
    ensures Get(L, PutAll(L, s, a + [Write(f, v)] + b), f) == Norm(KindOf(f), v)
  {
    PutAllSnoc(L, s, a, Write(f, v));
    PutAllAppend(L, s, a + [Write(f, v)], b);
    PutAllFrame(L, PutAll(L, s, a + [Write(f, v)]), b, f);
  }

  /** When `ws` writes `v` to `f` and never anything else, `f` reads `v` afterwards. */
  lemma {:induction false} PutAllWritten(L: Layout, s: seq<Byte>, ws: seq<Write>, f: Field, v: int)
    requires ValidLayout(L) && |s| == StoreSize && ValidWrites(ws) && ValidField(f)
    requires Write(f, v) in ws
    requires OnlyWrites(ws, f, v)
    ensures Get(L, PutAll(L, s, ws), f) == Norm(KindOf(f), v)
    decreases |ws|
  {
    var w := ws[|ws| - 1];
    var p := ws[..|ws| - 1];
    assert ws == p + [w];
    if w.field != f {
      assert Write(f, v) in p;
      PutAllWritten(L, s, p, f, v);
    }
  }

  /** A field that already holds `v` keeps it when every write to it writes `v`. */
  lemma {:induction false} PutAllKeeps(L: Layout, s: seq<Byte>, ws: seq<Write>, f: Field, v: int)
    requires ValidLayout(L) && |s| == StoreSize && ValidWrites(ws) && ValidField(f)
    requires Get(L, s, f) == Norm(KindOf(f), v)
    requires OnlyWrites(ws, f, v)
    ensures Get(L, PutAll(L, s, ws), f) == Norm(KindOf(f), v)
    decreases |ws|
  {
    if ws != [] {
      var w := ws[|ws| - 1];
      var p := ws[..|ws| - 1];
      assert ws == p + [w];
      PutAllKeeps(L, s, p, f, v);
    }
  }

  /** A field neither part names is not named by their concatenation. */
  lemma UntouchedAppend(a: seq<Write>, b: seq<Write>, f: Field)
    requires Untouched(a, f) && Untouched(b, f)
    ensures Untouched(a + b, f)
  {
    forall i | 0 <= i < |a + b|
      ensures (a + b)[i].field != f
    {
      if i >= |a| {
        assert (a + b)[i] == b[i - |a|];
      }
    }
  }

  /** Two sequences that write `f` with `v` alone make one that does. */
  lemma OnlyWritesAppend(a: seq<Write>, b: seq<Write>, f: Field, v: int)
    requires OnlyWrites(a, f, v) && OnlyWrites(b, f, v)
    ensures OnlyWrites(a + b, f, v)
  {
    forall i | 0 <= i < |a + b| && (a + b)[i].field == f
      ensures (a + b)[i].value == v
    {
      if i >= |a| {
        assert (a + b)[i] == b[i - |a|];
      }
    }
  }

  /** Five sequences of writes one after another, when the first is the
      only one that names `f`, and names it with `v` alone. */
  lemma PutAllFirstOfFive(L: Layout, s: seq<Byte>, a: seq<Write>, b: seq<Write>, c: seq<Write>,
                          d: seq<Write>, e: seq<Write>, f: Field, v: int)
    requires ValidLayout(L) && |s| == StoreSize && ValidField(f)
    requires ValidWrites(a) && ValidWrites(b) && ValidWrites(c) && ValidWrites(d) && ValidWrites(e)
    requires Write(f, v) in a && OnlyWrites(a, f, v) && InRange(KindOf(f), v)
    requires Untouched(b, f) && Untouched(c, f) && Untouched(d, f) && Untouched(e, f)
    ensures ValidWrites(a + b + c + d + e)
    ensures Get(L, PutAll(L, s, a + b + c + d + e), f) == v
  {
    PutAllAppend(L, s, a, b);
    PutAllAppend(L, s, a + b, c);
    PutAllAppend(L, s, a + b + c, d);
    PutAllAppend(L, s, a + b + c + d, e);
    var s1 := PutAll(L, s, a);
    PutAllWritten(L, s, a, f, v);
    PutAllFrame(L, s1, b, f);
    PutAllFrame(L, PutAll(L, s1, b), c, f);
    PutAllFrame(L, PutAll(L, PutAll(L, s1, b), c), d, f);
    PutAllFrame(L, PutAll(L, PutAll(L, PutAll(L, s1, b), c), d), e, f);
  }

  /** Five sequences of writes one after another, when only the last names
      `f`: `f` ends with `v` when the last writes `v` to it, or when it held
      `v` and every write of the last to it writes `v`. */
  lemma PutAllLastOfFive(L: Layout, s: seq<Byte>, a: seq<Write>, b: seq<Write>, c: seq<Write>,
                         d: seq<Write>, e: seq<Write>, f: Field, v: int)
    requires ValidLayout(L) && |s| == StoreSize && ValidField(f)
    requires ValidWrites(a) && ValidWrites(b) && ValidWrites(c) && ValidWrites(d) && ValidWrites(e)
    requires Untouched(a, f) && Untouched(b, f) && Untouched(c, f) && Untouched(d, f)
    requires OnlyWrites(e, f, v) && InRange(KindOf(f), v) && (Write(f, v) in e || Get(L, s, f) == v)
    ensures ValidWrites(a + b + c + d + e)
    ensures Get(L, PutAll(L, s, a + b + c + d + e), f) == v
  {
    PutAllAppend(L, s, a, b);
    PutAllAppend(L, s, a + b, c);
    PutAllAppend(L, s, a + b + c, d);
    PutAllAppend(L, s, a + b + c + d, e);
    var s1 := PutAll(L, s, a);
    var s4 := PutAll(L, PutAll(L, PutAll(L, s1, b), c), d);
    PutAllFrame(L, s, a, f);
    PutAllFrame(L, s1, b, f);
    PutAllFrame(L, PutAll(L, s1, b), c, f);
    PutAllFrame(L, PutAll(L, PutAll(L, s1, b), c), d, f);
    if Write(f, v) in e {
      PutAllWritten(L, s4, e, f, v);
    } else {
      PutAllKeeps(L, s4, e, f, v);
    }
  }

  /** The fields of a write sequence that are valid stay valid under concatenation. */
  lemma ValidWritesAppend(a: seq<Write>, b: seq<Write>)
    requires ValidWrites(a) && ValidWrites(b)
    ensures ValidWrites(a + b)
  {
  }

  /** `ws` writes exactly `o` to `f`: nothing when `o` is `None`; `v` at
      least once and nothing else when `o` is `Some(v)`. */
  predicate WritesExactly(ws: seq<Write>, f: Field, o: Option<int>) {
    match o
    case None => Untouched(ws, f)
    case Some(v) => Write(f, v) in ws && OnlyWrites(ws, f, v)
  }

  /** Of two sequences at most one of which names `f`, the concatenation
      writes to `f` what that one writes. */
  lemma WritesExactlyAppend(a: seq<Write>, b: seq<Write>, f: Field, oa: Option<int>, ob: Option<int>)
    requires WritesExactly(a, f, oa) && WritesExactly(b, f, ob) && (oa.None? || ob.None?)
    ensures WritesExactly(a + b, f, if oa.Some? then oa else ob)
  {
    if oa.Some? {
      OnlyWritesAppend(a, b, f, oa.value);
    } else if ob.Some? {
      OnlyWritesAppend(a, b, f, ob.value);
    } else {
      UntouchedAppend(a, b, f);
    }
  }

  /** The value of `f` after writes that write exactly `o` to it: the written
      value, or the old one when nothing names `f`. */
  lemma PutAllExactly(L: Layout, s: seq<Byte>, ws: seq<Write>, f: Field, o: Option<int>)
    requires ValidLayout(L) && |s| == StoreSize && ValidWrites(ws) && ValidField(f)
    requires WritesExactly(ws, f, o)
    ensures Get(L, PutAll(L, s, ws), f) == if o.Some? then Norm(KindOf(f), o.value) else Get(L, s, f)
  {
    if o.Some? {
      PutAllWritten(L, s, ws, f, o.value);
    } else {
      PutAllFrame(L, s, ws, f);
    }
  }
}
