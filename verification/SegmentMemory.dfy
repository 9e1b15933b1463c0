/** The header and payload of one slot segment, byte for byte: what svipc_shm_write stores into
    the segment it has locked and what svipc_shm_read takes out of it. */
module SegmentMemory {
  import opened Arrays
  import opened Bytes

  /** An array whose header words fit in C ints. */
  predicate Storable(a: SlotArray) {
    WellFormed(a) && IsInt(|a.dims|) && forall i :: 0 <= i < |a.dims| ==> IsInt(a.dims[i])
  }

  function HeaderBytes(a: SlotArray): seq<int> {
    IntBytes(a.typeID) + IntBytes(|a.dims|) + WordBytes(a.dims)
  }

  function ArrayBytes(a: SlotArray): seq<int> {
    HeaderBytes(a) + a.data
  }

  /** The segment `m`, made for an array of this size, now stores `a`. */
  predicate Stores(m: seq<int>, a: SlotArray) {
    Storable(a) && |m| == ShmBytes(a) && ArrayBytes(a) <= m
  }

  /** The segment carries its creator's mark. */
  predicate Marked(m: seq<int>) {
    |m| >= 2 * INT_BYTES && IntAt(m, 0) == UNSET_TYPE
  }

  /** What a write of `a` makes of a segment that stores `was`, and whether it is accepted. */
  function Rewrite(was: Option<SlotArray>, a: SlotArray): (SlotArray, bool) {
    match was
    case None => (a, true)
    case Some(v) => if Compatible(a, v.typeID, v.dims) then (v.(data := a.data), true) else (v, false)
  }

  // ------------------------------------------------------------ reading headers

  lemma StoredHeader(m: seq<int>, a: SlotArray)
    requires Stores(m, a)
    ensures IntAt(m, 0) == a.typeID && IntAt(m, INT_BYTES) == |a.dims|
    ensures forall i :: 0 <= i < |a.dims| ==> IntAt(m, (2 + i) * INT_BYTES) == a.dims[i]
    ensures m[(2 + |a.dims|) * INT_BYTES..(2 + |a.dims|) * INT_BYTES + |a.data|] == a.data
  {
    var b := ArrayBytes(a);
    assert m[..|b|] == b;
    assert m[0..INT_BYTES] == b[0..INT_BYTES] == IntBytes(a.typeID);
    IntRoundTrip(a.typeID, m, 0);
    assert m[INT_BYTES..2 * INT_BYTES] == b[INT_BYTES..2 * INT_BYTES] == IntBytes(|a.dims|);
    IntRoundTrip(|a.dims|, m, INT_BYTES);
    forall i | 0 <= i < |a.dims| ensures IntAt(m, (2 + i) * INT_BYTES) == a.dims[i] {
      StoredDim(m, a, i);
    }
  }

  lemma StoredDim(m: seq<int>, a: SlotArray, i: nat)
    requires Storable(a) && i < |a.dims|
    requires ArrayBytes(a) <= m
    ensures IntAt(m, (2 + i) * INT_BYTES) == a.dims[i]
  {
    var b := ArrayBytes(a);
    var words := WordBytes(a.dims);
    var off := (2 + i) * INT_BYTES;
    WordAt(a.dims, i);
    assert b[2 * INT_BYTES..2 * INT_BYTES + |words|] == words;
    assert m[off..off + INT_BYTES] == b[off..off + INT_BYTES] == words[INT_BYTES * i..INT_BYTES * i + INT_BYTES];
    IntRoundTrip(a.dims[i], m, off);
  }

  lemma HeaderCells(a: SlotArray, k: nat)
    requires k < HeaderLength(a)
    ensures |HeaderBytes(a)| == HeaderLength(a) * INT_BYTES
    ensures HeaderBytes(a)[k * INT_BYTES..(k + 1) * INT_BYTES] == IntBytes(([a.typeID, |a.dims|] + a.dims)[k])
  {
    var b, words := HeaderBytes(a), WordBytes(a.dims);
    if k >= 2 {
      WordAt(a.dims, k - 2);
      assert b[k * INT_BYTES..(k + 1) * INT_BYTES] == words[(k - 2) * INT_BYTES..(k - 1) * INT_BYTES];
    }
  }

  /** The cells of the pool model are these bytes: a header or dimension cell is a stored int, a
      payload cell is a byte, and each ends where `CellEnd` says. */
  lemma CellsAreBytes(a: SlotArray, k: nat)
    requires k < |Image(a)|
    ensures CellEnd(|a.dims|, k) <= |ArrayBytes(a)|
    ensures k < HeaderLength(a) ==>
      ArrayBytes(a)[CellEnd(|a.dims|, k) - INT_BYTES..CellEnd(|a.dims|, k)] == IntBytes(Image(a)[k])
    ensures k >= HeaderLength(a) ==> ArrayBytes(a)[CellEnd(|a.dims|, k) - 1] == Image(a)[k]
  {
    var h := HeaderBytes(a);
    HeaderCells(a, 0);
    if k < HeaderLength(a) {
      HeaderCells(a, k);
      assert Image(a)[k] == ([a.typeID, |a.dims|] + a.dims)[k];
      assert ArrayBytes(a)[k * INT_BYTES..(k + 1) * INT_BYTES] == h[k * INT_BYTES..(k + 1) * INT_BYTES];
    } else {
      var j := k - HeaderLength(a);
      assert ArrayBytes(a)[|h| + j] == a.data[j] == Image(a)[k];
    }
  }

  // ------------------------------------------------------------ svipc_shm_write

  /** The creator's mark. */
  method MarkNew(mem: array<int>)
    requires mem.Length >= 2 * INT_BYTES
    modifies mem
    ensures Marked(mem[..])
  {
    StoreInt(mem, 0, UNSET_TYPE);
    IntRoundTrip(UNSET_TYPE, mem[..], 0);
  }

  method FillHeader(mem: array<int>, a: SlotArray) returns (p: nat)
    requires Storable(a) && mem.Length == ShmBytes(a)
    modifies mem
    ensures p == (2 + |a.dims|) * INT_BYTES && mem[..p] == HeaderBytes(a)
  {
    StoreInt(mem, 0, a.typeID);
    StoreInt(mem, INT_BYTES, |a.dims|);
    p := 2 * INT_BYTES;
    assert mem[..p] == IntBytes(a.typeID) + IntBytes(|a.dims|);
    var i := 0;
    while i < |a.dims|
      invariant i <= |a.dims| && p == (2 + i) * INT_BYTES
      invariant mem[..p] == IntBytes(a.typeID) + IntBytes(|a.dims|) + WordBytes(a.dims[..i])
    {
      StoreInt(mem, p, a.dims[i]);
      WordsExtend(a.dims, i);
      p := p + INT_BYTES;
      i := i + 1;
    }
    assert a.dims[..i] == a.dims;
  }

  /** The checks a writer makes against an existing header; `p` is where the payload starts. */
  method CheckHeader(mem: array<int>, a: SlotArray, ghost v: SlotArray) returns (ok: bool, p: nat)
    requires Storable(a) && Stores(mem[..], v)
    ensures ok <==> Compatible(a, v.typeID, v.dims)
    ensures p == (2 + |v.dims|) * INT_BYTES
  {
    StoredHeader(mem[..], v);
    var total := Total(a.dims);
    ok := true;
    if a.typeID != IntAt(mem[..], 0) { ok := false; }
    if |a.dims| != IntAt(mem[..], INT_BYTES) { ok := false; }
    p := 2 * INT_BYTES;
    var stored, i := 1, 0;
    while i < IntAt(mem[..], INT_BYTES)
      invariant 0 <= i <= |v.dims| && p == (2 + i) * INT_BYTES
      invariant stored == Product(v.dims[..i])
    {
      stored := stored * IntAt(mem[..], p);
      assert v.dims[..i + 1][..i] == v.dims[..i];
      p := p + INT_BYTES;
      i := i + 1;
    }
    assert v.dims[..i] == v.dims;
    if total != stored { ok := false; }
  }

  /** The element count the caller's dimensions announce. */
  method Total(dims: seq<int>) returns (total: int)
    ensures total == Product(dims)
  {
    total := 1;
    var i := 0;
    while i < |dims|
      invariant i <= |dims| && total == Product(dims[..i])
    {
      total := total * dims[i];
      assert dims[..i + 1][..i] == dims[..i];
      i := i + 1;
    }
    assert dims[..i] == dims;
  }

  /** A write into a locked segment: into a marked one it lays down header and payload; into one
      that stores `was` it replaces the payload, or changes nothing when the array does not
      agree with the stored header. */
  method WriteArray(mem: array<int>, a: SlotArray, ghost was: Option<SlotArray>) returns (ok: bool)
    requires Storable(a)
    requires was.None? ==> Marked(mem[..]) && mem.Length == ShmBytes(a)
    requires was.Some? ==> Stores(mem[..], was.value)
    modifies mem
    ensures ok <==>
      || was.None?
      || (&& a.typeID == was.value.typeID
          && |a.dims| == |was.value.dims| && Product(a.dims) == Product(was.value.dims))
    ensures was.None? ==> Stores(mem[..], a)
    ensures ok && was.Some? ==> Stores(mem[..], SlotArray(was.value.typeID, was.value.dims, a.data))
    ensures !ok ==> mem[..] == old(mem[..])
    ensures (Rewrite(was, a).1 <==> ok) && Stores(mem[..], Rewrite(was, a).0)
  {
    if was.Some? { StoredHeader(mem[..], was.value); }
    var p: nat;
    if IntAt(mem[..], 0) == UNSET_TYPE {
      p := FillHeader(mem, a);
      ok := true;
      CopyIn(mem, p, a.data);
      assert mem[..p + |a.data|] == ArrayBytes(a);
    } else {
      ghost var v := was.value;
      ok, p := CheckHeader(mem, a, v);
      if ok {
        assert mem[..p] == HeaderBytes(v) by { assert mem[..][..|ArrayBytes(v)|] == ArrayBytes(v); }
        CopyIn(mem, p, a.data);
        var now := v.(data := a.data);
        assert mem[..p + |a.data|] == ArrayBytes(now);
      }
    }
  }

  // ------------------------------------------------------------ svipc_shm_read

  /** A read of a segment that stores `v` returns `v`. */
  method ReadArray(mem: array<int>, ghost v: SlotArray) returns (a: SlotArray)
    requires Stores(mem[..], v)
    ensures a == v
  {
    StoredHeader(mem[..], v);
    hide IntAt;
    var typeID, countdims := IntAt(mem[..], 0), IntAt(mem[..], INT_BYTES);
    var p: nat := 2 * INT_BYTES;
    var dims: seq<int>, total := [], 1;
    var i := 0;
    while i < countdims
      invariant 0 <= i <= |v.dims| && p == (2 + i) * INT_BYTES
      invariant dims == v.dims[..i] && total == Product(dims)
    {
      dims := dims + [IntAt(mem[..], p)];
      assert dims[..|dims| - 1] == v.dims[..i];
      total := total * dims[i];
      p := p + INT_BYTES;
      i := i + 1;
    }
    assert dims == v.dims;
    var bytes := total * TypeSize(typeID);
    assert mem[p..p + bytes] == mem[..][p..p + bytes];
    a := SlotArray(typeID, dims, mem[p..p + bytes]);
  }

  // ------------------------------------------------------------ the rewrite law

  /** What a segment stores after `first` and then the writes `ws`, and which of these were
      accepted. */
  function RewriteAll(first: SlotArray, ws: seq<SlotArray>): (r: (SlotArray, seq<bool>))
    ensures |r.1| == |ws|
  {
    if ws == [] then (first, [])
    else
      var (v, oks) := RewriteAll(first, ws[..|ws| - 1]);
      var (v', ok) := Rewrite(Some(v), ws[|ws| - 1]);
      (v', oks + [ok])
  }

  /** Write `a` has the type, number of dimensions and element count of `first`. */
  predicate Agrees(first: SlotArray, a: SlotArray) {
    a.typeID == first.typeID && |a.dims| == |first.dims| && Product(a.dims) == Product(first.dims)
  }

  /** `k` is the last write of `ws` that agrees with `first`. */
  predicate LastAgreeing(first: SlotArray, ws: seq<SlotArray>, k: nat) {
    && k < |ws|
    && Agrees(first, ws[k])
    && forall j :: k < j < |ws| ==> !Agrees(first, ws[j])
  }

  /** After any sequence of writes a read gives the last accepted write's bytes under the first
      write's type and dimensions; a write is accepted exactly if it agrees with the first one,
      whatever came in between, and the element count never changes. */
  lemma {:induction false} RewriteLaw(first: SlotArray, ws: seq<SlotArray>)
    requires WellFormed(first) && forall k :: 0 <= k < |ws| ==> WellFormed(ws[k])
    ensures var (v, oks) := RewriteAll(first, ws);
            && WellFormed(v) && v.typeID == first.typeID && v.dims == first.dims
            && (forall k :: 0 <= k < |ws| ==> (oks[k] <==> Agrees(first, ws[k])))
            && (forall k: nat :: LastAgreeing(first, ws, k) ==>
                  v.data == ws[k].data && Product(ws[k].dims) == Product(v.dims))
            && ((forall k :: 0 <= k < |ws| ==> !Agrees(first, ws[k])) ==> v == first)
  {
    if ws != [] {
      var n := |ws| - 1;
      var front, last := ws[..n], ws[n];
      RewriteLaw(first, front);
      var (was, oks) := RewriteAll(first, front);
      var v := RewriteAll(first, ws).0;
      if Agrees(first, last) {
        assert v == was.(data := last.data);
        forall k: nat | LastAgreeing(first, ws, k) ensures k == n {
        }
      } else {
        assert v == was;
        forall k: nat | LastAgreeing(first, ws, k) ensures LastAgreeing(first, front, k) && ws[k] == front[k] {
        }
      }
    }
  }
}
