/** The wire form of arrays in message queues, and the dimension lists on both sides of it. */
module Message {
  import opened Arrays
  import opened Bytes

  /** Yorick's dimension list, fastest dimension first. */
  datatype Dimension = Nil | Dim(number: int, next: Dimension)

  function ToSeq(d: Dimension): seq<int> {
    match d
    case Nil => []
    case Dim(n, next) => [n] + ToSeq(next)
  }

  /** The list whose numbers are `ns`. */
  function FromSeq(ns: seq<int>): Dimension {
    if ns == [] then Nil else Dim(ns[0], FromSeq(ns[1..]))
  }

  lemma {:induction false} ListOfNumbers(d: Dimension)
    ensures FromSeq(ToSeq(d)) == d
  {
    if d.Dim? {
      ListOfNumbers(d.next);
      assert ToSeq(d)[1..] == ToSeq(d.next);
    }
  }

  lemma {:induction false} ToSeqSplits(d: Dimension, e: Dimension, front: seq<int>)
    requires ToSeq(d) == front + ToSeq(e) && e.Dim?
    ensures ToSeq(d) == front + [e.number] + ToSeq(e.next)
  {
    assert ToSeq(e) == [e.number] + ToSeq(e.next);
  }

  /** An array as the interpreter hands it over. */
  datatype YArray = YArray(typeID: int, dims: Dimension, data: seq<int>)

  /** The array has a dimension, and its numbers fit in C ints. */
  predicate Sendable(a: YArray) {
    var ns := ToSeq(a.dims);
    && ValidType(a.typeID) && a.dims.Dim? && IsInt(|ns|)
    && (forall i :: 0 <= i < |ns| ==> 0 <= ns[i] && IsInt(ns[i]))
    && |a.data| == Product(ns) * TypeSize(a.typeID)
  }

  function MessageBytes(a: YArray): seq<int> {
    var ns := ToSeq(a.dims);
    IntBytes(a.typeID) + IntBytes(|ns|) + WordBytes(ns) + a.data
  }

  function MessageSize(a: YArray): nat {
    2 * INT_BYTES + |ToSeq(a.dims)| * INT_BYTES + |a.data|
  }

  // ------------------------------------------------------------ Y_msq_snd

  /** The loop over the dimension list shared by Y_msq_snd and Y_shm_write: the numbers go into
      the words of `mem` from byte `p` on. */
  method StoreDims(mem: array<int>, start: nat, dims: Dimension) returns (p: nat)
    requires dims.Dim? && start + INT_BYTES * |ToSeq(dims)| <= mem.Length
    modifies mem
    ensures p == start + INT_BYTES * |ToSeq(dims)|
    ensures mem[..p] == old(mem[..start]) + WordBytes(ToSeq(dims))
  {
    var d := dims;
    p := start;
    ghost var ns, i := ToSeq(dims), 0;
    assert ns[..0] == [] && ns == [] + ToSeq(d);
    while true
      invariant d.Dim? && i < |ns| && p == start + INT_BYTES * i
      invariant ns == ns[..i] + ToSeq(d)
      invariant mem[..p] == old(mem[..start]) + WordBytes(ns[..i])
      decreases d
    {
      ToSeqSplits(dims, d, ns[..i]);
      assert ns[i] == d.number && ns[..i + 1] == ns[..i] + [d.number];
      StoreInt(mem, p, d.number);
      WordsExtend(ns, i);
      p := p + INT_BYTES;
      i := i + 1;
      if d.next.Nil? { break; }
      d := d.next;
    }
    assert ns[..i] == ns;
  }

  /** Y_msq_snd's buffer: refused for an array without dimensions or of an unsupported type. */
  method Encode(a: YArray) returns (r: Option<array<int>>)
    requires a.dims.Dim? && ValidType(a.typeID) ==> Sendable(a)
    ensures r.None? <==> a.dims.Nil? || !ValidType(a.typeID)
    ensures r.Some? ==> fresh(r.value) && r.value[..] == MessageBytes(a) && r.value.Length == MessageSize(a)
  {
    if a.dims.Nil? || !ValidType(a.typeID) { return None; }
    var mem := new int[MessageSize(a)];
    StoreInt(mem, 0, a.typeID);
    StoreInt(mem, INT_BYTES, |ToSeq(a.dims)|);
    assert mem[..2 * INT_BYTES] == IntBytes(a.typeID) + IntBytes(|ToSeq(a.dims)|);
    var p := StoreDims(mem, 2 * INT_BYTES, a.dims);
    CopyIn(mem, p, a.data);
    assert mem[p + |a.data|..] == [];
    assert mem[..] == MessageBytes(a);
    return Some(mem);
  }

  // ------------------------------------------------------------ Y_msq_rcv

  lemma MessageWords(m: seq<int>, a: YArray)
    requires Sendable(a) && MessageBytes(a) <= m
    ensures IntAt(m, 0) == a.typeID && IntAt(m, INT_BYTES) == |ToSeq(a.dims)|
    ensures forall i :: 0 <= i < |ToSeq(a.dims)| ==> IntAt(m, (2 + i) * INT_BYTES) == ToSeq(a.dims)[i]
    ensures m[(2 + |ToSeq(a.dims)|) * INT_BYTES..MessageSize(a)] == a.data
  {
    var b, ns := MessageBytes(a), ToSeq(a.dims);
    assert m[..|b|] == b;
    assert m[0..INT_BYTES] == b[0..INT_BYTES] == IntBytes(a.typeID);
    IntRoundTrip(a.typeID, m, 0);
    assert m[INT_BYTES..2 * INT_BYTES] == b[INT_BYTES..2 * INT_BYTES] == IntBytes(|ns|);
    IntRoundTrip(|ns|, m, INT_BYTES);
    forall i | 0 <= i < |ns| ensures IntAt(m, (2 + i) * INT_BYTES) == ns[i] {
      MessageDim(m, a, i);
    }
  }

  lemma MessageDim(m: seq<int>, a: YArray, i: nat)
    requires Sendable(a) && MessageBytes(a) <= m && i < |ToSeq(a.dims)|
    ensures IntAt(m, (2 + i) * INT_BYTES) == ToSeq(a.dims)[i]
  {
    var b, ns := MessageBytes(a), ToSeq(a.dims);
    var words, off := WordBytes(ns), (2 + i) * INT_BYTES;
    WordAt(ns, i);
    assert b[2 * INT_BYTES..2 * INT_BYTES + |words|] == words;
    assert m[off..off + INT_BYTES] == b[off..off + INT_BYTES] == words[INT_BYTES * i..INT_BYTES * i + INT_BYTES];
    IntRoundTrip(ns[i], m, off);
  }

  /** The product of a row of numbers taken from its end. */
  lemma {:induction false} ProductSplits(ns: seq<int>, k: nat)
    requires k < |ns|
    ensures Product(ns[k..]) == ns[k] * Product(ns[k + 1..])
  {
    var tail := ns[k..];
    if k + 1 == |ns| {
      assert tail[..0] == [] && ns[k + 1..] == [];
    } else {
      var front := ns[..|ns| - 1];
      ProductSplits(front, k);
      assert tail[..|tail| - 1] == front[k..];
      assert ns[k + 1..][..|ns| - k - 2] == front[k + 1..];
      var x, y, z := ns[k], Product(front[k + 1..]), ns[|ns| - 1];
      assert Product(tail) == (x * y) * z;
      assert Product(ns[k + 1..]) == y * z;
      assert (x * y) * z == x * (y * z);
    }
  }

  /** The decoder's loop: the dimension words are read from the last to the first, each put in
      front of the list, while the cursor `p` moves past them. */
  method DecodeDims(mem: array<int>, p0: nat, count: int, ghost ns: seq<int>)
      returns (p: nat, total: int, dims: Dimension)
    requires count == |ns| && p0 + INT_BYTES * |ns| <= mem.Length
    requires forall i :: 0 <= i < |ns| ==> IntAt(mem[..], p0 + INT_BYTES * i) == ns[i]
    ensures p == p0 + INT_BYTES * |ns| && total == Product(ns) && dims == FromSeq(ns)
  {
    hide IntAt;
    var countdims := count;
    p, total, dims := p0, 1, Nil;
    assert ns[|ns|..] == [];
    while countdims > 0
      invariant 0 <= countdims <= |ns|
      invariant p == p0 + INT_BYTES * (|ns| - countdims)
      invariant dims == FromSeq(ns[countdims..]) && total == Product(ns[countdims..])
    {
      var thisdim := IntAt(mem[..], p0 + INT_BYTES * (countdims - 1));
      ProductSplits(ns, countdims - 1);
      assert ns[countdims - 1..][1..] == ns[countdims..];
      p := p + INT_BYTES;
      total := total * thisdim;
      dims := Dim(thisdim, dims);
      countdims := countdims - 1;
    }
    assert ns[0..] == ns;
  }

  /** Y_msq_rcv's decoder: from a buffer that starts with the encoding of `sent` it rebuilds
      `sent`; `consumed` is where its cursor ends. */
  method Decode(mem: array<int>, ghost sent: YArray) returns (a: YArray, consumed: nat)
    requires Sendable(sent) && MessageBytes(sent) <= mem[..]
    ensures a == sent && consumed == MessageSize(sent)
  {
    ghost var ns := ToSeq(sent.dims);
    MessageWords(mem[..], sent);
    var typeID := IntAt(mem[..], 0);
    var countdims := IntAt(mem[..], INT_BYTES);
    var p, total, tmpDims := DecodeDims(mem, 2 * INT_BYTES, countdims, ns);
    ListOfNumbers(sent.dims);
    var bytes := total * TypeSize(typeID);
    assert mem[p..p + bytes] == mem[..][p..p + bytes];
    a := YArray(typeID, tmpDims, mem[p..p + bytes]);
    consumed := p + bytes;
  }

  // ------------------------------------------------------------ Y_shm_write, Y_shm_read

  /** Y_shm_write's loop: the numbers of the list, in order. */
  method Flatten(dims: Dimension) returns (number: seq<int>)
    requires dims.Dim?
    ensures number == ToSeq(dims)
  {
    var d := dims;
    number := [];
    while true
      invariant d.Dim? && ToSeq(dims) == number + ToSeq(d)
      decreases d
    {
      ToSeqSplits(dims, d, number);
      number := number + [d.number];
      if d.next.Nil? { break; }
      d := d.next;
    }
  }

  /** Y_shm_read's loop: the list and the element count, from the last number to the first. */
  method Rebuild(number: seq<int>) returns (dims: Dimension, total: int)
    ensures dims == FromSeq(number) && total == Product(number)
  {
    var countdims := |number|;
    dims, total := Nil, 1;
    while countdims > 0
      invariant 0 <= countdims <= |number|
      invariant dims == FromSeq(number[countdims..]) && total == Product(number[countdims..])
    {
      ProductSplits(number, countdims - 1);
      assert number[countdims - 1..][1..] == number[countdims..];
      total := total * number[countdims - 1];
      dims := Dim(number[countdims - 1], dims);
      countdims := countdims - 1;
    }
    assert number[0..] == number;
  }
}
