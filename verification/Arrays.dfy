/** Typed arrays as the slots carry them: a type code, a dimension list and the
    element bytes, with the size arithmetic that the slot header relies on. */
module Arrays {

  datatype Option<+T> = None | Some(value: T)

  /** `sizeof(int)` and `sizeof(long)` of the LP64 platforms the plugin runs on. */
  const INT_BYTES := 4
  const LONG_BYTES := 8

  /** The marker a creator stores in the header of a segment that holds nothing yet. */
  const UNSET_TYPE := -1

  /** Element sizes of SVIPC_CHAR .. SVIPC_DOUBLE. */
  function TypeSize(typeID: int): nat {
    if typeID == 0 then 1
    else if typeID == 1 then 2
    else if typeID == 2 then 4
    else if typeID == 3 then 8
    else if typeID == 4 then 4
    else if typeID == 5 then 8
    else 0
  }

  predicate ValidType(typeID: int) {
    0 <= typeID <= 5
  }

  /** They are those of char, short, int, long, float and double, in that order. */
  lemma TypeSizes(typeID: int)
    ensures ValidType(typeID) ==> TypeSize(typeID) == [1, 2, INT_BYTES, LONG_BYTES, 4, 8][typeID]
    ensures ValidType(typeID) <==> TypeSize(typeID) > 0
  {
  }

  function Product(dims: seq<int>): int {
    if dims == [] then 1 else Product(dims[..|dims| - 1]) * dims[|dims| - 1]
  }

  function Sum(xs: seq<int>): (total: int)
    ensures (forall i :: 0 <= i < |xs| ==> 0 <= xs[i]) ==> 0 <= total
  {
    if xs == [] then 0 else Sum(xs[..|xs| - 1]) + xs[|xs| - 1]
  }

  /** `data` is kept as one integer per byte. */
  datatype SlotArray = SlotArray(typeID: int, dims: seq<int>, data: seq<int>)

  predicate ValidDims(dims: seq<int>) {
    forall i :: 0 <= i < |dims| ==> 0 <= dims[i]
  }

  predicate WellFormed(a: SlotArray) {
    && ValidType(a.typeID)
    && ValidDims(a.dims)
    && |a.data| == Product(a.dims) * TypeSize(a.typeID)
  }

  /** The cells of a slot segment, in the order the writer lays them down:
      two header words, one word per dimension, then one cell per payload byte. */
  function Image(a: SlotArray): seq<int> {
    [a.typeID, |a.dims|] + a.dims + a.data
  }

  function HeaderLength(a: SlotArray): nat {
    2 + |a.dims|
  }

  /** What the writer asks the kernel for: dimensions are budgeted as longs. */
  function ShmBytes(a: SlotArray): nat {
    2 * INT_BYTES + |a.dims| * LONG_BYTES + |a.data|
  }

  /** First byte after cell `k` of a segment with `countdims` dimensions: header and
      dimension cells are ints, payload cells are bytes. */
  function CellEnd(countdims: nat, k: nat): nat {
    if k < 2 + countdims then (k + 1) * INT_BYTES
    else (2 + countdims) * INT_BYTES + (k - (2 + countdims)) + 1
  }

  /** The consistency check a writer makes against an existing header. */
  predicate Compatible(a: SlotArray, typeID: int, dims: seq<int>) {
    && a.typeID == typeID
    && |a.dims| == |dims|
    && Product(a.dims) == Product(dims)
  }

  /** The array a slot holds after the accepted writes `hist`: the first write fixes type
      and dimensions, the last one the bytes. */
  function View(hist: seq<SlotArray>): SlotArray
    requires hist != []
  {
    SlotArray(hist[0].typeID, hist[0].dims, hist[|hist| - 1].data)
  }

  /** A history in which every write agrees with the header the first one left. */
  predicate ValidHistory(hist: seq<SlotArray>) {
    && (forall k :: 0 <= k < |hist| ==> WellFormed(hist[k]))
    && (forall k :: 0 <= k < |hist| ==> Compatible(hist[k], hist[0].typeID, hist[0].dims))
  }

  lemma ViewIsWellFormed(hist: seq<SlotArray>)
    requires ValidHistory(hist) && hist != []
    ensures WellFormed(View(hist))
    ensures |Image(View(hist))| == |Image(hist[|hist| - 1])|
    ensures ShmBytes(View(hist)) == ShmBytes(hist[0])
  {
    assert WellFormed(hist[0]);
    assert WellFormed(hist[|hist| - 1]);
    assert Compatible(hist[|hist| - 1], hist[0].typeID, hist[0].dims);
  }

  /** Every cell the writer stores lies inside the bytes it asked for. */
  lemma CellsFit(a: SlotArray, k: nat)
    requires k < |Image(a)|
    ensures CellEnd(|a.dims|, k) <= ShmBytes(a)
  {
  }

  lemma {:induction false} ProductIsNat(dims: seq<int>)
    requires ValidDims(dims)
    ensures Product(dims) >= 0
  {
    if dims != [] {
      ProductIsNat(dims[..|dims| - 1]);
    }
  }

  // ---------------------------------------------------------------- reading

  /** A reader that copied the cells `out` knows from them where the array ends. */
  predicate Complete(out: seq<int>) {
    && |out| >= 2
    && 0 <= out[1]
    && |out| >= 2 + out[1]
    && |out| == 2 + out[1] + Product(out[2..2 + out[1]]) * TypeSize(out[0])
  }

  function Parse(out: seq<int>): SlotArray
    requires Complete(out)
  {
    SlotArray(out[0], out[2..2 + out[1]], out[2 + out[1]..])
  }

  /** Reading the image of `a` from the front stops exactly at its end, and yields `a`. */
  lemma PrefixParses(a: SlotArray, out: seq<int>)
    requires WellFormed(a)
    requires out <= Image(a)
    ensures Complete(out) <==> out == Image(a)
    ensures Complete(out) ==> Parse(out) == a
  {
    var image := Image(a);
    if |out| >= 2 {
      assert out[0] == image[0] && out[1] == image[1];
      if |out| >= 2 + |a.dims| {
        assert out[2..2 + |a.dims|] == image[2..2 + |a.dims|] == a.dims;
        assert image[2 + |a.dims|..] == a.data;
      }
    }
  }
}
