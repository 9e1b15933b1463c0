/** Matrices of doubles kept by columns, their product by blocks of rows, and how a block
    travels through a slot. A double is its 64-bit pattern; how two vectors are multiplied is a
    parameter, so nothing here depends on rounding. */
module Matrix {
  import opened Arrays

  const DOUBLE_TYPE := 5
  const DOUBLE_BYTES := 8
  const DOUBLE_SPAN := 0x1_0000_0000_0000_0000

  /** Columns, each of the same length. */
  type Columns = seq<seq<int>>

  predicate IsMatrix(m: Columns, rows: nat) {
    forall j :: 0 <= j < |m| ==> |m[j]| == rows
  }

  function Row(a: Columns, i: nat): seq<int>
    requires forall j :: 0 <= j < |a| ==> i < |a[j]|
  {
    seq(|a|, k requires 0 <= k < |a| => a[k][i])
  }

  /** The product of `a` (with `rows` rows) and `b`. */
  function MatrixProduct(dot: (seq<int>, seq<int>) -> int, a: Columns, b: Columns, rows: nat): Columns
    requires IsMatrix(a, rows)
  {
    seq(|b|, j requires 0 <= j < |b| => ProductColumn(dot, a, b[j], rows))
  }

  function ProductColumn(dot: (seq<int>, seq<int>) -> int, a: Columns, v: seq<int>, rows: nat): (c: seq<int>)
    requires IsMatrix(a, rows)
    ensures |c| == rows
  {
    seq(rows, i requires 0 <= i < rows => dot(Row(a, i), v) % DOUBLE_SPAN)
  }

  /** Row `i` of `a`, read off its columns. */
  predicate IsRow(a: Columns, i: nat, r: seq<int>) {
    |r| == |a| && forall k :: 0 <= k < |a| ==> i < |a[k]| && r[k] == a[k][i]
  }

  /** Entry (i, j) of the product is row i of `a`, from its first column to its last, multiplied
      with column j of `b`. */
  lemma ProductEntry(dot: (seq<int>, seq<int>) -> int, a: Columns, b: Columns, rows: nat, i: nat, j: nat, r: seq<int>)
    requires IsMatrix(a, rows) && i < rows && j < |b| && IsRow(a, i, r)
    ensures |MatrixProduct(dot, a, b, rows)| == |b| && |MatrixProduct(dot, a, b, rows)[j]| == rows
    ensures MatrixProduct(dot, a, b, rows)[j][i] == dot(r, b[j]) % DOUBLE_SPAN
  {
    assert r == Row(a, i);
  }

  /** The inner product of two vectors, on integers. */
  function InnerProduct(x: seq<int>, y: seq<int>): int {
    if |x| == |y| then Sum(seq(|x|, k requires 0 <= k < |x| == |y| => x[k] * y[k])) else 0
  }

  /** With the inner product for `dot`, entry (i, j) is the sum of a[k][i] * b[j][k] over k. */
  lemma InnerEntry(a: Columns, b: Columns, rows: nat, i: nat, j: nat, terms: seq<int>)
    requires IsMatrix(a, rows) && IsMatrix(b, |a|) && i < rows && j < |b|
    requires |terms| == |a| && forall k :: 0 <= k < |a| ==> terms[k] == a[k][i] * b[j][k]
    ensures |MatrixProduct(InnerProduct, a, b, rows)| == |b| && |MatrixProduct(InnerProduct, a, b, rows)[j]| == rows
    ensures MatrixProduct(InnerProduct, a, b, rows)[j][i] == Sum(terms) % DOUBLE_SPAN
  {
    var r := Row(a, i);
    assert terms == seq(|r|, k requires 0 <= k < |r| == |b[j]| => r[k] * b[j][k]);
    ProductEntry(InnerProduct, a, b, rows, i, j, r);
  }

  /** Columns with a single 1, on the diagonal. */
  predicate IsIdentity(e: Columns, n: nat) {
    |e| == n && IsMatrix(e, n) && forall j, k :: 0 <= j < n && 0 <= k < n ==> e[j][k] == if j == k then 1 else 0
  }

  lemma {:induction false} SumOfOne(xs: seq<int>, j: nat)
    requires j < |xs| && forall k :: 0 <= k < |xs| && k != j ==> xs[k] == 0
    ensures Sum(xs) == xs[j]
  {
    var front := xs[..|xs| - 1];
    if j < |front| {
      SumOfOne(front, j);
    } else {
      SumOfNone(front);
    }
  }

  lemma {:induction false} SumOfNone(xs: seq<int>)
    requires forall k :: 0 <= k < |xs| ==> xs[k] == 0
    ensures Sum(xs) == 0
  {
    if xs != [] { SumOfNone(xs[..|xs| - 1]); }
  }

  /** A matrix times the identity is itself. */
  lemma TimesIdentity(a: Columns, e: Columns, rows: nat)
    requires IsMatrix(a, rows) && IsDoubles(a) && IsIdentity(e, |a|)
    ensures MatrixProduct(InnerProduct, a, e, rows) == a
  {
    var m := MatrixProduct(InnerProduct, a, e, rows);
    forall i, j | 0 <= i < rows && 0 <= j < |a| ensures m[j][i] == a[j][i] {
      var terms := seq(|a|, k requires 0 <= k < |a| => a[k][i] * e[j][k]);
      InnerEntry(a, e, rows, i, j, terms);
      SumOfOne(terms, j);
    }
    assert forall j :: 0 <= j < |a| ==> m[j] == a[j];
  }

  /** Rows st+1 .. st+sz. */
  function Rows(m: Columns, st: nat, sz: nat): Columns
    requires forall j :: 0 <= j < |m| ==> st + sz <= |m[j]|
  {
    seq(|m|, j requires 0 <= j < |m| => m[j][st..st + sz])
  }

  /** A block of rows of `a` times `b` is that block of rows of the product. */
  lemma ProductOfRows(dot: (seq<int>, seq<int>) -> int, a: Columns, b: Columns, rows: nat, st: nat, sz: nat)
    requires IsMatrix(a, rows) && st + sz <= rows
    ensures IsMatrix(Rows(a, st, sz), sz) && IsMatrix(MatrixProduct(dot, a, b, rows), rows)
    ensures MatrixProduct(dot, Rows(a, st, sz), b, sz) == Rows(MatrixProduct(dot, a, b, rows), st, sz)
  {
    var part, full := MatrixProduct(dot, Rows(a, st, sz), b, sz), MatrixProduct(dot, a, b, rows);
    forall j | 0 <= j < |b| ensures part[j] == full[j][st..st + sz] {
      forall i | 0 <= i < sz ensures part[j][i] == full[j][st + i] {
        assert Row(Rows(a, st, sz), i) == Row(a, st + i);
      }
    }
  }

  // ------------------------------------------------------------ splitting the rows

  /** Consecutive blocks that cover rows 0 .. rows-1, none empty. */
  predicate Tiles(sz: seq<int>, st: seq<int>, rows: nat) {
    && |sz| == |st| > 0
    && st[0] == 0
    && (forall i :: 0 <= i < |sz| ==> sz[i] >= 1)
    && (forall i :: 0 <= i < |sz| - 1 ==> st[i + 1] == st[i] + sz[i])
    && st[|sz| - 1] + sz[|sz| - 1] == rows
  }

  lemma {:induction false} BlockBelow(sz: seq<int>, st: seq<int>, rows: nat, r: nat, k: nat) returns (i: nat)
    requires Tiles(sz, st, rows) && r < rows && k < |sz| && r < st[k] + sz[k]
    ensures i <= k && st[i] <= r < st[i] + sz[i]
    decreases k
  {
    if st[k] <= r {
      i := k;
    } else {
      i := BlockBelow(sz, st, rows, r, k - 1);
    }
  }

  /** Every row belongs to exactly one block. */
  lemma {:induction false} TilesCover(sz: seq<int>, st: seq<int>, rows: nat, r: nat) returns (i: nat)
    requires Tiles(sz, st, rows) && r < rows
    ensures i < |sz| && st[i] <= r < st[i] + sz[i]
    ensures forall j :: 0 <= j < |sz| && st[j] <= r < st[j] + sz[j] ==> j == i
  {
    i := BlockBelow(sz, st, rows, r, |sz| - 1);
    forall j | 0 <= j < |sz| && st[j] <= r < st[j] + sz[j] ensures j == i {
      TilesOrdered(sz, st, rows, if i < j then i else j, if i < j then j else i);
    }
  }

  lemma {:induction false} TilesOrdered(sz: seq<int>, st: seq<int>, rows: nat, i: nat, k: nat)
    requires Tiles(sz, st, rows) && i <= k < |sz|
    ensures 0 <= st[i] <= st[k] && (i < k ==> st[i] + sz[i] <= st[k]) && st[k] + sz[k] <= rows
    decreases |sz| - i, k
  {
    if i < k {
      TilesOrdered(sz, st, rows, i, k - 1);
      assert st[k - 1 + 1] == st[k - 1] + sz[k - 1];
    } else if i > 0 {
      assert st[i - 1 + 1] == st[i - 1] + sz[i - 1];
      TilesStart(sz, st, rows, i);
    }
    TilesEnd(sz, st, rows, k);
  }

  lemma {:induction false} TilesStart(sz: seq<int>, st: seq<int>, rows: nat, i: nat)
    requires Tiles(sz, st, rows) && i < |sz|
    ensures st[i] >= 0
  {
    if i > 0 {
      TilesStart(sz, st, rows, i - 1);
      assert st[i - 1 + 1] == st[i - 1] + sz[i - 1];
    }
  }

  lemma {:induction false} TilesEnd(sz: seq<int>, st: seq<int>, rows: nat, k: nat)
    requires Tiles(sz, st, rows) && k < |sz|
    ensures st[k] + sz[k] <= rows
    decreases |sz| - k
  {
    if k < |sz| - 1 {
      TilesEnd(sz, st, rows, k + 1);
      assert st[k + 1] == st[k] + sz[k];
    }
  }

  /** The sizes of bigmatprod's blocks: np equal ones, the last taking what is left over. */
  function ChunkSizes(rows: nat, np: nat): (sz: seq<int>)
    requires 1 <= np <= rows
    ensures |sz| == np
  {
    var q := rows / np;
    seq(np, i => if i < np - 1 then q else q + (rows - np * q))
  }

  /** Where they start: the running sums of their sizes. */
  function ChunkStarts(rows: nat, np: nat): (st: seq<int>)
    requires 1 <= np <= rows
    ensures |st| == np && Tiles(ChunkSizes(rows, np), st, rows)
  {
    var sz := ChunkSizes(rows, np);
    var st := seq(np, i requires 0 <= i < np => Sum(sz[..i]));
    QuotientFits(rows, np);
    SumsTile(sz, st, rows, np, rows / np);
    st
  }

  /** The split of bigmatprod, which tiles the rows. */
  method SplitRows(rows: nat, np: nat) returns (chunk_sz: array<int>, chunk_start: array<int>)
    requires 1 <= np <= rows
    ensures chunk_sz[..] == ChunkSizes(rows, np) && chunk_start[..] == ChunkStarts(rows, np)
    ensures chunk_sz.Length == np && forall i :: 0 <= i < np - 1 ==> chunk_sz[i] == rows / np
    ensures Tiles(chunk_sz[..], chunk_start[..], rows)
  {
    hide Tiles;
    var q := rows / np;
    chunk_sz := new int[np](_ => q);
    var endchunk := rows - np * chunk_sz[0];
    chunk_sz[np - 1] := chunk_sz[np - 1] + endchunk;
    assert chunk_sz[..] == ChunkSizes(rows, np);
    chunk_start := Starts(chunk_sz);
    assert chunk_start[..] == ChunkStarts(rows, np);
  }

  /** Where each block starts: the sizes of those before it, added up afresh for each. */
  method Starts(chunk_sz: array<int>) returns (chunk_start: array<int>)
    requires chunk_sz.Length >= 1
    ensures fresh(chunk_start) && chunk_start.Length == chunk_sz.Length
    ensures forall k :: 0 <= k < chunk_start.Length ==> chunk_start[k] == Sum(chunk_sz[..k])
  {
    var np := chunk_sz.Length;
    chunk_start := new int[np](_ => 0);
    var i := 1;
    while i < np
      invariant 1 <= i <= np
      invariant forall k :: 0 <= k < i ==> chunk_start[k] == Sum(chunk_sz[..k])
    {
      chunk_start[i] := SumTo(chunk_sz, i);
      i := i + 1;
    }
  }

  /** sum(a(:upto)). */
  method SumTo(a: array<int>, upto: nat) returns (total: int)
    requires upto <= a.Length
    ensures total == Sum(a[..upto])
  {
    total := 0;
    var k := 0;
    while k < upto
      invariant 0 <= k <= upto && total == Sum(a[..k])
    {
      assert a[..k + 1][..k] == a[..k];
      total := total + a[k];
      k := k + 1;
    }
  }

  lemma QuotientFits(rows: nat, np: nat)
    requires 1 <= np <= rows
    ensures rows / np >= 1 && np * (rows / np) <= rows
  {
    assert rows == np * (rows / np) + rows % np;
  }

  lemma SumsTile(sz: seq<int>, st: seq<int>, rows: nat, np: nat, q: nat)
    requires 1 <= np <= rows && |sz| == |st| == np
    requires q >= 1 && np * q <= rows
    requires forall i :: 0 <= i < np - 1 ==> sz[i] == q
    requires sz[np - 1] == q + (rows - np * q)
    requires forall k :: 0 <= k < np ==> st[k] == Sum(sz[..k])
    ensures Tiles(sz, st, rows)
  {
    forall i | 0 <= i < np - 1 ensures st[i + 1] == st[i] + sz[i] {
      assert sz[..i + 1][..i] == sz[..i];
    }
    assert sz[..0] == [];
    EqualSums(sz, q, np - 1);
    Distribute(np, q);
  }

  lemma Distribute(n: int, q: int)
    ensures (n - 1) * q + q == n * q
  {
  }

  lemma {:induction false} EqualSums(sz: seq<int>, q: int, k: nat)
    requires k <= |sz| && forall i :: 0 <= i < k ==> sz[i] == q
    ensures Sum(sz[..k]) == k * q
  {
    if k > 0 {
      EqualSums(sz, q, k - 1);
      assert sz[..k][..k - 1] == sz[..k - 1];
      Distribute(k, q);
    }
  }

  // ------------------------------------------------------------ a block in a slot

  function LittleEndian(v: int, n: nat): (b: seq<int>)
    ensures |b| == n
    decreases n
  {
    if n == 0 then [] else [v % 256] + LittleEndian(v / 256, n - 1)
  }

  function Value(b: seq<int>): int {
    if b == [] then 0 else b[0] + 256 * Value(b[1..])
  }

  function Span(n: nat): nat {
    if n == 0 then 1 else 256 * Span(n - 1)
  }

  lemma {:induction false} ValueOfBytes(v: int, n: nat)
    requires 0 <= v < Span(n)
    ensures Value(LittleEndian(v, n)) == v
  {
    if n > 0 {
      ValueOfBytes(v / 256, n - 1);
      assert LittleEndian(v, n)[1..] == LittleEndian(v / 256, n - 1);
    }
  }

  /** The bytes of a row of doubles. */
  function DoubleBytes(ws: seq<int>): (b: seq<int>)
    ensures |b| == DOUBLE_BYTES * |ws|
  {
    if ws == [] then [] else LittleEndian(ws[0], DOUBLE_BYTES) + DoubleBytes(ws[1..])
  }

  function Doubles(b: seq<int>): seq<int> {
    if |b| < DOUBLE_BYTES then [] else [Value(b[..DOUBLE_BYTES])] + Doubles(b[DOUBLE_BYTES..])
  }

  lemma {:induction false} DoublesOfBytes(ws: seq<int>)
    requires forall i :: 0 <= i < |ws| ==> 0 <= ws[i] < DOUBLE_SPAN
    ensures Doubles(DoubleBytes(ws)) == ws
  {
    if ws != [] {
      DoublesOfBytes(ws[1..]);
      assert Span(8) == DOUBLE_SPAN by {
        assert Span(4) == 256 * Span(3) && Span(3) == 256 * Span(2) && Span(2) == 65536;
        assert Span(6) == 256 * Span(5) && Span(5) == 256 * Span(4);
        assert Span(8) == 256 * Span(7) && Span(7) == 256 * Span(6);
      }
      ValueOfBytes(ws[0], 8);
      var b := DoubleBytes(ws);
      assert b[..DOUBLE_BYTES] == LittleEndian(ws[0], DOUBLE_BYTES);
      assert b[DOUBLE_BYTES..] == DoubleBytes(ws[1..]);
      assert ws == [ws[0]] + ws[1..];
    }
  }

  function Flat(m: Columns): seq<int> {
    if m == [] then [] else m[0] + Flat(m[1..])
  }

  /** A row of doubles read as `cols` columns of `rows`. */
  function Cut(ws: seq<int>, rows: nat, cols: nat): Columns {
    if cols == 0 || |ws| < rows then [] else [ws[..rows]] + Cut(ws[rows..], rows, cols - 1)
  }

  lemma {:induction false} CutOfFlat(m: Columns, rows: nat)
    requires IsMatrix(m, rows)
    ensures |Flat(m)| == |m| * rows && Cut(Flat(m), rows, |m|) == m
  {
    if m != [] {
      CutOfFlat(m[1..], rows);
      assert Flat(m)[..rows] == m[0] && Flat(m)[rows..] == Flat(m[1..]);
      assert m == [m[0]] + m[1..];
      Distribute(|m|, rows);
    }
  }

  /** A matrix as shm_write stores it: doubles, two dimensions, fastest first. */
  function Pack(m: Columns, rows: nat): SlotArray {
    SlotArray(DOUBLE_TYPE, [rows, |m|], DoubleBytes(Flat(m)))
  }

  /** The matrix shm_read makes of an array of doubles with two dimensions. */
  function Unpack(a: SlotArray): Columns {
    if |a.dims| == 2 && a.dims[0] >= 0 && a.dims[1] >= 0 then Cut(Doubles(a.data), a.dims[0], a.dims[1]) else []
  }

  predicate IsDoubles(m: Columns) {
    forall j :: 0 <= j < |m| ==> forall i :: 0 <= i < |m[j]| ==> 0 <= m[j][i] < DOUBLE_SPAN
  }

  lemma {:induction false} FlatDoubles(m: Columns)
    requires IsDoubles(m)
    ensures forall i :: 0 <= i < |Flat(m)| ==> 0 <= Flat(m)[i] < DOUBLE_SPAN
  {
    if m != [] {
      FlatDoubles(m[1..]);
    }
  }

  /** A matrix packed for a slot is a well-formed array and unpacks to itself. */
  lemma PackRoundTrip(m: Columns, rows: nat)
    requires IsMatrix(m, rows) && IsDoubles(m)
    ensures WellFormed(Pack(m, rows)) && Unpack(Pack(m, rows)) == m
  {
    hide Flat, DoubleBytes, Doubles, Cut, Product, IsDoubles;
    CutOfFlat(m, rows);
    FlatDoubles(m);
    DoublesOfBytes(Flat(m));
    PairProduct(rows, |m|);
  }

  /** Byte `t` of entry (i, j) of a packed matrix stands in its column's place, counted from the
      first row of the first column, least significant byte first. */
  lemma {:induction false} PackLayout(m: Columns, rows: nat, i: nat, j: nat, t: nat)
    requires IsMatrix(m, rows) && i < rows && j < |m| && t < DOUBLE_BYTES
    ensures Pack(m, rows).dims == [rows, |m|] && Pack(m, rows).typeID == DOUBLE_TYPE
    ensures var at := DOUBLE_BYTES * (j * rows + i) + t;
            0 <= at < |Pack(m, rows).data| && Pack(m, rows).data[at] == m[j][i] / Span(t) % 256
  {
    FlatAt(m, rows, i, j);
    DoubleAt(Flat(m), j * rows + i, t);
    ByteAt(m[j][i], DOUBLE_BYTES, t);
  }

  lemma {:induction false} FlatAt(m: Columns, rows: nat, i: nat, j: nat)
    requires IsMatrix(m, rows) && i < rows && j < |m|
    ensures 0 <= j * rows + i < |Flat(m)| && Flat(m)[j * rows + i] == m[j][i]
  {
    if j > 0 {
      FlatAt(m[1..], rows, i, j - 1);
      Distribute(j, rows);
    }
  }

  lemma {:induction false} DoubleAt(ws: seq<int>, k: nat, t: nat)
    requires k < |ws| && t < DOUBLE_BYTES
    ensures DoubleBytes(ws)[DOUBLE_BYTES * k + t] == LittleEndian(ws[k], DOUBLE_BYTES)[t]
  {
    if k > 0 { DoubleAt(ws[1..], k - 1, t); }
  }

  lemma {:induction false} SpanPositive(n: nat)
    ensures Span(n) > 0
  {
    if n > 0 { SpanPositive(n - 1); }
  }

  lemma {:induction false} ByteAt(v: int, n: nat, t: nat)
    requires t < n
    ensures Span(t) > 0 && LittleEndian(v, n)[t] == v / Span(t) % 256
    decreases n
  {
    SpanPositive(t);
    if t > 0 {
      ByteAt(v / 256, n - 1, t - 1);
      DivideTwice(v, Span(t - 1));
    }
  }

  lemma DivideTwice(v: int, d: nat)
    requires d > 0
    ensures v / 256 / d == v / (256 * d)
  {
    var q, r := v / 256, v % 256;
    assert v == 256 * (d * (q / d) + q % d) + r;
    assert v == (256 * d) * (q / d) + (256 * (q % d) + r) by { Regroup(q / d, d, q % d, r); }
    DivisionIs(v, 256 * d, q / d, 256 * (q % d) + r);
  }

  lemma Regroup(x: int, d: int, y: int, r: int)
    ensures 256 * (d * x + y) + r == (256 * d) * x + (256 * y + r)
  {
  }

  lemma DivisionIs(v: int, d: int, q: int, r: int)
    requires d > 0 && 0 <= r < d && v == d * q + r
    ensures v / d == q
  {
    var e := v / d - q;
    assert v == d * (v / d) + v % d;
    assert d * e == d * (v / d) - d * q by { Spread(d, v / d, q); }
    assert -d < d * e < d;
    NoMultipleWithin(d, e);
  }

  lemma Spread(d: int, x: int, y: int)
    ensures d * (x - y) == d * x - d * y
  {
  }

  lemma Grows(d: int, e: int)
    requires d > 0
    ensures e >= 1 ==> d * e >= d
    ensures d * -e == -(d * e)
  {
  }

  lemma NoMultipleWithin(d: int, e: int)
    requires d > 0 && -d < d * e < d
    ensures e == 0
  {
    Grows(d, e);
    Grows(d, -e);
  }

  lemma PairProduct(x: int, y: int)
    ensures Product([x, y]) == y * x
  {
    assert [x, y][..1] == [x] && [x][..0] == [];
    assert Product([x]) == Product([]) * x == x;
  }

  // ------------------------------------------------------------ gathering the blocks

  /** The array `res` agrees with `m` on the rows before `upto`. */
  ghost predicate Agrees(res: array2<int>, m: Columns, upto: int)
    reads res
  {
    && res.Length1 == |m|
    && (forall j :: 0 <= j < |m| ==> |m[j]| == res.Length0)
    && forall i, j :: 0 <= i < upto && i < res.Length0 && 0 <= j < |m| ==> res[i, j] == m[j][i]
  }

  /** res(st+1:st+sz,) = block. */
  method AssignRows(res: array2<int>, st: nat, sz: nat, block: Columns, ghost m: Columns)
    requires st + sz <= res.Length0 && Agrees(res, m, st)
    requires block == Rows(m, st, sz)
    modifies res
    ensures Agrees(res, m, st + sz)
  {
    var i := 0;
    while i < sz
      invariant 0 <= i <= sz && Agrees(res, m, st + i)
    {
      var j := 0;
      while j < |block|
        invariant 0 <= j <= |block| && Agrees(res, m, st + i)
        invariant forall k :: 0 <= k < j ==> res[st + i, k] == m[k][st + i]
      {
        res[st + i, j] := block[j][i];
        j := j + 1;
      }
      i := i + 1;
    }
  }

  /** The parent's part: its own block, then those received from the children, in order, make
      the whole product. */
  method Gather(rows: nat, cols: nat, sz: seq<int>, st: seq<int>, ours: Columns, received: seq<SlotArray>,
                ghost m: Columns)
      returns (res: array2<int>)
    requires Tiles(sz, st, rows) && IsMatrix(m, rows) && |m| == cols && IsDoubles(m)
    requires |received| == |sz| - 1
    requires ours == Share(m, sz, st, 0, rows)
    requires forall i :: 1 <= i < |sz| ==> received[i - 1] == Pack(Share(m, sz, st, i, rows), sz[i])
    ensures Agrees(res, m, rows) && res.Length0 == rows
  {
    res := new int[rows, cols];
    TilesOrdered(sz, st, rows, 0, 0);
    AssignRows(res, 0, sz[0], ours, m);
    var i := 1;
    while i < |sz|
      invariant 1 <= i <= |sz|
      invariant Agrees(res, m, st[i - 1] + sz[i - 1])
    {
      TilesOrdered(sz, st, rows, 0, i);
      assert st[i - 1 + 1] == st[i - 1] + sz[i - 1];
      var block := Share(m, sz, st, i, rows);
      PackRoundTrip(block, sz[i]);
      var xxx := Unpack(received[i - 1]);
      AssignRows(res, st[i], sz[i], xxx, m);
      i := i + 1;
    }
  }

  /** Share `i` of a matrix split by `sz` and `st`. */
  function Share(m: Columns, sz: seq<int>, st: seq<int>, i: nat, rows: nat): (b: Columns)
    requires Tiles(sz, st, rows) && IsMatrix(m, rows) && i < |sz|
    ensures IsMatrix(b, sz[i]) && |b| == |m|
    ensures IsDoubles(m) ==> IsDoubles(b)
  {
    assert 0 <= st[i] && st[i] + sz[i] <= rows by { TilesOrdered(sz, st, rows, i, i); }
    Rows(m, st[i], sz[i])
  }
}
