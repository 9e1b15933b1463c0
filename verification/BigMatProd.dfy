/** What bigmatprod promises: the gathered result is the whole product, for every interleaving
    of the processes, and every run gets there. */
module BigMatProd {
  import opened Arrays
  import opened Table
  import opened Pool
  import opened PoolInvariant
  import opened PoolProof
  import opened PoolTheorems
  import opened ForkJoin
  import opened ForkJoinProof
  import opened ForkJoinRuns
  import opened Matrix
  import PoolProgress
  import PoolSafety

  // ------------------------------------------------------------ safety

  /** The barrier: once the parent has its units every child's write has been accepted and every
      child is done, and each slot is bound to what its child computed. */
  lemma {:induction false} ParentWaitsForAll(job: Job, tr: seq<World>, moves: seq<Move>, k: nat, i: nat)
    requires ValidJob(job) && WorldRun(job, tr, moves) && k < |tr| && 1 <= i < |job|
    ensures |tr[k].clients| == |job|
    ensures !tr[k].clients[0].ToTake? ==> tr[k].clients[i].Quit? && Bound(tr[k].pool, Id(i)) == Some(job[i])
  {
    hide Inv, Bound, Id, WorldInv;
    WorldRunKeeps(job, tr, moves, k);
    ClientAt(job, tr[k], i);
    if !tr[k].clients[0].ToTake? { AllBound(job, tr[k], i); }
  }

  /** No call fails: a child's write ends in success, a read in the block asked for, and the
      parent never gives up. */
  lemma {:induction false} NothingFails(job: Job, tr: seq<World>, moves: seq<Move>, k: nat, p: nat)
    requires ValidJob(job) && WorldRun(job, tr, moves) && k < |tr| && p < |job|
    ensures |tr[k].clients| == |tr[k].pool.procs| == |job| && !tr[k].clients[p].Aborted?
    ensures tr[k].pool.procs[p].Done? ==>
      && (p >= 1 ==> tr[k].pool.procs[p].res == Success)
      && (p == 0 ==> tr[k].clients[0].InRead? && 1 <= tr[k].clients[0].next < |job|
                     && tr[k].pool.procs[p].res == Got(job[tr[k].clients[0].next]))
  {
    hide Inv, Bound, Id, WorldInv;
    WorldRunKeeps(job, tr, moves, k);
    ClientAt(job, tr[k], p);
  }

  /** When the parent has gathered everything, it has what the children computed, in order. */
  lemma {:induction false} GatheredAll(job: Job, tr: seq<World>, moves: seq<Move>, k: nat)
    requires ValidJob(job) && WorldRun(job, tr, moves) && k < |tr|
    ensures |tr[k].clients| == |job| && (tr[k].clients[0].Gathered? ==> tr[k].got == job[1..])
  {
    hide Inv, Bound, Id, WorldInv;
    WorldRunKeeps(job, tr, moves, k);
    ClientAt(job, tr[k], 0);
  }

  // ------------------------------------------------------------ progress

  lemma {:induction false} UpperBound(keys: set<int>) returns (m: int)
    ensures m >= 0 && forall x :: x in keys ==> x <= m
  {
    m := 0;
    if y :| y in keys {
      var rest := UpperBound(keys - {y});
      m := if y > rest then y else rest;
      assert keys == (keys - {y}) + {y};
    }
  }

  /** A process inside a call that waits for no lock can step. */
  lemma TableMove(st: State, p: nat, op: Op)
    requires Shape(st) && p < |st.procs| && OnTrack(st.procs[p], op) && st.semsAlive
    requires HoldsMaster(st.procs[p]) && !st.procs[p].MakeSegment? && !st.procs[p].LockSlot?
    ensures Step(st, p, Go).Some?
  {
    hide Shape, Lookup, FreeIndex;
  }

  lemma SlotMove(st: State, p: nat, op: Op)
    requires Shape(st) && p < |st.procs| && OnTrack(st.procs[p], op)
    requires InSlot(st.procs[p]) || st.procs[p].Done?
    ensures Step(st, p, Go).Some?
  {
    hide Shape, Complete, Parse, HeaderDims, Compatible;
  }

  lemma LockMove(st: State, p: nat, op: Op)
    requires Inv(st) && Shape(st) && p < |st.procs| && OnTrack(st.procs[p], op) && st.semsAlive
    requires st.procs[p].LockMaster? || st.procs[p].LockSlot?
    ensures var i := if st.procs[p].LockMaster? then 0 else st.procs[p].slot + 1;
            i <= |st.table| && Sized(st) && (st.owner[i] == NOBODY ==> Step(st, p, Go).Some?)
  {
    hide Inv;
    ProcAt(st, p);
    FreeAt(st, if st.procs[p].LockMaster? then 0 else st.procs[p].slot + 1);
  }

  lemma MakeMove(st: State, p: nat, op: Op) returns (c: Choice)
    requires Inv(st) && Shape(st) && p < |st.procs| && OnTrack(st.procs[p], op) && st.procs[p].MakeSegment?
    ensures Step(st, p, c).Some? && !c.Refuse?
  {
    hide Inv;
    var x := UpperBound(st.segs.Keys);
    c := NewSegment(x + 1);
    PoolSafety.MakerKeyIsFree(st, p);
  }

  lemma UnblockedMove(st: State, p: nat, op: Op) returns (c: Choice)
    requires Inv(st) && Shape(st) && p < |st.procs| && OnTrack(st.procs[p], op) && st.semsAlive
    requires !st.procs[p].LockMaster? && !st.procs[p].LockSlot?
    ensures Step(st, p, c).Some? && !c.Refuse?
  {
    hide Inv, Shape, Step;
    c := Go;
    if st.procs[p].MakeSegment? {
      c := MakeMove(st, p, op);
    } else if HoldsMaster(st.procs[p]) {
      TableMove(st, p, op);
    } else {
      SlotMove(st, p, op);
    }
  }

  ghost predicate InSomeCall(job: Job, w: World, p: int) {
    0 <= p < |job| && p < |w.clients| && CallOf(job, w.clients[p], p).Some?
  }

  /** Whoever holds a lock is inside a call. */
  lemma {:induction false} OwnerInCall(job: Job, w: World, i: nat)
    requires WorldInv(job, w) && i < |job|
    ensures Sized(w.pool) && i <= |w.pool.table|
    ensures w.pool.owner[i] != NOBODY ==> InSomeCall(job, w, w.pool.owner[i]) && Holds(w.pool.procs[w.pool.owner[i]], i)
  {
    hide Inv, Shape, Bound, Id;
    ClientAt(job, w, i);
    PoolProgress.OwnerAt(w.pool, i);
    if w.pool.owner[i] != NOBODY { ClientAt(job, w, w.pool.owner[i]); }
  }

  lemma {:induction false} CallMove(job: Job, w: World, p: nat) returns (q: nat, c: Choice)
    requires WorldInv(job, w) && InSomeCall(job, w, p) && |w.pool.procs| == |job|
    ensures q < |job| && Sound(job, w) && InSomeCall(job, w, q) && Step(w.pool, q, c).Some? && !c.Refuse?
  {
    hide Inv, Bound, Id, Step, WorldInv, Shape;
    q, c := p, Go;
    ClientAt(job, w, q);
    var op := CallOf(job, w.clients[q], q).value;
    if w.pool.procs[q].LockMaster? {
      LockMove(w.pool, q, op);
      OwnerInCall(job, w, 0);
      if w.pool.owner[0] == NOBODY { return; }
      q := w.pool.owner[0];
      ClientAt(job, w, q);
      op := CallOf(job, w.clients[q], q).value;
    }
    if w.pool.procs[q].LockSlot? {
      LockMove(w.pool, q, op);
      var i := w.pool.procs[q].slot + 1;
      OwnerInCall(job, w, i);
      if w.pool.owner[i] == NOBODY { return; }
      q := w.pool.owner[i];
      ClientAt(job, w, q);
      op := CallOf(job, w.clients[q], q).value;
    }
    c := UnblockedMove(w.pool, q, op);
  }

  lemma {:induction false} StartMove(job: Job, w: World, p: nat)
    requires WorldInv(job, w) && Sound(job, w) && p < |job|
    requires w.clients[p].ToWrite? || (w.clients[p].ToRead? && w.clients[p].next < |job|)
    ensures WorldStep(job, w, p, Go).Some?
  {
    hide Inv, Bound, Id, Shape, Step;
    ClientAt(job, w, p);
    var op := if w.clients[p].ToWrite? then Write(Id(p), job[p], false) else Read(Id(w.clients[p].next), NoWait);
    IdsAreValid(p);
    if w.clients[p].ToRead? { IdsAreValid(w.clients[p].next); }
    BeginStep(w.pool, p, op);
  }

  /** A step in a call is a step of the world. */
  lemma {:induction false} CallWorldStep(job: Job, w: World, q: nat, c: Choice)
    requires WorldInv(job, w) && Sound(job, w) && q < |job| && InSomeCall(job, w, q)
    requires Step(w.pool, q, c).Some? && !c.Refuse?
    ensures WorldStep(job, w, q, c).Some?
  {
    hide Inv, Bound, Id, Shape, WorldInv, Step;
    ClientAt(job, w, q);
    if w.pool.procs[q].Done? {
      SlotMove(w.pool, q, CallOf(job, w.clients[q], q).value);
    }
  }

  lemma {:induction false} ClientMove(job: Job, w: World, p0: nat) returns (p: nat, c: Choice)
    requires WorldInv(job, w) && Sound(job, w) && p0 < |job|
    requires !w.clients[p0].ToTake? && !w.clients[p0].Quit? && !w.clients[p0].Gathered?
    ensures p < |job| && WorldStep(job, w, p, c).Some?
  {
    hide Inv, Bound, Id, Shape, WorldInv, WorldStep, Step;
    p, c := p0, Go;
    ClientAt(job, w, p);
    if InSomeCall(job, w, p) {
      p, c := CallMove(job, w, p);
      CallWorldStep(job, w, p, c);
    } else if w.clients[p].ToGive? {
      GiveKeeps(job, w, p);
    } else if w.clients[p] == ToRead(|job|) {
      GatheredKeeps(job, w);
    } else {
      StartMove(job, w, p);
    }
  }

  lemma {:induction false} WorldCanStep(job: Job, w: World) returns (p: nat, c: Choice)
    requires WorldInv(job, w) && Sound(job, w) && w.clients != [] && !w.clients[0].Gathered?
    ensures p < |job| && WorldStep(job, w, p, c).Some?
  {
    hide Inv, Bound, Id, Shape, WorldInv, WorldStep, Step;
    p, c := 0, Go;
    ClientAt(job, w, 0);
    if !w.clients[0].ToTake? {
      p, c := ClientMove(job, w, 0);
    } else if q: nat :| 1 <= q < |job| && !w.clients[q].Quit? {
      ClientAt(job, w, q);
      p, c := ClientMove(job, w, q);
    } else {
      TakeKeeps(job, w);
    }
  }

  /** No deadlock: in every run, until the parent has gathered everything, some process can
      step. */
  lemma {:induction false} SomeoneCanStep(job: Job, tr: seq<World>, moves: seq<Move>, k: nat)
      returns (p: nat, c: Choice)
    requires ValidJob(job) && WorldRun(job, tr, moves) && k < |tr|
    requires tr[k].clients != [] && !tr[k].clients[0].Gathered?
    ensures Sound(job, tr[k]) && p < |job| && WorldStep(job, tr[k], p, c).Some?
  {
    hide WorldInv, WorldStep, Sound;
    WorldRunKeeps(job, tr, moves, k);
    p, c := WorldCanStep(job, tr[k]);
  }

  /** No run goes on for ever: a run has no more steps than there is work at its start. */
  lemma {:induction false} RunsAreBounded(job: Job, tr: seq<World>, moves: seq<Move>)
    requires ValidJob(job) && WorldRun(job, tr, moves)
    ensures |moves| <= Total(job, Start(job).clients, Start(job).pool.procs, |job|)
  {
    RunUsesWork(job, tr, moves, |moves|);
  }

  /** Every run can be continued, by whatever steps are possible, until the parent has gathered
      everything. */
  lemma {:induction false} EveryRunCanFinish(job: Job, tr: seq<World>, moves: seq<Move>)
      returns (tr': seq<World>, moves': seq<Move>)
    requires ValidJob(job) && WorldRun(job, tr, moves)
    ensures WorldRun(job, tr', moves') && tr <= tr' && moves <= moves'
    ensures tr'[|moves'|].clients != [] && tr'[|moves'|].clients[0].Gathered?
    decreases Total(job, Start(job).clients, Start(job).pool.procs, |job|) - |moves|
  {
    hide WorldInv, WorldStep, Start, Total, Shape;
    var w := tr[|moves|];
    HasClients(job, tr, moves);
    RunsAreBounded(job, tr, moves);
    if w.clients[0].Gathered? {
      tr', moves' := tr, moves;
    } else {
      var p, c := SomeoneCanStep(job, tr, moves, |moves|);
      var w' := WorldStep(job, w, p, c).value;
      RunExtends(job, tr, moves, Move(p, c), w');
      RunsAreBounded(job, tr + [w'], moves + [Move(p, c)]);
      tr', moves' := EveryRunCanFinish(job, tr + [w'], moves + [Move(p, c)]);
    }
  }

  lemma {:induction false} HasClients(job: Job, tr: seq<World>, moves: seq<Move>)
    requires ValidJob(job) && WorldRun(job, tr, moves)
    ensures tr[|moves|].clients != []
  {
    hide WorldInv;
    WorldRunKeeps(job, tr, moves, |moves|);
  }

  lemma {:induction false} RunExtends(job: Job, tr: seq<World>, moves: seq<Move>, m: Move, w': World)
    requires WorldRun(job, tr, moves) && WorldSteps(job, tr[|moves|], m, w')
    ensures WorldRun(job, tr + [w'], moves + [m])
  {
    hide WorldSteps;
    var tr', moves' := tr + [w'], moves + [m];
    forall k | 0 <= k < |moves'| ensures WorldStepAt(job, tr', moves', k) {
      if k < |moves| { assert WorldStepAt(job, tr, moves, k); }
    }
  }

  // ------------------------------------------------------------ the product

  /** What the processes compute: each its block of rows of `a`, times `b`. */
  function ProductJob(dot: (seq<int>, seq<int>) -> int, a: Columns, b: Columns, rows: nat,
                      sz: seq<int>, st: seq<int>): (job: Job)
    requires IsMatrix(a, rows) && Tiles(sz, st, rows)
    ensures |job| == |sz|
  {
    seq(|sz|, i requires 0 <= i < |sz| => Pack(MatrixProduct(dot, Share(a, sz, st, i, rows), b, sz[i]), sz[i]))
  }

  /** Each process's array is its block of the whole product. */
  lemma BlockOfProduct(dot: (seq<int>, seq<int>) -> int, a: Columns, b: Columns, rows: nat,
                       sz: seq<int>, st: seq<int>, i: nat)
    requires IsMatrix(a, rows) && Tiles(sz, st, rows) && i < |sz|
    ensures IsMatrix(MatrixProduct(dot, a, b, rows), rows) && IsDoubles(MatrixProduct(dot, a, b, rows))
    ensures MatrixProduct(dot, Share(a, sz, st, i, rows), b, sz[i]) ==
            Share(MatrixProduct(dot, a, b, rows), sz, st, i, rows)
  {
    TilesOrdered(sz, st, rows, i, i);
    ProductOfRows(dot, a, b, rows, st[i], sz[i]);
  }

  lemma ProductJobIsValid(dot: (seq<int>, seq<int>) -> int, a: Columns, b: Columns, rows: nat,
                          sz: seq<int>, st: seq<int>)
    requires IsMatrix(a, rows) && Tiles(sz, st, rows) && |sz| <= INT_MAX
    ensures ValidJob(ProductJob(dot, a, b, rows, sz, st))
  {
    var job := ProductJob(dot, a, b, rows, sz, st);
    forall i | 0 <= i < |job| ensures WellFormed(job[i]) && job[i].dims != [] {
      BlockOfProduct(dot, a, b, rows, sz, st, i);
      PackRoundTrip(Share(MatrixProduct(dot, a, b, rows), sz, st, i, rows), sz[i]);
    }
  }

  /** Fork/join preserves meaning: whatever the interleaving, when the parent has gathered all
      blocks the array it assembles is the product of the whole matrices. */
  method Assemble(dot: (seq<int>, seq<int>) -> int, a: Columns, b: Columns, rows: nat,
                  sz: seq<int>, st: seq<int>, w: World, ghost tr: seq<World>, ghost moves: seq<Move>)
      returns (res: array2<int>)
    requires IsMatrix(a, rows) && Tiles(sz, st, rows) && |sz| <= INT_MAX
    requires WorldRun(ProductJob(dot, a, b, rows, sz, st), tr, moves) && w == tr[|moves|]
    requires w.clients != [] && w.clients[0].Gathered?
    ensures res.Length0 == rows && Agrees(res, MatrixProduct(dot, a, b, rows), rows)
  {
    ghost var job := ProductJob(dot, a, b, rows, sz, st);
    ghost var m := MatrixProduct(dot, a, b, rows);
    ProductJobIsValid(dot, a, b, rows, sz, st);
    GatheredAll(job, tr, moves, |moves|);
    forall i | 0 <= i < |sz|
      ensures IsMatrix(m, rows) && IsDoubles(m)
      ensures MatrixProduct(dot, Share(a, sz, st, i, rows), b, sz[i]) == Share(m, sz, st, i, rows)
    {
      BlockOfProduct(dot, a, b, rows, sz, st, i);
    }
    var ours := MatrixProduct(dot, Share(a, sz, st, 0, rows), b, sz[0]);
    res := Gather(rows, |b|, sz, st, ours, w.got, m);
  }

  /** `res` is the product of `a` and `b`: entry (i, j) is row i of `a` multiplied with column j of
      `b`. */
  ghost predicate IsProduct(res: array2<int>, dot: (seq<int>, seq<int>) -> int, a: Columns, b: Columns, rows: nat)
    reads res
  {
    && res.Length0 == rows && res.Length1 == |b|
    && forall i, j, r :: 0 <= i < rows && 0 <= j < |b| && IsRow(a, i, r) ==> res[i, j] == dot(r, b[j]) % DOUBLE_SPAN
  }

  /** `res` is the product of `a` and `b` under the inner product: entry (i, j) is the sum of
      a[k][i] * b[j][k] over k. */
  ghost predicate IsInnerProduct(res: array2<int>, a: Columns, b: Columns, rows: nat)
    requires IsMatrix(a, rows) && IsMatrix(b, |a|)
    reads res
  {
    && res.Length0 == rows && res.Length1 == |b|
    && forall i, j :: 0 <= i < rows && 0 <= j < |b| ==>
         res[i, j] == Sum(seq(|a|, k requires 0 <= k < |a| => a[k][i] * b[j][k])) % DOUBLE_SPAN
  }

  lemma AgreesIsProduct(res: array2<int>, dot: (seq<int>, seq<int>) -> int, a: Columns, b: Columns, rows: nat)
    requires IsMatrix(a, rows) && res.Length0 == rows && Agrees(res, MatrixProduct(dot, a, b, rows), rows)
    ensures IsProduct(res, dot, a, b, rows)
  {
    forall i, j, r | 0 <= i < rows && 0 <= j < |b| && IsRow(a, i, r)
      ensures res[i, j] == dot(r, b[j]) % DOUBLE_SPAN
    {
      ProductEntry(dot, a, b, rows, i, j, r);
    }
  }

  lemma AgreesIsInnerProduct(res: array2<int>, a: Columns, b: Columns, rows: nat)
    requires IsMatrix(a, rows) && IsMatrix(b, |a|) && res.Length0 == rows
    requires Agrees(res, MatrixProduct(InnerProduct, a, b, rows), rows)
    ensures IsInnerProduct(res, a, b, rows)
  {
    forall i, j | 0 <= i < rows && 0 <= j < |b|
      ensures res[i, j] == Sum(seq(|a|, k requires 0 <= k < |a| => a[k][i] * b[j][k])) % DOUBLE_SPAN
    {
      InnerEntry(a, b, rows, i, j, seq(|a|, k requires 0 <= k < |a| => a[k][i] * b[j][k]));
    }
  }

  /** bigmatprod, end to end: with the rows split among np processes, the parent of any run that
      has come to its end returns the product of the whole matrices. */
  method Multiply(dot: (seq<int>, seq<int>) -> int, a: Columns, b: Columns, rows: nat, np: nat,
                  w: World, ghost tr: seq<World>, ghost moves: seq<Move>)
      returns (res: array2<int>)
    requires IsMatrix(a, rows) && IsMatrix(b, |a|) && 1 <= np <= rows && np <= INT_MAX
    requires WorldRun(ProductJob(dot, a, b, rows, ChunkSizes(rows, np), ChunkStarts(rows, np)), tr, moves)
    requires w == tr[|moves|] && w.clients != [] && w.clients[0].Gathered?
    ensures IsProduct(res, dot, a, b, rows)
    ensures dot == InnerProduct ==> IsInnerProduct(res, a, b, rows)
  {
    var chunk_sz, chunk_start := SplitRows(rows, np);
    res := Assemble(dot, a, b, rows, chunk_sz[..], chunk_start[..], w, tr, moves);
    AgreesIsProduct(res, dot, a, b, rows);
    if dot == InnerProduct { AgreesIsInnerProduct(res, a, b, rows); }
  }
}
