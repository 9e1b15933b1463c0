/** What a subscriber gets: something at least as new as the write whose publisher posted the
    unit that woke it. */
module PoolFreshness {
  import opened Arrays
  import opened Table
  import opened Pool
  import opened PoolInvariant
  import opened PoolProof
  import opened PoolTheorems
  import opened PoolFlow
  import opened PoolRuns
  import opened PoolCalls
  import opened PoolHandshake

  // ------------------------------------------------------------ the publisher

  /** The process has dropped the slot after writing version `ver` and is on its way to post. */
  predicate ToPost(pr: Proc, op: Op, snap: Snapshot, ver: nat) {
    (pr.CountWaiters? || pr.Post?) && pr.op == op && pr.snap == snap && pr.ver == ver
  }

  /** At step `d` process `p` drops the slot where it wrote version `ver`; up to state `i` it has
      not posted. */
  ghost predicate DropsBefore(tr: seq<State>, moves: seq<Move>, d: nat, i: nat, p: nat,
                              op: Op, snap: Snapshot, ver: nat) {
    && |tr| == |moves| + 1 && d < i < |tr|
    && moves[d].p == p && ProcOf(tr[d], p) == DropSlot(op, snap, Success, ver)
    && forall m :: d < m <= i ==> ToPost(ProcOf(tr[m], p), op, snap, ver)
  }

  lemma BeforePost(was: Proc, now: Proc, op: Op, snap: Snapshot, ver: nat)
    requires Follows(was, now) && ToPost(now, op, snap, ver)
    ensures was == DropSlot(op, snap, Success, ver) || ToPost(was, op, snap, ver)
  {
  }

  lemma {:induction false} PublisherDropped(tr: seq<State>, moves: seq<Move>, i: nat, p: nat,
                                            op: Op, snap: Snapshot, ver: nat)
      returns (d: nat)
    requires Run(tr, moves) && i < |tr| && ToPost(ProcOf(tr[i], p), op, snap, ver)
    ensures d < i && DropsBefore(tr, moves, d, i, p, op, snap, ver)
  {
    hide Inv, Step, Shape, Follows;
    NobodyCallsYet(tr, moves, p);
    if moves[i - 1].p != p {
      OthersStand(tr, moves, i - 1, p);
      d := PublisherDropped(tr, moves, i - 1, p, op, snap, ver);
    } else {
      StepOf(tr, moves, i - 1);
      ProcAt(tr[i - 1], p);
      StepFollows(tr[i - 1], p, moves[i - 1].c);
      BeforePost(tr[i - 1].procs[p], tr[i].procs[p], op, snap, ver);
      d := i - 1;
      if ToPost(tr[i - 1].procs[p], op, snap, ver) {
        d := PublisherDropped(tr, moves, i - 1, p, op, snap, ver);
      }
    }
  }

  // ------------------------------------------------------------ the slot in between

  /** At this step the entry of slot `s` is emptied. */
  predicate EmptiesAt(st: State, m: Move, s: nat) {
    ProcOf(st, m.p).FreeEntry? && ProcOf(st, m.p).slot == s
  }

  lemma EntryStays(st: State, p: nat, c: Choice, s: nat)
    requires CanStep(st, p, c) && s < |st.table| && st.table[s].shmid != 0 && !EmptiesAt(st, Move(p, c), s)
    ensures s < |Next(st, p, c).table| && Next(st, p, c).table[s] == st.table[s]
  {
    hide Inv, Step;
    ProcAt(st, p);
    if st.procs[p].Register? {
      RegisterEntry(st, p, c);
    } else if st.procs[p].FreeEntry? {
      ClearedEntry(st, p, c);
    } else if st.procs[p].Header? {
      HeaderNext(st, p, c);
    } else {
      QuietTables(st, p, c);
    }
  }

  lemma ClearedEntry(st: State, p: nat, c: Choice)
    requires Shape(st) && p < |st.procs| && Step(st, p, c).Some? && st.procs[p].FreeEntry? && Fits(st, st.procs[p])
    ensures Next(st, p, c).table == st.table[st.procs[p].slot := Entry(0, "")]
  {
    hide Shape;
  }

  lemma {:induction false} SlotKeepsSegment(tr: seq<State>, moves: seq<Move>, d: nat, e: nat, s: nat)
    requires Run(tr, moves) && d <= e < |tr| && s < |tr[d].table| && tr[d].table[s].shmid != 0
    requires forall m: nat :: d <= m < e ==> !EmptiesAt(tr[m], moves[m], s)
    ensures s < |tr[e].table| && tr[e].table[s] == tr[d].table[s]
  {
    hide Inv, Step, Shape, EmptiesAt;
    if d < e {
      SlotKeepsSegment(tr, moves, d, e - 1, s);
      StepOf(tr, moves, e - 1);
      EntryStays(tr[e - 1], moves[e - 1].p, moves[e - 1].c, s);
    }
  }

  /** Who drops a slot after a successful write wrote the segment its slot names. */
  lemma WriterIsBound(st: State, p: nat, op: Op, snap: Snapshot, ver: nat)
    requires Inv(st) && p < |st.procs| && st.procs[p] == DropSlot(op, snap, Success, ver) && op.Write?
    ensures 1 <= snap.lockId <= |st.table| && st.table[snap.lockId - 1].shmid == snap.shm != 0
    ensures snap.shm in st.segs && IsVersion(st.segs[snap.shm], ver, op.arr)
  {
    hide Inv;
    ProcAt(st, p);
    SnapshotIsBinding(st, p, op, snap);
    EmptyUnbound(st);
  }

  lemma ReaderIsBound(st: State, p: nat, op: Op, snap: Snapshot, out: seq<int>)
    requires Inv(st) && p < |st.procs| && st.procs[p] == Reading(op, snap, out)
    ensures op.Read? && 1 <= snap.lockId <= |st.table| && st.table[snap.lockId - 1].shmid == snap.shm
  {
    hide Inv;
    ProcAt(st, p);
    SnapshotIsBinding(st, p, op, snap);
  }

  // ------------------------------------------------------------ histories grow

  lemma {:induction false} HistoryGrowsOver(tr: seq<State>, moves: seq<Move>, i: nat, j: nat, x: int)
    requires Run(tr, moves) && i <= j < |tr|
    ensures AcceptedWrites(tr, moves, i, x) <= AcceptedWrites(tr, moves, j, x)
  {
    if i < j {
      HistoryGrowsOver(tr, moves, i, j - 1, x);
    }
  }

  // ------------------------------------------------------------ the subscriber

  /** The call that consumed a unit as `LockSnapshot(op, snap)` has come this far; `e` is the step
      at which it found what it returns. */
  ghost predicate Served(tr: seq<State>, moves: seq<Move>, j: nat, k: nat, q: nat, op: Op, snap: Snapshot, e: nat)
    requires |tr| == |moves| + 1 && k < |tr|
  {
    match ProcOf(tr[k], q)
    case LockSnapshot(o, sn) => o == op && sn == snap
    case Attach(o, sn, create) => o == op && sn == snap && !create
    case Reading(o, sn, _) => o == op && sn == snap
    case DropSlot(o, _, res, _) => o == op && (res.Got? ==> FoundAt(tr, moves, j, k, q, op, snap, e, res))
    case Done(o, res) => o == op && (res.Got? ==> FoundAt(tr, moves, j, k, q, op, snap, e, res))
    case _ => false
  }

  /** Between `j` and `k`, at step `e`, process `q` finished reading segment `snap.shm`. */
  ghost predicate FoundAt(tr: seq<State>, moves: seq<Move>, j: nat, k: nat, q: nat,
                          op: Op, snap: Snapshot, e: nat, res: Result)
    requires |tr| == |moves| + 1 && k < |tr|
  {
    && j <= e < k && moves[e].p == q
    && ProcOf(tr[e], q).Reading? && ProcOf(tr[e], q).op == op && ProcOf(tr[e], q).snap == snap
    && ProcOf(tr[e + 1], q).DropSlot? && ProcOf(tr[e + 1], q).res == res
  }

  lemma {:induction false} ServedSoFar(tr: seq<State>, moves: seq<Move>, j: nat, k: nat, q: nat, op: Op, snap: Snapshot)
      returns (e: nat)
    requires Run(tr, moves) && j <= k < |tr| && op.Read? && ProcOf(tr[j], q) == LockSnapshot(op, snap)
    requires forall m :: j < m <= k ==> !ProcOf(tr[m], q).Idle?
    ensures Served(tr, moves, j, k, q, op, snap, e)
  {
    hide Inv, Step, Shape, Follows, Served;
    if j == k {
      e := 0;
      ServedAtFirst(tr, moves, j, q, op, snap, e);
    } else {
      var e0 := ServedSoFar(tr, moves, j, k - 1, q, op, snap);
      e := e0;
      if moves[k - 1].p != q {
        OthersStand(tr, moves, k - 1, q);
      } else {
        StepOf(tr, moves, k - 1);
        ProcAt(tr[k - 1], q);
        StepFollows(tr[k - 1], q, moves[k - 1].c);
        if ProcOf(tr[k - 1], q).Reading? { e := k - 1; }
      }
      ServedOn(tr, moves, j, k, q, op, snap, e0, e);
    }
  }

  lemma {:induction false} ServedAtFirst(tr: seq<State>, moves: seq<Move>, j: nat, q: nat,
                                         op: Op, snap: Snapshot, e: nat)
    requires |tr| == |moves| + 1 && j < |tr| && ProcOf(tr[j], q) == LockSnapshot(op, snap)
    ensures Served(tr, moves, j, j, q, op, snap, e)
  {
  }

  lemma {:induction false} ServedOn(tr: seq<State>, moves: seq<Move>, j: nat, k: nat, q: nat,
                                    op: Op, snap: Snapshot, e: nat, e': nat)
    requires |tr| == |moves| + 1 && j < k < |tr| && op.Read? && !ProcOf(tr[k], q).Idle?
    requires Served(tr, moves, j, k - 1, q, op, snap, e)
    requires if moves[k - 1].p == q then Follows(ProcOf(tr[k - 1], q), ProcOf(tr[k], q))
             else ProcOf(tr[k], q) == ProcOf(tr[k - 1], q)
    requires e' == if moves[k - 1].p == q && ProcOf(tr[k - 1], q).Reading? then k - 1 else e
    ensures Served(tr, moves, j, k, q, op, snap, e')
  {
    hide FromTable, FromScan, FromWait;
  }

  // ------------------------------------------------------------ freshness

  /** The array `a` found at step `e` is the view of a row of accepted writes that includes
      version `ver`, the write of `op`. */
  ghost predicate Includes(tr: seq<State>, moves: seq<Move>, e: nat, x: int, op: Op, ver: nat, a: SlotArray)
    requires |tr| == |moves| + 1 && e < |tr|
  {
    var writes := AcceptedWrites(tr, moves, e, x);
    op.Write? && 0 < ver <= |writes| && writes[ver - 1] == op.arr && a == View(writes)
  }

  lemma {:induction false} SameSegment(tr: seq<State>, moves: seq<Move>, d: nat, i: nat, e: nat,
                                       w: Proc, p: nat, q: nat)
    requires Run(tr, moves) && d < i < e < |moves| && w.Post? && w.op.Write? && w.snap.lockId >= 1
    requires DropsBefore(tr, moves, d, i, p, w.op, w.snap, w.ver)
    requires ProcOf(tr[e], q).Reading? && ProcOf(tr[e], q).snap.lockId == w.snap.lockId
    requires forall m: nat :: d <= m < e ==> !EmptiesAt(tr[m], moves[m], w.snap.lockId - 1)
    ensures ProcOf(tr[e], q).snap.shm == w.snap.shm
    ensures w.snap.shm in tr[d].segs && IsVersion(tr[d].segs[w.snap.shm], w.ver, w.op.arr)
  {
    hide Inv, Run, EmptiesAt;
    RunKeeps(tr, moves, d);
    RunKeeps(tr, moves, e);
    WriterIsBound(tr[d], p, w.op, w.snap, w.ver);
    SlotKeepsSegment(tr, moves, d, e, w.snap.lockId - 1);
    var Reading(op, snap, out) := tr[e].procs[q];
    ReaderIsBound(tr[e], q, op, snap, out);
  }

  lemma {:induction false} FoundLater(tr: seq<State>, moves: seq<Move>, j: nat, k: nat, s: nat) returns (e: nat)
    requires Run(tr, moves) && j < k < |tr| && ConsumesAt(tr[j], moves[j], tr[j + 1], s)
    requires forall m :: j < m <= k ==> !ProcOf(tr[m], moves[j].p).Idle?
    requires ProcOf(tr[k], moves[j].p).Done? && ProcOf(tr[k], moves[j].p).res.Got?
    ensures j < e < k && moves[e].p == moves[j].p
    ensures ProcOf(tr[e], moves[e].p).Reading? && ProcOf(tr[e], moves[e].p).snap.lockId == s + 1
    ensures ProcOf(tr[e + 1], moves[e].p).DropSlot?
    ensures ProcOf(tr[e + 1], moves[e].p).res == ProcOf(tr[k], moves[j].p).res
  {
    hide Inv, Step, Shape;
    var q := moves[j].p;
    StepOf(tr, moves, j);
    ProcAt(tr[j], q);
    StepFollows(tr[j], q, moves[j].c);
    var LockSnapshot(op, snap) := tr[j + 1].procs[q];
    e := ServedSoFar(tr, moves, j + 1, k, q, op, snap);
  }

  lemma {:induction false} IncludesPublished(tr: seq<State>, moves: seq<Move>, d: nat, i: nat, e: nat, w: Proc, p: nat)
    requires Run(tr, moves) && d < i < e < |moves| && w.Post? && w.op.Write? && w.snap.lockId >= 1
    requires DropsBefore(tr, moves, d, i, p, w.op, w.snap, w.ver)
    requires ProcOf(tr[e], moves[e].p).Reading? && ProcOf(tr[e], moves[e].p).snap.lockId == w.snap.lockId
    requires ProcOf(tr[e + 1], moves[e].p).DropSlot? && ProcOf(tr[e + 1], moves[e].p).res.Got?
    requires forall m: nat :: d <= m < e ==> !EmptiesAt(tr[m], moves[m], w.snap.lockId - 1)
    ensures ProcOf(tr[e], moves[e].p).snap.shm == w.snap.shm
    ensures Includes(tr, moves, e, w.snap.shm, w.op, w.ver, ProcOf(tr[e + 1], moves[e].p).res.arr)
  {
    hide Inv, Step, Shape, EmptiesAt, DropsBefore;
    SameSegment(tr, moves, d, i, e, w, p, moves[e].p);
    HistoryIsAcceptedWrites(tr, moves, d, w.snap.shm);
    HistoryGrowsOver(tr, moves, d, e, w.snap.shm);
    FinishedReadIsAcceptedWrites(tr, moves, e);
  }

  /** Freshness: in every run, a subscriber that consumed a unit at step `j` and returns an array
      found it at a later step `e`; the unit was posted at step `i`, by a publisher that dropped
      the slot after its write at step `d`; and unless the slot was emptied between `d` and `e`,
      the publisher wrote the segment that was read, and the array includes its write. */
  lemma {:induction false} SubscribersReadFresh(tr: seq<State>, moves: seq<Move>, j: nat, k: nat, s: nat)
      returns (d: nat, i: nat, e: nat)
    requires Run(tr, moves) && j < k < |tr| && ConsumesAt(tr[j], moves[j], tr[j + 1], s)
    requires forall m :: j < m <= k ==> !ProcOf(tr[m], moves[j].p).Idle?
    requires ProcOf(tr[k], moves[j].p).Done? && ProcOf(tr[k], moves[j].p).res.Got?
    ensures d < i < j < e < k && moves[e].p == moves[j].p
    ensures PostsAt(tr[i], moves[i], tr[i + 1], s)
    ensures UnitsPosted(tr, moves, i, s) <= UnitsConsumed(tr, moves, j, s) < UnitsPosted(tr, moves, i + 1, s)
    ensures var w := ProcOf(tr[i], moves[i].p);
            var r := ProcOf(tr[e], moves[e].p);
            && w.Post? && DropsBefore(tr, moves, d, i, moves[i].p, w.op, w.snap, w.ver)
            && r.Reading? && r.snap.lockId == s + 1 && ProcOf(tr[e + 1], moves[e].p).DropSlot?
            && ProcOf(tr[e + 1], moves[e].p).res == ProcOf(tr[k], moves[j].p).res
            && ((forall m: nat :: d <= m < e ==> !EmptiesAt(tr[m], moves[m], s)) ==>
                  && r.snap.shm == w.snap.shm
                  && Includes(tr, moves, e, w.snap.shm, w.op, w.ver, ProcOf(tr[k], moves[j].p).res.arr))
  {
    hide Inv, Step, Shape, EmptiesAt, DropsBefore, Includes;
    i := UnitHasPublisher(tr, moves, j, s);
    var p := moves[i].p;
    var w := ProcOf(tr[i], p);
    StepOf(tr, moves, i);
    ProcAt(tr[i], p);
    d := PublisherDropped(tr, moves, i, p, w.op, w.snap, w.ver);
    e := FoundLater(tr, moves, j, k, s);
    if forall m: nat :: d <= m < e ==> !EmptiesAt(tr[m], moves[m], s) {
      IncludesPublished(tr, moves, d, i, e, w, p);
    }
  }
}
