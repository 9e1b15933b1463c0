/** Guarantees at every moment of every run: what a reader may see, what a store may touch, what
    a removal may destroy, and when a creation may fail. */
module PoolSafety {
  import opened Arrays
  import opened Table
  import opened Pool
  import opened PoolInvariant
  import opened PoolProof
  import opened PoolTheorems
  import opened PoolRuns

  // ------------------------------------------------------------ reads

  /** No torn reads: at every moment the cells a reader has are the front of the image of the
      last write accepted into the segment, so it never sees the creator's mark; and when it is
      done it returns that write's bytes under the first write's type and dimensions. */
  lemma {:induction false} NoTornReads(tr: seq<State>, moves: seq<Move>, k: nat, p: nat)
    requires Run(tr, moves) && k < |tr| && ProcOf(tr[k], p).Reading?
    ensures var Reading(op, snap, out) := ProcOf(tr[k], p);
            && op.Read? && snap.shm in tr[k].segs && tr[k].segs[snap.shm].id == op.id
            && var writes := AcceptedWrites(tr, moves, k, snap.shm);
            && writes != []
            && out <= Image(SlotArray(writes[0].typeID, writes[0].dims, writes[|writes| - 1].data))
            && (out != [] ==> ValidType(out[0]) && out[0] != UNSET_TYPE)
            && (Complete(out) ==> Parse(out) == SlotArray(writes[0].typeID, writes[0].dims, writes[|writes| - 1].data))
  {
    hide Inv, Run;
    var st := tr[k];
    var Reading(op, snap, out) := st.procs[p];
    RunKeeps(tr, moves, k);
    ProcAt(st, p);
    ReadingFacts(st, p, op, snap, out);
    ViewIsWellFormed(st.segs[snap.shm].hist);
    HistoryIsAcceptedWrites(tr, moves, k, snap.shm);
  }

  // ------------------------------------------------------------ bounds

  /** The next access of `pr` falls within the bytes of its segment. */
  predicate AccessFits(st: State, pr: Proc) {
    match pr
    case MarkNew(_, snap) => snap.shm in st.segs && CellEnd(0, 0) <= st.segs[snap.shm].size
    case Header(_, snap) =>
      && snap.shm in st.segs && var seg := st.segs[snap.shm];
      && CellEnd(0, 0) <= seg.size
      && (Load(seg.cells, 0) != UNSET_TYPE ==>
        && Load(seg.cells, 1) == |HeaderDims(seg.cells)|
        && CellEnd(|HeaderDims(seg.cells)|, 1 + |HeaderDims(seg.cells)|) <= seg.size)
    case Copy(op, snap, next, _) =>
      && snap.shm in st.segs && op.Write?
      && (next < |Image(op.arr)| ==> CellEnd(|op.arr.dims|, next) <= st.segs[snap.shm].size)
    case Reading(_, snap, out) =>
      && snap.shm in st.segs && st.segs[snap.shm].hist != []
      && (!Complete(out) ==> CellEnd(|st.segs[snap.shm].hist[0].dims|, |out|) <= st.segs[snap.shm].size)
    case _ => true
  }

  /** In every run, every store and load of a call inside a slot falls within the bytes of its
      segment. */
  lemma {:induction false} AccessesFit(tr: seq<State>, moves: seq<Move>, k: nat, p: nat)
    requires Run(tr, moves) && k < |tr| && p < |tr[k].procs|
    ensures AccessFits(tr[k], tr[k].procs[p])
  {
    hide Inv, Run;
    var st := tr[k];
    RunKeeps(tr, moves, k);
    ProcAt(st, p);
    var pr := st.procs[p];
    if pr.Header? {
      HeaderRead(st, p, pr.op, pr.snap);
      SegmentAt(st, pr.snap.shm);
    } else if pr.Copy? {
      CopyFits(st, p);
    } else if pr.Reading? {
      ReadingFits(st, p);
    }
  }

  lemma CopyFits(st: State, p: nat)
    requires Inv(st) && p < |st.procs| && st.procs[p].Copy?
    ensures var Copy(op, snap, next, _) := st.procs[p];
            snap.shm in st.segs && op.Write?
            && (next < |Image(op.arr)| ==> CellEnd(|op.arr.dims|, next) <= st.segs[snap.shm].size)
  {
    hide Inv;
    ProcAt(st, p);
    var Copy(op, snap, next, ver) := st.procs[p];
    SegmentAt(st, snap.shm);
    var hist := st.segs[snap.shm].hist;
    assert Compatible(hist[|hist| - 1], hist[0].typeID, hist[0].dims);
    ViewIsWellFormed(hist);
    if next < |Image(op.arr)| {
      CellsFit(op.arr, next);
      assert ShmBytes(op.arr) == ShmBytes(View(hist));
    }
  }

  lemma ReadingFits(st: State, p: nat)
    requires Inv(st) && p < |st.procs| && st.procs[p].Reading?
    ensures var Reading(op, snap, out) := st.procs[p];
            snap.shm in st.segs && st.segs[snap.shm].hist != []
            && (!Complete(out) ==> CellEnd(|st.segs[snap.shm].hist[0].dims|, |out|) <= st.segs[snap.shm].size)
  {
    hide Inv;
    var Reading(op, snap, out) := st.procs[p];
    ReadingFacts(st, p, op, snap, out);
    SegmentAt(st, snap.shm);
    ViewIsWellFormed(st.segs[snap.shm].hist);
    if !Complete(out) {
      CellsFit(View(st.segs[snap.shm].hist), |out|);
    }
  }

  // ------------------------------------------------------------ destruction

  /** The process has, or is about to have, segment `x` mapped for reading or writing under its
      slot lock. */
  predicate Inside(st: State, pr: Proc, x: int) {
    match pr
    case Register(_, _, shm) => shm == x
    case TakeSnapshot(_, slot, _) => slot < |st.table| && st.table[slot].shmid == x
    case DropMaster(_, snap, _) => snap.shm == x
    case Attach(_, snap, _) => snap.shm == x
    case MarkNew(_, snap) => snap.shm == x
    case Header(_, snap) => snap.shm == x
    case Copy(_, snap, _, _) => snap.shm == x
    case Reading(_, snap, _) => snap.shm == x
    case _ => false
  }

  /** Whoever is inside a segment holds the lock of its slot. */
  lemma InsideHolds(st: State, q: nat, x: int)
    requires Inv(st) && q < |st.procs| && x in st.segs && Inside(st, st.procs[q], x)
    ensures HeldSlot(st.procs[q]) == st.segs[x].slot + 1
  {
    hide Inv;
    ProcAt(st, q);
  }

  /** Safe destruction: in every run, a step that removes a segment finds nobody else inside it. */
  lemma {:induction false} SafeDestruction(tr: seq<State>, moves: seq<Move>, k: nat, x: int, q: nat)
    requires Run(tr, moves) && k < |moves| && x in tr[k].segs && tr[k].segs[x].live
    requires x !in tr[k + 1].segs || !tr[k + 1].segs[x].live
    requires q < |tr[k].procs| && q != moves[k].p
    ensures !Inside(tr[k], tr[k].procs[q], x)
  {
    hide Inv, Step, Shape;
    StepOf(tr, moves, k);
    RemoverIsAlone(tr[k], moves[k].p, moves[k].c, x, q);
  }

  lemma RemoverIsAlone(st: State, p: nat, c: Choice, x: int, q: nat)
    requires CanStep(st, p, c) && x in st.segs && st.segs[x].live
    requires x !in Next(st, p, c).segs || !Next(st, p, c).segs[x].live
    requires q < |st.procs| && q != p
    ensures !Inside(st, st.procs[q], x)
  {
    hide Inv, Step;
    ProcAt(st, p);
    RemovalIsFree(st, p, c, x);
    var FreeSegment(op, slot) := st.procs[p];
    EntryAt(st, slot);
    if Inside(st, st.procs[q], x) {
      InsideHolds(st, q, x);
      HolderAt(st, q);
      HolderAt(st, p);
    }
  }

  lemma RemovalIsFree(st: State, p: nat, c: Choice, x: int)
    requires Shape(st) && p < |st.procs| && Step(st, p, c).Some? && x in st.segs && st.segs[x].live
    requires x !in Next(st, p, c).segs || !Next(st, p, c).segs[x].live
    requires Fits(st, st.procs[p])
    ensures st.procs[p].FreeSegment? && st.procs[p].slot < |st.table| && st.table[st.procs[p].slot].shmid == x
  {
    hide Shape, Step;
    if WritesSegment(st.procs[p]) {
      RemovalWrites(st, p, c, x);
    } else if st.procs[p].Header? || st.procs[p].FreeEntry? || st.procs[p].Register? {
      RemovalElsewhere(st, p, c, x);
    } else {
      NoWriteUnmoved(st, p, c);
    }
  }

  lemma RemovalWrites(st: State, p: nat, c: Choice, x: int)
    requires Shape(st) && p < |st.procs| && Step(st, p, c).Some? && x in st.segs && st.segs[x].live
    requires x !in Next(st, p, c).segs || !Next(st, p, c).segs[x].live
    requires Fits(st, st.procs[p]) && WritesSegment(st.procs[p])
    ensures st.procs[p].FreeSegment? && st.table[st.procs[p].slot].shmid == x
  {
    hide Shape, Step;
    if HoldsMaster(st.procs[p]) {
      RemovalUnderMaster(st, p, c, x);
    } else {
      StoresRemoveNothing(st, p, c, x);
    }
  }

  lemma RemovalUnderMaster(st: State, p: nat, c: Choice, x: int)
    requires Shape(st) && p < |st.procs| && Step(st, p, c).Some? && x in st.segs && st.segs[x].live
    requires x !in Next(st, p, c).segs || !Next(st, p, c).segs[x].live
    requires Fits(st, st.procs[p]) && (st.procs[p].MakeSegment? || st.procs[p].FreeSegment?)
    ensures st.procs[p].FreeSegment? && st.table[st.procs[p].slot].shmid == x
  {
    hide Shape;
  }

  lemma StoresRemoveNothing(st: State, p: nat, c: Choice, x: int)
    requires Shape(st) && p < |st.procs| && Step(st, p, c).Some? && x in st.segs && st.segs[x].live
    requires Fits(st, st.procs[p]) && (st.procs[p].MarkNew? || st.procs[p].Copy?)
    ensures x in Next(st, p, c).segs && Next(st, p, c).segs[x].live
  {
    hide Shape, Waiters, StepSubscribe, StepAttach, StepHeader, StepReading;
  }

  lemma RemovalElsewhere(st: State, p: nat, c: Choice, x: int)
    requires Shape(st) && p < |st.procs| && Step(st, p, c).Some? && x in st.segs && st.segs[x].live
    requires Fits(st, st.procs[p]) && (st.procs[p].Header? || st.procs[p].FreeEntry? || st.procs[p].Register?)
    ensures x in Next(st, p, c).segs && Next(st, p, c).segs[x].live
  {
    hide Shape;
  }

  /** When cleanup's loop has ended, and for ever after the semaphores are gone, every slot is
      empty and no segment of the pool is alive. */
  lemma CleanupLeavesNothing(st: State, p: nat)
    requires Inv(st) && p < |st.procs|
    requires st.procs[p].RemoveSemaphores? || !st.semsAlive
    ensures forall s :: 0 <= s < |st.table| ==> st.table[s].shmid == 0 && st.table[s].desc == ""
    ensures forall x :: x in st.segs ==> !st.segs[x].live
  {
    hide ProcOk;
    CleanupSwept(st, p);
    forall s | 0 <= s < |st.table| ensures st.table[s].desc == "" {
      assert EntryOk(st, s);
    }
    forall x | x in st.segs ensures !st.segs[x].live {
      assert SegmentOk(st, x);
      NobodyRegisters(st, p, x);
    }
  }

  lemma CleanupSwept(st: State, p: nat)
    requires Inv(st) && p < |st.procs|
    requires st.procs[p].RemoveSemaphores? || !st.semsAlive
    ensures forall s :: 0 <= s < |st.table| ==> st.table[s].shmid == 0
  {
    assert Fits(st, st.procs[p]) && TableFacts(st, st.procs[p]);
  }

  lemma NobodyRegisters(st: State, p: nat, x: int)
    requires Inv(st) && p < |st.procs|
    requires st.procs[p].RemoveSemaphores? || !st.semsAlive
    ensures Sized(st) && !Registering(st, x)
  {
    hide Inv;
    SizedAt(st);
    HolderAt(st, p);
    if IsProc(st, st.owner[0]) {
      HolderAt(st, st.owner[0]);
    }
  }

  // ------------------------------------------------------------ creation

  /** The number of slots in use. */
  function Used(t: seq<Entry>): nat {
    if t == [] then 0 else Used(t[..|t| - 1]) + (if t[|t| - 1].shmid != 0 then 1 else 0)
  }

  lemma {:induction false} UsedAll(t: seq<Entry>)
    ensures Used(t) <= |t|
    ensures Used(t) == |t| <==> forall s :: 0 <= s < |t| ==> t[s].shmid != 0
  {
    if t != [] {
      var front := t[..|t| - 1];
      UsedAll(front);
      assert forall s :: 0 <= s < |front| ==> front[s] == t[s];
      if forall s :: 0 <= s < |front| ==> front[s].shmid != 0 {
        assert forall s :: 0 <= s < |t| - 1 ==> t[s].shmid != 0;
      } else {
        var s :| 0 <= s < |front| && front[s].shmid == 0;
        assert t[s].shmid == 0;
      }
    }
  }

  /** A write reports that no slot is left exactly when its id is not in the table and all
      slots are in use. */
  lemma NoSlotLeftIff(st: State, p: nat, c: Choice)
    requires CanStep(st, p, c) && st.procs[p].InMaster? && st.procs[p].op.Write?
    ensures ProcOf(Next(st, p, c), p) == ReleaseMaster(st.procs[p].op, Failed(NoSlotLeft)) <==>
            Used(st.table) == |st.table| && forall s :: 0 <= s < |st.table| ==> st.table[s].desc != st.procs[p].op.id
  {
    hide Inv;
    UsedAll(st.table);
  }

  /** In every run, the exclusive creation of a slot's segment never collides with a live one. */
  lemma {:induction false} CreationNeverCollides(tr: seq<State>, moves: seq<Move>, k: nat, p: nat)
    requires Run(tr, moves) && k < |tr| && ProcOf(tr[k], p).MakeSegment?
    ensures !KeyTaken(tr[k].segs, tr[k].procs[p].slot)
  {
    hide Inv, Run;
    RunKeeps(tr, moves, k);
    MakerKeyIsFree(tr[k], p);
  }

  lemma MakerKeyIsFree(st: State, p: nat)
    requires Inv(st) && p < |st.procs| && st.procs[p].MakeSegment?
    ensures !KeyTaken(st.segs, st.procs[p].slot)
  {
    hide ProcOk;
    var slot := st.procs[p].slot;
    MakerFacts(st, p);
    forall x | x in st.segs && st.segs[x].live ensures st.segs[x].slot != slot {
      assert SegmentOk(st, x);
    }
  }

  lemma MakerFacts(st: State, p: nat)
    requires Inv(st) && p < |st.procs| && st.procs[p].MakeSegment?
    ensures Sized(st) && st.procs[p].slot < |st.table| && st.table[st.procs[p].slot].shmid == 0
    ensures forall x :: !Registering(st, x)
    ensures 0 !in st.segs
  {
    hide Inv;
    ProcAt(st, p);
    HolderAt(st, p);
    EmptyUnbound(st);
  }

  /** In every run, whenever the master lock is free, a live segment is in the table under its own
      slot and id, every entry in use names a live segment, and no id is there twice. */
  lemma {:induction false} TableMatchesSegments(tr: seq<State>, moves: seq<Move>, k: nat)
    requires Run(tr, moves) && k < |tr| && forall q :: 0 <= q < |tr[k].procs| ==> !HoldsMaster(tr[k].procs[q])
    ensures forall s :: 0 <= s < |tr[k].table| ==> EntryMatches(tr[k], tr[k].table[s], s)
    ensures forall x :: x in tr[k].segs && tr[k].segs[x].live ==> SegmentMatches(tr[k], x)
    ensures DistinctIds(tr[k].table)
  {
    hide Inv, Run;
    var st := tr[k];
    RunKeeps(tr, moves, k);
    MasterIsFree(st);
    forall s | 0 <= s < |st.table| ensures EntryMatches(st, st.table[s], s) {
      EntryMatchesAt(st, s);
    }
    forall x | x in st.segs && st.segs[x].live ensures SegmentMatches(st, x) {
      SegmentMatchesAt(st, x);
    }
    DistinctAt(st);
  }

  lemma MasterIsFree(st: State)
    requires Inv(st) && forall q :: 0 <= q < |st.procs| ==> !HoldsMaster(st.procs[q])
    ensures Sized(st) && st.owner[0] == NOBODY
  {
    hide ProcOk, TableInv, SegmentsInv;
  }

  predicate EntryMatches(st: State, e: Entry, s: nat) {
    && EntryMarked(e)
    && (e.shmid != 0 ==> e.shmid in st.segs && st.segs[e.shmid].live && st.segs[e.shmid].slot == s)
  }

  predicate SegmentMatches(st: State, x: int)
    requires x in st.segs
  {
    st.segs[x].slot < |st.table| && st.table[st.segs[x].slot] == Entry(x, st.segs[x].id)
  }

  lemma EntryMatchesAt(st: State, s: nat)
    requires Inv(st) && Sized(st) && st.owner[0] == NOBODY && s < |st.table|
    ensures EntryMatches(st, st.table[s], s)
  {
    hide Inv;
    EntryAt(st, s);
    if Clearing(st, s) {
      HolderAt(st, st.owner[s + 1]);
    }
  }

  lemma SegmentMatchesAt(st: State, x: int)
    requires Inv(st) && Sized(st) && st.owner[0] == NOBODY && x in st.segs && st.segs[x].live
    ensures SegmentMatches(st, x)
  {
    hide ProcOk;
    SegmentAt(st, x);
    EntryAt(st, st.segs[x].slot);
  }

  // ------------------------------------------------------------ stale snapshots

  /** In every run, a subscriber whose segment was removed while it waited gets an error, and
      gives the slot lock back; one that gets to read reads the segment its id is bound to now. */
  lemma {:induction false} StaleSnapshotsAreHarmless(tr: seq<State>, moves: seq<Move>, k: nat)
    requires Run(tr, moves) && k < |moves|
    requires ProcOf(tr[k], moves[k].p).Attach? && ProcOf(tr[k], moves[k].p).op.Read?
    ensures var Attach(op, snap, _) := ProcOf(tr[k], moves[k].p);
            && snap.shm in tr[k].segs
            && (!tr[k].segs[snap.shm].live ==> ProcOf(tr[k + 1], moves[k].p) == DropSlot(op, snap, Failed(Stale), 0))
            && (tr[k].segs[snap.shm].live ==>
              && ProcOf(tr[k + 1], moves[k].p) == Reading(op, snap, [])
              && Lookup(tr[k].table, op.id) == Some(snap.lockId - 1)
              && tr[k].table[snap.lockId - 1].shmid == snap.shm)
  {
    hide Inv, Lookup, Step;
    var st, p := tr[k], moves[k].p;
    StepOf(tr, moves, k);
    ProcAt(st, p);
    AttachOutcome(st, p, moves[k].c);
    var Attach(op, snap, create) := st.procs[p];
    if st.segs[snap.shm].live {
      SnapshotIsBinding(st, p, op, snap);
    }
  }

  lemma AttachOutcome(st: State, p: nat, c: Choice)
    requires Shape(st) && p < |st.procs| && Step(st, p, c).Some? && st.procs[p].Attach? && st.procs[p].op.Read?
    ensures var Attach(op, snap, _) := st.procs[p];
            ProcOf(Next(st, p, c), p) ==
              if snap.shm in st.segs && st.segs[snap.shm].live then Reading(op, snap, [])
              else DropSlot(op, snap, Failed(Stale), 0)
  {
    hide Shape;
  }

  /** In every run, leaving a slot frees its lock, whatever the result of the call. */
  lemma {:induction false} LeavingFreesLock(tr: seq<State>, moves: seq<Move>, k: nat)
    requires Run(tr, moves) && k < |moves|
    requires ProcOf(tr[k], moves[k].p).DropSlot? && tr[k].semsAlive
    ensures var DropSlot(op, snap, res, ver) := ProcOf(tr[k], moves[k].p);
            && 0 < snap.lockId < |tr[k + 1].sems| && tr[k + 1].sems[snap.lockId] == 1
            && (res == Failed(Stale) || res.Got? ==> ProcOf(tr[k + 1], moves[k].p) == Done(op, res))
  {
    hide Inv;
    StepOf(tr, moves, k);
    ProcAt(tr[k], moves[k].p);
    HolderAt(tr[k], moves[k].p);
    FreeAt(tr[k], tr[k].procs[moves[k].p].snap.lockId);
  }
}
