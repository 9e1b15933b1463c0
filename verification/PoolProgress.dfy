/** Deadlock freedom: nobody waits for others while holding what they need, and the holders of
    locks can always finish by themselves. */
module PoolProgress {
  import opened Arrays
  import opened Table
  import opened Pool
  import opened PoolInvariant
  import opened PoolProof
  import opened PoolTheorems
  import opened PoolRuns

  // ------------------------------------------------------------ who waits holding what

  /** The process is at a call that can sleep on a handshake, or on the master lock. */
  predicate MayWaitLong(pr: Proc) {
    pr.LockMaster? || pr.Subscribe? || pr.Blocked? || pr.Post? || pr.WaitZero?
  }

  /** The process is at a call that can sleep on a slot lock. */
  predicate MayWaitForSlot(pr: Proc) {
    pr.LockSlot? || pr.LockSnapshot? || pr.FreeLock? || pr.InfoLock?
  }

  /** In every run, nobody was the last to take a lock that it has not given back while it waits
      on a handshake or for the master; who waits for a slot lock holds no slot lock. */
  lemma {:induction false} WaitersHoldLittle(tr: seq<State>, moves: seq<Move>, k: nat, p: nat)
    requires Run(tr, moves) && k < |tr| && p < |tr[k].procs|
    ensures Sized(tr[k])
    ensures MayWaitLong(tr[k].procs[p]) ==> forall i :: 0 <= i <= |tr[k].table| ==> tr[k].owner[i] != p
    ensures MayWaitForSlot(tr[k].procs[p]) ==> forall i :: 1 <= i <= |tr[k].table| ==> tr[k].owner[i] != p
  {
    hide Run, ProcOk, TableInv, SegmentsInv;
    var st := tr[k];
    RunKeeps(tr, moves, k);
    forall i | 0 <= i <= |st.table| && st.owner[i] == p ensures Holds(st.procs[p], i) {
    }
  }

  // ------------------------------------------------------------ a holder can step

  predicate IsHolder(pr: Proc) { HoldsMaster(pr) || HeldSlot(pr) != 0 }

  ghost predicate HolderMove(st: State, p: nat, c: Choice) {
    CanStep(st, p, c) && IsHolder(st.procs[p])
  }

  predicate CannotWait(pr: Proc) {
    IsHolder(pr) && !MayWaitForSlot(pr)
  }

  /** A lock holder that is not after a slot lock is never blocked. */
  lemma NeverBlocked(st: State, p: nat)
    requires Inv(st) && p < |st.procs| && CannotWait(st.procs[p])
    ensures HolderMove(st, p, Refuse)
  {
    hide Inv;
    InvShape(st);
    if HoldsMaster(st.procs[p]) {
      MasterNeverBlocked(st, p);
    } else {
      SlotNeverBlocked(st, p);
    }
  }

  lemma MasterNeverBlocked(st: State, p: nat)
    requires Shape(st) && p < |st.procs| && HoldsMaster(st.procs[p]) && !MayWaitForSlot(st.procs[p])
    ensures Step(st, p, Refuse).Some?
  {
    hide Shape, Lookup, FreeIndex;
  }

  lemma SlotNeverBlocked(st: State, p: nat)
    requires Shape(st) && p < |st.procs| && HeldSlot(st.procs[p]) != 0 && !HoldsMaster(st.procs[p])
    ensures Step(st, p, Refuse).Some?
  {
    hide Shape, Complete, Parse, HeaderDims, Compatible;
  }

  lemma WaiterIsMasters(st: State, p: nat)
    requires Inv(st) && p < |st.procs| && IsHolder(st.procs[p]) && MayWaitForSlot(st.procs[p])
    requires st.owner[st.procs[p].slot + 1] == NOBODY
    ensures HolderMove(st, p, Go)
  {
    hide Inv;
    InvShape(st);
    ProcAt(st, p);
    HolderAt(st, p);
    FreeAt(st, st.procs[p].slot + 1);
  }

  lemma OwnerAt(st: State, i: nat)
    requires Inv(st) && i <= |st.table|
    ensures Sized(st) && (st.owner[i] != NOBODY ==> IsProc(st, st.owner[i]) && Holds(st.procs[st.owner[i]], i))
  {
  }

  /** Whenever a lock is held, some holder can step. */
  lemma SomeHolderCanStep(st: State, i: nat) returns (p: nat, c: Choice)
    requires Inv(st) && Sized(st) && i <= |st.table| && st.owner[i] != NOBODY
    ensures HolderMove(st, p, c)
  {
    hide Inv, Step, Shape;
    OwnerAt(st, i);
    p, c := st.owner[i], Refuse;
    if MayWaitForSlot(st.procs[p]) {
      HolderAt(st, p);
      ProcAt(st, p);
      var s := st.procs[p].slot;
      OwnerAt(st, s + 1);
      if st.owner[s + 1] == NOBODY {
        c := Go;
        WaiterIsMasters(st, p);
      } else {
        p := st.owner[s + 1];
        NeverBlocked(st, p);
      }
    } else {
      NeverBlocked(st, p);
    }
  }

  // ------------------------------------------------------------ the measure

  predicate InSlotLoop(pr: Proc) {
    || pr.FreeLock? || pr.FreeSegment? || pr.FreeEntry? || pr.FreeUnlock? || pr.Scan?
    || pr.InfoLock? || pr.InfoShow? || pr.InfoUnlock?
  }

  /** How far along its path a holder is, within one round of a slot loop. */
  function Stage(pr: Proc): nat {
    if pr.InMaster? then 50
    else if pr.LockSlot? then 20
    else if pr.MakeSegment? then 19
    else if pr.UndoLock? || pr.Register? then 18
    else if pr.TakeSnapshot? then 17
    else if pr.DropMaster? then 16
    else if pr.Attach? then 15
    else if pr.MarkNew? then 14
    else if pr.Header? then 13
    else if pr.Copy? || pr.Reading? then 12
    else if pr.Scan? then 10
    else if pr.FreeLock? || pr.InfoLock? then 9
    else if pr.FreeSegment? || pr.InfoShow? then 8
    else if pr.FreeEntry? || pr.InfoUnlock? then 7
    else if pr.FreeUnlock? then 6
    else if pr.DropMasterToWait? then 5
    else if pr.RemoveSemaphores? then 4
    else if pr.RemoveMaster? then 3
    else if pr.ReleaseMaster? then 2
    else if pr.DropSlot? then 1
    else 0
  }

  /** How many rounds of the slot loop are still ahead. */
  function Rounds(n: nat, pr: Proc): nat {
    if pr.InMaster? then n
    else if InSlotLoop(pr) && pr.slot <= n then n - pr.slot
    else 0
  }

  /** A bound on the code points a holder still has before it is rid of its locks. */
  function Phase(n: nat, pr: Proc): nat {
    10 * Rounds(n, pr) + Stage(pr)
  }

  /** How many cells a process inside a slot still has to copy. */
  function CellsLeft(segs: map<int, Segment>, pr: Proc): nat {
    match pr
    case Copy(op, _, next, _) =>
      if op.Write? && next <= |Image(op.arr)| then |Image(op.arr)| - next else 0
    case Reading(_, snap, out) =>
      if snap.shm in segs && segs[snap.shm].hist != [] && |out| <= |Image(View(segs[snap.shm].hist))|
      then |Image(View(segs[snap.shm].hist))| - |out| else 0
    case _ => 0
  }

  lemma {:induction false} SumUpdate(ws: seq<nat>, p: nat, w: nat)
    requires p < |ws|
    ensures Sum(ws[p := w]) == Sum(ws) - ws[p] + w
  {
    var last := |ws| - 1;
    if p < last {
      SumUpdate(ws[..last], p, w);
      assert ws[p := w][..last] == ws[..last][p := w];
    } else {
      assert ws[p := w][..last] == ws[..last];
    }
  }

  function Phases(st: State): (ws: seq<nat>)
    ensures |ws| == |st.procs|
  {
    seq(|st.procs|, q requires 0 <= q < |st.procs| => Phase(|st.table|, st.procs[q]))
  }

  function Cells(st: State): (ws: seq<nat>)
    ensures |ws| == |st.procs|
  {
    seq(|st.procs|, q requires 0 <= q < |st.procs| => CellsLeft(st.segs, st.procs[q]))
  }

  /** The ranking of a state: code points left, then cells left. */
  predicate RanksBelow(st': State, st: State) {
    Sum(Phases(st')) < Sum(Phases(st)) || (Sum(Phases(st')) == Sum(Phases(st)) && Sum(Cells(st')) < Sum(Cells(st)))
  }

  lemma OwnRank(st: State, p: nat, c: Choice)
    requires HolderMove(st, p, c)
    ensures var n, was, now := |st.table|, st.procs[p], ProcOf(Next(st, p, c), p);
            || Phase(n, now) < Phase(n, was)
            || (&& Phase(n, now) == Phase(n, was) && CellsLeft(st.segs, now) < CellsLeft(st.segs, was)
                && (now.Copy? || now.Reading?))
  {
    hide Inv;
    ProcAt(st, p);
    var pr := st.procs[p];
    if HoldsMaster(pr) {
      MasterRank(st, p, c);
    } else if pr.Copy? {
      CopyRank(st, p, c);
    } else if pr.Reading? {
      ReadingFacts(st, p, pr.op, pr.snap, pr.out);
      ReadingRank(st, p, c);
    } else {
      SlotRank(st, p, c);
    }
  }

  predicate TakingSlot(pr: Proc) { pr.LockSlot? || pr.FreeLock? || pr.InfoLock? }

  predicate Freed(pr: Proc) { pr.FreeUnlock? || pr.InfoUnlock? }

  lemma MasterRank(st: State, p: nat, c: Choice)
    requires Shape(st) && p < |st.procs| && Step(st, p, c).Some? && HoldsMaster(st.procs[p]) && Fits(st, st.procs[p])
    ensures Phase(|st.table|, ProcOf(Next(st, p, c), p)) < Phase(|st.table|, st.procs[p])
  {
    hide Shape, Step, Phase;
    if st.procs[p].InMaster? {
      LookupRank(st, p, c);
    } else if st.procs[p].Scan? {
      ScanRank(st, p, c);
    } else if TakingSlot(st.procs[p]) {
      TakingRank(st, p, c);
    } else if st.procs[p].FreeSegment? {
      RemovalRank(st, p, c);
    } else if st.procs[p].FreeEntry? || st.procs[p].InfoShow? {
      ClearingRank(st, p, c);
    } else if Freed(st.procs[p]) {
      FreedRank(st, p, c);
    } else {
      CreatingRank(st, p, c);
    }
  }

  lemma LookupRank(st: State, p: nat, c: Choice)
    requires Shape(st) && p < |st.procs| && Step(st, p, c).Some? && Fits(st, st.procs[p])
    requires st.procs[p].InMaster?
    ensures Phase(|st.table|, ProcOf(Next(st, p, c), p)) < Phase(|st.table|, st.procs[p])
  {
    hide Shape, Acquire, Release, StepMakeSegment, StepFreeSegment, StepScan;
  }

  lemma ScanRank(st: State, p: nat, c: Choice)
    requires Shape(st) && p < |st.procs| && Step(st, p, c).Some? && Fits(st, st.procs[p])
    requires st.procs[p].Scan?
    ensures Phase(|st.table|, ProcOf(Next(st, p, c), p)) < Phase(|st.table|, st.procs[p])
  {
    hide Shape, Acquire, Release, StepMakeSegment, StepFreeSegment, StepInMaster;
  }

  lemma TakingRank(st: State, p: nat, c: Choice)
    requires Shape(st) && p < |st.procs| && Step(st, p, c).Some? && Fits(st, st.procs[p])
    requires TakingSlot(st.procs[p])
    ensures Phase(|st.table|, ProcOf(Next(st, p, c), p)) < Phase(|st.table|, st.procs[p])
  {
    hide Shape, StepInMaster, StepScan, Release, StepMakeSegment, StepFreeSegment, Phase;
    if st.procs[p].LockSlot? {
      LockingRank(st, p, c);
    } else {
      VisitingRank(st, p, c);
    }
  }

  lemma LockingRank(st: State, p: nat, c: Choice)
    requires Shape(st) && p < |st.procs| && Step(st, p, c).Some? && st.procs[p].LockSlot?
    ensures Phase(|st.table|, ProcOf(Next(st, p, c), p)) < Phase(|st.table|, st.procs[p])
  {
    hide Shape, StepInMaster, StepScan, Release, StepMakeSegment, StepFreeSegment;
  }

  lemma VisitingRank(st: State, p: nat, c: Choice)
    requires Shape(st) && p < |st.procs| && Step(st, p, c).Some? && Fits(st, st.procs[p])
    requires st.procs[p].FreeLock? || st.procs[p].InfoLock?
    ensures Phase(|st.table|, ProcOf(Next(st, p, c), p)) < Phase(|st.table|, st.procs[p])
  {
    hide Shape, StepInMaster, StepScan, Release, StepMakeSegment, StepFreeSegment;
  }

  lemma RemovalRank(st: State, p: nat, c: Choice)
    requires Shape(st) && p < |st.procs| && Step(st, p, c).Some? && Fits(st, st.procs[p])
    requires st.procs[p].FreeSegment?
    ensures Phase(|st.table|, ProcOf(Next(st, p, c), p)) < Phase(|st.table|, st.procs[p])
  {
    hide Shape, StepInMaster, StepScan, Acquire, Release, StepMakeSegment;
  }

  lemma ClearingRank(st: State, p: nat, c: Choice)
    requires Shape(st) && p < |st.procs| && Step(st, p, c).Some? && Fits(st, st.procs[p])
    requires st.procs[p].FreeEntry? || st.procs[p].InfoShow?
    ensures Phase(|st.table|, ProcOf(Next(st, p, c), p)) < Phase(|st.table|, st.procs[p])
  {
    hide Shape, StepInMaster, StepScan, Acquire, Release, StepMakeSegment, StepFreeSegment;
  }

  lemma FreedRank(st: State, p: nat, c: Choice)
    requires Shape(st) && p < |st.procs| && Step(st, p, c).Some? && Fits(st, st.procs[p])
    requires Freed(st.procs[p])
    ensures Phase(|st.table|, ProcOf(Next(st, p, c), p)) < Phase(|st.table|, st.procs[p])
  {
    hide Shape, StepInMaster, StepScan, Acquire, StepFreeSegment, StepMakeSegment;
  }

  lemma CreatingRank(st: State, p: nat, c: Choice)
    requires Shape(st) && p < |st.procs| && Step(st, p, c).Some? && Fits(st, st.procs[p])
    requires HoldsMaster(st.procs[p]) && !st.procs[p].InMaster? && !InSlotLoop(st.procs[p]) && !st.procs[p].LockSlot?
    ensures Phase(|st.table|, ProcOf(Next(st, p, c), p)) < Phase(|st.table|, st.procs[p])
  {
    hide Shape, StepInMaster, StepScan, Acquire, StepFreeSegment;
  }

  lemma CopyRank(st: State, p: nat, c: Choice)
    requires Shape(st) && p < |st.procs| && Step(st, p, c).Some? && st.procs[p].Copy? && Fits(st, st.procs[p])
    ensures var was, now := st.procs[p], ProcOf(Next(st, p, c), p);
            now.DropSlot? || (now.Copy? && CellsLeft(st.segs, now) < CellsLeft(st.segs, was))
  {
    hide Shape;
  }

  lemma ReadingRank(st: State, p: nat, c: Choice)
    requires Shape(st) && p < |st.procs| && Step(st, p, c).Some? && st.procs[p].Reading?
    requires var x := st.procs[p].snap.shm;
             && x in st.segs && st.segs[x].hist != []
             && (!Complete(st.procs[p].out) ==> |st.procs[p].out| < |Image(View(st.segs[x].hist))|)
    ensures var was, now := st.procs[p], ProcOf(Next(st, p, c), p);
            now.DropSlot? || (now.Reading? && CellsLeft(st.segs, now) < CellsLeft(st.segs, was))
  {
    hide Shape, Complete, Parse, Image, View;
  }

  lemma SlotRank(st: State, p: nat, c: Choice)
    requires Shape(st) && p < |st.procs| && Step(st, p, c).Some? && Fits(st, st.procs[p])
    requires HeldSlot(st.procs[p]) != 0 && !HoldsMaster(st.procs[p]) && !st.procs[p].Copy? && !st.procs[p].Reading?
    ensures Phase(|st.table|, ProcOf(Next(st, p, c), p)) < Phase(|st.table|, st.procs[p])
  {
    hide Shape, Step, Phase;
    if st.procs[p].Header? || st.procs[p].MarkNew? {
      HeaderRank(st, p, c);
    } else {
      EdgeRank(st, p, c);
    }
  }

  lemma HeaderRank(st: State, p: nat, c: Choice)
    requires Shape(st) && p < |st.procs| && Step(st, p, c).Some? && Fits(st, st.procs[p])
    requires st.procs[p].Header? || st.procs[p].MarkNew?
    ensures Phase(|st.table|, ProcOf(Next(st, p, c), p)) < Phase(|st.table|, st.procs[p])
  {
    hide Shape, HeaderDims, Compatible, StepAttach, Release, StepReading, StepCopy;
  }

  lemma EdgeRank(st: State, p: nat, c: Choice)
    requires Shape(st) && p < |st.procs| && Step(st, p, c).Some? && Fits(st, st.procs[p])
    requires st.procs[p].Attach? || st.procs[p].DropSlot?
    ensures Phase(|st.table|, ProcOf(Next(st, p, c), p)) < Phase(|st.table|, st.procs[p])
  {
    hide Shape, StepHeader, StepReading, StepCopy;
  }

  /** Nobody gets a write accepted into a segment that another process is reading. */
  lemma ReadersKeepWritersOut(st: State, p: nat, c: Choice, q: nat)
    requires CanStep(st, p, c) && q < |st.procs| && q != p && st.procs[q].Reading?
    ensures !AcceptsAt(st, Move(p, c), Next(st, p, c), st.procs[q].snap.shm)
  {
    hide Inv, Step, Shape;
    ProcAt(st, p);
    ProcAt(st, q);
    HolderAt(st, p);
    HolderAt(st, q);
  }

  /** What others still have to copy does not depend on this step. */
  lemma OthersCells(st: State, p: nat, c: Choice, q: nat)
    requires CanStep(st, p, c) && q < |st.procs| && q != p
    ensures CellsLeft(Next(st, p, c).segs, st.procs[q]) == CellsLeft(st.segs, st.procs[q])
  {
    hide Inv, Step, Shape, AcceptsAt;
    var pr := st.procs[q];
    if pr.Reading? {
      ReadingIn(st, q);
      HistoryStep(st, p, c, pr.snap.shm);
      ReadersKeepWritersOut(st, p, c, q);
    }
  }

  lemma ReadingIn(st: State, q: nat)
    requires Inv(st) && q < |st.procs| && st.procs[q].Reading?
    ensures st.procs[q].snap.shm in st.segs
  {
    hide Inv;
    ProcAt(st, q);
  }

  /** Every step of a lock holder lowers the ranking, so holders left to themselves always end
      with all locks free. */
  lemma HoldersRankDown(st: State, p: nat, c: Choice)
    requires HolderMove(st, p, c)
    ensures RanksBelow(Next(st, p, c), st)
  {
    hide Inv, Step, Shape;
    var st' := Next(st, p, c);
    StepFrame(st, p, c);
    OwnRank(st, p, c);
    var n, now := |st.table|, st'.procs[p];
    assert Phases(st') == Phases(st)[p := Phase(n, now)];
    SumUpdate(Phases(st), p, Phase(n, now));
    if Phase(n, now) == Phase(n, st.procs[p]) {
      forall q | 0 <= q < |st.procs| && q != p ensures Cells(st')[q] == Cells(st)[q] {
        OthersCells(st, p, c, q);
      }
      CopyingKeepsView(st, p, c);
      assert Cells(st') == Cells(st)[p := CellsLeft(st'.segs, now)];
      SumUpdate(Cells(st), p, CellsLeft(st'.segs, now));
    }
  }

  lemma CopyingKeepsView(st: State, p: nat, c: Choice)
    requires CanStep(st, p, c)
    requires ProcOf(Next(st, p, c), p).Copy? || ProcOf(Next(st, p, c), p).Reading?
    requires st.procs[p].Copy? || st.procs[p].Reading?
    ensures CellsLeft(Next(st, p, c).segs, ProcOf(Next(st, p, c), p)) == CellsLeft(st.segs, ProcOf(Next(st, p, c), p))
  {
    hide Inv, Shape;
    if st.procs[p].Reading? {
      SlotUnmoved(st, p, c);
    } else {
      hide Step;
      CopyStays(st, p, c);
    }
  }

  lemma CopyStays(st: State, p: nat, c: Choice)
    requires Shape(st) && p < |st.procs| && Step(st, p, c).Some? && st.procs[p].Copy?
    ensures !ProcOf(Next(st, p, c), p).Reading?
  {
    hide Shape;
  }

  ghost predicate AllFree(st: State) {
    Sized(st) && forall i :: 0 <= i <= |st.table| ==> st.owner[i] == NOBODY
  }

  /** A stretch of moves made by lock holders only. */
  ghost predicate HolderRun(tr: seq<State>, moves: seq<Move>) {
    && |tr| == |moves| + 1
    && forall k :: 0 <= k < |moves| ==>
         HolderMove(tr[k], moves[k].p, moves[k].c) && tr[k + 1] == Next(tr[k], moves[k].p, moves[k].c)
  }

  /** No deadlock: from every reachable state the holders of locks can, by their own steps, reach
      a state where every lock is free. */
  lemma {:induction false} HoldersCanFinish(st: State) returns (tr: seq<State>, moves: seq<Move>)
    requires Inv(st)
    ensures HolderRun(tr, moves) && tr[0] == st && AllFree(tr[|moves|])
    decreases Sum(Phases(st)), Sum(Cells(st))
  {
    hide Inv, Step, Shape, HolderMove;
    SizedAt(st);
    if AllFree(st) {
      tr, moves := [st], [];
    } else {
      var i :| 0 <= i <= |st.table| && st.owner[i] != NOBODY;
      var p, c := SomeHolderCanStep(st, i);
      HolderKeeps(st, p, c);
      HoldersRankDown(st, p, c);
      var tr', moves' := HoldersCanFinish(Next(st, p, c));
      tr, moves := [st] + tr', [Move(p, c)] + moves';
    }
  }

  lemma HolderKeeps(st: State, p: nat, c: Choice)
    requires HolderMove(st, p, c)
    ensures CanStep(st, p, c) && Inv(Next(st, p, c))
  {
    hide Inv, Step, Shape;
    StepKeeps(st, p, c);
  }
}
