/** When each kernel call of the protocol goes through, waits or fails, and what a finished cleanup
    leaves. */
module PoolOutcomes {
  import opened Arrays
  import opened Table
  import opened Pool
  import opened PoolInvariant
  import opened PoolProof
  import opened PoolTheorems
  import opened PoolFlow
  import opened PoolRuns
  import opened PoolCalls
  import opened PoolHandshake
  import PoolSafety

  // ------------------------------------------------------------ who waits for what

  /** The units lying in the handshake of slot `s`. */
  function Units(tr: seq<State>, moves: seq<Move>, k: nat, s: nat): int
    requires |tr| == |moves| + 1 && k < |tr|
  {
    UnitsPosted(tr, moves, k, s) - UnitsConsumed(tr, moves, k, s)
  }

  /** What a subscriber can do: take a unit if there is one, else go to sleep, where it stays until
      there is; and give up at any time, but only if it has a timeout. */
  predicate SubscriberMoves(units: int, was: Proc, c: Choice, can: bool, now: Proc)
    requires Waiting(was)
  {
    && (can <==>
          || (c.Expire? && was.op.Read? && was.op.wait.Timed?)
          || (if units >= 1 then c.Go? else c.Block? && was.Subscribe?))
    && (can ==>
          now == if c.Expire? then Done(was.op, Failed(TimedOut))
                 else if c.Go? then LockSnapshot(was.op, was.snap)
                 else Blocked(was.op, was.snap))
  }

  lemma {:induction false} SubscribersWaitForUnits(tr: seq<State>, moves: seq<Move>, k: nat, p: nat, c: Choice)
    requires Run(tr, moves) && k < |tr| && p < |tr[k].procs| && Waiting(tr[k].procs[p]) && tr[k].semsAlive
    ensures Shape(tr[k]) && tr[k].procs[p].snap.lockId >= 1
    ensures var can := Step(tr[k], p, c).Some?;
            SubscriberMoves(Units(tr, moves, k, tr[k].procs[p].snap.lockId - 1), tr[k].procs[p], c, can,
                            if can then ProcOf(Next(tr[k], p, c), p) else Idle)
  {
    hide Inv, Shape;
    RunKeeps(tr, moves, k);
    InvShape(tr[k]);
    ProcAt(tr[k], p);
    HandshakeConservation(tr, moves, k, tr[k].procs[p].snap.lockId - 1);
  }

  /** A publisher posts at once, unless it counted nobody, when it waits like one that has posted:
      until no unit is left. */
  lemma {:induction false} PublishersWaitForNone(tr: seq<State>, moves: seq<Move>, k: nat, p: nat, c: Choice)
    requires Run(tr, moves) && k < |tr| && p < |tr[k].procs| && tr[k].semsAlive
    requires tr[k].procs[p].Post? || tr[k].procs[p].WaitZero?
    ensures Shape(tr[k]) && tr[k].procs[p].snap.lockId >= 1
    ensures Step(tr[k], p, c).Some? <==>
            || (tr[k].procs[p].Post? && tr[k].procs[p].numb >= 1)
            || Units(tr, moves, k, tr[k].procs[p].snap.lockId - 1) == 0
  {
    hide Inv, Shape;
    RunKeeps(tr, moves, k);
    InvShape(tr[k]);
    ProcAt(tr[k], p);
    HandshakeConservation(tr, moves, k, tr[k].procs[p].snap.lockId - 1);
  }

  /** The lock a process is about to take, if any. */
  function Wanted(pr: Proc): Option<nat> {
    match pr
    case LockMaster(_) => Some(0)
    case LockSlot(_, slot, _) => Some(LockOf(slot))
    case LockSnapshot(_, snap) => Some(snap.lockId)
    case FreeLock(_, slot) => Some(LockOf(slot))
    case InfoLock(_, slot) => Some(LockOf(slot))
    case _ => None
  }

  /** Taking a lock waits exactly while somebody is inside. */
  lemma {:induction false} LocksWaitForHolders(tr: seq<State>, moves: seq<Move>, k: nat, p: nat, c: Choice)
    requires Run(tr, moves) && k < |tr| && p < |tr[k].procs| && Wanted(tr[k].procs[p]).Some? && tr[k].semsAlive
    ensures Shape(tr[k]) && Wanted(tr[k].procs[p]).value <= |tr[k].table|
    ensures Step(tr[k], p, c).Some? <==> Holders(tr[k], Wanted(tr[k].procs[p]).value) == {}
  {
    hide Inv, Shape, Holders;
    RunKeeps(tr, moves, k);
    InvShape(tr[k]);
    ProcAt(tr[k], p);
    var i := Wanted(tr[k].procs[p]).value;
    MutualExclusion(tr, moves, k, i);
  }

  // ------------------------------------------------------------ who fails and why

  /** The result a process carries, once its call has one. */
  function ResultOf(pr: Proc): Option<Result> {
    match pr
    case DropSlot(_, _, res, _) => Some(res)
    case ReleaseMaster(_, res) => Some(res)
    case Done(_, res) => Some(res)
    case _ => None
  }

  predicate FailsNow(was: Proc, now: Proc) {
    ResultOf(was).None? && ResultOf(now).Some? && ResultOf(now).value.Failed?
  }

  predicate Absent(t: seq<Entry>, id: string) {
    forall s :: 0 <= s < |t| ==> t[s].desc != id
  }

  predicate AllUsed(t: seq<Entry>) {
    forall s :: 0 <= s < |t| ==> t[s].shmid != 0
  }

  /** The cause for which the call of `was` may fail at this step, as the state shows it. */
  ghost predicate Cause(st: State, was: Proc, c: Choice, why: Reason) {
    match was
    case Idle => !st.masterAlive && why == NoPool
    case LockMaster(_) => !st.semsAlive && why == Removed
    case InMaster(op) =>
      && NamesSlot(op) && Absent(st.table, op.id)
      && (if op.Write? then AllUsed(st.table) && why == NoSlotLeft else why == NotFound)
    case LockSlot(_, _, _) => !st.semsAlive && why == Removed
    case UndoLock(_, _) => why == NoSegment
    case Subscribe(op, _) => TimesOutOrGone(st, op, c, why)
    case Blocked(op, _) => TimesOutOrGone(st, op, c, why)
    case LockSnapshot(_, _) => !st.semsAlive && why == Removed
    case Attach(_, snap, _) => !(snap.shm in st.segs && st.segs[snap.shm].live) && why == Stale
    case Header(op, snap) =>
      && snap.shm in st.segs && st.segs[snap.shm].hist != [] && op.Write?
      && Mismatch(op.arr, st.segs[snap.shm].hist[0]) && why == Incompatible
    case Post(_, _, _, _) => !st.semsAlive && why == Unpublished
    case WaitZero(_, _) => !st.semsAlive && why == Unpublished
    case _ => false
  }

  predicate TimesOutOrGone(st: State, op: Op, c: Choice, why: Reason) {
    if c.Expire? && op.Read? && op.wait.Timed? then why == TimedOut else !st.semsAlive && why == Removed
  }

  /** `a` differs from the array a slot was made for in type, number of dimensions or size. */
  predicate Mismatch(a: SlotArray, first: SlotArray) {
    a.typeID != first.typeID || |a.dims| != |first.dims| || Product(a.dims) != Product(first.dims)
  }

  lemma FailsIff(st: State, p: nat, c: Choice)
    requires CanStep(st, p, c)
    ensures var was, now := st.procs[p], ProcOf(Next(st, p, c), p);
            && (FailsNow(was, now) ==> Cause(st, was, c, ResultOf(now).value.why))
            && ((exists why :: Cause(st, was, c, why)) ==> FailsNow(was, now))
  {
    hide Inv, Step, Shape, Cause, FailsNow, Follows, RightOp;
    ProcAt(st, p);
    if st.procs[p].InMaster? {
      FailsInMaster(st, p, c);
    } else if st.procs[p].LockSlot? {
      FailsAtLock(st, p, c);
    } else if HoldsMaster(st.procs[p]) {
      StepFollows(st, p, c);
      FitsRightOp(st, st.procs[p]);
      FailsUnderMaster(st, st.procs[p], ProcOf(Next(st, p, c), p), c);
    } else if Waiting(st.procs[p]) {
      FailsWaiting(st, p, c);
    } else if st.procs[p].Header? {
      FailsAtHeader(st, p, c);
    } else if InSlot(st.procs[p]) {
      FailsInSlot(st, p, c);
    } else {
      FailsOutside(st, p, c);
    }
  }

  lemma FailsInMaster(st: State, p: nat, c: Choice)
    requires Shape(st) && p < |st.procs| && Step(st, p, c).Some? && Fits(st, st.procs[p])
    requires st.procs[p].InMaster?
    ensures var was, now := st.procs[p], ProcOf(Next(st, p, c), p);
            && (FailsNow(was, now) ==> Cause(st, was, c, ResultOf(now).value.why))
            && ((exists why :: Cause(st, was, c, why)) ==> FailsNow(was, now))
  {
    hide Shape, Lookup, FreeIndex, Acquire, Release;
  }

  lemma FailsAtLock(st: State, p: nat, c: Choice)
    requires Shape(st) && p < |st.procs| && Step(st, p, c).Some? && Fits(st, st.procs[p])
    requires st.procs[p].LockSlot?
    ensures var was, now := st.procs[p], ProcOf(Next(st, p, c), p);
            && (FailsNow(was, now) ==> Cause(st, was, c, ResultOf(now).value.why))
            && ((exists why :: Cause(st, was, c, why)) ==> FailsNow(was, now))
  {
    hide Shape, StepInMaster;
  }

  lemma FailsUnderMaster(st: State, was: Proc, now: Proc, c: Choice)
    requires Follows(was, now) && HoldsMaster(was) && !was.InMaster? && !was.LockSlot? && RightOp(was)
    ensures FailsNow(was, now) ==> Cause(st, was, c, ResultOf(now).value.why)
    ensures (exists why :: Cause(st, was, c, why)) ==> FailsNow(was, now)
  {
    hide FromTable, FromWait, FromAttach;
  }

  lemma FailsAtHeader(st: State, p: nat, c: Choice)
    requires CanStep(st, p, c) && st.procs[p].Header?
    ensures var was, now := st.procs[p], ProcOf(Next(st, p, c), p);
            && (FailsNow(was, now) ==> Cause(st, was, c, ResultOf(now).value.why))
            && ((exists why :: Cause(st, was, c, why)) ==> FailsNow(was, now))
  {
    hide Inv, Step, Shape, HeaderDims, Load;
    ProcAt(st, p);
    HeaderRead(st, p, st.procs[p].op, st.procs[p].snap);
    HeaderNext(st, p, c);
  }

  lemma FailsInSlot(st: State, p: nat, c: Choice)
    requires Shape(st) && p < |st.procs| && Step(st, p, c).Some? && InSlot(st.procs[p]) && !st.procs[p].Header?
    ensures var was, now := st.procs[p], ProcOf(Next(st, p, c), p);
            && (FailsNow(was, now) ==> Cause(st, was, c, ResultOf(now).value.why))
            && ((exists why :: Cause(st, was, c, why)) ==> FailsNow(was, now))
  {
    hide Shape, Complete, Parse, StepHeader;
  }

  lemma FailsWaiting(st: State, p: nat, c: Choice)
    requires Shape(st) && p < |st.procs| && Step(st, p, c).Some? && Fits(st, st.procs[p])
    requires Waiting(st.procs[p])
    ensures var was, now := st.procs[p], ProcOf(Next(st, p, c), p);
            && (FailsNow(was, now) ==> Cause(st, was, c, ResultOf(now).value.why))
            && ((exists why :: Cause(st, was, c, why)) ==> FailsNow(was, now))
  {
    hide Shape, Waiters, StepPost;
  }

  lemma FailsOutside(st: State, p: nat, c: Choice)
    requires Shape(st) && p < |st.procs| && Step(st, p, c).Some? && Fits(st, st.procs[p])
    requires !HoldsMaster(st.procs[p]) && !InSlot(st.procs[p]) && !Waiting(st.procs[p])
    ensures var was, now := st.procs[p], ProcOf(Next(st, p, c), p);
            && (FailsNow(was, now) ==> Cause(st, was, c, ResultOf(now).value.why))
            && ((exists why :: Cause(st, was, c, why)) ==> FailsNow(was, now))
  {
    hide Shape, Waiters, StepSubscribe;
  }

  /** In every run a call fails at a step exactly if there is a cause, and for that cause. */
  lemma {:induction false} CallsFailForCause(tr: seq<State>, moves: seq<Move>, k: nat)
    requires Run(tr, moves) && k < |moves|
    ensures var was, now := ProcOf(tr[k], moves[k].p), ProcOf(tr[k + 1], moves[k].p);
            && (FailsNow(was, now) ==> Cause(tr[k], was, moves[k].c, ResultOf(now).value.why))
            && ((exists why :: Cause(tr[k], was, moves[k].c, why)) ==> FailsNow(was, now))
  {
    hide Inv, Step, Shape, Cause, FailsNow;
    StepOf(tr, moves, k);
    FailsIff(tr[k], moves[k].p, moves[k].c);
  }

  // ------------------------------------------------------------ the slot loops

  /** In every run the loops of cleanup and info pass the slots in order; cleanup stops at exactly
      the used ones to free them, info, if asked for details, to look at them under their locks. */
  lemma {:induction false} LoopsVisitUsedSlots(tr: seq<State>, moves: seq<Move>, k: nat)
    requires Run(tr, moves) && k < |moves| && ProcOf(tr[k], moves[k].p).Scan?
    ensures var Scan(op, slot) := ProcOf(tr[k], moves[k].p);
            var now := ProcOf(tr[k + 1], moves[k].p);
            && slot <= |tr[k].table| && (op.Cleanup? || op.Info?)
            && (slot < |tr[k].table| ==>
                  && (now == FreeLock(op, slot) <==> op.Cleanup? && tr[k].table[slot].shmid != 0)
                  && (now == InfoLock(op, slot) <==> op.Info? && op.details && tr[k].table[slot].shmid != 0)
                  && (now == FreeLock(op, slot) || now == InfoLock(op, slot) || now == Scan(op, slot + 1)))
            && (slot == |tr[k].table| ==>
                  now == if op.Cleanup? then RemoveSemaphores(op) else ReleaseMaster(op, Success))
  {
    hide Inv, Shape;
    StepOf(tr, moves, k);
    ProcAt(tr[k], moves[k].p);
  }

  // ------------------------------------------------------------ a finished cleanup

  /** The pool is gone: no semaphores, no master segment, no entry in use, no segment alive. */
  predicate Gone(st: State) {
    && !st.semsAlive && !st.masterAlive
    && (forall s :: 0 <= s < |st.table| ==> st.table[s] == Entry(0, ""))
    && (forall x :: x in st.segs ==> !st.segs[x].live)
  }

  predicate Cleaned(pr: Proc) { pr.Done? && pr.op.Cleanup? && pr.res == Success }

  lemma CleanedBy(st: State, was: Proc, now: Proc)
    requires Follows(was, now) && Cleaned(now) && Fits(st, was)
    ensures was.RemoveMaster?
  {
  }

  lemma MasterGoes(st: State, p: nat, c: Choice)
    requires Shape(st) && p < |st.procs| && Step(st, p, c).Some? && st.procs[p].RemoveMaster?
    ensures !Next(st, p, c).masterAlive
  {
    hide Shape;
  }

  lemma {:induction false} CleanedIsRemoved(tr: seq<State>, moves: seq<Move>, k: nat, p: nat)
    requires Run(tr, moves) && k < |tr| && Cleaned(ProcOf(tr[k], p))
    ensures !tr[k].semsAlive && !tr[k].masterAlive
  {
    hide Inv, Step, Shape, Follows, Fits;
    NobodyCallsYet(tr, moves, p);
    StepOf(tr, moves, k - 1);
    StepFrame(tr[k - 1], moves[k - 1].p, moves[k - 1].c);
    if moves[k - 1].p != p {
      OthersStand(tr, moves, k - 1, p);
      CleanedIsRemoved(tr, moves, k - 1, p);
    } else {
      ProcAt(tr[k - 1], p);
      StepFollows(tr[k - 1], p, moves[k - 1].c);
      CleanedBy(tr[k - 1], tr[k - 1].procs[p], tr[k].procs[p]);
      HolderAt(tr[k - 1], p);
      MasterGoes(tr[k - 1], p, moves[k - 1].c);
    }
  }

  /** In every run, when a cleanup has succeeded the pool is gone. */
  lemma {:induction false} CleanupRemovesThePool(tr: seq<State>, moves: seq<Move>, k: nat, p: nat)
    requires Run(tr, moves) && k < |tr| && Cleaned(ProcOf(tr[k], p))
    ensures Gone(tr[k])
  {
    hide Inv, Step, Shape;
    CleanedIsRemoved(tr, moves, k, p);
    RunKeeps(tr, moves, k);
    PoolSafety.CleanupLeavesNothing(tr[k], p);
  }
}
