/** Which code point a process can move to from where it stands. */
module PoolFlow {
  import opened Arrays
  import opened Table
  import opened Pool
  import opened PoolProof

  predicate FromTable(op: Op, now: Proc) {
    && !now.Idle? && now.op == op
    && match op
       case Cleanup => now == Scan(op, 0)
       case Info(_) => now == Scan(op, 0)
       case Free(_) => now.FreeLock? || now == ReleaseMaster(op, Failed(NotFound)) || now == ReleaseMaster(op, Success)
       case Read(_, wait) =>
         || now == ReleaseMaster(op, Failed(NotFound))
         || (wait.NoWait? && now.LockSlot? && !now.create)
         || (!wait.NoWait? && now.DropMasterToWait?)
       case Write(_, _, _) => now == ReleaseMaster(op, Failed(NoSlotLeft)) || now.LockSlot?
  }

  predicate FromScan(op: Op, now: Proc) {
    && !now.Idle? && now.op == op
    && (op.Cleanup? ==> now.FreeLock? || now.Scan? || now.RemoveSemaphores?)
    && (!op.Cleanup? ==> now.InfoLock? || now.Scan? || now == ReleaseMaster(op, Success))
  }

  predicate FromWait(op: Op, snap: Snapshot, now: Proc) {
    || now == Blocked(op, snap) || now == LockSnapshot(op, snap)
    || (op.Read? && op.wait.Timed? && now == Done(op, Failed(TimedOut)))
    || now == Done(op, Failed(Removed))
  }

  predicate FromAttach(op: Op, snap: Snapshot, now: Proc) {
    || (op.Read? && now == Reading(op, snap, []))
    || (op.Write? && (now == MarkNew(op, snap) || now == Header(op, snap)))
    || now == DropSlot(op, snap, Failed(Stale), 0)
  }

  /** The control flow of the calls. */
  predicate Follows(was: Proc, now: Proc) {
    match was
    case Idle => now.LockMaster? || (now.Done? && now.res == Failed(NoPool))
    case LockMaster(op) => now == InMaster(op) || now == Done(op, Failed(Removed))
    case InMaster(op) => FromTable(op, now)
    case LockSlot(op, slot, create) =>
      || now == (if create then MakeSegment(op, slot) else TakeSnapshot(op, slot, false))
      || now == ReleaseMaster(op, Failed(Removed))
    case MakeSegment(op, slot) => now == UndoLock(op, slot) || (now.Register? && now.op == op && now.slot == slot)
    case UndoLock(op, _) => now == ReleaseMaster(op, Failed(NoSegment))
    case Register(op, slot, _) => now == TakeSnapshot(op, slot, true)
    case TakeSnapshot(op, _, create) => now.DropMaster? && now.op == op && now.create == create
    case DropMaster(op, snap, create) => now == Attach(op, snap, create)
    case DropMasterToWait(op, snap) => now == Subscribe(op, snap)
    case Subscribe(op, snap) => FromWait(op, snap, now)
    case Blocked(op, snap) => FromWait(op, snap, now)
    case LockSnapshot(op, snap) => now == Attach(op, snap, false) || now == Done(op, Failed(Removed))
    case Attach(op, snap, create) => FromAttach(op, snap, now)
    case MarkNew(op, snap) => now == Header(op, snap)
    case Header(op, snap) =>
      now == DropSlot(op, snap, Failed(Incompatible), 0) || (now.Copy? && now.op == op && now.snap == snap)
    case Copy(op, snap, next, ver) => now == Copy(op, snap, next + 1, ver) || now == DropSlot(op, snap, Success, ver)
    case Reading(op, snap, out) =>
      (now.Reading? || (now.DropSlot? && now.res.Got?)) && now.op == op && now.snap == snap
    case DropSlot(op, snap, res, ver) => now == AfterSlot(op, snap, res, ver)
    case CountWaiters(op, snap, ver) => now.Post? && now.op == op && now.snap == snap && now.ver == ver
    case Post(op, snap, _, _) => now == WaitZero(op, snap) || now == Done(op, Failed(Unpublished))
    case WaitZero(op, _) => now == Done(op, Success) || now == Done(op, Failed(Unpublished))
    case FreeLock(op, slot) => now == FreeSegment(op, slot)
    case FreeSegment(op, slot) => now == FreeEntry(op, slot)
    case FreeEntry(op, slot) => now == FreeUnlock(op, slot)
    case FreeUnlock(op, slot) => now == AfterFree(op, slot)
    case Scan(op, _) => FromScan(op, now)
    case InfoLock(op, slot) => now == InfoShow(op, slot)
    case InfoShow(op, slot) => now == InfoUnlock(op, slot)
    case InfoUnlock(op, slot) => now == Scan(op, slot + 1)
    case RemoveSemaphores(op) => now == RemoveMaster(op)
    case RemoveMaster(op) => now == Done(op, Success)
    case ReleaseMaster(op, res) => now == Done(op, res)
    case Done(_, _) => now.Idle?
  }

  /** Every step follows the control flow, and a call begins as it was chosen. */
  lemma StepFollows(st: State, p: nat, c: Choice)
    requires Shape(st) && p < |st.procs| && Step(st, p, c).Some? && Fits(st, st.procs[p])
    ensures Follows(st.procs[p], ProcOf(Next(st, p, c), p))
    ensures st.procs[p].Idle? ==> c.Begin? && !ProcOf(Next(st, p, c), p).Idle? && ProcOf(Next(st, p, c), p).op == c.op
  {
    hide Shape, Step, Follows;
    var pr := st.procs[p];
    if HoldsMaster(pr) {
      if pr.InMaster? || pr.Scan? {
        ScanFollows(st, p, c);
      } else {
        MasterFollows(st, p, c);
      }
    } else if InSlot(pr) {
      if pr.Copy? || pr.Reading? || pr.Header? {
        CopyFollows(st, p, c);
      } else {
        SlotFollows(st, p, c);
      }
    } else {
      OutsideFollows(st, p, c);
    }
  }

  lemma ScanFollows(st: State, p: nat, c: Choice)
    requires Shape(st) && p < |st.procs| && Step(st, p, c).Some? && Fits(st, st.procs[p])
    requires st.procs[p].InMaster? || st.procs[p].Scan?
    ensures Follows(st.procs[p], ProcOf(Next(st, p, c), p))
  {
    hide Shape, Lookup, FreeIndex, Acquire, Release;
  }

  lemma MasterFollows(st: State, p: nat, c: Choice)
    requires Shape(st) && p < |st.procs| && Step(st, p, c).Some? && HoldsMaster(st.procs[p])
    requires !st.procs[p].InMaster? && !st.procs[p].Scan?
    ensures Follows(st.procs[p], ProcOf(Next(st, p, c), p))
  {
    hide Shape, StepInMaster, StepScan;
  }

  lemma CopyFollows(st: State, p: nat, c: Choice)
    requires Shape(st) && p < |st.procs| && Step(st, p, c).Some?
    requires st.procs[p].Copy? || st.procs[p].Reading? || st.procs[p].Header?
    ensures Follows(st.procs[p], ProcOf(Next(st, p, c), p))
  {
    hide Shape, Complete, Parse, Compatible, HeaderDims, StepAttach, Release;
  }

  lemma SlotFollows(st: State, p: nat, c: Choice)
    requires Shape(st) && p < |st.procs| && Step(st, p, c).Some? && InSlot(st.procs[p]) && Fits(st, st.procs[p])
    requires !st.procs[p].Copy? && !st.procs[p].Reading? && !st.procs[p].Header?
    ensures Follows(st.procs[p], ProcOf(Next(st, p, c), p))
  {
    hide Shape, StepHeader, StepCopy, StepReading;
  }

  lemma OutsideFollows(st: State, p: nat, c: Choice)
    requires Shape(st) && p < |st.procs| && Step(st, p, c).Some? && Fits(st, st.procs[p])
    requires !HoldsMaster(st.procs[p]) && !InSlot(st.procs[p])
    ensures Follows(st.procs[p], ProcOf(Next(st, p, c), p))
    ensures st.procs[p].Idle? ==> c.Begin? && !ProcOf(Next(st, p, c), p).Idle? && ProcOf(Next(st, p, c), p).op == c.op
  {
    hide Shape, Waiters;
  }
}
