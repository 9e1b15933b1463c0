/** The pool protocol as a transition system: any number of processes, each inside at most
    one library call, sharing the master table, the semaphore set and the slot segments.
    A step is one kernel call or one store to shared memory; copies move one cell a step. */
module Pool {
  import opened Arrays
  import opened Kernel
  import opened Table

  // ------------------------------------------------------------ shared state

  /** A slot segment: the kernel's record of it and its memory. `id` and `hist` are history
      variables: the slot name it was created for and the writes accepted into it, oldest
      first. */
  datatype Segment = Segment(slot: nat, size: nat, cells: seq<int>, live: bool,
                             id: string, hist: seq<SlotArray>)

  datatype Snapshot = Snapshot(shm: int, lockId: nat, handId: nat)

  /** How `shm_read` waits: `subscribe` zero, negative or positive. */
  datatype Wait = NoWait | Forever | Timed

  datatype Op =
    | Write(id: string, arr: SlotArray, publish: bool)
    | Read(id: string, wait: Wait)
    | Free(id: string)
    | Cleanup
    | Info(details: bool)

  /** Why a call returns -1; the caller is not told. */
  datatype Reason =
    | NoPool | Removed | NotFound | NoSlotLeft | NoSegment | Stale | TimedOut | Incompatible | Unpublished

  datatype Result = Success | Failed(why: Reason) | Got(arr: SlotArray)

  /** Where a process stands. `ver` is a history variable: the version (length of the segment's
      history) that a writer produced. */
  datatype Proc =
    | Idle
    | LockMaster(op: Op)
    | InMaster(op: Op)
    | LockSlot(op: Op, slot: nat, create: bool)
    | MakeSegment(op: Op, slot: nat)
    | UndoLock(op: Op, slot: nat)
    | Register(op: Op, slot: nat, shm: int)
    | TakeSnapshot(op: Op, slot: nat, create: bool)
    | DropMaster(op: Op, snap: Snapshot, create: bool)
    | DropMasterToWait(op: Op, snap: Snapshot)
    | Subscribe(op: Op, snap: Snapshot)
    | Blocked(op: Op, snap: Snapshot)
    | LockSnapshot(op: Op, snap: Snapshot)
    | Attach(op: Op, snap: Snapshot, create: bool)
    | MarkNew(op: Op, snap: Snapshot)
    | Header(op: Op, snap: Snapshot)
    | Copy(op: Op, snap: Snapshot, next: nat, ver: nat)
    | Reading(op: Op, snap: Snapshot, out: seq<int>)
    | DropSlot(op: Op, snap: Snapshot, res: Result, ver: nat)
    | CountWaiters(op: Op, snap: Snapshot, ver: nat)
    | Post(op: Op, snap: Snapshot, ver: nat, numb: int)
    | WaitZero(op: Op, snap: Snapshot)
    | FreeLock(op: Op, slot: nat)
    | FreeSegment(op: Op, slot: nat)
    | FreeEntry(op: Op, slot: nat)
    | FreeUnlock(op: Op, slot: nat)
    | Scan(op: Op, slot: nat)
    | InfoLock(op: Op, slot: nat)
    | InfoShow(op: Op, slot: nat)
    | InfoUnlock(op: Op, slot: nat)
    | RemoveSemaphores(op: Op)
    | RemoveMaster(op: Op)
    | ReleaseMaster(op: Op, res: Result)
    | Done(op: Op, res: Result)

  const NOBODY := -1

  /** `owner`, `posted` and `consumed` are history variables: who took each lock last, and the
      handshake units posted to and consumed from each slot. No guard reads them. */
  datatype State = State(
    sems: seq<int>,
    semsAlive: bool,
    masterAlive: bool,
    table: seq<Entry>,
    segs: map<int, Segment>,
    procs: seq<Proc>,
    owner: seq<int>,
    posted: seq<int>,
    consumed: seq<int>)

  /** What the environment decides at a step: the call to make, the id the kernel gives a new
      segment, a refused creation, a wait that begins, a wait that expires. */
  datatype Choice = Go | Begin(op: Op) | NewSegment(shm: int) | Refuse | Block | Expire

  // Semaphore numbering: 0 is the master, 1..n the slots, n+1..2n the handshakes.

  function LockOf(slot: nat): nat { slot + 1 }

  function HandOf(n: nat, slot: nat): nat { 1 + n + slot }

  function SnapSlot(st: State, slot: nat): Snapshot
    requires slot < |st.table|
  {
    Snapshot(st.table[slot].shmid, LockOf(slot), HandOf(|st.table|, slot))
  }

  // ------------------------------------------------------------ well-formed states

  predicate ValidOp(op: Op) {
    match op
    case Write(id, arr, _) => ValidId(id) && WellFormed(arr)
    case Read(id, _) => ValidId(id)
    case Free(id) => ValidId(id)
    case Cleanup => true
    case Info(_) => true
  }

  predicate NamesSlot(op: Op) { op.Write? || op.Read? || op.Free? }

  predicate SnapFits(st: State, snap: Snapshot) {
    1 <= snap.lockId <= |st.table| && snap.handId == HandOf(|st.table|, snap.lockId - 1)
  }

  predicate Mapped(st: State, snap: Snapshot) {
    SnapFits(st, snap) && snap.shm in st.segs
  }

  /** The part of a process's state that every step takes for granted: operands of the right
      kind and indices in range. */
  predicate Fits(st: State, pr: Proc) {
    var n := |st.table|;
    match pr
    case Idle => true
    case LockMaster(op) => ValidOp(op)
    case InMaster(op) => ValidOp(op)
    case LockSlot(op, slot, create) => ValidOp(op) && slot < n && (op.Write? || (op.Read? && !create))
    case MakeSegment(op, slot) => ValidOp(op) && slot < n && op.Write?
    case UndoLock(op, slot) => ValidOp(op) && slot < n && op.Write?
    case Register(op, slot, shm) => ValidOp(op) && slot < n && op.Write? && shm in st.segs
    case TakeSnapshot(op, slot, create) => ValidOp(op) && slot < n && (op.Write? || (op.Read? && !create))
    case DropMaster(op, snap, create) => ValidOp(op) && SnapFits(st, snap) && (op.Write? || (op.Read? && !create))
    case DropMasterToWait(op, snap) => ValidOp(op) && SnapFits(st, snap) && op.Read?
    case Subscribe(op, snap) => ValidOp(op) && SnapFits(st, snap) && op.Read?
    case Blocked(op, snap) => ValidOp(op) && SnapFits(st, snap) && op.Read?
    case LockSnapshot(op, snap) => ValidOp(op) && SnapFits(st, snap) && op.Read?
    case Attach(op, snap, create) => ValidOp(op) && SnapFits(st, snap) && (op.Write? || (op.Read? && !create))
    case MarkNew(op, snap) => ValidOp(op) && Mapped(st, snap) && op.Write?
    case Header(op, snap) => ValidOp(op) && Mapped(st, snap) && op.Write?
    case Copy(op, snap, _, _) => ValidOp(op) && Mapped(st, snap) && op.Write?
    case Reading(op, snap, _) => ValidOp(op) && Mapped(st, snap) && op.Read?
    case DropSlot(op, snap, res, _) =>
      ValidOp(op) && SnapFits(st, snap) && (op.Write? || op.Read?) && res != Failed(Unpublished)
    case CountWaiters(op, snap, _) => ValidOp(op) && Mapped(st, snap) && op.Write? && op.publish
    case Post(op, snap, _, _) => ValidOp(op) && Mapped(st, snap) && op.Write? && op.publish
    case WaitZero(op, snap) => ValidOp(op) && SnapFits(st, snap) && op.Write? && op.publish
    case FreeLock(op, slot) => ValidOp(op) && slot < n && (op.Free? || op.Cleanup?)
    case FreeSegment(op, slot) => ValidOp(op) && slot < n && (op.Free? || op.Cleanup?)
    case FreeEntry(op, slot) => ValidOp(op) && slot < n && (op.Free? || op.Cleanup?)
    case FreeUnlock(op, slot) => ValidOp(op) && slot < n && (op.Free? || op.Cleanup?)
    case Scan(op, slot) => slot <= n && (op.Cleanup? || op.Info?)
    case InfoLock(op, slot) => slot < n && op.Info?
    case InfoShow(op, slot) => slot < n && op.Info?
    case InfoUnlock(op, slot) => slot < n && op.Info?
    case RemoveSemaphores(op) => op.Cleanup?
    case RemoveMaster(op) => op.Cleanup?
    case ReleaseMaster(op, res) => ValidOp(op) && res != Failed(Unpublished) && (op.Cleanup? ==> res != Success)
    case Done(op, res) => ValidOp(op) && (res == Failed(Unpublished) ==> op.Write? && op.publish)
  }

  predicate Sized(st: State) {
    var n := |st.table|;
    && |st.sems| == 2 * n + 1
    && |st.owner| == n + 1
    && |st.posted| == n
    && |st.consumed| == n
  }

  predicate Shape(st: State) {
    Sized(st) && forall q :: 0 <= q < |st.procs| ==> Fits(st, st.procs[q])
  }

  // ------------------------------------------------------------ elementary effects

  function Goto(st: State, p: nat, pr: Proc): State
    requires p < |st.procs|
  {
    st.(procs := st.procs[p := pr])
  }

  /** `semop` -1 on lock `i`: waits at 0, fails once the set is gone. */
  function Acquire(st: State, p: nat, i: nat, held: Proc, refused: Proc): Option<State>
    requires p < |st.procs| && i < |st.sems| && i < |st.owner|
  {
    if !st.semsAlive then Some(Goto(st, p, refused))
    else match SemOp(st.sems[i], -1)
      case None => None
      case Some(v) => Some(Goto(st, p, held).(sems := st.sems[i := v], owner := st.owner[i := p]))
  }

  /** `semop` +1 on lock `i`; the caller ignores the failure once the set is gone. */
  function Release(st: State, p: nat, i: nat, pr: Proc): State
    requires p < |st.procs| && i < |st.sems| && i < |st.owner|
  {
    var st' := Goto(st, p, pr).(owner := st.owner[i := NOBODY]);
    if !st.semsAlive then st'
    else match SemOp(st.sems[i], 1)
      case None => st'
      case Some(v) => st'.(sems := st.sems[i := v])
  }

  function SetSegment(st: State, p: nat, shm: int, seg: Segment, pr: Proc): State
    requires p < |st.procs|
  {
    Goto(st, p, pr).(segs := st.segs[shm := seg])
  }

  function SetEntry(st: State, p: nat, slot: nat, e: Entry, pr: Proc): State
    requires p < |st.procs| && slot < |st.table|
  {
    Goto(st, p, pr).(table := st.table[slot := e])
  }

  function Load(cells: seq<int>, k: nat): int {
    if k < |cells| then cells[k] else 0
  }

  function Store(cells: seq<int>, k: nat, v: int): seq<int> {
    if k < |cells| then cells[k := v] else cells
  }

  /** The dimension words of a header, as the consistency check reads them. */
  function HeaderDims(cells: seq<int>): seq<int> {
    var nd := Load(cells, 1);
    if 0 <= nd && 2 + nd <= |cells| then cells[2..2 + nd] else []
  }

  /** GETNCNT: how many processes sleep in a decrement of semaphore `h`. */
  function Waiters(procs: seq<Proc>, h: nat): nat {
    if procs == [] then 0
    else
      var last := procs[|procs| - 1];
      Waiters(procs[..|procs| - 1], h) + (if last.Blocked? && last.snap.handId == h then 1 else 0)
  }

  // ------------------------------------------------------------ steps

  /** acquire_slot and shm_free once the master lock is held: one scan of the table, which
      nobody else can change meanwhile. */
  function StepInMaster(st: State, p: nat, op: Op): State
    requires Shape(st) && p < |st.procs| && st.procs[p] == InMaster(op)
  {
    match op
    case Cleanup => Goto(st, p, Scan(op, 0))
    case Info(_) => Goto(st, p, Scan(op, 0))
    case Free(id) =>
      (match Lookup(st.table, id)
       case None => Goto(st, p, ReleaseMaster(op, Failed(NotFound)))
       case Some(s) =>
         if st.table[s].shmid != 0 then Goto(st, p, FreeLock(op, s))
         else Goto(st, p, ReleaseMaster(op, Success)))
    case Read(id, wait) =>
      (match Lookup(st.table, id)
       case None => Goto(st, p, ReleaseMaster(op, Failed(NotFound)))
       case Some(s) =>
         if wait.NoWait? then Goto(st, p, LockSlot(op, s, false))
         else Goto(st, p, DropMasterToWait(op, SnapSlot(st, s))))
    case Write(id, _, _) =>
      (match Lookup(st.table, id)
       case Some(s) => Goto(st, p, LockSlot(op, s, false))
       case None =>
         match FreeIndex(st.table)
         case None => Goto(st, p, ReleaseMaster(op, Failed(NoSlotLeft)))
         case Some(s) => Goto(st, p, LockSlot(op, s, true)))
  }

  /** A new segment may be made only if no live segment carries the key key+slot+1. */
  predicate KeyTaken(segs: map<int, Segment>, slot: nat) {
    exists x :: x in segs && segs[x].live && segs[x].slot == slot
  }

  function NewSegmentFor(op: Op, slot: nat): Segment
    requires op.Write?
  {
    var size := ShmBytes(op.arr);
    Segment(slot, size, seq(size, _ => 0), true, op.id, [])
  }

  function StepMakeSegment(st: State, p: nat, op: Op, slot: nat, c: Choice): Option<State>
    requires Shape(st) && p < |st.procs| && st.procs[p] == MakeSegment(op, slot)
  {
    if c.NewSegment? && c.shm > 0 && c.shm !in st.segs && !KeyTaken(st.segs, slot) then
      Some(SetSegment(st, p, c.shm, NewSegmentFor(op, slot), Register(op, slot, c.shm)))
    else if c.Refuse? then Some(Goto(st, p, UndoLock(op, slot)))
    else None
  }

  /** subscribe_snapshot: consume one handshake unit, or sleep, or give up. A sleeper is
      counted by GETNCNT; a caller polling with IPC_NOWAIT is not and stays at Subscribe. */
  function StepSubscribe(st: State, p: nat, op: Op, snap: Snapshot, c: Choice): Option<State>
    requires Shape(st) && p < |st.procs|
    requires st.procs[p] == Subscribe(op, snap) || st.procs[p] == Blocked(op, snap)
  {
    if c.Expire? && op.wait.Timed? then Some(Goto(st, p, Done(op, Failed(TimedOut))))
    else if !st.semsAlive then (if c.Go? then Some(Goto(st, p, Done(op, Failed(Removed)))) else None)
    else
      match SemOp(st.sems[snap.handId], -1)
      case None => if c.Block? then Some(Goto(st, p, Blocked(op, snap))) else None
      case Some(v) =>
        if !c.Go? then None
        else
          var s := snap.lockId - 1;
          Some(Goto(st, p, LockSnapshot(op, snap)).(
               sems := st.sems[snap.handId := v],
               consumed := st.consumed[s := st.consumed[s] + 1]))
  }

  /** shmat, which finds the segment unless it has been removed. */
  function StepAttach(st: State, p: nat, op: Op, snap: Snapshot, create: bool): State
    requires Shape(st) && p < |st.procs| && st.procs[p] == Attach(op, snap, create)
  {
    if snap.shm in st.segs && st.segs[snap.shm].live then
      Goto(st, p, if op.Read? then Reading(op, snap, [])
                  else if create then MarkNew(op, snap)
                  else Header(op, snap))
    else Goto(st, p, DropSlot(op, snap, Failed(Stale), 0))
  }

  /** The writer looks at the header: a marked segment is filled from its first cell, an
      existing one is checked and only its payload is overwritten. */
  function StepHeader(st: State, p: nat, op: Op, snap: Snapshot): State
    requires Shape(st) && p < |st.procs| && st.procs[p] == Header(op, snap)
  {
    var seg := st.segs[snap.shm];
    var accepted := seg.(hist := seg.hist + [op.arr]);
    if Load(seg.cells, 0) == UNSET_TYPE then
      SetSegment(st, p, snap.shm, accepted, Copy(op, snap, 0, |accepted.hist|))
    else if Compatible(op.arr, Load(seg.cells, 0), HeaderDims(seg.cells)) && Load(seg.cells, 1) == |op.arr.dims| then
      SetSegment(st, p, snap.shm, accepted, Copy(op, snap, HeaderLength(op.arr), |accepted.hist|))
    else Goto(st, p, DropSlot(op, snap, Failed(Incompatible), 0))
  }

  function StepCopy(st: State, p: nat, op: Op, snap: Snapshot, next: nat, ver: nat): State
    requires Shape(st) && p < |st.procs| && st.procs[p] == Copy(op, snap, next, ver)
  {
    if next < |Image(op.arr)| then
      var seg := st.segs[snap.shm];
      SetSegment(st, p, snap.shm, seg.(cells := Store(seg.cells, next, Image(op.arr)[next])),
                 Copy(op, snap, next + 1, ver))
    else Goto(st, p, DropSlot(op, snap, Success, ver))
  }

  function StepReading(st: State, p: nat, op: Op, snap: Snapshot, out: seq<int>): State
    requires Shape(st) && p < |st.procs| && st.procs[p] == Reading(op, snap, out)
  {
    if Complete(out) then Goto(st, p, DropSlot(op, snap, Got(Parse(out)), 0))
    else Goto(st, p, Reading(op, snap, out + [Load(st.segs[snap.shm].cells, |out|)]))
  }

  function AfterSlot(op: Op, snap: Snapshot, res: Result, ver: nat): Proc {
    if op.Write? && op.publish && res.Success? then CountWaiters(op, snap, ver) else Done(op, res)
  }

  /** publish_snapshot, first half: GETNCNT answers -1 once the set is gone. */
  function StepCount(st: State, p: nat, op: Op, snap: Snapshot, ver: nat): State
    requires Shape(st) && p < |st.procs| && st.procs[p] == CountWaiters(op, snap, ver)
  {
    Goto(st, p, Post(op, snap, ver, if st.semsAlive then Waiters(st.procs, snap.handId) else -1))
  }

  /** publish_snapshot, second half: posting `numb` units is itself a wait for zero when
      nobody was counted. */
  function StepPost(st: State, p: nat, op: Op, snap: Snapshot, ver: nat, numb: int): Option<State>
    requires Shape(st) && p < |st.procs| && st.procs[p] == Post(op, snap, ver, numb)
  {
    if !st.semsAlive then Some(Goto(st, p, Done(op, Failed(Unpublished))))
    else
      match SemOp(st.sems[snap.handId], numb)
      case None => None
      case Some(v) =>
        var s := snap.lockId - 1;
        Some(Goto(st, p, WaitZero(op, snap)).(
             sems := st.sems[snap.handId := v],
             posted := st.posted[s := st.posted[s] + numb]))
  }

  function StepWaitZero(st: State, p: nat, op: Op, snap: Snapshot): Option<State>
    requires Shape(st) && p < |st.procs| && st.procs[p] == WaitZero(op, snap)
  {
    if !st.semsAlive then Some(Goto(st, p, Done(op, Failed(Unpublished))))
    else
      match SemOp(st.sems[snap.handId], 0)
      case None => None
      case Some(_) => Some(Goto(st, p, Done(op, Success)))
  }

  /** shmctl IPC_RMID on the segment the table names. */
  function StepFreeSegment(st: State, p: nat, op: Op, slot: nat): State
    requires Shape(st) && p < |st.procs| && st.procs[p] == FreeSegment(op, slot)
  {
    var x := st.table[slot].shmid;
    if x in st.segs then SetSegment(st, p, x, st.segs[x].(live := false), FreeEntry(op, slot))
    else Goto(st, p, FreeEntry(op, slot))
  }

  function AfterFree(op: Op, slot: nat): Proc {
    if op.Free? then ReleaseMaster(op, Success) else Scan(op, slot + 1)
  }

  /** One iteration of the slot loops of shm_cleanup and shm_info. */
  function StepScan(st: State, p: nat, op: Op, slot: nat): State
    requires Shape(st) && p < |st.procs| && st.procs[p] == Scan(op, slot)
  {
    if slot == |st.table| then
      Goto(st, p, if op.Cleanup? then RemoveSemaphores(op) else ReleaseMaster(op, Success))
    else if st.table[slot].shmid != 0 && (op.Cleanup? || op.details) then
      Goto(st, p, if op.Cleanup? then FreeLock(op, slot) else InfoLock(op, slot))
    else Goto(st, p, Scan(op, slot + 1))
  }

  /** The process is between taking and dropping the master lock. */
  predicate HoldsMaster(pr: Proc) {
    || pr.InMaster? || pr.LockSlot? || pr.MakeSegment? || pr.UndoLock? || pr.Register?
    || pr.TakeSnapshot? || pr.DropMaster? || pr.DropMasterToWait? || pr.FreeLock?
    || pr.FreeSegment? || pr.FreeEntry? || pr.FreeUnlock? || pr.Scan? || pr.InfoLock?
    || pr.InfoShow? || pr.InfoUnlock? || pr.RemoveSemaphores? || pr.RemoveMaster?
    || pr.ReleaseMaster?
  }

  /** The process has its snapshot's slot lock and no other. */
  predicate InSlot(pr: Proc) {
    pr.Attach? || pr.MarkNew? || pr.Header? || pr.Copy? || pr.Reading? || pr.DropSlot?
  }

  /** Process `p` as `st` has it. */
  function ProcOf(st: State, p: nat): Proc {
    if p < |st.procs| then st.procs[p] else Idle
  }

  /** A step moves one process and never resizes the table. */
  predicate OnlyMoves(st: State, p: nat, st': State) {
    && |st'.procs| == |st.procs| && |st'.table| == |st.table|
    && p < |st.procs| && st'.procs == st.procs[p := st'.procs[p]]
  }

  /** Steps taken while the master lock is held. */
  function StepUnderMaster(st: State, p: nat, c: Choice): Option<State>
    requires Shape(st) && p < |st.procs|
  {
    match st.procs[p]
    case InMaster(op) => Some(StepInMaster(st, p, op))
    case LockSlot(op, slot, create) =>
      Acquire(st, p, LockOf(slot), if create then MakeSegment(op, slot) else TakeSnapshot(op, slot, false),
              ReleaseMaster(op, Failed(Removed)))
    case MakeSegment(op, slot) => StepMakeSegment(st, p, op, slot, c)
    case UndoLock(op, slot) => Some(Release(st, p, LockOf(slot), ReleaseMaster(op, Failed(NoSegment))))
    case Register(op, slot, shm) =>
      Some(SetEntry(st, p, slot, Entry(shm, Stored(op.id)), TakeSnapshot(op, slot, true)))
    case TakeSnapshot(op, slot, create) => Some(Goto(st, p, DropMaster(op, SnapSlot(st, slot), create)))
    case DropMaster(op, snap, create) => Some(Release(st, p, 0, Attach(op, snap, create)))
    case DropMasterToWait(op, snap) => Some(Release(st, p, 0, Subscribe(op, snap)))
    case FreeLock(op, slot) => Acquire(st, p, LockOf(slot), FreeSegment(op, slot), FreeSegment(op, slot))
    case FreeSegment(op, slot) => Some(StepFreeSegment(st, p, op, slot))
    case FreeEntry(op, slot) => Some(SetEntry(st, p, slot, Entry(0, ""), FreeUnlock(op, slot)))
    case FreeUnlock(op, slot) => Some(Release(st, p, LockOf(slot), AfterFree(op, slot)))
    case Scan(op, slot) => Some(StepScan(st, p, op, slot))
    case InfoLock(op, slot) => Acquire(st, p, LockOf(slot), InfoShow(op, slot), InfoShow(op, slot))
    case InfoShow(op, slot) => Some(Goto(st, p, InfoUnlock(op, slot)))
    case InfoUnlock(op, slot) => Some(Release(st, p, LockOf(slot), Scan(op, slot + 1)))
    case RemoveSemaphores(op) => Some(Goto(st, p, RemoveMaster(op)).(semsAlive := false))
    case RemoveMaster(op) =>
      Some(Goto(st, p, Done(op, Success)).(masterAlive := false, owner := st.owner[0 := NOBODY]))
    case ReleaseMaster(op, res) => Some(Release(st, p, 0, Done(op, res)))
    case _ => None
  }

  /** Steps taken with just the slot lock held. */
  function StepInSlot(st: State, p: nat, c: Choice): Option<State>
    requires Shape(st) && p < |st.procs|
  {
    match st.procs[p]
    case Attach(op, snap, create) => Some(StepAttach(st, p, op, snap, create))
    case MarkNew(op, snap) =>
      var seg := st.segs[snap.shm];
      Some(SetSegment(st, p, snap.shm, seg.(cells := Store(seg.cells, 0, UNSET_TYPE)), Header(op, snap)))
    case Header(op, snap) => Some(StepHeader(st, p, op, snap))
    case Copy(op, snap, next, ver) => Some(StepCopy(st, p, op, snap, next, ver))
    case Reading(op, snap, out) => Some(StepReading(st, p, op, snap, out))
    case DropSlot(op, snap, res, ver) => Some(Release(st, p, snap.lockId, AfterSlot(op, snap, res, ver)))
    case _ => None
  }

  /** Steps taken without any lock. */
  function StepOutside(st: State, p: nat, c: Choice): Option<State>
    requires Shape(st) && p < |st.procs|
  {
    match st.procs[p]
    case Idle =>
      if c.Begin? && ValidOp(c.op) then
        Some(Goto(st, p, if st.masterAlive then LockMaster(c.op) else Done(c.op, Failed(NoPool))))
      else None
    case LockMaster(op) => Acquire(st, p, 0, InMaster(op), Done(op, Failed(Removed)))
    case Subscribe(op, snap) => StepSubscribe(st, p, op, snap, c)
    case Blocked(op, snap) => if c.Block? then None else StepSubscribe(st, p, op, snap, c)
    case LockSnapshot(op, snap) =>
      Acquire(st, p, snap.lockId, Attach(op, snap, false), Done(op, Failed(Removed)))
    case CountWaiters(op, snap, ver) => Some(StepCount(st, p, op, snap, ver))
    case Post(op, snap, ver, numb) => StepPost(st, p, op, snap, ver, numb)
    case WaitZero(op, snap) => StepWaitZero(st, p, op, snap)
    case Done(_, _) => Some(Goto(st, p, Idle))
    case _ => None
  }

  /** The state after process `p` moves, or None if it cannot move that way now. */
  function Step(st: State, p: nat, c: Choice): Option<State>
    requires Shape(st) && p < |st.procs|
  {
    if HoldsMaster(st.procs[p]) then StepUnderMaster(st, p, c)
    else if InSlot(st.procs[p]) then StepInSlot(st, p, c)
    else StepOutside(st, p, c)
  }

  // ------------------------------------------------------------ runs

  /** The pool as shm_init leaves it, with `procs` processes yet to make a call. */
  function Initial(n: nat, procs: nat): State {
    State(InitialSems(n), true, true, EmptyTable(n), map[], seq(procs, _ => Idle),
          seq(n + 1, _ => NOBODY), seq(n, _ => 0), seq(n, _ => 0))
  }

  /** Locks free, handshakes empty. */
  function InitialSems(n: nat): (s: seq<int>)
    ensures |s| == 2 * n + 1
  {
    seq(2 * n + 1, i => if i <= n then 1 else 0)
  }

  datatype Move = Move(p: nat, c: Choice)

  ghost predicate Steps(st: State, m: Move, st': State) {
    Shape(st) && m.p < |st.procs| && Step(st, m.p, m.c) == Some(st')
  }

  ghost predicate StepAt(tr: seq<State>, moves: seq<Move>, i: int) {
    0 <= i < |moves| && |tr| == |moves| + 1 && Steps(tr[i], moves[i], tr[i + 1])
  }

  /** A run: the states visited, and the moves between them. */
  ghost predicate Run(tr: seq<State>, moves: seq<Move>) {
    && |tr| == |moves| + 1
    && (exists n: nat, procs: nat :: tr[0] == Initial(n, procs))
    && (forall i :: 0 <= i < |moves| ==> StepAt(tr, moves, i))
  }
}
