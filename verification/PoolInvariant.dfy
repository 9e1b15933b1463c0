/** What every reachable state of the pool satisfies, and why each step keeps it. */
module PoolInvariant {
  import opened Arrays
  import opened Table
  import opened Pool

  // ------------------------------------------------------------ who holds what

  /** The slot lock a process holds, 0 if none. */
  function HeldSlot(pr: Proc): nat {
    match pr
    case MakeSegment(_, slot) => LockOf(slot)
    case UndoLock(_, slot) => LockOf(slot)
    case Register(_, slot, _) => LockOf(slot)
    case TakeSnapshot(_, slot, _) => LockOf(slot)
    case DropMaster(_, snap, _) => snap.lockId
    case Attach(_, snap, _) => snap.lockId
    case MarkNew(_, snap) => snap.lockId
    case Header(_, snap) => snap.lockId
    case Copy(_, snap, _, _) => snap.lockId
    case Reading(_, snap, _) => snap.lockId
    case DropSlot(_, snap, _, _) => snap.lockId
    case FreeSegment(_, slot) => LockOf(slot)
    case FreeEntry(_, slot) => LockOf(slot)
    case FreeUnlock(_, slot) => LockOf(slot)
    case InfoShow(_, slot) => LockOf(slot)
    case InfoUnlock(_, slot) => LockOf(slot)
    case _ => 0
  }

  predicate Holds(pr: Proc, i: nat) {
    if i == 0 then HoldsMaster(pr) else HeldSlot(pr) == i
  }

  predicate IsProc(st: State, q: int) { 0 <= q < |st.procs| }

  ghost predicate LockInv(st: State)
    requires Sized(st)
  {
    && (forall q :: 0 <= q < |st.procs| ==> (HoldsMaster(st.procs[q]) <==> st.owner[0] == q))
    && (forall q :: 0 <= q < |st.procs| && HeldSlot(st.procs[q]) != 0 ==>
          HeldSlot(st.procs[q]) <= |st.table| && st.owner[HeldSlot(st.procs[q])] == q)
    && (forall i :: 0 <= i <= |st.table| ==>
          st.owner[i] == NOBODY || (IsProc(st, st.owner[i]) && Holds(st.procs[st.owner[i]], i)))
    && (st.semsAlive ==> forall i :: 0 <= i <= |st.table| ==> st.sems[i] == if st.owner[i] == NOBODY then 1 else 0)
    && (forall q :: 0 <= q < |st.procs| && HoldsMaster(st.procs[q]) ==> (st.procs[q].RemoveMaster? <==> !st.semsAlive))
  }

  // ------------------------------------------------------------ segments

  /** Between accepted writes a segment's cells start with the image of its history. */
  predicate Settled(seg: Segment) {
    seg.hist != [] && Image(View(seg.hist)) <= seg.cells
  }

  /** `pr` is on its way to lay down the contents of segment `x`. */
  predicate Filling(st: State, pr: Proc, x: int) {
    match pr
    case Register(_, _, shm) => shm == x
    case TakeSnapshot(_, slot, create) => create && slot < |st.table| && st.table[slot].shmid == x
    case DropMaster(_, snap, create) => create && snap.shm == x
    case Attach(_, snap, create) => create && snap.shm == x
    case MarkNew(_, snap) => snap.shm == x
    case Header(_, snap) => snap.shm == x && x in st.segs && st.segs[x].hist == []
    case Copy(_, snap, _, _) => snap.shm == x
    case _ => false
  }

  ghost predicate SegmentOk(st: State, x: int)
    requires Sized(st) && x in st.segs
  {
    var seg := st.segs[x];
    && x > 0
    && seg.slot < |st.table|
    && |seg.cells| == seg.size
    && ValidId(seg.id)
    && ValidHistory(seg.hist)
    && (seg.hist != [] ==> seg.size == ShmBytes(seg.hist[0]))
    && (Settled(seg) || (IsProc(st, st.owner[seg.slot + 1]) && Filling(st, st.procs[st.owner[seg.slot + 1]], x)))
  }

  ghost predicate SegmentsInv(st: State)
    requires Sized(st)
  {
    forall x :: x in st.segs ==> SegmentOk(st, x)
  }

  // ------------------------------------------------------------ the table

  predicate Registering(st: State, x: int)
    requires |st.owner| > 0
  {
    IsProc(st, st.owner[0]) && st.procs[st.owner[0]].Register? && st.procs[st.owner[0]].shm == x
  }

  predicate Clearing(st: State, slot: nat)
    requires slot + 1 < |st.owner|
  {
    IsProc(st, st.owner[slot + 1]) && st.procs[st.owner[slot + 1]].FreeEntry?
  }

  ghost predicate EntryOk(st: State, s: nat)
    requires Sized(st) && s < |st.table|
  {
    var e := st.table[s];
    && EntryMarked(e)
    && (e.shmid != 0 ==>
      && e.shmid in st.segs
      && st.segs[e.shmid].slot == s
      && st.segs[e.shmid].id == e.desc
      && (st.segs[e.shmid].live || Clearing(st, s)))
  }

  ghost predicate TableInv(st: State)
    requires Sized(st)
  {
    && (forall s :: 0 <= s < |st.table| ==> EntryOk(st, s))
    && DistinctIds(st.table)
    && (forall x :: x in st.segs && st.segs[x].live && st.segs[x].slot < |st.table| ==>
          st.table[st.segs[x].slot].shmid == x || Registering(st, x))
    && (!st.semsAlive ==> forall s :: 0 <= s < |st.table| ==> st.table[s].shmid == 0)
  }

  // ------------------------------------------------------------ handshakes

  ghost predicate HandshakeInv(st: State)
    requires Sized(st)
  {
    st.semsAlive ==>
      forall s :: 0 <= s < |st.table| ==> st.sems[HandOf(|st.table|, s)] == st.posted[s] - st.consumed[s] >= 0
  }

  // ------------------------------------------------------------ processes

  predicate Fresh(seg: Segment, op: Op)
    requires op.Write?
  {
    seg.live && seg.hist == [] && seg.size == ShmBytes(op.arr)
  }

  /** A snapshot names a segment made for the slot and the id of the call, for ever. */
  predicate SnapOk(st: State, op: Op, snap: Snapshot)
    requires NamesSlot(op)
  {
    && Mapped(st, snap)
    && st.segs[snap.shm].slot == snap.lockId - 1
    && st.segs[snap.shm].id == op.id
  }

  /** Version `ver` of the segment was the accepted write of `a`. */
  predicate IsVersion(seg: Segment, ver: nat, a: SlotArray) {
    0 < ver <= |seg.hist| && seg.hist[ver - 1] == a
  }

  /** The first `k` slots are empty, if the call is a cleanup. */
  predicate SweptTo(st: State, op: Op, k: nat) {
    op.Cleanup? ==> forall s :: 0 <= s < k && s < |st.table| ==> st.table[s].shmid == 0
  }

  /** The call is about to empty slot `slot`: the one it names, or the next of a cleanup. */
  predicate Freeing(st: State, op: Op, slot: nat)
    requires slot < |st.table|
  {
    SweptTo(st, op, slot) && (op.Free? ==> st.table[slot].desc == op.id)
  }

  /** What a process at work on the table knows about it. */
  ghost predicate TableFacts(st: State, pr: Proc)
    requires Fits(st, pr)
  {
    match pr
    case LockSlot(op, slot, create) =>
      if create then st.table[slot].shmid == 0 && Lookup(st.table, op.id).None?
      else st.table[slot].desc == op.id
    case MakeSegment(op, slot) => st.table[slot].shmid == 0 && Lookup(st.table, op.id).None?
    case Register(op, slot, shm) =>
      && st.table[slot].shmid == 0 && Lookup(st.table, op.id).None?
      && st.segs[shm].slot == slot && st.segs[shm].id == op.id && Fresh(st.segs[shm], op)
    case TakeSnapshot(op, slot, create) =>
      var x := st.table[slot].shmid;
      && st.table[slot].desc == op.id && x in st.segs
      && st.segs[x].slot == slot && st.segs[x].live
      && (create ==> Fresh(st.segs[x], op))
    case FreeLock(op, slot) => st.table[slot].shmid != 0 && Freeing(st, op, slot)
    case FreeSegment(op, slot) => st.table[slot].shmid != 0 && Freeing(st, op, slot)
    case FreeEntry(op, slot) =>
      var x := st.table[slot].shmid;
      x in st.segs && st.segs[x].slot == slot && !st.segs[x].live && Freeing(st, op, slot)
    case FreeUnlock(op, slot) => SweptTo(st, op, slot + 1)
    case Scan(op, slot) => SweptTo(st, op, slot)
    case RemoveSemaphores(op) => SweptTo(st, op, |st.table|)
    case _ => true
  }

  /** What a process holding a snapshot knows about its segment. */
  ghost predicate SnapFacts(st: State, pr: Proc)
    requires Fits(st, pr)
  {
    match pr
    case DropMaster(op, snap, create) =>
      SnapOk(st, op, snap) && st.segs[snap.shm].live && (create ==> Fresh(st.segs[snap.shm], op))
    case DropMasterToWait(op, snap) => SnapOk(st, op, snap)
    case Subscribe(op, snap) => SnapOk(st, op, snap)
    case Blocked(op, snap) => SnapOk(st, op, snap)
    case LockSnapshot(op, snap) => SnapOk(st, op, snap)
    case Attach(op, snap, create) =>
      && SnapOk(st, op, snap)
      && (op.Write? ==> st.segs[snap.shm].live)
      && (create ==> Fresh(st.segs[snap.shm], op))
    case MarkNew(op, snap) => SnapOk(st, op, snap) && Fresh(st.segs[snap.shm], op)
    case Header(op, snap) =>
      var seg := st.segs[snap.shm];
      && SnapOk(st, op, snap) && seg.live
      && (seg.hist == [] ==> Fresh(seg, op) && Load(seg.cells, 0) == UNSET_TYPE)
    case DropSlot(op, snap, res, ver) =>
      && SnapOk(st, op, snap)
      && (op.Write? && res.Success? ==> st.segs[snap.shm].live && IsVersion(st.segs[snap.shm], ver, op.arr))
    case CountWaiters(op, snap, ver) => SnapOk(st, op, snap) && IsVersion(st.segs[snap.shm], ver, op.arr)
    case Post(op, snap, ver, numb) =>
      SnapOk(st, op, snap) && IsVersion(st.segs[snap.shm], ver, op.arr) && (st.semsAlive ==> numb >= 0)
    case WaitZero(op, snap) => SnapOk(st, op, snap)
    case _ => true
  }

  /** What a process copying cells knows about the part already copied. */
  ghost predicate CopyFacts(st: State, pr: Proc)
    requires Fits(st, pr)
  {
    match pr
    case Copy(op, snap, next, ver) =>
      var seg := st.segs[snap.shm];
      && SnapOk(st, op, snap) && seg.live
      && ver == |seg.hist| > 0 && seg.hist[ver - 1] == op.arr
      && (HeaderLength(op.arr) <= next || seg.hist == [op.arr])
      && next <= |Image(op.arr)| == |Image(View(seg.hist))| <= |seg.cells|
      && seg.cells[..next] == Image(View(seg.hist))[..next]
    case Reading(op, snap, out) =>
      var seg := st.segs[snap.shm];
      && SnapOk(st, op, snap) && seg.live
      && seg.hist != [] && out <= Image(View(seg.hist))
    case _ => true
  }

  ghost predicate ProcOk(st: State, pr: Proc)
    requires Fits(st, pr)
  {
    TableFacts(st, pr) && SnapFacts(st, pr) && CopyFacts(st, pr)
  }

  ghost predicate ProcsInv(st: State) {
    forall q :: 0 <= q < |st.procs| ==> Fits(st, st.procs[q]) && ProcOk(st, st.procs[q])
  }

  ghost predicate Inv(st: State) {
    Sized(st) && LockInv(st) && SegmentsInv(st) && TableInv(st) && HandshakeInv(st) && ProcsInv(st)
  }

  // ------------------------------------------------------------ frames

  /** Segments keep their identity, histories grow, and the segments of the slot lock that
      `pr` holds stay as they are. */
  ghost predicate SegmentsKept(st: State, st': State, pr: Proc) {
    && (forall x :: x in st.segs ==> x in st'.segs)
    && (forall x :: x in st.segs ==>
          var a, b := st.segs[x], st'.segs[x];
          && a.slot == b.slot && a.id == b.id && a.size == b.size && a.hist <= b.hist
          && (HeldSlot(pr) == a.slot + 1 ==> a.hist == b.hist && a.cells == b.cells && a.live == b.live))
  }

  /** What a process knows survives any step of another process: the locks it holds protect
      the rest. */
  lemma Undisturbed(st: State, st': State, pr: Proc)
    requires Fits(st, pr) && ProcOk(st, pr)
    requires |st'.table| == |st.table|
    requires HoldsMaster(pr) ==> st'.table == st.table
    requires SegmentsKept(st, st', pr)
    requires st'.semsAlive ==> st.semsAlive
    ensures Fits(st', pr) && ProcOk(st', pr)
  {
    FitsUndisturbed(st, st', pr);
    TableUndisturbed(st, st', pr);
    SnapUndisturbed(st, st', pr);
  }

  lemma FitsUndisturbed(st: State, st': State, pr: Proc)
    requires Fits(st, pr)
    requires |st'.table| == |st.table|
    requires SegmentsKept(st, st', pr)
    ensures Fits(st', pr)
  {
  }

  lemma TableUndisturbed(st: State, st': State, pr: Proc)
    requires Fits(st, pr) && TableFacts(st, pr) && Fits(st', pr)
    requires HoldsMaster(pr) ==> st'.table == st.table
    requires SegmentsKept(st, st', pr)
    ensures TableFacts(st', pr)
  {
  }

  lemma SnapUndisturbed(st: State, st': State, pr: Proc)
    requires Fits(st, pr) && SnapFacts(st, pr) && CopyFacts(st, pr) && Fits(st', pr)
    requires |st'.table| == |st.table|
    requires SegmentsKept(st, st', pr)
    requires st'.semsAlive ==> st.semsAlive
    ensures SnapFacts(st', pr) && CopyFacts(st', pr)
  {
  }
}
