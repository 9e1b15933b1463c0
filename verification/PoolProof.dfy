/** The invariant holds in every state of every run. */
module PoolProof {
  import opened Arrays
  import opened Table
  import opened Pool
  import opened PoolInvariant
  import opened PoolSteps

  lemma InvShape(st: State)
    requires Inv(st)
    ensures Shape(st)
  {
  }

  ghost predicate CanStep(st: State, p: nat, c: Choice) {
    Inv(st) && Shape(st) && p < |st.procs| && Step(st, p, c).Some?
  }

  function Next(st: State, p: nat, c: Choice): State
    requires Shape(st) && p < |st.procs| && Step(st, p, c).Some?
  {
    Step(st, p, c).value
  }

  // ------------------------------------------------------------ reading one fact off the invariant

  lemma ProcAt(st: State, p: nat)
    requires Inv(st) && p < |st.procs|
    ensures Fits(st, st.procs[p]) && ProcOk(st, st.procs[p])
  {
  }

  lemma SegmentAt(st: State, x: int)
    requires Inv(st) && x in st.segs
    ensures Sized(st) && SegmentOk(st, x)
  {
  }

  lemma EntryAt(st: State, s: nat)
    requires Inv(st) && s < |st.table|
    ensures Sized(st) && EntryOk(st, s)
  {
  }

  lemma HolderAt(st: State, p: nat)
    requires Inv(st) && p < |st.procs|
    ensures Sized(st)
    ensures HoldsMaster(st.procs[p]) ==> st.owner[0] == p && (st.procs[p].RemoveMaster? <==> !st.semsAlive)
    ensures HeldSlot(st.procs[p]) != 0 ==> HeldSlot(st.procs[p]) <= |st.table| && st.owner[HeldSlot(st.procs[p])] == p
  {
  }

  lemma FreeAt(st: State, i: nat)
    requires Inv(st) && i <= |st.table|
    ensures Sized(st) && (st.semsAlive ==> st.sems[i] == if st.owner[i] == NOBODY then 1 else 0)
  {
  }

  // ------------------------------------------------------------ at the table

  lemma InMasterKeeps(st: State, p: nat, c: Choice)
    requires CanStep(st, p, c) && st.procs[p].InMaster?
    ensures Inv(Next(st, p, c))
  {
    hide Inv;
    ProcAt(st, p);
    HolderAt(st, p);
    var op := st.procs[p].op;
    var pr := Next(st, p, c).procs[p];
    if NamesSlot(op) {
      var found := Lookup(st.table, op.id);
      if found.Some? { EntryAt(st, found.value); }
    }
    GotoStep(st, p, pr);
  }

  lemma LockSlotKeeps(st: State, p: nat, c: Choice)
    requires CanStep(st, p, c) && st.procs[p].LockSlot?
    ensures Inv(Next(st, p, c))
  {
    hide Inv;
    ProcAt(st, p);
    HolderAt(st, p);
    var pr := st.procs[p];
    var next := if pr.create then MakeSegment(pr.op, pr.slot) else TakeSnapshot(pr.op, pr.slot, false);
    EntryAt(st, pr.slot);
    FreeAt(st, pr.slot + 1);
    AcquireStep(st, p, LockOf(pr.slot), next, ReleaseMaster(pr.op, Failed(Removed)));
  }

  lemma MakeSegmentKeeps(st: State, p: nat, c: Choice)
    requires CanStep(st, p, c) && st.procs[p].MakeSegment?
    ensures Inv(Next(st, p, c))
  {
    hide Inv;
    ProcAt(st, p);
    HolderAt(st, p);
    var pr := st.procs[p];
    if c.NewSegment? {
      NewSegmentStep(st, p, pr.op, pr.slot, c.shm);
    } else {
      GotoStep(st, p, UndoLock(pr.op, pr.slot));
    }
  }

  /** Nothing on the slot whose lock `p` holds is half-written unless `p` is writing it. */
  lemma SettledUnderLock(st: State, p: nat)
    requires Inv(st) && p < |st.procs| && HeldSlot(st.procs[p]) != 0
    requires forall x :: !Filling(st, st.procs[p], x)
    ensures forall x :: x in st.segs && st.segs[x].slot + 1 == HeldSlot(st.procs[p]) ==> Settled(st.segs[x])
  {
    forall x | x in st.segs && st.segs[x].slot + 1 == HeldSlot(st.procs[p]) ensures Settled(st.segs[x]) {
      SegmentAt(st, x);
    }
  }

  lemma UndoLockKeeps(st: State, p: nat, c: Choice)
    requires CanStep(st, p, c) && st.procs[p].UndoLock?
    ensures Inv(Next(st, p, c))
  {
    hide Inv;
    ProcAt(st, p);
    HolderAt(st, p);
    SettledUnderLock(st, p);
    ReleaseStep(st, p, HeldSlot(st.procs[p]), ReleaseMaster(st.procs[p].op, Failed(NoSegment)));
  }

  lemma RegisterKeeps(st: State, p: nat, c: Choice)
    requires CanStep(st, p, c) && st.procs[p].Register?
    ensures Inv(Next(st, p, c))
  {
    var Register(op, slot, x) := st.procs[p];
    assert HoldsMaster(st.procs[p]) && Stored(op.id) == op.id;
    RegisterTable(st, p, op, slot, x);
    EntryStep(st, p, slot, Entry(x, Stored(op.id)), TakeSnapshot(op, slot, true));
  }

  lemma TakeSnapshotKeeps(st: State, p: nat, c: Choice)
    requires CanStep(st, p, c) && st.procs[p].TakeSnapshot?
    ensures Inv(Next(st, p, c))
  {
    hide Inv;
    ProcAt(st, p);
    HolderAt(st, p);
    var TakeSnapshot(op, slot, create) := st.procs[p];
    EntryAt(st, slot);
    GotoStep(st, p, DropMaster(op, SnapSlot(st, slot), create));
  }

  // ------------------------------------------------------------ the master lock

  lemma LockMasterKeeps(st: State, p: nat, c: Choice)
    requires CanStep(st, p, c) && st.procs[p].LockMaster?
    ensures Inv(Next(st, p, c))
  {
    hide Inv;
    ProcAt(st, p);
    var op := st.procs[p].op;
    if st.semsAlive { AcquireStep(st, p, 0, InMaster(op), Done(op, Failed(Removed))); }
    else { GotoStep(st, p, Done(op, Failed(Removed))); }
  }

  lemma DropMasterKeeps(st: State, p: nat, c: Choice)
    requires CanStep(st, p, c)
    requires st.procs[p].DropMaster? || st.procs[p].DropMasterToWait? || st.procs[p].ReleaseMaster?
    ensures Inv(Next(st, p, c))
  {
    hide Inv;
    ProcAt(st, p);
    var pr := st.procs[p];
    var next := if pr.DropMaster? then Attach(pr.op, pr.snap, pr.create)
                else if pr.DropMasterToWait? then Subscribe(pr.op, pr.snap)
                else Done(pr.op, pr.res);
    assert ProcOk(st, next);
    ReleaseStep(st, p, 0, next);
  }

  // ------------------------------------------------------------ the handshake

  lemma SubscribeKeeps(st: State, p: nat, c: Choice)
    requires CanStep(st, p, c) && (st.procs[p].Subscribe? || st.procs[p].Blocked?)
    ensures Inv(Next(st, p, c))
  {
    hide Inv, Step, Shape, ProcOk, Ready;
    ProcAt(st, p);
    var pr := ProcOf(Next(st, p, c), p);
    if pr.LockSnapshot? {
      ConsumeKeeps(st, p, c);
    } else {
      WaitNext(st, p, c);
      WaitReady(st, p, pr);
      GotoStep(st, p, pr);
    }
  }

  /** Without a unit the subscriber goes to sleep or gives up. */
  lemma WaitNext(st: State, p: nat, c: Choice)
    requires Shape(st) && p < |st.procs| && Step(st, p, c).Some? && (st.procs[p].Subscribe? || st.procs[p].Blocked?)
    requires !ProcOf(Next(st, p, c), p).LockSnapshot?
    ensures var was, now := st.procs[p], ProcOf(Next(st, p, c), p);
            && Next(st, p, c) == Goto(st, p, now)
            && (now == Blocked(was.op, was.snap) || (now.Done? && now.op == was.op && now.res != Failed(Unpublished)))
  {
    hide Shape;
  }

  lemma WaitReady(st: State, p: nat, pr: Proc)
    requires Inv(st) && p < |st.procs| && (st.procs[p].Subscribe? || st.procs[p].Blocked?)
    requires var was := st.procs[p];
             pr == Blocked(was.op, was.snap) || (pr.Done? && pr.op == was.op && pr.res != Failed(Unpublished))
    ensures Ready(st, p, pr)
  {
    hide Inv;
    ProcAt(st, p);
  }

  /** The state after a unit of the snapshot's handshake has been consumed. */
  function Consumed(st: State, p: nat, pr: Proc, snap: Snapshot): State
    requires p < |st.procs| && SnapFits(st, snap) && Sized(st)
  {
    Goto(st, p, pr).(sems := st.sems[snap.handId := st.sems[snap.handId] - 1],
                     consumed := st.consumed[snap.lockId - 1 := st.consumed[snap.lockId - 1] + 1])
  }

  lemma ConsumeNext(st: State, p: nat, c: Choice)
    requires Shape(st) && p < |st.procs| && Step(st, p, c).Some? && (st.procs[p].Subscribe? || st.procs[p].Blocked?)
    requires Fits(st, st.procs[p]) && ProcOf(Next(st, p, c), p).LockSnapshot?
    ensures var st', was, now := Next(st, p, c), st.procs[p], ProcOf(Next(st, p, c), p);
            && Sized(st) && SnapFits(st, was.snap) && st.semsAlive && st.sems[was.snap.handId] >= 1
            && now == LockSnapshot(was.op, was.snap) && st' == Consumed(st, p, now, was.snap)
  {
    hide Shape;
    assert Sized(st) by { assert Shape(st); SizedShape(st); }
  }

  lemma SizedShape(st: State)
    requires Shape(st)
    ensures Sized(st)
  {
  }

  /** Consuming a handshake unit. */
  lemma ConsumeKeeps(st: State, p: nat, c: Choice)
    requires CanStep(st, p, c) && (st.procs[p].Subscribe? || st.procs[p].Blocked?)
    requires ProcOf(Next(st, p, c), p).LockSnapshot?
    ensures Inv(Next(st, p, c))
  {
    hide ProcOk, FillingKept, TableInv, SegmentsInv, Step, Shape;
    var st' := Next(st, p, c);
    ProcAt(st, p);
    ConsumeNext(st, p, c);
    var pr := st'.procs[p];
    ConsumeFacts(st, p, c);
    GotoLocks(st, st', p, pr);
    QuietStep(st, st', p, pr);
  }

  lemma ConsumeFacts(st: State, p: nat, c: Choice)
    requires CanStep(st, p, c) && (st.procs[p].Subscribe? || st.procs[p].Blocked?)
    requires ProcOf(Next(st, p, c), p).LockSnapshot?
    ensures var pr := ProcOf(Next(st, p, c), p);
            Fits(st, pr) && ProcOk(st, pr) && FillingKept(st, st.procs[p], pr) && SameLocks(st.procs[p], pr)
  {
    hide Inv, Step, Shape;
    ProcAt(st, p);
    ConsumeNext(st, p, c);
    SegmentAt(st, st.procs[p].snap.shm);
  }

  lemma PostKeeps(st: State, p: nat, c: Choice)
    requires CanStep(st, p, c) && st.procs[p].Post?
    ensures Inv(Next(st, p, c))
  {
    hide Inv, ProcOk, FillingKept;
    ProcAt(st, p);
    var Post(op, snap, ver, numb) := st.procs[p];
    PostFacts(st, p, op, snap, ver, numb);
    if !st.semsAlive {
      GotoStep(st, p, Done(op, Failed(Unpublished)));
    } else {
      var mid := Goto(st, p, WaitZero(op, snap));
      GotoStep(st, p, WaitZero(op, snap));
      SizedAt(st);
      PostedKeeps(mid, Next(st, p, c), p, snap, numb);
    }
  }

  lemma SizedAt(st: State)
    requires Inv(st)
    ensures Sized(st)
  {
  }

  lemma PostFacts(st: State, p: nat, op: Op, snap: Snapshot, ver: nat, numb: int)
    requires Inv(st) && p < |st.procs| && st.procs[p] == Post(op, snap, ver, numb)
    ensures Ready(st, p, Done(op, Failed(Unpublished))) && Ready(st, p, WaitZero(op, snap))
    ensures st.semsAlive ==> numb >= 0
  {
    hide Inv, Ready;
    ProcAt(st, p);
    PostReady(st, p, op, snap, ver, numb, Done(op, Failed(Unpublished)));
    PostReady(st, p, op, snap, ver, numb, WaitZero(op, snap));
  }

  lemma PostReady(st: State, p: nat, op: Op, snap: Snapshot, ver: nat, numb: int, pr: Proc)
    requires Inv(st) && p < |st.procs| && st.procs[p] == Post(op, snap, ver, numb)
    requires pr == Done(op, Failed(Unpublished)) || pr == WaitZero(op, snap)
    ensures Ready(st, p, pr)
  {
    hide Inv;
    ProcAt(st, p);
  }

  /** Units posted to a handshake change nothing else. */
  lemma PostedKeeps(mid: State, st': State, p: nat, snap: Snapshot, numb: int)
    requires Inv(mid) && p < |mid.procs| && SnapFits(mid, snap) && Sized(mid)
    requires mid.procs[p].WaitZero? && mid.semsAlive && numb >= 0
    requires st' == mid.(sems := mid.sems[snap.handId := mid.sems[snap.handId] + numb],
                         posted := mid.posted[snap.lockId - 1 := mid.posted[snap.lockId - 1] + numb])
    ensures Inv(st')
  {
    hide ProcOk, FillingKept, TableInv, SegmentsInv;
    assert FillingKept(mid, mid.procs[p], mid.procs[p]) by { SelfFilling(mid, mid.procs[p]); }
    assert mid.procs[p := mid.procs[p]] == mid.procs;
    assert Fits(mid, mid.procs[p]);
    GotoLocks(mid, st', p, mid.procs[p]);
    QuietStep(mid, st', p, mid.procs[p]);
  }

  lemma SelfFilling(st: State, pr: Proc)
    ensures FillingKept(st, pr, pr)
  {
  }

  lemma CountKeeps(st: State, p: nat, c: Choice)
    requires CanStep(st, p, c) && st.procs[p].CountWaiters?
    ensures Inv(Next(st, p, c))
  {
    hide Inv;
    ProcAt(st, p);
    GotoStep(st, p, Next(st, p, c).procs[p]);
  }

  lemma WaitZeroKeeps(st: State, p: nat, c: Choice)
    requires CanStep(st, p, c) && st.procs[p].WaitZero?
    ensures Inv(Next(st, p, c))
  {
    hide Inv, Step, Shape;
    ProcAt(st, p);
    WaitZeroNext(st, p, c);
    GotoStep(st, p, ProcOf(Next(st, p, c), p));
  }

  lemma WaitZeroNext(st: State, p: nat, c: Choice)
    requires Shape(st) && p < |st.procs| && Step(st, p, c).Some? && st.procs[p].WaitZero?
    ensures var now := ProcOf(Next(st, p, c), p);
            now.Done? && now.op == st.procs[p].op && Next(st, p, c) == Goto(st, p, now)
  {
    hide Shape;
  }

  // ------------------------------------------------------------ inside a slot

  lemma LockSnapshotKeeps(st: State, p: nat, c: Choice)
    requires CanStep(st, p, c) && st.procs[p].LockSnapshot?
    ensures Inv(Next(st, p, c))
  {
    hide Inv;
    ProcAt(st, p);
    HolderAt(st, p);
    var LockSnapshot(op, snap) := st.procs[p];
    if st.semsAlive { AcquireStep(st, p, snap.lockId, Attach(op, snap, false), Done(op, Failed(Removed))); }
    else { GotoStep(st, p, Done(op, Failed(Removed))); }
  }

  lemma AttachKeeps(st: State, p: nat, c: Choice)
    requires CanStep(st, p, c) && st.procs[p].Attach?
    ensures Inv(Next(st, p, c))
  {
    hide Inv, ProcOk, FillingKept;
    ProcAt(st, p);
    var Attach(op, snap, create) := st.procs[p];
    AttachFacts(st, p, op, snap, create);
    GotoStep(st, p, Next(st, p, c).procs[p]);
  }

  lemma AttachFacts(st: State, p: nat, op: Op, snap: Snapshot, create: bool)
    requires Inv(st) && p < |st.procs| && st.procs[p] == Attach(op, snap, create)
    ensures Mapped(st, snap)
    ensures st.segs[snap.shm].live && op.Read? ==> Ready(st, p, Reading(op, snap, []))
    ensures st.segs[snap.shm].live && op.Write? && create ==> Ready(st, p, MarkNew(op, snap))
    ensures st.segs[snap.shm].live && op.Write? && !create ==> Ready(st, p, Header(op, snap))
    ensures !st.segs[snap.shm].live ==> Ready(st, p, DropSlot(op, snap, Failed(Stale), 0))
  {
    hide Inv, Ready, ProcOk;
    AttachIs(st, p, op, snap, create);
    if !st.segs[snap.shm].live {
      AttachStale(st, p, op, snap, create);
    } else if op.Read? {
      AttachToRead(st, p, op, snap);
    } else if create {
      AttachNew(st, p, op, snap);
    } else {
      AttachToWrite(st, p, op, snap);
    }
  }

  lemma AttachIs(st: State, p: nat, op: Op, snap: Snapshot, create: bool)
    requires Inv(st) && p < |st.procs| && st.procs[p] == Attach(op, snap, create)
    ensures Mapped(st, snap) && (op.Write? || (op.Read? && !create))
    ensures create ==> st.segs[snap.shm].live
  {
    hide Inv;
    ProcAt(st, p);
  }

  lemma AttachNew(st: State, p: nat, op: Op, snap: Snapshot)
    requires Inv(st) && p < |st.procs| && st.procs[p] == Attach(op, snap, true) && op.Write?
    ensures Ready(st, p, MarkNew(op, snap))
  {
    hide Inv;
    ProcAt(st, p);
  }

  lemma AttachToRead(st: State, p: nat, op: Op, snap: Snapshot)
    requires Inv(st) && p < |st.procs| && st.procs[p] == Attach(op, snap, false) && op.Read?
    requires Mapped(st, snap) && st.segs[snap.shm].live
    ensures Ready(st, p, Reading(op, snap, []))
  {
    hide Inv;
    ProcAt(st, p);
    SettledUnderLock(st, p);
  }

  lemma AttachToWrite(st: State, p: nat, op: Op, snap: Snapshot)
    requires Inv(st) && p < |st.procs| && st.procs[p] == Attach(op, snap, false) && op.Write?
    requires Mapped(st, snap) && st.segs[snap.shm].live
    ensures Ready(st, p, Header(op, snap))
  {
    hide Inv;
    ProcAt(st, p);
    SettledUnderLock(st, p);
  }

  lemma AttachStale(st: State, p: nat, op: Op, snap: Snapshot, create: bool)
    requires Inv(st) && p < |st.procs| && st.procs[p] == Attach(op, snap, create)
    requires Mapped(st, snap) && !st.segs[snap.shm].live
    ensures Ready(st, p, DropSlot(op, snap, Failed(Stale), 0))
  {
    hide Inv;
    ProcAt(st, p);
    if !create { SettledUnderLock(st, p); }
  }

  lemma MarkNewKeeps(st: State, p: nat, c: Choice)
    requires CanStep(st, p, c) && st.procs[p].MarkNew?
    ensures Inv(Next(st, p, c))
  {
    hide Inv;
    ProcAt(st, p);
    HolderAt(st, p);
    var MarkNew(op, snap) := st.procs[p];
    var st' := Next(st, p, c);
    SegmentAt(st, snap.shm);
    ReplaceStep(st, p, snap.shm, st'.segs[snap.shm], Header(op, snap));
  }

  /** An accepted write keeps the history agreeing with its first header. */
  lemma HistoryGrows(hist: seq<SlotArray>, a: SlotArray)
    requires ValidHistory(hist) && WellFormed(a)
    requires hist == [] || Compatible(a, hist[0].typeID, hist[0].dims)
    ensures ValidHistory(hist + [a])
  {
    var h := hist + [a];
    forall k | 0 <= k < |h| ensures WellFormed(h[k]) && Compatible(h[k], h[0].typeID, h[0].dims) {
      if k < |hist| { assert h[k] == hist[k]; }
    }
  }

  /** Reading the header of a settled segment back gives the type and dimensions in force. */
  lemma SettledHeader(seg: Segment)
    requires Settled(seg) && ValidHistory(seg.hist)
    ensures Load(seg.cells, 0) == seg.hist[0].typeID != UNSET_TYPE
    ensures Load(seg.cells, 1) == |seg.hist[0].dims|
    ensures HeaderDims(seg.cells) == seg.hist[0].dims
  {
    var image := Image(View(seg.hist));
    assert seg.cells[0] == image[0] && seg.cells[1] == image[1];
    assert seg.cells[..|image|] == image;
    assert seg.cells[2..2 + |seg.hist[0].dims|] == image[2..2 + |seg.hist[0].dims|];
    assert WellFormed(seg.hist[0]);
  }

  /** The writer at the header is accepted if the header is the mark or agrees, and its segment's
      history grows by that write; otherwise it leaves. */
  lemma HeaderNext(st: State, p: nat, c: Choice)
    requires Shape(st) && p < |st.procs| && Step(st, p, c).Some? && st.procs[p].Header? && Fits(st, st.procs[p])
    ensures var Header(op, snap) := st.procs[p];
            var seg := st.segs[snap.shm];
            var grown := seg.(hist := seg.hist + [op.arr]);
            Next(st, p, c) ==
              if Load(seg.cells, 0) == UNSET_TYPE then
                SetSegment(st, p, snap.shm, grown, Copy(op, snap, 0, |grown.hist|))
              else if && Compatible(op.arr, Load(seg.cells, 0), HeaderDims(seg.cells))
                      && Load(seg.cells, 1) == |op.arr.dims| then
                SetSegment(st, p, snap.shm, grown, Copy(op, snap, HeaderLength(op.arr), |grown.hist|))
              else Goto(st, p, DropSlot(op, snap, Failed(Incompatible), 0))
  {
    hide Shape, Compatible, HeaderDims, Load;
  }

  lemma HeaderKeeps(st: State, p: nat, c: Choice)
    requires CanStep(st, p, c) && st.procs[p].Header?
    ensures Inv(Next(st, p, c))
  {
    hide Inv, ProcOk, FillingKept, SegmentOk, MayReplace, Step, Shape, Ready;
    ProcAt(st, p);
    var Header(op, snap) := st.procs[p];
    HeaderRead(st, p, op, snap);
    HeaderNext(st, p, c);
    var pr := ProcOf(Next(st, p, c), p);
    if pr.DropSlot? {
      GotoStep(st, p, pr);
    } else {
      AcceptKeeps(st, p, op, snap, pr.next);
    }
  }

  lemma AcceptKeeps(st: State, p: nat, op: Op, snap: Snapshot, next: nat)
    requires Inv(st) && p < |st.procs| && st.procs[p] == Header(op, snap)
    requires Mapped(st, snap) && ValidOp(op) && op.Write?
    requires var seg := st.segs[snap.shm];
             if seg.hist == [] then next == 0
             else Compatible(op.arr, seg.hist[0].typeID, seg.hist[0].dims) && next == HeaderLength(op.arr)
    ensures var seg := st.segs[snap.shm];
            var seg' := seg.(hist := seg.hist + [op.arr]);
            Inv(SetSegment(st, p, snap.shm, seg', Copy(op, snap, next, |seg'.hist|)))
  {
    hide Inv, ProcOk, FillingKept, SegmentOk, MayReplace, Fits;
    var seg := st.segs[snap.shm];
    var seg' := seg.(hist := seg.hist + [op.arr]);
    HeaderAccepts(st, p, op, snap, next);
    ReplaceStep(st, p, snap.shm, seg', Copy(op, snap, next, |seg'.hist|));
  }

  /** A writer at the header finds either its own mark or the settled header in force. */
  lemma HeaderRead(st: State, p: nat, op: Op, snap: Snapshot)
    requires Inv(st) && p < |st.procs| && st.procs[p] == Header(op, snap)
    ensures Mapped(st, snap)
    ensures var seg := st.segs[snap.shm];
            && ValidHistory(seg.hist) && |seg.cells| == seg.size
            && (seg.hist == [] <==> Load(seg.cells, 0) == UNSET_TYPE)
            && (seg.hist == [] ==> seg.size == ShmBytes(op.arr))
            && (seg.hist != [] ==>
              && Settled(seg) && Load(seg.cells, 0) == seg.hist[0].typeID
              && Load(seg.cells, 1) == |seg.hist[0].dims| && HeaderDims(seg.cells) == seg.hist[0].dims)
            && (seg.hist != [] ==> Ready(st, p, DropSlot(op, snap, Failed(Incompatible), 0)))
  {
    hide Inv;
    ProcAt(st, p);
    HolderAt(st, p);
    SegmentAt(st, snap.shm);
    if st.segs[snap.shm].hist != [] {
      SettledHeader(st.segs[snap.shm]);
    }
  }

  /** The header cells an accepted rewrite leaves alone are those of the new view. */
  lemma AcceptedCells(seg: Segment, a: SlotArray)
    requires ValidHistory(seg.hist) && WellFormed(a) && |seg.cells| == seg.size
    requires seg.hist == [] ==> seg.size == ShmBytes(a)
    requires seg.hist != [] ==> Settled(seg) && Compatible(a, seg.hist[0].typeID, seg.hist[0].dims)
    ensures var h := seg.hist + [a];
            && |Image(a)| == |Image(View(h))| <= |seg.cells|
            && (seg.hist != [] ==> seg.cells[..HeaderLength(a)] == Image(View(h))[..HeaderLength(a)])
  {
    HistoryGrows(seg.hist, a);
    var h := seg.hist + [a];
    if seg.hist != [] {
      assert h[0] == seg.hist[0] && WellFormed(h[0]);
      var was, now := Image(View(seg.hist)), Image(View(h));
      assert seg.cells[..|was|] == was;
      assert was[..HeaderLength(a)] == now[..HeaderLength(a)];
      ViewIsWellFormed(seg.hist);
      ViewIsWellFormed(h);
    }
  }

  lemma HeaderAccepts(st: State, p: nat, op: Op, snap: Snapshot, next: nat)
    requires Inv(st) && p < |st.procs| && st.procs[p] == Header(op, snap)
    requires Mapped(st, snap) && ValidOp(op) && op.Write?
    requires var seg := st.segs[snap.shm];
             if seg.hist == [] then next == 0
             else Compatible(op.arr, seg.hist[0].typeID, seg.hist[0].dims) && next == HeaderLength(op.arr)
    ensures var seg := st.segs[snap.shm];
            var seg' := seg.(hist := seg.hist + [op.arr]);
            var pr := Copy(op, snap, next, |seg'.hist|);
            var st' := SetSegment(st, p, snap.shm, seg', pr);
            && MayReplace(st, p, snap.shm, seg')
            && Sized(st') && SegmentOk(st', snap.shm)
            && Fits(st', pr) && ProcOk(st', pr)
  {
    hide Inv;
    var seg := st.segs[snap.shm];
    var seg' := seg.(hist := seg.hist + [op.arr]);
    var st' := SetSegment(st, p, snap.shm, seg', Copy(op, snap, next, |seg'.hist|));
    ProcAt(st, p);
    HolderAt(st, p);
    HeaderRead(st, p, op, snap);
    HistoryGrows(seg.hist, op.arr);
    AcceptedCells(seg, op.arr);
    SegmentAt(st, snap.shm);
    assert SegmentOk(st', snap.shm);
  }

  lemma CopyKeeps(st: State, p: nat, c: Choice)
    requires CanStep(st, p, c) && st.procs[p].Copy?
    ensures Inv(Next(st, p, c))
  {
    hide Inv, ProcOk, FillingKept, SegmentOk, MayReplace;
    ProcAt(st, p);
    var Copy(op, snap, next, ver) := st.procs[p];
    var st' := Next(st, p, c);
    if next < |Image(op.arr)| {
      CopyGoesOn(st, p, op, snap, next, ver);
      ReplaceStep(st, p, snap.shm, st'.segs[snap.shm], Copy(op, snap, next + 1, ver));
    } else {
      CopyEnds(st, p, op, snap, next, ver);
      GotoStep(st, p, DropSlot(op, snap, Success, ver));
    }
  }

  lemma CopyGoesOn(st: State, p: nat, op: Op, snap: Snapshot, next: nat, ver: nat)
    requires Inv(st) && p < |st.procs| && st.procs[p] == Copy(op, snap, next, ver)
    requires op.Write? && next < |Image(op.arr)| && Mapped(st, snap)
    ensures var seg := st.segs[snap.shm].(cells := Store(st.segs[snap.shm].cells, next, Image(op.arr)[next]));
            var pr := Copy(op, snap, next + 1, ver);
            var st' := SetSegment(st, p, snap.shm, seg, pr);
            && MayReplace(st, p, snap.shm, seg)
            && Sized(st') && SegmentOk(st', snap.shm)
            && Fits(st', pr) && ProcOk(st', pr)
  {
    hide Inv, ProcOk;
    CopySegment(st, p, op, snap, next, ver);
    CopyProc(st, p, op, snap, next, ver);
  }

  lemma CopySegment(st: State, p: nat, op: Op, snap: Snapshot, next: nat, ver: nat)
    requires Inv(st) && p < |st.procs| && st.procs[p] == Copy(op, snap, next, ver)
    requires op.Write? && next < |Image(op.arr)| && Mapped(st, snap)
    ensures var seg := st.segs[snap.shm].(cells := Store(st.segs[snap.shm].cells, next, Image(op.arr)[next]));
            var st' := SetSegment(st, p, snap.shm, seg, Copy(op, snap, next + 1, ver));
            MayReplace(st, p, snap.shm, seg) && Sized(st') && SegmentOk(st', snap.shm)
  {
    hide Inv, Image, View;
    ProcAt(st, p);
    HolderAt(st, p);
    SegmentAt(st, snap.shm);
  }

  lemma CopyProc(st: State, p: nat, op: Op, snap: Snapshot, next: nat, ver: nat)
    requires Inv(st) && p < |st.procs| && st.procs[p] == Copy(op, snap, next, ver)
    requires op.Write? && next < |Image(op.arr)| && Mapped(st, snap)
    ensures var seg := st.segs[snap.shm].(cells := Store(st.segs[snap.shm].cells, next, Image(op.arr)[next]));
            var pr := Copy(op, snap, next + 1, ver);
            var st' := SetSegment(st, p, snap.shm, seg, pr);
            Fits(st', pr) && ProcOk(st', pr)
  {
    hide Inv;
    ProcAt(st, p);
    SegmentAt(st, snap.shm);
    CopiedCell(st.segs[snap.shm], op.arr, next);
  }

  /** When the last cell is stored the segment is settled again. */
  lemma CopyEnds(st: State, p: nat, op: Op, snap: Snapshot, next: nat, ver: nat)
    requires Inv(st) && p < |st.procs| && st.procs[p] == Copy(op, snap, next, ver)
    requires op.Write? && next >= |Image(op.arr)| && Mapped(st, snap)
    ensures Ready(st, p, DropSlot(op, snap, Success, ver)) && Settled(st.segs[snap.shm])
  {
    hide Inv;
    ProcAt(st, p);
  }

  lemma CopiedCell(seg: Segment, a: SlotArray, next: nat)
    requires ValidHistory(seg.hist) && seg.hist != [] && seg.hist[|seg.hist| - 1] == a
    requires HeaderLength(a) <= next || seg.hist == [a]
    requires next < |Image(a)| == |Image(View(seg.hist))| <= |seg.cells|
    requires seg.cells[..next] == Image(View(seg.hist))[..next]
    ensures var cells := Store(seg.cells, next, Image(a)[next]);
            |cells| == |seg.cells| && cells[..next + 1] == Image(View(seg.hist))[..next + 1]
  {
    var cells := Store(seg.cells, next, Image(a)[next]);
    assert Image(View(seg.hist))[next] == Image(a)[next];
    assert cells[..next + 1] == cells[..next] + [cells[next]];
    assert cells[..next] == seg.cells[..next];
  }

  lemma ReadingKeeps(st: State, p: nat, c: Choice)
    requires CanStep(st, p, c) && st.procs[p].Reading?
    ensures Inv(Next(st, p, c))
  {
    hide Inv, ProcOk, FillingKept;
    ProcAt(st, p);
    var Reading(op, snap, out) := st.procs[p];
    ReadingGoesOn(st, p, op, snap, out);
    GotoStep(st, p, Next(st, p, c).procs[p]);
  }

  /** A reader's cells are a prefix of the image in force, and stay so. */
  lemma ReadingFacts(st: State, p: nat, op: Op, snap: Snapshot, out: seq<int>)
    requires Inv(st) && p < |st.procs| && st.procs[p] == Reading(op, snap, out)
    ensures Mapped(st, snap) && ValidHistory(st.segs[snap.shm].hist) && st.segs[snap.shm].hist != []
    ensures var image := Image(View(st.segs[snap.shm].hist)); out <= image <= st.segs[snap.shm].cells
    ensures Complete(out) ==> Parse(out) == View(st.segs[snap.shm].hist)
    ensures !Complete(out) ==> |out| < |Image(View(st.segs[snap.shm].hist))|
  {
    hide Inv;
    ProcAt(st, p);
    var seg := st.segs[snap.shm];
    SegmentAt(st, snap.shm);
    SettledUnderLock(st, p);
    ViewIsWellFormed(seg.hist);
    PrefixParses(View(seg.hist), out);
  }

  lemma ReadingGoesOn(st: State, p: nat, op: Op, snap: Snapshot, out: seq<int>)
    requires Inv(st) && p < |st.procs| && st.procs[p] == Reading(op, snap, out) && Mapped(st, snap)
    ensures Complete(out) ==> Ready(st, p, DropSlot(op, snap, Got(Parse(out)), 0))
    ensures !Complete(out) ==> Ready(st, p, Reading(op, snap, out + [Load(st.segs[snap.shm].cells, |out|)]))
  {
    hide Inv, Complete, Parse;
    ReadingFacts(st, p, op, snap, out);
    ProcAt(st, p);
    if !Complete(out) {
      var image := Image(View(st.segs[snap.shm].hist));
      assert image[..|out| + 1] == out + [st.segs[snap.shm].cells[|out|]];
    }
  }

  lemma DropSlotKeeps(st: State, p: nat, c: Choice)
    requires CanStep(st, p, c) && st.procs[p].DropSlot?
    ensures Inv(Next(st, p, c))
  {
    hide Inv;
    ProcAt(st, p);
    HolderAt(st, p);
    var DropSlot(op, snap, res, ver) := st.procs[p];
    SettledUnderLock(st, p);
    ReleaseStep(st, p, snap.lockId, AfterSlot(op, snap, res, ver));
  }

  // ------------------------------------------------------------ freeing and scanning

  lemma FreeLockKeeps(st: State, p: nat, c: Choice)
    requires CanStep(st, p, c) && (st.procs[p].FreeLock? || st.procs[p].InfoLock?)
    ensures Inv(Next(st, p, c))
  {
    hide Inv;
    ProcAt(st, p);
    HolderAt(st, p);
    var op, slot := st.procs[p].op, st.procs[p].slot;
    var next := if st.procs[p].FreeLock? then FreeSegment(op, slot) else InfoShow(op, slot);
    AcquireStep(st, p, LockOf(slot), next, next);
  }

  lemma FreeSegmentKeeps(st: State, p: nat, c: Choice)
    requires CanStep(st, p, c) && st.procs[p].FreeSegment?
    ensures Inv(Next(st, p, c))
  {
    hide Inv, Step, Shape;
    ProcAt(st, p);
    HolderAt(st, p);
    var FreeSegment(op, slot) := st.procs[p];
    var x := st.table[slot].shmid;
    var st' := Next(st, p, c);
    EntryAt(st, slot);
    SegmentAt(st, x);
    SettledUnderLock(st, p);
    FreeSegmentNext(st, p, c);
    ReplaceStep(st, p, x, st'.segs[x], FreeEntry(op, slot));
  }

  lemma FreeSegmentNext(st: State, p: nat, c: Choice)
    requires Shape(st) && p < |st.procs| && Step(st, p, c).Some? && st.procs[p].FreeSegment? && Fits(st, st.procs[p])
    ensures var FreeSegment(op, slot) := st.procs[p];
            var x := st.table[slot].shmid;
            x in st.segs ==>
              Next(st, p, c) == SetSegment(st, p, x, st.segs[x].(live := false), FreeEntry(op, slot))
  {
    hide Shape;
  }

  lemma FreeEntryKeeps(st: State, p: nat, c: Choice)
    requires CanStep(st, p, c) && st.procs[p].FreeEntry?
    ensures Inv(Next(st, p, c))
  {
    hide Inv;
    ProcAt(st, p);
    HolderAt(st, p);
    var FreeEntry(op, slot) := st.procs[p];
    ClearTable(st, p, op, slot);
    EntryStep(st, p, slot, Entry(0, ""), FreeUnlock(op, slot));
  }

  /** Where a slot loop goes on once a slot is unlocked. */
  function AfterUnlock(pr: Proc): Proc
    requires pr.FreeUnlock? || pr.InfoUnlock?
  {
    if pr.FreeUnlock? then AfterFree(pr.op, pr.slot) else Scan(pr.op, pr.slot + 1)
  }

  lemma UnlockNext(st: State, p: nat, c: Choice)
    requires Shape(st) && p < |st.procs| && Step(st, p, c).Some? && (st.procs[p].FreeUnlock? || st.procs[p].InfoUnlock?)
    requires Fits(st, st.procs[p]) && Sized(st)
    ensures Next(st, p, c) == Release(st, p, LockOf(st.procs[p].slot), AfterUnlock(st.procs[p]))
  {
    hide Shape;
  }

  lemma FreeUnlockKeeps(st: State, p: nat, c: Choice)
    requires CanStep(st, p, c) && (st.procs[p].FreeUnlock? || st.procs[p].InfoUnlock?)
    ensures Inv(Next(st, p, c))
  {
    hide Inv, Step, Shape;
    ProcAt(st, p);
    HolderAt(st, p);
    SettledUnderLock(st, p);
    UnlockNext(st, p, c);
    ReleaseStep(st, p, LockOf(st.procs[p].slot), AfterUnlock(st.procs[p]));
  }

  lemma ScanKeeps(st: State, p: nat, c: Choice)
    requires CanStep(st, p, c) && (st.procs[p].Scan? || st.procs[p].InfoShow?)
    ensures Inv(Next(st, p, c))
  {
    hide Inv;
    ProcAt(st, p);
    HolderAt(st, p);
    GotoStep(st, p, Next(st, p, c).procs[p]);
  }

  lemma RemoveSemaphoresKeeps(st: State, p: nat, c: Choice)
    requires CanStep(st, p, c) && st.procs[p].RemoveSemaphores?
    ensures Inv(Next(st, p, c))
  {
    hide ProcOk, Fits, FillingKept, TableInv, SegmentsInv;
    var st' := Next(st, p, c);
    var pr := st'.procs[p];
    ProcAt(st, p);
    RemoveFacts(st, p, pr);
    QuietStep(st, st', p, pr);
  }

  lemma RemoveMasterKeeps(st: State, p: nat, c: Choice)
    requires CanStep(st, p, c) && st.procs[p].RemoveMaster?
    ensures Inv(Next(st, p, c))
  {
    hide ProcOk, Fits, FillingKept, TableInv, SegmentsInv;
    var st' := Next(st, p, c);
    var pr := st'.procs[p];
    ProcAt(st, p);
    RemoveFacts(st, p, pr);
    QuietStep(st, st', p, pr);
  }

  lemma RemoveFacts(st: State, p: nat, pr: Proc)
    requires p < |st.procs| && (st.procs[p].RemoveSemaphores? || st.procs[p].RemoveMaster?)
    requires Fits(st, st.procs[p]) && ProcOk(st, st.procs[p])
    requires pr == RemoveMaster(st.procs[p].op) || pr == Done(st.procs[p].op, Success)
    ensures Fits(st, pr) && ProcOk(st, pr) && FillingKept(st, st.procs[p], pr)
    ensures st.procs[p].RemoveSemaphores? ==> forall s :: 0 <= s < |st.table| ==> st.table[s].shmid == 0
  {
  }

  lemma OutsideKeeps(st: State, p: nat, c: Choice)
    requires CanStep(st, p, c) && (st.procs[p].Idle? || st.procs[p].Done?)
    ensures Inv(Next(st, p, c))
  {
    hide Inv;
    ProcAt(st, p);
    HolderAt(st, p);
    GotoStep(st, p, Next(st, p, c).procs[p]);
  }

  // ------------------------------------------------------------ every step, every run

  /** Every step of every process keeps the invariant. */
  lemma StepKeeps(st: State, p: nat, c: Choice)
    requires CanStep(st, p, c)
    ensures Inv(Next(st, p, c))
  {
    hide Inv, Fits, Step;
    match st.procs[p]
    case Idle => OutsideKeeps(st, p, c);
    case LockMaster(_) => LockMasterKeeps(st, p, c);
    case InMaster(_) => InMasterKeeps(st, p, c);
    case LockSlot(_, _, _) => LockSlotKeeps(st, p, c);
    case MakeSegment(_, _) => MakeSegmentKeeps(st, p, c);
    case UndoLock(_, _) => UndoLockKeeps(st, p, c);
    case Register(_, _, _) => RegisterKeeps(st, p, c);
    case TakeSnapshot(_, _, _) => TakeSnapshotKeeps(st, p, c);
    case DropMaster(_, _, _) => DropMasterKeeps(st, p, c);
    case DropMasterToWait(_, _) => DropMasterKeeps(st, p, c);
    case Subscribe(_, _) => SubscribeKeeps(st, p, c);
    case Blocked(_, _) => SubscribeKeeps(st, p, c);
    case LockSnapshot(_, _) => LockSnapshotKeeps(st, p, c);
    case Attach(_, _, _) => AttachKeeps(st, p, c);
    case MarkNew(_, _) => MarkNewKeeps(st, p, c);
    case Header(_, _) => HeaderKeeps(st, p, c);
    case Copy(_, _, _, _) => CopyKeeps(st, p, c);
    case Reading(_, _, _) => ReadingKeeps(st, p, c);
    case DropSlot(_, _, _, _) => DropSlotKeeps(st, p, c);
    case CountWaiters(_, _, _) => CountKeeps(st, p, c);
    case Post(_, _, _, _) => PostKeeps(st, p, c);
    case WaitZero(_, _) => WaitZeroKeeps(st, p, c);
    case FreeLock(_, _) => FreeLockKeeps(st, p, c);
    case FreeSegment(_, _) => FreeSegmentKeeps(st, p, c);
    case FreeEntry(_, _) => FreeEntryKeeps(st, p, c);
    case FreeUnlock(_, _) => FreeUnlockKeeps(st, p, c);
    case Scan(_, _) => ScanKeeps(st, p, c);
    case InfoLock(_, _) => FreeLockKeeps(st, p, c);
    case InfoShow(_, _) => ScanKeeps(st, p, c);
    case InfoUnlock(_, _) => FreeUnlockKeeps(st, p, c);
    case RemoveSemaphores(_) => RemoveSemaphoresKeeps(st, p, c);
    case RemoveMaster(_) => RemoveMasterKeeps(st, p, c);
    case ReleaseMaster(_, _) => DropMasterKeeps(st, p, c);
    case Done(_, _) => OutsideKeeps(st, p, c);
  }

  lemma InitialInv(n: nat, procs: nat)
    ensures Inv(Initial(n, procs))
  {
    var st := Initial(n, procs);
    forall s | 0 <= s < n ensures EntryOk(st, s) && st.sems[HandOf(n, s)] == 0 {
    }
  }

  /** The invariant holds in every state of every run. */
  lemma {:induction false} RunKeeps(tr: seq<State>, moves: seq<Move>, i: nat)
    requires Run(tr, moves) && i < |tr|
    ensures Inv(tr[i])
  {
    hide Inv, Shape, Step;
    if i == 0 {
      var n: nat, procs: nat :| tr[0] == Initial(n, procs);
      InitialInv(n, procs);
    } else {
      RunKeeps(tr, moves, i - 1);
      assert StepAt(tr, moves, i - 1);
      StepKeeps(tr[i - 1], moves[i - 1].p, moves[i - 1].c);
    }
  }
}
