/** Each step of the pool keeps the invariant: first by kind of effect, then step by step. */
module PoolSteps {
  import opened Arrays
  import opened Table
  import opened Pool
  import opened PoolInvariant

  // ------------------------------------------------------------ locks

  /** `pr` can take over from what `p` is doing without touching a lock. */
  predicate SameLocks(a: Proc, b: Proc) {
    HoldsMaster(a) == HoldsMaster(b) && HeldSlot(a) == HeldSlot(b)
  }

  lemma GotoLocks(st: State, st': State, p: nat, pr: Proc)
    requires Sized(st) && LockInv(st) && p < |st.procs|
    requires Sized(st') && st'.procs == st.procs[p := pr] && st'.owner == st.owner
    requires |st'.table| == |st.table| && st'.semsAlive == st.semsAlive
    requires forall i :: 0 <= i <= |st.table| ==> st'.sems[i] == st.sems[i]
    requires SameLocks(st.procs[p], pr)
    requires HoldsMaster(pr) ==> (pr.RemoveMaster? <==> !st.semsAlive)
    ensures LockInv(st')
  {
  }

  lemma AcquireLocks(st: State, st': State, p: nat, i: nat, pr: Proc)
    requires Sized(st) && LockInv(st) && p < |st.procs| && i <= |st.table|
    requires st.semsAlive && st.sems[i] >= 1
    requires Sized(st') && st'.procs == st.procs[p := pr] && st'.table == st.table && st'.semsAlive
    requires st'.owner == st.owner[i := p] && st'.sems == st.sems[i := st.sems[i] - 1]
    requires !Holds(st.procs[p], i) && (i != 0 ==> HeldSlot(st.procs[p]) == 0)
    requires i == 0 ==> HoldsMaster(pr) && HeldSlot(pr) == HeldSlot(st.procs[p])
    requires !pr.RemoveMaster?
    requires i != 0 ==> HeldSlot(pr) == i && HoldsMaster(pr) == HoldsMaster(st.procs[p])
    ensures LockInv(st') && st.owner[i] == NOBODY
  {
  }

  lemma ReleaseLocks(st: State, st': State, p: nat, i: nat, pr: Proc)
    requires Sized(st) && LockInv(st) && p < |st.procs| && i <= |st.table|
    requires Holds(st.procs[p], i)
    requires Sized(st') && st'.procs == st.procs[p := pr] && st'.table == st.table && st'.semsAlive == st.semsAlive
    requires st'.owner == st.owner[i := NOBODY]
    requires st'.sems == if st.semsAlive then st.sems[i := st.sems[i] + 1] else st.sems
    requires i == 0 ==> !HoldsMaster(pr) && HeldSlot(pr) == HeldSlot(st.procs[p])
    requires i != 0 ==> HeldSlot(pr) == 0 && HoldsMaster(pr) == HoldsMaster(st.procs[p])
    requires HoldsMaster(pr) ==> (pr.RemoveMaster? <==> !st.semsAlive)
    ensures LockInv(st') && st.owner[i] == p
  {
  }

  // ------------------------------------------------------------ steps that leave segments and table alone

  /** Whatever `was` was filling, `pr` goes on filling, or it is settled. */
  ghost predicate FillingKept(st: State, was: Proc, pr: Proc) {
    forall x :: x in st.segs && Filling(st, was, x) ==> Filling(st, pr, x) || Settled(st.segs[x])
  }

  /** Only process `p` moves, and only its own locks change hands. */
  ghost predicate Quiet(st: State, st': State, p: nat, pr: Proc)
    requires Sized(st) && Sized(st') && p < |st.procs|
  {
    && st'.table == st.table && st'.segs == st.segs && st'.procs == st.procs[p := pr]
    && (st'.semsAlive ==> st.semsAlive)
    && (st.semsAlive && !st'.semsAlive ==> forall s :: 0 <= s < |st.table| ==> st.table[s].shmid == 0)
    && FillingKept(st, st.procs[p], pr)
    && !st.procs[p].Register? && !st.procs[p].FreeEntry?
    && (forall i :: 0 <= i <= |st.table| && st'.owner[i] != st.owner[i] ==> st.owner[i] == NOBODY || st.owner[i] == p)
    && (forall x :: x in st.segs && 0 <= st.segs[x].slot < |st.table| ==>
          st.owner[st.segs[x].slot + 1] == p && st'.owner[st.segs[x].slot + 1] != p ==> Settled(st.segs[x]))
  }

  lemma QuietProcs(st: State, st': State, p: nat, pr: Proc)
    requires ProcsInv(st) && p < |st.procs|
    requires st'.table == st.table && st'.segs == st.segs && st'.procs == st.procs[p := pr]
    requires st'.semsAlive ==> st.semsAlive
    requires Fits(st, pr) && ProcOk(st, pr)
    ensures ProcsInv(st')
  {
    hide ProcOk, Fits;
    forall q | 0 <= q < |st'.procs| ensures Fits(st', st'.procs[q]) && ProcOk(st', st'.procs[q]) {
      QuietProc(st, st', if q == p then pr else st.procs[q]);
    }
  }

  lemma QuietProc(st: State, st': State, pr: Proc)
    requires st'.table == st.table && st'.segs == st.segs
    requires st'.semsAlive ==> st.semsAlive
    requires Fits(st, pr) && ProcOk(st, pr)
    ensures Fits(st', pr) && ProcOk(st', pr)
  {
  }

  lemma QuietSegments(st: State, st': State, p: nat, pr: Proc)
    requires Sized(st) && Sized(st') && p < |st.procs| && SegmentsInv(st) && LockInv(st)
    requires Quiet(st, st', p, pr)
    ensures SegmentsInv(st')
  {
    hide Settled, Filling, ValidHistory, ValidId;
    forall x | x in st'.segs ensures SegmentOk(st', x) {
      assert SegmentOk(st, x);
      var o := st'.owner[st.segs[x].slot + 1];
      if IsProc(st', o) { SameFilling(st, st', st'.procs[o], x); }
    }
  }

  lemma SameFilling(st: State, st': State, pr: Proc, x: int)
    requires st'.table == st.table && st'.segs == st.segs
    ensures Filling(st', pr, x) == Filling(st, pr, x)
  {
  }

  lemma QuietTable(st: State, st': State, p: nat, pr: Proc)
    requires Sized(st) && Sized(st') && p < |st.procs| && TableInv(st) && LockInv(st)
    requires Quiet(st, st', p, pr)
    ensures TableInv(st')
  {
    forall s | 0 <= s < |st'.table| ensures EntryOk(st', s) {
      assert EntryOk(st, s);
    }
  }

  lemma QuietStep(st: State, st': State, p: nat, pr: Proc)
    requires Inv(st) && p < |st.procs| && Sized(st')
    requires Quiet(st, st', p, pr)
    requires LockInv(st') && HandshakeInv(st')
    requires Fits(st, pr) && ProcOk(st, pr)
    ensures Inv(st')
  {
    QuietProcs(st, st', p, pr);
    QuietSegments(st, st', p, pr);
    QuietTable(st, st', p, pr);
  }

  /** `p` may go on as `pr` without touching a lock. */
  ghost predicate Ready(st: State, p: nat, pr: Proc)
    requires p < |st.procs|
  {
    Fits(st, pr) && ProcOk(st, pr) && SameLocks(st.procs[p], pr) && FillingKept(st, st.procs[p], pr)
  }

  /** Moving on without touching a lock or shared memory. */
  lemma GotoStep(st: State, p: nat, pr: Proc)
    requires Inv(st) && p < |st.procs| && Ready(st, p, pr)
    requires !st.procs[p].Register? && !st.procs[p].FreeEntry?
    requires HoldsMaster(pr) ==> (pr.RemoveMaster? <==> !st.semsAlive)
    ensures Inv(Goto(st, p, pr))
  {
    hide ProcOk, Fits, TableInv, SegmentsInv, FillingKept, HoldsMaster, HeldSlot;
    var st' := Goto(st, p, pr);
    assert HandshakeInv(st');
    GotoLocks(st, st', p, pr);
    QuietStep(st, st', p, pr);
  }

  /** Taking lock `i`. */
  lemma AcquireStep(st: State, p: nat, i: nat, pr: Proc, refused: Proc)
    requires Inv(st) && p < |st.procs| && i <= |st.table| && st.semsAlive
    requires Acquire(st, p, i, pr, refused).Some?
    requires Fits(st, pr) && ProcOk(st, pr)
    requires !Holds(st.procs[p], i) && (i != 0 ==> HeldSlot(st.procs[p]) == 0)
    requires i == 0 ==> HoldsMaster(pr) && HeldSlot(pr) == HeldSlot(st.procs[p])
    requires !pr.RemoveMaster?
    requires i != 0 ==> HeldSlot(pr) == i && HoldsMaster(pr) == HoldsMaster(st.procs[p])
    requires FillingKept(st, st.procs[p], pr)
    requires !st.procs[p].Register? && !st.procs[p].FreeEntry?
    ensures Inv(Acquire(st, p, i, pr, refused).value) && st.owner[i] == NOBODY
  {
    hide ProcOk, Fits, TableInv, SegmentsInv, FillingKept, HoldsMaster, HeldSlot;
    var st' := Acquire(st, p, i, pr, refused).value;
    assert HandshakeInv(st');
    AcquireLocks(st, st', p, i, pr);
    QuietStep(st, st', p, pr);
  }

  /** Dropping lock `i`. */
  lemma ReleaseStep(st: State, p: nat, i: nat, pr: Proc)
    requires Inv(st) && p < |st.procs| && i <= |st.table|
    requires Holds(st.procs[p], i)
    requires Fits(st, pr) && ProcOk(st, pr)
    requires i == 0 ==> !HoldsMaster(pr) && HeldSlot(pr) == HeldSlot(st.procs[p])
    requires i != 0 ==> HeldSlot(pr) == 0 && HoldsMaster(pr) == HoldsMaster(st.procs[p])
    requires FillingKept(st, st.procs[p], pr)
    requires !st.procs[p].Register? && !st.procs[p].FreeEntry?
    requires HoldsMaster(pr) ==> (pr.RemoveMaster? <==> !st.semsAlive)
    requires forall x :: x in st.segs && i != 0 && st.segs[x].slot + 1 == i ==> Settled(st.segs[x])
    ensures Inv(Release(st, p, i, pr))
  {
    hide ProcOk, Fits, TableInv, SegmentsInv, FillingKept, HoldsMaster, HeldSlot, Settled;
    var st' := Release(st, p, i, pr);
    assert HandshakeInv(st');
    ReleaseLocks(st, st', p, i, pr);
    QuietStep(st, st', p, pr);
  }

  // ------------------------------------------------------------ steps that change a segment

  /** `seg` may replace segment `x` while its slot lock, or at least its contents, are `p`'s. */
  ghost predicate MayReplace(st: State, p: nat, x: int, seg: Segment)
    requires p < |st.procs|
  {
    && x in st.segs
    && var was := st.segs[x];
       && seg.slot == was.slot && seg.id == was.id && seg.size == was.size && was.hist <= seg.hist
       && (HeldSlot(st.procs[p]) == was.slot + 1
           || (seg.hist == was.hist && seg.cells == was.cells && seg.live == was.live))
  }

  lemma ReplaceProcs(st: State, p: nat, x: int, seg: Segment, pr: Proc, q: nat)
    requires Sized(st) && LockInv(st) && ProcsInv(st) && p < |st.procs| && q < |st.procs| && q != p
    requires MayReplace(st, p, x, seg)
    ensures Fits(SetSegment(st, p, x, seg, pr), st.procs[q]) && ProcOk(SetSegment(st, p, x, seg, pr), st.procs[q])
  {
    hide ProcOk, Fits, HoldsMaster, HeldSlot;
    var st' := SetSegment(st, p, x, seg, pr);
    assert SegmentsKept(st, st', st.procs[q]);
    Undisturbed(st, st', st.procs[q]);
  }

  lemma ReplaceSegments(st: State, p: nat, x: int, seg: Segment, pr: Proc)
    requires Sized(st) && LockInv(st) && SegmentsInv(st) && p < |st.procs|
    requires MayReplace(st, p, x, seg)
    requires forall y :: y in st.segs && y != x ==> !Filling(st, st.procs[p], y)
    requires SegmentOk(SetSegment(st, p, x, seg, pr), x)
    ensures SegmentsInv(SetSegment(st, p, x, seg, pr))
  {
    hide Settled, Filling, ValidHistory, ValidId, HoldsMaster, HeldSlot, MayReplace;
    var st' := SetSegment(st, p, x, seg, pr);
    forall y | y in st'.segs && y != x ensures SegmentOk(st', y) {
      assert y in st.segs && SegmentOk(st, y);
      var o := st.owner[st.segs[y].slot + 1];
      if IsProc(st, o) && o != p { ReplaceFilling(st, st', x, st.procs[o], y); }
    }
  }

  lemma ReplaceFilling(st: State, st': State, x: int, pr: Proc, y: int)
    requires st'.table == st.table && x in st'.segs && st'.segs == st.segs[x := st'.segs[x]] && y != x
    ensures Filling(st', pr, y) == Filling(st, pr, y)
  {
  }

  lemma ReplaceTable(st: State, p: nat, x: int, seg: Segment, pr: Proc)
    requires Sized(st) && LockInv(st) && TableInv(st) && p < |st.procs|
    requires MayReplace(st, p, x, seg)
    requires SameLocks(st.procs[p], pr)
    requires !st.procs[p].Register? && !st.procs[p].FreeEntry?
    requires seg.live == st.segs[x].live || (!seg.live && pr.FreeEntry? && pr.slot == seg.slot)
    ensures TableInv(SetSegment(st, p, x, seg, pr))
  {
    var st' := SetSegment(st, p, x, seg, pr);
    forall s | 0 <= s < |st'.table| ensures EntryOk(st', s) {
      assert EntryOk(st, s);
    }
  }

  lemma ReplaceStep(st: State, p: nat, x: int, seg: Segment, pr: Proc)
    requires Inv(st) && p < |st.procs|
    requires MayReplace(st, p, x, seg)
    requires SameLocks(st.procs[p], pr)
    requires !st.procs[p].Register? && !st.procs[p].FreeEntry?
    requires seg.live == st.segs[x].live || (!seg.live && pr.FreeEntry? && pr.slot == seg.slot)
    requires forall y :: y in st.segs && y != x ==> !Filling(st, st.procs[p], y)
    requires SegmentOk(SetSegment(st, p, x, seg, pr), x)
    requires Fits(SetSegment(st, p, x, seg, pr), pr) && ProcOk(SetSegment(st, p, x, seg, pr), pr)
    requires HoldsMaster(pr) ==> (pr.RemoveMaster? <==> !st.semsAlive)
    ensures Inv(SetSegment(st, p, x, seg, pr))
  {
    hide ProcOk, Fits, HoldsMaster, HeldSlot, TableInv, SegmentsInv, SegmentOk, Filling, MayReplace;
    var st' := SetSegment(st, p, x, seg, pr);
    GotoLocks(st, st', p, pr);
    ReplaceSegments(st, p, x, seg, pr);
    ReplaceTable(st, p, x, seg, pr);
    forall q | 0 <= q < |st.procs| && q != p ensures Fits(st', st'.procs[q]) && ProcOk(st', st'.procs[q]) {
      ReplaceProcs(st, p, x, seg, pr, q);
    }
  }

  // ------------------------------------------------------------ a new segment

  lemma NewSegmentStep(st: State, p: nat, op: Op, slot: nat, x: int)
    requires Inv(st) && p < |st.procs| && st.procs[p] == MakeSegment(op, slot) && op.Write?
    requires x > 0 && x !in st.segs
    ensures Inv(SetSegment(st, p, x, NewSegmentFor(op, slot), Register(op, slot, x)))
  {
    hide ProcOk, Fits;
    var seg := NewSegmentFor(op, slot);
    var pr := Register(op, slot, x);
    var st' := SetSegment(st, p, x, seg, pr);
    assert Fits(st, st.procs[p]) && ProcOk(st, st.procs[p]);
    assert HeldSlot(st.procs[p]) == slot + 1 && st.owner[slot + 1] == p;
    NewSegmentTable(st, p, op, slot, x);
    GotoLocks(st, st', p, pr);
    NewSegmentSegments(st, p, op, slot, x);
    NewSegmentProc(st, p, op, slot, x);
    forall q | 0 <= q < |st.procs| && q != p ensures Fits(st', st'.procs[q]) && ProcOk(st', st'.procs[q]) {
      Undisturbed(st, st', st.procs[q]);
    }
  }

  lemma NewSegmentProc(st: State, p: nat, op: Op, slot: nat, x: int)
    requires p < |st.procs| && st.procs[p] == MakeSegment(op, slot)
    requires Fits(st, st.procs[p]) && ProcOk(st, st.procs[p])
    ensures var st' := SetSegment(st, p, x, NewSegmentFor(op, slot), Register(op, slot, x));
            Fits(st', st'.procs[p]) && ProcOk(st', st'.procs[p])
  {
  }

  lemma NewSegmentSegments(st: State, p: nat, op: Op, slot: nat, x: int)
    requires Sized(st) && LockInv(st) && SegmentsInv(st) && p < |st.procs|
    requires st.procs[p] == MakeSegment(op, slot) && Fits(st, st.procs[p])
    requires x > 0 && x !in st.segs
    ensures SegmentsInv(SetSegment(st, p, x, NewSegmentFor(op, slot), Register(op, slot, x)))
  {
    var st' := SetSegment(st, p, x, NewSegmentFor(op, slot), Register(op, slot, x));
    forall y | y in st'.segs ensures SegmentOk(st', y) {
      if y != x { assert SegmentOk(st, y); }
    }
  }

  lemma NewSegmentTable(st: State, p: nat, op: Op, slot: nat, x: int)
    requires Sized(st) && LockInv(st) && TableInv(st) && p < |st.procs|
    requires st.procs[p] == MakeSegment(op, slot) && slot < |st.table| && op.Write?
    requires x !in st.segs
    ensures TableInv(SetSegment(st, p, x, NewSegmentFor(op, slot), Register(op, slot, x)))
  {
    var st' := SetSegment(st, p, x, NewSegmentFor(op, slot), Register(op, slot, x));
    forall s | 0 <= s < |st'.table| ensures EntryOk(st', s) {
      assert EntryOk(st, s);
    }
  }

  // ------------------------------------------------------------ table entries

  /** An entry is written under both its slot lock and the master lock. */
  lemma EntryStep(st: State, p: nat, slot: nat, e: Entry, pr: Proc)
    requires Inv(st) && p < |st.procs| && slot < |st.table|
    requires HoldsMaster(st.procs[p]) && HeldSlot(st.procs[p]) == slot + 1
    requires SameLocks(st.procs[p], pr) && st.semsAlive && !pr.RemoveMaster?
    requires Fits(SetEntry(st, p, slot, e, pr), pr) && ProcOk(SetEntry(st, p, slot, e, pr), pr)
    requires TableInv(SetEntry(st, p, slot, e, pr))
    requires forall y :: y in st.segs && Filling(st, st.procs[p], y) ==> Filling(SetEntry(st, p, slot, e, pr), pr, y)
    ensures Inv(SetEntry(st, p, slot, e, pr))
  {
    hide ProcOk, Fits, TableInv;
    var st' := SetEntry(st, p, slot, e, pr);
    GotoLocks(st, st', p, pr);
    EntrySegments(st, p, slot, e, pr);
    forall q | 0 <= q < |st.procs| && q != p ensures Fits(st', st'.procs[q]) && ProcOk(st', st'.procs[q]) {
      Undisturbed(st, st', st.procs[q]);
    }
  }

  lemma EntrySegments(st: State, p: nat, slot: nat, e: Entry, pr: Proc)
    requires Sized(st) && LockInv(st) && SegmentsInv(st) && p < |st.procs| && slot < |st.table|
    requires HoldsMaster(st.procs[p]) && HeldSlot(st.procs[p]) == slot + 1
    requires forall y :: y in st.segs && Filling(st, st.procs[p], y) ==> Filling(SetEntry(st, p, slot, e, pr), pr, y)
    ensures SegmentsInv(SetEntry(st, p, slot, e, pr))
  {
    hide Settled, Filling, ValidHistory, ValidId, HoldsMaster, HeldSlot;
    var st' := SetEntry(st, p, slot, e, pr);
    forall y | y in st'.segs ensures SegmentOk(st', y) {
      assert SegmentOk(st, y);
      var o := st'.owner[st.segs[y].slot + 1];
      if IsProc(st', o) && o != p { EntryFilling(st, st', slot, st.procs[o], y); }
    }
  }

  /** What another process is filling does not depend on the entry of a slot it does not hold. */
  lemma EntryFilling(st: State, st': State, slot: nat, pr: Proc, y: int)
    requires st'.segs == st.segs && |st'.table| == |st.table| && slot < |st.table|
    requires st'.table == st.table[slot := st'.table[slot]]
    requires HeldSlot(pr) != slot + 1
    ensures Filling(st', pr, y) == Filling(st, pr, y)
  {
  }

  lemma RegisterTable(st: State, p: nat, op: Op, slot: nat, x: int)
    requires Inv(st) && p < |st.procs| && st.procs[p] == Register(op, slot, x)
    ensures TableInv(SetEntry(st, p, slot, Entry(x, Stored(op.id)), TakeSnapshot(op, slot, true)))
  {
    var st' := SetEntry(st, p, slot, Entry(x, Stored(op.id)), TakeSnapshot(op, slot, true));
    assert Fits(st, st.procs[p]) && TableFacts(st, st.procs[p]);
    assert SegmentOk(st, x);
    assert Stored(op.id) == op.id;
    forall s | 0 <= s < |st'.table| ensures EntryOk(st', s) {
      assert EntryOk(st, s);
    }
  }

  lemma ClearTable(st: State, p: nat, op: Op, slot: nat)
    requires Inv(st) && p < |st.procs| && st.procs[p] == FreeEntry(op, slot)
    ensures TableInv(SetEntry(st, p, slot, Entry(0, ""), FreeUnlock(op, slot)))
  {
    var st' := SetEntry(st, p, slot, Entry(0, ""), FreeUnlock(op, slot));
    assert Fits(st, st.procs[p]) && TableFacts(st, st.procs[p]);
    forall s | 0 <= s < |st'.table| ensures EntryOk(st', s) {
      assert EntryOk(st, s);
    }
  }
}
