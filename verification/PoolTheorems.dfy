/** What the pool promises its callers, read off the invariant. */
module PoolTheorems {
  import opened Arrays
  import opened Table
  import opened Pool
  import opened PoolInvariant
  import opened PoolProof

  // ------------------------------------------------------------ mutual exclusion

  /** The processes inside the region that lock `i` protects, by where they stand in the code. */
  function Holders(st: State, i: nat): set<int> {
    set q | 0 <= q < |st.procs| && Holds(st.procs[q], i)
  }

  /** In every run, while the set exists each lock's value plus its number of holders is 1; there
      is never more than one holder, not even after cleanup. */
  lemma {:induction false} MutualExclusion(tr: seq<State>, moves: seq<Move>, k: nat, i: nat)
    requires Run(tr, moves) && k < |tr| && i <= |tr[k].table|
    ensures Sized(tr[k]) && |Holders(tr[k], i)| <= 1
    ensures tr[k].semsAlive ==> tr[k].sems[i] + |Holders(tr[k], i)| == 1
  {
    hide Run, ProcOk, TableInv, SegmentsInv;
    RunKeeps(tr, moves, k);
    var st := tr[k];
    var o := st.owner[i];
    if o == NOBODY {
      assert Holders(st, i) == {};
    } else {
      assert Holders(st, i) == {o};
    }
  }

  // ------------------------------------------------------------ the pool refines a map

  /** What slot name `id` is bound to: the view of the writes accepted so far. */
  function Bound(st: State, id: string): Option<SlotArray> {
    match Lookup(st.table, id)
    case None => None
    case Some(s) =>
      var x := st.table[s].shmid;
      if x in st.segs && st.segs[x].hist != [] then Some(View(st.segs[x].hist)) else None
  }

  datatype Event =
    | Silent
    | Accepted(id: string, arr: SlotArray)
    | Rejected(id: string, arr: SlotArray)
    | Returned(id: string, arr: SlotArray)
    | Erased(id: string)
    | Missing(id: string)

  /** What a step means to the outside, told from the code points before and after it. */
  function EventOf(t: seq<Entry>, was: Proc, now: Proc): Event {
    match was
    case Header(op, _) =>
      if !op.Write? then Silent
      else if now.Copy? then Accepted(op.id, op.arr)
      else Rejected(op.id, op.arr)
    case Reading(op, _, _) =>
      if op.Read? && now.DropSlot? && now.res.Got? then Returned(op.id, now.res.arr) else Silent
    case FreeEntry(_, slot) => if slot < |t| then Erased(t[slot].desc) else Silent
    case InMaster(op) =>
      if now.ReleaseMaster? && now.res == Failed(NotFound) && NamesSlot(op) then Missing(op.id) else Silent
    case _ => Silent
  }

  /** How an event acts on the binding of one id: a first write binds the array, a later one
      replaces the bytes of a compatible binding, a read returns the binding in force. */
  predicate BindingStep(id: string, was: Option<SlotArray>, ev: Event, now: Option<SlotArray>) {
    match ev
    case Accepted(i, a) =>
      if i != id then now == was
      else if was.None? then now == Some(a)
      else Compatible(a, was.value.typeID, was.value.dims) && now == Some(was.value.(data := a.data))
    case Rejected(i, a) =>
      now == was && (i == id ==> was.Some? && !Compatible(a, was.value.typeID, was.value.dims))
    case Returned(i, a) => now == was && (i == id ==> was == Some(a))
    case Erased(i) => if i == id then now.None? else now == was
    case Missing(i) => now == was && (i == id ==> was.None?)
    case Silent => now == was
  }

  /** Under the slot lock the segment of a snapshot is what its id is bound to. */
  lemma SnapshotIsBinding(st: State, p: nat, op: Op, snap: Snapshot)
    requires Inv(st) && p < |st.procs| && NamesSlot(op) && SnapOk(st, op, snap) && ValidOp(op)
    requires HeldSlot(st.procs[p]) == snap.lockId && !HoldsMaster(st.procs[p])
    requires st.segs[snap.shm].live
    ensures Lookup(st.table, op.id) == Some(snap.lockId - 1)
    ensures st.table[snap.lockId - 1].shmid == snap.shm
  {
    hide ProcOk;
    var s := snap.lockId - 1;
    HolderAt(st, p);
    SegmentAt(st, snap.shm);
    assert !Registering(st, snap.shm) by { NotRegistering(st, p, snap.shm); }
    EntryAt(st, s);
    assert st.table[s].shmid == snap.shm;
    LookupAt(st.table, s);
  }

  lemma NotRegistering(st: State, p: nat, x: int)
    requires Inv(st) && p < |st.procs| && x in st.segs && HeldSlot(st.procs[p]) == st.segs[x].slot + 1
    requires !HoldsMaster(st.procs[p])
    ensures Sized(st) && !Registering(st, x)
  {
    hide Inv;
    SizedAt(st);
    if Registering(st, x) {
      var o := st.owner[0];
      HolderAt(st, o);
      ProcAt(st, o);
      HolderAt(st, p);
      assert false;
    }
  }

  /** Replacing segment `x`, named by slot `s`, moves the binding of that slot's id alone. */
  lemma RebindOne(st: State, st': State, s: nat, id: string)
    requires Inv(st) && s < |st.table| && st.table[s].shmid in st.segs
    requires st'.table == st.table
    requires st.table[s].shmid in st'.segs
    requires st'.segs == st.segs[st.table[s].shmid := st'.segs[st.table[s].shmid]]
    requires id != st.table[s].desc
    ensures Bound(st', id) == Bound(st, id)
  {
    hide Inv, Lookup;
    var found := Lookup(st.table, id);
    if found.Some? {
      EntryAt(st, found.value);
      EntryAt(st, s);
    }
  }

  lemma SameBindings(st: State, st': State, id: string)
    requires st'.table == st.table
    requires forall x :: x in st.segs ==> x in st'.segs && st'.segs[x].hist == st.segs[x].hist
    requires forall x :: x in st'.segs && x !in st.segs ==> st'.segs[x].hist == []
    ensures Bound(st', id) == Bound(st, id)
  {
  }

  lemma AcceptRefines(st: State, p: nat, c: Choice, id: string)
    requires CanStep(st, p, c) && st.procs[p].Header?
    ensures BindingStep(id, Bound(st, id), EventOf(st.table, st.procs[p], ProcOf(Next(st, p, c), p)),
                        Bound(Next(st, p, c), id))
  {
    hide Inv, Lookup, ProcOk, Step, Shape, HeaderDims, Load;
    var Header(op, snap) := st.procs[p];
    HeaderFacts(st, p, op, snap);
    ProcAt(st, p);
    HeaderNext(st, p, c);
    var st' := Next(st, p, c);
    if id != op.id {
      if ProcOf(st', p).Copy? { RebindOne(st, st', snap.lockId - 1, id); }
    }
  }

  lemma HeaderFacts(st: State, p: nat, op: Op, snap: Snapshot)
    requires Inv(st) && p < |st.procs| && st.procs[p] == Header(op, snap)
    ensures op.Write? && Mapped(st, snap) && Lookup(st.table, op.id) == Some(snap.lockId - 1)
    ensures st.table[snap.lockId - 1].shmid == snap.shm && st.table[snap.lockId - 1].desc == op.id
    ensures var seg := st.segs[snap.shm];
            && (seg.hist == [] <==> Load(seg.cells, 0) == UNSET_TYPE)
            && (seg.hist != [] ==>
              && Load(seg.cells, 0) == seg.hist[0].typeID
              && Load(seg.cells, 1) == |seg.hist[0].dims| && HeaderDims(seg.cells) == seg.hist[0].dims)
  {
    hide Inv, Lookup;
    ProcAt(st, p);
    HeaderRead(st, p, op, snap);
    SnapshotIsBinding(st, p, op, snap);
  }

  lemma ReturnRefines(st: State, p: nat, c: Choice, id: string)
    requires CanStep(st, p, c) && st.procs[p].Reading?
    ensures BindingStep(id, Bound(st, id), EventOf(st.table, st.procs[p], ProcOf(Next(st, p, c), p)),
                        Bound(Next(st, p, c), id))
  {
    hide Inv, Bound;
    var Reading(op, snap, out) := st.procs[p];
    ReadsBinding(st, p, op, snap, out);
    SlotUnmoved(st, p, c);
    SameBindings(st, Next(st, p, c), id);
  }

  /** What a finished reader has is what its id is bound to. */
  lemma ReadsBinding(st: State, p: nat, op: Op, snap: Snapshot, out: seq<int>)
    requires Inv(st) && p < |st.procs| && st.procs[p] == Reading(op, snap, out)
    ensures op.Read? && (Complete(out) ==> Bound(st, op.id) == Some(Parse(out)))
  {
    hide Inv, Lookup;
    ProcAt(st, p);
    ReadingFacts(st, p, op, snap, out);
    SnapshotIsBinding(st, p, op, snap);
  }

  /** Changing the entry of one slot moves the bindings of its old and new ids alone. */
  lemma SlotRebinds(st: State, st': State, slot: nat, id: string)
    requires Inv(st) && Inv(st') && slot < |st.table|
    requires st'.segs == st.segs && |st'.table| == |st.table|
    requires st'.table == st.table[slot := st'.table[slot]]
    ensures id != st.table[slot].desc && id != st'.table[slot].desc ==> Bound(st', id) == Bound(st, id)
    ensures id != st'.table[slot].desc && id == st.table[slot].desc ==> Bound(st', id).None?
  {
    hide Inv, Lookup;
    DistinctAt(st);
    DistinctAt(st');
    var was, now := Lookup(st.table, id), Lookup(st'.table, id);
    if was.Some? {
      EntryAt(st, was.value);
      if id != "" && was.value != slot { LookupAt(st'.table, was.value); }
    }
    if now.Some? {
      EntryAt(st', now.value);
      if id != "" && now.value != slot { LookupAt(st.table, now.value); }
    }
    EmptyUnbound(st);
  }

  lemma DistinctAt(st: State)
    requires Inv(st)
    ensures DistinctIds(st.table)
  {
  }

  /** No segment has id 0, the mark of an empty slot. */
  lemma EmptyUnbound(st: State)
    requires Inv(st)
    ensures 0 !in st.segs
  {
    if 0 in st.segs { SegmentAt(st, 0); }
  }

  lemma RegisterEntry(st: State, p: nat, c: Choice)
    requires CanStep(st, p, c) && st.procs[p].Register? && st.procs[p].slot < |st.table|
    ensures Next(st, p, c).table == st.table[st.procs[p].slot := Entry(st.procs[p].shm, Stored(st.procs[p].op.id))]
  {
    hide Inv, Shape;
  }

  lemma RegisterRefines(st: State, p: nat, c: Choice, id: string)
    requires CanStep(st, p, c) && st.procs[p].Register?
    ensures Bound(Next(st, p, c), id) == Bound(st, id)
  {
    hide Inv, Lookup;
    var Register(op, slot, x) := st.procs[p];
    var st' := Next(st, p, c);
    ProcAt(st, p);
    EntryAt(st, slot);
    StepKeeps(st, p, c);
    SlotRebinds(st, st', slot, id);
    if id == op.id {
      DistinctAt(st');
      LookupAt(st'.table, slot);
    } else if id == "" {
      EmptyRefines(st, st');
    }
  }

  lemma EmptyRefines(st: State, st': State)
    requires Inv(st) && Inv(st')
    ensures Bound(st, "").None? && Bound(st', "").None?
  {
    hide Inv, Lookup;
    EmptyUnbound(st);
    EmptyUnbound(st');
    var was, now := Lookup(st.table, ""), Lookup(st'.table, "");
    if was.Some? { EntryAt(st, was.value); }
    if now.Some? { EntryAt(st', now.value); }
  }

  lemma EraseRefines(st: State, p: nat, c: Choice, id: string)
    requires CanStep(st, p, c) && st.procs[p].FreeEntry?
    ensures BindingStep(id, Bound(st, id), EventOf(st.table, st.procs[p], ProcOf(Next(st, p, c), p)),
                        Bound(Next(st, p, c), id))
  {
    hide Inv, Lookup;
    var FreeEntry(op, slot) := st.procs[p];
    var st' := Next(st, p, c);
    ProcAt(st, p);
    EntryAt(st, slot);
    SegmentAt(st, st.table[slot].shmid);
    StepKeeps(st, p, c);
    SlotRebinds(st, st', slot, id);
    EmptyRefines(st, st');
  }

  /** A step that touches neither the table nor any history says nothing to the outside, save
      that a call on an unbound id reports it missing. */
  lemma QuietRefines(st: State, p: nat, c: Choice, id: string)
    requires CanStep(st, p, c)
    requires !st.procs[p].Header? && !st.procs[p].Reading? && !st.procs[p].FreeEntry? && !st.procs[p].Register?
    ensures BindingStep(id, Bound(st, id), EventOf(st.table, st.procs[p], ProcOf(Next(st, p, c), p)),
                        Bound(Next(st, p, c), id))
  {
    hide Inv, Lookup;
    QuietTables(st, p, c);
    SameBindings(st, Next(st, p, c), id);
  }

  /** No history and no table entry changes. */
  ghost predicate Unmoved(st: State, st': State) {
    && st'.table == st.table
    && (forall x :: x in st.segs ==> x in st'.segs && st'.segs[x].hist == st.segs[x].hist)
    && (forall x :: x in st'.segs && x !in st.segs ==> st'.segs[x].hist == [])
  }

  predicate WritesSegment(pr: Proc) {
    pr.MakeSegment? || pr.MarkNew? || pr.Copy? || pr.FreeSegment?
  }

  lemma QuietTables(st: State, p: nat, c: Choice)
    requires CanStep(st, p, c)
    requires !st.procs[p].Header? && !st.procs[p].FreeEntry? && !st.procs[p].Register?
    ensures Unmoved(st, Next(st, p, c))
  {
    hide Inv;
    ProcAt(st, p);
    if WritesSegment(st.procs[p]) {
      SegmentWriteUnmoved(st, p, c);
    } else {
      NoWriteUnmoved(st, p, c);
    }
  }

  lemma SegmentWriteUnmoved(st: State, p: nat, c: Choice)
    requires Shape(st) && p < |st.procs| && Step(st, p, c).Some? && Fits(st, st.procs[p])
    requires WritesSegment(st.procs[p])
    ensures Unmoved(st, Next(st, p, c))
  {
    hide Shape, Step, Unmoved;
    if HoldsMaster(st.procs[p]) {
      MasterWriteUnmoved(st, p, c);
    } else {
      SlotWriteUnmoved(st, p, c);
    }
  }

  lemma MasterWriteUnmoved(st: State, p: nat, c: Choice)
    requires Shape(st) && p < |st.procs| && Step(st, p, c).Some? && Fits(st, st.procs[p])
    requires st.procs[p].MakeSegment? || st.procs[p].FreeSegment?
    ensures Unmoved(st, Next(st, p, c))
  {
    hide Shape;
  }

  lemma SlotWriteUnmoved(st: State, p: nat, c: Choice)
    requires Shape(st) && p < |st.procs| && Step(st, p, c).Some? && Fits(st, st.procs[p])
    requires st.procs[p].MarkNew? || st.procs[p].Copy?
    ensures Unmoved(st, Next(st, p, c))
  {
    hide Shape;
  }

  lemma NoWriteUnmoved(st: State, p: nat, c: Choice)
    requires Shape(st) && p < |st.procs| && Step(st, p, c).Some?
    requires !st.procs[p].Header? && !st.procs[p].FreeEntry? && !st.procs[p].Register? && !WritesSegment(st.procs[p])
    ensures Next(st, p, c).table == st.table && Next(st, p, c).segs == st.segs
  {
    hide Shape, Step;
    if HoldsMaster(st.procs[p]) {
      MasterUnmoved(st, p, c);
    } else if InSlot(st.procs[p]) {
      SlotUnmoved(st, p, c);
    } else {
      OutsideUnmoved(st, p, c);
    }
  }

  lemma MasterUnmoved(st: State, p: nat, c: Choice)
    requires Shape(st) && p < |st.procs| && Step(st, p, c).Some?
    requires HoldsMaster(st.procs[p]) && !WritesSegment(st.procs[p])
    requires !st.procs[p].FreeEntry? && !st.procs[p].Register?
    ensures Next(st, p, c).table == st.table && Next(st, p, c).segs == st.segs
  {
    hide Shape, Step;
    if st.procs[p].InMaster? || st.procs[p].Scan? {
      ScansUnmoved(st, p, c);
    } else {
      LocksUnmoved(st, p, c);
    }
  }

  lemma ScansUnmoved(st: State, p: nat, c: Choice)
    requires Shape(st) && p < |st.procs| && Step(st, p, c).Some? && (st.procs[p].InMaster? || st.procs[p].Scan?)
    ensures Next(st, p, c).table == st.table && Next(st, p, c).segs == st.segs
  {
    hide Shape, Lookup, FreeIndex, Acquire, Release;
  }

  lemma LocksUnmoved(st: State, p: nat, c: Choice)
    requires Shape(st) && p < |st.procs| && Step(st, p, c).Some? && HoldsMaster(st.procs[p])
    requires !st.procs[p].FreeEntry? && !st.procs[p].Register? && !WritesSegment(st.procs[p])
    requires !st.procs[p].InMaster? && !st.procs[p].Scan?
    ensures Next(st, p, c).table == st.table && Next(st, p, c).segs == st.segs
  {
    hide Shape, StepInMaster, StepScan, StepMakeSegment, StepFreeSegment;
  }

  lemma SlotUnmoved(st: State, p: nat, c: Choice)
    requires Shape(st) && p < |st.procs| && Step(st, p, c).Some?
    requires InSlot(st.procs[p]) && !st.procs[p].Header? && !WritesSegment(st.procs[p])
    ensures Next(st, p, c).table == st.table && Next(st, p, c).segs == st.segs
  {
    hide Shape, Complete, Parse, StepHeader, StepCopy, AfterSlot;
  }

  lemma OutsideUnmoved(st: State, p: nat, c: Choice)
    requires Shape(st) && p < |st.procs| && Step(st, p, c).Some?
    requires !HoldsMaster(st.procs[p]) && !InSlot(st.procs[p]) && !WritesSegment(st.procs[p])
    ensures Next(st, p, c).table == st.table && Next(st, p, c).segs == st.segs
  {
    hide Shape, Waiters;
  }

  /** Every step of every process acts on each id's binding exactly as its event says. */
  lemma StepRefinesMap(st: State, p: nat, c: Choice, id: string)
    requires CanStep(st, p, c)
    ensures BindingStep(id, Bound(st, id), EventOf(st.table, st.procs[p], ProcOf(Next(st, p, c), p)),
                        Bound(Next(st, p, c), id))
  {
    hide Inv, Step, Bound, BindingStep;
    match st.procs[p]
    case Header(_, _) => AcceptRefines(st, p, c, id);
    case Reading(_, _, _) => ReturnRefines(st, p, c, id);
    case FreeEntry(_, _) => EraseRefines(st, p, c, id);
    case Register(_, _, _) => RegisterRefines(st, p, c, id); SilentStep(id, Bound(st, id));
    case _ => QuietRefines(st, p, c, id);
  }

  lemma SilentStep(id: string, b: Option<SlotArray>)
    ensures BindingStep(id, b, Silent, b)
  {
  }
}
