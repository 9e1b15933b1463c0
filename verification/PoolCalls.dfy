/** What the calls return: every call takes effect at one step between its begin and its return,
    and returns what that step says. */
module PoolCalls {
  import opened Arrays
  import opened Table
  import opened Pool
  import opened PoolInvariant
  import opened PoolProof
  import opened PoolTheorems
  import opened PoolFlow
  import opened PoolRuns

  // ------------------------------------------------------------ results and events

  /** The event a call's result announces, Silent if the call had no effect and saw nothing. A
      write whose publishing failed has been accepted all the same. */
  function Announced(op: Op, res: Result): Event {
    match op
    case Write(id, arr, _) =>
      if res == Success || res == Failed(Unpublished) then Accepted(id, arr)
      else if res == Failed(Incompatible) then Rejected(id, arr)
      else Silent
    case Read(id, _) =>
      if res.Got? then Returned(id, res.arr)
      else if res == Failed(NotFound) then Missing(id)
      else Silent
    case Free(id) =>
      if res == Success then Erased(id)
      else if res == Failed(NotFound) then Missing(id)
      else Silent
    case _ => Silent
  }

  /** What a call has done so far, told from where its process stands. */
  function Effect(pr: Proc): Event {
    match pr
    case Copy(op, _, _, _) => Announced(op, Success)
    case DropSlot(op, _, res, _) => Announced(op, res)
    case CountWaiters(op, _, _) => Announced(op, Success)
    case Post(op, _, _, _) => Announced(op, Success)
    case WaitZero(op, _) => Announced(op, Success)
    case FreeUnlock(op, _) => Announced(op, Success)
    case ReleaseMaster(op, res) => Announced(op, res)
    case Done(op, res) => Announced(op, res)
    case _ => Silent
  }

  /** The process is inside a call of `op`. */
  predicate Calling(pr: Proc, op: Op) { !pr.Idle? && pr.op == op }

  /** A step adds its event, if any, to what the call has done, and a call has one event. */
  predicate AddsEvent(was: Proc, ev: Event, now: Proc) {
    if ev.Silent? then Effect(now) == Effect(was) else Effect(was).Silent? && Effect(now) == ev
  }

  /** What the process's own code points do not tell: a free finds its slot in use, and empties
      the slot of its id. */
  predicate FreesItsOwn(st: State, was: Proc, now: Proc) {
    && (was.InMaster? && was.op.Free? ==> now != ReleaseMaster(was.op, Success))
    && (was.FreeEntry? && was.op.Free? ==> was.slot < |st.table| && st.table[was.slot].desc == was.op.id)
  }

  /** The slot loops belong to calls that name no slot, publishing to writes. */
  predicate RightOp(pr: Proc) {
    && (pr.Scan? || pr.InfoUnlock? || pr.RemoveSemaphores? || pr.RemoveMaster? ==> !NamesSlot(pr.op))
    && (pr.CountWaiters? || pr.Post? || pr.WaitZero? ==> pr.op.Write?)
  }

  lemma FitsRightOp(st: State, pr: Proc)
    requires Fits(st, pr)
    ensures RightOp(pr)
  {
  }

  lemma EventAdds(st: State, was: Proc, now: Proc)
    requires Follows(was, now) && Fits(st, was) && FreesItsOwn(st, was, now)
    requires !was.Idle? && !was.Done? && NamesSlot(was.op)
    ensures Calling(now, was.op) && AddsEvent(was, EventOf(st.table, was, now), now)
  {
    hide Follows, Fits, FreesItsOwn, EventOf, AddsEvent, RightOp;
    FitsRightOp(st, was);
    if was.InMaster? {
      EventInMaster(st, was, now);
    } else if was.FreeEntry? || was.FreeUnlock? {
      EventFreeing(st, was, now);
    } else if HoldsMaster(was) {
      EventUnderMaster(st, was, now);
    } else if was.Header? || was.Copy? || was.Reading? {
      EventAtData(st, was, now);
    } else if InSlot(was) {
      EventInSlot(st, was, now);
    } else {
      EventOutside(st, was, now);
    }
  }

  lemma EventInMaster(st: State, was: Proc, now: Proc)
    requires Follows(was, now) && Fits(st, was) && FreesItsOwn(st, was, now)
    requires was.InMaster? && NamesSlot(was.op)
    ensures Calling(now, was.op) && AddsEvent(was, EventOf(st.table, was, now), now)
  {
  }

  lemma EventFreeing(st: State, was: Proc, now: Proc)
    requires Follows(was, now) && Fits(st, was) && FreesItsOwn(st, was, now)
    requires (was.FreeEntry? || was.FreeUnlock?) && NamesSlot(was.op)
    ensures Calling(now, was.op) && AddsEvent(was, EventOf(st.table, was, now), now)
  {
  }

  lemma EventUnderMaster(st: State, was: Proc, now: Proc)
    requires Follows(was, now) && RightOp(was)
    requires HoldsMaster(was) && NamesSlot(was.op)
    requires !was.InMaster? && !was.FreeEntry? && !was.FreeUnlock?
    ensures Calling(now, was.op) && AddsEvent(was, EventOf(st.table, was, now), now)
  {
    hide FromTable, FromWait, FromAttach;
  }

  lemma EventAtData(st: State, was: Proc, now: Proc)
    requires Follows(was, now) && Fits(st, was) && FreesItsOwn(st, was, now)
    requires was.Header? || was.Copy? || was.Reading?
    ensures Calling(now, was.op) && AddsEvent(was, EventOf(st.table, was, now), now)
  {
  }

  lemma EventInSlot(st: State, was: Proc, now: Proc)
    requires Follows(was, now) && Fits(st, was) && FreesItsOwn(st, was, now)
    requires InSlot(was) && !was.Header? && !was.Copy? && !was.Reading?
    ensures Calling(now, was.op) && AddsEvent(was, EventOf(st.table, was, now), now)
  {
    hide Fits, FreesItsOwn, FromTable, FromScan, FromWait;
  }

  lemma EventOutside(st: State, was: Proc, now: Proc)
    requires Follows(was, now) && !HoldsMaster(was) && !InSlot(was) && !was.Idle? && !was.Done?
    requires RightOp(was)
    ensures Calling(now, was.op) && AddsEvent(was, EventOf(st.table, was, now), now)
  {
    hide FromTable, FromScan, FromAttach;
  }

  lemma FreeFacts(st: State, p: nat, c: Choice)
    requires CanStep(st, p, c)
    ensures FreesItsOwn(st, st.procs[p], ProcOf(Next(st, p, c), p))
  {
    hide Inv, Lookup;
    ProcAt(st, p);
    var pr := st.procs[p];
    if pr.InMaster? && pr.op.Free? {
      var found := Lookup(st.table, pr.op.id);
      if found.Some? { EntryAt(st, found.value); }
    }
  }

  lemma CallStep(st: State, p: nat, c: Choice)
    requires CanStep(st, p, c) && !st.procs[p].Idle? && !st.procs[p].Done? && NamesSlot(st.procs[p].op)
    ensures var was, now := st.procs[p], ProcOf(Next(st, p, c), p);
            Calling(now, was.op) && AddsEvent(was, EventOf(st.table, was, now), now)
  {
    hide Inv, Step, Follows, Fits, FreesItsOwn;
    ProcAt(st, p);
    StepFollows(st, p, c);
    FreeFacts(st, p, c);
    EventAdds(st, st.procs[p], ProcOf(Next(st, p, c), p));
  }

  // ------------------------------------------------------------ calls in a run

  /** From step `b` on, which begins it, up to state `k` process `p` is in one call of `op`. */
  ghost predicate CallSpan(tr: seq<State>, moves: seq<Move>, b: nat, k: nat, p: nat, op: Op) {
    && |tr| == |moves| + 1 && b < k < |tr|
    && ProcOf(tr[b], p).Idle? && moves[b] == Move(p, Begin(op))
    && forall m :: b < m <= k ==> Calling(ProcOf(tr[m], p), op)
  }

  /** Among the steps of `p` from `b` on and before `k` none has an event, except step `e`. */
  ghost predicate QuietBut(tr: seq<State>, moves: seq<Move>, b: nat, k: nat, p: nat, e: int)
    requires |tr| == |moves| + 1 && k < |tr|
  {
    forall m: nat :: b <= m < k && m != e && moves[m].p == p ==> EventAt(tr, moves, m).Silent?
  }

  /** The steps of `p` between `b` and `k` have the one event `ev`, at step `e`; none at all if
      `ev` is Silent. */
  ghost predicate OneEvent(tr: seq<State>, moves: seq<Move>, b: nat, k: nat, p: nat, e: int, ev: Event)
    requires |tr| == |moves| + 1 && k < |tr|
  {
    && QuietBut(tr, moves, b, k, p, e)
    && if ev.Silent? then e == -1 else b < e < k && moves[e].p == p && EventAt(tr, moves, e) == ev
  }

  lemma {:induction false} BeginAt(tr: seq<State>, moves: seq<Move>, b: nat, p: nat, op: Op)
    requires Run(tr, moves) && b < |moves| && moves[b].p == p
    requires ProcOf(tr[b], p).Idle? && Calling(ProcOf(tr[b + 1], p), op)
    ensures CallSpan(tr, moves, b, b + 1, p, op) && EventAt(tr, moves, b).Silent?
    ensures Effect(ProcOf(tr[b + 1], p)).Silent?
  {
    hide Inv, Step, Shape;
    StepOf(tr, moves, b);
    ProcAt(tr[b], p);
    StepFollows(tr[b], p, moves[b].c);
  }

  lemma {:induction false} OthersStand(tr: seq<State>, moves: seq<Move>, k: nat, p: nat)
    requires Run(tr, moves) && k < |moves| && moves[k].p != p
    ensures ProcOf(tr[k + 1], p) == ProcOf(tr[k], p)
  {
    hide Inv, Step, Shape;
    StepOf(tr, moves, k);
    StepFrame(tr[k], moves[k].p, moves[k].c);
  }

  lemma {:induction false} NobodyCallsYet(tr: seq<State>, moves: seq<Move>, p: nat)
    requires Run(tr, moves)
    ensures ProcOf(tr[0], p).Idle?
  {
    var n: nat, procs: nat :| tr[0] == Initial(n, procs);
  }

  /** A process inside a call began it, and has had exactly the one event that its code point
      tells, or none. */
  lemma {:induction false} CallSoFar(tr: seq<State>, moves: seq<Move>, k: nat, p: nat, op: Op) returns (b: nat, e: int)
    requires Run(tr, moves) && k < |tr| && Calling(ProcOf(tr[k], p), op) && NamesSlot(op)
    ensures CallSpan(tr, moves, b, k, p, op)
    ensures OneEvent(tr, moves, b, k, p, e, Effect(ProcOf(tr[k], p)))
  {
    hide Inv, Step, Shape, Effect, EventOf;
    NobodyCallsYet(tr, moves, p);
    if moves[k - 1].p != p {
      OthersStand(tr, moves, k - 1, p);
      b, e := CallSoFar(tr, moves, k - 1, p, op);
    } else if ProcOf(tr[k - 1], p).Idle? {
      b, e := k - 1, -1;
      BeginAt(tr, moves, b, p, op);
    } else {
      CallGoesOn(tr, moves, k - 1, p, op);
      b, e := CallSoFar(tr, moves, k - 1, p, op);
      if !EventAt(tr, moves, k - 1).Silent? { e := k - 1; }
    }
  }

  lemma {:induction false} CallGoesOn(tr: seq<State>, moves: seq<Move>, k: nat, p: nat, op: Op)
    requires Run(tr, moves) && k < |moves| && moves[k].p == p && NamesSlot(op)
    requires !ProcOf(tr[k], p).Idle? && Calling(ProcOf(tr[k + 1], p), op)
    ensures Calling(ProcOf(tr[k], p), op) && AddsEvent(ProcOf(tr[k], p), EventAt(tr, moves, k), ProcOf(tr[k + 1], p))
  {
    hide Inv, Step, Shape, Effect, EventOf, AddsEvent;
    StepOf(tr, moves, k);
    ProcAt(tr[k], p);
    if tr[k].procs[p].Done? || !NamesSlot(tr[k].procs[p].op) {
      StepFollows(tr[k], p, moves[k].c);
      KeepsOp(tr[k].procs[p], tr[k + 1].procs[p], tr[k]);
    } else {
      CallStep(tr[k], p, moves[k].c);
    }
  }

  lemma KeepsOp(was: Proc, now: Proc, st: State)
    requires Follows(was, now) && !was.Idle? && !now.Idle? && Fits(st, was)
    ensures !was.Done? && now.op == was.op
  {
    hide Fits;
  }

  /** Linearizability: in every run, a write, read or free that returns took effect at one step
      between its begin and its return, or had no effect if its result announces none; that step
      is legal for a plain map from ids to arrays on which the events so far have acted in
      order, and the result is the one it gives. */
  lemma {:induction false} RunIsLinearizable(tr: seq<State>, moves: seq<Move>, k: nat) returns (b: nat, e: int)
    requires Run(tr, moves) && k < |moves|
    requires ProcOf(tr[k], moves[k].p).Done? && NamesSlot(ProcOf(tr[k], moves[k].p).op)
    ensures var p, Done(op, res) := moves[k].p, ProcOf(tr[k], moves[k].p);
            && ProcOf(tr[k + 1], p).Idle?
            && CallSpan(tr, moves, b, k, p, op)
            && OneEvent(tr, moves, b, k, p, e, Announced(op, res))
            && (0 <= e ==> Legal(Meaning(tr, moves, e, op.id), Announced(op, res)))
            && (res == Failed(Unpublished) ==> op.Write? && op.publish)
  {
    hide Inv, Step, Shape, EventOf, Announced, Legal, Meaning;
    var p := moves[k].p;
    var Done(op, res) := ProcOf(tr[k], p);
    b, e := CallSoFar(tr, moves, k, p, op);
    StepOf(tr, moves, k);
    ProcAt(tr[k], p);
    StepFollows(tr[k], p, moves[k].c);
    if 0 <= e {
      EventsAreLegal(tr, moves, e);
      AnnouncesItsId(op, res);
    }
  }

  lemma AnnouncesItsId(op: Op, res: Result)
    requires NamesSlot(op) && !Announced(op, res).Silent?
    ensures Announced(op, res).id == op.id
  {
  }

  /** A publish fails exactly if the semaphores are gone at its post or at its wait; by then the
      write has been accepted. */
  lemma {:induction false} PublishFailsIff(tr: seq<State>, moves: seq<Move>, k: nat)
    requires Run(tr, moves) && k < |moves|
    requires ProcOf(tr[k], moves[k].p).Post? || ProcOf(tr[k], moves[k].p).WaitZero?
    ensures var was, now := ProcOf(tr[k], moves[k].p), ProcOf(tr[k + 1], moves[k].p);
            && (now == Done(was.op, Failed(Unpublished)) <==> !tr[k].semsAlive)
            && was.op.Write? && was.op.publish && Effect(was) == Accepted(was.op.id, was.op.arr)
  {
    hide Inv;
    StepOf(tr, moves, k);
    ProcAt(tr[k], moves[k].p);
  }

  /** No torn reads, over runs: a read that returns an array found it at one step `e` of the call,
      as the writes accepted so far into a segment `x` made for its id: the type and dimensions of
      the first, the bytes of the last. */
  lemma {:induction false} ReadsReturnAcceptedWrites(tr: seq<State>, moves: seq<Move>, k: nat)
      returns (b: nat, e: nat, x: int)
    requires Run(tr, moves) && k < |moves| && ProcOf(tr[k], moves[k].p).Done?
    requires ProcOf(tr[k], moves[k].p).op.Read? && ProcOf(tr[k], moves[k].p).res.Got?
    ensures var p, Done(op, res) := moves[k].p, ProcOf(tr[k], moves[k].p);
            && CallSpan(tr, moves, b, k, p, op) && b < e < k && moves[e].p == p
            && x in tr[e].segs && tr[e].segs[x].id == op.id && WellFormed(res.arr)
            && var writes := AcceptedWrites(tr, moves, e, x);
               && writes != []
               && res.arr == SlotArray(writes[0].typeID, writes[0].dims, writes[|writes| - 1].data)
  {
    hide Inv, Step, Shape;
    var p := moves[k].p;
    var at: int;
    b, at := RunIsLinearizable(tr, moves, k);
    e := at;
    x := tr[e].procs[p].snap.shm;
    FinishedReadIsAcceptedWrites(tr, moves, e);
  }
}
