/** A write that returns -1 may have been accepted: a run in which the pool is cleaned up between
    a publishing write's release of its slot and its post. */
module PoolUnpublished {
  import opened Arrays
  import opened Table
  import opened Pool
  import opened PoolProof
  import opened PoolTheorems
  import opened PoolRuns
  import opened PoolCalls

  /** An array of no bytes. */
  const NOTHING := SlotArray(0, [0], [])
  const PUBLISH := Write("a", NOTHING, true)
  const SNAP := Snapshot(1, 1, 2)

  // Process 0 publishes in moves 0 to 15, process 1 cleans up in moves 16 to 25.

  function Publisher(i: nat): Proc {
    if i == 0 then Idle
    else if i == 1 then LockMaster(PUBLISH)
    else if i == 2 then InMaster(PUBLISH)
    else if i == 3 then LockSlot(PUBLISH, 0, true)
    else if i == 4 then MakeSegment(PUBLISH, 0)
    else if i == 5 then Register(PUBLISH, 0, 1)
    else if i == 6 then TakeSnapshot(PUBLISH, 0, true)
    else if i == 7 then DropMaster(PUBLISH, SNAP, true)
    else if i == 8 then Attach(PUBLISH, SNAP, true)
    else if i == 9 then MarkNew(PUBLISH, SNAP)
    else if i == 10 then Header(PUBLISH, SNAP)
    else if i <= 14 then Copy(PUBLISH, SNAP, i - 11, 1)
    else if i == 15 then DropSlot(PUBLISH, SNAP, Success, 1)
    else CountWaiters(PUBLISH, SNAP, 1)
  }

  function Cleaner(i: nat): Proc {
    if i <= 16 then Idle
    else if i == 17 then LockMaster(Cleanup)
    else if i == 18 then InMaster(Cleanup)
    else if i == 19 then Scan(Cleanup, 0)
    else if i == 20 then FreeLock(Cleanup, 0)
    else if i == 21 then FreeSegment(Cleanup, 0)
    else if i == 22 then FreeEntry(Cleanup, 0)
    else if i == 23 then FreeUnlock(Cleanup, 0)
    else if i == 24 then Scan(Cleanup, 1)
    else RemoveSemaphores(Cleanup)
  }

  function MoveAt(i: nat): Move {
    if i < 16 then Move(0, if i == 0 then Begin(PUBLISH) else if i == 4 then NewSegment(1) else Go)
    else Move(1, if i == 16 then Begin(Cleanup) else Go)
  }

  /** The pool of one slot and two processes after `i` moves. */
  predicate Stage(st: State, i: nat) {
    && st.procs == [Publisher(i), Cleaner(i)]
    && |st.sems| == 3 && |st.owner| == 2 && |st.posted| == 1 && |st.consumed| == 1
    && st.sems[0] == (if 2 <= i <= 7 || 18 <= i then 0 else 1)
    && st.sems[1] == (if 4 <= i <= 15 || 21 <= i <= 23 then 0 else 1)
    && st.table == [if 6 <= i <= 22 then Entry(1, "a") else Entry(0, "")]
    && st.semsAlive && st.masterAlive
    && if i < 5 then st.segs == map[] else st.segs.Keys == {1} && StageSegment(st.segs[1], i)
  }

  predicate StageSegment(seg: Segment, i: nat) {
    && seg.slot == 0 && seg.live == (i < 22) && seg.hist == (if i < 11 then [] else [NOTHING])
    && |seg.cells| == 16 && seg.cells[0] == (if 10 <= i <= 11 then UNSET_TYPE else 0)
  }

  /** Move `i` is possible and leads to the next stage. */
  ghost predicate Leads(st: State, i: nat) {
    var m := MoveAt(i);
    Shape(st) && m.p < |st.procs| && Step(st, m.p, m.c).Some? && Stage(Next(st, m.p, m.c), i + 1)
  }

  lemma Locking(st: State, i: nat)
    requires Stage(st, i) && 0 <= i <= 2
    ensures Leads(st, i)
  {
  }

  lemma Creating(st: State, i: nat)
    requires Stage(st, i) && 3 <= i <= 5
    ensures Leads(st, i)
  {
  }

  lemma Attaching(st: State, i: nat)
    requires Stage(st, i) && 6 <= i <= 9
    ensures Leads(st, i)
  {
  }

  lemma Accepting(st: State, i: nat)
    requires Stage(st, i) && 10 <= i <= 12
    ensures Leads(st, i)
  {
  }

  lemma Leaving(st: State, i: nat)
    requires Stage(st, i) && 13 <= i <= 15
    ensures Leads(st, i)
  {
  }

  lemma Sweeping(st: State, i: nat)
    requires Stage(st, i) && 16 <= i <= 19
    ensures Leads(st, i)
  {
  }

  lemma Destroying(st: State, i: nat)
    requires Stage(st, i) && 20 <= i <= 22
    ensures Leads(st, i)
  {
  }

  lemma Ending(st: State, i: nat)
    requires Stage(st, i) && 23 <= i <= 24
    ensures Leads(st, i)
  {
  }

  lemma StageLeads(st: State, i: nat)
    requires Stage(st, i) && i < 25
    ensures Leads(st, i)
  {
    hide Stage, Leads;
    if i <= 2 { Locking(st, i); }
    else if i <= 5 { Creating(st, i); }
    else if i <= 9 { Attaching(st, i); }
    else if i <= 12 { Accepting(st, i); }
    else if i <= 15 { Leaving(st, i); }
    else if i <= 19 { Sweeping(st, i); }
    else if i <= 22 { Destroying(st, i); }
    else { Ending(st, i); }
  }

  /** Some run ends in `st`. */
  ghost predicate Reached(st: State) {
    exists tr, moves :: Run(tr, moves) && tr[|moves|] == st
  }

  lemma {:induction false} Extend(st: State, p: nat, c: Choice) returns (st': State)
    requires Reached(st) && Shape(st) && p < |st.procs| && Step(st, p, c).Some?
    ensures st' == Next(st, p, c) && Reached(st')
  {
    var tr, moves :| Run(tr, moves) && tr[|moves|] == st;
    st' := Next(st, p, c);
    var tr', moves' := tr + [st'], moves + [Move(p, c)];
    forall i | 0 <= i < |moves'| ensures StepAt(tr', moves', i) {
      if i < |moves| { assert StepAt(tr, moves, i); }
    }
    assert tr'[|moves'|] == st';
  }

  lemma {:induction false} StageReached(i: nat) returns (st: State)
    requires i <= 25
    ensures Reached(st) && Stage(st, i)
  {
    hide Step, Shape;
    if i == 0 {
      st := Initial(1, 2);
      var none: seq<Move> := [];
      assert Run([st], none) && [st][|none|] == st;
    } else {
      hide Stage, Reached;
      st := StageReached(i - 1);
      StageLeads(st, i - 1);
      st := Extend(st, MoveAt(i - 1).p, MoveAt(i - 1).c);
    }
  }

  /** The semaphores go; then the publisher counts, cannot post and returns -1. */
  lemma RemovalFails(was: State) returns (st: State)
    requires Reached(was) && Stage(was, 25)
    ensures Reached(st) && !st.semsAlive && Shape(st) && st.procs == [Publisher(25), RemoveMaster(Cleanup)]
  {
    hide Reached;
    st := Extend(was, 1, Go);
  }

  lemma PostFails(was: State) returns (st: State)
    requires Reached(was) && !was.semsAlive && Shape(was) && was.procs == [Publisher(25), RemoveMaster(Cleanup)]
    ensures Reached(st) && ProcOf(st, 0) == Done(PUBLISH, Failed(Unpublished))
  {
    hide Reached;
    st := CountFails(was);
    st := Extend(st, 0, Go);
  }

  lemma CountFails(was: State) returns (st: State)
    requires Reached(was) && !was.semsAlive && Shape(was) && was.procs == [Publisher(25), RemoveMaster(Cleanup)]
    ensures Reached(st) && !st.semsAlive && Shape(st) && |st.procs| == 2 && st.procs[0] == Post(PUBLISH, SNAP, 1, -1)
  {
    hide Reached;
    st := Extend(was, 0, Go);
  }

  /** There is a run at whose end a write is about to return -1 although it has been accepted. */
  lemma AcceptedAndFailed() returns (tr: seq<State>, moves: seq<Move>, e: nat)
    ensures Run(tr, moves) && ProcOf(tr[|moves|], 0) == Done(PUBLISH, Failed(Unpublished))
    ensures e < |moves| && moves[e].p == 0 && EventAt(tr, moves, e) == Accepted("a", NOTHING)
  {
    hide Stage, Step, Shape;
    var st := StageReached(25);
    st := RemovalFails(st);
    st := PostFails(st);
    tr, moves :| Run(tr, moves) && tr[|moves|] == st;
    var b, at := CallSoFar(tr, moves, |moves|, 0, PUBLISH);
    e := at;
  }
}
