/** Guarantees over whole runs: every history variable is tied to what the processes did. */
module PoolRuns {
  import opened Arrays
  import opened Table
  import opened Pool
  import opened PoolInvariant
  import opened PoolProof
  import opened PoolTheorems

  lemma {:induction false} StepOf(tr: seq<State>, moves: seq<Move>, k: nat)
    requires Run(tr, moves) && k < |moves|
    ensures CanStep(tr[k], moves[k].p, moves[k].c)
    ensures tr[k + 1] == Next(tr[k], moves[k].p, moves[k].c)
    ensures |tr[k + 1].procs| == |tr[k].procs| && |tr[k + 1].table| == |tr[k].table|
  {
    RunKeeps(tr, moves, k);
    RunKeeps(tr, moves, k + 1);
    assert StepAt(tr, moves, k);
    StepFrame(tr[k], moves[k].p, moves[k].c);
  }

  /** Tables and processes are as many in every state. */
  lemma {:induction false} SameSize(tr: seq<State>, moves: seq<Move>, i: nat, j: nat)
    requires Run(tr, moves) && i <= j < |tr|
    ensures |tr[j].table| == |tr[i].table| && |tr[j].procs| == |tr[i].procs|
  {
    hide Step, Shape, Inv;
    if i < j {
      SameSize(tr, moves, i, j - 1);
      StepOf(tr, moves, j - 1);
    }
  }

  lemma {:induction false} RunStart(tr: seq<State>, moves: seq<Move>)
    requires Run(tr, moves)
    ensures |tr| == |moves| + 1 && tr[0].segs == map[]
  {
  }

  predicate Waiting(pr: Proc) { pr.Subscribe? || pr.Blocked? }

  /** What any step leaves alone, by where the process stands. */
  predicate Frame(st: State, p: nat, st': State) {
    && OnlyMoves(st, p, st')
    && (st'.semsAlive ==> st.semsAlive) && (st'.masterAlive ==> st.masterAlive)
    && (!ProcOf(st, p).Post? && !Waiting(ProcOf(st, p)) ==> st'.posted == st.posted && st'.consumed == st.consumed)
  }

  lemma StepFrame(st: State, p: nat, c: Choice)
    requires Shape(st) && p < |st.procs| && Step(st, p, c).Some?
    ensures Frame(st, p, Next(st, p, c))
  {
    hide Shape, Step, Frame;
    if HoldsMaster(st.procs[p]) {
      MasterFrame(st, p, c);
    } else if st.procs[p].Header? || st.procs[p].Copy? {
      StoreFrame(st, p, c);
    } else if InSlot(st.procs[p]) {
      SlotFrame(st, p, c);
    } else if st.procs[p].Post? {
      PostFrame(st, p, c);
    } else {
      OutsideFrame(st, p, c);
    }
  }

  lemma MasterFrame(st: State, p: nat, c: Choice)
    requires Shape(st) && p < |st.procs| && Step(st, p, c).Some? && HoldsMaster(st.procs[p])
    ensures Frame(st, p, Next(st, p, c))
  {
    hide Shape, Step, Frame;
    if st.procs[p].InMaster? || st.procs[p].MakeSegment? || st.procs[p].FreeSegment? || st.procs[p].Scan? {
      TableFrame(st, p, c);
    } else {
      EntryFrame(st, p, c);
    }
  }

  lemma TableFrame(st: State, p: nat, c: Choice)
    requires Shape(st) && p < |st.procs| && Step(st, p, c).Some?
    requires st.procs[p].InMaster? || st.procs[p].MakeSegment? || st.procs[p].FreeSegment? || st.procs[p].Scan?
    ensures Frame(st, p, Next(st, p, c))
  {
    hide Shape, Lookup, FreeIndex, Acquire, Release;
  }

  lemma EntryFrame(st: State, p: nat, c: Choice)
    requires Shape(st) && p < |st.procs| && Step(st, p, c).Some? && HoldsMaster(st.procs[p])
    requires !st.procs[p].InMaster? && !st.procs[p].MakeSegment? && !st.procs[p].FreeSegment? && !st.procs[p].Scan?
    ensures Frame(st, p, Next(st, p, c))
  {
    hide StepInMaster, StepMakeSegment, StepFreeSegment, StepScan;
    assert Fits(st, st.procs[p]);
    hide Shape;
  }

  lemma StoreFrame(st: State, p: nat, c: Choice)
    requires Shape(st) && p < |st.procs| && Step(st, p, c).Some? && (st.procs[p].Header? || st.procs[p].Copy?)
    ensures Frame(st, p, Next(st, p, c))
  {
    hide Shape, StepAttach, StepReading, Release;
  }

  lemma SlotFrame(st: State, p: nat, c: Choice)
    requires Shape(st) && p < |st.procs| && Step(st, p, c).Some?
    requires InSlot(st.procs[p]) && !st.procs[p].Header? && !st.procs[p].Copy?
    ensures Frame(st, p, Next(st, p, c))
  {
    hide Shape, StepHeader, StepCopy, Complete, Parse, AfterSlot;
  }

  lemma PostFrame(st: State, p: nat, c: Choice)
    requires Shape(st) && p < |st.procs| && Step(st, p, c).Some? && st.procs[p].Post?
    ensures Frame(st, p, Next(st, p, c))
  {
    hide Shape, Waiters, StepSubscribe;
  }

  lemma OutsideFrame(st: State, p: nat, c: Choice)
    requires Shape(st) && p < |st.procs| && Step(st, p, c).Some?
    requires !HoldsMaster(st.procs[p]) && !InSlot(st.procs[p]) && !st.procs[p].Post?
    ensures Frame(st, p, Next(st, p, c))
  {
    hide Shape, Waiters, StepPost;
  }

  // ------------------------------------------------------------ accepted writes

  /** At this step a writer finds that it may write segment `x`. */
  predicate AcceptsAt(a: State, m: Move, b: State, x: int) {
    var pr := ProcOf(a, m.p);
    pr.Header? && pr.op.Write? && pr.snap.shm == x && ProcOf(b, m.p).Copy?
  }

  /** The write accepted into segment `x` at this step, if any. */
  function AcceptedAt(a: State, m: Move, b: State, x: int): seq<SlotArray> {
    if AcceptsAt(a, m, b, x) then [ProcOf(a, m.p).op.arr] else []
  }

  /** The writes accepted into segment `x` during the first `k` steps, oldest first. */
  function AcceptedWrites(tr: seq<State>, moves: seq<Move>, k: nat, x: int): seq<SlotArray>
    requires |tr| == |moves| + 1 && k < |tr|
  {
    if k == 0 then []
    else
      AcceptedWrites(tr, moves, k - 1, x) + AcceptedAt(tr[k - 1], moves[k - 1], tr[k], x)
  }

  /** The history of segment `x`, empty before it is made. */
  function HistoryOf(st: State, x: int): seq<SlotArray> {
    if x in st.segs then st.segs[x].hist else []
  }

  lemma HistoryStep(st: State, p: nat, c: Choice, x: int)
    requires CanStep(st, p, c)
    ensures var st' := Next(st, p, c);
            && (x in st.segs ==> x in st'.segs)
            && HistoryOf(st', x) == HistoryOf(st, x) + AcceptedAt(st, Move(p, c), st', x)
  {
    hide Inv, Step;
    ProcAt(st, p);
    if st.procs[p].Header? {
      HeaderHistory(st, p, c, x);
    } else if st.procs[p].FreeEntry? || st.procs[p].Register? {
      EntryHistory(st, p, c);
    } else {
      QuietTables(st, p, c);
    }
  }

  lemma EntryHistory(st: State, p: nat, c: Choice)
    requires Shape(st) && p < |st.procs| && Step(st, p, c).Some?
    requires st.procs[p].FreeEntry? || st.procs[p].Register?
    ensures Next(st, p, c).segs == st.segs
  {
    hide Shape;
  }

  lemma HeaderHistory(st: State, p: nat, c: Choice, x: int)
    requires Shape(st) && p < |st.procs| && Step(st, p, c).Some?
    requires st.procs[p].Header? && Fits(st, st.procs[p])
    ensures var st' := Next(st, p, c);
            && (x in st.segs ==> x in st'.segs)
            && HistoryOf(st', x) == HistoryOf(st, x) + AcceptedAt(st, Move(p, c), st', x)
  {
    hide Shape;
  }

  lemma {:induction false} HistoryAt(tr: seq<State>, moves: seq<Move>, k: nat, x: int)
    requires Run(tr, moves) && k < |moves|
    ensures HistoryOf(tr[k + 1], x) == HistoryOf(tr[k], x) + AcceptedAt(tr[k], moves[k], tr[k + 1], x)
  {
    hide Step, Shape, Inv, AcceptedAt, HistoryOf;
    StepOf(tr, moves, k);
    HistoryStep(tr[k], moves[k].p, moves[k].c, x);
  }

  /** A segment's history is the list of writes accepted into it. */
  lemma {:induction false} HistoryIsAcceptedWrites(tr: seq<State>, moves: seq<Move>, k: nat, x: int)
    requires Run(tr, moves) && k < |tr|
    ensures AcceptedWrites(tr, moves, k, x) == if x in tr[k].segs then tr[k].segs[x].hist else []
  {
    hide Run, AcceptedAt;
    RunStart(tr, moves);
    if k > 0 {
      HistoryIsAcceptedWrites(tr, moves, k - 1, x);
      HistoryAt(tr, moves, k - 1, x);
    }
  }

  /** A reader that is done has the type and dimensions of the first write accepted into its
      segment and the bytes of the last one; the segment was made for the id asked for. */
  lemma {:induction false} FinishedReadIsAcceptedWrites(tr: seq<State>, moves: seq<Move>, k: nat)
    requires Run(tr, moves) && k < |moves| && moves[k].p < |tr[k].procs|
    requires tr[k].procs[moves[k].p].Reading? && ProcOf(tr[k + 1], moves[k].p).DropSlot?
    ensures var Reading(op, snap, _) := tr[k].procs[moves[k].p];
            var writes := AcceptedWrites(tr, moves, k, snap.shm);
            && op.Read? && snap.shm in tr[k].segs && tr[k].segs[snap.shm].id == op.id
            && writes != []
            && ProcOf(tr[k + 1], moves[k].p).res ==
                 Got(SlotArray(writes[0].typeID, writes[0].dims, writes[|writes| - 1].data))
            && WellFormed(SlotArray(writes[0].typeID, writes[0].dims, writes[|writes| - 1].data))
  {
    hide Inv, Shape;
    var p := moves[k].p;
    var Reading(op, snap, out) := tr[k].procs[p];
    StepOf(tr, moves, k);
    ProcAt(tr[k], p);
    ReadingFacts(tr[k], p, op, snap, out);
    HistoryIsAcceptedWrites(tr, moves, k, snap.shm);
    ViewIsWellFormed(tr[k].segs[snap.shm].hist);
  }

  // ------------------------------------------------------------ the sequential meaning of a run

  /** What an event does to the binding of `id`, on its own. */
  function Apply(id: string, was: Option<SlotArray>, ev: Event): Option<SlotArray> {
    if ev.Accepted? && ev.id == id then
      (if was.Some? then Some(was.value.(data := ev.arr.data)) else Some(ev.arr))
    else if ev.Erased? && ev.id == id then None
    else was
  }

  function EventAt(tr: seq<State>, moves: seq<Move>, k: nat): Event
    requires |tr| == |moves| + 1 && k < |moves|
  {
    EventOf(tr[k].table, ProcOf(tr[k], moves[k].p), ProcOf(tr[k + 1], moves[k].p))
  }

  /** The pool refines a map from ids to arrays: in every run, every step of every process acts on
      each id's binding exactly as its event says. */
  lemma {:induction false} PoolRefinesMap(tr: seq<State>, moves: seq<Move>, k: nat, id: string)
    requires Run(tr, moves) && k < |moves|
    ensures BindingStep(id, Bound(tr[k], id), EventAt(tr, moves, k), Bound(tr[k + 1], id))
  {
    hide Step, Shape, Inv, Bound, BindingStep;
    StepOf(tr, moves, k);
    StepRefinesMap(tr[k], moves[k].p, moves[k].c, id);
  }

  /** The binding of `id` that the events of the first `k` steps leave, taken in order. */
  function Meaning(tr: seq<State>, moves: seq<Move>, k: nat, id: string): Option<SlotArray>
    requires |tr| == |moves| + 1 && k < |tr|
  {
    if k == 0 then None else Apply(id, Meaning(tr, moves, k - 1, id), EventAt(tr, moves, k - 1))
  }

  lemma {:induction false} BoundIsMeaning(tr: seq<State>, moves: seq<Move>, k: nat, id: string)
    requires Run(tr, moves) && k < |tr|
    ensures Bound(tr[k], id) == Meaning(tr, moves, k, id)
  {
    hide Step, Shape, Inv;
    if k == 0 {
      var n: nat, procs: nat :| tr[0] == Initial(n, procs);
    } else {
      BoundIsMeaning(tr, moves, k - 1, id);
      PoolRefinesMap(tr, moves, k - 1, id);
    }
  }

  /** The event may happen while its id is bound as `b`: a read returns what the last accepted
      write left, a write is rejected only against an incompatible binding, an id reported
      missing is unbound. */
  predicate Legal(b: Option<SlotArray>, ev: Event) {
    match ev
    case Returned(_, a) => b == Some(a)
    case Accepted(_, a) => b.Some? ==> Compatible(a, b.value.typeID, b.value.dims)
    case Rejected(_, a) => b.Some? && !Compatible(a, b.value.typeID, b.value.dims)
    case Missing(_) => b.None?
    case _ => true
  }

  /** In every run the events, in the order of their steps, form a legal history of a plain map
      from ids to arrays. */
  lemma {:induction false} EventsAreLegal(tr: seq<State>, moves: seq<Move>, k: nat)
    requires Run(tr, moves) && k < |moves|
    ensures var ev := EventAt(tr, moves, k); ev.Silent? || Legal(Meaning(tr, moves, k, ev.id), ev)
  {
    hide Step, Shape, Inv, Bound;
    var ev := EventAt(tr, moves, k);
    if !ev.Silent? {
      BoundIsMeaning(tr, moves, k, ev.id);
      PoolRefinesMap(tr, moves, k, ev.id);
    }
  }
}
