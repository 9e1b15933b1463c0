/** The publish/subscribe handshake over whole runs: units are conserved, each comes from one
    publisher, and a publish ends when they are all consumed. */
module PoolHandshake {
  import opened Arrays
  import opened Pool
  import opened PoolInvariant
  import opened PoolProof
  import opened PoolRuns

  // ------------------------------------------------------------ counting units

  /** At this step a subscriber of slot `s` consumes a unit. */
  predicate ConsumesAt(a: State, m: Move, b: State, s: nat) {
    Waiting(ProcOf(a, m.p)) && ProcOf(a, m.p).snap.lockId == s + 1 && ProcOf(b, m.p).LockSnapshot?
  }

  /** At this step a publisher of slot `s` posts the units it counted. */
  predicate PostsAt(a: State, m: Move, b: State, s: nat) {
    ProcOf(a, m.p).Post? && ProcOf(a, m.p).snap.lockId == s + 1 && ProcOf(b, m.p).WaitZero?
  }

  function UnitsConsumed(tr: seq<State>, moves: seq<Move>, k: nat, s: nat): nat
    requires |tr| == |moves| + 1 && k < |tr|
  {
    if k == 0 then 0
    else UnitsConsumed(tr, moves, k - 1, s) + (if ConsumesAt(tr[k - 1], moves[k - 1], tr[k], s) then 1 else 0)
  }

  function UnitsPosted(tr: seq<State>, moves: seq<Move>, k: nat, s: nat): int
    requires |tr| == |moves| + 1 && k < |tr|
  {
    if k == 0 then 0
    else
      UnitsPosted(tr, moves, k - 1, s) +
      (if PostsAt(tr[k - 1], moves[k - 1], tr[k], s) then ProcOf(tr[k - 1], moves[k - 1].p).numb else 0)
  }

  ghost predicate CountersMove(st: State, m: Move, st': State, s: nat)
    requires s < |st.posted| == |st'.posted| && s < |st.consumed| == |st'.consumed|
  {
    && st'.posted[s] == st.posted[s] + (if PostsAt(st, m, st', s) then ProcOf(st, m.p).numb else 0)
    && st'.consumed[s] == st.consumed[s] + (if ConsumesAt(st, m, st', s) then 1 else 0)
  }

  lemma CountersStep(st: State, p: nat, c: Choice, s: nat)
    requires CanStep(st, p, c) && s < |st.table|
    ensures Sized(st) && Sized(Next(st, p, c)) && |Next(st, p, c).table| == |st.table|
    ensures CountersMove(st, Move(p, c), Next(st, p, c), s)
  {
    hide Inv, Step;
    StepKeeps(st, p, c);
    SizedAt(st);
    SizedAt(Next(st, p, c));
    StepFrame(st, p, c);
    ProcAt(st, p);
    if st.procs[p].Post? {
      PostCounts(st, p, c, s);
    } else if Waiting(st.procs[p]) {
      WaitCounts(st, p, c, s);
    }
  }

  lemma PostCounts(st: State, p: nat, c: Choice, s: nat)
    requires Shape(st) && p < |st.procs| && Step(st, p, c).Some? && st.procs[p].Post? && Fits(st, st.procs[p])
    requires s < |st.table| && Sized(st) && Sized(Next(st, p, c)) && |Next(st, p, c).table| == |st.table|
    ensures CountersMove(st, Move(p, c), Next(st, p, c), s)
  {
    hide Shape;
  }

  lemma WaitCounts(st: State, p: nat, c: Choice, s: nat)
    requires Shape(st) && p < |st.procs| && Step(st, p, c).Some? && Waiting(st.procs[p]) && Fits(st, st.procs[p])
    requires s < |st.table| && Sized(st) && Sized(Next(st, p, c)) && |Next(st, p, c).table| == |st.table|
    ensures CountersMove(st, Move(p, c), Next(st, p, c), s)
  {
    hide Shape;
  }

  lemma {:induction false} CountersAreUnits(tr: seq<State>, moves: seq<Move>, k: nat, s: nat)
    requires Run(tr, moves) && k < |tr| && s < |tr[k].table|
    ensures Sized(tr[k])
    ensures tr[k].posted[s] == UnitsPosted(tr, moves, k, s)
    ensures tr[k].consumed[s] == UnitsConsumed(tr, moves, k, s)
  {
    hide Step, Shape, Inv;
    RunKeeps(tr, moves, k);
    SizedAt(tr[k]);
    if k == 0 {
      var n: nat, procs: nat :| tr[0] == Initial(n, procs);
    } else {
      StepOf(tr, moves, k - 1);
      CountersAreUnits(tr, moves, k - 1, s);
      CountersStep(tr[k - 1], moves[k - 1].p, moves[k - 1].c, s);
    }
  }

  /** Conservation: at every moment of a run before cleanup, a slot's handshake holds the units
      posted to it less the subscribes that got one, and never less than none. */
  lemma {:induction false} HandshakeConservation(tr: seq<State>, moves: seq<Move>, k: nat, s: nat)
    requires Run(tr, moves) && k < |tr| && s < |tr[k].table| && tr[k].semsAlive
    ensures Sized(tr[k])
    ensures tr[k].sems[HandOf(|tr[k].table|, s)] == UnitsPosted(tr, moves, k, s) - UnitsConsumed(tr, moves, k, s) >= 0
  {
    hide ProcOk, LockInv, TableInv, SegmentsInv;
    RunKeeps(tr, moves, k);
    CountersAreUnits(tr, moves, k, s);
  }

  /** At this step a publish on slot `s` returns successfully. */
  predicate PublishReturnsAt(a: State, m: Move, b: State, s: nat) {
    ProcOf(a, m.p).WaitZero? && ProcOf(a, m.p).snap.lockId == s + 1
    && ProcOf(b, m.p).Done? && ProcOf(b, m.p).res == Success
  }

  lemma ReturnsAtZero(st: State, p: nat, c: Choice, s: nat)
    requires CanStep(st, p, c) && PublishReturnsAt(st, Move(p, c), Next(st, p, c), s)
    ensures s < |st.table| && st.semsAlive && Sized(st) && st.sems[HandOf(|st.table|, s)] == 0
  {
    hide Inv;
    SizedAt(st);
    ProcAt(st, p);
  }

  /** A publish returns at a moment when every unit posted to its slot has been consumed. */
  lemma {:induction false} PublishEndsDrained(tr: seq<State>, moves: seq<Move>, k: nat, s: nat)
    requires Run(tr, moves) && k < |moves| && PublishReturnsAt(tr[k], moves[k], tr[k + 1], s)
    ensures UnitsPosted(tr, moves, k, s) == UnitsConsumed(tr, moves, k, s)
  {
    hide Step, Shape, Inv;
    StepOf(tr, moves, k);
    ReturnsAtZero(tr[k], moves[k].p, moves[k].c, s);
    HandshakeConservation(tr, moves, k, s);
  }

  // ------------------------------------------------------------ where a unit comes from

  lemma {:induction false} PostOf(tr: seq<State>, moves: seq<Move>, k: nat, s: nat, c: nat) returns (i: nat)
    requires |tr| == |moves| + 1 && k < |tr| && c < UnitsPosted(tr, moves, k, s)
    ensures i < k && UnitsPosted(tr, moves, i, s) <= c < UnitsPosted(tr, moves, i + 1, s)
    ensures PostsAt(tr[i], moves[i], tr[i + 1], s)
  {
    if UnitsPosted(tr, moves, k - 1, s) <= c {
      i := k - 1;
    } else {
      i := PostOf(tr, moves, k - 1, s, c);
    }
  }

  lemma {:induction false} ConsumesAfterPost(tr: seq<State>, moves: seq<Move>, j: nat, s: nat)
    requires Run(tr, moves) && j < |moves| && ConsumesAt(tr[j], moves[j], tr[j + 1], s)
    ensures UnitsConsumed(tr, moves, j, s) < UnitsPosted(tr, moves, j, s)
  {
    hide Step, Shape, Inv;
    StepOf(tr, moves, j);
    ConsumerFinds(tr[j], moves[j].p, moves[j].c, s);
    HandshakeConservation(tr, moves, j, s);
  }

  lemma ConsumerFinds(st: State, p: nat, c: Choice, s: nat)
    requires CanStep(st, p, c) && ConsumesAt(st, Move(p, c), Next(st, p, c), s)
    ensures s < |st.table| && st.semsAlive && Sized(st) && st.sems[HandOf(|st.table|, s)] >= 1
  {
    hide Inv, Step, Shape;
    ProcAt(st, p);
    SizedAt(st);
    ConsumeNext(st, p, c);
  }

  /** In every run each unit a subscriber consumes was posted before by one publisher of the slot:
      units are consumed in the order of their posts. */
  lemma {:induction false} UnitHasPublisher(tr: seq<State>, moves: seq<Move>, j: nat, s: nat) returns (i: nat)
    requires Run(tr, moves) && j < |moves| && ConsumesAt(tr[j], moves[j], tr[j + 1], s)
    ensures i < j && PostsAt(tr[i], moves[i], tr[i + 1], s)
    ensures UnitsPosted(tr, moves, i, s) <= UnitsConsumed(tr, moves, j, s) < UnitsPosted(tr, moves, i + 1, s)
  {
    ConsumesAfterPost(tr, moves, j, s);
    i := PostOf(tr, moves, j, s, UnitsConsumed(tr, moves, j, s));
  }

  // ------------------------------------------------------------ one publisher

  predicate Publishing(pr: Proc, s: nat) {
    pr.WaitZero? && pr.snap.lockId == s + 1
  }

  /** Units are outstanding only while somebody waits for them to be consumed. */
  ghost predicate Outstanding(st: State, s: nat)
    requires Sized(st) && s < |st.table|
  {
    st.semsAlive && st.sems[HandOf(|st.table|, s)] > 0 ==>
      exists q :: 0 <= q < |st.procs| && Publishing(st.procs[q], s)
  }

  lemma PostLeavesPublisher(st: State, p: nat, c: Choice, s: nat)
    requires CanStep(st, p, c) && s < |st.table| && PostsAt(st, Move(p, c), Next(st, p, c), s)
    ensures Publishing(ProcOf(Next(st, p, c), p), s)
  {
    hide Inv;
  }

  lemma HandValue(st: State, s: nat)
    requires Inv(st) && s < |st.table| && st.semsAlive
    ensures Sized(st) && st.sems[HandOf(|st.table|, s)] == st.posted[s] - st.consumed[s] >= 0
  {
  }

  lemma LeavesAtZero(st: State, p: nat, c: Choice, s: nat)
    requires CanStep(st, p, c) && st.semsAlive && Publishing(st.procs[p], s)
    ensures s < |st.table| && Sized(st) && st.sems[HandOf(|st.table|, s)] == 0
  {
    hide Inv;
    SizedAt(st);
    ProcAt(st, p);
  }

  lemma OutstandingStep(st: State, p: nat, c: Choice, s: nat)
    requires CanStep(st, p, c) && s < |st.table| && Sized(st) && Outstanding(st, s)
    requires Sized(Next(st, p, c)) && |Next(st, p, c).table| == |st.table|
    ensures Outstanding(Next(st, p, c), s)
  {
    hide Inv, Step, Shape;
    var st' := Next(st, p, c);
    StepKeeps(st, p, c);
    StepFrame(st, p, c);
    CountersStep(st, p, c, s);
    if st'.semsAlive && st'.sems[HandOf(|st'.table|, s)] > 0 {
      HandValue(st, s);
      HandValue(st', s);
      if PostsAt(st, Move(p, c), st', s) {
        PostLeavesPublisher(st, p, c, s);
        assert Publishing(st'.procs[p], s);
      } else {
        var q :| 0 <= q < |st.procs| && Publishing(st.procs[q], s);
        if q == p {
          LeavesAtZero(st, p, c, s);
        }
        assert st'.procs[q] == st.procs[q];
      }
    }
  }

  lemma {:induction false} UnitsHavePublisher(tr: seq<State>, moves: seq<Move>, k: nat, s: nat)
    requires Run(tr, moves) && k < |tr| && s < |tr[k].table|
    ensures Sized(tr[k]) && Outstanding(tr[k], s)
  {
    hide Step, Shape, Inv;
    RunKeeps(tr, moves, k);
    SizedAt(tr[k]);
    if k == 0 {
      var n: nat, procs: nat :| tr[0] == Initial(n, procs);
    } else {
      StepOf(tr, moves, k - 1);
      UnitsHavePublisher(tr, moves, k - 1, s);
      OutstandingStep(tr[k - 1], moves[k - 1].p, moves[k - 1].c, s);
    }
  }

  lemma {:induction false} NoOtherPosts(tr: seq<State>, moves: seq<Move>, i: nat, j: nat, s: nat)
    requires |tr| == |moves| + 1 && i <= j < |tr|
    requires forall m :: i <= m < j ==> !PostsAt(tr[m], moves[m], tr[m + 1], s)
    ensures UnitsPosted(tr, moves, j, s) == UnitsPosted(tr, moves, i, s)
  {
    if i < j {
      NoOtherPosts(tr, moves, i, j - 1, s);
      assert !PostsAt(tr[j - 1], moves[j - 1], tr[j], s);
    }
  }

  lemma {:induction false} AliveBefore(tr: seq<State>, moves: seq<Move>, i: nat, j: nat)
    requires Run(tr, moves) && i <= j < |tr| && tr[j].semsAlive
    ensures tr[i].semsAlive
  {
    hide Step, Shape, Inv;
    if i < j {
      StepOf(tr, moves, j - 1);
      StepFrame(tr[j - 1], moves[j - 1].p, moves[j - 1].c);
      AliveBefore(tr, moves, i, j - 1);
    }
  }

  /** One publisher: if nobody else is publishing on the slot when a publisher posts the `numb`
      units it counted, nor posts before it returns, then exactly `numb` subscribes get a unit
      in between, whoever timed out or arrived late. */
  lemma {:induction false} PublishReachesExactlyItsCount(tr: seq<State>, moves: seq<Move>, i: nat, j: nat, s: nat)
    requires Run(tr, moves) && i < j < |moves|
    requires PostsAt(tr[i], moves[i], tr[i + 1], s)
    requires PublishReturnsAt(tr[j], moves[j], tr[j + 1], s) && moves[j].p == moves[i].p
    requires forall q :: 0 <= q < |tr[i].procs| ==> !Publishing(tr[i].procs[q], s)
    requires forall m :: i < m < j ==> !PostsAt(tr[m], moves[m], tr[m + 1], s)
    ensures UnitsConsumed(tr, moves, j, s) - UnitsConsumed(tr, moves, i, s) == ProcOf(tr[i], moves[i].p).numb
  {
    hide Step, Shape, Inv;
    StepOf(tr, moves, j);
    ReturnsAtZero(tr[j], moves[j].p, moves[j].c, s);
    SameSize(tr, moves, i, j);
    AliveBefore(tr, moves, i, j);
    UnitsHavePublisher(tr, moves, i, s);
    HandshakeConservation(tr, moves, i, s);
    HandshakeConservation(tr, moves, j, s);
    NoOtherPosts(tr, moves, i + 1, j, s);
  }
}
