/** Which calls take part in the handshake: who is counted by a publish, and which reads and
    writes consume or post units. */
module PoolRoutes {
  import opened Arrays
  import opened Pool
  import opened PoolInvariant
  import opened PoolProof
  import opened PoolTheorems
  import opened PoolFlow
  import opened PoolRuns
  import opened PoolCalls
  import opened PoolHandshake
  import opened PoolFreshness

  // ------------------------------------------------------------ who is counted

  predicate SleepsOn(pr: Proc, s: nat) {
    pr.Blocked? && pr.snap.lockId == s + 1
  }

  /** The processes asleep in a subscription to slot `s`. */
  function Asleep(st: State, s: nat): set<int> {
    set q | 0 <= q < |st.procs| && SleepsOn(st.procs[q], s)
  }

  /** The processes before `k` that sleep on slot `s`. */
  function AsleepBefore(procs: seq<Proc>, s: nat, k: nat): set<int>
    requires k <= |procs|
  {
    set q | 0 <= q < k && SleepsOn(procs[q], s)
  }

  lemma OneMore(procs: seq<Proc>, s: nat, k: nat)
    requires k < |procs|
    ensures |AsleepBefore(procs, s, k + 1)| == |AsleepBefore(procs, s, k)| + (if SleepsOn(procs[k], s) then 1 else 0)
  {
    var before, now := AsleepBefore(procs, s, k), AsleepBefore(procs, s, k + 1);
    assert now == if SleepsOn(procs[k], s) then before + {k} else before;
  }

  lemma {:induction false} CountsFirst(st: State, s: nat, k: nat)
    requires Inv(st) && s < |st.table| && k <= |st.procs|
    ensures Waiters(st.procs[..k], HandOf(|st.table|, s)) == |AsleepBefore(st.procs, s, k)|
  {
    hide Inv, AsleepBefore;
    if k == 0 {
      NobodyBefore(st.procs, s);
    } else {
      CountsFirst(st, s, k - 1);
      OneMore(st.procs, s, k - 1);
      LastWaiter(st, s, k - 1);
    }
  }

  lemma NobodyBefore(procs: seq<Proc>, s: nat)
    ensures AsleepBefore(procs, s, 0) == {}
  {
  }

  lemma LastWaiter(st: State, s: nat, k: nat)
    requires Inv(st) && s < |st.table| && k < |st.procs|
    ensures Waiters(st.procs[..k + 1], HandOf(|st.table|, s)) ==
            Waiters(st.procs[..k], HandOf(|st.table|, s)) + (if SleepsOn(st.procs[k], s) then 1 else 0)
  {
    hide Inv;
    ProcAt(st, k);
    assert st.procs[..k + 1][..k] == st.procs[..k];
  }

  /** In every run a publisher counts exactly the processes asleep at that moment in a
      subscription to its slot. */
  lemma {:induction false} PublisherCountsSleepers(tr: seq<State>, moves: seq<Move>, k: nat)
    requires Run(tr, moves) && k < |moves| && ProcOf(tr[k], moves[k].p).CountWaiters? && tr[k].semsAlive
    ensures var was, now := ProcOf(tr[k], moves[k].p), ProcOf(tr[k + 1], moves[k].p);
            && was.snap.lockId >= 1
            && now == Post(was.op, was.snap, was.ver, |Asleep(tr[k], was.snap.lockId - 1)|)
  {
    hide Inv, Shape;
    var st, p := tr[k], moves[k].p;
    StepOf(tr, moves, k);
    ProcAt(st, p);
    CountNext(st, p, moves[k].c);
    var s := st.procs[p].snap.lockId - 1;
    CountsFirst(st, s, |st.procs|);
    assert st.procs[..|st.procs|] == st.procs && AsleepBefore(st.procs, s, |st.procs|) == Asleep(st, s);
  }

  lemma CountNext(st: State, p: nat, c: Choice)
    requires Shape(st) && p < |st.procs| && Step(st, p, c).Some? && st.procs[p].CountWaiters? && st.semsAlive
    ensures var was := st.procs[p];
            ProcOf(Next(st, p, c), p) == Post(was.op, was.snap, was.ver, Waiters(st.procs, was.snap.handId))
  {
    hide Shape, Waiters;
  }

  /** A publisher posts what it counted: the count `h` it made since it dropped the slot. */
  lemma {:induction false} CountedBefore(tr: seq<State>, moves: seq<Move>, i: nat, p: nat, was: Proc) returns (h: nat)
    requires Run(tr, moves) && i < |tr| && ProcOf(tr[i], p) == was && was.Post?
    ensures h < i && moves[h].p == p && ProcOf(tr[h], p) == CountWaiters(was.op, was.snap, was.ver)
    ensures forall m :: h < m <= i ==> ProcOf(tr[m], p) == was
  {
    hide Inv, Step, Shape, Follows;
    NobodyCallsYet(tr, moves, p);
    if moves[i - 1].p != p {
      OthersStand(tr, moves, i - 1, p);
      h := CountedBefore(tr, moves, i - 1, p, was);
    } else {
      StepOf(tr, moves, i - 1);
      ProcAt(tr[i - 1], p);
      StepFollows(tr[i - 1], p, moves[i - 1].c);
      OnlyCountersPost(ProcOf(tr[i - 1], p), was);
      h := i - 1;
    }
  }

  lemma OnlyCountersPost(was: Proc, now: Proc)
    requires Follows(was, now) && now.Post?
    ensures was == CountWaiters(now.op, now.snap, now.ver)
  {
  }

  /** One publisher: the subscribes served between its post and its return are as many as the
      processes that were asleep in a subscription to its slot when it counted them, at step `h`. */
  lemma {:induction false} PublishServesSleepers(tr: seq<State>, moves: seq<Move>, i: nat, j: nat, s: nat)
      returns (h: nat)
    requires Run(tr, moves) && i < j < |moves|
    requires PostsAt(tr[i], moves[i], tr[i + 1], s)
    requires PublishReturnsAt(tr[j], moves[j], tr[j + 1], s) && moves[j].p == moves[i].p
    requires forall q :: 0 <= q < |tr[i].procs| ==> !Publishing(tr[i].procs[q], s)
    requires forall m :: i < m < j ==> !PostsAt(tr[m], moves[m], tr[m + 1], s)
    ensures h < i && moves[h].p == moves[i].p && ProcOf(tr[h], moves[h].p).CountWaiters?
    ensures UnitsConsumed(tr, moves, j, s) - UnitsConsumed(tr, moves, i, s) == |Asleep(tr[h], s)|
  {
    hide Inv, Step, Shape;
    var w := ProcOf(tr[i], moves[i].p);
    PublishReachesExactlyItsCount(tr, moves, i, j, s);
    h := CountedBefore(tr, moves, i, moves[i].p, w);
    PostedAlive(tr, moves, j, s);
    AliveBefore(tr, moves, h, j);
    PublisherCountsSleepers(tr, moves, h);
  }

  lemma {:induction false} PostedAlive(tr: seq<State>, moves: seq<Move>, j: nat, s: nat)
    requires Run(tr, moves) && j < |moves| && PublishReturnsAt(tr[j], moves[j], tr[j + 1], s)
    ensures tr[j].semsAlive
  {
    hide Inv, Step, Shape;
    StepOf(tr, moves, j);
    ReturnsAtZero(tr[j], moves[j].p, moves[j].c, s);
  }

  // ------------------------------------------------------------ who takes part

  /** A step of this kind consumes a unit, or posts units. */
  predicate Signals(was: Proc, now: Proc) {
    (Waiting(was) && now.LockSnapshot?) || (was.Post? && now.WaitZero?)
  }

  /** Among the steps of `p` from `b` on and before `k` the only one that consumes or posts is step
      `j`; there is none if `j` is -1. */
  ghost predicate OneSignal(tr: seq<State>, moves: seq<Move>, b: nat, k: nat, p: nat, j: int)
    requires |tr| == |moves| + 1 && k < |tr|
  {
    && (j == -1 || (b < j < k && moves[j].p == p && Signals(ProcOf(tr[j], p), ProcOf(tr[j + 1], p))))
    && forall m: nat :: b <= m < k && moves[m].p == p && m != j ==> !Signals(ProcOf(tr[m], p), ProcOf(tr[m + 1], p))
  }

  predicate Subscribes(op: Op) { op.Read? && !op.wait.NoWait? }

  /** Whether a process has consumed or posted in its call, told from where it stands. */
  predicate RouteOk(pr: Proc, signalled: bool) {
    match pr
    case LockMaster(_) => !signalled
    case InMaster(_) => !signalled
    case LockSlot(op, _, _) => !signalled && !Subscribes(op)
    case MakeSegment(op, _) => !signalled && !Subscribes(op)
    case UndoLock(_, _) => !signalled
    case Register(op, _, _) => !signalled && !Subscribes(op)
    case TakeSnapshot(op, _, _) => !signalled && !Subscribes(op)
    case DropMaster(op, _, _) => !signalled && !Subscribes(op)
    case DropMasterToWait(op, _) => !signalled && Subscribes(op)
    case Subscribe(op, _) => !signalled && Subscribes(op)
    case Blocked(op, _) => !signalled && Subscribes(op)
    case LockSnapshot(op, _) => signalled && Subscribes(op)
    case Attach(op, _, _) => signalled == Subscribes(op)
    case MarkNew(op, _) => !signalled && op.Write?
    case Header(op, _) => !signalled && op.Write?
    case Copy(op, _, _, _) => !signalled && op.Write?
    case Reading(op, _, _) => signalled == Subscribes(op) && op.Read?
    case DropSlot(op, _, res, _) => signalled == Subscribes(op) && res != Failed(TimedOut)
    case CountWaiters(op, _, _) => !signalled && op.Write? && op.publish
    case Post(op, _, _, _) => !signalled && op.Write? && op.publish
    case WaitZero(op, _) => signalled && op.Write? && op.publish
    case ReleaseMaster(op, res) =>
      && !signalled && !res.Got? && res != Failed(TimedOut) && res != Failed(Stale)
      && (op.Write? ==> res != Success)
    case Done(op, res) => DoneOk(op, res, signalled)
    case _ => !signalled
  }

  /** A returned array, or a stale snapshot, came after a unit exactly in a subscribing read; a read
      that timed out got none; a write that succeeded posted exactly if it publishes. */
  predicate DoneOk(op: Op, res: Result, signalled: bool) {
    && (op.Read? && (res.Got? || res == Failed(Stale)) ==> signalled == Subscribes(op))
    && (op.Read? && signalled ==> Subscribes(op))
    && (res == Failed(TimedOut) ==> !signalled && op.Read? && op.wait.Timed?)
    && (op.Write? && res == Success ==> signalled == op.publish)
    && (op.Write? && signalled ==> op.publish && (res == Success || res == Failed(Unpublished)))
  }

  lemma RouteFromTable(was: Proc, now: Proc, signalled: bool)
    requires Follows(was, now) && RightOp(was) && RouteOk(was, signalled)
    requires (was.InMaster? || was.Scan?) && NamesSlot(was.op)
    ensures !(signalled && Signals(was, now))
    ensures RouteOk(now, signalled || Signals(was, now))
  {
    hide FromWait, FromAttach;
  }

  lemma RouteUnderMaster(was: Proc, now: Proc, signalled: bool)
    requires Follows(was, now) && RightOp(was) && RouteOk(was, signalled)
    requires HoldsMaster(was) && !was.InMaster? && !was.Scan? && NamesSlot(was.op)
    ensures !(signalled && Signals(was, now))
    ensures RouteOk(now, signalled || Signals(was, now))
  {
    hide FromTable, FromScan, FromWait, FromAttach;
  }

  lemma RouteInSlot(was: Proc, now: Proc, signalled: bool)
    requires Follows(was, now) && RightOp(was) && RouteOk(was, signalled)
    requires InSlot(was)
    ensures !(signalled && Signals(was, now))
    ensures RouteOk(now, signalled || Signals(was, now))
  {
    hide FromTable, FromScan, FromWait;
  }

  lemma RouteOutside(was: Proc, now: Proc, signalled: bool)
    requires Follows(was, now) && RightOp(was) && RouteOk(was, signalled)
    requires !HoldsMaster(was) && !InSlot(was) && !was.Idle? && !was.Done?
    ensures !(signalled && Signals(was, now))
    ensures RouteOk(now, signalled || Signals(was, now))
  {
    hide FromTable, FromScan, FromAttach;
  }

  lemma RouteGoesOn(was: Proc, now: Proc, signalled: bool)
    requires Follows(was, now) && RightOp(was) && RouteOk(was, signalled)
    requires !was.Idle? && !was.Done? && NamesSlot(was.op)
    ensures !(signalled && Signals(was, now))
    ensures RouteOk(now, signalled || Signals(was, now))
  {
    hide Follows, RightOp, RouteOk, Signals;
    if HoldsMaster(was) {
      if was.InMaster? || was.Scan? {
        RouteFromTable(was, now, signalled);
      } else {
        RouteUnderMaster(was, now, signalled);
      }
    } else if InSlot(was) {
      RouteInSlot(was, now, signalled);
    } else {
      RouteOutside(was, now, signalled);
    }
  }

  lemma {:induction false} BeginRoute(tr: seq<State>, moves: seq<Move>, b: nat, p: nat, op: Op)
    requires Run(tr, moves) && b < |moves| && moves[b].p == p
    requires ProcOf(tr[b], p).Idle? && Calling(ProcOf(tr[b + 1], p), op)
    ensures RouteOk(ProcOf(tr[b + 1], p), false)
  {
    hide Inv, Step, Shape;
    StepOf(tr, moves, b);
    ProcAt(tr[b], p);
    StepFollows(tr[b], p, moves[b].c);
  }

  lemma {:induction false} RouteStep(tr: seq<State>, moves: seq<Move>, k: nat, p: nat, op: Op, signalled: bool)
    requires Run(tr, moves) && k < |moves| && moves[k].p == p && NamesSlot(op)
    requires Calling(ProcOf(tr[k], p), op) && !ProcOf(tr[k], p).Done? && RouteOk(ProcOf(tr[k], p), signalled)
    ensures !(signalled && Signals(ProcOf(tr[k], p), ProcOf(tr[k + 1], p)))
    ensures RouteOk(ProcOf(tr[k + 1], p), signalled || Signals(ProcOf(tr[k], p), ProcOf(tr[k + 1], p)))
  {
    hide Inv, Step, Shape, Follows, RouteOk, Signals;
    StepOf(tr, moves, k);
    ProcAt(tr[k], p);
    StepFollows(tr[k], p, moves[k].c);
    FitsRightOp(tr[k], tr[k].procs[p]);
    RouteGoesOn(tr[k].procs[p], ProcOf(tr[k + 1], p), signalled);
  }

  lemma {:induction false} NotDoneYet(tr: seq<State>, moves: seq<Move>, k: nat, p: nat)
    requires Run(tr, moves) && k < |moves| && moves[k].p == p && !ProcOf(tr[k + 1], p).Idle?
    ensures !ProcOf(tr[k], p).Done?
  {
    hide Inv, Step, Shape;
    StepOf(tr, moves, k);
    ProcAt(tr[k], p);
    StepFollows(tr[k], p, moves[k].c);
  }

  /** A process inside a call has consumed or posted at most once, as its code point tells. */
  lemma {:induction false} CallSignals(tr: seq<State>, moves: seq<Move>, k: nat, p: nat, op: Op)
      returns (b: nat, j: int)
    requires Run(tr, moves) && k < |tr| && Calling(ProcOf(tr[k], p), op) && NamesSlot(op)
    ensures CallSpan(tr, moves, b, k, p, op) && OneSignal(tr, moves, b, k, p, j)
    ensures RouteOk(ProcOf(tr[k], p), j != -1)
  {
    hide Inv, Step, Shape, RouteOk, Signals, EventOf, Effect;
    NobodyCallsYet(tr, moves, p);
    if moves[k - 1].p != p {
      OthersStand(tr, moves, k - 1, p);
      b, j := CallSignals(tr, moves, k - 1, p, op);
    } else if ProcOf(tr[k - 1], p).Idle? {
      b, j := k - 1, -1;
      BeginAt(tr, moves, b, p, op);
      BeginRoute(tr, moves, b, p, op);
      IdleIsSilent(ProcOf(tr[b], p), ProcOf(tr[k], p));
    } else {
      NotDoneYet(tr, moves, k - 1, p);
      CallGoesOn(tr, moves, k - 1, p, op);
      b, j := CallSignals(tr, moves, k - 1, p, op);
      RouteStep(tr, moves, k - 1, p, op, j != -1);
      if Signals(ProcOf(tr[k - 1], p), ProcOf(tr[k], p)) { j := k - 1; }
    }
  }

  lemma IdleIsSilent(was: Proc, now: Proc)
    requires was.Idle?
    ensures !Signals(was, now)
  {
  }

  // ------------------------------------------------------------ reads that subscribe

  predicate TakesUnit(was: Proc, now: Proc) { Waiting(was) && now.LockSnapshot? }

  /** Among the steps of `p` from `b` on and before `k` only step `j` may consume a unit. */
  ghost predicate ConsumesOnlyAt(tr: seq<State>, moves: seq<Move>, b: nat, k: nat, p: nat, j: int)
    requires |tr| == |moves| + 1 && k < |tr|
  {
    forall m: nat :: b <= m < k && m != j && moves[m].p == p ==> !TakesUnit(ProcOf(tr[m], p), ProcOf(tr[m + 1], p))
  }

  lemma {:induction false} ReadSignals(tr: seq<State>, moves: seq<Move>, b: nat, k: nat, p: nat, op: Op, j: int)
    requires Run(tr, moves) && CallSpan(tr, moves, b, k, p, op) && op.Read? && OneSignal(tr, moves, b, k, p, j)
    ensures ConsumesOnlyAt(tr, moves, b, k, p, j)
    ensures j != -1 ==> Waiting(ProcOf(tr[j], p)) && ProcOf(tr[j], p).snap.lockId >= 1
    ensures j != -1 ==> ConsumesAt(tr[j], moves[j], tr[j + 1], ProcOf(tr[j], p).snap.lockId - 1)
  {
    hide Inv, Step, Shape, Run;
    if j != -1 {
      RunKeeps(tr, moves, j);
      ProcAt(tr[j], p);
      FitsRightOp(tr[j], tr[j].procs[p]);
    }
  }

  /** In every run a read that returns an array has consumed exactly one unit if it subscribes, at
      step `j` before the step `e` where it found the array, and none otherwise; one that timed
      out was allowed to, and consumed none. */
  lemma {:induction false} ReadsSubscribe(tr: seq<State>, moves: seq<Move>, k: nat) returns (b: nat, j: int, e: int)
    requires Run(tr, moves) && k < |moves| && ProcOf(tr[k], moves[k].p).Done? && ProcOf(tr[k], moves[k].p).op.Read?
    ensures var p, Done(op, res) := moves[k].p, ProcOf(tr[k], moves[k].p);
            && CallSpan(tr, moves, b, k, p, op) && ConsumesOnlyAt(tr, moves, b, k, p, j)
            && (res.Got? ==>
                  && b < e < k && moves[e].p == p && EventAt(tr, moves, e) == Returned(op.id, res.arr)
                  && (op.wait.NoWait? ==> j == -1)
                  && (!op.wait.NoWait? ==>
                        && b < j < e && moves[j].p == p
                        && Waiting(ProcOf(tr[j], p)) && ProcOf(tr[j], p).snap.lockId >= 1
                        && ConsumesAt(tr[j], moves[j], tr[j + 1], ProcOf(tr[j], p).snap.lockId - 1)))
            && (res == Failed(TimedOut) ==> op.wait.Timed? && j == -1)
  {
    hide Inv, Step, Shape, Signals, EventOf;
    var p := moves[k].p;
    var Done(op, res) := ProcOf(tr[k], p);
    b, j := CallSignals(tr, moves, k, p, op);
    ReadSignals(tr, moves, b, k, p, op, j);
    e := -1;
    if res.Got? {
      var b', e' := RunIsLinearizable(tr, moves, k);
      e := e';
      SameBegin(tr, moves, b, b', k, p, op);
      if j != -1 {
        var found := FoundLater(tr, moves, j, k, ProcOf(tr[j], p).snap.lockId - 1);
        FoundIsEvent(tr, moves, found);
      }
    }
  }

  /** A call has one begin. */
  lemma {:induction false} SameBegin(tr: seq<State>, moves: seq<Move>, b: nat, b': nat, k: nat, p: nat, op: Op)
    requires CallSpan(tr, moves, b, k, p, op) && CallSpan(tr, moves, b', k, p, op)
    ensures b == b'
  {
  }

  lemma {:induction false} FoundIsEvent(tr: seq<State>, moves: seq<Move>, e: nat)
    requires Run(tr, moves) && e < |moves|
    requires ProcOf(tr[e], moves[e].p).Reading? && ProcOf(tr[e + 1], moves[e].p).DropSlot?
    ensures !EventAt(tr, moves, e).Silent?
  {
    hide Inv, Step, Shape;
    StepOf(tr, moves, e);
    ProcAt(tr[e], moves[e].p);
    StepFollows(tr[e], moves[e].p, moves[e].c);
  }

  /** Freshness of every subscribing read: one that returns an array consumed a unit at step `j`,
      posted at step `i` by a publisher that dropped the slot after its write at step `d`; it
      found the array at step `e`, and unless the slot was emptied between `d` and `e`, the
      array includes that write. */
  lemma {:induction false} SubscribingReadsAreFresh(tr: seq<State>, moves: seq<Move>, k: nat)
      returns (b: nat, d: nat, i: nat, j: nat, e: nat)
    requires Run(tr, moves) && k < |moves| && ProcOf(tr[k], moves[k].p).Done?
    requires ProcOf(tr[k], moves[k].p).op.Read? && !ProcOf(tr[k], moves[k].p).op.wait.NoWait?
    requires ProcOf(tr[k], moves[k].p).res.Got?
    ensures var p, Done(op, res) := moves[k].p, ProcOf(tr[k], moves[k].p);
            && CallSpan(tr, moves, b, k, p, op) && b < j < e < k && moves[j].p == moves[e].p == p && d < i < j
            && EventAt(tr, moves, e) == Returned(op.id, res.arr)
            && Waiting(ProcOf(tr[j], p)) && ProcOf(tr[j], p).snap.lockId >= 1
            && var s := ProcOf(tr[j], p).snap.lockId - 1;
               var w := ProcOf(tr[i], moves[i].p);
               && ConsumesAt(tr[j], moves[j], tr[j + 1], s) && PostsAt(tr[i], moves[i], tr[i + 1], s)
               && UnitsPosted(tr, moves, i, s) <= UnitsConsumed(tr, moves, j, s) < UnitsPosted(tr, moves, i + 1, s)
               && w.Post? && DropsBefore(tr, moves, d, i, moves[i].p, w.op, w.snap, w.ver)
               && ((forall m: nat :: d <= m < e ==> !EmptiesAt(tr[m], moves[m], s)) ==>
                     Includes(tr, moves, e, w.snap.shm, w.op, w.ver, res.arr))
  {
    hide Inv, Step, Shape, EventOf, DropsBefore, Includes, EmptiesAt;
    var p := moves[k].p;
    var at, found: int;
    b, at, found := ReadsSubscribe(tr, moves, k);
    j := at;
    d, i, e := SubscribersReadFresh(tr, moves, j, k, ProcOf(tr[j], p).snap.lockId - 1);
    FoundIsEvent(tr, moves, e);
    var b', only := RunIsLinearizable(tr, moves, k);
    SameBegin(tr, moves, b, b', k, p, ProcOf(tr[k], p).op);
  }

  // ------------------------------------------------------------ writes that publish

  /** In every run a write that returns success has posted exactly once if it publishes, at step
      `i`, after it was accepted at step `e` and had counted, at step `h`, the processes asleep in
      a subscription to its slot; and not at all otherwise. */
  lemma {:induction false} WritesPublish(tr: seq<State>, moves: seq<Move>, k: nat)
      returns (b: nat, e: int, h: int, i: int)
    requires Run(tr, moves) && k < |moves| && ProcOf(tr[k], moves[k].p).Done?
    requires ProcOf(tr[k], moves[k].p).op.Write? && ProcOf(tr[k], moves[k].p).res == Success
    ensures var p, op := moves[k].p, ProcOf(tr[k], moves[k].p).op;
            && CallSpan(tr, moves, b, k, p, op) && b < e < k && moves[e].p == p
            && EventAt(tr, moves, e) == Accepted(op.id, op.arr) && OneSignal(tr, moves, b, k, p, i)
            && (!op.publish ==> i == -1)
            && (op.publish ==>
                  && e < h < i < k && moves[h].p == moves[i].p == p && ProcOf(tr[i], p).Post?
                  && ProcOf(tr[i], p).snap.lockId >= 1
                  && var s := ProcOf(tr[i], p).snap.lockId - 1;
                     PostsAt(tr[i], moves[i], tr[i + 1], s) && ProcOf(tr[i], p).numb == |Asleep(tr[h], s)|)
  {
    hide Inv, Step, Shape, EventOf;
    var p, op := moves[k].p, ProcOf(tr[k], moves[k].p).op;
    b, i := CallSignals(tr, moves, k, p, op);
    var b', e' := RunIsLinearizable(tr, moves, k);
    SameBegin(tr, moves, b, b', k, p, op);
    e, h := e', -1;
    if op.publish {
      WriteSignals(tr, moves, b, k, p, op, i);
      h := CountedBefore(tr, moves, i, p, ProcOf(tr[i], p));
      PostNeedsSet(tr, moves, i);
      AliveBefore(tr, moves, h, i);
      PublisherCountsSleepers(tr, moves, h);
      AcceptedBeforeCount(tr, moves, b, h, k, p, op, e);
    }
  }

  lemma {:induction false} WriteSignals(tr: seq<State>, moves: seq<Move>, b: nat, k: nat, p: nat, op: Op, i: int)
    requires Run(tr, moves) && CallSpan(tr, moves, b, k, p, op) && op.Write?
    requires i != -1 && OneSignal(tr, moves, b, k, p, i)
    ensures ProcOf(tr[i], p).Post? && ProcOf(tr[i + 1], p).WaitZero? && ProcOf(tr[i], p).snap.lockId >= 1
  {
    hide Inv, Step, Shape, Run;
    RunKeeps(tr, moves, i);
    ProcAt(tr[i], p);
  }

  lemma {:induction false} PostNeedsSet(tr: seq<State>, moves: seq<Move>, i: nat)
    requires Run(tr, moves) && i < |moves| && ProcOf(tr[i], moves[i].p).Post? && ProcOf(tr[i + 1], moves[i].p).WaitZero?
    ensures tr[i].semsAlive
  {
    PublishFailsIff(tr, moves, i);
    hide Inv, Shape;
    StepOf(tr, moves, i);
  }

  lemma {:induction false} AcceptedBeforeCount(tr: seq<State>, moves: seq<Move>, b: nat, h: nat, k: nat, p: nat,
                                               op: Op, e: int)
    requires Run(tr, moves) && CallSpan(tr, moves, b, k, p, op) && op.Write? && b < e && h < k
    requires ProcOf(tr[h], p).CountWaiters? && b < h
    requires OneEvent(tr, moves, b, k, p, e, Accepted(op.id, op.arr))
    ensures e < h
  {
    hide Inv, Step, Shape, EventOf;
    var b', e' := CallSoFar(tr, moves, h, p, op);
    assert CallSpan(tr, moves, b, h, p, op);
    SameBegin(tr, moves, b, b', h, p, op);
  }
}
