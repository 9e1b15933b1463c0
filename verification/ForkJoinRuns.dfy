/** The fork/join protocol over whole runs: a barrier, the whole result, no deadlock, and a
    bound on the length of every run. */
module ForkJoinRuns {
  import opened Arrays
  import opened Pool
  import opened PoolInvariant
  import opened PoolProof
  import opened PoolTheorems
  import opened ForkJoin
  import opened ForkJoinProof

  // ------------------------------------------------------------ how much is left to do

  function ReadsLeft(job: Job, i: nat): nat
    decreases |job| - i
  {
    if i >= |job| then 0 else 20 + |Image(job[i])| + ReadsLeft(job, i + 1)
  }

  function Work(job: Job, client: Client, pr: Proc, p: nat): nat
    requires p < |job|
  {
    match client
    case ToWrite => 20 + |Image(job[p])|
    case Writing => Effort(pr, |Image(job[p])|)
    case ToGive => 2
    case ToTake => 3 + ReadsLeft(job, 1)
    case ToRead(i) => 1 + ReadsLeft(job, i)
    case InRead(i) => 1 + ReadsLeft(job, i + 1) + (if i < |job| then Effort(pr, |Image(job[i])|) else 0)
    case _ => 0
  }

  /** The work the first `k` processes have left. */
  function Total(job: Job, clients: seq<Client>, procs: seq<Proc>, k: nat): nat
    requires k <= |job| == |clients| == |procs|
  {
    if k == 0 then 0 else Total(job, clients, procs, k - 1) + Work(job, clients[k - 1], procs[k - 1], k - 1)
  }

  lemma {:induction false} TotalUpdate(job: Job, cs: seq<Client>, ps: seq<Proc>, p: nat, c: Client, pr: Proc, k: nat)
    requires p < |job| == |cs| == |ps| && k <= |job|
    ensures Total(job, cs[p := c], ps[p := pr], k) ==
            Total(job, cs, ps, k) + (if p < k then Work(job, c, pr, p) - Work(job, cs[p], ps[p], p) else 0)
  {
    if k > 0 {
      TotalUpdate(job, cs, ps, p, c, pr, k - 1);
    }
  }

  // ------------------------------------------------------------ every step keeps the invariant

  /** Process `p` made the move and the invariant holds of it again. */
  ghost predicate Progress(job: Job, w: World, p: nat, w': World) {
    && WorldInv(job, w') && p < |job|
    && |w.clients| == |w.pool.procs| == |job| && |w'.clients| == |w'.pool.procs| == |job|
    && w'.clients == w.clients[p := w'.clients[p]]
    && w'.pool.procs == w.pool.procs[p := w'.pool.procs[p]]
    && Work(job, w'.clients[p], w'.pool.procs[p], p) < Work(job, w.clients[p], w.pool.procs[p], p)
  }

  lemma {:induction false} OthersOk(job: Job, w: World, w': World, p: nat, q: nat, gain: bool)
    requires WorldInv(job, w) && Moved(job, w.pool, p, w'.pool, gain)
    requires p < |w.clients| == |w'.clients| == |job| && w'.clients == w.clients[p := w'.clients[p]]
    requires q < |job| && q != p
    ensures |w'.pool.procs| == |job| && ClientOk(job, w', q) && (q >= 1 ==> BlockOk(job, w', q))
  {
    hide Inv, Bound, Id;
    ClientAt(job, w, q);
    ProcAt(w.pool, q);
  }

  /** The rest of the world is as the invariant wants it; `p` itself has to be shown. */
  lemma {:induction false} Rejoin(job: Job, w: World, w': World, p: nat, gain: bool)
    requires WorldInv(job, w) && Moved(job, w.pool, p, w'.pool, gain)
    requires p < |w.clients| == |w'.clients| == |job| && w'.clients == w.clients[p := w'.clients[p]]
    requires |w'.pool.procs| == |job| && ClientOk(job, w', p) && (p >= 1 ==> BlockOk(job, w', p))
    requires UnitsOk(job, w')
    ensures WorldInv(job, w')
  {
    hide PoolOk, Bound, ClientOk, BlockOk, UnitsOk;
    forall q | 0 <= q < |job| ensures ClientOk(job, w', q) && (q >= 1 ==> BlockOk(job, w', q)) {
      if q != p { OthersOk(job, w, w', p, q, gain); }
    }
  }

  /** A change of client state that is no quitting, no taking and no reading leaves the units. */
  lemma {:induction false} SameUnits(job: Job, w: World, w': World, p: nat)
    requires UnitsOk(job, w) && p < |job| && p < |w'.clients| && w'.clients == w.clients[p := w'.clients[p]]
    requires w'.sem == w.sem && !w.clients[p].Quit? && !w'.clients[p].Quit?
    requires p == 0 ==> (w.clients[0].ToTake? <==> w'.clients[0].ToTake?)
    requires p != 0 ==> w'.got == w.got
    requires p == 0 && !w'.clients[0].ToTake? ==>
               match w'.clients[0]
               case ToRead(i) => 1 <= i <= |job| && w'.got == job[1..i]
               case InRead(i) => 1 <= i < |job| && w'.got == job[1..i]
               case Gathered => w'.got == job[1..]
               case _ => false
    requires p == 0 && w'.clients[0].ToTake? ==> w'.got == w.got
    ensures UnitsOk(job, w')
  {
    QuitsUpdate(w.clients, p, w'.clients[p]);
  }

  lemma {:induction false} EnterKeeps(job: Job, w: World, p: nat, op: Op, next: Client)
    requires WorldInv(job, w) && Sound(job, w) && p < |job|
    requires Enter(job, w, p, op, next).Some?
    requires RoleOk(job, next, p) && CallOf(job, next, p) == Some(op)
    requires if next.Writing? then w.clients[p].ToWrite? else next.InRead? && w.clients[p] == ToRead(next.next)
    ensures Progress(job, w, p, Enter(job, w, p, op, next).value)
  {
    hide Inv, Bound, Id, Step, Shape, PoolOk;
    ClientAt(job, w, p);
    BeginMoves(job, w, p, op);
    var w' := Enter(job, w, p, op, next).value;
    SameUnits(job, w, w', p);
    Rejoin(job, w, w', p, false);
  }

  /** A snapshot is live when the master lock is dropped. */
  lemma DroppedLive(st: State, p: nat, c: Choice)
    requires CanStep(st, p, c) && st.procs[p].DropMaster?
    ensures st.procs[p].snap.shm in st.segs && st.segs[st.procs[p].snap.shm].live
  {
    hide Inv;
    ProcAt(st, p);
  }

  /** The answer of a read is the block it asked for. */
  lemma {:induction false} ReadAnswer(job: Job, w: World, p: nat, c: Choice, op: Op)
    requires InCall(job, w, p, c, op) && w.pool.procs[p].Reading?
    ensures var now := ProcOf(Next(w.pool, p, c), p);
            op.Read? && now.DropSlot? && now.res.Got? ==> now.res == Got(job[w.clients[p].next])
  {
    hide Inv, Id, Step, Advances, InBounds, Hazard;
    ClientAt(job, w, p);
    CallFacts(job, w, p, c, op);
    var now := ProcOf(Next(w.pool, p, c), p);
    if op.Read? && now.DropSlot? && now.res.Got? {
      TrackEvent(w.pool.table, w.pool.procs[p], now, op);
      StepRefinesMap(w.pool, p, c, op.id);
      AllBound(job, w, w.clients[p].next);
    }
  }

  /** After a step inside a call the caller's part of the invariant holds again. */
  lemma {:induction false} CallProc(job: Job, w: World, p: nat, c: Choice, op: Op)
    requires InCall(job, w, p, c, op) && !w.pool.procs[p].Done?
    ensures var st' := Next(w.pool, p, c);
            ProcDoes(st', ProcOf(st', p), Some(op), Answer(job, w.clients[p]))
  {
    hide Inv, Id, Step, InBounds, Hazard;
    ClientAt(job, w, p);
    CallGoesWell(job, w, p, c, op);
    if w.pool.procs[p].DropMaster? {
      DroppedLive(w.pool, p, c);
      StillLive(w.pool, p, c);
    } else if w.pool.procs[p].Reading? {
      ReadAnswer(job, w, p, c, op);
    } else if w.pool.procs[p].Copy? {
      ProcAt(w.pool, p);
    }
  }

  lemma {:induction false} CallBlock(job: Job, w: World, p: nat, c: Choice, op: Op)
    requires InCall(job, w, p, c, op) && p >= 1
    ensures var st' := Next(w.pool, p, c);
            var client' := if w.pool.procs[p].Done? then ToGive else Writing;
            Bound(st', Id(p)) == if Written(client', ProcOf(st', p)) then Some(job[p]) else None
  {
    hide Inv, Id, Step, InBounds, Hazard, Bound;
    ClientAt(job, w, p);
    CallGoesWell(job, w, p, c, op);
    CallBinds(job, w, p, c, op, p);
  }

  lemma {:induction false} WithinKeeps(job: Job, w: World, p: nat, c: Choice, op: Op)
    requires InCall(job, w, p, c, op) && Sound(job, w) && !w.pool.procs[p].Done?
    ensures Within(job, w, p, c).Some? && Progress(job, w, p, Within(job, w, p, c).value)
  {
    hide Inv, Bound, Id, Step, Shape, PoolOk, InBounds, Hazard, ProcDoes;
    ClientAt(job, w, p);
    var w' := Within(job, w, p, c).value;
    CallMoves(job, w, p, c, op);
    CallProc(job, w, p, c, op);
    CallGoesWell(job, w, p, c, op);
    if p >= 1 { CallBlock(job, w, p, c, op); }
    assert w'.clients == w.clients[p := w'.clients[p]];
    SameUnits(job, w, w', p);
    Rejoin(job, w, w', p, op.Write? && w.pool.procs[p].Header?);
  }

  lemma {:induction false} ReturnKeeps(job: Job, w: World, p: nat, op: Op)
    requires InCall(job, w, p, Go, op) && Sound(job, w) && w.pool.procs[p].Done?
    ensures WorldStep(job, w, p, Go).Some? && Progress(job, w, p, WorldStep(job, w, p, Go).value)
  {
    hide Inv, Bound, Id, Step, Shape, PoolOk, InBounds, Hazard;
    ClientAt(job, w, p);
    var w' := WorldStep(job, w, p, Go).value;
    CallMoves(job, w, p, Go, op);
    CallGoesWell(job, w, p, Go, op);
    if p >= 1 { CallBlock(job, w, p, Go, op); }
    SameUnits(job, w, w', p);
    Rejoin(job, w, w', p, false);
  }

  // ------------------------------------------------------------ the semaphore and the end

  /** Nothing in the pool moves. */
  lemma {:induction false} StandStill(job: Job, w: World, p: nat)
    requires WorldInv(job, w) && p < |job|
    ensures Moved(job, w.pool, p, w.pool, false)
  {
    hide Inv, Bound, Id, Shape;
    ClientAt(job, w, p);
  }

  lemma {:induction false} LocalKeeps(job: Job, w: World, w': World, p: nat)
    requires WorldInv(job, w) && p < |job| && w'.pool == w.pool && p < |w'.clients|
    requires w'.clients == w.clients[p := w'.clients[p]]
    requires RoleOk(job, w'.clients[p], p) && CallOf(job, w.clients[p], p).None? && CallOf(job, w'.clients[p], p).None?
    requires (w.clients[p].ToGive? || w.clients[p].Quit?) == (w'.clients[p].ToGive? || w'.clients[p].Quit?)
    requires UnitsOk(job, w')
    requires Work(job, w'.clients[p], ProcOf(w.pool, p), p) < Work(job, w.clients[p], ProcOf(w.pool, p), p)
    ensures Progress(job, w, p, w')
  {
    hide Inv, Bound, Id, Shape, PoolOk, UnitsOk;
    ClientAt(job, w, p);
    StandStill(job, w, p);
    Rejoin(job, w, w', p, false);
  }

  lemma {:induction false} GiveKeeps(job: Job, w: World, p: nat)
    requires WorldInv(job, w) && Sound(job, w) && p < |job| && w.clients[p].ToGive?
    ensures WorldStep(job, w, p, Go).Some? && Progress(job, w, p, WorldStep(job, w, p, Go).value)
  {
    hide Inv, Bound, Id, Shape, PoolOk;
    ClientAt(job, w, p);
    ClientAt(job, w, 0);
    QuitsBound(w.clients);
    QuitsUpdate(w.clients, p, Quit);
    QuitsBound(w.clients[p := Quit]);
    LocalKeeps(job, w, WorldStep(job, w, p, Go).value, p);
  }

  lemma {:induction false} TakeKeeps(job: Job, w: World)
    requires WorldInv(job, w) && Sound(job, w) && w.clients[0].ToTake?
    ensures WorldStep(job, w, 0, Go).Some? <==> forall q :: 1 <= q < |job| ==> w.clients[q].Quit?
    ensures WorldStep(job, w, 0, Go).Some? ==> Progress(job, w, 0, WorldStep(job, w, 0, Go).value)
  {
    hide Inv, Bound, Id, Shape, PoolOk;
    ClientAt(job, w, 0);
    QuitsBound(w.clients);
    if WorldStep(job, w, 0, Go).Some? {
      QuitsUpdate(w.clients, 0, ToRead(1));
      LocalKeeps(job, w, WorldStep(job, w, 0, Go).value, 0);
    }
  }

  lemma {:induction false} GatheredKeeps(job: Job, w: World)
    requires WorldInv(job, w) && Sound(job, w) && w.clients[0] == ToRead(|job|)
    ensures WorldStep(job, w, 0, Go).Some? && Progress(job, w, 0, WorldStep(job, w, 0, Go).value)
  {
    hide Inv, Bound, Id, Shape, PoolOk;
    ClientAt(job, w, 0);
    QuitsUpdate(w.clients, 0, Gathered);
    LocalKeeps(job, w, WorldStep(job, w, 0, Go).value, 0);
  }

  // ------------------------------------------------------------ every step, every run

  /** What a process does outside calls does not depend on the environment. */
  lemma {:induction false} SameChoice(job: Job, w: World, p: nat, c: Choice)
    requires Sound(job, w) && p < |job|
    requires (!w.clients[p].Writing? && !w.clients[p].InRead?) || w.pool.procs[p].Done?
    ensures WorldStep(job, w, p, c) == WorldStep(job, w, p, Go)
  {
    hide Step, Shape;
  }

  lemma {:induction false} WorldKeeps(job: Job, w: World, p: nat, c: Choice)
    requires WorldInv(job, w) && Sound(job, w) && p < |job| && WorldStep(job, w, p, c).Some?
    ensures Progress(job, w, p, WorldStep(job, w, p, c).value)
  {
    hide Inv, Bound, Id, Shape, PoolOk, Step, Progress, UnitsOk;
    ClientAt(job, w, p);
    var client := w.clients[p];
    if client.Writing? || client.InRead? {
      var op := CallOf(job, client, p).value;
      if w.pool.procs[p].Done? {
        SameChoice(job, w, p, c);
        ReturnKeeps(job, w, p, op);
      } else {
        WithinKeeps(job, w, p, c, op);
      }
    } else {
      SameChoice(job, w, p, c);
      if client.ToGive? { GiveKeeps(job, w, p); }
      else if client.ToTake? { TakeKeeps(job, w); }
      else if client.ToWrite? { EnterKeeps(job, w, p, Write(Id(p), job[p], false), Writing); }
      else if client.next == |job| { GatheredKeeps(job, w); }
      else { EnterKeeps(job, w, p, Read(Id(client.next), NoWait), InRead(client.next)); }
    }
  }

  lemma {:induction false} StartInv(job: Job)
    requires ValidJob(job)
    ensures WorldInv(job, Start(job)) && Sound(job, Start(job))
  {
    hide Inv, Id;
    var w := Start(job);
    InitialInv(|job| - 1, |job|);
    InvShape(w.pool);
    NoneQuit(w.clients);
    forall p | 1 <= p < |job| ensures BlockOk(job, w, p) {
      IdNotEmpty(p);
    }
  }

  lemma IdNotEmpty(p: nat)
    ensures Id(p) != ""
  {
  }

  lemma {:induction false} NoneQuit(cs: seq<Client>)
    requires forall q :: 0 <= q < |cs| ==> !cs[q].Quit?
    ensures Quits(cs) == 0
  {
    if cs != [] { NoneQuit(cs[..|cs| - 1]); }
  }

  /** The invariant holds in every state of every run. */
  lemma {:induction false} WorldRunKeeps(job: Job, tr: seq<World>, moves: seq<Move>, k: nat)
    requires ValidJob(job) && WorldRun(job, tr, moves) && k < |tr|
    ensures WorldInv(job, tr[k]) && Sound(job, tr[k])
  {
    hide WorldInv, Sound, WorldStep, Start;
    StartInv(job);
    if k > 0 {
      WorldRunKeeps(job, tr, moves, k - 1);
      assert WorldStepAt(job, tr, moves, k - 1);
      StepUsesWork(job, tr[k - 1], moves[k - 1], tr[k]);
    }
  }

  /** Steps made and work left never exceed the work there was at the start. */
  lemma {:induction false} RunUsesWork(job: Job, tr: seq<World>, moves: seq<Move>, k: nat)
    requires ValidJob(job) && WorldRun(job, tr, moves) && k < |tr|
    ensures Sound(job, tr[k]) && Sound(job, Start(job))
    ensures k + Total(job, tr[k].clients, tr[k].pool.procs, |job|)
            <= Total(job, Start(job).clients, Start(job).pool.procs, |job|)
  {
    hide WorldInv, WorldStep, Start;
    StartInv(job);
    WorldRunKeeps(job, tr, moves, k);
    if k > 0 {
      RunUsesWork(job, tr, moves, k - 1);
      WorldRunKeeps(job, tr, moves, k - 1);
      assert WorldStepAt(job, tr, moves, k - 1);
      StepUsesWork(job, tr[k - 1], moves[k - 1], tr[k]);
    }
  }

  lemma {:induction false} StepUsesWork(job: Job, w: World, m: Move, w': World)
    requires WorldInv(job, w) && WorldSteps(job, w, m, w')
    ensures WorldInv(job, w') && Sound(job, w') && Sound(job, w)
    ensures Total(job, w'.clients, w'.pool.procs, |job|) < Total(job, w.clients, w.pool.procs, |job|)
  {
    hide WorldInv, WorldStep;
    WorldKeeps(job, w, m.p, m.c);
    ClientAt(job, w', m.p);
    TotalUpdate(job, w.clients, w.pool.procs, m.p, w'.clients[m.p], w'.pool.procs[m.p], |job|);
  }
}
