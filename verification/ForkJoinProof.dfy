/** In every interleaving the children's calls succeed, the parent is released only after the
    last of them, and it gathers exactly what they computed. */
module ForkJoinProof {
  import opened Arrays
  import opened Table
  import opened Pool
  import opened PoolInvariant
  import opened PoolProof
  import opened PoolTheorems
  import opened ForkJoin
  import PoolRuns
  import PoolSafety

  // ------------------------------------------------------------ the invariant

  /** The library call process `p` is in, and the answer it is due. */
  function CallOf(job: Job, client: Client, p: nat): Option<Op> {
    if client.Writing? && p < |job| then Some(Write(Id(p), job[p], false))
    else if client.InRead? && client.next < |job| then Some(Read(Id(client.next), NoWait))
    else None
  }

  function Answer(job: Job, client: Client): Result {
    if client.InRead? && client.next < |job| then Got(job[client.next]) else Success
  }

  predicate RoleOk(job: Job, client: Client, p: nat) {
    if p == 0 then
      || client.ToTake? || client.Gathered?
      || (client.ToRead? && 1 <= client.next <= |job|)
      || (client.InRead? && 1 <= client.next < |job|)
    else client.ToWrite? || client.Writing? || client.ToGive? || client.Quit?
  }

  predicate LiveAttach(st: State, pr: Proc) {
    pr.Attach? ==> pr.snap.shm in st.segs && st.segs[pr.snap.shm].live
  }

  predicate ProcDoes(st: State, pr: Proc, call: Option<Op>, answer: Result) {
    if call.None? then pr.Idle?
    else
      && OnTrack(pr, call.value)
      && (pr.DropSlot? || pr.Done? ==> pr.res == answer)
      && LiveAttach(st, pr)
  }

  predicate ClientOk(job: Job, w: World, p: nat)
    requires p < |w.clients| && p < |w.pool.procs|
  {
    && RoleOk(job, w.clients[p], p)
    && ProcDoes(w.pool, w.pool.procs[p], CallOf(job, w.clients[p], p), Answer(job, w.clients[p]))
  }

  predicate Written(client: Client, pr: Proc) {
    client.ToGive? || client.Quit? || (client.Writing? && Accepting(pr))
  }

  /** A child's slot is bound from the moment its write is accepted, to what it computed. */
  predicate BlockOk(job: Job, w: World, p: nat)
    requires p < |job| && p < |w.clients| && p < |w.pool.procs|
  {
    Bound(w.pool, Id(p)) == if Written(w.clients[p], w.pool.procs[p]) then Some(job[p]) else None
  }

  predicate IsChild(d: string, np: nat) {
    exists q: nat :: 1 <= q < np && d == Id(q)
  }

  predicate TableIds(t: seq<Entry>, np: nat) {
    forall s :: 0 <= s < |t| && t[s].desc != "" ==> IsChild(t[s].desc, np)
  }

  function Quits(cs: seq<Client>): nat {
    if cs == [] then 0 else Quits(cs[..|cs| - 1]) + (if cs[|cs| - 1].Quit? then 1 else 0)
  }

  /** The semaphore counts the children that have quit, less what the parent took; the parent
      has what it read so far. */
  predicate UnitsOk(job: Job, w: World) {
    && |w.clients| == |job| >= 1
    && w.sem == Quits(w.clients) - (if w.clients[0].ToTake? then 0 else |job| - 1)
    && (!w.clients[0].ToTake? ==> Quits(w.clients) == |job| - 1)
    && match w.clients[0]
       case ToRead(i) => 1 <= i <= |job| && w.got == job[1..i]
       case InRead(i) => 1 <= i < |job| && w.got == job[1..i]
       case Gathered => w.got == job[1..]
       case _ => w.got == []
  }

  ghost predicate PoolOk(job: Job, st: State) {
    && ValidJob(job) && Inv(st) && |st.procs| == |job| && |st.table| == |job| - 1
    && st.semsAlive && st.masterAlive && TableIds(st.table, |job|)
  }

  ghost predicate WorldInv(job: Job, w: World) {
    && PoolOk(job, w.pool) && |w.clients| == |job| && UnitsOk(job, w)
    && (forall p :: 0 <= p < |job| ==> ClientOk(job, w, p))
    && (forall p :: 1 <= p < |job| ==> BlockOk(job, w, p))
  }

  // ------------------------------------------------------------ counting

  lemma {:induction false} QuitsBound(cs: seq<Client>)
    requires cs != [] && !cs[0].Quit?
    ensures Quits(cs) <= |cs| - 1
    ensures Quits(cs) == |cs| - 1 <==> forall q :: 1 <= q < |cs| ==> cs[q].Quit?
  {
    var front := cs[..|cs| - 1];
    if front == [] {
      assert Quits(front) == 0;
    } else {
      QuitsBound(front);
      assert forall q :: 1 <= q < |front| ==> front[q] == cs[q];
      if forall q :: 1 <= q < |front| ==> front[q].Quit? {
        assert forall q :: 1 <= q < |cs| - 1 ==> cs[q].Quit?;
      } else {
        var q :| 1 <= q < |front| && !front[q].Quit?;
        assert !cs[q].Quit?;
      }
    }
  }

  lemma {:induction false} QuitsUpdate(cs: seq<Client>, p: nat, c: Client)
    requires p < |cs|
    ensures Quits(cs[p := c]) == Quits(cs) - (if cs[p].Quit? then 1 else 0) + (if c.Quit? then 1 else 0)
  {
    var front := cs[..|cs| - 1];
    if p == |cs| - 1 {
      assert cs[p := c][..|cs| - 1] == front;
    } else {
      QuitsUpdate(front, p, c);
      assert cs[p := c][..|cs| - 1] == front[p := c];
    }
  }

  function Ids(np: nat): set<string> {
    if np <= 1 then {} else Ids(np - 1) + {Id(np - 1)}
  }

  lemma {:induction false} IdsSize(np: nat)
    ensures np >= 1 ==> |Ids(np)| <= np - 1
    ensures forall q: nat :: 1 <= q < np ==> Id(q) in Ids(np)
  {
    if np > 1 { IdsSize(np - 1); }
  }

  /** Different values out of a set are no more than the set has. */
  lemma {:induction false} Pigeonhole(ds: seq<string>, s: set<string>)
    requires forall i :: 0 <= i < |ds| ==> ds[i] in s
    requires forall i, j :: 0 <= i < j < |ds| ==> ds[i] != ds[j]
    ensures |ds| <= |s|
  {
    if ds != [] {
      Pigeonhole(ds[..|ds| - 1], s - {ds[|ds| - 1]});
    }
  }

  /** The np-1 slots suffice: a child whose id is not in the table finds a free slot. */
  lemma {:induction false} SlotsSuffice(job: Job, st: State, p: nat)
    requires PoolOk(job, st) && 1 <= p < |job| && Lookup(st.table, Id(p)).None?
    ensures FreeIndex(st.table).Some?
  {
    hide Inv, Lookup, Id;
    var t := st.table;
    if FreeIndex(t).None? {
      DistinctAt(st);
      var ds := seq(|t|, s requires 0 <= s < |t| => t[s].desc);
      IdsSize(|job|);
      forall s | 0 <= s < |t| ensures ds[s] != "" && ds[s] in Ids(|job|) - {Id(p)} {
        EntryAt(st, s);
        assert IsChild(t[s].desc, |job|);
      }
      Pigeonhole(ds, Ids(|job|) - {Id(p)});
    }
  }

  // ------------------------------------------------------------ no hazard is met

  lemma {:induction false} ClientAt(job: Job, w: World, p: nat)
    requires WorldInv(job, w) && p < |job|
    ensures |w.pool.procs| == |w.clients| == |job| && Inv(w.pool) && Shape(w.pool) && ClientOk(job, w, p)
    ensures p >= 1 ==> BlockOk(job, w, p)
    ensures PoolOk(job, w.pool) && UnitsOk(job, w) && ValidJob(job)
  {
    InvShape(w.pool);
  }

  /** Once the parent has taken its units every child has quit, and its block is bound. */
  lemma {:induction false} AllBound(job: Job, w: World, i: nat)
    requires WorldInv(job, w) && !w.clients[0].ToTake? && 1 <= i < |job|
    ensures w.clients[i].Quit? && Bound(w.pool, Id(i)) == Some(job[i])
  {
    hide Inv, Bound, Id;
    ClientAt(job, w, i);
    ClientAt(job, w, 0);
    QuitsBound(w.clients);
  }

  ghost predicate InCall(job: Job, w: World, p: nat, c: Choice, op: Op) {
    && WorldInv(job, w) && p < |job| && |w.clients| == |job|
    && CallOf(job, w.clients[p], p) == Some(op)
    && CanStep(w.pool, p, c) && !c.Refuse?
  }

  function Cells(op: Op, answer: Result): nat {
    if op.Write? then |Image(op.arr)| else if answer.Got? then |Image(answer.arr)| else 0
  }

  lemma {:induction false} NoHazard(job: Job, w: World, p: nat, c: Choice, op: Op)
    requires InCall(job, w, p, c, op)
    ensures !Hazard(w.pool, w.pool.procs[p], ProcOf(Next(w.pool, p, c), p))
  {
    hide Inv, Lookup, Id, Step, FreeIndex;
    ClientAt(job, w, p);
    var pr := w.pool.procs[p];
    if op.Write? {
      if pr.InMaster? && Lookup(w.pool.table, op.id).None? {
        SlotsSuffice(job, w.pool, p);
      } else if pr.Header? {
        StepRefinesMap(w.pool, p, c, op.id);
      }
    } else {
      AllBound(job, w, w.clients[p].next);
      ProcAt(w.pool, p);
    }
  }

  lemma {:induction false} StaysInBounds(job: Job, w: World, p: nat, c: Choice, op: Op)
    requires InCall(job, w, p, c, op)
    ensures InBounds(w.pool.procs[p], Cells(op, Answer(job, w.clients[p])))
  {
    hide Inv, Lookup, Id, Step, Complete, Parse;
    ClientAt(job, w, p);
    ProcAt(w.pool, p);
    var pr := w.pool.procs[p];
    if pr.Reading? {
      AllBound(job, w, w.clients[p].next);
      ReadingFacts(w.pool, p, pr.op, pr.snap, pr.out);
      SnapshotIsBinding(w.pool, p, pr.op, pr.snap);
    }
  }

  lemma {:induction false} CallGoesWell(job: Job, w: World, p: nat, c: Choice, op: Op)
    requires InCall(job, w, p, c, op)
    ensures CallStep(w.pool, p, c, op, Cells(op, Answer(job, w.clients[p])))
    ensures Advances(w.pool, w.pool.procs[p], Next(w.pool, p, c), ProcOf(Next(w.pool, p, c), p),
                     op, Cells(op, Answer(job, w.clients[p])))
  {
    hide Inv, Id, Step, Advances, Hazard, InBounds;
    ClientAt(job, w, p);
    ProcAt(w.pool, p);
    NoHazard(job, w, p, c, op);
    StaysInBounds(job, w, p, c, op);
    CallAdvances(w.pool, p, c, op, Cells(op, Answer(job, w.clients[p])));
  }

  // ------------------------------------------------------------ one step of the pool

  /** What a step of process `p` does to the pool; `gain` if its write was accepted. */
  ghost predicate Moved(job: Job, st: State, p: nat, st': State, gain: bool) {
    && PoolOk(job, st') && p < |st.procs| == |st'.procs| == |job| && st'.procs == st.procs[p := st'.procs[p]]
    && (forall x :: x in st.segs && st.segs[x].live ==> x in st'.segs && st'.segs[x].live)
    && (forall q: nat :: 1 <= q < |job| ==>
          Bound(st', Id(q)) == if gain && q == p then Some(job[q]) else Bound(st, Id(q)))
  }

  lemma StillLive(st: State, p: nat, c: Choice)
    requires CanStep(st, p, c) && !st.procs[p].FreeSegment?
    ensures forall x :: x in st.segs && st.segs[x].live ==> x in Next(st, p, c).segs && Next(st, p, c).segs[x].live
  {
    hide Inv, Step;
    ProcAt(st, p);
    var st' := Next(st, p, c);
    forall x | x in st.segs && st.segs[x].live ensures x in st'.segs && st'.segs[x].live {
      if x !in st'.segs || !st'.segs[x].live {
        PoolSafety.RemovalIsFree(st, p, c, x);
      }
    }
  }

  lemma TableIdsKept(st: State, p: nat, c: Choice, np: nat)
    requires CanStep(st, p, c) && TableIds(st.table, np) && !st.procs[p].FreeEntry?
    requires st.procs[p].Register? ==>
               st.procs[p].op.Write? && st.procs[p].op.id == Id(p) && ValidId(Id(p)) && 1 <= p < np
    ensures TableIds(Next(st, p, c).table, np)
  {
    hide Inv, Step, Id;
    if st.procs[p].Register? {
      ProcAt(st, p);
      RegisterEntry(st, p, c);
      assert IsChild(Id(p), np);
    } else if st.procs[p].Header? {
      ProcAt(st, p);
      HeaderNext(st, p, c);
    } else {
      QuietTables(st, p, c);
    }
  }

  /** What a call that goes well means to the outside. */
  lemma TrackEvent(t: seq<Entry>, was: Proc, now: Proc, op: Op)
    requires OnTrack(was, op) && Plain(op) && (OnTrack(now, op) || (was.Done? && now.Idle?))
    requires was.Header? ==> op.Write? && now.Copy?
    ensures EventOf(t, was, now) ==
            if was.Header? then Accepted(op.id, op.arr)
            else if was.Reading? && op.Read? && now.DropSlot? && now.res.Got? then Returned(op.id, now.res.arr)
            else Silent
  {
  }

  lemma {:induction false} CallBinds(job: Job, w: World, p: nat, c: Choice, op: Op, q: nat)
    requires InCall(job, w, p, c, op) && 1 <= q < |job|
    ensures Bound(Next(w.pool, p, c), Id(q)) ==
            if op.Write? && w.pool.procs[p].Header? && q == p then Some(job[q]) else Bound(w.pool, Id(q))
  {
    hide Inv, Bound, Id, Step, Advances, InBounds, Hazard;
    ClientAt(job, w, p);
    var was, now := w.pool.procs[p], ProcOf(Next(w.pool, p, c), p);
    CallFacts(job, w, p, c, op);
    TrackEvent(w.pool.table, was, now, op);
    StepRefinesMap(w.pool, p, c, Id(q));
    if q != p { IdsDiffer(q, p); }
  }

  /** The next code point of a call that goes well. */
  lemma {:induction false} CallFacts(job: Job, w: World, p: nat, c: Choice, op: Op)
    requires InCall(job, w, p, c, op)
    ensures var was, now := w.pool.procs[p], ProcOf(Next(w.pool, p, c), p);
            && OnTrack(was, op) && Plain(op)
            && (if was.Done? then now.Idle? else OnTrack(now, op))
            && (was.Header? ==> op.Write? && now.Copy?)
  {
    hide Inv, Id, Step, InBounds, Hazard;
    ClientAt(job, w, p);
    CallGoesWell(job, w, p, c, op);
  }

  lemma {:induction false} CallMoves(job: Job, w: World, p: nat, c: Choice, op: Op)
    requires InCall(job, w, p, c, op)
    ensures Moved(job, w.pool, p, Next(w.pool, p, c), op.Write? && w.pool.procs[p].Header?)
  {
    hide Inv, Bound, Id, Step, InBounds, Hazard, TableIds;
    ClientAt(job, w, p);
    var st, st' := w.pool, Next(w.pool, p, c);
    CallFacts(job, w, p, c, op);
    CallGoesWell(job, w, p, c, op);
    PoolRuns.StepFrame(st, p, c);
    StepKeeps(st, p, c);
    StillLive(st, p, c);
    IdsAreValid(p);
    ProcAt(st, p);
    TableIdsKept(st, p, c, |job|);
    forall q: nat | 1 <= q < |job|
      ensures Bound(st', Id(q)) == if op.Write? && st.procs[p].Header? && q == p then Some(job[q]) else Bound(st, Id(q))
    {
      CallBinds(job, w, p, c, op, q);
    }
  }

  lemma BeginStep(st: State, p: nat, op: Op)
    requires Shape(st) && p < |st.procs| && st.procs[p].Idle? && st.masterAlive
    ensures Step(st, p, Begin(op)) == if ValidOp(op) then Some(Goto(st, p, LockMaster(op))) else None
  {
  }

  lemma {:induction false} BeginMoves(job: Job, w: World, p: nat, op: Op)
    requires WorldInv(job, w) && p < |job| && |w.pool.procs| == |job| && w.pool.procs[p].Idle? && Shape(w.pool)
    requires Step(w.pool, p, Begin(op)).Some?
    ensures Moved(job, w.pool, p, Next(w.pool, p, Begin(op)), false)
    ensures ProcOf(Next(w.pool, p, Begin(op)), p) == LockMaster(op)
  {
    hide Inv, Bound, Id, Step, Shape, TableIds;
    ClientAt(job, w, p);
    var st := w.pool;
    BeginStep(st, p, op);
    StepKeeps(st, p, Begin(op));
    forall q: nat | 1 <= q < |job| ensures Bound(Next(st, p, Begin(op)), Id(q)) == Bound(st, Id(q)) {
      SameBindings(st, Next(st, p, Begin(op)), Id(q));
    }
  }
}
