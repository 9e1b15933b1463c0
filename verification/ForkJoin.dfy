/** The parallel matrix product: np processes share a pool of np-1 slots and one counting
    semaphore. The children write their blocks and give a unit each; the parent takes np-1 units
    and reads the blocks back. */
module ForkJoin {
  import opened Arrays
  import opened Kernel
  import opened Table
  import opened Pool
  import opened PoolProof
  import opened PoolTheorems

  // ------------------------------------------------------------ slot names

  function Digit(n: nat): char
    requires n < 10
  {
    (('0' as int) + n) as char
  }

  /** %d */
  function Decimal(n: nat): string {
    if n < 10 then [Digit(n)] else Decimal(n / 10) + [Digit(n % 10)]
  }

  function Id(i: nat): string { "data" + Decimal(i) }

  function Undecimal(s: string): int {
    if s == "" then 0 else 10 * Undecimal(s[..|s| - 1]) + (s[|s| - 1] as int - '0' as int)
  }

  lemma {:induction false} DecimalRoundTrip(n: nat)
    ensures Undecimal(Decimal(n)) == n
  {
    var s := Decimal(n);
    if n < 10 {
      assert s[..0] == "";
    } else {
      DecimalRoundTrip(n / 10);
      assert s[..|s| - 1] == Decimal(n / 10);
    }
  }

  function Pow10(k: nat): nat { if k == 0 then 1 else 10 * Pow10(k - 1) }

  lemma {:induction false} DecimalLength(n: nat, k: nat)
    requires n < Pow10(k) && k >= 1
    ensures 1 <= |Decimal(n)| <= k
  {
    if n >= 10 {
      assert k > 1;
      DecimalLength(n / 10, k - 1);
    }
  }

  const INT_MAX := 0x7fff_ffff

  /** The children's slot names are usable and all different. */
  lemma IdsAreValid(i: nat)
    requires i <= INT_MAX
    ensures ValidId(Id(i)) && Id(i)[..4] == "data" && Undecimal(Id(i)[4..]) == i
  {
    DecimalRoundTrip(i);
    assert Id(i)[4..] == Decimal(i);
    assert Pow10(5) == 100000 by { assert Pow10(2) == 100; }
    assert Pow10(10) == 10 * (10 * (10 * (10 * (10 * Pow10(5)))));
    DecimalLength(i, 10);
  }

  lemma IdsDiffer(i: nat, j: nat)
    requires i != j
    ensures Id(i) != Id(j)
  {
    DecimalRoundTrip(i);
    DecimalRoundTrip(j);
    assert Id(i)[4..] == Decimal(i) && Id(j)[4..] == Decimal(j);
  }

  // ------------------------------------------------------------ the programs

  /** What each process computed, as shm_write stores it. */
  type Job = seq<SlotArray>

  predicate ValidJob(job: Job) {
    && 1 <= |job| <= INT_MAX
    && forall i :: 0 <= i < |job| ==> WellFormed(job[i]) && job[i].dims != []
  }

  /** Where a process stands in bigmatprod, past the computation of its own block: process 0
      takes, reads slots 1 .. np-1 in order and ends with all blocks or with an error; the
      others write, give and quit. */
  datatype Client =
    | ToWrite | Writing | ToGive | Quit
    | ToTake | ToRead(next: nat) | InRead(next: nat) | Gathered | Aborted

  datatype World = World(pool: State, sem: int, clients: seq<Client>, got: seq<SlotArray>)

  ghost predicate Sound(job: Job, w: World) {
    Shape(w.pool) && |w.clients| == |w.pool.procs| == |job|
  }

  /** A library call begins. */
  function Enter(job: Job, w: World, p: nat, op: Op, next: Client): Option<World>
    requires Shape(w.pool) && |w.clients| == |w.pool.procs| == |job| && p < |job|
  {
    if !w.pool.procs[p].Idle? then None
    else
      match Step(w.pool, p, Begin(op))
      case None => None
      case Some(st) => Some(w.(pool := st, clients := w.clients[p := next]))
  }

  /** A step inside the library; system calls succeed. */
  function Within(job: Job, w: World, p: nat, c: Choice): Option<World>
    requires Shape(w.pool) && |w.clients| == |w.pool.procs| == |job| && p < |job|
  {
    if c.Refuse? then None
    else
      match Step(w.pool, p, c)
      case None => None
      case Some(st) => Some(w.(pool := st))
  }

  /** A library call returns. */
  function Return(job: Job, w: World, p: nat, next: Client): Option<World>
    requires Shape(w.pool) && |w.clients| == |w.pool.procs| == |job| && p < |job|
  {
    match Step(w.pool, p, Go)
    case None => None
    case Some(st) => Some(w.(pool := st, clients := w.clients[p := next]))
  }

  function WorldStep(job: Job, w: World, p: nat, c: Choice): Option<World>
    requires Shape(w.pool) && |w.clients| == |w.pool.procs| == |job| && p < |job|
  {
    var pr := w.pool.procs[p];
    match w.clients[p]
    case ToWrite => Enter(job, w, p, Write(Id(p), job[p], false), Writing)
    case Writing => if pr.Done? then Return(job, w, p, ToGive) else Within(job, w, p, c)
    case ToGive =>
      (match SemOp(w.sem, 1)
       case None => None
       case Some(v) => Some(w.(sem := v, clients := w.clients[p := Quit])))
    case ToTake =>
      (match SemOp(w.sem, -(|job| - 1))
       case None => None
       case Some(v) => Some(w.(sem := v, clients := w.clients[p := ToRead(1)])))
    case ToRead(i) =>
      if i >= |job| then Some(w.(clients := w.clients[p := Gathered]))
      else Enter(job, w, p, Read(Id(i), NoWait), InRead(i))
    case InRead(i) =>
      if !pr.Done? then Within(job, w, p, c)
      else if pr.res.Got? && pr.res.arr.dims != [] then
        Return(job, w.(got := w.got + [pr.res.arr]), p, ToRead(i + 1))
      else Return(job, w, p, Aborted)
    case _ => None
  }

  /** shm_init with np-1 slots, sem_init, and np processes. */
  function Start(job: Job): World
    requires |job| >= 1
  {
    World(Initial(|job| - 1, |job|), 0, seq(|job|, i => if i == 0 then ToTake else ToWrite), [])
  }

  ghost predicate WorldRun(job: Job, tr: seq<World>, moves: seq<Move>) {
    && |tr| == |moves| + 1 && |job| >= 1
    && tr[0] == Start(job)
    && forall k :: 0 <= k < |moves| ==> WorldStepAt(job, tr, moves, k)
  }

  ghost predicate WorldStepAt(job: Job, tr: seq<World>, moves: seq<Move>, k: int) {
    0 <= k < |moves| && |tr| == |moves| + 1 && WorldSteps(job, tr[k], moves[k], tr[k + 1])
  }

  ghost predicate WorldSteps(job: Job, w: World, m: Move, w': World) {
    Sound(job, w) && m.p < |job| && WorldStep(job, w, m.p, m.c) == Some(w')
  }

  // ------------------------------------------------------------ a call that goes well

  /** The calls made here: a plain write, or a plain read. */
  predicate Plain(op: Op) {
    (op.Write? && !op.publish) || (op.Read? && op.wait.NoWait?)
  }

  /** The process is inside call `op` and nothing has failed. */
  predicate OnTrack(pr: Proc, op: Op) {
    && !pr.Idle? && pr.op == op
    && match pr
       case LockMaster(_) => true
       case InMaster(_) => true
       case LockSlot(_, _, _) => true
       case MakeSegment(_, _) => true
       case Register(_, _, _) => true
       case TakeSnapshot(_, _, _) => true
       case DropMaster(_, _, _) => true
       case Attach(_, _, _) => true
       case MarkNew(_, _) => true
       case Header(_, _) => true
       case Copy(_, _, _, _) => true
       case Reading(_, _, _) => true
       case DropSlot(_, _, res, _) => !res.Failed?
       case Done(_, res) => !res.Failed?
       case _ => false
  }

  /** What can still go wrong at a step of such a call. */
  predicate Hazard(st: State, pr: Proc, next: Proc) {
    || (pr.InMaster? && pr.op.Write? && Lookup(st.table, pr.op.id).None? && FreeIndex(st.table).None?)
    || (pr.InMaster? && pr.op.Read? && Lookup(st.table, pr.op.id).None?)
    || (pr.Attach? && !(pr.snap.shm in st.segs && st.segs[pr.snap.shm].live))
    || (pr.Header? && next.DropSlot?)
  }

  /** Steps left in a call on an array of `len` cells, at most. */
  function Effort(pr: Proc, len: nat): nat {
    match pr
    case LockMaster(_) => 16 + len
    case InMaster(_) => 15 + len
    case LockSlot(_, _, _) => 14 + len
    case MakeSegment(_, _) => 13 + len
    case Register(_, _, _) => 12 + len
    case TakeSnapshot(_, _, _) => 11 + len
    case DropMaster(_, _, _) => 10 + len
    case Attach(_, _, _) => 9 + len
    case MarkNew(_, _) => 8 + len
    case Header(_, _) => 7 + len
    case Copy(_, _, next, _) => 5 + (if next <= len then len - next else 0)
    case Reading(_, _, out) => 5 + (if |out| <= len then len - |out| else 0)
    case DropSlot(_, _, _, _) => 4
    case Done(_, _) => 3
    case _ => 0
  }

  /** The copy loops stay inside `len` cells. */
  predicate InBounds(pr: Proc, len: nat) {
    && (pr.Copy? ==> pr.op.Write? && pr.next <= len == |Image(pr.op.arr)|)
    && (pr.Reading? ==> |pr.out| <= len && (!Complete(pr.out) ==> |pr.out| < len))
  }

  /** The write has been accepted. */
  predicate Accepting(pr: Proc) { pr.Copy? || pr.DropSlot? || pr.Done? }

  /** A step of a call that goes well. */
  predicate Advances(st: State, pr: Proc, st': State, next: Proc, op: Op, len: nat) {
    && st'.semsAlive && st'.masterAlive
    && Effort(next, len) < Effort(pr, len)
    && (if pr.Done? then next.Idle? else OnTrack(next, op))
    && (next.DropSlot? ==> (pr.Copy? && next.res == Success) || (pr.Reading? && op.Read? && next.res.Got?))
    && (next.Done? ==> pr.DropSlot? && next.res == pr.res)
    && (next.Attach? ==> pr.DropMaster? && next.snap == pr.snap)
    && (op.Write? && !pr.Done? ==> (Accepting(next) <==> Accepting(pr) || pr.Header?))
  }

  ghost predicate CallStep(st: State, p: nat, c: Choice, op: Op, len: nat) {
    && Shape(st) && p < |st.procs| && Step(st, p, c).Some? && !c.Refuse?
    && st.semsAlive && st.masterAlive
    && Plain(op) && OnTrack(st.procs[p], op) && Fits(st, st.procs[p])
    && InBounds(st.procs[p], len)
    && !Hazard(st, st.procs[p], ProcOf(Next(st, p, c), p))
    && (st.procs[p].Header? ==> len >= |Image(op.arr)|)
  }

  lemma TableStep(st: State, p: nat, c: Choice, op: Op, len: nat)
    requires CallStep(st, p, c, op, len) && (st.procs[p].InMaster? || st.procs[p].LockSlot?)
    ensures Advances(st, st.procs[p], Next(st, p, c), ProcOf(Next(st, p, c), p), op, len)
  {
    hide Shape, Lookup, FreeIndex;
  }

  lemma CreateStep(st: State, p: nat, c: Choice, op: Op, len: nat)
    requires CallStep(st, p, c, op, len)
    requires st.procs[p].MakeSegment? || st.procs[p].Register? || st.procs[p].TakeSnapshot? || st.procs[p].DropMaster?
    ensures Advances(st, st.procs[p], Next(st, p, c), ProcOf(Next(st, p, c), p), op, len)
  {
    hide Shape, Lookup, FreeIndex;
  }

  lemma AttachStep(st: State, p: nat, c: Choice, op: Op, len: nat)
    requires CallStep(st, p, c, op, len)
    requires st.procs[p].Attach? || st.procs[p].MarkNew?
    ensures Advances(st, st.procs[p], Next(st, p, c), ProcOf(Next(st, p, c), p), op, len)
  {
    hide Shape, Lookup, FreeIndex, StepHeader, StepReading, StepCopy;
  }

  lemma HeaderStep(st: State, p: nat, c: Choice, op: Op, len: nat)
    requires CallStep(st, p, c, op, len)
    requires st.procs[p].Header?
    ensures Advances(st, st.procs[p], Next(st, p, c), ProcOf(Next(st, p, c), p), op, len)
  {
    hide Shape, Lookup, FreeIndex, HeaderDims, Compatible, StepAttach, StepReading, StepCopy;
  }

  lemma DataStep(st: State, p: nat, c: Choice, op: Op, len: nat)
    requires CallStep(st, p, c, op, len)
    requires st.procs[p].Copy? || st.procs[p].Reading?
    ensures Advances(st, st.procs[p], Next(st, p, c), ProcOf(Next(st, p, c), p), op, len)
  {
    hide Shape, Lookup, FreeIndex, Complete, Parse, StepAttach, StepHeader, AfterSlot;
  }

  lemma LeaveStep(st: State, p: nat, c: Choice, op: Op, len: nat)
    requires CallStep(st, p, c, op, len)
    requires st.procs[p].DropSlot?
    ensures Advances(st, st.procs[p], Next(st, p, c), ProcOf(Next(st, p, c), p), op, len)
  {
    hide Shape, Lookup, FreeIndex, StepAttach, StepHeader, StepReading, StepCopy;
  }

  lemma OuterStep(st: State, p: nat, c: Choice, op: Op, len: nat)
    requires CallStep(st, p, c, op, len)
    requires st.procs[p].LockMaster? || st.procs[p].Done?
    ensures Advances(st, st.procs[p], Next(st, p, c), ProcOf(Next(st, p, c), p), op, len)
  {
    hide Shape, Lookup, FreeIndex;
  }

  /** Every step of a call that meets no hazard brings it nearer its successful end. */
  lemma CallAdvances(st: State, p: nat, c: Choice, op: Op, len: nat)
    requires CallStep(st, p, c, op, len)
    ensures Advances(st, st.procs[p], Next(st, p, c), ProcOf(Next(st, p, c), p), op, len)
  {
    hide Shape, Step, Fits, Hazard, Advances, InBounds;
    var pr := st.procs[p];
    if pr.InMaster? || pr.LockSlot? { TableStep(st, p, c, op, len); }
    else if pr.LockMaster? || pr.Done? { OuterStep(st, p, c, op, len); }
    else if pr.Attach? || pr.MarkNew? { AttachStep(st, p, c, op, len); }
    else if pr.Header? { HeaderStep(st, p, c, op, len); }
    else if pr.Copy? || pr.Reading? { DataStep(st, p, c, op, len); }
    else if pr.DropSlot? { LeaveStep(st, p, c, op, len); }
    else { CreateStep(st, p, c, op, len); }
  }
}
