/** Counting semaphores and the polling emulation of a timed wait. */
module TimedWait {
  import opened Arrays
  import opened Kernel

  /** SVIPC_USLEEP_QUANTUM, in microseconds, and the nanoseconds one sleep takes off the wait. */
  const QUANTUM_US := 1000
  const QUANTUM_NS := QUANTUM_US * 1000

  /** How many sleeps a wait of `ns` nanoseconds allows. */
  function Sleeps(ns: int): nat
    requires ns >= 0
  {
    (ns + QUANTUM_NS - 1) / QUANTUM_NS
  }

  /** What the k-th try finds in a semaphore that held `start`, when the other processes change
      it by `others[j]` during the j-th sleep. */
  function Seen(start: int, others: seq<int>, k: nat): int
    requires k <= |others|
  {
    start + Sum(others[..k])
  }

  /** The k-th try would go through. */
  predicate Opens(start: int, others: seq<int>, k: nat, op: int)
    requires k <= |others|
  {
    SemOp(Seen(start, others, k), op).Some?
  }

  /** How a semop under IPC_NOWAIT ends: it goes through, or with EAGAIN, or because the set is
      gone. */
  datatype Try = Through | Again | Gone

  class Semaphore {
    var value: int
    /** The set has not been removed. */
    var alive: bool
    /** Microseconds the caller has slept. */
    var slept: int

    method TryOp(op: int) returns (t: Try)
      modifies `value
      ensures t == if !alive then Gone else if SemOp(old(value), op).Some? then Through else Again
      ensures value == if t.Through? then SemOp(old(value), op).value else old(value)
    {
      if !alive { return Gone; }
      match SemOp(value, op)
      case None => t := Again;
      case Some(v) => value, t := v, Through;
    }

    /** usleep, while other processes give and take, and perhaps remove the set. */
    method Sleep(us: int, others: int, removed: bool)
      modifies this
      ensures value == old(value) + others && slept == old(slept) + us && alive == (old(alive) && !removed)
    {
      value := value + others;
      slept := slept + us;
      if removed { alive := false; }
    }

    /** The emulated semtimedop with a timeout of `ns` >= 0: poll, sleeping one quantum between
        tries, until a try succeeds, or the time is up, or the set is gone, as it is from try
        `lost` on. */
    method TimedOp(op: int, ns: int, others: seq<int>, lost: nat) returns (t: Try, tries: nat)
      requires ns >= 0 && |others| >= Sleeps(ns) && alive == (lost > 0)
      modifies this
      ensures 1 <= tries <= 1 + Sleeps(ns)
      ensures slept - old(slept) == (tries - 1) * QUANTUM_US
      ensures t.Through? <==> exists k :: 0 <= k <= Sleeps(ns) && k < lost && Opens(old(value), others, k, op)
      ensures t.Gone? <==> lost <= Sleeps(ns) && forall k :: 0 <= k < lost ==> !Opens(old(value), others, k, op)
      ensures forall k :: 0 <= k < tries - 1 ==> k < lost && !Opens(old(value), others, k, op)
      ensures t.Through? ==> Opens(old(value), others, tries - 1, op)
      ensures t.Through? ==> value == SemOp(Seen(old(value), others, tries - 1), op).value
      ensures t.Gone? ==> tries - 1 == lost
      ensures t.Again? ==> ns <= (slept - old(slept)) * 1000 < ns + QUANTUM_NS
      ensures !t.Through? ==> value == Seen(old(value), others, tries - 1)
    {
      var left := ns;
      tries := 1;
      assert others[..0] == [];
      t := TryOp(op);
      while t.Again? && left > 0
        invariant 1 <= tries <= 1 + Sleeps(ns)
        invariant left == ns - (tries - 1) * QUANTUM_NS && left > -QUANTUM_NS
        invariant slept - old(slept) == (tries - 1) * QUANTUM_US
        invariant forall k :: 0 <= k < tries - 1 ==> k < lost && !Opens(old(value), others, k, op)
        invariant alive == (tries - 1 < lost) && tries - 1 <= lost
        invariant t == if !alive then Gone else if Opens(old(value), others, tries - 1, op) then Through else Again
        invariant t.Through? ==> value == SemOp(Seen(old(value), others, tries - 1), op).value
        invariant !t.Through? ==> value == Seen(old(value), others, tries - 1)
        decreases left
      {
        assert others[..tries][..tries - 1] == others[..tries - 1];
        Sleep(QUANTUM_US, others[tries - 1], tries == lost);
        left := left - QUANTUM_NS;
        tries := tries + 1;
        t := TryOp(op);
      }
      if t.Through? {
        assert Opens(old(value), others, tries - 1, op);
      }
    }
  }

  /** svipc_sem_init: every semaphore of the new set is set to 0, once. */
  method InitSemaphores(n: nat, garbage: seq<int>) returns (set_: array<int>, ghost setvals: seq<nat>)
    requires n > 0 && |garbage| == n
    ensures fresh(set_) && set_[..] == seq(n, _ => 0) && setvals == seq(n, _ => 1)
  {
    set_ := new int[n](i requires 0 <= i < |garbage| => garbage[i]);
    setvals := seq(n, _ => 0);
    var i := 0;
    while i < n
      invariant 0 <= i <= n
      invariant forall k :: 0 <= k < i ==> set_[k] == 0
      invariant |setvals| == n && forall k :: 0 <= k < n ==> setvals[k] == if k < i then 1 else 0
    {
      set_[i] := 0;
      setvals := setvals[i := setvals[i] + 1];
      i := i + 1;
    }
  }
}
