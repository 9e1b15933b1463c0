/** A counting semaphore shared by any number of processes that give and take units in any
    interleaving, some of them with a timeout. */
module Semaphores {
  import opened Arrays
  import opened Kernel

  /** Inside a call with operand `op` (positive to give, negative to take), or not. */
  datatype Proc = Idle | Calling(op: int, timed: bool)

  datatype State = State(value: int, procs: seq<Proc>)

  datatype Move =
    | Call(p: nat, op: int, timed: bool)
    | Complete(p: nat)
    | Expire(p: nat)

  function Step(st: State, m: Move): Option<State> {
    if m.p >= |st.procs| then None
    else match m
      case Call(p, op, timed) =>
        if st.procs[p].Idle? then Some(st.(procs := st.procs[p := Calling(op, timed)])) else None
      case Complete(p) =>
        if st.procs[p].Idle? then None
        else (match SemOp(st.value, st.procs[p].op)
              case None => None
              case Some(v) => Some(State(v, st.procs[p := Idle])))
      case Expire(p) =>
        if st.procs[p].Calling? && st.procs[p].timed then Some(st.(procs := st.procs[p := Idle])) else None
  }

  /** A run from the state svipc_sem_init leaves. */
  ghost predicate Run(tr: seq<State>, moves: seq<Move>) {
    && |tr| == |moves| + 1
    && tr[0].value == 0 && (forall q :: 0 <= q < |tr[0].procs| ==> tr[0].procs[q].Idle?)
    && forall k :: 0 <= k < |moves| ==> Step(tr[k], moves[k]) == Some(tr[k + 1])
  }

  /** The operand of the call that completes at this move, 0 if none does. */
  function Done(st: State, m: Move): int {
    if m.Complete? && m.p < |st.procs| && st.procs[m.p].Calling? then st.procs[m.p].op else 0
  }

  function Given(tr: seq<State>, moves: seq<Move>, k: nat): nat
    requires |tr| == |moves| + 1 && k < |tr|
  {
    if k == 0 then 0
    else Given(tr, moves, k - 1) + (var d := Done(tr[k - 1], moves[k - 1]); if d > 0 then d else 0)
  }

  function Taken(tr: seq<State>, moves: seq<Move>, k: nat): nat
    requires |tr| == |moves| + 1 && k < |tr|
  {
    if k == 0 then 0
    else Taken(tr, moves, k - 1) + (var d := Done(tr[k - 1], moves[k - 1]); if d < 0 then -d else 0)
  }

  /** In every interleaving the value is what was given less what was taken, and never negative. */
  lemma {:induction false} Conservation(tr: seq<State>, moves: seq<Move>, k: nat)
    requires Run(tr, moves) && k < |tr|
    ensures tr[k].value == Given(tr, moves, k) - Taken(tr, moves, k) >= 0
  {
    if k > 0 {
      Conservation(tr, moves, k - 1);
      assert Step(tr[k - 1], moves[k - 1]) == Some(tr[k]);
    }
  }

  /** Takes are all or nothing: a take of `count` units that completes, timed or not, has all of
      them out of what was given before and not taken by others; one that expires takes none. */
  lemma {:induction false} TakeIsCovered(tr: seq<State>, moves: seq<Move>, k: nat)
    requires Run(tr, moves) && k < |moves|
    ensures Done(tr[k], moves[k]) < 0 ==>
      var count := -Done(tr[k], moves[k]);
      && Given(tr, moves, k) >= Taken(tr, moves, k) + count
      && tr[k + 1].value == tr[k].value - count
      && Taken(tr, moves, k + 1) == Taken(tr, moves, k) + count
    ensures moves[k].Expire? ==> tr[k + 1].value == tr[k].value && Taken(tr, moves, k + 1) == Taken(tr, moves, k)
  {
    Conservation(tr, moves, k);
    assert Step(tr[k], moves[k]) == Some(tr[k + 1]);
  }

  /** A pending call can complete exactly when its units are there: a take of `count` when that
      many have been given and not taken, a give at any time, a take of none when none is left. It
      can expire exactly when it was made with a timeout. */
  lemma {:induction false} PendingCompletesIff(tr: seq<State>, moves: seq<Move>, k: nat, p: nat)
    requires Run(tr, moves) && k < |tr| && p < |tr[k].procs| && tr[k].procs[p].Calling?
    ensures var Calling(op, timed) := tr[k].procs[p];
            var there := Given(tr, moves, k) - Taken(tr, moves, k);
            && (op < 0 ==> (Step(tr[k], Complete(p)).Some? <==> there >= -op))
            && (op > 0 ==> Step(tr[k], Complete(p)).Some?)
            && (op == 0 ==> (Step(tr[k], Complete(p)).Some? <==> there == 0))
            && (Step(tr[k], Expire(p)).Some? <==> timed)
  {
    Conservation(tr, moves, k);
  }

  /** The operand and the timeout of a pending call are those it was made with, at step `c`; it has
      been pending ever since. */
  lemma {:induction false} PendingIsAsCalled(tr: seq<State>, moves: seq<Move>, k: nat, p: nat) returns (c: nat)
    requires Run(tr, moves) && k < |tr| && p < |tr[k].procs| && tr[k].procs[p].Calling?
    ensures c < k && moves[c] == Call(p, tr[k].procs[p].op, tr[k].procs[p].timed)
    ensures forall m :: c < m <= k ==> p < |tr[m].procs| && tr[m].procs[p] == tr[k].procs[p]
  {
    assert k > 0 && Step(tr[k - 1], moves[k - 1]) == Some(tr[k]);
    if tr[k - 1].procs[p].Idle? {
      c := k - 1;
    } else {
      c := PendingIsAsCalled(tr, moves, k - 1, p);
    }
  }
}
