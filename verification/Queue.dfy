/** Message queues: sends checked against the queue limit, receives into a buffer of that size. */
module Queue {
  import opened Arrays
  import opened Bytes
  import opened Message

  datatype Msg = Msg(mtype: int, body: seq<int>)

  datatype Status = Sent | TooBig | BadType | WouldWait

  function Total(msgs: seq<Msg>): nat {
    if msgs == [] then 0 else Total(msgs[..|msgs| - 1]) + |msgs[|msgs| - 1].body|
  }

  /** msgrcv's selection: any message for 0, one type for a positive request, the lowest type up
      to its magnitude for a negative one. */
  predicate Wanted(request: int, m: Msg, msgs: seq<Msg>) {
    if request == 0 then true
    else if request > 0 then m.mtype == request
    else m.mtype <= -request && forall k :: 0 <= k < |msgs| ==> m.mtype <= msgs[k].mtype
  }

  /** The position msgrcv takes its message from. */
  function Select(request: int, msgs: seq<Msg>, from: nat): (r: Option<nat>)
    requires from <= |msgs|
    ensures r.Some? ==> from <= r.value < |msgs| && Wanted(request, msgs[r.value], msgs)
    ensures r.Some? ==> forall k :: from <= k < r.value ==> !Wanted(request, msgs[k], msgs)
    ensures r.None? ==> forall k :: from <= k < |msgs| ==> !Wanted(request, msgs[k], msgs)
    decreases |msgs| - from
  {
    if from == |msgs| then None
    else if Wanted(request, msgs[from], msgs) then Some(from)
    else Select(request, msgs, from + 1)
  }

  class MsgQueue {
    /** msg_qbytes. */
    const qbytes: nat
    var msgs: seq<Msg>

    /** Every queued message fits the limit. */
    predicate Valid()
      reads this
    {
      forall k :: 0 <= k < |msgs| ==> msgs[k].mtype > 0 && |msgs[k].body| <= qbytes
    }

    constructor (qbytes: nat)
      ensures Valid() && msgs == [] && this.qbytes == qbytes
    {
      this.qbytes, msgs := qbytes, [];
    }

    /** svipc_msq_snd: a message larger than the limit is refused; the kernel refuses a bad type
        and makes a sender wait for room. */
    method Send(mtype: int, body: seq<int>) returns (status: Status)
      requires Valid()
      modifies this
      ensures Valid()
      ensures status.TooBig? <==> |body| > qbytes
      ensures status.BadType? <==> |body| <= qbytes && mtype <= 0
      ensures status.Sent? <==> |body| <= qbytes && mtype > 0 && Total(old(msgs)) + |body| <= qbytes
      ensures msgs == if status.Sent? then old(msgs) + [Msg(mtype, body)] else old(msgs)
    {
      if |body| > qbytes { return TooBig; }
      if mtype <= 0 { return BadType; }
      if Total(msgs) + |body| > qbytes { return WouldWait; }
      msgs := msgs + [Msg(mtype, body)];
      return Sent;
    }

    /** svipc_msq_rcv: the buffer has room for the largest message the queue can hold, so the
        message selected arrives whole, and only it leaves the queue. */
    method Receive(request: int) returns (r: Option<array<int>>, ghost k: nat)
      requires Valid()
      modifies this
      ensures Valid()
      ensures r.None? <==> Select(request, old(msgs), 0).None?
      ensures r.None? ==> msgs == old(msgs)
      ensures r.Some? ==> Select(request, old(msgs), 0) == Some(k) && k < |old(msgs)|
      ensures r.Some? ==> fresh(r.value) && r.value.Length == qbytes && old(msgs)[k].body <= r.value[..]
      ensures r.Some? ==> msgs == old(msgs)[..k] + old(msgs)[k + 1..]
    {
      var buffer := new int[qbytes];
      match Select(request, msgs, 0) {
        case None => return None, 0;
        case Some(i) =>
          k := i;
          CopyIn(buffer, 0, msgs[i].body);
          assert buffer[..|msgs[i].body|] == msgs[i].body;
          msgs := msgs[..i] + msgs[i + 1..];
          return Some(buffer), k;
      }
    }
  }

  /** An array sent into a queue that has room for it comes out of it unchanged at the first
      receive that selects it, and the queue is then as it was before. */
  method SendAndReceive(q: MsgQueue, mtype: int, a: YArray, request: int) returns (b: YArray, consumed: nat)
    requires q.Valid() && mtype > 0 && Sendable(a) && Total(q.msgs) + MessageSize(a) <= q.qbytes
    requires Select(request, q.msgs + [Msg(mtype, MessageBytes(a))], 0) == Some(|q.msgs|)
    modifies q
    ensures b == a && consumed == MessageSize(a) && q.msgs == old(q.msgs)
  {
    ghost var before := q.msgs;
    var encoded := Encode(a);
    var buf := encoded.value;
    var status := q.Send(mtype, buf[..]);
    assert q.msgs[..|before|] == before;
    var received, k := q.Receive(request);
    b, consumed := Decode(received.value, a);
  }

  /** A receive selects the message just sent exactly if it asks for any message and none is older,
      or asks for its type and no older one has it, or asks for types up to a bound that covers
      it and every older one has a higher type. */
  lemma {:induction false} SelectsSentIff(msgs: seq<Msg>, m: Msg, request: int)
    ensures Select(request, msgs + [m], 0) == Some(|msgs|) <==>
            if request == 0 then msgs == []
            else if request > 0 then m.mtype == request && forall k :: 0 <= k < |msgs| ==> msgs[k].mtype != request
            else m.mtype <= -request && forall k :: 0 <= k < |msgs| ==> msgs[k].mtype > m.mtype
  {
    hide Select;
    var all := msgs + [m];
    if request < 0 {
      if forall k :: 0 <= k < |msgs| ==> msgs[k].mtype > m.mtype {
        assert forall k :: 0 <= k < |msgs| ==> all[k] == msgs[k];
        assert forall k :: 0 <= k < |msgs| ==> !Wanted(request, all[k], all) by {
          assert all[|msgs|] == m;
        }
      } else {
        var k, least := LeastType(msgs);
        assert all[k] == msgs[k];
        if m.mtype <= -request && msgs[k].mtype <= m.mtype {
          assert forall l :: 0 <= l < |all| ==> all[k].mtype <= all[l].mtype;
          assert Wanted(request, all[k], all);
        }
      }
    } else {
      assert forall k :: 0 <= k < |msgs| ==> all[k] == msgs[k];
      assert all[|msgs|] == m;
      if request == 0 && msgs != [] { assert Wanted(request, all[0], all); }
      assert request > 0 ==> forall k :: 0 <= k < |all| ==> (Wanted(request, all[k], all) <==> all[k].mtype == request);
    }
  }

  /** A message of the lowest type. */
  lemma {:induction false} LeastType(msgs: seq<Msg>) returns (k: nat, least: int)
    requires msgs != []
    ensures k < |msgs| && least == msgs[k].mtype && forall l :: 0 <= l < |msgs| ==> least <= msgs[l].mtype
  {
    var n := |msgs| - 1;
    if n == 0 {
      k, least := 0, msgs[0].mtype;
    } else {
      k, least := LeastType(msgs[..n]);
      assert forall l :: 0 <= l < n ==> msgs[..n][l] == msgs[l];
      if msgs[n].mtype < least { k, least := n, msgs[n].mtype; }
    }
  }

  /** A receive that selects nothing found nothing that fits: no message at all, none of the type,
      or none of a type up to the bound. */
  lemma {:induction false} SelectsNoneIff(msgs: seq<Msg>, request: int)
    ensures Select(request, msgs, 0).None? <==>
            if request == 0 then msgs == []
            else if request > 0 then forall k :: 0 <= k < |msgs| ==> msgs[k].mtype != request
            else forall k :: 0 <= k < |msgs| ==> msgs[k].mtype > -request
  {
    hide Select;
    if msgs != [] {
      var k, least := LeastType(msgs);
      if request < 0 && least <= -request { assert Wanted(request, msgs[k], msgs); }
      if request == 0 { assert Wanted(request, msgs[0], msgs); }
      assert request > 0 ==>
        forall l :: 0 <= l < |msgs| ==> (Wanted(request, msgs[l], msgs) <==> msgs[l].mtype == request);
    }
  }

  // ------------------------------------------------------------ any number of senders and receivers

  /** A sender between its size check and its msgsnd, or nothing. */
  datatype Proc = Free | Checked(m: Msg)

  datatype State = State(qbytes: nat, msgs: seq<Msg>, procs: seq<Proc>)

  datatype Move = Check(p: nat, m: Msg) | Post(p: nat) | GiveUp(p: nat) | Take(request: int)

  /** The message a receive takes, if any. */
  function TakenBy(st: State, m: Move): Option<Msg> {
    if !m.Take? then None
    else match Select(m.request, st.msgs, 0)
      case None => None
      case Some(k) => Some(st.msgs[k])
  }

  ghost predicate Step(st: State, m: Move, st': State) {
    && st'.qbytes == st.qbytes
    && match m
       case Check(p, msg) =>
         && p < |st.procs| && st.procs[p].Free? && st'.msgs == st.msgs
         && st'.procs == if |msg.body| > st.qbytes then st.procs else st.procs[p := Checked(msg)]
       case Post(p) =>
         && p < |st.procs| && st.procs[p].Checked? && Total(st.msgs) + |st.procs[p].m.body| <= st.qbytes
         && st'.msgs == st.msgs + [st.procs[p].m] && st'.procs == st.procs[p := Free]
       case GiveUp(p) => p < |st.procs| && st'.msgs == st.msgs && st'.procs == st.procs[p := Free]
       case Take(request) =>
         && st'.procs == st.procs
         && match Select(request, st.msgs, 0)
            case None => st'.msgs == st.msgs
            case Some(k) => st'.msgs == st.msgs[..k] + st.msgs[k + 1..]
  }

  ghost predicate Run(tr: seq<State>, moves: seq<Move>) {
    && |tr| == |moves| + 1
    && tr[0].msgs == [] && (forall p :: 0 <= p < |tr[0].procs| ==> tr[0].procs[p].Free?)
    && forall k :: 0 <= k < |moves| ==> Step(tr[k], moves[k], tr[k + 1])
  }

  ghost predicate Fits(st: State) {
    && (forall k :: 0 <= k < |st.msgs| ==> |st.msgs[k].body| <= st.qbytes)
    && (forall p :: 0 <= p < |st.procs| && st.procs[p].Checked? ==> |st.procs[p].m.body| <= st.qbytes)
    && Total(st.msgs) <= st.qbytes
  }

  lemma {:induction false} TotalWithout(msgs: seq<Msg>, k: nat)
    requires k < |msgs|
    ensures Total(msgs[..k] + msgs[k + 1..]) == Total(msgs) - |msgs[k].body|
  {
    var n := |msgs| - 1;
    var rest := msgs[..k] + msgs[k + 1..];
    if k < n {
      TotalWithout(msgs[..n], k);
      assert rest[..n - 1] == msgs[..n][..k] + msgs[..n][k + 1..];
      assert rest[n - 1] == msgs[n];
    } else {
      assert rest == msgs[..n];
    }
  }

  lemma StepFits(st: State, m: Move, st': State)
    requires Fits(st) && Step(st, m, st')
    ensures Fits(st')
  {
    if m.Post? {
      assert st'.msgs[..|st.msgs|] == st.msgs;
    } else if m.Take? {
      var r := Select(m.request, st.msgs, 0);
      if r.Some? { TotalWithout(st.msgs, r.value); }
    }
  }

  /** In every interleaving of senders and receivers, the message a receive takes is no larger
      than the buffer svipc_msq_rcv allocates, and neither is the whole queue. */
  lemma {:induction false} ReceivedFits(tr: seq<State>, moves: seq<Move>, k: nat)
    requires Run(tr, moves) && k < |tr|
    ensures Fits(tr[k]) && tr[k].qbytes == tr[0].qbytes
    ensures k < |moves| && TakenBy(tr[k], moves[k]).Some? ==> |TakenBy(tr[k], moves[k]).value.body| <= tr[0].qbytes
  {
    hide Wanted, Select;
    if k > 0 {
      ReceivedFits(tr, moves, k - 1);
      assert Step(tr[k - 1], moves[k - 1], tr[k]);
      StepFits(tr[k - 1], moves[k - 1], tr[k]);
    }
  }

  /** A sender with a message within the limit can check it, and can send it exactly when there is
      room for it; a receive is always answered. */
  lemma {:induction false} MovesExist(st: State, p: nat, m: Msg, request: int)
      returns (checked: State, sent: State, taken: State)
    requires p < |st.procs| && st.procs[p].Free? && |m.body| <= st.qbytes
    ensures Step(st, Check(p, m), checked) && checked.procs[p] == Checked(m) && checked.msgs == st.msgs
    ensures Step(checked, Post(p), sent) <==> Total(st.msgs) + |m.body| <= st.qbytes
    ensures sent.msgs == st.msgs + [m]
    ensures Step(st, Take(request), taken)
    ensures TakenBy(st, Take(request)).None? ==> taken == st
    ensures TakenBy(st, Take(request)).Some? ==> |taken.msgs| == |st.msgs| - 1
  {
    checked := st.(procs := st.procs[p := Checked(m)]);
    sent := checked.(msgs := st.msgs + [m], procs := checked.procs[p := Free]);
    var r := Select(request, st.msgs, 0);
    taken := if r.None? then st else st.(msgs := st.msgs[..r.value] + st.msgs[r.value + 1..]);
  }
}
