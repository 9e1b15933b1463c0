/** The master table and the semaphore set as shm_init builds them and as the calls that hold
    the master lock update them. */
module Master {
  import opened Arrays
  import opened Table
  import Pool

  /** The initial values of the semaphores put to use: the locks 0..n free, the handshakes
      n+1..2n empty, each index written once. */
  predicate LocksFreeHandshakesEmpty(sems: seq<int>, n: nat) {
    && |sems| == 2 * n + 1
    && (forall i :: 0 <= i <= n ==> sems[i] == 1)
    && (forall i :: n < i <= 2 * n ==> sems[i] == 0)
  }

  class SlotMaster {
    const numslots: nat
    /** The kernel's semaphore set. */
    const sems: array<int>
    /** How often SETVAL touched each semaphore. */
    ghost var setvals: seq<nat>
    /** The table, in the master segment. */
    const sse: array<Entry>

    ghost predicate Valid()
      reads this
    {
      sems.Length == 2 * numslots + 1 && sse.Length == numslots
    }

    /** svipc_shm_init: `garbage` is whatever the new semaphores held. */
    constructor (n: nat, garbage: seq<int>)
      requires |garbage| == 2 * n + 1
      ensures Valid() && numslots == n && fresh(sems) && fresh(sse)
      ensures LocksFreeHandshakesEmpty(sems[..], n)
      ensures setvals == seq(2 * n + 1, _ => 1)
      ensures sems[..] == Pool.Initial(n, 0).sems && sse[..] == Pool.Initial(n, 0).table
    {
      numslots := n;
      sems := new int[2 * n + 1](i requires 0 <= i < |garbage| => garbage[i]);
      sse := new Entry[n](_ => Entry(0, ""));
      setvals := seq(2 * n + 1, _ => 0);
      new;
      var i := 0;
      while i < n + 1
        invariant 0 <= i <= n + 1
        invariant forall k :: 0 <= k < i ==> sems[k] == 1
        invariant |setvals| == 2 * n + 1 && forall k :: 0 <= k < |setvals| ==> setvals[k] == if k < i then 1 else 0
        modifies this`setvals, sems
      {
        sems[i] := 1;
        setvals := setvals[i := setvals[i] + 1];
        i := i + 1;
      }
      i := 0;
      while i < n
        invariant 0 <= i <= n
        invariant forall k :: 0 <= k <= n ==> sems[k] == 1
        invariant forall k :: n < k < n + 1 + i ==> sems[k] == 0
        invariant |setvals| == 2 * n + 1
        invariant forall k :: 0 <= k < |setvals| ==> setvals[k] == if k < n + 1 + i then 1 else 0
        modifies this`setvals, sems
      {
        sems[i + 1 + n] := 0;
        setvals := setvals[i + 1 + n := setvals[i + 1 + n] + 1];
        i := i + 1;
      }
      i := 0;
      while i < n
        invariant 0 <= i <= n
        invariant forall k :: 0 <= k < i ==> sse[k] == Entry(0, "")
        modifies sse
      {
        sse[i] := Entry(0, "");
        i := i + 1;
      }
    }

    /** lkup_slot, with -1 for an id that is not there. */
    method LookupSlot(id: string) returns (slot: int)
      requires Valid()
      ensures slot == match Lookup(sse[..], id) case None => -1 case Some(s) => s
    {
      var i := 0;
      while i < numslots
        invariant 0 <= i <= numslots
        invariant Lookup(sse[..i], id).None?
      {
        assert sse[..i + 1][..i] == sse[..i];
        if sse[i].desc == id {
          FirstMatch(sse[..], id, i);
          return i;
        }
        i := i + 1;
      }
      assert sse[..i] == sse[..];
      return -1;
    }

    /** getfree_slot, with -1 for a full table. */
    method FreeSlotIndex() returns (slot: int)
      requires Valid()
      ensures slot == match FreeIndex(sse[..]) case None => -1 case Some(s) => s
    {
      var i := 0;
      while i < numslots
        invariant 0 <= i <= numslots
        invariant FreeIndex(sse[..i]).None?
      {
        assert sse[..i + 1][..i] == sse[..i];
        if sse[i].shmid == 0 {
          FirstFree(sse[..], i);
          return i;
        }
        i := i + 1;
      }
      assert sse[..i] == sse[..];
      return -1;
    }

    /** acquire_slot's decision on the table: find the id's slot, or give it a free one for the
        segment that shmget makes (None if it fails) when the caller may create, or fail and leave
        the table as it is. */
    method AcquireEntry(id: string, mayCreate: bool, made: Option<int>) returns (r: Acquired)
      requires Valid() && ValidTable(sse[..]) && made != Some(0)
      modifies sse
      ensures Valid()
      ensures r.Found? <==> Lookup(old(sse[..]), id).Some?
      ensures r.Found? ==> Lookup(old(sse[..]), id) == Some(r.slot)
      ensures r.Missing? <==> Lookup(old(sse[..]), id).None? && !mayCreate
      ensures r.Full? <==> Lookup(old(sse[..]), id).None? && mayCreate && FreeIndex(old(sse[..])).None?
      ensures r.NoSegment? <==>
        Lookup(old(sse[..]), id).None? && mayCreate && FreeIndex(old(sse[..])).Some? && made.None?
      ensures !r.Created? ==> sse[..] == old(sse[..])
      ensures r.Created? ==> made.Some? && FreeIndex(old(sse[..])) == Some(r.slot)
      ensures r.Created? ==> sse[..] == old(sse[..])[r.slot := Entry(made.value, Stored(id))]
      ensures r.Created? && ValidId(id) ==> ValidTable(sse[..]) && Rebinds(old(sse[..]), sse[..], id, Some(r.slot))
    {
      var slot := LookupSlot(id);
      if slot >= 0 { return Found(slot); }
      if !mayCreate { return Missing; }
      slot := FreeSlotIndex();
      if slot < 0 { return Full; }
      if made.None? { return NoSegment; }
      sse[slot] := Entry(made.value, Stored(id));
      if ValidId(id) { CreateRebinds(old(sse[..]), slot, id, made.value); }
      return Created(slot);
    }

    /** free_slot's table update: the slot's id becomes unbound, every other keeps its slot. */
    method ClearEntry(slot: nat)
      requires Valid() && ValidTable(sse[..]) && slot < numslots
      modifies sse
      ensures Valid() && ValidTable(sse[..]) && sse[..] == old(sse[..])[slot := Entry(0, "")]
      ensures Rebinds(old(sse[..]), sse[..], old(sse[slot]).desc, None)
    {
      if sse[slot].shmid != 0 {
        sse[slot] := Entry(0, "");
        ClearRebinds(old(sse[..]), slot);
      } else {
        assert sse[..] == old(sse[..])[slot := Entry(0, "")];
        ClearRebinds(old(sse[..]), slot);
      }
    }
  }

  datatype Acquired = Found(slot: nat) | Created(slot: nat) | Missing | Full | NoSegment

  /** What the table is while the master lock is free, as far as the table itself goes. */
  ghost predicate ValidTable(t: seq<Entry>) {
    (forall s :: 0 <= s < |t| ==> EntryMarked(t[s])) && DistinctIds(t)
  }

  /** As a map from ids to slots, `t'` is `t` with `id` bound to `slot`. */
  ghost predicate Rebinds(t: seq<Entry>, t': seq<Entry>, id: string, slot: Option<nat>) {
    && (id != "" ==> Lookup(t', id) == slot)
    && forall other :: other != id && other != "" ==> Lookup(t', other) == Lookup(t, other)
  }

  lemma OtherKeeps(t: seq<Entry>, slot: nat, e: Entry, other: string)
    requires ValidTable(t) && slot < |t| && ValidTable(t[slot := e])
    requires other != "" && other != t[slot].desc && other != e.desc
    ensures Lookup(t[slot := e], other) == Lookup(t, other)
  {
    hide Lookup;
    var was, now := Lookup(t, other), Lookup(t[slot := e], other);
    if was.Some? { LookupAt(t[slot := e], was.value); }
    if now.Some? { LookupAt(t, now.value); }
  }

  lemma CreateRebinds(t: seq<Entry>, slot: nat, id: string, shmid: int)
    requires ValidTable(t) && slot < |t| && t[slot].shmid == 0 && shmid != 0
    requires ValidId(id) && Lookup(t, id).None?
    ensures ValidTable(t[slot := Entry(shmid, Stored(id))])
    ensures Rebinds(t, t[slot := Entry(shmid, Stored(id))], id, Some(slot))
  {
    var e := Entry(shmid, Stored(id));
    LookupAt(t[slot := e], slot);
    forall other | other != id && other != "" ensures Lookup(t[slot := e], other) == Lookup(t, other) {
      OtherKeeps(t, slot, e, other);
    }
  }

  lemma ClearRebinds(t: seq<Entry>, slot: nat)
    requires ValidTable(t) && slot < |t|
    ensures ValidTable(t[slot := Entry(0, "")])
    ensures Rebinds(t, t[slot := Entry(0, "")], t[slot].desc, None)
  {
    var id, t' := t[slot].desc, t[slot := Entry(0, "")];
    forall other | other != id && other != "" ensures Lookup(t', other) == Lookup(t, other) {
      OtherKeeps(t, slot, Entry(0, ""), other);
    }
    if id != "" && Lookup(t', id).Some? {
      var k := Lookup(t', id).value;
      LookupAt(t, slot);
      LookupAt(t, k);
    }
  }

  /** Storage truncates names: a slot just created for a fresh name is found again under that
      name exactly when the name is shorter than the description field. */
  lemma CreatedIsFoundIff(t: seq<Entry>, slot: nat, id: string, shmid: int)
    requires slot < |t| && id != "" && Lookup(t, id).None?
    ensures Lookup(t[slot := Entry(shmid, Stored(id))], id).Some? <==> |id| < DESC_MAX
  {
    var t' := t[slot := Entry(shmid, Stored(id))];
    assert |Stored(id)| < DESC_MAX;
    assert |id| < DESC_MAX ==> t'[slot].desc == id;
  }

  lemma {:induction false} FirstMatch(t: seq<Entry>, id: string, i: nat)
    requires i < |t| && t[i].desc == id && Lookup(t[..i], id).None?
    ensures Lookup(t, id) == Some(i)
  {
    assert forall k :: 0 <= k < i ==> t[..i][k] == t[k];
  }

  lemma {:induction false} FirstFree(t: seq<Entry>, i: nat)
    requires i < |t| && t[i].shmid == 0 && FreeIndex(t[..i]).None?
    ensures FreeIndex(t) == Some(i)
  {
    assert forall k :: 0 <= k < i ==> t[..i][k] == t[k];
  }
}
