/** The master table's slot entries and the two scans over them. */
module Table {
  import opened Arrays

  const DESC_MAX := 80

  datatype Entry = Entry(shmid: int, desc: string)

  /** The slot names for which the table is used as intended: non-empty and short enough to be
      stored whole. */
  predicate ValidId(id: string) {
    0 < |id| < DESC_MAX
  }

  /** snprintf into `desc` keeps at most 79 characters. */
  function Stored(id: string): (r: string)
    ensures r <= id && |r| < DESC_MAX && (|r| == |id| || |r| == DESC_MAX - 1)
  {
    if |id| < DESC_MAX then id else id[..DESC_MAX - 1]
  }

  function EmptyTable(n: nat): (t: seq<Entry>)
    ensures |t| == n
  {
    seq(n, _ => Entry(0, ""))
  }

  /** lkup_slot: the first slot described by `id`. */
  function Lookup(t: seq<Entry>, id: string): (r: Option<nat>)
    ensures r.Some? ==> r.value < |t| && t[r.value].desc == id && (forall k :: 0 <= k < r.value ==> t[k].desc != id)
    ensures r.None? ==> forall k :: 0 <= k < |t| ==> t[k].desc != id
  {
    if t == [] then None
    else
      match Lookup(t[..|t| - 1], id)
      case Some(s) => Some(s)
      case None => if t[|t| - 1].desc == id then Some(|t| - 1) else None
  }

  /** getfree_slot: the first slot without a segment. */
  function FreeIndex(t: seq<Entry>): (r: Option<nat>)
    ensures r.Some? ==> r.value < |t| && t[r.value].shmid == 0 && (forall k :: 0 <= k < r.value ==> t[k].shmid != 0)
    ensures r.None? ==> forall k :: 0 <= k < |t| ==> t[k].shmid != 0
  {
    if t == [] then None
    else
      match FreeIndex(t[..|t| - 1])
      case Some(s) => Some(s)
      case None => if t[|t| - 1].shmid == 0 then Some(|t| - 1) else None
  }

  /** No id is in two slots. */
  ghost predicate DistinctIds(t: seq<Entry>) {
    forall s, u :: 0 <= s < u < |t| && t[s].desc != "" ==> t[s].desc != t[u].desc
  }

  /** An empty description marks a free slot. */
  predicate EntryMarked(e: Entry) {
    e.desc == "" <==> e.shmid == 0
  }

  /** Ids in the table are found at their own slot. */
  lemma LookupAt(t: seq<Entry>, s: nat)
    requires s < |t| && DistinctIds(t) && t[s].desc != ""
    ensures Lookup(t, t[s].desc) == Some(s)
  {
    hide Lookup;
    assert forall k :: 0 <= k < s ==> t[k].desc != t[s].desc;
  }
}
