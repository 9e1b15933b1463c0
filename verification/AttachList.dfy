/** The list of segments a session has attached for direct access (shm_var): a linked list in
    which a detached tail stays behind as a blank node. */
module AttachList {
  import opened Arrays
  import opened Bytes
  import opened SegmentMemory
  import opened Table

  /** A segment mapped into the process: its length and the dimension count in its header. */
  datatype Region = Region(size: nat, countdims: nat)

  /** What one node says: slot id, where the segment is mapped, where its data starts. */
  datatype Cell = Cell(id: string, addr: int, pdata: int)

  const BLANK := Cell("", 0, 0)

  function DataAt(addr: int, countdims: nat): int {
    addr + 2 * INT_BYTES + countdims * INT_BYTES
  }

  /** That is where the data is: behind the header of any segment that stores an array. */
  lemma DataIsThere(m: seq<int>, v: SlotArray, addr: int)
    requires Stores(m, v)
    ensures DataAt(addr, |v.dims|) == addr + DataAt(0, |v.dims|)
    ensures 0 <= DataAt(0, |v.dims|) && DataAt(0, |v.dims|) + |v.data| <= |m|
    ensures m[DataAt(0, |v.dims|)..DataAt(0, |v.dims|) + |v.data|] == v.data
  {
    StoredHeader(m, v);
  }

  /** The walk of svipc_shm_attach over the header of an attached segment: type, dimensions, and
      where the data starts. */
  method ReadHeader(mem: seq<int>, ghost v: SlotArray) returns (typeID: int, number: seq<int>, p: nat)
    requires Stores(mem, v)
    ensures typeID == v.typeID && number == v.dims
    ensures p + |v.data| <= |mem| && mem[p..p + |v.data|] == v.data
    ensures p == DataAt(0, |v.dims|)
  {
    StoredHeader(mem, v);
    hide IntAt;
    typeID := IntAt(mem, 0);
    var countdims := IntAt(mem, INT_BYTES);
    p := 2 * INT_BYTES;
    number := [];
    var i := 0;
    while i < countdims
      invariant 0 <= i <= |v.dims| && p == (2 + i) * INT_BYTES && number == v.dims[..i]
    {
      number := number + [IntAt(mem, p)];
      p := p + INT_BYTES;
      i := i + 1;
    }
    DataIsThere(mem, v, 0);
  }

  /** Segment `region` holds `mem`, which stores `v`. */
  predicate Keeps(region: Region, mem: seq<int>, v: SlotArray) {
    region.size == |mem| && region.countdims == |v.dims| && Stores(mem, v)
  }

  /** The attachments a list of nodes stands for: blank nodes stand for none. */
  ghost function Live(cells: seq<Cell>): set<Cell> {
    set c | c in cells && c != BLANK
  }

  /** Mapped segments do not overlap, and each holds some data behind its header. */
  predicate Disjoint(mapped: map<int, Region>) {
    && (forall a :: a in mapped ==> a > 0 && DataAt(a, mapped[a].countdims) < a + mapped[a].size)
    && (forall a, b :: a in mapped && b in mapped && a < b ==> a + mapped[a].size <= b)
  }

  /** Live nodes describe mapped segments, one node a segment and one segment an id. */
  ghost predicate Consistent(cells: seq<Cell>, mapped: map<int, Region>) {
    && Disjoint(mapped)
    && (forall c :: c in Live(cells) ==>
          c.id != "" && c.addr in mapped && c.pdata == DataAt(c.addr, mapped[c.addr].countdims))
    && (forall a :: a in mapped ==> exists c :: c in Live(cells) && c.addr == a)
    && (forall i, j :: 0 <= i < j < |cells| && cells[i] != BLANK && cells[j] != BLANK ==>
          cells[i].id != cells[j].id && cells[i].addr != cells[j].addr)
  }

  /** The live attachments are a map both ways: from ids and from data pointers. */
  lemma LiveIsMap(cells: seq<Cell>, mapped: map<int, Region>, c: Cell, d: Cell)
    requires Consistent(cells, mapped) && c in Live(cells) && d in Live(cells)
    ensures c.id == d.id ==> c == d
    ensures c.pdata == d.pdata ==> c == d
    ensures c.addr == d.addr ==> c == d
  {
    var i :| 0 <= i < |cells| && cells[i] == c;
    var j :| 0 <= j < |cells| && cells[j] == d;
    if i < j {
      assert c.id != d.id && c.addr != d.addr;
      DataInside(mapped, c.addr, d.addr);
    } else if j < i {
      assert d.id != c.id && d.addr != c.addr;
      DataInside(mapped, c.addr, d.addr);
    }
  }

  lemma DataInside(mapped: map<int, Region>, a: int, b: int)
    requires Disjoint(mapped) && a in mapped && b in mapped && a != b
    ensures DataAt(a, mapped[a].countdims) != DataAt(b, mapped[b].countdims)
  {
  }

  class Node {
    var next: Node?
    var id: string
    var addr: int
    var pdata: int

    constructor (id: string, addr: int)
      ensures this.id == id && this.addr == addr && pdata == 0 && next == null
    {
      this.id, this.addr, this.pdata, this.next := id, addr, 0, null;
    }

    function Says(): Cell
      reads this
    {
      Cell(id, addr, pdata)
    }
  }

  /** The node after position `i`. */
  function After(nodes: seq<Node>, i: nat): Node? {
    if i + 1 < |nodes| then nodes[i + 1] else null
  }

  predicate Distinct(nodes: seq<Node>) {
    forall i, j :: 0 <= i < j < |nodes| ==> nodes[i] != nodes[j]
  }

  lemma UnlinkedDistinct(nodes: seq<Node>, k: nat)
    requires Distinct(nodes) && k < |nodes|
    ensures Distinct(Unlinked(nodes, k))
  {
    var rest := Unlinked(nodes, k);
    forall i, j | 0 <= i < j < |rest| ensures rest[i] != rest[j] {
      var i', j' := if |rest| == |nodes| || i < k then i else i + 1, if |rest| == |nodes| || j < k then j else j + 1;
      assert rest[i] == nodes[i'] && rest[j] == nodes[j'];
    }
  }

  /** What seg_rem leaves of the list when asked to take out position `k`. */
  function Unlinked<T>(s: seq<T>, k: nat): seq<T>
    requires k < |s|
  {
    if 0 < k == |s| - 1 then s else s[..k] + s[k + 1..]
  }

  class Attachments {
    /** `segtable`. */
    var head: Node?
    /** The segments the kernel has mapped for these attachments. */
    var mapped: map<int, Region>
    ghost var nodes: seq<Node>

    /** The nodes form a list without cycles. */
    ghost predicate Chain()
      reads `head, `nodes, nodes`next
    {
      && (head == if nodes == [] then null else nodes[0])
      && (forall i :: 0 <= i < |nodes| ==> nodes[i].next == After(nodes, i))
      && Distinct(nodes)
    }

    ghost function Cells(): (cs: seq<Cell>)
      reads `nodes, nodes
      ensures |cs| == |nodes| && forall i :: 0 <= i < |nodes| ==> cs[i] == nodes[i].Says()
    {
      var ns := nodes;
      seq(|ns|, i requires 0 <= i < |ns| reads ns => ns[i].Says())
    }

    ghost predicate Valid()
      reads this, nodes
    {
      Chain() && Consistent(Cells(), mapped)
    }

    constructor ()
      ensures Valid() && nodes == [] && mapped == map[] && Live(Cells()) == {}
    {
      head, mapped, nodes := null, map[], [];
    }

    /** seg_add: walk to the end and append. */
    method SegAdd(item: Node)
      requires Chain() && item !in nodes
      modifies this`head, this`nodes, nodes, item`next
      ensures Chain() && nodes == old(nodes) + [item]
      ensures forall n :: n in nodes ==> n.Says() == old(n.Says())
    {
      if head == null {
        head := item;
        item.next := null;
      } else {
        var cursor := head;
        ghost var i := 0;
        while cursor.next != null
          invariant Chain() && 0 <= i < |nodes| && cursor == nodes[i]
          decreases |nodes| - i
        {
          cursor := cursor.next;
          i := i + 1;
        }
        cursor.next := item;
        item.next := null;
      }
      nodes := nodes + [item];
    }

    /** The walk of seg_rem: the node before `item`. */
    method Before(item: Node, ghost k: nat) returns (prev: Node?)
      requires Chain() && k < |nodes| && nodes[k] == item
      ensures prev == if k == 0 then null else nodes[k - 1]
    {
      var cursor := head;
      prev := null;
      ghost var i := 0;
      while cursor != item && cursor.next != null
        invariant 0 <= i <= k && cursor == nodes[i]
        invariant prev == if i == 0 then null else nodes[i - 1]
        decreases |nodes| - i
      {
        prev := cursor;
        cursor := cursor.next;
        i := i + 1;
      }
    }

    /** Unlink `item` from between `prev` and its successor. */
    method Bypass(prev: Node, item: Node, ghost k: nat)
      requires Chain() && 0 < k < |nodes| - 1 && nodes[k] == item && nodes[k - 1] == prev
      modifies this`nodes, prev`next
      ensures Chain() && nodes == Unlinked(old(nodes), k)
    {
      UnlinkedDistinct(nodes, k);
      forall i | 0 <= i < |nodes| && i != k - 1 ensures nodes[i] != prev {
        assert Distinct(nodes);
      }
      hide Distinct;
      prev.next := item.next;
      nodes := nodes[..k] + nodes[k + 1..];
      forall i | 0 <= i < |nodes| ensures nodes[i].next == After(nodes, i) {
        var j := if i < k then i else i + 1;
        assert nodes[i] == old(nodes)[j];
        assert i != k - 1 ==> nodes[i].next == After(old(nodes), j);
      }
    }

    /** seg_rem: unlink `item`, except that an item at the end of a longer list is left in. */
    method SegRem(item: Node, ghost k: nat)
      requires Chain() && k < |nodes| && nodes[k] == item
      modifies this`head, this`nodes, nodes
      ensures Chain() && nodes == Unlinked(old(nodes), k)
      ensures forall n :: n in old(nodes) ==> n.Says() == old(n.Says())
    {
      var prev := Before(item, k);
      if prev == null {
        UnlinkedDistinct(nodes, k);
        hide Distinct;
        head := item.next;
        nodes := nodes[1..];
        assert forall i :: 0 <= i < |nodes| ==> nodes[i] == old(nodes)[i + 1];
      } else if item.next != null {
        Bypass(prev, item, k);
      }
    }

    /** Take `item` out of the list and blank it, as svipc_shm_detach does. */
    method Forget(item: Node, ghost k: nat)
      requires Chain() && k < |nodes| && nodes[k] == item
      modifies this`head, this`nodes, nodes
      ensures Chain() && nodes == Unlinked(old(nodes), k)
      ensures forall i :: 0 <= i < |old(nodes)| ==>
                old(nodes)[i].Says() == if i == k then BLANK else old(nodes[i].Says())
    {
      assert forall i :: 0 <= i < |nodes| && i != k ==> nodes[i] != item;
      hide Distinct, Unlinked;
      SegRem(item, k);
      item.id, item.addr, item.pdata := "", 0, 0;
    }

    /** The same, told by the cells. */
    method ForgetCell(item: Node, ghost k: nat)
      requires Chain() && k < |nodes| && nodes[k] == item
      modifies this`head, this`nodes, nodes
      ensures Chain() && (forall n :: n in nodes ==> n in old(nodes))
      ensures Cells() == Left(old(Cells()), k)
    {
      ghost var before, cells := nodes, Cells();
      hide Distinct, Cells;
      Forget(item, k);
      forall i | 0 <= i < |nodes| ensures Cells()[i] == Left(cells, k)[i] {
        var j := if |nodes| == |before| || i < k then i else i + 1;
        assert nodes[i] == before[j];
      }
    }

    /** seg_lkupid: the first node with this id. */
    method LookupId(id: string) returns (r: Node?, ghost k: nat)
      requires Chain()
      ensures r == null ==> forall i :: 0 <= i < |nodes| ==> nodes[i].id != id
      ensures r != null ==> k < |nodes| && r == nodes[k] && r.id == id
    {
      r := head;
      k := 0;
      while r != null && r.id != id
        invariant 0 <= k <= |nodes| && r == if k < |nodes| then nodes[k] else null
        invariant forall i :: 0 <= i < k ==> nodes[i].id != id
        decreases |nodes| - k
      {
        r := r.next;
        k := k + 1;
      }
    }

    /** seg_lkupdata: the first node with this data pointer. */
    method LookupData(p: int) returns (r: Node?, ghost k: nat)
      requires Chain()
      ensures r == null ==> forall i :: 0 <= i < |nodes| ==> nodes[i].pdata != p
      ensures r != null ==> k < |nodes| && r == nodes[k] && r.pdata == p
    {
      r := head;
      k := 0;
      while r != null && r.pdata != p
        invariant 0 <= k <= |nodes| && r == if k < |nodes| then nodes[k] else null
        invariant forall i :: 0 <= i < k ==> nodes[i].pdata != p
        decreases |nodes| - k
      {
        r := r.next;
        k := k + 1;
      }
    }

    /** The part of svipc_shm_attach that lists a segment just acquired, whose data starts at
        offset `p`. */
    method AttachNew(id: string, addr: int, region: Region, p: nat) returns (data: int)
      requires Chain() && p == DataAt(0, region.countdims)
      modifies this, nodes
      ensures Chain() && forall n :: n in nodes && n !in old(nodes) ==> fresh(n)
      ensures data == addr + p == DataAt(addr, region.countdims)
      ensures Cells() == old(Cells()) + [Cell(id, addr, data)] && mapped == old(mapped)[addr := region]
    {
      hide Chain, Cells;
      var sg := new Node(id, addr);
      SegAdd(sg);
      data := addr + p;
      sg.pdata := data;
      mapped := mapped[addr := region];
    }

    /** svipc_shm_attach: an id that is attached yields its header and data pointer again;
        otherwise the slot is acquired, which gives a newly mapped segment or fails. `mem` is
        what the segment holds, and stores `v`. */
    method Attach(id: string, acquired: Option<(int, Region)>, mem: seq<int>, ghost v: SlotArray)
        returns (status: int, data: int, typeID: int, number: seq<int>)
      requires Valid() && ValidId(id)
      requires acquired.Some? ==> acquired.value.0 !in mapped && Disjoint(mapped[acquired.value.0 := acquired.value.1])
      requires acquired.Some? ==> Keeps(acquired.value.1, mem, v)
      requires forall c :: c in Live(Cells()) && c.id == id ==> c.addr in mapped && Keeps(mapped[c.addr], mem, v)
      modifies this, nodes
      ensures Valid() && forall n :: n in nodes && n !in old(nodes) ==> fresh(n)
      ensures Attached(old(Live(Cells())), old(mapped), id, acquired, Live(Cells()), mapped, status, data)
      ensures status == 0 ==> typeID == v.typeID && number == v.dims
      ensures status == 0 ==> forall c :: c in Live(Cells()) && c.id == id ==> DataStarts(c.addr, data, mem, v)
    {
      hide Consistent, Disjoint, Live, Stores, Chain, DataStarts, Attached, DataAt;
      ghost var cells, was := Cells(), mapped;
      var sg, k := LookupId(id);
      if sg != null {
        assert cells[k] == sg.Says();
        KnownAttached(cells, was, k, acquired);
        data, typeID, number := AttachKnown(sg, k, mem, v);
        return 0, data, typeID, number;
      }
      NoSuchId(cells, id);
      if acquired.None? {
        NotAttached(cells, was, id);
        return -1, 0, 0, [];
      }
      FreshAttached(cells, was, id, acquired.value.0, acquired.value.1, mem, v);
      data, typeID, number := AttachAcquired(id, acquired.value.0, acquired.value.1, mem, v);
      status := 0;
    }

    /** The part of svipc_shm_attach for a segment just acquired. */
    method AttachAcquired(id: string, addr: int, region: Region, mem: seq<int>, ghost v: SlotArray)
        returns (data: int, typeID: int, number: seq<int>)
      requires Chain() && Keeps(region, mem, v)
      modifies this, nodes
      ensures Chain() && forall n :: n in nodes && n !in old(nodes) ==> fresh(n)
      ensures data == DataAt(addr, region.countdims) && typeID == v.typeID && number == v.dims
      ensures Cells() == old(Cells()) + [Cell(id, addr, data)] && mapped == old(mapped)[addr := region]
    {
      hide Chain, Cells, Stores;
      var p: nat;
      typeID, number, p := ReadHeader(mem, v);
      data := AttachNew(id, addr, region, p);
    }

    /** The part of svipc_shm_attach for a segment already listed. */
    method AttachKnown(sg: Node, ghost k: nat, mem: seq<int>, ghost v: SlotArray)
        returns (data: int, typeID: int, number: seq<int>)
      requires Valid() && k < |nodes| && nodes[k] == sg
      requires sg.addr in mapped && Keeps(mapped[sg.addr], mem, v)
      requires sg.pdata == DataAt(sg.addr, mapped[sg.addr].countdims)
      modifies sg`pdata
      ensures Valid() && Cells() == old(Cells()) && data == sg.pdata
      ensures typeID == v.typeID && number == v.dims && DataStarts(sg.addr, data, mem, v)
    {
      hide Consistent, Chain, Stores;
      ghost var cells := Cells();
      data, typeID, number := Refresh(sg, mem, v);
      assert forall i :: 0 <= i < |nodes| ==> Cells()[i] == cells[i];
    }

    /** Read the header again and note where the data is, which is where it was. */
    static method Refresh(sg: Node, mem: seq<int>, ghost v: SlotArray)
        returns (data: int, typeID: int, number: seq<int>)
      requires Stores(mem, v) && sg.pdata == DataAt(sg.addr, |v.dims|)
      modifies sg`pdata
      ensures data == sg.pdata == old(sg.pdata)
      ensures typeID == v.typeID && number == v.dims && DataStarts(sg.addr, data, mem, v)
    {
      var p: nat;
      typeID, number, p := ReadHeader(mem, v);
      data := sg.addr + p;
      sg.pdata := data;
    }

    /** svipc_shm_detach: detaches the segment whose data starts at `p` if there is one, and fails
        without detaching anything otherwise. */
    method Detach(p: int) returns (status: int)
      requires Valid()
      modifies this, nodes
      ensures Valid() && forall n :: n in nodes ==> n in old(nodes)
      ensures Detached(old(Live(Cells())), old(mapped), p, Live(Cells()), mapped, status)
    {
      hide Consistent, Disjoint, Live, Detached, Distinct, Left, Cells;
      ghost var cells, was := Cells(), mapped;
      var sg, k := LookupData(p);
      if sg == null {
        NoSuchData(cells, was, p);
        return -1;
      }
      assert cells[k] == sg.Says();
      RemoveDetaches(cells, was, k);
      var addr := sg.addr;
      ForgetCell(sg, k);
      status := if addr in mapped then 0 else -1;
      mapped := mapped - {addr};
    }
  }

  /** In a segment mapped at `addr` and holding `mem` the data of `v` starts at address `data`. */
  predicate DataStarts(addr: int, data: int, mem: seq<int>, v: SlotArray) {
    && 0 <= data - addr && data - addr + |v.data| <= |mem|
    && mem[data - addr..data - addr + |v.data|] == v.data
  }

  /** What an attach does to the attachments and the kernel's mappings. */
  ghost predicate Attached(live: set<Cell>, mapped: map<int, Region>, id: string, acquired: Option<(int, Region)>,
                           live': set<Cell>, mapped': map<int, Region>, status: int, data: int) {
    if exists c :: c in live && c.id == id then
      status == 0 && live' == live && mapped' == mapped && (forall c :: c in live && c.id == id ==> data == c.pdata)
    else if acquired.None? then
      status == -1 && live' == live && mapped' == mapped
    else
      && status == 0 && data == DataAt(acquired.value.0, acquired.value.1.countdims)
      && live' == live + {Cell(id, acquired.value.0, data)}
      && mapped' == mapped[acquired.value.0 := acquired.value.1]
  }

  /** What a detach does: it succeeds exactly for the data pointer of a live attachment, which it
      takes out together with its mapping. */
  ghost predicate Detached(live: set<Cell>, mapped: map<int, Region>, p: int,
                           live': set<Cell>, mapped': map<int, Region>, status: int) {
    if exists c :: c in live && c.pdata == p then
      && status == 0
      && (forall c :: c in live && c.pdata == p ==>
            live' == live - {c} && c.addr in mapped && mapped' == mapped - {c.addr})
    else status == -1 && live' == live && mapped' == mapped
  }

  lemma KnownAttached(cells: seq<Cell>, mapped: map<int, Region>, k: nat, acquired: Option<(int, Region)>)
    requires Consistent(cells, mapped) && k < |cells| && cells[k].id != ""
    ensures var c := cells[k];
            && c in Live(cells) && c.addr in mapped && c.pdata == DataAt(c.addr, mapped[c.addr].countdims)
            && Attached(Live(cells), mapped, c.id, acquired, Live(cells), mapped, 0, c.pdata)
            && forall d :: d in Live(cells) && d.id == c.id ==> d == c
  {
    LiveAt(cells, mapped, k);
    LiveById(cells, mapped, cells[k]);
  }

  lemma NotAttached(cells: seq<Cell>, mapped: map<int, Region>, id: string)
    requires forall c :: c in Live(cells) ==> c.id != id
    ensures Attached(Live(cells), mapped, id, None, Live(cells), mapped, -1, 0)
  {
  }

  lemma FreshAttached(cells: seq<Cell>, mapped: map<int, Region>, id: string, addr: int, region: Region,
                      mem: seq<int>, v: SlotArray)
    requires Consistent(cells, mapped) && id != "" && addr !in mapped && Disjoint(mapped[addr := region])
    requires forall i :: 0 <= i < |cells| ==> cells[i].id != id
    requires Keeps(region, mem, v)
    ensures var data := DataAt(addr, region.countdims);
            var cells' := cells + [Cell(id, addr, data)];
            && Consistent(cells', mapped[addr := region])
            && Attached(Live(cells), mapped, id, Some((addr, region)), Live(cells'), mapped[addr := region], 0, data)
            && forall c :: c in Live(cells') && c.id == id ==> DataStarts(c.addr, data, mem, v)
  {
    AppendConsistent(cells, mapped, id, addr, region);
    NoSuchId(cells, id);
    hide Consistent, Disjoint, Stores;
    DataIsThere(mem, v, addr);
  }

  lemma LiveAt(cells: seq<Cell>, mapped: map<int, Region>, k: nat)
    requires Consistent(cells, mapped) && k < |cells| && cells[k].id != ""
    ensures cells[k] in Live(cells) && cells[k].addr in mapped
    ensures cells[k].pdata == DataAt(cells[k].addr, mapped[cells[k].addr].countdims)
  {
    assert cells[k] in Live(cells);
  }

  lemma LiveById(cells: seq<Cell>, mapped: map<int, Region>, c: Cell)
    requires Consistent(cells, mapped) && c in Live(cells)
    ensures forall d :: d in Live(cells) && d.id == c.id ==> d == c
  {
    forall d | d in Live(cells) && d.id == c.id ensures d == c {
      LiveIsMap(cells, mapped, c, d);
    }
  }

  lemma NoSuchId(cells: seq<Cell>, id: string)
    requires forall i :: 0 <= i < |cells| ==> cells[i].id != id
    ensures forall c :: c in Live(cells) ==> c.id != id
  {
  }

  lemma NoSuchData(cells: seq<Cell>, mapped: map<int, Region>, p: int)
    requires forall i :: 0 <= i < |cells| ==> cells[i].pdata != p
    ensures Detached(Live(cells), mapped, p, Live(cells), mapped, -1)
  {
  }

  /** The cells of a list after node `k` has been forgotten. */
  function Left(cells: seq<Cell>, k: nat): seq<Cell>
    requires k < |cells|
  {
    if 0 < k == |cells| - 1 then cells[k := BLANK] else cells[..k] + cells[k + 1..]
  }

  lemma RemoveDetaches(cells: seq<Cell>, mapped: map<int, Region>, k: nat)
    requires Consistent(cells, mapped) && k < |cells|
    ensures var c := cells[k];
            var status := if c.addr in mapped then 0 else -1;
            && Detached(Live(cells), mapped, c.pdata, Live(Left(cells, k)), mapped - {c.addr}, status)
            && Consistent(Left(cells, k), mapped - {c.addr})
  {
    hide Consistent, Live;
    RemoveConsistent(cells, mapped, k);
  }

  lemma AppendConsistent(cells: seq<Cell>, mapped: map<int, Region>, id: string, addr: int, region: Region)
    requires Consistent(cells, mapped) && id != "" && addr !in mapped && Disjoint(mapped[addr := region])
    requires forall i :: 0 <= i < |cells| ==> cells[i].id != id
    ensures var c := Cell(id, addr, DataAt(addr, region.countdims));
            && Live(cells + [c]) == Live(cells) + {c}
            && Consistent(cells + [c], mapped[addr := region])
  {
    var c := Cell(id, addr, DataAt(addr, region.countdims));
    var cells', mapped' := cells + [c], mapped[addr := region];
    assert Live(cells') == Live(cells) + {c};
    forall a | a in mapped' ensures exists d :: d in Live(cells') && d.addr == a {
      if a == addr {
        assert c in Live(cells');
      } else {
        var d :| d in Live(cells) && d.addr == a;
        assert d in Live(cells');
      }
    }
    forall i | 0 <= i < |cells| && cells[i] != BLANK ensures cells[i].addr != addr && cells[i].id != id {
      assert cells[i] in Live(cells);
    }
  }

  /** Dropping node `k`, or blanking it, takes its attachment out and nothing else. */
  lemma RemoveConsistent(cells: seq<Cell>, mapped: map<int, Region>, k: nat)
    requires Consistent(cells, mapped) && k < |cells|
    ensures var c := cells[k];
            && (c != BLANK ==> c.addr in mapped)
            && (c == BLANK ==> c.addr !in mapped)
            && (c in Live(cells) <==> c != BLANK)
            && (forall d :: d in Live(cells) && d.pdata == c.pdata ==> d == c)
            && Live(cells[..k] + cells[k + 1..]) == Live(cells) - {c}
            && Live(cells[k := BLANK]) == Live(cells) - {c}
            && Consistent(cells[..k] + cells[k + 1..], mapped - {c.addr})
            && Consistent(cells[k := BLANK], mapped - {c.addr})
  {
    var c := cells[k];
    if c != BLANK { assert c in Live(cells); }
    DroppedLive(cells, mapped, k);
    BlankedLive(cells, mapped, k);
    forall d | d in Live(cells) && d.pdata == c.pdata ensures d == c {
      if c != BLANK { LiveIsMap(cells, mapped, c, d); }
    }
    RemovedConsistent(cells, mapped, k, cells[..k] + cells[k + 1..]);
    RemovedConsistent(cells, mapped, k, cells[k := BLANK]);
  }

  lemma DroppedLive(cells: seq<Cell>, mapped: map<int, Region>, k: nat)
    requires Consistent(cells, mapped) && k < |cells|
    ensures Live(cells[..k] + cells[k + 1..]) == Live(cells) - {cells[k]}
  {
    var c, short := cells[k], cells[..k] + cells[k + 1..];
    forall d ensures d in Live(short) <==> d in Live(cells) && d != c {
      if d in Live(short) {
        var i :| 0 <= i < |short| && short[i] == d;
        var j := if i < k then i else i + 1;
        assert cells[j] == d;
      }
      if d in Live(cells) && d != c {
        var j :| 0 <= j < |cells| && cells[j] == d;
        assert short[if j < k then j else j - 1] == d;
      }
    }
  }

  lemma BlankedLive(cells: seq<Cell>, mapped: map<int, Region>, k: nat)
    requires Consistent(cells, mapped) && k < |cells|
    ensures Live(cells[k := BLANK]) == Live(cells) - {cells[k]}
  {
    var c, blank := cells[k], cells[k := BLANK];
    forall d ensures d in Live(blank) <==> d in Live(cells) && d != c {
      if d in Live(blank) {
        var i :| 0 <= i < |blank| && blank[i] == d;
        assert i != k && cells[i] == d;
      }
      if d in Live(cells) && d != c {
        var j :| 0 <= j < |cells| && cells[j] == d;
        assert blank[j] == d;
      }
    }
  }

  lemma RemovedConsistent(cells: seq<Cell>, mapped: map<int, Region>, k: nat, rest: seq<Cell>)
    requires Consistent(cells, mapped) && k < |cells|
    requires rest == cells[..k] + cells[k + 1..] || rest == cells[k := BLANK]
    requires Live(rest) == Live(cells) - {cells[k]}
    ensures Consistent(rest, mapped - {cells[k].addr})
  {
    var c, mapped' := cells[k], mapped - {cells[k].addr};
    forall d | d in Live(rest) ensures d.addr in mapped' {
      if c != BLANK {
        assert c in Live(cells);
        LiveIsMap(cells, mapped, c, d);
      }
    }
    forall a | a in mapped' ensures exists d :: d in Live(rest) && d.addr == a {
      var d :| d in Live(cells) && d.addr == a;
      assert d in Live(rest);
    }
  }

  // ------------------------------------------------------------ sequences of calls

  datatype Call = AttachCall(id: string, acquired: Option<(int, Region)>) | DetachCall(p: int)

  datatype Session = Session(live: set<Cell>, mapped: map<int, Region>)

  /** What a call may be: an attach names a slot, and the kernel maps its segment where nothing
      else is mapped; a detach is of any pointer. */
  ghost predicate ValidCall(s: Session, call: Call) {
    call.AttachCall? ==>
      && ValidId(call.id)
      && (call.acquired.Some? ==>
            && call.acquired.value.0 !in s.mapped
            && Disjoint(s.mapped[call.acquired.value.0 := call.acquired.value.1]))
  }

  /** One call of a session, as the methods' contracts tell it. */
  ghost predicate Called(s: Session, call: Call, s': Session) {
    && ValidCall(s, call)
    && match call
       case AttachCall(id, acquired) =>
         exists status, data :: Attached(s.live, s.mapped, id, acquired, s'.live, s'.mapped, status, data)
       case DetachCall(p) => exists status :: Detached(s.live, s.mapped, p, s'.live, s'.mapped, status)
  }

  /** The live attachments are those of the mapped segments, each under an id of its own. */
  ghost predicate SessionOk(s: Session) {
    && Disjoint(s.mapped)
    && (forall c :: c in s.live ==>
          c.id != "" && c.addr in s.mapped && c.pdata == DataAt(c.addr, s.mapped[c.addr].countdims))
    && (forall a :: a in s.mapped ==> exists c :: c in s.live && c.addr == a)
    && (forall c, d :: c in s.live && d in s.live && c != d ==> c.id != d.id && c.addr != d.addr)
  }

  /** Two attachments of a session differ in their data pointers as well. */
  lemma DataTells(s: Session, c: Cell, d: Cell)
    requires SessionOk(s) && c in s.live && d in s.live && c.pdata == d.pdata
    ensures c == d
  {
    if c != d { DataInside(s.mapped, c.addr, d.addr); }
  }

  lemma AttachKeeps(s: Session, call: Call, s': Session)
    requires SessionOk(s) && Called(s, call, s') && call.AttachCall?
    ensures SessionOk(s')
  {
    hide Disjoint, DataAt;
    var status, data :| Attached(s.live, s.mapped, call.id, call.acquired, s'.live, s'.mapped, status, data);
    if s' != s {
      var (addr, region) := call.acquired.value;
      var new_ := Cell(call.id, addr, data);
      assert s'.live == s.live + {new_} && s'.mapped == s.mapped[addr := region];
      forall a | a in s'.mapped ensures exists c :: c in s'.live && c.addr == a {
        if a == addr {
          assert new_ in s'.live;
        } else {
          var c :| c in s.live && c.addr == a;
          assert c in s'.live;
        }
      }
    }
  }

  lemma DetachKeeps(s: Session, call: Call, s': Session)
    requires SessionOk(s) && Called(s, call, s') && call.DetachCall?
    ensures SessionOk(s')
  {
    var status :| Detached(s.live, s.mapped, call.p, s'.live, s'.mapped, status);
    if c :| c in s.live && c.pdata == call.p {
      assert s'.live == s.live - {c} && s'.mapped == s.mapped - {c.addr};
      forall a | a in s'.mapped ensures exists d :: d in s'.live && d.addr == a {
        var d :| d in s.live && d.addr == a;
        assert d in s'.live;
      }
    }
  }

  /** A run of calls from the empty session. */
  ghost predicate Calls(ss: seq<Session>, calls: seq<Call>) {
    && |ss| == |calls| + 1 && ss[0] == Session({}, map[])
    && forall i :: 0 <= i < |calls| ==> Called(ss[i], calls[i], ss[i + 1])
  }

  /** Over any sequence of calls the live attachments stay a map from ids, addresses and data
      pointers, and describe exactly the mapped segments. */
  lemma {:induction false} SessionsStayOk(ss: seq<Session>, calls: seq<Call>, k: nat)
    requires Calls(ss, calls) && k <= |calls|
    ensures SessionOk(ss[k])
    ensures forall c, d :: c in ss[k].live && d in ss[k].live && c.pdata == d.pdata ==> c == d
  {
    hide SessionOk;
    if k == 0 {
      EmptySessionOk();
    } else {
      SessionsStayOk(ss, calls, k - 1);
      assert Called(ss[k - 1], calls[k - 1], ss[k]);
      if calls[k - 1].AttachCall? {
        AttachKeeps(ss[k - 1], calls[k - 1], ss[k]);
      } else {
        DetachKeeps(ss[k - 1], calls[k - 1], ss[k]);
      }
    }
    forall c, d | c in ss[k].live && d in ss[k].live && c.pdata == d.pdata ensures c == d {
      DataTells(ss[k], c, d);
    }
  }

  lemma EmptySessionOk()
    ensures SessionOk(Session({}, map[]))
  {
  }

  /** The call maps a segment at `a`. */
  ghost predicate Maps(s: Session, call: Call, a: int) {
    call.AttachCall? && call.acquired.Some? && call.acquired.value.0 == a && forall c :: c in s.live ==> c.id != call.id
  }

  /** The call unmaps the segment at `a`. */
  ghost predicate Unmaps(s: Session, call: Call, a: int) {
    call.DetachCall? && exists c :: c in s.live && c.pdata == call.p && c.addr == a
  }

  ghost function TimesMapped(ss: seq<Session>, calls: seq<Call>, k: nat, a: int): nat
    requires k <= |calls| && |ss| == |calls| + 1
  {
    if k == 0 then 0 else TimesMapped(ss, calls, k - 1, a) + (if Maps(ss[k - 1], calls[k - 1], a) then 1 else 0)
  }

  ghost function TimesUnmapped(ss: seq<Session>, calls: seq<Call>, k: nat, a: int): nat
    requires k <= |calls| && |ss| == |calls| + 1
  {
    if k == 0 then 0 else TimesUnmapped(ss, calls, k - 1, a) + (if Unmaps(ss[k - 1], calls[k - 1], a) then 1 else 0)
  }

  /** Over any sequence of calls every mapping is undone at most once: an address has been mapped
      once more than unmapped while it is attached, and equally often otherwise. */
  lemma {:induction false} MappingsBalance(ss: seq<Session>, calls: seq<Call>, k: nat, a: int)
    requires Calls(ss, calls) && k <= |calls|
    ensures TimesMapped(ss, calls, k, a) - TimesUnmapped(ss, calls, k, a) == if a in ss[k].mapped then 1 else 0
  {
    if k > 0 {
      MappingsBalance(ss, calls, k - 1, a);
      SessionsStayOk(ss, calls, k - 1);
      CallBalances(ss[k - 1], calls[k - 1], ss[k], a);
    }
  }

  /** One call maps `a`, unmaps it, or neither, and the kernel's mappings say which. */
  lemma CallBalances(s: Session, call: Call, s': Session, a: int)
    requires SessionOk(s) && Called(s, call, s')
    ensures (if a in s'.mapped then 1 else 0) - (if a in s.mapped then 1 else 0) ==
            (if Maps(s, call, a) then 1 else 0) - (if Unmaps(s, call, a) then 1 else 0)
  {
    match call
    case AttachCall(id, acquired) =>
      var status, data :| Attached(s.live, s.mapped, id, acquired, s'.live, s'.mapped, status, data);
    case DetachCall(p) =>
      var status :| Detached(s.live, s.mapped, p, s'.live, s'.mapped, status);
      if c :| c in s.live && c.pdata == p {
        forall d | d in s.live && d.pdata == p ensures d == c {
          DataTells(s, c, d);
        }
        assert Unmaps(s, call, a) <==> c.addr == a;
      }
  }
}
