/** The cache on the heap: a doubly linked list whose links also serve the hash scans. */
module LruCaches {
  import opened Paths
  import opened LruSpec

  class LruCacheNode {
    const path: Path
    var ssInfo: SsInfo
    var prev: LruCacheNode?
    var next: LruCacheNode?

    constructor (path: Path, ssInfo: SsInfo)
      ensures this.path == path && this.ssInfo == ssInfo && prev == null && next == null
    {
      this.path, this.ssInfo, prev, next := path, ssInfo, null, null;
    }
  }

  class LruCache {
    var head: LruCacheNode?
    var tail: LruCacheNode?
    const slots: array<LruCacheNode?>
    var count: nat
    /** The nodes in list order, and the value they and the slots stand for. */
    ghost var nodes: seq<LruCacheNode>
    ghost var model: Cache
    ghost var Repr: set<object>

    /** Slots may point to freed nodes; the operations require only that the slot they start from does not. */
    ghost predicate Valid()
      reads this, Repr
    {
      ListInv(model) && Wired()
    }

    ghost predicate Wired()
      reads this, Repr
    {
      && this in Repr && slots in Repr && (forall i :: 0 <= i < |nodes| ==> nodes[i] in Repr)
      && count == |nodes| == |model.list| && |model.slots| == LRU_CACHE_SIZE
      && Chain()
      && Stores(nodes, model.list)
      && slots.Length == LRU_CACHE_SIZE && SlotsPoint(slots[..], nodes, model)
      && (forall h :: 0 <= h < LRU_CACHE_SIZE && slots[h] != null ==> slots[h] in Repr)
    }

    /** `head`, `tail`, `prev` and `next` describe one list, the sequence `nodes`. */
    ghost predicate Chain()
      reads this`head, this`tail, this`nodes, nodes`prev, nodes`next
    {
      && Distinct(nodes) && head == First(nodes) && tail == Last(nodes)
      && (forall i :: 0 <= i < |nodes| ==> Linked(nodes, i))
    }

    /** `lru_init`. */
    constructor ()
      ensures Valid() && fresh(Repr) && model == Empty(0)
    {
      head, tail, count := null, null, 0;
      slots := new LruCacheNode?[LRU_CACHE_SIZE](_ => null);
      nodes, model := [], Empty(0);
      new;
      Repr := {this, slots};
    }

    method MoveToFront(node: LruCacheNode, ghost i: nat)
      requires Chain() && i < |nodes| && nodes[i] == node
      modifies this`head, this`tail, this`nodes, nodes`prev, nodes`next
      ensures Chain() && nodes == LruSpec.MoveToFront(old(nodes), i)
    {
      assert i > 0 ==> nodes[i] != nodes[0];
      if node == head {
        MoveToFrontAt(nodes, i);
        return;
      }
      TakeOut(node, i);
      PutFirst(node);
    }

    /** First half of `move_to_front`, for a node that is not the head. */
    method TakeOut(node: LruCacheNode, ghost i: nat)
      requires Chain() && 0 < i < |nodes| && nodes[i] == node
      modifies this`tail, this`nodes, nodes`prev, nodes`next
      ensures Chain() && nodes == Without(old(nodes), i) && node !in nodes
    {
      ghost var was := nodes;
      assert Linked(was, i) && Linked(was, i - 1) && (i + 1 < |was| ==> Linked(was, i + 1));
      assert was[i - 1] in nodes && (i + 1 < |was| ==> was[i + 1] in nodes);
      if node == tail {
        tail := node.prev;
        if tail != null {
          tail.next := null;
        }
      }
      if node.prev != null {
        node.prev.next := node.next;
      }
      if node.next != null {
        node.next.prev := node.prev;
      }
      nodes := Without(nodes, i);
      WithoutAt(was, i);
      forall j | 0 <= j < |nodes| ensures Linked(nodes, j) {
        assert old(Linked(was, if j < i then j else j + 1));
      }
    }

    /** Second half of `move_to_front`, and the insertion of a new node in `lru_put`. */
    method PutFirst(node: LruCacheNode)
      requires Chain() && node !in nodes
      modifies this`head, this`tail, this`nodes, nodes`prev, node`prev, node`next
      ensures Chain() && nodes == [node] + old(nodes)
    {
      ghost var was := nodes;
      assert was != [] ==> was[0] in nodes;
      node.prev := null;
      node.next := head;
      if head != null {
        head.prev := node;
      }
      head := node;
      if tail == null {
        tail := node;
      }
      nodes := [node] + nodes;
      forall j | 0 <= j < |nodes| ensures Linked(nodes, j) {
        assert j > 0 ==> old(Linked(was, j - 1));
      }
    }

    /** The scan that `lru_get`, `lru_put` and `lru_remove` share, with the node before the one found. */
    method FindNode(path: Path) returns (node: LruCacheNode?, prevNode: LruCacheNode?)
      requires Valid() && SlotLive(model, Slot(path))
      ensures match Find(model, path)
              case None => node == null
              case Some(i) =>
                && node == nodes[i]
                && prevNode == (if slots[Slot(path)] == node || i == 0 then null else nodes[i - 1])
    {
      var index := ComputeHash(path, LRU_CACHE_SIZE);
      node, prevNode := slots[index], null;
      ghost var start := if model.slots[index].None? then count else Position(model.list, model.slots[index].value);
      StartsThere(slots[..], nodes, model, index);
      ghost var i := start;
      while node != null && node.path != path
        invariant start <= i <= count && node == (if i < count then nodes[i] else null)
        invariant prevNode == if i == start then null else nodes[i - 1]
        invariant Scan(model.list, start, path) == Scan(model.list, i, path)
        decreases count - i
      {
        assert Linked(nodes, i) && nodes[i].path == model.list[i].path;
        prevNode := node;
        node := node.next;
        i := i + 1;
      }
      assert i < count ==> nodes[i].path == model.list[i].path;
    }

    /** `lru_get`; the record is returned by value. */
    method Get(path: Path) returns (info: Option<SsInfo>)
      requires Valid() && SlotLive(model, Slot(path))
      modifies Repr
      ensures Valid() && Repr == old(Repr)
      ensures (model, info) == LruSpec.Get(old(model), path)
    {
      var node, _ := FindNode(path);
      if node != null {
        ghost var i := Find(model, path).value;
        assert node == nodes[i];
        Use(node, node.ssInfo, i);
        info := Some(node.ssInfo);
      } else {
        info := None;
      }
    }

    method Put(path: Path, ssInfo: SsInfo)
      requires Valid() && SlotLive(model, Slot(path))
      modifies Repr
      ensures Valid() && fresh(Repr - old(Repr))
      ensures model == LruSpec.Put(old(model), path, ssInfo)
    {
      var node, _ := FindNode(path);
      if node != null {
        Use(node, ssInfo, Find(model, path).value);
      } else {
        if count == LRU_CACHE_SIZE {
          EvictTail();
        }
        Insert(path, ssInfo);
      }
    }

    /** The hit branch of `lru_get` and `lru_put`. */
    method Use(node: LruCacheNode, ssInfo: SsInfo, ghost i: nat)
      requires Valid() && i < |nodes| && node == nodes[i]
      modifies this`head, this`tail, this`nodes, this`model, nodes`prev, nodes`next, node`ssInfo
      ensures Valid() && node.ssInfo == ssInfo
      ensures model == Touch(old(model), i, ssInfo)
    {
      ghost var t := model.list[i].(info := ssInfo);
      TouchKeepsInv(model, i, ssInfo);
      MoveToFrontAt(model.list[i := t], i);
      MoveToFrontAt(nodes, i);
      TouchKeepsSlots(slots[..], nodes, model, i, ssInfo);
      ghost var was, list := nodes, model.list[i := t];
      node.ssInfo := ssInfo;
      assert Stores(was, list);
      StoresMoved(was, list, i);
      MoveToFront(node, i);
      model := Touch(model, i, ssInfo);
    }

    method EvictTail()
      requires Valid() && count == LRU_CACHE_SIZE
      modifies Repr
      ensures Valid() && Repr == old(Repr)
      ensures model == Evict(old(model))
    {
      EvictKeepsList(model);
      EvictKeepsSlots(slots[..], nodes, model);
      assert nodes[count - 1].path == model.list[count - 1].path;
      var tailIndex := ComputeHash(tail.path, LRU_CACHE_SIZE);
      ForgetTail(tailIndex, Evict(model));
    }

    /** The pointer changes of an eviction; `d` is the state they lead to. */
    method ForgetTail(tailIndex: nat, ghost d: Cache)
      requires Wired() && count > 1 && tailIndex < LRU_CACHE_SIZE
      requires d.list == model.list[..count - 1] && |d.slots| == LRU_CACHE_SIZE
      requires SlotsPoint(if slots[tailIndex] == tail then slots[..][tailIndex := null] else slots[..],
                          nodes[..count - 1], d)
      modifies Repr
      ensures Wired() && Repr == old(Repr) && model == d
    {
      StoresWithoutLast(nodes, model.list);
      if slots[tailIndex] == tail {
        slots[tailIndex] := null;
      }
      DropTail();
      count := count - 1;
      model := d;
    }

    method DropTail()
      requires Chain() && |nodes| > 1
      modifies this`tail, this`nodes, nodes`next
      ensures Chain() && nodes == old(nodes[..|nodes| - 1])
    {
      ghost var was, n := nodes, |nodes| - 1;
      assert Linked(was, n) && Linked(was, n - 1) && was[n - 1] in nodes;
      tail := tail.prev;
      if tail != null {
        tail.next := null;
      }
      nodes := nodes[..n];
      forall i | 0 <= i < |nodes| ensures Linked(nodes, i) {
        assert old(Linked(was, i));
      }
    }

    method Insert(path: Path, ssInfo: SsInfo)
      requires Valid() && count < LRU_CACHE_SIZE
      modifies Repr
      ensures Valid() && fresh(Repr - old(Repr))
      ensures model == Push(old(model), path, ssInfo)
    {
      var index := ComputeHash(path, LRU_CACHE_SIZE);
      PushKeepsList(model, path, ssInfo);
      var node := new LruCacheNode(path, ssInfo);
      PushKeepsSlots(slots[..], nodes, model, path, ssInfo, node);
      Link(node, index, Push(model, path, ssInfo));
    }

    method Link(node: LruCacheNode, index: nat, ghost d: Cache)
      requires Wired() && node !in Repr && index < LRU_CACHE_SIZE && |d.slots| == LRU_CACHE_SIZE && d.list != []
      requires d.list == [d.list[0]] + model.list && node.path == d.list[0].path && node.ssInfo == d.list[0].info
      requires SlotsPoint(slots[..][index := node], [node] + nodes, d)
      modifies Repr, node
      ensures Wired() && Repr == old(Repr) + {node} && model == d
    {
      assert Stores([node] + nodes, d.list);
      PutFirst(node);
      count := count + 1;
      slots[index] := node;
      model := d;
      Repr := Repr + {node};
    }

    /** `lru_remove`: other slots may come to point to the freed node; see `RemoveKeepsLive`. */
    method Remove(path: Path)
      requires Valid() && SlotLive(model, Slot(path))
      modifies Repr
      ensures Valid() && Repr == old(Repr)
      ensures model == LruSpec.Remove(old(model), path)
    {
      var node, prevNode := FindNode(path);
      RemoveKeepsList(model, path);
      if node != null {
        ghost var i := Find(model, path).value;
        var index := ComputeHash(path, LRU_CACHE_SIZE);
        UnlinkKeepsSlots(slots[..], nodes, model, path, i);
        RemoveAt(node, prevNode, index, i, LruSpec.Remove(model, path));
      }
    }

    /** The branch of `lru_remove` for a node that was found; `d` is the state it leads to. */
    method RemoveAt(node: LruCacheNode, prevNode: LruCacheNode?, index: nat, ghost i: nat, ghost d: Cache)
      requires Wired() && i < |nodes| && node == nodes[i] && index < LRU_CACHE_SIZE
      requires prevNode == if slots[index] == node || i == 0 then null else nodes[i - 1]
      requires i == 0 ==> slots[index] == node
      requires d.list == Without(model.list, i) && |d.slots| == LRU_CACHE_SIZE
      requires SlotsPoint(if slots[index] == node then slots[..][index := Next(nodes, i)] else slots[..],
                          Without(nodes, i), d)
      modifies Repr
      ensures Wired() && Repr == old(Repr) && model == d
    {
      StoresWithout(nodes, model.list, i);
      WithoutAt(nodes, i);
      Detach(node, prevNode, index, i);
      count := count - 1;
      model := d;
    }

    /** All pointer changes of `lru_remove`. */
    method Detach(node: LruCacheNode, prevNode: LruCacheNode?, index: nat, ghost i: nat)
      requires Chain() && i < |nodes| && node == nodes[i] && index < slots.Length
      requires prevNode == if slots[index] == node || i == 0 then null else nodes[i - 1]
      requires i == 0 ==> slots[index] == node
      modifies this`head, this`tail, this`nodes, nodes`prev, nodes`next, slots
      ensures Chain() && nodes == Without(old(nodes), i)
      ensures slots[..] == old(if slots[index] == node then slots[..][index := Next(nodes, i)] else slots[..])
    {
      Redirect(node, prevNode, index, i);
      Bypass(node, i);
    }

    /** `lru_destroy`; `freed` logs the calls of `free`. */
    method Destroy() returns (freed: seq<LruCacheNode>)
      requires Valid()
      modifies Repr
      ensures freed == old(nodes) && Distinct(freed)
      ensures Valid() && model == Empty(old(model.nextId))
    {
      freed := [];
      var current := head;
      while current != null
        invariant |freed| <= |nodes| && freed == nodes[..|freed|]
        invariant current == if |freed| < |nodes| then nodes[|freed|] else null
        decreases |nodes| - |freed|
      {
        assert Linked(nodes, |freed|);
        var next := current.next;
        freed := freed + [current];
        current := next;
      }
      head, tail, count := null, null, 0;
      forall h | 0 <= h < LRU_CACHE_SIZE {
        slots[h] := null;
      }
      nodes, model := [], Empty(model.nextId);
    }

    method Redirect(node: LruCacheNode, prevNode: LruCacheNode?, index: nat, ghost i: nat)
      requires Chain() && i < |nodes| && node == nodes[i] && index < slots.Length
      requires prevNode == if slots[index] == node || i == 0 then null else nodes[i - 1]
      requires i == 0 ==> slots[index] == node
      modifies nodes`next, slots
      ensures ChainBut(i)
      ensures slots[..] == old(if slots[index] == node then slots[..][index := Next(nodes, i)] else slots[..])
    {
      assert Linked(nodes, i) && (i > 0 ==> nodes[i - 1] in nodes && Linked(nodes, i - 1));
      if prevNode != null {
        prevNode.next := node.next;
      } else {
        slots[index] := node.next;
      }
      forall j | 0 <= j < |nodes| && j != i - 1 ensures Linked(nodes, j) {
        assert old(Linked(nodes, j)) && (i > 0 ==> nodes[j] != nodes[i - 1]);
      }
    }

    /** The chain, except for the `next` of the node before the one at `i`. */
    ghost predicate ChainBut(i: nat)
      requires i < |nodes|
      reads this`head, this`tail, this`nodes, nodes`prev, nodes`next
    {
      && Distinct(nodes) && head == First(nodes) && tail == Last(nodes)
      && (forall j :: 0 <= j < |nodes| && j != i - 1 ==> Linked(nodes, j))
      && (i > 0 ==> nodes[i - 1].prev == if i == 1 then null else nodes[i - 2])
    }

    /** The second half of `lru_remove`; the `next` of the node before may have been redirected already. */
    method Bypass(node: LruCacheNode, ghost i: nat)
      requires i < |nodes| && nodes[i] == node && ChainBut(i)
      modifies this`head, this`tail, this`nodes, nodes`prev, nodes`next
      ensures Chain() && nodes == Without(old(nodes), i)
    {
      ghost var was := nodes;
      assert Linked(was, i) && (i + 1 < |was| ==> Linked(was, i + 1));
      assert (i > 0 ==> was[i - 1] in nodes) && (i + 1 < |was| ==> was[i + 1] in nodes);
      if node.prev != null {
        node.prev.next := node.next;
      }
      if node.next != null {
        node.next.prev := node.prev;
      }
      if node == head {
        head := node.next;
      }
      if node == tail {
        tail := node.prev;
      }
      nodes := Without(nodes, i);
      WithoutAt(was, i);
      forall j | 0 <= j < |nodes| ensures Linked(nodes, j) {
        assert j != i - 1 ==> old(Linked(was, if j < i then j else j + 1));
      }
    }
  }

  // ---------- what the fields say ----------

  /** The nodes hold the paths and records of the entries. */
  ghost predicate Stores(nodes: seq<LruCacheNode>, list: seq<Entry>)
    requires |nodes| == |list|
    reads nodes`ssInfo
  {
    forall i :: 0 <= i < |nodes| ==> nodes[i].path == list[i].path && nodes[i].ssInfo == list[i].info
  }

  ghost predicate Distinct(nodes: seq<LruCacheNode>) {
    forall i, j :: 0 <= i < j < |nodes| ==> nodes[i] != nodes[j]
  }

  ghost function First(nodes: seq<LruCacheNode>): LruCacheNode? {
    if nodes == [] then null else nodes[0]
  }

  ghost function Last(nodes: seq<LruCacheNode>): LruCacheNode? {
    if nodes == [] then null else nodes[|nodes| - 1]
  }

  ghost function Next(nodes: seq<LruCacheNode>, i: nat): LruCacheNode? {
    if i + 1 < |nodes| then nodes[i + 1] else null
  }

  ghost predicate Linked(nodes: seq<LruCacheNode>, i: nat)
    requires i < |nodes|
    reads nodes`prev, nodes`next
  {
    && nodes[i].prev == (if i == 0 then null else nodes[i - 1])
    && nodes[i].next == (if i == |nodes| - 1 then null else nodes[i + 1])
  }

  /** What the slot's pointer stands for: nothing, a node of the list, or a node that was freed. */
  ghost predicate PointsAt(ptr: LruCacheNode?, nodes: seq<LruCacheNode>, c: Cache, h: nat)
    requires h < |c.slots| && |nodes| == |c.list|
  {
    match c.slots[h]
    case None => ptr == null
    case Some(id) => ptr != null && forall i :: 0 <= i < |nodes| ==> (nodes[i] == ptr <==> c.list[i].id == id)
  }

  ghost predicate SlotsPoint(ptrs: seq<LruCacheNode?>, nodes: seq<LruCacheNode>, c: Cache)
    requires |ptrs| == |c.slots| && |nodes| == |c.list|
  {
    forall h :: 0 <= h < |ptrs| ==> PointsAt(ptrs[h], nodes, c, h)
  }

  /** A live slot points to the node at which the scan of the value starts. */
  lemma StartsThere(ptrs: seq<LruCacheNode?>, nodes: seq<LruCacheNode>, c: Cache, h: nat)
    requires |ptrs| == |c.slots| && |nodes| == |c.list| && SlotsPoint(ptrs, nodes, c) && DistinctIds(c.list)
    requires h < |ptrs| && SlotLive(c, h)
    ensures match c.slots[h]
            case None => ptrs[h] == null
            case Some(id) => Position(c.list, id) < |nodes| && ptrs[h] == nodes[Position(c.list, id)]
  {
    assert PointsAt(ptrs[h], nodes, c, h);
    if c.slots[h].Some? {
      var i :| 0 <= i < |c.list| && c.list[i].id == c.slots[h].value;
      PositionOf(c.list, i);
    }
  }

  // ---------- one lemma per operation on the slots, one on the contents ----------

  lemma StoresMoved(nodes: seq<LruCacheNode>, list: seq<Entry>, i: nat)
    requires |nodes| == |list| && Stores(nodes, list) && i < |nodes|
    ensures Stores(LruSpec.MoveToFront(nodes, i), LruSpec.MoveToFront(list, i))
  {
    MoveToFrontAt(nodes, i);
    MoveToFrontAt(list, i);
  }

  lemma StoresWithout(nodes: seq<LruCacheNode>, list: seq<Entry>, i: nat)
    requires |nodes| == |list| && Stores(nodes, list) && i < |nodes|
    ensures Stores(Without(nodes, i), Without(list, i))
  {
    WithoutAt(nodes, i);
    WithoutAt(list, i);
  }

  lemma StoresWithoutLast(nodes: seq<LruCacheNode>, list: seq<Entry>)
    requires |nodes| == |list| > 0 && Stores(nodes, list)
    ensures Stores(nodes[..|nodes| - 1], list[..|list| - 1])
  {
  }

  lemma TouchKeepsSlots(ptrs: seq<LruCacheNode?>, nodes: seq<LruCacheNode>, c: Cache, i: nat, info: SsInfo)
    requires |nodes| == |c.list| && i < |nodes| && |ptrs| == |c.slots| && SlotsPoint(ptrs, nodes, c)
    ensures SlotsPoint(ptrs, LruSpec.MoveToFront(nodes, i), Touch(c, i, info))
  {
    MoveToFrontAt(c.list[i := c.list[i].(info := info)], i);
    MoveToFrontAt(nodes, i);
    forall h | 0 <= h < |ptrs| ensures PointsAt(ptrs[h], LruSpec.MoveToFront(nodes, i), Touch(c, i, info), h) {
      assert PointsAt(ptrs[h], nodes, c, h);
    }
  }

  lemma EvictKeepsSlots(ptrs: seq<LruCacheNode?>, nodes: seq<LruCacheNode>, c: Cache)
    requires |nodes| == |c.list| > 0 && |c.slots| == LRU_CACHE_SIZE && |ptrs| == |c.slots| && SlotsPoint(ptrs, nodes, c)
    ensures var n := |nodes| - 1; var h := Slot(c.list[n].path);
            SlotsPoint(if ptrs[h] == nodes[n] then ptrs[h := null] else ptrs, nodes[..n], Evict(c))
  {
    var n, own := |nodes| - 1, Slot(c.list[|nodes| - 1].path);
    assert PointsAt(ptrs[own], nodes, c, own);
    forall h | 0 <= h < |ptrs| && h != own ensures PointsAt(ptrs[h], nodes[..n], Evict(c), h) {
      assert PointsAt(ptrs[h], nodes, c, h);
    }
  }

  lemma PushKeepsSlots(ptrs: seq<LruCacheNode?>, nodes: seq<LruCacheNode>, c: Cache, path: Path, info: SsInfo,
                       node: LruCacheNode)
    requires |nodes| == |c.list| && ListInv(c) && |ptrs| == |c.slots| && SlotsPoint(ptrs, nodes, c)
    requires node !in ptrs && node !in nodes
    ensures SlotsPoint(ptrs[Slot(path) := node], [node] + nodes, Push(c, path, info))
  {
    var d, ptrs' := Push(c, path, info), ptrs[Slot(path) := node];
    forall h | 0 <= h < |ptrs| ensures PointsAt(ptrs'[h], [node] + nodes, d, h) {
      assert PointsAt(ptrs[h], nodes, c, h);
    }
  }

  lemma UnlinkKeepsSlots(ptrs: seq<LruCacheNode?>, nodes: seq<LruCacheNode>, c: Cache, path: Path, i: nat)
    requires |nodes| == |c.list| && ListInv(c) && i < |nodes| && Distinct(nodes)
    requires |ptrs| == |c.slots| && SlotsPoint(ptrs, nodes, c)
    ensures var h := Slot(path);
            SlotsPoint(if ptrs[h] == nodes[i] then ptrs[h := Next(nodes, i)] else ptrs,
                       Without(nodes, i), Unlink(c, path, i))
  {
    var own, d, short := Slot(path), Unlink(c, path, i), Without(nodes, i);
    WithoutAt(c.list, i);
    WithoutAt(nodes, i);
    assert PointsAt(ptrs[own], nodes, c, own);
    if ptrs[own] == nodes[i] && i + 1 < |nodes| { assert short[i] == nodes[i + 1] && d.list[i] == c.list[i + 1]; }
    forall h | 0 <= h < |ptrs| && h != own ensures PointsAt(ptrs[h], short, d, h) {
      assert PointsAt(ptrs[h], nodes, c, h);
    }
  }
}
