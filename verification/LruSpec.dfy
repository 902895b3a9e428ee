/** The path cache as a value: the recency list, and one slot per hash. */
module LruSpec {
  import opened Paths

  const LRU_CACHE_SIZE: nat := 100

  /** The part of a storage server's record that answers are made of. */
  datatype SsInfo = SsInfo(ip: string, nmPort: int, clientPort: int)

  /** `id` stands for the node's address: no two nodes ever created share one. */
  datatype Entry = Entry(id: nat, path: Path, info: SsInfo)

  /** `slots[h]` is the hash map's pointer: the node at which a scan for hash `h` starts. */
  datatype Cache = Cache(list: seq<Entry>, slots: seq<Option<nat>>, nextId: nat)

  function Slot(path: Path): (h: nat)
    ensures h < LRU_CACHE_SIZE
  {
    HashPath(path, LRU_CACHE_SIZE)
  }

  function Empty(nextId: nat): Cache {
    Cache([], seq(LRU_CACHE_SIZE, _ => None), nextId)
  }

  // ---------- the operations ----------

  /** Where in the list, from `start` on, the node `id` is; past the end if nowhere. */
  function PositionFrom(list: seq<Entry>, start: nat, id: nat): (i: nat)
    requires start <= |list|
    ensures start <= i <= |list| && (i < |list| ==> list[i].id == id)
    ensures forall j :: start <= j < i ==> list[j].id != id
    decreases |list| - start
  {
    if start == |list| || list[start].id == id then start else PositionFrom(list, start + 1, id)
  }

  function Position(list: seq<Entry>, id: nat): nat {
    PositionFrom(list, 0, id)
  }

  /** The first node for `path` at or after `start`. */
  function Scan(list: seq<Entry>, start: nat, path: Path): (r: Option<nat>)
    ensures r.Some? ==> start <= r.value < |list| && list[r.value].path == path
    ensures forall j :: start <= j < (if r.Some? then r.value else |list|) ==> list[j].path != path
    decreases |list| - start
  {
    if start >= |list| then None
    else if list[start].path == path then Some(start)
    else Scan(list, start + 1, path)
  }

  /** The first node for `path` at or after the node its slot points to, in recency order. */
  function Find(c: Cache, path: Path): (r: Option<nat>)
    requires |c.slots| == LRU_CACHE_SIZE
    ensures r.Some? ==> r.value < |c.list| && c.list[r.value].path == path
  {
    match c.slots[Slot(path)]
    case None => None
    case Some(id) => Scan(c.list, Position(c.list, id), path)
  }

  function MoveToFront<T>(list: seq<T>, i: nat): (r: seq<T>)
    requires i < |list|
    ensures |r| == |list|
  {
    seq(|list|, j requires 0 <= j < |list| => if j == 0 then list[i] else if j <= i then list[j - 1] else list[j])
  }

  lemma MoveToFrontAt<T>(list: seq<T>, i: nat)
    requires i < |list|
    ensures var r := MoveToFront(list, i);
            && r[0] == list[i]
            && (forall j :: 0 < j <= i ==> r[j] == list[j - 1])
            && (forall j :: i < j < |list| ==> r[j] == list[j])
    ensures i == 0 ==> MoveToFront(list, i) == list
  {
  }

  function Touch(c: Cache, i: nat, info: SsInfo): Cache
    requires i < |c.list|
  {
    c.(list := MoveToFront(c.list[i := c.list[i].(info := info)], i))
  }

  function Get(c: Cache, path: Path): (Cache, Option<SsInfo>)
    requires |c.slots| == LRU_CACHE_SIZE
  {
    match Find(c, path)
    case Some(i) => (Touch(c, i, c.list[i].info), Some(c.list[i].info))
    case None => (c, None)
  }

  /** Drops the last node, and its slot if that points to it. */
  function Evict(c: Cache): Cache
    requires |c.slots| == LRU_CACHE_SIZE && c.list != []
  {
    var last := c.list[|c.list| - 1];
    var h := Slot(last.path);
    Cache(c.list[..|c.list| - 1], if c.slots[h] == Some(last.id) then c.slots[h := None] else c.slots, c.nextId)
  }

  function Push(c: Cache, path: Path, info: SsInfo): Cache
    requires |c.slots| == LRU_CACHE_SIZE
  {
    Cache([Entry(c.nextId, path, info)] + c.list, c.slots[Slot(path) := Some(c.nextId)], c.nextId + 1)
  }

  function Put(c: Cache, path: Path, info: SsInfo): Cache
    requires |c.slots| == LRU_CACHE_SIZE
  {
    match Find(c, path)
    case Some(i) => Touch(c, i, info)
    case None => Push(if |c.list| == LRU_CACHE_SIZE then Evict(c) else c, path, info)
  }

  function Without<T>(s: seq<T>, i: nat): (r: seq<T>)
    requires i < |s|
    ensures |r| == |s| - 1
  {
    seq(|s| - 1, j requires 0 <= j < |s| - 1 => if j < i then s[j] else s[j + 1])
  }

  lemma WithoutAt<T>(s: seq<T>, i: nat)
    requires i < |s|
    ensures forall j :: 0 <= j < |s| - 1 ==> Without(s, i)[j] == s[if j < i then j else j + 1]
  {
  }

  /** `i` is where the scan ended; a slot that pointed there moves to the next node of the list. */
  function Unlink(c: Cache, path: Path, i: nat): Cache
    requires |c.slots| == LRU_CACHE_SIZE && i < |c.list|
  {
    var h := Slot(path);
    var after := if i + 1 < |c.list| then Some(c.list[i + 1].id) else None;
    Cache(Without(c.list, i),
          if c.slots[h] == Some(c.list[i].id) then c.slots[h := after] else c.slots, c.nextId)
  }

  function Remove(c: Cache, path: Path): Cache
    requires |c.slots| == LRU_CACHE_SIZE
  {
    match Find(c, path)
    case Some(i) => Unlink(c, path, i)
    case None => c
  }

  // ---------- what every state keeps ----------

  predicate DistinctIds(list: seq<Entry>) {
    forall i, j :: 0 <= i < j < |list| ==> list[i].id != list[j].id
  }

  predicate ListInv(c: Cache) {
    && |c.slots| == LRU_CACHE_SIZE && |c.list| <= LRU_CACHE_SIZE
    && DistinctIds(c.list) && (forall i :: 0 <= i < |c.list| ==> c.list[i].id < c.nextId)
    && (forall h :: 0 <= h < |c.slots| && c.slots[h].Some? ==> c.slots[h].value < c.nextId)
  }

  /** A slot is empty or points to a node of the list, not to one that was freed. */
  predicate SlotLive(c: Cache, h: nat)
    requires h < |c.slots|
  {
    c.slots[h].Some? ==> exists i :: 0 <= i < |c.list| && c.list[i].id == c.slots[h].value
  }

  predicate Live(c: Cache) {
    forall h :: 0 <= h < |c.slots| ==> SlotLive(c, h)
  }

  /** A slot is empty or points to a live node whose path hashes there. */
  predicate SlotSound(c: Cache, h: nat)
    requires h < |c.slots|
  {
    c.slots[h].Some? ==>
      exists i :: 0 <= i < |c.list| && c.list[i].id == c.slots[h].value && Slot(c.list[i].path) == h
  }

  predicate SlotInv(c: Cache) {
    forall h :: 0 <= h < |c.slots| ==> SlotSound(c, h)
  }

  predicate Inv(c: Cache) {
    ListInv(c) && SlotInv(c)
  }

  lemma PositionOf(list: seq<Entry>, i: nat)
    requires i < |list| && DistinctIds(list)
    ensures Position(list, list[i].id) == i
  {
  }

  lemma TouchKeepsInv(c: Cache, i: nat, info: SsInfo)
    requires ListInv(c) && i < |c.list|
    ensures ListInv(Touch(c, i, info))
    ensures forall e :: e in Touch(c, i, info).list ==>
              e == c.list[i].(info := info) || e in c.list
    ensures SlotInv(c) ==> SlotInv(Touch(c, i, info))
  {
    var t := c.list[i].(info := info);
    MoveToFrontAt(c.list[i := t], i);
    if SlotInv(c) {
      forall h | 0 <= h < |c.slots| ensures SlotSound(Touch(c, i, info), h) {
        TouchKeepsSlot(c, i, info, h);
      }
    }
  }

  lemma TouchKeepsSlot(c: Cache, i: nat, info: SsInfo, h: nat)
    requires i < |c.list| && h < |c.slots| && SlotSound(c, h)
    ensures SlotSound(Touch(c, i, info), h)
  {
    var d := Touch(c, i, info);
    MoveToFrontAt(c.list[i := c.list[i].(info := info)], i);
    if c.slots[h].Some? {
      var j :| 0 <= j < |c.list| && c.list[j].id == c.slots[h].value && Slot(c.list[j].path) == h;
      var k := if j == i then 0 else if j < i then j + 1 else j;
      assert d.list[k].id == c.list[j].id && d.list[k].path == c.list[j].path;
    }
  }

  lemma EvictKeepsList(c: Cache)
    requires ListInv(c) && c.list != []
    ensures ListInv(Evict(c))
  {
  }

  lemma PushKeepsList(c: Cache, path: Path, info: SsInfo)
    requires ListInv(c) && |c.list| < LRU_CACHE_SIZE
    ensures ListInv(Push(c, path, info))
  {
  }

  lemma PutKeepsList(c: Cache, path: Path, info: SsInfo)
    requires ListInv(c)
    ensures ListInv(Put(c, path, info))
  {
    match Find(c, path)
    case Some(i) => TouchKeepsInv(c, i, info);
    case None =>
      if |c.list| == LRU_CACHE_SIZE { EvictKeepsList(c); }
      PushKeepsList(if |c.list| == LRU_CACHE_SIZE then Evict(c) else c, path, info);
  }

  lemma GetKeepsList(c: Cache, path: Path)
    requires ListInv(c)
    ensures ListInv(Get(c, path).0)
  {
    match Find(c, path)
    case Some(i) => TouchKeepsInv(c, i, c.list[i].info);
    case None =>
  }

  lemma EvictKeepsInv(c: Cache)
    requires Inv(c) && c.list != []
    ensures Inv(Evict(c))
  {
    var d := Evict(c);
    var n := |c.list| - 1;
    forall h | 0 <= h < |d.slots| && d.slots[h].Some? ensures SlotSound(d, h) {
      assert SlotSound(c, h);
      var j :| 0 <= j < |c.list| && c.list[j].id == c.slots[h].value && Slot(c.list[j].path) == h;
      assert j < n ==> d.list[j] == c.list[j];
    }
  }

  lemma PushKeepsInv(c: Cache, path: Path, info: SsInfo)
    requires Inv(c) && |c.list| < LRU_CACHE_SIZE
    ensures Inv(Push(c, path, info))
  {
    var d := Push(c, path, info);
    forall h | 0 <= h < |d.slots| && d.slots[h].Some? ensures SlotSound(d, h) {
      if h == Slot(path) {
        assert d.list[0].id == c.nextId;
      } else {
        assert SlotSound(c, h);
        var j :| 0 <= j < |c.list| && c.list[j].id == c.slots[h].value && Slot(c.list[j].path) == h;
        assert d.list[j + 1] == c.list[j];
      }
    }
  }

  lemma GetKeepsInv(c: Cache, path: Path)
    requires Inv(c)
    ensures Inv(Get(c, path).0)
  {
    match Find(c, path)
    case Some(i) => TouchKeepsInv(c, i, c.list[i].info);
    case None =>
  }

  lemma PutKeepsInv(c: Cache, path: Path, info: SsInfo)
    requires Inv(c)
    ensures Inv(Put(c, path, info))
  {
    match Find(c, path)
    case Some(i) => TouchKeepsInv(c, i, info);
    case None =>
      if |c.list| == LRU_CACHE_SIZE { EvictKeepsInv(c); }
      PushKeepsInv(if |c.list| == LRU_CACHE_SIZE then Evict(c) else c, path, info);
  }

  lemma RemoveKeepsList(c: Cache, path: Path)
    requires ListInv(c)
    ensures ListInv(Remove(c, path))
  {
    if Find(c, path).Some? {
      var i, d := Find(c, path).value, Remove(c, path);
      WithoutAt(c.list, i);
    }
  }
}
