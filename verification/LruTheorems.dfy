/** What runs of the cache keep, and what they do not. */
module LruTheorems {
  import opened Paths
  import opened LruSpec

  datatype Op = GetOp(path: Path) | PutOp(path: Path, info: SsInfo)

  function Apply(c: Cache, op: Op): (d: Cache)
    requires |c.slots| == LRU_CACHE_SIZE
    ensures |d.slots| == LRU_CACHE_SIZE
  {
    if op.GetOp? then Get(c, op.path).0 else Put(c, op.path, op.info)
  }

  /** The state after a run from the empty cache. */
  function Run(ops: seq<Op>): (c: Cache)
    ensures |c.slots| == LRU_CACHE_SIZE
  {
    if ops == [] then Empty(0) else Apply(Run(ops[..|ops| - 1]), ops[|ops| - 1])
  }

  lemma {:induction false} RunKeepsInv(ops: seq<Op>)
    ensures Inv(Run(ops))
  {
    if ops == [] { EmptyIsInv(); } else {
      RunKeepsInv(ops[..|ops| - 1]);
      ApplyKeepsInv(Run(ops[..|ops| - 1]), ops[|ops| - 1]);
    }
  }

  lemma EmptyIsInv()
    ensures Inv(Empty(0))
  {
  }

  lemma ApplyKeepsInv(c: Cache, op: Op)
    requires Inv(c)
    ensures Inv(Apply(c, op))
  {
    if op.GetOp? { GetKeepsInv(c, op.path); } else { PutKeepsInv(c, op.path, op.info); }
  }

  // ---------- what a lookup finds, and what it changes ----------

  /** `i` is the first node for `path` at or after the node its slot points to, in recency order. */
  predicate FirstBehindSlot(c: Cache, path: Path, i: nat)
    requires |c.slots| == LRU_CACHE_SIZE
  {
    && i < |c.list| && c.list[i].path == path
    && exists s :: 0 <= s <= i && c.slots[Slot(path)] == Some(c.list[s].id)
         && forall j :: s <= j < i ==> c.list[j].path != path
  }

  lemma FindMeansFirstBehindSlot(c: Cache, path: Path, i: nat)
    requires ListInv(c) && SlotLive(c, Slot(path))
    ensures Find(c, path) == Some(i) <==> FirstBehindSlot(c, path, i)
  {
    var h := Slot(path);
    if c.slots[h].Some? {
      var s :| 0 <= s < |c.list| && c.list[s].id == c.slots[h].value;
      PositionOf(c.list, s);
    }
  }

  /** A hit moves one node to the front and changes nothing else; a miss changes nothing. */
  lemma GetMovesToFront(c: Cache, path: Path)
    requires |c.slots| == LRU_CACHE_SIZE
    ensures match Find(c, path)
            case None => Get(c, path) == (c, None)
            case Some(i) =>
              Get(c, path) == (c.(list := [c.list[i]] + c.list[..i] + c.list[i + 1..]), Some(c.list[i].info))
  {
    if Find(c, path).Some? {
      var i := Find(c, path).value;
      assert c.list[i := c.list[i].(info := c.list[i].info)] == c.list;
      assert MoveToFront(c.list, i) == [c.list[i]] + c.list[..i] + c.list[i + 1..];
    }
  }

  /** A removal takes one node out and keeps the others in order; if nothing is found it changes nothing. */
  lemma RemoveTakesOneOut(c: Cache, path: Path)
    requires |c.slots| == LRU_CACHE_SIZE
    ensures match Find(c, path)
            case None => Remove(c, path) == c
            case Some(i) => Remove(c, path).list == c.list[..i] + c.list[i + 1..] && Remove(c, path).nextId == c.nextId
  {
    if Find(c, path).Some? {
      var i := Find(c, path).value;
      assert Without(c.list, i) == c.list[..i] + c.list[i + 1..];
    }
  }

  // ---------- recency ----------

  /** The node an operation finds or creates. */
  function Used(c: Cache, op: Op): Option<nat>
    requires |c.slots| == LRU_CACHE_SIZE
  {
    match Find(c, op.path)
    case Some(i) => Some(c.list[i].id)
    case None => if op.PutOp? then Some(c.nextId) else None
  }

  /** When, counting operations from 1, a node was last used; 0 if never. */
  ghost function LastUse(ops: seq<Op>, id: nat): (t: nat)
    ensures t <= |ops|
  {
    if ops == [] then 0
    else
      var before := ops[..|ops| - 1];
      if Used(Run(before), ops[|ops| - 1]) == Some(id) then |ops| else LastUse(before, id)
  }

  ghost predicate InOrderOfUse(list: seq<Entry>, ops: seq<Op>) {
    forall i, j :: 0 <= i < j < |list| ==> LastUse(ops, list[i].id) > LastUse(ops, list[j].id)
  }

  /** The list is always in strict order of last use. */
  lemma {:induction false} RecencyOrder(ops: seq<Op>)
    ensures InOrderOfUse(Run(ops).list, ops)
  {
    if ops != [] {
      var before, op := ops[..|ops| - 1], ops[|ops| - 1];
      var c := Run(before);
      RecencyOrder(before);
      RunKeepsInv(before);
      match Find(c, op.path)
      case Some(i) =>
        var info := if op.PutOp? then op.info else c.list[i].info;
        TouchKeepsOrder(ops, c.list, i, info);
      case None =>
        if op.PutOp? {
          var rest := if |c.list| == LRU_CACHE_SIZE then c.list[..LRU_CACHE_SIZE - 1] else c.list;
          PushKeepsOrder(ops, rest, Entry(c.nextId, op.path, op.info));
        }
    }
  }

  lemma TouchKeepsOrder(ops: seq<Op>, list: seq<Entry>, i: nat, info: SsInfo)
    requires ops != [] && i < |list| && DistinctIds(list) && InOrderOfUse(list, ops[..|ops| - 1])
    requires Used(Run(ops[..|ops| - 1]), ops[|ops| - 1]) == Some(list[i].id)
    ensures InOrderOfUse(MoveToFront(list[i := list[i].(info := info)], i), ops)
  {
    var moved := MoveToFront(list[i := list[i].(info := info)], i);
    forall j, k | 0 <= j < k < |moved| ensures LastUse(ops, moved[j].id) > LastUse(ops, moved[k].id) {
      var k' := if k <= i then k - 1 else k;
      assert moved[k].id == list[k'].id != list[i].id;
      if j > 0 {
        var j' := if j <= i then j - 1 else j;
        assert moved[j].id == list[j'].id != list[i].id;
      }
    }
  }

  lemma PushKeepsOrder(ops: seq<Op>, list: seq<Entry>, e: Entry)
    requires ops != [] && InOrderOfUse(list, ops[..|ops| - 1])
    requires Used(Run(ops[..|ops| - 1]), ops[|ops| - 1]) == Some(e.id)
    requires forall j :: 0 <= j < |list| ==> list[j].id != e.id
    ensures InOrderOfUse([e] + list, ops)
  {
    var pushed := [e] + list;
    forall j, k | 0 <= j < k < |pushed| ensures LastUse(ops, pushed[j].id) > LastUse(ops, pushed[k].id) {
      assert pushed[k] == list[k - 1] && (j > 0 ==> pushed[j] == list[j - 1]);
    }
  }

  /** A full cache gives up the node unused for longest, and only that one. */
  lemma EvictsLeastRecentlyUsed(ops: seq<Op>, path: Path, info: SsInfo)
    requires Find(Run(ops), path) == None && |Run(ops).list| == LRU_CACHE_SIZE
    ensures var list := Run(ops).list; var victim := list[LRU_CACHE_SIZE - 1];
            && Put(Run(ops), path, info).list == [Entry(Run(ops).nextId, path, info)] + list[..LRU_CACHE_SIZE - 1]
            && forall e :: e in list && e != victim ==> LastUse(ops, e.id) > LastUse(ops, victim.id)
  {
    RecencyOrder(ops);
    RunKeepsInv(ops);
  }

  // ---------- provenance ----------

  /** Whatever the cache holds for a path was put for exactly that path. */
  lemma {:induction false} EntriesWerePut(ops: seq<Op>)
    ensures forall e :: e in Run(ops).list ==> PutOp(e.path, e.info) in ops
  {
    if ops != [] {
      var before, op := ops[..|ops| - 1], ops[|ops| - 1];
      var c := Run(before);
      EntriesWerePut(before);
      RunKeepsInv(before);
      assert ops == before + [op];
      match Find(c, op.path)
      case Some(i) => TouchKeepsInv(c, i, if op.PutOp? then op.info else c.list[i].info);
      case None =>
    }
  }

  lemma AnswersWerePut(ops: seq<Op>, path: Path)
    ensures match Get(Run(ops), path).1
            case Some(info) => PutOp(path, info) in ops
            case None => true
  {
    EntriesWerePut(ops);
    match Find(Run(ops), path)
    case Some(i) => assert Run(ops).list[i] in Run(ops).list;
    case None =>
  }

  // ---------- put, then get ----------

  /** Exactly what a lookup answers right after a put: the value just put, if the put created a node or
      found the node its slot points to; otherwise whatever an older duplicate holds. */
  lemma GetAfterPut(c: Cache, path: Path, info: SsInfo)
    requires ListInv(c)
    ensures Get(Put(c, path, info), path).1
            == match Find(c, path)
               case None => Some(info)
               case Some(i) =>
                 if c.slots[Slot(path)] == Some(c.list[i].id) then Some(info)
                 else match Scan(c.list, i + 1, path)
                      case None => None
                      case Some(j) => Some(c.list[j].info)
  {
    match Find(c, path)
    case None =>
      PutKeepsList(c, path, info);
      PositionOf(Put(c, path, info).list, 0);
    case Some(i) =>
      if c.slots[Slot(path)] == Some(c.list[i].id) { GetAfterPutAtSlot(c, path, i, info); }
      else { GetAfterPutBehindSlot(c, path, i, info); }
  }

  lemma GetAfterPutAtSlot(c: Cache, path: Path, i: nat, info: SsInfo)
    requires ListInv(c) && Find(c, path) == Some(i) && c.slots[Slot(path)] == Some(c.list[i].id)
    ensures Get(Touch(c, i, info), path).1 == Some(info)
  {
    TouchKeepsInv(c, i, info);
    MoveToFrontAt(c.list[i := c.list[i].(info := info)], i);
    PositionOf(Touch(c, i, info).list, 0);
  }

  /** The slot's node, now one place further back, hides the node that moved to the front. */
  lemma GetAfterPutBehindSlot(c: Cache, path: Path, i: nat, info: SsInfo)
    requires ListInv(c) && Find(c, path) == Some(i) && c.slots[Slot(path)] != Some(c.list[i].id)
    ensures Get(Touch(c, i, info), path).1
         == match Scan(c.list, i + 1, path) case None => None case Some(j) => Some(c.list[j].info)
  {
    var s := Position(c.list, c.slots[Slot(path)].value);
    TouchKeepsInv(c, i, info);
    SlotMovesBack(c, i, info, s);
    ScanAfterMove(c.list, i, info, s, path);
    MovedList(c.list, i, info);
  }

  lemma ScanAfterMove(list: seq<Entry>, i: nat, info: SsInfo, s: nat, path: Path)
    requires s < i < |list| && forall j :: s <= j < i ==> list[j].path != path
    ensures Scan(MoveToFront(list[i := list[i].(info := info)], i), s + 1, path) == Scan(list, i + 1, path)
  {
    var moved := MoveToFront(list[i := list[i].(info := info)], i);
    MovedList(list, i, info);
    ScanSkips(moved, s + 1, i + 1, path);
    SameScan(list, moved, i + 1, path);
  }

  lemma MovedList(list: seq<Entry>, i: nat, info: SsInfo)
    requires i < |list|
    ensures
      var moved := MoveToFront(list[i := list[i].(info := info)], i);
      && (forall j :: 0 < j <= i ==> moved[j] == list[j - 1]) && (forall j :: i < j < |list| ==> moved[j] == list[j])
  {
    MoveToFrontAt(list[i := list[i].(info := info)], i);
  }

  lemma SlotMovesBack(c: Cache, i: nat, info: SsInfo, s: nat)
    requires ListInv(c) && s < i < |c.list| && ListInv(Touch(c, i, info))
    ensures Position(Touch(c, i, info).list, c.list[s].id) == s + 1
  {
    MovedList(c.list, i, info);
    PositionOf(Touch(c, i, info).list, s + 1);
  }

  lemma {:induction false} ScanSkips(list: seq<Entry>, start: nat, end: nat, path: Path)
    requires start <= end <= |list| && forall j :: start <= j < end ==> list[j].path != path
    ensures Scan(list, start, path) == Scan(list, end, path)
    decreases |list| - start
  {
    if start < end { ScanSkips(list, start + 1, end, path); }
  }

  lemma {:induction false} SameScan(a: seq<Entry>, b: seq<Entry>, start: nat, path: Path)
    requires |a| == |b| && forall j :: start <= j < |a| ==> a[j] == b[j]
    ensures Scan(a, start, path) == Scan(b, start, path)
    decreases |a| - start
  {
    if start < |a| { SameScan(a, b, start + 1, path); }
  }

  /** Three paths that share a slot. */
  const P: Path := [1]
  const Q: Path := [101]
  const R: Path := [1, 70]

  lemma SharedSlot()
    ensures Slot(P) == Slot(Q) == Slot(R) == 1
  {
    assert P[..0] == [] && Q[..0] == [] && R[..1] == P;
    assert HashWord(P) == 1 && HashWord(Q) == 101 && HashWord(R) == 101;
  }

  /** A lookup need not answer the value put last: the first put's node outlives the second's. */
  lemma LastPutNeedNotAnswer(first: SsInfo, last: SsInfo, other: SsInfo)
    ensures
      var ops := [PutOp(P, first), PutOp(Q, other), GetOp(P)] + [PutOp(P, last), PutOp(R, other), GetOp(P)];
      Get(Run(ops), P).1 == Some(first)
  {
    var start := [PutOp(P, first), PutOp(Q, other), GetOp(P)];
    var end := [PutOp(P, last), PutOp(R, other), GetOp(P)];
    RunOfThree(start);
    RunOnByThree(start, end);
    FirstHalf(first, last, other);
    SecondHalf(first, last, other);
  }

  lemma RunOfThree(ops: seq<Op>)
    requires |ops| == 3
    ensures Run(ops) == Apply(Apply(Apply(Empty(0), ops[0]), ops[1]), ops[2])
  {
    RunOnByThree([], ops);
    assert [] + ops == ops;
  }

  lemma RunOnByThree(before: seq<Op>, ops: seq<Op>)
    requires |ops| == 3
    ensures Run(before + ops) == Apply(Apply(Apply(Run(before), ops[0]), ops[1]), ops[2])
  {
    var all, n := before + ops, |before|;
    assert all[..n] == before && all[..n + 3] == all;
    RunStep(all, n);
    RunStep(all, n + 1);
    RunStep(all, n + 2);
  }

  function Slots1(h: Option<nat>): (s: seq<Option<nat>>)
    ensures |s| == LRU_CACHE_SIZE
  {
    Empty(0).slots[1 := h]
  }

  lemma FirstHalf(first: SsInfo, last: SsInfo, other: SsInfo)
    ensures Apply(Apply(Apply(Empty(0), PutOp(P, first)), PutOp(Q, other)), GetOp(P))
            == Cache([Entry(0, P, first), Entry(1, Q, other)], Slots1(Some(1)), 2)
  {
    SharedSlot();
    var p, q := Entry(0, P, first), Entry(1, Q, other);
    var c1, c2 := Cache([p], Slots1(Some(0)), 1), Cache([q, p], Slots1(Some(1)), 2);
    assert Apply(Empty(0), PutOp(P, first)) == c1;
    assert Apply(c1, PutOp(Q, other)) == c2 by { FindFrom(c1, Q, 0, 1); }
    assert Apply(c2, GetOp(P)) == Cache([p, q], Slots1(Some(1)), 2) by { FindFrom(c2, P, 0, 1); }
  }

  lemma SecondHalf(first: SsInfo, last: SsInfo, other: SsInfo)
    ensures var c3 := Cache([Entry(0, P, first), Entry(1, Q, other)], Slots1(Some(1)), 2);
            var c6 := Apply(Apply(Apply(c3, PutOp(P, last)), PutOp(R, other)), GetOp(P));
            Get(c6, P).1 == Some(first)
  {
    SharedSlot();
    var p, q, p', r := Entry(0, P, first), Entry(1, Q, other), Entry(2, P, last), Entry(3, R, other);
    var c3, c4 := Cache([p, q], Slots1(Some(1)), 2), Cache([p', p, q], Slots1(Some(2)), 3);
    var c5, c6 := Cache([r, p', p, q], Slots1(Some(3)), 4), Cache([p', r, p, q], Slots1(Some(3)), 4);
    assert Apply(c3, PutOp(P, last)) == c4 by { FindFrom(c3, P, 1, 2); }
    assert Apply(c4, PutOp(R, other)) == c5 by { FindFrom(c4, R, 0, 3); }
    assert Apply(c5, GetOp(P)) == c6 by { FindFrom(c5, P, 0, 1); }
    FindFrom(c6, P, 1, 2);
  }

  /** A scan that starts at `s` and first meets the path, or the end, at `i`. */
  lemma FindFrom(c: Cache, path: Path, s: nat, i: nat)
    requires |c.slots| == LRU_CACHE_SIZE && s < |c.list| && c.slots[Slot(path)] == Some(c.list[s].id)
    requires DistinctIds(c.list) && s <= i <= |c.list|
    requires (forall j :: s <= j < i ==> c.list[j].path != path) && (i < |c.list| ==> c.list[i].path == path)
    ensures Find(c, path) == if i < |c.list| then Some(i) else None
  {
    PositionOf(c.list, s);
    ScanSkips(c.list, s, i, path);
  }

  lemma RunStep(ops: seq<Op>, n: nat)
    requires n < |ops|
    ensures Run(ops[..n + 1]) == Apply(Run(ops[..n]), ops[n])
  {
    assert ops[..n + 1][..n] == ops[..n];
  }

  // ---------- removal ----------

  predicate Holds(c: Cache, path: Path) {
    exists i :: 0 <= i < |c.list| && c.list[i].path == path
  }

  /** After a removal no node holds the path exactly if the scan found its only node. */
  lemma RemoveForgets(c: Cache, path: Path)
    requires |c.slots| == LRU_CACHE_SIZE
    ensures !Holds(Remove(c, path), path)
       <==> forall i :: 0 <= i < |c.list| && c.list[i].path == path ==> Find(c, path) == Some(i)
  {
    match Find(c, path)
    case None =>
    case Some(k) =>
      WithoutAt(c.list, k);
      var d := Remove(c, path);
      forall i | 0 <= i < |c.list| && i != k ensures c.list[i] == d.list[if i < k then i else i - 1] {}
  }

  /** No slot but the path's own moves, and the slots stay sound exactly if that one did not move to a node
      of another hash. */
  lemma RemoveKeepsSlots(c: Cache, path: Path)
    requires Inv(c)
    ensures forall h :: 0 <= h < LRU_CACHE_SIZE && h != Slot(path) ==>
              Remove(c, path).slots[h] == c.slots[h] && SlotSound(Remove(c, path), h)
    ensures SlotInv(Remove(c, path))
       <==> match Find(c, path)
            case None => true
            case Some(i) =>
              || c.slots[Slot(path)] != Some(c.list[i].id)
              || i + 1 == |c.list|
              || Slot(c.list[i + 1].path) == Slot(path)
  {
    if Find(c, path).Some? {
      var i, h0, d := Find(c, path).value, Slot(path), Remove(c, path);
      forall h | 0 <= h < LRU_CACHE_SIZE && (h != h0 || c.slots[h0] != Some(c.list[i].id)) ensures SlotSound(d, h) {
        assert SlotSound(c, h);
        OtherSlotsStaySound(c, path, i, h);
      }
      if c.slots[h0] == Some(c.list[i].id) { OwnSlotMoves(c, path, i); }
    }
  }

  lemma OwnSlotMoves(c: Cache, path: Path, i: nat)
    requires Inv(c) && Find(c, path) == Some(i) && c.slots[Slot(path)] == Some(c.list[i].id)
    ensures SlotSound(Remove(c, path), Slot(path))
       <==> i + 1 == |c.list| || Slot(c.list[i + 1].path) == Slot(path)
  {
    var d := Remove(c, path);
    WithoutAt(c.list, i);
    RemoveKeepsList(c, path);
    if i + 1 < |c.list| {
      assert d.list[i] == c.list[i + 1];
    }
  }

  lemma OtherSlotsStaySound(c: Cache, path: Path, i: nat, h: nat)
    requires Inv(c) && Find(c, path) == Some(i) && h < LRU_CACHE_SIZE && c.slots[h] != Some(c.list[i].id)
    ensures SlotSound(Remove(c, path), h)
  {
    WithoutAt(c.list, i);
    assert SlotSound(c, h);
    if c.slots[h].Some? {
      var j :| 0 <= j < |c.list| && c.list[j].id == c.slots[h].value && Slot(c.list[j].path) == h;
      assert Remove(c, path).list[if j < i then j else j - 1] == c.list[j];
    }
  }

  /** Put A, put B, remove B: B's slot then points to A's node. */
  lemma SlotMovesToOtherHash(info: SsInfo)
    ensures
      var c := Run([PutOp(A, info)] + [PutOp(B, info)]);
      Inv(c) && !SlotInv(Remove(c, B)) && Live(Remove(c, B))
  {
    var c := Cache([Entry(1, B, info), Entry(0, A, info)], Empty(0).slots[1 := Some(0)][2 := Some(1)], 2);
    TwoSlots();
    var ops := [PutOp(A, info)] + [PutOp(B, info)];
    RunStep(ops, 0);
    RunStep(ops, 1);
    assert ops[..0] == [] && ops[..2] == ops;
    assert Apply(Empty(0), PutOp(A, info)) == Cache([Entry(0, A, info)], Empty(0).slots[1 := Some(0)], 1);
    assert Run(ops) == c;
    RunKeepsInv(ops);
    FindFrom(c, B, 0, 0);
    RemoveKeepsSlots(c, B);
    assert Remove(c, B).list == [Entry(0, A, info)];
  }

  const A: Path := [1]
  const B: Path := [2]

  lemma TwoSlots()
    ensures Slot(A) == 1 && Slot(B) == 2
  {
    assert A[..0] == [] && B[..0] == [];
    assert HashWord(A) == 1 && HashWord(B) == 2;
  }

  // ---------- freed nodes ----------

  /** A lookup leaves no slot behind. */
  lemma GetKeepsLive(c: Cache, path: Path)
    requires ListInv(c) && Live(c)
    ensures Live(Get(c, path).0)
  {
    if Find(c, path).Some? { TouchKeepsLive(c, Find(c, path).value, c.list[Find(c, path).value].info); }
  }

  lemma TouchKeepsLive(c: Cache, i: nat, info: SsInfo)
    requires |c.slots| == LRU_CACHE_SIZE && i < |c.list|
    ensures forall h :: 0 <= h < LRU_CACHE_SIZE ==> (SlotLive(Touch(c, i, info), h) <==> SlotLive(c, h))
  {
    var d := Touch(c, i, info);
    MoveToFrontAt(c.list[i := c.list[i].(info := info)], i);
    forall j | 0 <= j < |c.list| ensures c.list[j].id == d.list[if j == i then 0 else if j < i then j + 1 else j].id {}
    forall k | 0 <= k < |d.list| ensures d.list[k].id == c.list[if k == 0 then i else if k <= i then k - 1 else k].id {}
  }

  /** A removal frees a node that no slot is left pointing to exactly if no slot but the path's own pointed to it. */
  lemma RemoveKeepsLive(c: Cache, path: Path)
    requires ListInv(c) && Live(c)
    ensures Live(Remove(c, path))
       <==> match Find(c, path)
            case None => true
            case Some(i) => OnlyOwnSlot(c, Slot(path), c.list[i].id)
  {
    if Find(c, path).Some? {
      var i := Find(c, path).value;
      forall h | 0 <= h < LRU_CACHE_SIZE
        ensures SlotLive(Remove(c, path), h) <==> h == Slot(path) || c.slots[h] != Some(c.list[i].id)
      {
        RemoveKeepsSlotLive(c, path, h);
      }
    }
  }

  /** No slot but `own` points to the node `id`. */
  predicate OnlyOwnSlot(c: Cache, own: nat, id: nat)
    requires |c.slots| == LRU_CACHE_SIZE
  {
    forall h :: 0 <= h < LRU_CACHE_SIZE && h != own ==> c.slots[h] != Some(id)
  }

  /** Slot by slot: a removal leaves a slot pointing to the node it frees exactly if that is another path's. */
  lemma RemoveKeepsSlotLive(c: Cache, path: Path, h: nat)
    requires ListInv(c) && h < LRU_CACHE_SIZE && SlotLive(c, h)
    ensures SlotLive(Remove(c, path), h)
       <==> match Find(c, path)
            case None => true
            case Some(i) => h == Slot(path) || c.slots[h] != Some(c.list[i].id)
  {
    if Find(c, path).Some? {
      var i, d := Find(c, path).value, Remove(c, path);
      WithoutAt(c.list, i);
      if h == Slot(path) && c.slots[h] == Some(c.list[i].id) {
        if i + 1 < |c.list| { assert d.list[i] == c.list[i + 1]; }
      } else if c.slots[h].Some? {
        var j :| 0 <= j < |c.list| && c.list[j].id == c.slots[h].value;
        if j != i { assert d.list[if j < i then j else j - 1] == c.list[j]; }
      }
    }
  }

  /** The same for the node that a full cache gives up. */
  lemma EvictKeepsLive(c: Cache)
    requires ListInv(c) && Live(c) && c.list != []
    ensures
      var last := c.list[|c.list| - 1];
      Live(Evict(c)) <==> OnlyOwnSlot(c, Slot(last.path), last.id)
  {
    EvictAndLive(c);
  }

  lemma EvictAndLive(c: Cache)
    requires ListInv(c) && Live(c) && c.list != []
    ensures
      var last := c.list[|c.list| - 1];
      forall h :: 0 <= h < LRU_CACHE_SIZE ==>
        (SlotLive(Evict(c), h) <==> h == Slot(last.path) || c.slots[h] != Some(last.id))
  {
    var d, n := Evict(c), |c.list| - 1;
    var own := Slot(c.list[n].path);
    forall h | 0 <= h < LRU_CACHE_SIZE ensures SlotLive(d, h) <==> h == own || c.slots[h] != Some(c.list[n].id) {
      assert SlotLive(c, h);
      if c.slots[h].Some? {
        var j :| 0 <= j < |c.list| && c.list[j].id == c.slots[h].value;
        if j != n { assert d.list[j] == c.list[j]; }
      }
    }
  }

  /** A put does not, unless it evicts a node that a slot other than the node's own and the path's points to. */
  lemma PutKeepsLive(c: Cache, path: Path, info: SsInfo)
    requires ListInv(c) && Live(c)
    ensures Live(Put(c, path, info))
       <==> || Find(c, path).Some? || |c.list| < LRU_CACHE_SIZE
            || (var last := c.list[|c.list| - 1];
                forall h :: 0 <= h < LRU_CACHE_SIZE && h != Slot(last.path) && h != Slot(path) ==>
                  c.slots[h] != Some(last.id))
  {
    if Find(c, path).Some? {
      TouchKeepsLive(c, Find(c, path).value, info);
    } else if |c.list| < LRU_CACHE_SIZE {
      PushAndLive(c, path, info);
    } else {
      EvictKeepsList(c);
      EvictAndLive(c);
      PushAndLive(Evict(c), path, info);
    }
  }

  /** A new node makes its own slot live and revives no other. */
  lemma PushAndLive(c: Cache, path: Path, info: SsInfo)
    requires ListInv(c)
    ensures forall h :: 0 <= h < LRU_CACHE_SIZE ==>
              (SlotLive(Push(c, path, info), h) <==> h == Slot(path) || SlotLive(c, h))
  {
    var d := Push(c, path, info);
    assert d.list[0].id == c.nextId;
    forall j | 0 <= j < |c.list| ensures d.list[j + 1] == c.list[j] {}
  }
}
