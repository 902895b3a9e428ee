/** What clients are told about a path after it was deleted, and when the program's answer is defined at all. */
module NamingDeleted {
  import opened Paths
  import opened Protocol
  import opened LruSpec
  import opened LruTheorems
  import opened NamingSpec
  import opened NamingCache

  // ---------- freed nodes ----------

  /** Serving the request follows no pointer to a freed node. */
  predicate Defined(d: Naming, e: Event)
    requires Sane(d)
  {
    match e.command
    case LocateFile(path) => SlotLive(d.cache, Slot(path))
    case DeleteFile(path) => path in d.trie && Succeeded(e.reply) ==> SlotLive(d.cache, Slot(path))
    case _ => true
  }

  /** The request frees no node that a slot keeps pointing to. */
  predicate FreesCleanly(d: Naming, e: Event)
    requires Sane(d)
  {
    match e.command
    case DeleteFile(path) =>
      path in d.trie && Succeeded(e.reply) && Find(d.cache, path).Some? ==>
        OnlyOwnSlot(d.cache, Slot(path), d.cache.list[Find(d.cache, path).value].id)
    case LocateFile(path) =>
      path in d.trie && Find(d.cache, path) == None && |d.cache.list| == LRU_CACHE_SIZE ==>
        var last := d.cache.list[LRU_CACHE_SIZE - 1];
        forall h :: 0 <= h < LRU_CACHE_SIZE && h != Slot(last.path) && h != Slot(path) ==>
          d.cache.slots[h] != Some(last.id)
    case _ => true
  }

  /** While no slot points to a freed node every request is defined, and none does afterwards exactly if the request
      frees cleanly. */
  lemma LiveStepsAreDefined(d: Naming, d': Naming, e: Event)
    requires Sane(d) && ListInv(d.cache) && Live(d.cache) && Serves(d, d', e)
    ensures Defined(d, e) && ListInv(d'.cache)
    ensures Live(d'.cache) <==> FreesCleanly(d, e)
  {
    match e.command
    case DeleteFile(path) =>
      if path in d.trie && Succeeded(e.reply) {
        RemoveKeepsList(d.cache, path);
        RemoveKeepsLive(d.cache, path);
      }
    case LocateFile(path) =>
      GetKeepsList(d.cache, path);
      GetKeepsLive(d.cache, path);
      if Find(d.cache, path) == None && path in d.trie {
        PutKeepsList(d.cache, path, d.servers[d.trie[path]].info);
        PutKeepsLive(d.cache, path, d.servers[d.trie[path]].info);
      }
    case _ =>
  }

  lemma RunKeepsList(ds: seq<Naming>, es: seq<Event>, k: nat)
    requires IsRun(ds, es) && k < |ds|
    ensures ListInv(ds[k].cache)
  {
    for j := 0 to k
      invariant ListInv(ds[j].cache)
    {
      assert Serves(ds[j], ds[j + 1], es[j]);
      ServesKeepsList(ds[j], ds[j + 1], es[j]);
    }
  }

  lemma ServesKeepsList(d: Naming, d': Naming, e: Event)
    requires Sane(d) && ListInv(d.cache) && Serves(d, d', e)
    ensures ListInv(d'.cache)
  {
    match e.command
    case DeleteFile(path) => RemoveKeepsList(d.cache, path);
    case LocateFile(path) =>
      GetKeepsList(d.cache, path);
      if path in d.trie { PutKeepsList(d.cache, path, d.servers[d.trie[path]].info); }
    case _ =>
  }

  ghost predicate LiveAt(ds: seq<Naming>, j: nat)
    requires j < |ds|
  {
    Live(ds[j].cache)
  }

  ghost predicate CleanAt(ds: seq<Naming>, es: seq<Event>, j: nat)
    requires Serving(ds, es) && j < |es|
  {
    FreesCleanly(ds[j], es[j])
  }

  ghost predicate AllLive(ds: seq<Naming>, k: nat)
    requires k < |ds|
  {
    forall j :: 0 <= j <= k ==> LiveAt(ds, j)
  }

  ghost predicate AllClean(ds: seq<Naming>, es: seq<Event>, k: nat)
    requires Serving(ds, es) && k <= |es|
  {
    forall j :: 0 <= j < k ==> CleanAt(ds, es, j)
  }

  /** In every run, no slot has pointed to a freed node at any moment so far exactly if all requests so far freed
      cleanly. */
  lemma {:induction false} CleanRunsStayLive(ds: seq<Naming>, es: seq<Event>, k: nat)
    requires IsRun(ds, es) && k < |ds|
    ensures AllLive(ds, k) <==> AllClean(ds, es, k)
  {
    if k == 0 {
      assert LiveAt(ds, 0);
    } else {
      CleanRunsStayLive(ds, es, k - 1);
      RunKeepsList(ds, es, k - 1);
      assert AllLive(ds, k) <==> AllLive(ds, k - 1) && LiveAt(ds, k);
      assert AllClean(ds, es, k) <==> AllClean(ds, es, k - 1) && CleanAt(ds, es, k - 1);
      if AllLive(ds, k - 1) {
        assert LiveAt(ds, k - 1);
        NextIsLive(ds, es, k - 1);
      }
    }
  }

  /** And then the next request is defined. */
  lemma CleanRunsAreDefined(ds: seq<Naming>, es: seq<Event>, k: nat)
    requires IsRun(ds, es) && k < |es| && AllClean(ds, es, k)
    ensures Defined(ds[k], es[k])
  {
    CleanRunsStayLive(ds, es, k);
    RunKeepsList(ds, es, k);
    assert LiveAt(ds, k) && Serves(ds[k], ds[k + 1], es[k]);
    LiveStepsAreDefined(ds[k], ds[k + 1], es[k]);
  }

  lemma NextIsLive(ds: seq<Naming>, es: seq<Event>, k: nat)
    requires Serving(ds, es) && k < |es| && ListInv(ds[k].cache) && LiveAt(ds, k)
    ensures k + 1 < |ds| && (LiveAt(ds, k + 1) <==> CleanAt(ds, es, k))
  {
    assert Serves(ds[k], ds[k + 1], es[k]);
    LiveStepsAreDefined(ds[k], ds[k + 1], es[k]);
  }

  /** In runs without DELETE all slots stay sound, so no freed node is ever followed. */
  lemma RunsWithoutDeleteAreDefined(ds: seq<Naming>, es: seq<Event>, k: nat)
    requires IsRun(ds, es) && k < |es| && forall j :: 0 <= j < k ==> !es[j].command.DeleteFile?
    ensures Inv(ds[k].cache) && Live(ds[k].cache) && Defined(ds[k], es[k])
  {
    EmptyIsInv();
    for j := 0 to k
      invariant Inv(ds[j].cache)
    {
      assert Serves(ds[j], ds[j + 1], es[j]);
      ServesKeepsInv(ds[j], ds[j + 1], es[j]);
    }
    forall h | 0 <= h < LRU_CACHE_SIZE ensures SlotLive(ds[k].cache, h) { assert SlotSound(ds[k].cache, h); }
  }

  lemma ServesKeepsInv(d: Naming, d': Naming, e: Event)
    requires Sane(d) && Inv(d.cache) && Serves(d, d', e) && !e.command.DeleteFile?
    ensures Inv(d'.cache)
  {
    if e.command.LocateFile? {
      var path := e.command.path;
      GetKeepsInv(d.cache, path);
      if path in d.trie { PutKeepsInv(d.cache, path, d.servers[d.trie[path]].info); }
    }
  }

  /** REGISTER A and B, READ A, READ B, DELETE B, DELETE A: the slot of B is left pointing to A's node, and the next
      READ B follows it. */
  lemma FreedNodeIsFollowed(info: SsInfo) returns (ds: seq<Naming>, es: seq<Event>)
    ensures IsRun(ds, es) && |es| == 5 && forall k :: 0 <= k < |es| ==> Defined(ds[k], es[k])
    ensures ds[5].cache.list == [] && ds[5].cache.slots[Slot(B)] == Some(0)
    ensures forall e: Event :: e.command == LocateFile(B) ==> !Defined(ds[5], e)
  {
    FreeingCaches(info);
    DeletesBoth(info);
    ds, es := BothAreCached(info);
    var (c1, c2, c3, c4) := FreedCaches(info);
    var ok := Answer(true, SUCCESS);
    var d4 := Naming([Record(info, [A])], map[A := 0], c3, 0);
    var d5 := Naming([Record(info, [])], map[], c4, 0);
    Extends(ds, es, d4, Event(DeleteFile(B), ok, ACK));
    ds, es := ds + [d4], es + [Event(DeleteFile(B), ok, ACK)];
    Extends(ds, es, d5, Event(DeleteFile(A), ok, ACK));
    ds, es := ds + [d5], es + [Event(DeleteFile(A), ok, ACK)];
  }

  lemma BothAreCached(info: SsInfo) returns (ds: seq<Naming>, es: seq<Event>)
    ensures IsRun(ds, es) && |es| == 3 && forall k :: 0 <= k < |es| ==> Defined(ds[k], es[k])
    ensures ds[3] == Naming([Record(info, [A, B])], map[A := 0, B := 0], FreedCaches(info).1, 0)
  {
    FreeingCaches(info);
    RegisterBoth(info);
    var (c1, c2, c3, c4) := FreedCaches(info);
    var d1 := Naming([Record(info, [A, B])], map[A := 0, B := 0], Empty(0), 0);
    ds, es := [Start()], [];
    Extends(ds, es, d1, Event(RegisterSs(info, [A, B]), Silent, ACK));
    ds, es := ds + [d1], es + [Event(RegisterSs(info, [A, B]), Silent, ACK)];
    Misses(d1, A, c1);
    Extends(ds, es, d1.(cache := c1), Asked(A, Directed(info)));
    ds, es := ds + [d1.(cache := c1)], es + [Asked(A, Directed(info))];
    Misses(d1.(cache := c1), B, c2);
    Extends(ds, es, d1.(cache := c2), Asked(B, Directed(info)));
    ds, es := ds + [d1.(cache := c2)], es + [Asked(B, Directed(info))];
  }

  /** After READ A, READ B, DELETE B and DELETE A. */
  function FreedCaches(info: SsInfo): (Cache, Cache, Cache, Cache) {
    var a, b, none := Entry(0, A, info), Entry(1, B, info), Empty(0).slots;
    (Cache([a], none[1 := Some(0)], 1), Cache([b, a], none[1 := Some(0)][2 := Some(1)], 2),
     Cache([a], none[1 := Some(0)][2 := Some(0)], 2), Cache([], none[2 := Some(0)], 2))
  }

  lemma FreeingCaches(info: SsInfo)
    ensures
      var (c1, c2, c3, c4) := FreedCaches(info);
      && Get(Empty(0), A) == (Empty(0), None) && Put(Empty(0), A, info) == c1
      && Get(c1, B) == (c1, None) && Put(c1, B, info) == c2 && Remove(c2, B) == c3 && Remove(c3, A) == c4
      && SlotLive(Empty(0), 1) && SlotLive(c1, 2) && SlotLive(c2, 2) && SlotLive(c3, 1) && Slot(A) == 1 && Slot(B) == 2
  {
    TwoSlots();
    var (c1, c2, c3, c4) := FreedCaches(info);
    assert Put(Empty(0), A, info) == c1;
    assert Put(c1, B, info) == c2;
    FindFrom(c2, B, 0, 0);
    assert Remove(c2, B).list == c3.list && Remove(c2, B).slots == c3.slots;
    FindFrom(c3, A, 0, 0);
    assert Remove(c3, A).list == c4.list && Remove(c3, A).slots == c4.slots;
    assert c2.list[0].id == 1 && c3.list[0].id == 0;
  }

  lemma RegisterBoth(info: SsInfo)
    ensures Register(Start(), info, [A, B])
            == (Naming([Record(info, [A, B])], map[A := 0, B := 0], Empty(0), 0), ACK)
  {
    assert [A, B][..1] == [A] && [A][..0] == [];
    assert InsertAll(map[], [A, B], 0) == map[A := 0, B := 0];
    assert Start().servers + [Record(info, [A, B])] == [Record(info, [A, B])];
  }

  lemma DeletesBoth(info: SsInfo)
    ensures
      var (c1, c2, c3, c4) := FreedCaches(info);
      && Delete(Naming([Record(info, [A, B])], map[A := 0, B := 0], c2, 0), B, Answer(true, SUCCESS))
         == (Naming([Record(info, [A])], map[A := 0], c3, 0), ACK)
      && Delete(Naming([Record(info, [A])], map[A := 0], c3, 0), A, Answer(true, SUCCESS))
         == (Naming([Record(info, [])], map[], c4, 0), ACK)
  {
    FreeingCaches(info);
    assert A[0] != B[0] && FirstIndex([A, B], B, 0) == 1 && FirstIndex([A], A, 0) == 0;
    assert RemovePath([A, B], B) == [A] && RemovePath([A], A) == [];
    assert map[A := 0, B := 0] - {B} == map[A := 0] && map[A := 0] - {A} == map[];
    assert [Record(info, [A, B])][0 := Record(info, [A])] == [Record(info, [A])];
    assert [Record(info, [A])][0 := Record(info, [])] == [Record(info, [])];
  }

  // ---------- deleted paths ----------

  /** Requests follow from `d` on, each defined, and none of them maps `path`. */
  ghost predicate Continues(ds: seq<Naming>, es: seq<Event>, d: Naming, path: Path) {
    && Serving(ds, es) && ds[0] == d
    && (forall k :: 0 <= k < |es| ==> Defined(ds[k], es[k]))
    && forall k :: 0 <= k < |ds| ==> path !in ds[k].trie
  }

  /** Until the path is mapped again, every client that asks for it is told that it is not there. */
  ghost predicate StaysHidden(d: Naming, path: Path) {
    forall ds: seq<Naming>, es: seq<Event>, k ::
      Continues(ds, es, d, path) && 0 <= k < |es| && es[k].command == LocateFile(path) ==>
        es[k].response == Nack(FILE_NOT_FOUND)
  }

  /** Whether a deleted path stays hidden is decided before the DELETE, in every run and for every DELETE that follows
      no freed node: exactly if the scan from the path's slot will find the path's only node, or there is none. */
  lemma DeletedPathStaysHidden(ds: seq<Naming>, es: seq<Event>, k: nat, path: Path)
    requires IsRun(ds, es) && k < |ds| && path in ds[k].trie && SlotLive(ds[k].cache, Slot(path))
    ensures
      var c := ds[k].cache;
      StaysHidden(Delete(ds[k], path, Answer(true, SUCCESS)).0, path)
      <==> forall i :: 0 <= i < |c.list| && c.list[i].path == path ==> Find(c, path) == Some(i)
  {
    RunIsAnchored(ds, es, k);
    DeleteDecides(ds[k], path);
  }

  lemma DeleteDecides(d: Naming, path: Path)
    requires Sane(d) && Anchored(d) && path in d.trie && SlotLive(d.cache, Slot(path))
    ensures StaysHidden(Delete(d, path, Answer(true, SUCCESS)).0, path)
       <==> forall i :: 0 <= i < |d.cache.list| && d.cache.list[i].path == path ==> Find(d.cache, path) == Some(i)
  {
    var d' := Delete(d, path, Answer(true, SUCCESS)).0;
    RemoveForgets(d.cache, path);
    if Holds(d'.cache, path) {
      var ds, es := HeldPathSurfaces(d, path);
      assert es[|es| - 1].response != Nack(FILE_NOT_FOUND);
    } else {
      forall ds: seq<Naming>, es: seq<Event>, k |
        Continues(ds, es, d', path) && 0 <= k < |es| && es[k].command == LocateFile(path)
        ensures es[k].response == Nack(FILE_NOT_FOUND)
      {
        NotHeldMeanwhile(ds, es, d', path, k);
        NotHeldNotFound(ds[k], ds[k + 1], es[k], path);
      }
    }
  }

  // a path that no node holds

  lemma NotHeldNotFound(d: Naming, d': Naming, e: Event, path: Path)
    requires Sane(d) && !Holds(d.cache, path) && path !in d.trie && Serves(d, d', e)
    ensures e.command == LocateFile(path) ==> e.response == Nack(FILE_NOT_FOUND)
    ensures !Holds(d'.cache, path)
  {
    match e.command
    case LocateFile(q) =>
      var i := Find(d.cache, q);
      if i.Some? {
        TouchHoldsSame(d.cache, i.value, d.cache.list[i.value].info, path);
      } else if q in d.trie {
        var c := if |d.cache.list| == LRU_CACHE_SIZE then Evict(d.cache) else d.cache;
        forall j | 0 <= j < |c.list| ensures c.list[j].path != path { assert c.list[j] == d.cache.list[j]; }
      }
    case DeleteFile(q) =>
      if q in d.trie && Succeeded(e.reply) {
        forall i | 0 <= i < |d'.cache.list| ensures d'.cache.list[i].path != path {
          RemoveOnlyRemoves(d.cache, q, i);
        }
      }
    case _ =>
  }

  lemma TouchHoldsSame(c: Cache, i: nat, info: SsInfo, path: Path)
    requires i < |c.list| && !Holds(c, path)
    ensures !Holds(Touch(c, i, info), path)
  {
    MoveToFrontAt(c.list[i := c.list[i].(info := info)], i);
  }

  lemma NotHeldMeanwhile(ds: seq<Naming>, es: seq<Event>, d: Naming, path: Path, k: nat)
    requires Continues(ds, es, d, path) && !Holds(d.cache, path) && k <= |es|
    ensures !Holds(ds[k].cache, path)
  {
    for j := 0 to k
      invariant !Holds(ds[j].cache, path)
    {
      assert Serves(ds[j], ds[j + 1], es[j]);
      NotHeldNotFound(ds[j], ds[j + 1], es[j], path);
    }
  }

  // a path that some node still holds

  /** The node at `i` is what its own slot points to, and its path is mapped. */
  predicate Anchors(d: Naming, i: nat)
    requires Sane(d)
  {
    && i < |d.cache.list| && d.cache.list[i].path in d.trie
    && d.cache.slots[Slot(d.cache.list[i].path)] == Some(d.cache.list[i].id)
  }

  /** A full cache has such a node: the one put last. */
  predicate Anchored(d: Naming)
    requires Sane(d)
  {
    ListInv(d.cache) && (|d.cache.list| == LRU_CACHE_SIZE ==> exists i :: 0 <= i < |d.cache.list| && Anchors(d, i))
  }

  /** The scan for its path finds it. */
  lemma AnchorIsFound(d: Naming, i: nat)
    requires Sane(d) && ListInv(d.cache) && Anchors(d, i)
    ensures Find(d.cache, d.cache.list[i].path) == Some(i)
  {
    FindFrom(d.cache, d.cache.list[i].path, i, i);
  }

  lemma TouchKeepsAnchor(d: Naming, i: nat, info: SsInfo, a: nat)
    requires Sane(d) && i < |d.cache.list| && Anchors(d, a)
    ensures exists b :: 0 <= b < |d.cache.list| && Anchors(d.(cache := Touch(d.cache, i, info)), b)
  {
    MoveToFrontAt(d.cache.list[i := d.cache.list[i].(info := info)], i);
    assert Anchors(d.(cache := Touch(d.cache, i, info)), if a == i then 0 else if a < i then a + 1 else a);
  }

  lemma ServesKeepsAnchored(d: Naming, d': Naming, e: Event)
    requires Sane(d) && Anchored(d) && Serves(d, d', e)
    ensures Anchored(d')
  {
    ServesKeepsList(d, d', e);
    if |d'.cache.list| == LRU_CACHE_SIZE {
      match e.command
      case LocateFile(path) => LocateKeepsAnchor(d, d', path);
      case DeleteFile(path) =>
        assert d'.cache.list == d.cache.list && d'.cache.slots == d.cache.slots;
        var a :| 0 <= a < |d.cache.list| && Anchors(d, a);
        AnchorIsFound(d, a);
        assert Anchors(d', a);
      case _ =>
        var a :| 0 <= a < |d.cache.list| && Anchors(d, a);
        assert Anchors(d', a);
    }
  }

  lemma LocateKeepsAnchor(d: Naming, d': Naming, path: Path)
    requires Sane(d) && Anchored(d) && d' == Locate(d, path).0 && |d'.cache.list| == LRU_CACHE_SIZE
    ensures exists b :: 0 <= b < |d'.cache.list| && Anchors(d', b)
  {
    var i := Find(d.cache, path);
    if i == None && path in d.trie {
      assert Anchors(d', 0);
    } else {
      var a :| 0 <= a < |d.cache.list| && Anchors(d, a);
      if i.Some? { TouchKeepsAnchor(d, i.value, d.cache.list[i.value].info, a); } else { assert Anchors(d', a); }
    }
  }

  lemma RunIsAnchored(ds: seq<Naming>, es: seq<Event>, k: nat)
    requires IsRun(ds, es) && k < |ds|
    ensures Anchored(ds[k])
  {
    for j := 0 to k
      invariant Anchored(ds[j])
    {
      assert Serves(ds[j], ds[j + 1], es[j]);
      ServesKeepsAnchored(ds[j], ds[j + 1], es[j]);
    }
  }

  /** Paths of one slot: in front of a byte that decides the slot, a pair of characters that hash to 0, any number of
      times. */
  function Colliding(h: nat, n: nat): (r: Path)
    requires h < LRU_CACHE_SIZE
    ensures |r| == 2 * n + 1
  {
    if n == 0 then [(if h == 0 then 100 else h) as PathByte] else [1, 225] + Colliding(h, n - 1)
  }

  lemma {:induction false} NothingInFront(p: Path)
    ensures HashWord([1, 225] + p) == HashWord(p)
  {
    var all: Path := [1, 225] + p;
    if p == [] {
      assert all == [1, 225] && all[..1] == [1] && all[..1][..0] == [];
      assert HashWord(all[..1]) == 1;
    } else {
      assert all[..|all| - 1] == [1, 225] + p[..|p| - 1];
      NothingInFront(p[..|p| - 1]);
    }
  }

  lemma {:induction false} CollidingSlot(h: nat, n: nat)
    requires h < LRU_CACHE_SIZE
    ensures Slot(Colliding(h, n)) == h
  {
    if n == 0 {
      var p := Colliding(h, 0);
      assert p[..0] == [] && HashWord(p) == if h == 0 then 100 else h;
    } else {
      NothingInFront(Colliding(h, n - 1));
      CollidingSlot(h, n - 1);
    }
  }

  lemma {:induction false} FreshFrom(h: nat, k: nat, taken: set<Path>) returns (n: nat)
    requires h < LRU_CACHE_SIZE
    ensures k <= n <= k + |taken| && Colliding(h, n) !in taken
    decreases |taken|
  {
    n := k;
    if Colliding(h, k) in taken { n := FreshFrom(h, k + 1, taken - {Colliding(h, k)}); }
  }

  lemma {:induction false} FewPaths(list: seq<Entry>)
    ensures |set i | 0 <= i < |list| :: list[i].path| <= |list|
  {
    var all := set i | 0 <= i < |list| :: list[i].path;
    if list == [] { assert all == {}; } else {
      var n := |list| - 1;
      var before := set i | 0 <= i < n :: list[..n][i].path;
      FewPaths(list[..n]);
      assert all == before + {list[n].path} by {
        forall i | 0 <= i < n ensures list[i].path in before { assert list[..n][i].path in before; }
      }
    }
  }

  /** There is always a possible path that shares the slot, is another path and is not cached. */
  lemma FreshCollision(c: Cache, path: Path) returns (r: Path)
    requires |c.list| <= LRU_CACHE_SIZE
    ensures Slot(r) == Slot(path) && r != path && !Holds(c, r) && |r| < MAX_PATH_LEN
  {
    var held := set i | 0 <= i < |c.list| :: c.list[i].path;
    FewPaths(c.list);
    var n := FreshFrom(Slot(path), 0, held + {path});
    CollidingSlot(Slot(path), n);
    r := Colliding(Slot(path), n);
    assert forall i :: 0 <= i < |c.list| ==> c.list[i].path in held;
  }

  lemma GoesOn(ds: seq<Naming>, es: seq<Event>, d: Naming, path: Path, d': Naming, e: Event)
    requires Continues(ds, es, d, path) && Serves(ds[|es|], d', e) && Defined(ds[|es|], e) && path !in d'.trie
    ensures Continues(ds + [d'], es + [e], d, path)
  {
    Extends(ds, es, d', e);
    var es' := es + [e];
    forall k | 0 <= k < |es'| ensures Defined((ds + [d'])[k], es'[k]) {
      assert k < |es| ==> (ds + [d'])[k] == ds[k] && es'[k] == es[k];
    }
  }

  /** What a put of a new path leaves of the others. */
  function Spared(c: Cache): Cache
    requires |c.slots| == LRU_CACHE_SIZE
  {
    if |c.list| == LRU_CACHE_SIZE then Evict(c) else c
  }

  /** CREATE a path of the same slot, READ it, READ the deleted path: it is found, unless its node was evicted. */
  lemma SparedPathSurfaces(ds: seq<Naming>, es: seq<Event>, d: Naming, path: Path)
    returns (ds': seq<Naming>, es': seq<Event>)
    requires Continues(ds, es, d, path) && ds[|es|].servers != []
    requires var c := ds[|es|].cache;
             ListInv(c) && SlotLive(c, Slot(path)) && Holds(Spared(c), path)
    ensures Continues(ds', es', d, path) && es' != []
    ensures es'[|es'| - 1].command == LocateFile(path) && es'[|es'| - 1].response.ack
  {
    var last := ds[|es|];
    var r := FreshCollision(last.cache, path);
    var ok := Answer(true, SUCCESS);
    var created := Create(last, r, ok).0;
    var e1 := Event(CreateFile(r, PlainFile), ok, Create(last, r, ok).1);
    GoesOn(ds, es, d, path, created, e1);
    ds', es' := ds + [created], es + [e1];
    var read := Locate(created, r).0;
    var e2 := Asked(r, Locate(created, r).1);
    GoesOn(ds', es', d, path, read, e2);
    ds', es' := ds' + [read], es' + [e2];
    var info := created.servers[created.trie[r]].info;
    assert read.cache == Push(Spared(last.cache), r, info);
    if |last.cache.list| == LRU_CACHE_SIZE { EvictKeepsList(last.cache); }
    PushAndLive(Spared(last.cache), r, info);
    FoundBehindFirst(Spared(last.cache), r, info, path);
    var e3 := Asked(path, Locate(read, path).1);
    GoesOn(ds', es', d, path, Locate(read, path).0, e3);
    ds', es' := ds' + [Locate(read, path).0], es' + [e3];
  }

  lemma FoundBehindFirst(c: Cache, r: Path, info: SsInfo, path: Path)
    requires ListInv(c) && Holds(c, path) && Slot(r) == Slot(path)
    ensures Find(Push(c, r, info), path).Some?
  {
    var d := Push(c, r, info);
    var i :| 0 <= i < |c.list| && c.list[i].path == path;
    assert d.list[0].id == c.nextId && d.list[i + 1].path == path;
    assert Position(d.list, c.nextId) == 0;
  }

  /** A path that the scan missed although its slot is set lies before the slot's node, so it is not the last. */
  lemma MissedIsSpared(c: Cache, path: Path)
    requires ListInv(c) && SlotLive(c, Slot(path)) && c.slots[Slot(path)].Some?
    requires Find(c, path) == None && Holds(c, path)
    ensures Holds(Spared(c), path)
  {
    var s :| 0 <= s < |c.list| && c.list[s].id == c.slots[Slot(path)].value;
    PositionOf(c.list, s);
    var i :| 0 <= i < |c.list| && c.list[i].path == path;
    assert i < s;
    assert Spared(c).list[i] == c.list[i];
  }

  /** What a cached node that outlives the DELETE leads to. */
  lemma HeldPathSurfaces(d: Naming, path: Path) returns (ds: seq<Naming>, es: seq<Event>)
    requires Sane(d) && Anchored(d) && path in d.trie && SlotLive(d.cache, Slot(path))
    requires Holds(Delete(d, path, Answer(true, SUCCESS)).0.cache, path)
    ensures Continues(ds, es, Delete(d, path, Answer(true, SUCCESS)).0, path) && es != []
    ensures es[|es| - 1].command == LocateFile(path) && es[|es| - 1].response.ack
  {
    var d' := Delete(d, path, Answer(true, SUCCESS)).0;
    RemoveKeepsList(d.cache, path);
    RemoveKeepsSlotLive(d.cache, path, Slot(path));
    ds, es := [d'], [];
    if |d'.cache.list| == LRU_CACHE_SIZE {
      assert Find(d.cache, path) == None && d'.cache == d.cache;
      if d.cache.slots[Slot(path)].Some? {
        MissedIsSpared(d.cache, path);
      } else {
        var x := AnchorToDelete(d, path);
        MakesRoom(d.cache, x, path);
        var ok := Answer(true, SUCCESS);
        GoesOn(ds, es, d', path, Delete(d', x, ok).0, Event(DeleteFile(x), ok, ACK));
        ds, es := ds + [Delete(d', x, ok).0], es + [Event(DeleteFile(x), ok, ACK)];
      }
    }
    ds, es := SparedPathSurfaces(ds, es, d', path);
  }

  /** A full cache in which the path is not found holds another one that is. */
  lemma AnchorToDelete(d: Naming, path: Path) returns (x: Path)
    requires Sane(d) && Anchored(d) && |d.cache.list| == LRU_CACHE_SIZE && Find(d.cache, path) == None
    ensures x != path && x in d.trie && Find(d.cache, x).Some? && SlotLive(d.cache, Slot(x))
  {
    var a :| 0 <= a < |d.cache.list| && Anchors(d, a);
    AnchorIsFound(d, a);
    x := d.cache.list[a].path;
  }

  lemma MakesRoom(c: Cache, x: Path, path: Path)
    requires ListInv(c) && Find(c, x).Some? && x != path && Holds(c, path) && c.slots[Slot(path)] == None
    ensures ListInv(Remove(c, x)) && |Remove(c, x).list| < LRU_CACHE_SIZE
    ensures Holds(Remove(c, x), path) && SlotLive(Remove(c, x), Slot(path))
  {
    var i := Find(c, x).value;
    RemoveKeepsList(c, x);
    RemoveKeepsSlotLive(c, x, Slot(path));
    WithoutAt(c.list, i);
    var j :| 0 <= j < |c.list| && c.list[j].path == path;
    assert Remove(c, x).list[if j < i then j else j - 1] == c.list[j];
  }
}
