/** When the cache makes no difference to what clients are told, and when it does. */
module NamingCache {
  import opened Paths
  import opened Protocol
  import opened LruSpec
  import opened NamingSpec
  import opened LruTheorems

  /** A cached node says what the trie would say. */
  predicate Current(d: Naming, e: Entry)
    requires Sane(d)
  {
    e.path in d.trie && d.servers[d.trie[e.path]].info == e.info
  }

  predicate Coherent(d: Naming) {
    Sane(d) && Inv(d.cache) && forall i :: 0 <= i < |d.cache.list| ==> Current(d, d.cache.list[i])
  }

  /** No path is deleted, and servers advertise new paths only. */
  predicate Plain(d: Naming, e: Event) {
    !e.command.DeleteFile? && (e.command.RegisterSs? ==> forall i :: 0 <= i < |e.command.paths| ==>
                                                           e.command.paths[i] !in d.trie)
  }

  /** With a coherent cache the answer is the trie's, hit or miss, and the cache stays coherent. */
  lemma LocateIsTransparent(d: Naming, path: Path)
    requires Coherent(d)
    ensures Locate(d, path).1 == Located(d, path)
    ensures Coherent(Locate(d, path).0)
  {
    GetKeepsInv(d.cache, path);
    match Find(d.cache, path)
    case Some(i) =>
      assert Current(d, d.cache.list[i]);
      TouchKeepsCurrent(d, i, d.cache.list[i].info);
    case None =>
      if path in d.trie { PutKeepsCurrent(d, path, d.servers[d.trie[path]].info); }
  }

  lemma TouchKeepsCurrent(d: Naming, i: nat, info: SsInfo)
    requires Coherent(d) && i < |d.cache.list| && Current(d, d.cache.list[i].(info := info))
    ensures Coherent(d.(cache := Touch(d.cache, i, info)))
  {
    TouchKeepsInv(d.cache, i, info);
    var list := Touch(d.cache, i, info).list;
    forall j | 0 <= j < |list| ensures Current(d, list[j]) {
      assert list[j] in list;
      if list[j] in d.cache.list { var k :| 0 <= k < |d.cache.list| && d.cache.list[k] == list[j]; }
    }
  }

  lemma PutKeepsCurrent(d: Naming, path: Path, info: SsInfo)
    requires Coherent(d) && path in d.trie && info == d.servers[d.trie[path]].info
    ensures Coherent(d.(cache := Put(d.cache, path, info)))
  {
    PutKeepsInv(d.cache, path, info);
    match Find(d.cache, path)
    case Some(i) => TouchKeepsCurrent(d, i, info);
    case None =>
      var c := if |d.cache.list| == LRU_CACHE_SIZE then Evict(d.cache) else d.cache;
      forall j | 0 <= j < |c.list| ensures Current(d, c.list[j]) { assert c.list[j] == d.cache.list[j]; }
  }

  /** A registration keeps the cache coherent exactly if no cached path moves to a server with another address. */
  lemma RegisterKeepsCoherent(d: Naming, info: SsInfo, paths: seq<Path>)
    requires Coherent(d) && |d.servers| < MAX_SS
    ensures Coherent(Register(d, info, paths).0)
       <==> forall i :: 0 <= i < |d.cache.list| && d.cache.list[i].path in paths ==> d.cache.list[i].info == info
  {
    var d' := Register(d, info, paths).0;
    forall i | 0 <= i < |d.cache.list|
      ensures Current(d', d.cache.list[i])
         <==> (d.cache.list[i].path in paths ==> d.cache.list[i].info == info)
    {
      assert Current(d, d.cache.list[i]);
      var p := d.cache.list[i].path;
      assert p !in paths ==> d'.servers[d.trie[p]] == d.servers[d.trie[p]];
    }
  }

  lemma SameInfos(d: Naming, d': Naming)
    requires Coherent(d) && Sane(d') && d'.cache == d.cache && |d'.servers| == |d.servers|
    requires forall v :: 0 <= v < |d.servers| ==> d'.servers[v].info == d.servers[v].info
    requires forall p :: p in d.trie ==> p in d'.trie && d'.trie[p] == d.trie[p]
    ensures Coherent(d')
  {
    forall i | 0 <= i < |d'.cache.list| ensures Current(d', d'.cache.list[i]) { assert Current(d, d.cache.list[i]); }
  }

  lemma ServesKeepsCoherent(d: Naming, d': Naming, e: Event)
    requires Coherent(d) && Serves(d, d', e) && Plain(d, e)
    ensures Coherent(d')
  {
    match e.command
    case RegisterSs(info, paths) =>
      if |d.servers| < MAX_SS {
        RegisterKeepsCoherent(d, info, paths);
        forall i | 0 <= i < |d.cache.list| ensures d.cache.list[i].path !in paths {
          assert Current(d, d.cache.list[i]);
        }
      }
    case LocateFile(path) => LocateIsTransparent(d, path);
    case _ => SameInfos(d, d');
  }

  ghost predicate PlainRun(ds: seq<Naming>, es: seq<Event>) {
    IsRun(ds, es) && forall k :: 0 <= k < |es| ==> Plain(ds[k], es[k])
  }

  lemma {:induction false} PlainRunsAreCoherent(ds: seq<Naming>, es: seq<Event>, k: nat)
    requires PlainRun(ds, es) && k < |ds|
    ensures Coherent(ds[k])
  {
    if k == 0 { EmptyIsInv(); } else {
      PlainRunsAreCoherent(ds, es, k - 1);
      ServesKeepsCoherent(ds[k - 1], ds[(k - 1) + 1], es[k - 1]);
    }
  }

  /** In every run without DELETE in which servers advertise new paths only, clients are told what the trie alone
      would tell them, whatever collides in the cache, is cached twice or is evicted. */
  lemma CacheIsTransparent(ds: seq<Naming>, es: seq<Event>, k: nat)
    requires PlainRun(ds, es) && k < |es| && es[k].command.LocateFile?
    ensures Sane(ds[k]) && es[k].response == Located(ds[k], es[k].command.path)
  {
    PlainRunsAreCoherent(ds, es, k);
    assert Serves(ds[k], ds[k + 1], es[k]);
    LocateIsTransparent(ds[k], es[k].command.path);
  }

  // ---------- DELETE ----------

  /** A successful DELETE leaves the cache coherent exactly if the scan from the path's slot finds the only node for
      the path, and the slot does not move to a node of another hash. */
  lemma DeleteKeepsCoherent(d: Naming, path: Path)
    requires Coherent(d) && path in d.trie
    ensures Coherent(Delete(d, path, Answer(true, SUCCESS)).0)
       <==> && (forall i :: 0 <= i < |d.cache.list| && d.cache.list[i].path == path ==> Find(d.cache, path) == Some(i))
            && SlotMovesSoundly(d.cache, path)
  {
    RemoveKeepsList(d.cache, path);
    RemoveForgets(d.cache, path);
    RemoveKeepsSlots(d.cache, path);
    DeleteLeavesCurrent(d, path);
  }

  lemma DeleteLeavesCurrent(d: Naming, path: Path)
    requires Coherent(d) && path in d.trie
    ensures
      var d' := Delete(d, path, Answer(true, SUCCESS)).0;
      (forall i :: 0 <= i < |d'.cache.list| ==> Current(d', d'.cache.list[i]))
      <==> !Holds(d'.cache, path)
  {
    var d' := Delete(d, path, Answer(true, SUCCESS)).0;
    forall i | 0 <= i < |d'.cache.list|
      ensures Current(d', d'.cache.list[i]) <==> d'.cache.list[i].path != path
    {
      RemoveOnlyRemoves(d.cache, path, i);
      var j :| 0 <= j < |d.cache.list| && d'.cache.list[i] == d.cache.list[j];
      assert Current(d, d.cache.list[j]);
    }
  }

  predicate SlotMovesSoundly(c: Cache, path: Path)
    requires |c.slots| == LRU_CACHE_SIZE
  {
    match Find(c, path)
    case None => true
    case Some(i) =>
      || c.slots[Slot(path)] != Some(c.list[i].id) || i + 1 == |c.list| || Slot(c.list[i + 1].path) == Slot(path)
  }

  lemma RemoveOnlyRemoves(c: Cache, path: Path, i: nat)
    requires |c.slots| == LRU_CACHE_SIZE && i < |Remove(c, path).list|
    ensures exists j :: 0 <= j < |c.list| && Remove(c, path).list[i] == c.list[j]
  {
    match Find(c, path)
    case None => assert Remove(c, path).list[i] == c.list[i];
    case Some(k) =>
      WithoutAt(c.list, k);
      assert Remove(c, path).list[i] == c.list[if i < k then i else i + 1];
  }

  function Asked(path: Path, response: Response): Event {
    Event(LocateFile(path), Silent, response)
  }

  /** The caches of the run below. */
  function Caches(info: SsInfo): (c: (Cache, Cache, Cache)) {
    var p, q := Entry(0, P, info), Entry(1, Q, info);
    (Cache([p], Slots1(Some(0)), 1), Cache([q, p], Slots1(Some(1)), 2), Cache([p, q], Slots1(Some(1)), 2))
  }

  lemma CacheSteps(info: SsInfo)
    ensures
      var (c1, c2, c3) := Caches(info);
      && Get(Empty(0), P) == (Empty(0), None) && Put(Empty(0), P, info) == c1
      && Get(c1, Q) == (c1, None) && Put(c1, Q, info) == c2
      && Get(c2, P) == (c3, Some(info)) && Get(c3, Q) == (c2, Some(info)) && Remove(c3, P) == c3
  {
    SharedSlot();
    var (c1, c2, c3) := Caches(info);
    assert Put(Empty(0), P, info) == c1;
    FindFrom(c1, Q, 0, 1);
    assert Put(c1, Q, info) == c2;
    FindFrom(c2, P, 0, 1);
    assert Get(c2, P).0.list == c3.list;
    FindFrom(c3, Q, 1, 1);
    assert Get(c3, Q).0.list == c2.list;
    FindFrom(c3, P, 1, 2);
  }

  lemma Extends(ds: seq<Naming>, es: seq<Event>, d: Naming, e: Event)
    requires Serving(ds, es) && Serves(ds[|es|], d, e)
    ensures Serving(ds + [d], es + [e])
  {
    var ds', es' := ds + [d], es + [e];
    forall k | 0 <= k < |es'| ensures Serves(ds'[k], ds'[k + 1], es'[k]) {
      if k < |es| { assert Serves(ds[k], ds[k + 1], es[k]); }
    }
  }

  /** P and Q are registered, then P, Q and P are looked up. */
  lemma PathsAreCached(info: SsInfo) returns (ds: seq<Naming>, es: seq<Event>)
    ensures IsRun(ds, es) && |es| == 4
    ensures ds[4] == Naming([Record(info, [P, Q])], map[P := 0, Q := 0], Caches(info).2, 0)
  {
    CacheSteps(info);
    Registers(info);
    var (c1, c2, c3) := Caches(info);
    var d1 := Naming([Record(info, [P, Q])], map[P := 0, Q := 0], Empty(0), 0);
    ds, es := [Start()], [];
    var e := Event(RegisterSs(info, [P, Q]), Silent, ACK);
    Extends(ds, es, d1, e);
    ds, es := ds + [d1], es + [e];
    Misses(d1, P, c1);
    Extends(ds, es, d1.(cache := c1), Asked(P, Directed(info)));
    ds, es := ds + [d1.(cache := c1)], es + [Asked(P, Directed(info))];
    Misses(d1.(cache := c1), Q, c2);
    Extends(ds, es, d1.(cache := c2), Asked(Q, Directed(info)));
    ds, es := ds + [d1.(cache := c2)], es + [Asked(Q, Directed(info))];
    Hits(d1.(cache := c2), P, c3, info);
    Extends(ds, es, d1.(cache := c3), Asked(P, Directed(info)));
    ds, es := ds + [d1.(cache := c3)], es + [Asked(P, Directed(info))];
  }

  /** A run in which a deleted path is found: the scan for P starts at Q's node, behind which P's has moved. */
  lemma DeletedPathIsFound(info: SsInfo) returns (ds: seq<Naming>, es: seq<Event>)
    ensures IsRun(ds, es) && |es| == 7 && es[4] == Event(DeleteFile(P), Answer(true, SUCCESS), ACK)
    ensures es[6] == Asked(P, Directed(info)) && P !in ds[6].trie && Located(ds[6], P) == Nack(FILE_NOT_FOUND)
  {
    CacheSteps(info);
    Deletes(info);
    ds, es := PathsAreCached(info);
    var (c1, c2, c3) := Caches(info);
    var d5 := Naming([Record(info, [Q])], map[Q := 0], c3, 0);
    var e := Event(DeleteFile(P), Answer(true, SUCCESS), ACK);
    Extends(ds, es, d5, e);
    ds, es := ds + [d5], es + [e];
    Hits(d5, Q, c2, info);
    Extends(ds, es, d5.(cache := c2), Asked(Q, Directed(info)));
    ds, es := ds + [d5.(cache := c2)], es + [Asked(Q, Directed(info))];
    Hits(d5.(cache := c2), P, c3, info);
    Extends(ds, es, d5.(cache := c3), Asked(P, Directed(info)));
    ds, es := ds + [d5.(cache := c3)], es + [Asked(P, Directed(info))];
  }

  lemma Hits(d: Naming, path: Path, cache: Cache, info: SsInfo)
    requires Sane(d) && Get(d.cache, path) == (cache, Some(info))
    ensures Serves(d, d.(cache := cache), Asked(path, Directed(info)))
  {
  }

  lemma Misses(d: Naming, path: Path, cache: Cache)
    requires Sane(d) && Get(d.cache, path) == (d.cache, None) && path in d.trie
    requires Put(d.cache, path, d.servers[d.trie[path]].info) == cache
    ensures Serves(d, d.(cache := cache), Asked(path, Directed(d.servers[d.trie[path]].info)))
  {
  }

  lemma Registers(info: SsInfo)
    ensures Register(Start(), info, [P, Q])
            == (Naming([Record(info, [P, Q])], map[P := 0, Q := 0], Empty(0), 0), ACK)
  {
    assert [P, Q][..1] == [P] && [P][..0] == [];
    assert InsertAll(map[], [P, Q], 0) == map[P := 0, Q := 0];
    assert Start().servers + [Record(info, [P, Q])] == [Record(info, [P, Q])];
  }

  lemma Deletes(info: SsInfo)
    ensures Delete(Naming([Record(info, [P, Q])], map[P := 0, Q := 0], Caches(info).2, 0), P, Answer(true, SUCCESS))
            == (Naming([Record(info, [Q])], map[Q := 0], Caches(info).2, 0), ACK)
  {
    CacheSteps(info);
    assert RemovePath([P, Q], P) == [Q];
    assert map[P := 0, Q := 0] - {P} == map[Q := 0];
    assert [Record(info, [P, Q])][0 := Record(info, [Q])] == [Record(info, [Q])];
  }
}
