/** The naming server's globals on the heap, and the handlers of the requests. */
module NamingServers {
  import opened Paths
  import opened Protocol
  import opened PathTree
  import opened Listing
  import opened LruSpec
  import opened NamingSpec
  import opened Tries
  import opened LruCaches

  /** `StorageServerInfo`. */
  class StorageServerInfo {
    const info: SsInfo
    const accessiblePaths: array<Path>
    var numAccessiblePaths: nat

    ghost predicate Valid()
      reads this
    {
      accessiblePaths.Length == MAX_ACCESSIBLE_PATHS && numAccessiblePaths <= accessiblePaths.Length
    }

    ghost function Paths(): (s: seq<Path>)
      requires Valid()
      reads this, accessiblePaths
    {
      accessiblePaths[..numAccessiblePaths]
    }

    constructor (info: SsInfo, paths: seq<Path>)
      requires |paths| <= MAX_ACCESSIBLE_PATHS
      ensures Valid() && fresh(accessiblePaths) && this.info == info && Paths() == paths
    {
      this.info := info;
      accessiblePaths := new Path[MAX_ACCESSIBLE_PATHS](_ => []);
      numAccessiblePaths := 0;
      new;
      for i := 0 to |paths|
        invariant Valid() && fresh(accessiblePaths) && numAccessiblePaths == i && this.info == info
        invariant accessiblePaths[..i] == paths[..i]
      {
        accessiblePaths[i] := paths[i];
        numAccessiblePaths := i + 1;
      }
    }

    /** The end of a successful CREATE or COPY. */
    method AddPath(path: Path)
      requires Valid()
      modifies this`numAccessiblePaths, accessiblePaths
      ensures Valid() && Paths() == NamingSpec.AddPath(old(Paths()), path)
    {
      if numAccessiblePaths < MAX_ACCESSIBLE_PATHS {
        accessiblePaths[numAccessiblePaths] := path;
        numAccessiblePaths := numAccessiblePaths + 1;
      }
    }

    /** `remove_path_from_ss_info`: what follows the path is shifted to the left. */
    method RemovePath(path: Path)
      requires Valid()
      modifies this`numAccessiblePaths, accessiblePaths
      ensures Valid() && Paths() == NamingSpec.RemovePath(old(Paths()), path)
    {
      ghost var was := Paths();
      var i := 0;
      while i < numAccessiblePaths
        invariant 0 <= i <= numAccessiblePaths && Paths() == was
        invariant FirstIndex(was, path, 0) == FirstIndex(was, path, i)
      {
        if accessiblePaths[i] == path {
          assert was[i] == path;
          ShiftLeft(i);
          return;
        }
        assert was[i] != path;
        i := i + 1;
      }
    }

    method ShiftLeft(i: nat)
      requires Valid() && i < numAccessiblePaths
      modifies this`numAccessiblePaths, accessiblePaths
      ensures Valid() && Paths() == Without(old(Paths()), i)
    {
      ghost var was := Paths();
      for j := i to numAccessiblePaths - 1
        invariant numAccessiblePaths == |was|
        invariant forall k :: i <= k < j ==> accessiblePaths[k] == was[k + 1]
        invariant forall k :: 0 <= k < i || j <= k < |was| ==> accessiblePaths[k] == was[k]
      {
        accessiblePaths[j] := accessiblePaths[j + 1];
      }
      numAccessiblePaths := numAccessiblePaths - 1;
      WithoutAt(was, i);
      assert Paths() == Without(was, i);
    }
  }

  class NamingServer {
    const registeredSs: array<StorageServerInfo?>
    var numRegisteredSs: nat
    var currentSsIndex: nat
    const pathTrie: Trie
    const pathLruCache: LruCache
    /** The value the globals stand for, and the registered servers in order. */
    ghost var model: Naming
    ghost var servers: seq<StorageServerInfo>
    ghost var own: set<object>
    ghost var Repr: set<object>

    ghost predicate Valid()
      reads this, Repr
    {
      && Apart()
      && ServersOk()
      && TrieOk() && CacheOk()
      && model.cursor == currentSsIndex && Sane(model)
    }

    ghost predicate TrieOk()
      requires Apart()
      reads this, Repr
    {
      pathTrie.Valid() && pathTrie.PathsFit() && model.trie == pathTrie.contents
    }

    ghost predicate CacheOk()
      requires Apart()
      reads this, Repr
    {
      pathLruCache.Valid() && model.cache == pathLruCache.model
    }

    /** The parts share nothing. */
    ghost predicate Apart()
      reads this, Repr
    {
      && pathTrie in Repr && pathLruCache in Repr && Repr == own + pathTrie.Repr + pathLruCache.Repr
      && pathTrie in pathTrie.Repr && pathLruCache in pathLruCache.Repr && own !! pathTrie.Repr !! pathLruCache.Repr
      && this in own && registeredSs in own
      && (forall v :: 0 <= v < |servers| ==> servers[v] in own && servers[v].accessiblePaths in own)
      && (forall v, w :: 0 <= v < w < |servers| ==>
            servers[v] != servers[w] && servers[v].accessiblePaths != servers[w].accessiblePaths)
    }

    ghost predicate ServersOk()
      requires Apart()
      reads this, Repr
    {
      && registeredSs.Length == MAX_SS && numRegisteredSs == |servers| == |model.servers| <= MAX_SS
      && forall v :: 0 <= v < |servers| ==>
           && registeredSs[v] == servers[v] && servers[v].Valid()
           && model.servers[v] == Record(servers[v].info, servers[v].Paths())
    }

    constructor ()
      ensures Valid() && fresh(Repr) && model == Start()
    {
      var table := new StorageServerInfo?[MAX_SS](_ => null);
      var trie := new Trie();
      var cache := new LruCache();
      assert {table} !! trie.Repr !! cache.Repr && fresh(trie.Repr) && fresh(cache.Repr);
      registeredSs, pathTrie, pathLruCache := table, trie, cache;
      numRegisteredSs, currentSsIndex, model, servers := 0, 0, Start(), [];
      own := {this, table};
      Repr := {this, table} + trie.Repr + cache.Repr;
      new;
      assert fresh(own) && fresh(trie.Repr) && fresh(cache.Repr) && Repr == own + trie.Repr + cache.Repr;
      assert fresh(Repr);
      assert Apart();
      assert ServersOk();
      assert TrieOk();
      assert CacheOk();
    }

    method GetAvailableSsForCreation() returns (v: Option<Srv>)
      requires Valid()
      modifies this`currentSsIndex, this`model
      ensures Valid() && (model, v) == Pick(old(model))
    {
      if numRegisteredSs > 0 {
        v := Some(currentSsIndex);
        currentSsIndex := (currentSsIndex + 1) % numRegisteredSs;
      } else {
        v := None;
      }
      model := Pick(model).0;
    }

    method InsertPath(path: Path, v: Srv)
      requires Apart() && ServersOk() && pathTrie.Valid() && pathTrie.PathsFit() && |path| < MAX_PATH_LEN
      modifies pathTrie.Repr, this`Repr
      ensures Apart() && ServersOk() && pathTrie.Valid() && pathTrie.PathsFit() && fresh(Repr - old(Repr))
      ensures pathTrie.contents == old(pathTrie.contents)[path := v] && fresh(pathTrie.Repr - old(pathTrie.Repr))
    {
      pathTrie.Insert(path, v);
      Repr := own + pathTrie.Repr + pathLruCache.Repr;
    }

    method MapInTrie(path: Path, v: Srv)
      requires Valid() && v < numRegisteredSs && |path| < MAX_PATH_LEN
      modifies pathTrie.Repr, this`model, this`Repr
      ensures Valid() && fresh(Repr - old(Repr)) && fresh(pathTrie.Repr - old(pathTrie.Repr))
      ensures model == old(model).(trie := old(model).trie[path := v])
    {
      InsertPath(path, v);
      model := model.(trie := model.trie[path := v]);
    }

    method AddToList(targetSs: StorageServerInfo, ghost v: Srv, path: Path)
      requires Valid() && v < numRegisteredSs && targetSs == servers[v]
      modifies targetSs`numAccessiblePaths, targetSs.accessiblePaths, this`model
      ensures Valid()
      ensures model == old(model).(servers := old(model).servers[v :=
                         Record(old(model).servers[v].info, NamingSpec.AddPath(old(model).servers[v].paths, path))])
    {
      targetSs.AddPath(path);
      model := model.(servers := model.servers[v :=
                        Record(model.servers[v].info, NamingSpec.AddPath(model.servers[v].paths, path))]);
    }

    /** The end of a successful CREATE or COPY. */
    method Map(path: Path, v: Srv)
      requires Valid() && v < numRegisteredSs && |path| < MAX_PATH_LEN
      modifies Repr
      ensures Valid() && fresh(Repr - old(Repr)) && model == Enter(old(model), v, path)
    {
      MapInTrie(path, v);
      AddToList(registeredSs[v], v, path);
    }

    // ---------- the steps of the handlers ----------

    method UnmapInTrie(path: Path)
      requires Valid()
      modifies pathTrie.Repr, this`model
      ensures Valid() && model == old(model).(trie := old(model).trie - {path})
    {
      pathTrie.Delete(path);
      model := model.(trie := model.trie - {path});
    }

    method RemoveFromList(targetSs: StorageServerInfo, ghost v: Srv, path: Path)
      requires Valid() && v < numRegisteredSs && targetSs == servers[v]
      modifies targetSs`numAccessiblePaths, targetSs.accessiblePaths, this`model
      ensures Valid()
      ensures model == old(model).(servers := old(model).servers[v :=
                         Record(old(model).servers[v].info, NamingSpec.RemovePath(old(model).servers[v].paths, path))])
    {
      targetSs.RemovePath(path);
      model := model.(servers := model.servers[v :=
                        Record(model.servers[v].info, NamingSpec.RemovePath(model.servers[v].paths, path))]);
    }

    method RemoveFromCache(path: Path)
      requires Valid() && SlotLive(model.cache, Slot(path))
      modifies pathLruCache.Repr, this`model
      ensures Valid() && model == old(model).(cache := Remove(old(model).cache, path))
    {
      pathLruCache.Remove(path);
      model := model.(cache := Remove(model.cache, path));
    }

    method GetFromCache(path: Path) returns (info: Option<SsInfo>)
      requires Valid() && SlotLive(model.cache, Slot(path))
      modifies pathLruCache.Repr, this`model
      ensures Valid()
      ensures model == old(model).(cache := Get(old(model).cache, path).0) && info == Get(old(model).cache, path).1
    {
      info := pathLruCache.Get(path);
      model := model.(cache := Get(model.cache, path).0);
    }

    method PutInCache(path: Path, info: SsInfo)
      requires Valid() && SlotLive(model.cache, Slot(path))
      modifies pathLruCache.Repr, this`model, this`Repr
      ensures Valid() && fresh(Repr - old(Repr))
      ensures model == old(model).(cache := Put(old(model).cache, path, info))
    {
      UpdateCache(path, info);
    }

    method UpdateCache(path: Path, info: SsInfo)
      requires Apart() && ServersOk() && CacheOk() && SlotLive(pathLruCache.model, Slot(path))
      modifies pathLruCache.Repr, this`model, this`Repr
      ensures Apart() && ServersOk() && CacheOk() && fresh(Repr - old(Repr))
      ensures model == old(model).(cache := Put(old(model).cache, path, info))
    {
      InsertCached(path, info);
      model := model.(cache := Put(model.cache, path, info));
    }

    method InsertCached(path: Path, info: SsInfo)
      requires Apart() && pathLruCache.Valid() && SlotLive(pathLruCache.model, Slot(path))
      modifies pathLruCache.Repr, this`Repr
      ensures Apart() && pathLruCache.Valid() && fresh(Repr - old(Repr))
      ensures pathLruCache.model == Put(old(pathLruCache.model), path, info)
    {
      pathLruCache.Put(path, info);
      Repr := own + pathTrie.Repr + pathLruCache.Repr;
    }

    method AddServer(info: SsInfo, paths: seq<Path>)
      requires Valid() && numRegisteredSs < MAX_SS && |paths| <= MAX_ACCESSIBLE_PATHS
      modifies registeredSs, this`numRegisteredSs, this`servers, this`model, this`own, this`Repr
      ensures Valid() && fresh(Repr - old(Repr))
      ensures model == old(model).(servers := old(model).servers + [Record(info, paths)])
    {
      var newSsInfo := new StorageServerInfo(info, paths);
      Append(newSsInfo);
    }

    method Append(newSsInfo: StorageServerInfo)
      requires Apart() && ServersOk() && numRegisteredSs < MAX_SS
      requires newSsInfo !in Repr && newSsInfo.accessiblePaths !in Repr && newSsInfo.Valid()
      modifies registeredSs, this`numRegisteredSs, this`servers, this`model, this`own, this`Repr
      ensures Apart() && ServersOk() && Repr == old(Repr) + {newSsInfo, newSsInfo.accessiblePaths}
      ensures model == old(model).(servers := old(model).servers + [Record(newSsInfo.info, newSsInfo.Paths())])
    {
      registeredSs[numRegisteredSs] := newSsInfo;
      numRegisteredSs := numRegisteredSs + 1;
      servers := servers + [newSsInfo];
      own := own + {newSsInfo, newSsInfo.accessiblePaths};
      Repr := own + pathTrie.Repr + pathLruCache.Repr;
      model := model.(servers := model.servers + [Record(newSsInfo.info, newSsInfo.Paths())]);
    }

    method SearchTrie(path: Path) returns (v: Option<Srv>)
      requires Valid()
      ensures v == (if path in model.trie then Some(model.trie[path]) else None)
    {
      v := pathTrie.Search(path);
    }

    // ---------- the handlers ----------

    /** REGISTER_SS. */
    method HandleRegister(info: SsInfo, paths: seq<Path>) returns (r: Response)
      requires Valid() && |paths| <= MAX_ACCESSIBLE_PATHS
      requires forall i :: 0 <= i < |paths| ==> |paths[i]| < MAX_PATH_LEN
      modifies Repr
      ensures Valid() && fresh(Repr - old(Repr)) && (model, r) == Register(old(model), info, paths)
    {
      if numRegisteredSs < MAX_SS {
        var newSs := numRegisteredSs;
        AddServer(info, paths);
        MapAll(paths, newSs);
        r := ACK;
      } else {
        r := Nack(SS_UNAVAILABLE);
      }
    }

    /** The loop over the advertised paths. */
    method MapAll(paths: seq<Path>, v: Srv)
      requires Valid() && v < numRegisteredSs && forall i :: 0 <= i < |paths| ==> |paths[i]| < MAX_PATH_LEN
      modifies pathTrie.Repr, this`model, this`Repr
      ensures Valid() && fresh(Repr - old(Repr))
      ensures model == old(model).(trie := InsertAll(old(model).trie, paths, v))
    {
      ghost var was := model;
      for i := 0 to |paths|
        invariant Valid() && fresh(Repr - old(Repr)) && fresh(pathTrie.Repr - old(pathTrie.Repr)) && v < numRegisteredSs
        invariant model == was.(trie := InsertAll(was.trie, paths[..i], v))
      {
        InsertAllNext(was.trie, paths, i, v);
        MapInTrie(paths[i], v);
      }
      assert paths[..|paths|] == paths;
    }

    /** LIST_PATHS. */
    method HandleList() returns (r: Response)
      requires Valid()
      ensures Lists(model, r)
    {
      var pathsArray, count := CollectPaths();
      var data := Concatenate(pathsArray, count);
      r := ACK.(data := data);
    }

    method CollectPaths() returns (pathsArray: array<Path>, count: nat)
      requires Apart() && pathTrie.Valid() && pathTrie.PathsFit()
      ensures count <= pathsArray.Length
      ensures IsFirst(pathsArray[..count], pathTrie.contents.Keys, MAX_ACCESSIBLE_PATHS)
    {
      var tempPath := new Byte[MAX_PATH_LEN](_ => 0);
      pathsArray := new Path[MAX_ACCESSIBLE_PATHS](_ => []);
      count := pathTrie.CollectPaths(tempPath, pathsArray);
    }

    static method Concatenate(pathsArray: array<Path>, count: nat) returns (collected: seq<Byte>)
      requires count <= pathsArray.Length
      ensures collected == Lines(pathsArray[..count])
    {
      ghost var paths := pathsArray[..count];
      collected := [];
      for i := 0 to count
        invariant collected == Lines(paths[..i]) + if 0 < i < count then [10] else []
      {
        assert paths[..i + 1][..i] == paths[..i];
        collected := collected + Bytes(pathsArray[i]);
        if i < count - 1 {
          collected := collected + [10];
        }
      }
      assert paths[..count] == paths;
    }

    /** CREATE_FILE. */
    method HandleCreate(path: Path, reply: Reply) returns (r: Response)
      requires Valid() && |path| < MAX_PATH_LEN
      modifies Repr
      ensures Valid() && fresh(Repr - old(Repr)) && (model, r) == Create(old(model), path, reply)
    {
      var known := SearchTrie(path);
      if known.Some? {
        r := Nack(FILE_EXISTS);
      } else {
        r := PlacePath(path, reply);
      }
    }

    /** What CREATE and COPY of a new path have in common. */
    method PlacePath(path: Path, reply: Reply) returns (r: Response)
      requires Valid() && |path| < MAX_PATH_LEN
      modifies Repr
      ensures Valid() && fresh(Repr - old(Repr)) && (model, r) == Place(old(model), path, reply)
    {
      var target := GetAvailableSsForCreation();
      match target
      case None => r := Nack(SS_UNAVAILABLE);
      case Some(v) =>
        if Succeeded(reply) {
          Map(path, v);
        }
        r := Relayed(reply);
    }

    method Unmap(path: Path, v: Srv)
      requires Valid() && SlotLive(model.cache, Slot(path)) && path in model.trie && model.trie[path] == v
      modifies Repr
      ensures Valid() && Repr == old(Repr) && model == Delete(old(model), path, Answer(true, SUCCESS)).0
    {
      UnmapInTrie(path);
      RemoveFromCache(path);
      RemoveFromList(registeredSs[v], v, path);
    }

    /** DELETE_FILE. */
    method HandleDelete(path: Path, reply: Reply) returns (r: Response)
      requires Valid() && (path in model.trie && Succeeded(reply) ==> SlotLive(model.cache, Slot(path)))
      modifies Repr
      ensures Valid() && Repr == old(Repr) && (model, r) == Delete(old(model), path, reply)
    {
      var target := SearchTrie(path);
      match target
      case None => r := Nack(FILE_NOT_FOUND);
      case Some(v) =>
        if Succeeded(reply) {
          Unmap(path, v);
        }
        r := Relayed(reply);
    }

    /** COPY_FILE. */
    method HandleCopy(path: Path, path2: Path, reply: Reply) returns (r: Response)
      requires Valid() && |path2| < MAX_PATH_LEN
      modifies Repr
      ensures Valid() && fresh(Repr - old(Repr)) && (model, r) == Copy(old(model), path, path2, reply)
    {
      var source := SearchTrie(path);
      if source.None? {
        r := Nack(FILE_NOT_FOUND);
      } else {
        var dest := SearchTrie(path2);
        if dest.None? {
          r := PlacePath(path2, reply);
        } else {
          r := Relayed(reply);
        }
      }
    }

    /** READ_FILE, WRITE_FILE and GET_FILE_INFO. */
    method HandleLocate(path: Path) returns (r: Response)
      requires Valid() && SlotLive(model.cache, Slot(path))
      modifies Repr
      ensures Valid() && fresh(Repr - old(Repr))
      ensures (model, r) == Locate(old(model), path)
    {
      var info := GetFromCache(path);
      if info == None {
        info := LookUp(path);
      }
      r := if info.Some? then Directed(info.value) else Nack(FILE_NOT_FOUND);
    }

    /** After a miss: what the trie knows is cached. */
    method LookUp(path: Path) returns (info: Option<SsInfo>)
      requires Valid() && SlotLive(model.cache, Slot(path))
      modifies Repr
      ensures Valid() && fresh(Repr - old(Repr))
      ensures info == if path in old(model).trie then Some(old(model).servers[old(model).trie[path]].info) else None
      ensures model == if info.Some? then old(model).(cache := Put(old(model).cache, path, info.value)) else old(model)
    {
      var target := SearchTrie(path);
      match target
      case None => info := None;
      case Some(v) =>
        info := Some(registeredSs[v].info);
        PutInCache(path, info.value);
    }
  }
}
