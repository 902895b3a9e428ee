/** What the naming server tells its clients, and what a request leaves of its state, field by field. */
module NamingAnswers {
  import opened Paths
  import opened Protocol
  import opened PathTree
  import opened Listing
  import opened LruSpec
  import opened LruTheorems
  import opened LruContents
  import opened NamingSpec
  import opened NamingCache
  import opened NamingDeleted

  // ---------- answers ----------

  /** The request goes on to a storage server. */
  ghost predicate PassesOn(d: Naming, c: Command) {
    match c
    case CreateFile(path, _) => path !in d.trie && d.servers != []
    case DeleteFile(path) => path in d.trie
    case CopyFile(from, to) => from in d.trie && (to in d.trie || d.servers != [])
    case _ => false
  }

  /** No address and no data. */
  ghost predicate Bare(r: Response) {
    r.ip == "" && r.port == 0 && r.data == []
  }

  /** A request that was passed on succeeds exactly if the storage server says so, and fails with the reason. */
  lemma ForwardedAnswers(d: Naming, d': Naming, e: Event)
    requires Sane(d) && Serves(d, d', e) && PassesOn(d, e.command)
    ensures e.response.ack <==> e.reply == Answer(true, SUCCESS)
    ensures Bare(e.response)
    ensures e.response.code == match e.reply
                               case NoSocket => NETWORK_ERROR
                               case Refused => SS_UNAVAILABLE
                               case NotSent => NETWORK_ERROR
                               case Silent => NETWORK_ERROR
                               case Answer(_, code) => code
  {
  }

  /** The answers to requests that were not passed on. */
  lemma OwnAnswers(d: Naming, d': Naming, e: Event)
    requires Sane(d) && Serves(d, d', e) && !PassesOn(d, e.command)
    ensures
      var r := e.response;
      match e.command
      case RegisterSs(_, _) =>
        Bare(r) && (r.ack <==> |d.servers| < 100) && r.code == if |d.servers| < 100 then SUCCESS else SS_UNAVAILABLE
      case ListPaths =>
        && r.ack && r.code == SUCCESS && r.ip == "" && r.port == 0
        && exists paths :: IsFirst(paths, d.trie.Keys, 10) && r.data == Lines(paths)
      case CreateFile(path, _) =>
        Bare(r) && !r.ack && r.code == if path in d.trie then FILE_EXISTS else SS_UNAVAILABLE
      case DeleteFile(_) => Bare(r) && !r.ack && r.code == FILE_NOT_FOUND
      case CopyFile(from, _) =>
        Bare(r) && !r.ack && r.code == if from in d.trie then SS_UNAVAILABLE else FILE_NOT_FOUND
      case LocateFile(_) => r.data == [] && if r.ack then r.code == SUCCESS else Bare(r) && r.code == FILE_NOT_FOUND
      case OtherOperation => Bare(r) && !r.ack && r.code == INVALID_OPERATION
  {
  }

  // ---------- effects ----------

  /** Everything but the cursor is as it was. */
  ghost predicate OnlyTurns(d: Naming, d': Naming) {
    d'.servers == d.servers && d'.trie == d.trie && d'.cache == d.cache
  }

  ghost predicate Turns(d: Naming, d': Naming)
    requires d.servers != []
  {
    d'.cursor == (d.cursor + 1) % |d.servers|
  }

  /** The servers' addresses, and the lists of all but `v`, are as they were. */
  ghost predicate OnlyListOf(d: Naming, d': Naming, v: Srv) {
    && |d'.servers| == |d.servers| && v < |d.servers|
    && d'.servers[v].info == d.servers[v].info
    && forall u :: 0 <= u < |d.servers| && u != v ==> d'.servers[u] == d.servers[u]
  }

  /** `path` is mapped to `v`, full list or not. */
  ghost predicate Maps(d: Naming, d': Naming, path: Path, v: Srv) {
    && d'.trie.Keys == d.trie.Keys + {path} && d'.trie[path] == v
    && (forall p :: p in d.trie && p != path ==> d'.trie[p] == d.trie[p])
    && OnlyListOf(d, d', v) && d'.cache == d.cache
    && d'.servers[v].paths == if |d.servers[v].paths| < 10 then d.servers[v].paths + [path] else d.servers[v].paths
  }

  /** `paths'` is `paths` without the first occurrence of `path`. */
  ghost predicate Drops(paths: seq<Path>, paths': seq<Path>, path: Path) {
    if path !in paths then paths' == paths
    else
      exists i :: 0 <= i < |paths| && paths[i] == path && path !in paths[..i] && paths' == paths[..i] + paths[i + 1..]
  }

  /** `path` is no longer mapped to `v`, nor listed there. */
  ghost predicate Unmaps(d: Naming, d': Naming, path: Path, v: Srv) {
    && d'.trie.Keys == d.trie.Keys - {path} && (forall p :: p in d'.trie ==> d'.trie[p] == d.trie[p])
    && OnlyListOf(d, d', v) && Drops(d.servers[v].paths, d'.servers[v].paths, path) && d'.cursor == d.cursor
  }

  /** A server is entered behind the others, and what it advertises is mapped to it. */
  ghost predicate Joins(d: Naming, d': Naming, info: SsInfo, paths: seq<Path>) {
    && |d'.servers| == |d.servers| + 1 && (forall u :: 0 <= u < |d.servers| ==> d'.servers[u] == d.servers[u])
    && d'.servers[|d.servers|].info == info && d'.servers[|d.servers|].paths == paths
    && (forall p :: p in d'.trie <==> p in d.trie || p in paths)
    && (forall p :: p in d'.trie ==> d'.trie[p] == if p in paths then |d.servers| else d.trie[p])
    && d'.cache == d.cache && d'.cursor == d.cursor
  }

  lemma CreateChanges(d: Naming, d': Naming, e: Event, path: Path, kind: FileKind)
    requires Sane(d) && Serves(d, d', e) && e.command == CreateFile(path, kind)
    ensures
      if !PassesOn(d, e.command) then d' == d
      else Turns(d, d') && if e.response.ack then Maps(d, d', path, d.cursor) else OnlyTurns(d, d')
  {
  }

  /** Only a copy to an unmapped path changes anything; what is mapped already stays where it is. */
  lemma CopyChanges(d: Naming, d': Naming, e: Event, from: Path, to: Path)
    requires Sane(d) && Serves(d, d', e) && e.command == CopyFile(from, to)
    ensures
      if !PassesOn(d, e.command) || to in d.trie then d' == d
      else Turns(d, d') && if e.response.ack then Maps(d, d', to, d.cursor) else OnlyTurns(d, d')
  {
  }

  /** Nothing changes unless the storage server confirmed. */
  lemma DeleteChanges(d: Naming, d': Naming, e: Event, path: Path)
    requires Sane(d) && Serves(d, d', e) && e.command == DeleteFile(path)
    ensures
      if !e.response.ack then d' == d
      else path in d.trie && Unmaps(d, d', path, d.trie[path]) && d'.cache == Remove(d.cache, path)
  {
    if e.response.ack { RemovePathDrops(d.servers[d.trie[path]].paths, path); }
  }

  lemma RemovePathDrops(paths: seq<Path>, path: Path)
    ensures Drops(paths, RemovePath(paths, path), path)
  {
    var i := FirstIndex(paths, path, 0);
    if i < |paths| { assert RemovePath(paths, path) == paths[..i] + paths[i + 1..]; }
  }

  /** Registering, listing and what is not understood. */
  lemma OthersChange(d: Naming, d': Naming, e: Event)
    requires Sane(d) && Serves(d, d', e)
    ensures
      match e.command
      case RegisterSs(info, paths) => if e.response.ack then Joins(d, d', info, paths) else d' == d
      case ListPaths => d' == d
      case OtherOperation => d' == d
      case _ => true
  {
  }

  /** A lookup changes nothing but the cache: the node found moves to the front; if there is none and the path is
      mapped, its server's address is cached in front. */
  lemma LocateChanges(d: Naming, d': Naming, e: Event, path: Path)
    requires Sane(d) && ListInv(d.cache) && Serves(d, d', e) && e.command == LocateFile(path)
    ensures d'.servers == d.servers && d'.trie == d.trie && d'.cursor == d.cursor
    ensures
      var list, list' := d.cache.list, d'.cache.list;
      match Find(d.cache, path)
      case Some(i) => list' == [list[i]] + list[..i] + list[i + 1..] && d'.cache.slots == d.cache.slots
      case None =>
        if path !in d.trie then d'.cache == d.cache
        else
          && list' != [] && list'[0].path == path && list'[0].info == d.servers[d.trie[path]].info
          && list'[1..] == if |list| == 100 then list[..99] else list
  {
    GetMovesToFront(d.cache, path);
    if Find(d.cache, path).None? && path in d.trie { PutStores(d.cache, path, d.servers[d.trie[path]].info); }
  }

  // ---------- where clients are sent ----------

  /** Request `j` registered server `v`. */
  ghost predicate Registers(ds: seq<Naming>, es: seq<Event>, j: nat, v: Srv)
    requires |ds| == |es| + 1
  {
    j < |es| && es[j].command.RegisterSs? && |ds[j].servers| == v < 100
  }

  /** Every server in the table was registered, with this address. */
  lemma {:induction false} WasRegistered(ds: seq<Naming>, es: seq<Event>, k: nat, v: Srv) returns (j: nat)
    requires IsRun(ds, es) && k < |ds| && v < |ds[k].servers|
    ensures j < k && Registers(ds, es, j, v) && ds[k].servers[v].info == es[j].command.info
  {
    if k > 0 {
      var d, d', e := ds[k - 1], ds[(k - 1) + 1], es[k - 1];
      assert Serves(d, d', e);
      InfosStay(d, d', e);
      if v < |d.servers| { j := WasRegistered(ds, es, k - 1, v); } else { j := k - 1; }
    }
  }

  lemma InfosStay(d: Naming, d': Naming, e: Event)
    requires Sane(d) && Serves(d, d', e)
    ensures |d.servers| <= |d'.servers| && forall v :: 0 <= v < |d.servers| ==> d'.servers[v].info == d.servers[v].info
    ensures |d'.servers| > |d.servers| ==>
              && e.command.RegisterSs? && |d.servers| < 100 && |d'.servers| == |d.servers| + 1
              && d'.servers[|d.servers|].info == e.command.info
  {
  }

  /** The address a server registered with. */
  ghost predicate Directs(r: Response, info: SsInfo) {
    r.ack && r.code == SUCCESS && r.ip == info.ip && r.port == info.clientPort && r.data == []
  }

  /** In every run without DELETE and with fresh registrations a client that asks for a mapped path is sent to the
      client port that the path's server registered with; one that asks for another is told that there is none. */
  lemma ClientsAreDirected(ds: seq<Naming>, es: seq<Event>, k: nat, path: Path) returns (j: nat)
    requires PlainRun(ds, es) && k < |es| && es[k].command == LocateFile(path)
    ensures
      if path in ds[k].trie then
        j < k && Registers(ds, es, j, ds[k].trie[path]) && Directs(es[k].response, es[j].command.info)
      else !es[k].response.ack && es[k].response.code == FILE_NOT_FOUND
  {
    CacheIsTransparent(ds, es, k);
    if path in ds[k].trie { j := WasRegistered(ds, es, k, ds[k].trie[path]); } else { j := 0; }
  }

  // ---------- in every run ----------

  /** At some moment up to `k` the path was mapped to a server of this address. */
  ghost predicate WasCurrent(ds: seq<Naming>, k: nat, path: Path, info: SsInfo)
    requires k < |ds| && forall i :: 0 <= i < |ds| ==> Sane(ds[i])
  {
    exists i :: 0 <= i <= k && Current(ds[i], Entry(0, path, info))
  }

  /** A cached node is one that was there, or says what the trie says. */
  lemma NodesComeFrom(d: Naming, d': Naming, e: Event, i: nat)
    requires Sane(d) && ListInv(d.cache) && Serves(d, d', e) && i < |d'.cache.list|
    ensures Current(d, d'.cache.list[i]) || exists j :: 0 <= j < |d.cache.list| && d.cache.list[j] == d'.cache.list[i]
  {
    match e.command
    case DeleteFile(path) => if d'.cache != d.cache { RemoveOnlyRemoves(d.cache, path, i); }
    case LocateFile(path) =>
      GetMovesToFront(d.cache, path);
      if Find(d.cache, path).None? && path in d.trie { PutOnlyAdds(d, path, i); }
    case _ =>
  }

  lemma PutOnlyAdds(d: Naming, path: Path, i: nat)
    requires Sane(d) && ListInv(d.cache) && Find(d.cache, path).None? && path in d.trie
    requires i < |Put(d.cache, path, d.servers[d.trie[path]].info).list|
    ensures
      var e := Put(d.cache, path, d.servers[d.trie[path]].info).list[i];
      Current(d, e) || exists j :: 0 <= j < |d.cache.list| && d.cache.list[j] == e
  {
    var info := d.servers[d.trie[path]].info;
    PutStores(d.cache, path, info);
    var list := Put(d.cache, path, info).list;
    if i > 0 { assert list[i] == list[1..][i - 1] == d.cache.list[i - 1]; }
  }

  lemma {:induction false} NodesWereCurrent(ds: seq<Naming>, es: seq<Event>, k: nat, i: nat)
    requires IsRun(ds, es) && k < |ds| && i < |ds[k].cache.list|
    ensures WasCurrent(ds, k, ds[k].cache.list[i].path, ds[k].cache.list[i].info)
  {
    if k > 0 {
      var d, d', e := ds[k - 1], ds[(k - 1) + 1], es[k - 1];
      assert Serves(d, d', e);
      RunKeepsList(ds, es, k - 1);
      NodesComeFrom(d, d', e, i);
      var node := d'.cache.list[i];
      if j: nat :| j < |d.cache.list| && d.cache.list[j] == node {
        NodesWereCurrent(ds, es, k - 1, j);
      } else {
        assert Current(ds[k - 1], Entry(0, node.path, node.info));
      }
    }
  }

  /** In every run a client that is sent anywhere is sent to the client port of a server to which the path was mapped
      at that moment or an earlier one. */
  lemma DirectionsWereTrue(ds: seq<Naming>, es: seq<Event>, k: nat, path: Path) returns (i: nat, j: nat)
    requires IsRun(ds, es) && k < |es| && es[k].command == LocateFile(path) && es[k].response.ack
    ensures i <= k && path in ds[i].trie && j < i && Registers(ds, es, j, ds[i].trie[path])
    ensures Directs(es[k].response, es[j].command.info)
  {
    assert Serves(ds[k], ds[k + 1], es[k]);
    i := k;
    if Find(ds[k].cache, path).Some? {
      var n := Find(ds[k].cache, path).value;
      NodesWereCurrent(ds, es, k, n);
      i :| i <= k && Current(ds[i], Entry(0, path, ds[k].cache.list[n].info));
    }
    j := WasRegistered(ds, es, i, ds[i].trie[path]);
  }
}
