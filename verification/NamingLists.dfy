/** How the mapped paths are spread over the storage servers' lists, and how new paths are dealt out. */
module NamingLists {
  import opened Paths
  import opened Protocol
  import opened LruSpec
  import opened NamingSpec

  // ---------- the lists ----------

  predicate Distinct(paths: seq<Path>) {
    forall i, j :: 0 <= i < j < |paths| ==> paths[i] != paths[j]
  }

  /** A server's list: at most ten paths, none twice, each mapped to that server. */
  predicate ListOk(d: Naming, v: Srv)
    requires v < |d.servers|
  {
    var paths := d.servers[v].paths;
    && |paths| <= MAX_ACCESSIBLE_PATHS && Distinct(paths)
    && forall i :: 0 <= i < |paths| ==> paths[i] in d.trie && d.trie[paths[i]] == v
  }

  predicate Placed(d: Naming) {
    Sane(d) && forall v :: 0 <= v < |d.servers| ==> ListOk(d, v)
  }

  /** The other mapped paths are the overflow. */
  predicate Listed(d: Naming, path: Path)
    requires Sane(d)
  {
    path in d.trie && path in d.servers[d.trie[path]].paths
  }

  predicate ListedAt(d: Naming, v: Srv, path: Path) {
    v < |d.servers| && path in d.servers[v].paths
  }

  /** What a server should advertise: paths that differ and that no other server is listed with. */
  ghost predicate Advertises(d: Naming, paths: seq<Path>) {
    Distinct(paths) && forall v: Srv, i :: 0 <= i < |paths| ==> !ListedAt(d, v, paths[i])
  }

  /** Nothing is in two lists. */
  lemma ListsAreDisjoint(d: Naming, v: Srv, w: Srv, path: Path)
    requires Placed(d) && ListedAt(d, v, path) && ListedAt(d, w, path)
    ensures v == w && Listed(d, path)
  {
    assert ListOk(d, v) && ListOk(d, w);
  }

  /** A registration keeps the lists in order exactly if the new server advertises as it should. */
  lemma RegisterKeepsPlaced(d: Naming, info: SsInfo, paths: seq<Path>)
    requires Placed(d) && |paths| <= MAX_ACCESSIBLE_PATHS && |d.servers| < MAX_SS
    ensures Placed(Register(d, info, paths).0) <==> Advertises(d, paths)
  {
    if Advertises(d, paths) { AdvertisersAreListed(d, info, paths); }
    if Placed(Register(d, info, paths).0) { ListedAdvertise(d, info, paths); }
  }

  lemma AdvertisersAreListed(d: Naming, info: SsInfo, paths: seq<Path>)
    requires Placed(d) && |paths| <= MAX_ACCESSIBLE_PATHS && |d.servers| < MAX_SS && Advertises(d, paths)
    ensures Placed(Register(d, info, paths).0)
  {
    var d' := Register(d, info, paths).0;
    forall v | 0 <= v < |d'.servers| ensures ListOk(d', v) {
      if v < |d.servers| {
        assert ListOk(d, v) && d'.servers[v] == d.servers[v];
        forall i | 0 <= i < |d.servers[v].paths| ensures d.servers[v].paths[i] !in paths {
          assert ListedAt(d, v, d.servers[v].paths[i]);
        }
      }
    }
  }

  lemma ListedAdvertise(d: Naming, info: SsInfo, paths: seq<Path>)
    requires Placed(d) && |d.servers| < MAX_SS && Placed(Register(d, info, paths).0)
    ensures Advertises(d, paths)
  {
    var d' := Register(d, info, paths).0;
    assert ListOk(d', |d.servers|) && d'.servers[|d.servers|].paths == paths;
    forall v | 0 <= v < |d.servers| ensures forall p :: p in d.servers[v].paths ==> p !in paths {
      assert ListOk(d', v) && d'.servers[v] == d.servers[v];
    }
  }

  lemma EnterKeepsPlaced(d: Naming, v: Srv, path: Path)
    requires Placed(d) && v < |d.servers| && path !in d.trie
    ensures Placed(Enter(d, v, path))
    ensures Listed(Enter(d, v, path), path) <==> |d.servers[v].paths| < MAX_ACCESSIBLE_PATHS
  {
    var d' := Enter(d, v, path);
    assert ListOk(d, v);
    forall w | 0 <= w < |d'.servers| ensures ListOk(d', w) {
      assert ListOk(d, w);
    }
    if |d.servers[v].paths| < MAX_ACCESSIBLE_PATHS { assert d'.servers[v].paths[|d.servers[v].paths|] == path; }
  }

  lemma RemovePathForgets(paths: seq<Path>, path: Path)
    requires Distinct(paths)
    ensures Distinct(RemovePath(paths, path)) && |RemovePath(paths, path)| <= |paths|
    ensures forall p :: p in RemovePath(paths, path) <==> p in paths && p != path
  {
    var i, r := FirstIndex(paths, path, 0), RemovePath(paths, path);
    if i < |paths| {
      WithoutAt(paths, i);
      forall p | p in paths && p != path ensures p in r {
        var j :| 0 <= j < |paths| && paths[j] == p;
        assert r[if j < i then j else j - 1] == p;
      }
    }
  }

  lemma DeleteKeepsPlaced(d: Naming, path: Path, reply: Reply)
    requires Placed(d)
    ensures Placed(Delete(d, path, reply).0)
    ensures forall p :: p in Delete(d, path, reply).0.trie ==>
              p in d.trie && (Listed(Delete(d, path, reply).0, p) <==> Listed(d, p))
  {
    var d' := Delete(d, path, reply).0;
    if path in d.trie && Succeeded(reply) {
      var v := d.trie[path];
      assert ListOk(d, v);
      RemovePathForgets(d.servers[v].paths, path);
      forall w | 0 <= w < |d'.servers| ensures ListOk(d', w) {
        assert ListOk(d, w);
        if w == v {
          forall i | 0 <= i < |d'.servers[v].paths|
            ensures d'.servers[v].paths[i] in d'.trie && d'.trie[d'.servers[v].paths[i]] == v
          {
            assert d'.servers[v].paths[i] in d.servers[v].paths;
          }
        } else {
          forall i | 0 <= i < |d.servers[w].paths| ensures d.servers[w].paths[i] != path {}
        }
      }
    }
  }

  /** The command mapped `path` to `v`, whose list was full. */
  predicate Overflows(d: Naming, e: Event, path: Path, v: Srv)
    requires Sane(d)
  {
    && (|| (e.command.CreateFile? && e.command.path == path) || (e.command.CopyFile? && e.command.path2 == path))
    && path !in d.trie && Succeeded(e.reply) && Pick(d).1 == Some(v) && |d.servers[v].paths| == MAX_ACCESSIBLE_PATHS
  }

  ghost predicate Orderly(d: Naming, e: Event) {
    e.command.RegisterSs? ==> Advertises(d, e.command.paths)
  }

  /** Every orderly request keeps the lists in order, and leaves unlisted only what was unlisted or overflows. */
  lemma ServesKeepsPlaced(d: Naming, d': Naming, e: Event)
    requires Placed(d) && Serves(d, d', e) && Orderly(d, e)
    ensures Placed(d')
    ensures forall p :: p in d'.trie && !Listed(d', p) ==>
              (p in d.trie && !Listed(d, p) && d'.trie[p] == d.trie[p]) || Overflows(d, e, p, d'.trie[p])
  {
    match e.command
    case RegisterSs(info, paths) => RegisterLeavesListed(d, d', e);
    case CreateFile(path, _) => if path !in d.trie { PlaceKeepsPlaced(d, d', e, path); }
    case CopyFile(from, to) => if from in d.trie && to !in d.trie { PlaceKeepsPlaced(d, d', e, to); }
    case DeleteFile(path) => DeleteKeepsPlaced(d, path, e.reply);
    case LocateFile(path) => SameListsPlaced(d, d');
    case _ =>
  }

  lemma SameListsPlaced(d: Naming, d': Naming)
    requires Placed(d) && Sane(d') && d'.servers == d.servers && d'.trie == d.trie
    ensures Placed(d') && forall p :: p in d'.trie ==> (Listed(d', p) <==> Listed(d, p))
  {
    forall v | 0 <= v < |d'.servers| ensures ListOk(d', v) { assert ListOk(d, v); }
  }

  lemma RegisterLeavesListed(d: Naming, d': Naming, e: Event)
    requires Placed(d) && Serves(d, d', e) && e.command.RegisterSs? && Advertises(d, e.command.paths)
    ensures Placed(d')
    ensures forall p :: p in d'.trie && !Listed(d', p) ==> p in d.trie && !Listed(d, p) && d'.trie[p] == d.trie[p]
  {
    if |d.servers| < MAX_SS { RegisterKeepsPlaced(d, e.command.info, e.command.paths); }
  }

  lemma PlaceKeepsPlaced(d: Naming, d': Naming, e: Event, path: Path)
    requires Placed(d) && d' == Place(d, path, e.reply).0 && path !in d.trie
    requires (e.command.CreateFile? && e.command.path == path) || (e.command.CopyFile? && e.command.path2 == path)
    ensures Placed(d')
    ensures forall p :: p in d'.trie && !Listed(d', p) ==>
              (p in d.trie && !Listed(d, p) && d'.trie[p] == d.trie[p]) || Overflows(d, e, p, d'.trie[p])
  {
    var (d1, v) := Pick(d);
    SameListsPlaced(d, d1);
    if v.Some? && Succeeded(e.reply) {
      EnterKeepsPlaced(d1, v.value, path);
      assert ListOk(d, v.value);
      forall p | p in d.trie && Listed(d, p) ensures Listed(d', p) {
        var i :| 0 <= i < |d.servers[d.trie[p]].paths| && d.servers[d.trie[p]].paths[i] == p;
        assert d'.servers[d.trie[p]].paths[i] == p;
      }
      if !Listed(d', path) { assert Overflows(d, e, path, v.value); }
    }
  }

  // ---------- whole runs ----------

  ghost predicate OrderlyRun(ds: seq<Naming>, es: seq<Event>) {
    IsRun(ds, es) && forall k :: 0 <= k < |es| ==> Orderly(ds[k], es[k])
  }

  /** In every orderly run the mapped paths are partitioned into the servers' lists and the overflow. */
  lemma {:induction false} ListsPartitionPaths(ds: seq<Naming>, es: seq<Event>, k: nat)
    requires OrderlyRun(ds, es) && k < |ds|
    ensures Placed(ds[k])
  {
    if k > 0 {
      ListsPartitionPaths(ds, es, k - 1);
      ServesKeepsPlaced(ds[k - 1], ds[(k - 1) + 1], es[k - 1]);
    }
  }

  /** Overflow paths are those that were created when their server's list was full. */
  lemma {:induction false} OverflowCameFromFullList(ds: seq<Naming>, es: seq<Event>, k: nat, path: Path)
    requires OrderlyRun(ds, es) && k < |ds| && Sane(ds[k]) && path in ds[k].trie && !Listed(ds[k], path)
    ensures exists j :: 0 <= j < k && Sane(ds[j]) && Overflows(ds[j], es[j], path, ds[k].trie[path])
  {
    ListsPartitionPaths(ds, es, k - 1);
    ServesKeepsPlaced(ds[k - 1], ds[(k - 1) + 1], es[k - 1]);
    if !Overflows(ds[k - 1], es[k - 1], path, ds[k].trie[path]) {
      OverflowCameFromFullList(ds, es, k - 1, path);
    }
  }

  /** Two servers that register with the same path: both lists then hold it. */
  lemma ListedTwice(info: SsInfo, path: Path) returns (ds: seq<Naming>, es: seq<Event>)
    ensures IsRun(ds, es) && |es| == 2 && Placed(ds[1]) && !Placed(ds[2])
    ensures ListedAt(ds[2], 0, path) && ListedAt(ds[2], 1, path)
  {
    var d1 := Register(Start(), info, [path]).0;
    var d2 := Register(d1, info, [path]).0;
    var e := Event(RegisterSs(info, [path]), Silent, ACK);
    ds, es := [Start(), d1, d2], [e, e];
    assert Serves(Start(), d1, e) && Serves(d1, d2, e);
    assert Advertises(Start(), [path]);
    RegisterKeepsPlaced(Start(), info, [path]);
    assert d2.servers == [Record(info, [path]), Record(info, [path])];
    if Placed(d2) { ListsAreDisjoint(d2, 0, 1, path); }
  }

  // ---------- round robin ----------

  /** The server a request lets the cursor choose. */
  function Picked(d: Naming, e: Event): Option<Srv>
    requires Sane(d)
  {
    match e.command
    case CreateFile(path, _) => if path in d.trie then None else Pick(d).1
    case CopyFile(from, to) => if from !in d.trie || to in d.trie then None else Pick(d).1
    case _ => None
  }

  /** How often the first `k` requests chose `v`. */
  ghost function Turns(ds: seq<Naming>, es: seq<Event>, k: nat, v: Srv): nat
    requires Serving(ds, es) && k <= |es|
  {
    if k == 0 then 0 else Turns(ds, es, k - 1, v) + if Picked(ds[k - 1], es[k - 1]) == Some(v) then 1 else 0
  }

  /** How often they chose at all. */
  ghost function Picks(ds: seq<Naming>, es: seq<Event>, k: nat): nat
    requires Serving(ds, es) && k <= |es|
  {
    if k == 0 then 0 else Picks(ds, es, k - 1) + if Picked(ds[k - 1], es[k - 1]).Some? then 1 else 0
  }

  /** Whatever else a request does, it moves the cursor on by one exactly if it chooses a server. */
  lemma CursorMoves(d: Naming, d': Naming, e: Event)
    requires Sane(d) && Serves(d, d', e) && !e.command.RegisterSs?
    ensures Sane(d') && |d'.servers| == |d.servers|
    ensures Picked(d, e) == None ==> d'.cursor == d.cursor
    ensures Picked(d, e).Some? ==>
              |d.servers| > 0 && Picked(d, e) == Some(d.cursor) && d'.cursor == (d.cursor + 1) % |d.servers|
  {
  }

  /** With `n` servers, after `q * n + r` choices everyone had `q` turns, and the first `r` from server `first` on
      one more; now it is `c`'s turn. */
  predicate Dealt(n: nat, first: nat, c: nat, v: nat, q: nat, r: nat, picks: nat, turns: nat) {
    && first < n && v < n && r < n && picks == q * n + r
    && c == (if first + r < n then first + r else first + r - n)
    && turns == q + if (if v >= first then v - first else v - first + n) < r then 1 else 0
  }

  lemma Deal(n: nat, first: nat, c: nat, v: nat, q: nat, r: nat, picks: nat, turns: nat) returns (q': nat, r': nat)
    requires Dealt(n, first, c, v, q, r, picks, turns)
    ensures Dealt(n, first, (c + 1) % n, v, q', r', picks + 1, turns + if v == c then 1 else 0)
  {
    NextInTurn(c, n, q);
    if r + 1 == n { q', r' := q + 1, 0; } else { q', r' := q, r + 1; }
  }

  lemma NextInTurn(c: nat, n: nat, q: nat)
    requires c < n
    ensures (c + 1) % n == (if c + 1 == n then 0 else c + 1) && (q + 1) * n == q * n + n
  {
  }

  lemma {:induction false} TurnsSoFar(ds: seq<Naming>, es: seq<Event>, k: nat, v: Srv) returns (q: nat, r: nat)
    requires Serving(ds, es) && k <= |es| && v < |ds[0].servers|
    requires forall j :: 0 <= j < |es| ==> !es[j].command.RegisterSs?
    ensures |ds[k].servers| == |ds[0].servers|
    ensures Dealt(|ds[0].servers|, ds[0].cursor, ds[k].cursor, v, q, r, Picks(ds, es, k), Turns(ds, es, k, v))
  {
    q, r := 0, 0;
    if k > 0 {
      q, r := TurnsSoFar(ds, es, k - 1, v);
      CursorMoves(ds[k - 1], ds[(k - 1) + 1], es[k - 1]);
      if Picked(ds[k - 1], es[k - 1]).Some? {
        q, r := Deal(|ds[0].servers|, ds[0].cursor, ds[k - 1].cursor, v, q, r,
                     Picks(ds, es, k - 1), Turns(ds, es, k - 1, v));
      }
    }
  }

  /** While no server registers, however requests are mixed, every server is chosen as often as the others, give or
      take one: m choices among n servers give each of them m/n, rounded down or up. */
  lemma RoundRobinIsFair(ds: seq<Naming>, es: seq<Event>, v: Srv)
    requires Serving(ds, es) && v < |ds[0].servers|
    requires forall j :: 0 <= j < |es| ==> !es[j].command.RegisterSs?
    ensures
      var n, m := |ds[0].servers|, Picks(ds, es, |es|);
      m / n <= Turns(ds, es, |es|, v) <= (m + n - 1) / n
  {
    var q, r := TurnsSoFar(ds, es, |es|, v);
    Quotients(Picks(ds, es, |es|), |ds[0].servers|, q, r);
  }

  lemma Quotients(m: nat, n: nat, q: nat, r: nat)
    requires r < n && m == q * n + r
    ensures m / n == q && (m + n - 1) / n == if r == 0 then q else q + 1
  {
    QuotientIs(m, n, q, r);
    if r == 0 {
      QuotientIs(m + n - 1, n, q, n - 1);
    } else {
      assert (q + 1) * n == q * n + n;
      QuotientIs(m + n - 1, n, q + 1, r - 1);
    }
  }

  lemma QuotientIs(m: nat, n: nat, q: nat, r: nat)
    requires r < n && m == q * n + r
    ensures m / n == q
  {
    var p := m / n;
    assert m == p * n + m % n;
    assert (p - q) * n == p * n - q * n;
    OnlyZero(p - q, n, r - m % n);
  }

  lemma OnlyZero(k: int, n: int, x: int)
    requires k * n == x && -n < x < n
    ensures k == 0
  {
  }
}
