/** The storage server's table of file locks as a value: chains of lock numbers, newest first. */
module LockSpec {
  import opened Paths

  const MAX_FILE_LOCKS: nat := 1024

  /** Lock `n` was the `n`th to be created and is for path `paths[n]`. */
  datatype Table = Table(paths: seq<Path>, chains: seq<seq<nat>>)

  function Empty(): Table {
    Table([], seq(MAX_FILE_LOCKS, _ => []))
  }

  function Bucket(path: Path): (b: nat)
    ensures b < MAX_FILE_LOCKS
  {
    HashPath(path, MAX_FILE_LOCKS)
  }

  predicate InRange(t: Table) {
    && |t.chains| == MAX_FILE_LOCKS
    && (forall b, i :: 0 <= b < |t.chains| && 0 <= i < |t.chains[b]| ==> t.chains[b][i] < |t.paths|)
  }

  /** The walk along a chain that acquire and release share. */
  function Scan(paths: seq<Path>, chain: seq<nat>, start: nat, path: Path): (r: Option<nat>)
    requires start <= |chain| && forall i :: 0 <= i < |chain| ==> chain[i] < |paths|
    ensures r.Some? ==> r.value < |paths| && r.value in chain && paths[r.value] == path
    ensures r.None? ==> forall i :: start <= i < |chain| ==> paths[chain[i]] != path
    decreases |chain| - start
  {
    if start == |chain| then None
    else if paths[chain[start]] == path then Some(chain[start])
    else Scan(paths, chain, start + 1, path)
  }

  function Find(t: Table, path: Path): (r: Option<nat>)
    requires InRange(t)
    ensures r.Some? ==> r.value < |t.paths| && t.paths[r.value] == path
  {
    Scan(t.paths, t.chains[Bucket(path)], 0, path)
  }

  function Add(t: Table, path: Path): Table
    requires |t.chains| == MAX_FILE_LOCKS
  {
    var b := Bucket(path);
    Table(t.paths + [path], t.chains[b := [|t.paths|] + t.chains[b]])
  }

  /** `get_or_create_file_lock_node`. */
  function GetOrCreate(t: Table, path: Path): (Table, nat)
    requires InRange(t)
  {
    match Find(t, path)
    case Some(n) => (t, n)
    case None => (Add(t, path), |t.paths|)
  }

  /** Every lock is in the chain of its path's bucket, and there only, once; no path has two locks. */
  predicate Inv(t: Table) {
    && InRange(t)
    && (forall b :: 0 <= b < |t.chains| ==> ChainOk(t.paths, t.chains[b], b))
    && (forall n :: 0 <= n < |t.paths| ==> n in t.chains[Bucket(t.paths[n])])
    && (forall m, n :: 0 <= m < n < |t.paths| ==> t.paths[m] != t.paths[n])
  }

  predicate ChainOk(paths: seq<Path>, chain: seq<nat>, b: nat) {
    && (forall i :: 0 <= i < |chain| ==> chain[i] < |paths| && Bucket(paths[chain[i]]) == b)
    && (forall i, j :: 0 <= i < j < |chain| ==> chain[i] != chain[j])
  }

  lemma EmptyInv()
    ensures Inv(Empty())
  {
  }

  lemma ChainGrows(paths: seq<Path>, chain: seq<nat>, b: nat, path: Path)
    requires ChainOk(paths, chain, b)
    ensures ChainOk(paths + [path], chain, b)
    ensures Bucket(path) == b ==> ChainOk(paths + [path], [|paths|] + chain, b)
  {
    var paths', longer := paths + [path], [|paths|] + chain;
    assert forall i :: 0 <= i < |chain| ==> paths'[chain[i]] == paths[chain[i]];
    assert forall i :: 0 < i < |longer| ==> longer[i] == chain[i - 1];
  }

  lemma AddKeepsInv(t: Table, path: Path)
    requires Inv(t) && path !in t.paths
    ensures Inv(Add(t, path))
  {
    var t' := Add(t, path);
    forall b | 0 <= b < |t'.chains| ensures ChainOk(t'.paths, t'.chains[b], b) {
      ChainGrows(t.paths, t.chains[b], b, path);
    }
    forall n | 0 <= n < |t'.paths| ensures n in t'.chains[Bucket(t'.paths[n])] {
      if n == |t.paths| {
        assert t'.chains[Bucket(path)][0] == n;
      } else {
        assert t'.paths[n] == t.paths[n] && n in t.chains[Bucket(t.paths[n])];
      }
    }
  }

  /** A path has a lock exactly if the scan of its bucket finds one, and then it finds that one. */
  lemma FindIsTheLock(t: Table, path: Path)
    requires Inv(t)
    ensures match Find(t, path)
            case Some(n) => forall m :: 0 <= m < |t.paths| && t.paths[m] == path ==> m == n
            case None => path !in t.paths
  {
    if path in t.paths {
      var m :| 0 <= m < |t.paths| && t.paths[m] == path;
      var i :| 0 <= i < |t.chains[Bucket(path)]| && t.chains[Bucket(path)][i] == m;
    }
  }

  lemma GetOrCreateKeepsInv(t: Table, path: Path)
    requires Inv(t)
    ensures var (t', n) := GetOrCreate(t, path);
            && Inv(t') && n < |t'.paths| && t'.paths[n] == path
            && t.paths <= t'.paths
  {
    FindIsTheLock(t, path);
    if Find(t, path).None? { AddKeepsInv(t, path); }
  }

  /** Locks never move or vanish: whatever locks were added since, a later scan finds the same one. */
  lemma SameLockLater(t: Table, later: Table, path: Path, n: nat)
    requires Inv(t) && Inv(later) && t.paths <= later.paths && n < |t.paths| && t.paths[n] == path
    ensures Find(later, path) == Some(n)
  {
    FindIsTheLock(later, path);
    assert later.paths[n] == path;
  }
}
