/** The table on the heap: an array of chains that grow at the front. */
module LockTables {
  import opened Paths
  import opened LockSpec

  class FileLock {
    const path: Path
    /** The lock's number; it stands for the identity of the `pthread_rwlock_t` inside. */
    ghost const id: nat
    var next: FileLock?

    constructor (path: Path, ghost id: nat, next: FileLock?)
      ensures this.path == path && this.id == id && this.next == next
    {
      this.path, this.id, this.next := path, id, next;
    }
  }

  /** The `i`th node of a chain; null behind its end. */
  ghost function Node(locks: seq<FileLock>, chain: seq<nat>, i: nat): FileLock? {
    if i < |chain| && chain[i] < |locks| then locks[chain[i]] else null
  }

  class FileLockTable {
    const buckets: array<FileLock?>
    /** The locks by number, and the value the table stands for. */
    ghost var locks: seq<FileLock>
    ghost var model: Table
    ghost var Repr: set<object>

    ghost predicate Valid()
      reads this, Repr
    {
      && this in Repr && buckets in Repr && (forall n :: 0 <= n < |locks| ==> locks[n] in Repr)
      && buckets.Length == MAX_FILE_LOCKS && Inv(model)
      && (forall b :: 0 <= b < MAX_FILE_LOCKS ==> buckets[b] == Node(locks, model.chains[b], 0))
      && Stores(locks, model.paths)
      && (forall b :: 0 <= b < MAX_FILE_LOCKS ==> Linked(locks, model.chains[b]))
    }

    /** `init_file_locks`. */
    constructor ()
      ensures Valid() && fresh(Repr) && model == Empty()
    {
      buckets := new FileLock?[MAX_FILE_LOCKS](_ => null);
      locks, model := [], Empty();
      new;
      Repr := {this, buckets};
    }

    /** The scan in `get_or_create_file_lock_node`, `release_read_lock` and `release_write_lock`. */
    method FindLock(path: Path) returns (lock: FileLock?)
      requires Valid()
      ensures match Find(model, path)
              case Some(n) => lock == locks[n]
              case None => lock == null
    {
      var index := ComputeHash(path, MAX_FILE_LOCKS);
      ghost var chain, i := model.chains[index], 0;
      assert ChainOk(model.paths, chain, index) && Linked(locks, chain);
      lock := buckets[index];
      while lock != null && lock.path != path
        invariant 0 <= i <= |chain| && lock == Node(locks, chain, i)
        invariant Scan(model.paths, chain, i, path) == Find(model, path)
        decreases |chain| - i
      {
        lock := lock.next;
        i := i + 1;
      }
    }

    method GetOrCreate(path: Path) returns (lock: FileLock)
      requires Valid()
      modifies Repr
      ensures Valid() && fresh(Repr - old(Repr))
      ensures (model, lock.id) == LockSpec.GetOrCreate(old(model), path)
      ensures old(locks) <= locks && lock.id < |locks| && lock == locks[lock.id] && lock.path == path
    {
      GetOrCreateKeepsInv(model, path);
      var found := FindLock(path);
      if found != null {
        lock := found;
      } else {
        lock := AddLock(path);
      }
    }

    method AddLock(path: Path) returns (lock: FileLock)
      requires Valid() && Inv(Add(model, path))
      modifies this`locks, this`model, this`Repr, buckets
      ensures Valid() && fresh(Repr - old(Repr))
      ensures model == Add(old(model), path) && locks == old(locks) + [lock]
      ensures lock.path == path && lock.id == |old(locks)|
    {
      var index := ComputeHash(path, MAX_FILE_LOCKS);
      lock := new FileLock(path, |locks|, buckets[index]);
      forall b | 0 <= b < MAX_FILE_LOCKS
        ensures Linked(locks + [lock], Add(model, path).chains[b])
        ensures Node(locks + [lock], Add(model, path).chains[b], 0)
                == if b == index then lock else Node(locks, model.chains[b], 0)
      {
        ChainStaysLinked(locks, model.paths, model.chains[b], b, lock);
      }
      buckets[index] := lock;
      locks := locks + [lock];
      model := Add(model, path);
      Repr := Repr + {lock};
    }

    /** `destroy_file_locks`; `freed` logs the calls of `free`: every node, and none twice. */
    method Destroy() returns (freed: seq<FileLock>)
      requires Valid()
      modifies buckets, this`locks, this`model
      ensures forall lock :: lock in freed <==> lock in old(locks)
      ensures forall i, j :: 0 <= i < j < |freed| ==> freed[i] != freed[j]
      ensures Valid() && model == Empty()
    {
      forall b | 0 <= b < MAX_FILE_LOCKS ensures Linked(locks, model.chains[b]) {}
      freed := FreeBuckets();
      NodesAreAll(freed, locks, model);
      Clear();
    }

    ghost method Clear()
      requires this in Repr && buckets in Repr && buckets.Length == MAX_FILE_LOCKS
      requires forall b :: 0 <= b < buckets.Length ==> buckets[b] == null
      modifies this`locks, this`model
      ensures Valid() && model == Empty()
    {
      locks, model := [], Empty();
    }

    /** The outer loop of `destroy_file_locks`. */
    method FreeBuckets() returns (freed: seq<FileLock>)
      requires |model.chains| == buckets.Length == MAX_FILE_LOCKS
      requires forall b :: 0 <= b < buckets.Length ==> buckets[b] == Node(locks, model.chains[b], 0)
      requires forall b :: 0 <= b < buckets.Length ==> Linked(locks, model.chains[b])
      modifies buckets
      ensures IsNodes(freed, locks, Walk(model, |model.chains|))
      ensures forall b :: 0 <= b < buckets.Length ==> buckets[b] == null
    {
      freed := [];
      for i := 0 to buckets.Length
        invariant IsNodes(freed, locks, Walk(model, i))
        invariant forall b :: 0 <= b < i ==> buckets[b] == null
        invariant forall b :: i <= b < buckets.Length ==> buckets[b] == Node(locks, model.chains[b], 0)
      {
        freed := FreeChain(buckets[i], freed, Walk(model, i), model.chains[i]);
        buckets[i] := null;
      }
    }

    /** The inner loop of `destroy_file_locks`. */
    method FreeChain(first: FileLock?, freed: seq<FileLock>, ghost ids: seq<nat>, ghost chain: seq<nat>)
      returns (more: seq<FileLock>)
      requires Linked(locks, chain) && first == Node(locks, chain, 0) && IsNodes(freed, locks, ids)
      ensures IsNodes(more, locks, ids + chain)
    {
      more := freed;
      var current := first;
      ghost var j := 0;
      while current != null
        invariant 0 <= j <= |chain| && current == Node(locks, chain, j)
        invariant IsNodes(more, locks, ids + chain[..j])
        decreases |chain| - j
      {
        var next := current.next;
        more := more + [current];
        current := next;
        j := j + 1;
      }
      assert chain[..j] == chain;
    }
  }

  ghost predicate Stores(locks: seq<FileLock>, paths: seq<Path>) {
    |locks| == |paths| && forall n :: 0 <= n < |locks| ==> locks[n].id == n && locks[n].path == paths[n]
  }

  ghost predicate Linked(locks: seq<FileLock>, chain: seq<nat>)
    reads locks
  {
    forall i :: 0 <= i < |chain| ==> chain[i] < |locks| && locks[chain[i]].next == Node(locks, chain, i + 1)
  }

  lemma ChainStaysLinked(locks: seq<FileLock>, paths: seq<Path>, chain: seq<nat>, b: nat, lock: FileLock)
    requires Linked(locks, chain) && ChainOk(paths, chain, b) && |paths| == |locks|
    ensures Linked(locks + [lock], chain)
    ensures Node(locks + [lock], chain, 0) == Node(locks, chain, 0)
    ensures lock.next == Node(locks, chain, 0) ==> Linked(locks + [lock], [|locks|] + chain)
    ensures Node(locks + [lock], [|locks|] + chain, 0) == lock
  {
    var grown, longer := locks + [lock], [|locks|] + chain;
    assert forall i :: 0 < i < |longer| ==> longer[i] == chain[i - 1];
    forall i: nat ensures Node(grown, chain, i) == Node(locks, chain, i) == Node(grown, longer, i + 1) {}
  }

  ghost predicate IsNodes(nodes: seq<FileLock>, locks: seq<FileLock>, ids: seq<nat>) {
    |nodes| == |ids| && forall k :: 0 <= k < |ids| ==> ids[k] < |locks| && nodes[k] == locks[ids[k]]
  }

  /** The locks in the first `n` buckets, chain by chain. */
  ghost function Walk(t: Table, n: nat): seq<nat>
    requires |t.chains| == MAX_FILE_LOCKS && n <= MAX_FILE_LOCKS
  {
    if n == 0 then [] else Walk(t, n - 1) + t.chains[n - 1]
  }

  lemma {:induction false} WalkMeetsOnce(t: Table, n: nat)
    requires Inv(t) && n <= MAX_FILE_LOCKS
    ensures forall k :: k in Walk(t, n) <==> 0 <= k < |t.paths| && Bucket(t.paths[k]) < n
    ensures forall i, j :: 0 <= i < j < |Walk(t, n)| ==> Walk(t, n)[i] != Walk(t, n)[j]
  {
    if n > 0 {
      WalkMeetsOnce(t, n - 1);
      assert ChainOk(t.paths, t.chains[n - 1], n - 1);
      var a, b := Walk(t, n - 1), t.chains[n - 1];
      forall i, j | 0 <= i < j < |a + b| ensures (a + b)[i] != (a + b)[j] {
        if i < |a| <= j { assert a[i] in a && b[j - |a|] in b; }
      }
    }
  }

  lemma NodesAreAll(nodes: seq<FileLock>, locks: seq<FileLock>, t: Table)
    requires Inv(t) && Stores(locks, t.paths) && IsNodes(nodes, locks, Walk(t, |t.chains|))
    ensures forall lock :: lock in nodes <==> lock in locks
    ensures forall i, j :: 0 <= i < j < |nodes| ==> nodes[i] != nodes[j]
  {
    var ids := Walk(t, |t.chains|);
    WalkMeetsOnce(t, |t.chains|);
    forall lock | lock in locks ensures lock in nodes {
      var n :| 0 <= n < |locks| && locks[n] == lock;
      assert n in ids;
      var k :| 0 <= k < |ids| && ids[k] == n;
      assert nodes[k] == lock;
    }
    forall i, j | 0 <= i < j < |nodes| ensures nodes[i] != nodes[j] {
      assert nodes[i].id == ids[i] && nodes[j].id == ids[j];
    }
  }
}
