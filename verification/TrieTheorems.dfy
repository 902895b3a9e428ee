/** The concurrent trie is linearizable to a map, and its locks never deadlock. */
module TrieTheorems {
  import opened Paths
  import opened Protocol
  import opened RwLocks
  import opened Linearizability
  import opened Tries
  import opened TrieThreads
  import opened TrieInvariant
  import opened TrieSteps

  lemma OkIsInBounds(s: State, t: Tid)
    requires Inv(s) && t in s.threads
    ensures InBounds(s, s.threads[t])
  {
    assert ThreadOk(s, t);
    if s.threads[t].act.Visit? { ChainDescends(s, s.threads[t].act); }
  }

  lemma ChainDescends(s: State, v: Activity)
    requires v.Visit? && VisitOk(s.heap, v)
    ensures Descends(v.frames)
  {
    forall k | 0 <= k < |v.frames| - 1 ensures 2 <= v.frames[k].next <= 256 {
      assert GoneDown(s.heap, v.frames[k], v.frames[k + 1].node);
    }
  }

  lemma NextKeepsInv(s: State, s': State, t: Tid)
    requires Inv(s) && Steps(s, s', t)
    ensures Inv(s')
  {
    match s.threads[t].act
    case Ready => ReadyKeepsInv(s, s', t);
    case Visit(_, _, _) => VisitKeepsInv(s, s', t);
    case Walk(_, _, _, _, phase) =>
      match phase
      case Lock => LockKeepsInv(s, s', t);
      case At => AtKeepsInv(s, s', t);
      case Make => MakeKeepsInv(s, s', t);
      case Leave => LeaveKeepsInv(s, s', t);
      case Step => StepKeepsInv(s, s', t);
      case Unlock(_) => UnlockKeepsInv(s, s', t);
  }

  lemma {:induction false} RunKeepsInv(run: seq<State>, k: nat)
    requires IsRun(run) && k < |run|
    ensures Inv(run[k])
  {
    if k == 0 { InitialInv(); } else {
      RunKeepsInv(run, k - 1);
      var s, s' := run[k - 1], run[k];
      assert Follows(run, k - 1);
      if t, script :| Starts(s, s', t, script) {
        StartKeepsInv(s, s', t, script);
      } else {
        var t :| Steps(s, s', t);
        NextKeepsInv(s, s', t);
      }
    }
  }

  /** Every run, of any number of threads, is linearizable to a map from paths to servers, and the tree stands for
      the map that the calls, one after the other, lead to. */
  lemma TrieIsLinearizable(run: seq<State>, k: nat)
    requires IsRun(run) && k < |run|
    ensures exists lin ::
              && IsLinearization(PathMap(), run[k].rec.history, lin)
              && Represents(run[k].heap, Replay(PathMap(), lin))
  {
    RunKeepsInv(run, k);
    RecordedIsLinearized(PathMap(), run[k].rec);
  }

  /** What is mapped at `path` after the calls of `lin`: by the last insert or delete of exactly that path. */
  ghost predicate LastChange(lin: seq<Entry<Op, Res>>, i: nat, j: nat, path: Path) {
    && i < j <= |lin| && lin[i].op.path == path && !lin[i].op.Search?
    && forall k :: i < k < j ==> lin[k].op.path == path ==> lin[k].op.Search?
  }

  /** A search finds what the last insert of its path put there, nothing after a delete, and nothing before the first
      insert, whatever happens at prefixes, extensions and other paths. */
  lemma SearchFindsLastInsert(lin: seq<Entry<Op, Res>>, j: nat)
    requires LegalRun(PathMap(), lin) && j < |lin| && lin[j].op.Search?
    ensures forall i :: 0 <= i < j && LastChange(lin, i, j, lin[j].op.path) ==>
              lin[j].res == if lin[i].op.Insert? then Some(lin[i].op.info) else None
    ensures (forall i :: 0 <= i < j ==> lin[i].op.path == lin[j].op.path ==> lin[i].op.Search?) ==> lin[j].res == None
  {
    var path := lin[j].op.path;
    assert PathMap().legal(Replay(PathMap(), lin[..j]), lin[j].op, lin[j].res);
    forall i | 0 <= i < j && LastChange(lin, i, j, path)
      ensures lin[j].res == if lin[i].op.Insert? then Some(lin[i].op.info) else None
    {
      assert lin[..i + 1][..i] == lin[..i];
      SearchesChangeNothing(lin, i + 1, j, path);
    }
    if forall i :: 0 <= i < j ==> lin[i].op.path == path ==> lin[i].op.Search? {
      SearchesChangeNothing(lin, 0, j, path);
    }
  }

  lemma {:induction false} SearchesChangeNothing(lin: seq<Entry<Op, Res>>, i: nat, j: nat, path: Path)
    requires i <= j <= |lin| && forall k :: i <= k < j ==> lin[k].op.path == path ==> lin[k].op.Search?
    ensures var a, b := Replay(PathMap(), lin[..i]), Replay(PathMap(), lin[..j]);
            (path in a <==> path in b) && (path in a ==> a[path] == b[path])
  {
    if i < j {
      SearchesChangeNothing(lin, i, j - 1, path);
      assert lin[..j][..j - 1] == lin[..j - 1];
    }
  }

  /** At every moment the nodes are a tree. */
  lemma NodesAreTree(run: seq<State>, k: nat)
    requires IsRun(run) && k < |run|
    ensures HeapOk(run[k].heap)
  {
    RunKeepsInv(run, k);
  }

  /** Nodes keep their place, and child pointers are written once. */
  ghost predicate Extends(heap: seq<Node>, heap': seq<Node>) {
    && |heap| <= |heap'|
    && forall n :: 0 <= n < |heap| ==>
         heap'[n].path == heap[n].path && ChildrenStay(heap[n].children, heap'[n].children)
  }

  predicate ChildrenStay(a: map<PathByte, nat>, b: map<PathByte, nat>) {
    forall c :: c in a ==> c in b && b[c] == a[c]
  }

  lemma StepExtends(s: State, s': State, t: Tid)
    requires t in s.threads && ThreadOk(s, t) && Steps(s, s', t)
    ensures Extends(s.heap, s'.heap)
  {
  }

  lemma ChildrenAreWriteOnce(run: seq<State>, i: nat, j: nat)
    requires IsRun(run) && i <= j < |run|
    ensures Extends(run[i].heap, run[j].heap)
  {
    for k := i to j
      invariant Extends(run[i].heap, run[k].heap)
    {
      NextExtends(run, k);
    }
  }

  lemma NextExtends(run: seq<State>, k: nat)
    requires IsRun(run) && k + 1 < |run|
    ensures Extends(run[k].heap, run[k + 1].heap)
  {
    RunKeepsInv(run, k);
    var s, s' := run[k], run[k + 1];
    assert Follows(run, k);
    if t :| Steps(s, s', t) {
      assert ThreadOk(s, t);
      StepExtends(s, s', t);
    }
  }

  // ---------- who waits for whom ----------

  /** The thread has locked node `n` and not unlocked it yet. */
  ghost predicate IsAt(th: Thread, n: nat) {
    || (th.act.Walk? && Holding(th.act.phase) && th.act.cur == n)
    || (th.act.Visit? && OnChain(th.act.frames, n))
  }

  predicate Changes(th: Thread) {
    th.act.Walk? && (th.act.op.Insert? || th.act.op.Delete?)
  }

  /** Two threads at one node at which one of them inserts or deletes. */
  ghost predicate Conflicts(s: State, t: Tid, u: Tid, n: nat) {
    t in s.threads && u in s.threads && IsAt(s.threads[u], n) && (Changes(s.threads[t]) || Changes(s.threads[u]))
  }

  /** A call about to lock a node waits exactly while a thread that conflicts with it is there: searches and walks pass
      each other. */
  lemma WaitsForConflict(run: seq<State>, k: nat, t: Tid)
    requires IsRun(run) && k < |run| && t in run[k].threads
    requires run[k].threads[t].act.Walk? && run[k].threads[t].act.phase == Lock
    ensures InBounds(run[k], run[k].threads[t])
    ensures Next(run[k], t) == None <==> exists u :: Conflicts(run[k], t, u, run[k].threads[t].act.cur)
  {
    RunKeepsInv(run, k);
    OkIsInBounds(run[k], t);
    LockedMeansConflict(run[k], t, run[k].threads[t].act.cur);
  }

  /** The same for a walk that is about to go down. */
  lemma WalkWaitsForConflict(run: seq<State>, k: nat, t: Tid)
    requires IsRun(run) && k < |run| && t in run[k].threads
    requires run[k].threads[t].act.Visit? && run[k].threads[t].act.pending.Some?
    ensures InBounds(run[k], run[k].threads[t])
    ensures Next(run[k], t) == None <==> exists u :: Conflicts(run[k], t, u, run[k].threads[t].act.pending.value)
  {
    RunKeepsInv(run, k);
    OkIsInBounds(run[k], t);
    LockedMeansConflict(run[k], t, run[k].threads[t].act.pending.value);
  }

  lemma LockedMeansConflict(s: State, t: Tid, n: nat)
    requires LocksOk(s) && t in s.threads && n < |s.locks|
    ensures !Grants(s.locks[n], Changes(s.threads[t])) <==> exists u :: Conflicts(s, t, u, n)
  {
    var l := s.locks[n];
    assert LockOk(s, n);
    if l.writer.Some? {
      assert HoldsWrite(s.threads[l.writer.value], n);
      assert Conflicts(s, t, l.writer.value, n);
    }
    if Changes(s.threads[t]) && l.readers != {} {
      var u :| u in l.readers;
      assert HoldsRead(s.threads[u], n);
      assert Conflicts(s, t, u, n);
    }
    if u :| Conflicts(s, t, u, n) {
      if Changes(s.threads[u]) {
        assert HoldsWrite(s.threads[u], n);
      } else {
        assert HoldsRead(s.threads[u], n);
        assert u in l.readers;
      }
    }
  }

  // ---------- deadlock freedom ----------

  /** The node a thread is about to lock, and whether for writing. */
  function Wants(th: Thread): Option<(nat, bool)> {
    match th.act
    case Ready => None
    case Walk(op, _, _, cur, phase) => if phase == Lock then Some((cur, Writes(op))) else None
    case Visit(_, pending, _) => if pending.Some? then Some((pending.value, false)) else None
  }

  /** Thread `t` can step even if readers queue behind waiting writers, as some lock implementations have it. */
  ghost predicate CanStep(s: State, t: Tid) {
    && t in s.threads && InBounds(s, s.threads[t]) && Next(s, t).Some?
    && match Wants(s.threads[t])
       case None => true
       case Some(want) => !want.1 ==> forall u :: u in s.threads ==> Wants(s.threads[u]) != Some((want.0, true))
  }

  ghost predicate StuckAtNode(s: State, t: Tid) {
    t in s.threads && Wants(s.threads[t]).Some? && !CanStep(s, t)
  }

  function Depth(s: State, t: Tid): nat
    requires t in s.threads
  {
    match Wants(s.threads[t])
    case None => 0
    case Some(want) => if want.0 < |s.heap| then |s.heap[want.0].path| else 0
  }

  lemma {:induction false} DeepestExists(s: State, w: set<Tid>) returns (d: Tid)
    requires w != {} && w <= s.threads.Keys
    ensures d in w && forall t :: t in w ==> Depth(s, t) <= Depth(s, d)
    decreases |w|
  {
    var t :| t in w;
    d := t;
    if x :| x in w && x != t {
      assert x in w - {t};
      var e := DeepestExists(s, w - {t});
      if Depth(s, e) > Depth(s, t) { d := e; }
    }
  }

  /** Whoever holds a lock that the deepest waiting thread wants can go on: collectors wait only further down,
      all others hold one lock and wait for none. */
  lemma HolderCanStep(s: State, h: Tid, n: nat)
    requires Inv(s) && n < |s.heap| && h in s.threads && (HoldsRead(s.threads[h], n) || HoldsWrite(s.threads[h], n))
    ensures CanStep(s, h) || (StuckAtNode(s, h) && Depth(s, h) > |s.heap[n].path|)
  {
    OkIsInBounds(s, h);
    HolderGoesOn(s, h, n);
  }

  lemma HolderGoesOn(s: State, h: Tid, n: nat)
    requires n < |s.heap| && h in s.threads && (HoldsRead(s.threads[h], n) || HoldsWrite(s.threads[h], n))
    requires ThreadOk(s, h) && InBounds(s, s.threads[h])
    ensures CanStep(s, h) || (StuckAtNode(s, h) && Depth(s, h) > |s.heap[n].path|)
  {
    if s.threads[h].act.Visit? {
      var k :| 0 <= k < |s.threads[h].act.frames| && s.threads[h].act.frames[k].node == n;
    }
  }

  lemma DeepestHasHolder(s: State, t: Tid) returns (h: Tid)
    requires Inv(s) && StuckAtNode(s, t)
    ensures h in s.threads
    ensures CanStep(s, h) || HoldsRead(s.threads[h], Wants(s.threads[t]).value.0)
            || HoldsWrite(s.threads[h], Wants(s.threads[t]).value.0)
  {
    OkIsInBounds(s, t);
    assert ThreadOk(s, t);
    var (n, write) := Wants(s.threads[t]).value;
    assert LockOk(s, n);
    if s.locks[n].writer.Some? {
      h := s.locks[n].writer.value;
    } else if s.locks[n].readers != {} {
      h :| h in s.locks[n].readers;
    } else {
      assert !write;
      h :| h in s.threads && Wants(s.threads[h]) == Some((n, true));
      OkIsInBounds(s, h);
    }
  }

  lemma StuckMeansProgressElsewhere(s: State, t: Tid) returns (u: Tid)
    requires Inv(s) && StuckAtNode(s, t)
    ensures CanStep(s, u)
  {
    var stuck := set x | x in s.threads && StuckAtNode(s, x);
    assert t in stuck;
    var d := DeepestExists(s, stuck);
    assert ThreadOk(s, d);
    u := DeepestHasHolder(s, d);
    if !CanStep(s, u) { HolderCanStep(s, u, Wants(s.threads[d]).value.0); }
  }

  lemma CacheHolderSteps(s: State, u: Tid)
    requires s.cache == Some(u) && u in s.threads && ThreadOk(s, u) && InBounds(s, s.threads[u])
    ensures CanStep(s, u)
  {
  }

  lemma UnstuckSteps(s: State, u: Tid)
    requires s.cache == None && (s.mutex == None || s.mutex == Some(u)) && u in s.threads && !StuckAtNode(s, u)
    requires ThreadOk(s, u) && InBounds(s, s.threads[u]) && !Finished(s.threads[u])
    ensures CanStep(s, u)
  {
  }

  lemma SomeoneSteps(s: State, t: Tid) returns (u: Tid)
    requires Inv(s) && t in s.threads && !Finished(s.threads[t])
    ensures CanStep(s, u)
  {
    if s.cache.Some? {
      u := s.cache.value;
      OkIsInBounds(s, u);
      CacheHolderSteps(s, u);
    } else if x :| x in s.threads && StuckAtNode(s, x) {
      u := StuckMeansProgressElsewhere(s, x);
    } else {
      u := if s.mutex.Some? then s.mutex.value else t;
      OkIsInBounds(s, u);
      assert ThreadOk(s, u);
      UnstuckSteps(s, u);
    }
  }

  /** In every reachable state with an unfinished request, some thread can step. */
  lemma NoDeadlock(run: seq<State>, k: nat, t: Tid) returns (u: Tid)
    requires IsRun(run) && k < |run| && t in run[k].threads && !Finished(run[k].threads[t])
    ensures CanStep(run[k], u)
  {
    RunKeepsInv(run, k);
    u := SomeoneSteps(run[k], t);
  }
}
