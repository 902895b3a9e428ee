/** Every step keeps the invariant: one lemma per kind of step. */
module TrieSteps {
  import opened Paths
  import opened Protocol
  import opened PathTree
  import opened RwLocks
  import opened Linearizability
  import opened Tries
  import opened TrieThreads
  import opened TrieInvariant

  // ---------- the heap ----------

  lemma StoreKeepsHeap(heap: seq<Node>, n: nat, info: Option<Srv>)
    requires HeapOk(heap) && n < |heap|
    ensures HeapOk(heap[n := heap[n].(info := info)])
    ensures Labels(heap[n := heap[n].(info := info)]) == Labels(heap)
  {
    var heap' := heap[n := heap[n].(info := info)];
    forall k, b: PathByte | 0 <= k < |heap'| ensures Edge(heap', k, b) { assert Edge(heap, k, b); }
    forall k | 0 <= k < |heap'| ensures HasParent(heap', k) {
      assert HasParent(heap, k);
      if heap[k].path != [] {
        var j, b: PathByte :| 0 <= j < |heap| && b in heap[j].children && heap[k].path == heap[j].path + [b];
        assert b in heap'[j].children && heap'[k].path == heap'[j].path + [b];
      }
    }
    SameLabels(heap, heap');
  }

  lemma SameLabels(heap: seq<Node>, heap': seq<Node>)
    requires |heap'| == |heap| && forall k :: 0 <= k < |heap| ==> heap'[k].path == heap[k].path
    ensures Labels(heap') == Labels(heap)
  {
    forall p ensures p in Labels(heap) <==> p in Labels(heap') {
      if p in Labels(heap) {
        var k :| 0 <= k < |heap| && heap[k].path == p;
        assert heap'[k].path == p;
      }
      if p in Labels(heap') {
        var k :| 0 <= k < |heap'| && heap'[k].path == p;
        assert heap[k].path == p;
      }
    }
  }

  /** Reaching the node of the whole path, an operation does there what it does to the map. */
  lemma AccessRepresents(heap: seq<Node>, m: map<Path, Srv>, n: nat, op: Op, res: Res, info: Option<Srv>)
    requires HeapOk(heap) && Represents(heap, m) && n < |heap| && heap[n].path == op.path
    requires info == match op case Insert(_, v) => Some(v) case Search(_) => heap[n].info case Delete(_) => None
    requires res == if op.Search? then heap[n].info else None
    ensures Legal(m, op, res)
    ensures HeapOk(heap[n := heap[n].(info := info)])
    ensures Represents(heap[n := heap[n].(info := info)], Effect(m, op, res))
  {
    var heap', m' := heap[n := heap[n].(info := info)], Effect(m, op, res);
    StoreKeepsHeap(heap, n, info);
    assert heap[n].path in Labels(heap);
    forall k | 0 <= k < |heap'| ensures heap'[k].info == Lookup(m', heap'[k].path) {
      assert heap[k].info == Lookup(m, heap[k].path);
      assert k != n ==> heap[k].path != heap[n].path;
    }
  }

  function WithChild(heap: seq<Node>, n: nat, b: PathByte): seq<Node>
    requires n < |heap|
  {
    heap[n := heap[n].(children := heap[n].children[b := |heap|])] + [Node(heap[n].path + [b], map[], None)]
  }

  lemma ChildKeepsHeap(heap: seq<Node>, n: nat, b: PathByte)
    requires HeapOk(heap) && n < |heap| && b !in heap[n].children
    ensures HeapOk(WithChild(heap, n, b))
  {
    var heap' := WithChild(heap, n, b);
    var longer := heap[n].path + [b];
    assert heap'[|heap|].path == longer && b in heap'[n].children;
    assert forall k :: 0 <= k < |heap| ==> heap'[k].path == heap[k].path;
    forall k, c: PathByte | 0 <= k < |heap'| ensures Edge(heap', k, c) {
      assert k < |heap| ==> Edge(heap, k, c);
    }
    assert longer[..|longer| - 1] == heap[n].path && longer[|longer| - 1] == b;
    NoNodeBeyond(heap, n, longer, |heap[n].path|);
    forall k | 0 <= k < |heap| ensures heap'[k].path != longer {
      assert heap[k].path in Labels(heap);
    }
    forall k | 0 <= k < |heap'| ensures HasParent(heap', k) {
      if k < |heap| {
        assert HasParent(heap, k);
        if heap[k].path != [] {
          var j, c: PathByte :| 0 <= j < |heap| && c in heap[j].children && heap[k].path == heap[j].path + [c];
          assert c in heap'[j].children && heap'[k].path == heap'[j].path + [c];
        }
      }
    }
  }

  lemma ChildRepresents(heap: seq<Node>, n: nat, b: PathByte, m: map<Path, Srv>)
    requires HeapOk(heap) && n < |heap| && b !in heap[n].children && Represents(heap, m)
    ensures Represents(WithChild(heap, n, b), m)
  {
    var heap' := WithChild(heap, n, b);
    var longer := heap[n].path + [b];
    assert longer[..|longer| - 1] == heap[n].path && longer[|longer| - 1] == b;
    NoNodeBeyond(heap, n, longer, |heap[n].path|);
    forall k | 0 <= k < |heap'| ensures heap'[k].info == Lookup(m, heap'[k].path) {
      if k < |heap| {
        assert heap[k].info == Lookup(m, heap[k].path);
        assert heap'[k].path == heap[k].path && heap'[k].info == heap[k].info;
      }
    }
    forall p | p in m ensures p in Labels(heap') {
      var k :| 0 <= k < |heap| && heap[k].path == p;
      assert heap'[k].path == p;
    }
  }

  // ---------- the locks ----------

  /** Thread `t` changes from `a` to `b`; nobody else changes. */
  predicate OnlyThread(s: State, s': State, t: Tid) {
    t in s.threads && t in s'.threads && s'.threads == s.threads[t := s'.threads[t]]
  }

  lemma SameHoldingsKeepLocks(s: State, s': State, t: Tid)
    requires LocksOk(s) && OnlyThread(s, s', t) && s'.locks == s.locks
    requires forall n: nat :: HoldsWrite(s'.threads[t], n) == HoldsWrite(s.threads[t], n)
    requires forall n: nat :: HoldsRead(s'.threads[t], n) == HoldsRead(s.threads[t], n)
    ensures LocksOk(s')
  {
    forall n | 0 <= n < |s'.locks| ensures LockOk(s', n) { assert LockOk(s, n); }
  }

  lemma AcquireKeepsLocks(s: State, s': State, t: Tid, n: nat, write: bool)
    requires LocksOk(s) && OnlyThread(s, s', t) && n < |s.locks| && Grants(s.locks[n], write)
    requires s'.locks == s.locks[n := Acquire(s.locks[n], t, write)]
    requires forall k: nat :: HoldsWrite(s'.threads[t], k) == (HoldsWrite(s.threads[t], k) || (write && k == n))
    requires forall k: nat :: HoldsRead(s'.threads[t], k) == (HoldsRead(s.threads[t], k) || (!write && k == n))
    ensures LocksOk(s')
  {
    forall k | 0 <= k < |s'.locks| ensures LockOk(s', k) { assert LockOk(s, k); }
  }

  lemma ReleaseKeepsLocks(s: State, s': State, t: Tid, n: nat)
    requires LocksOk(s) && OnlyThread(s, s', t) && n < |s.locks|
    requires s'.locks == s.locks[n := Release(s.locks[n], t)]
    requires forall k: nat :: HoldsWrite(s'.threads[t], k) == (HoldsWrite(s.threads[t], k) && k != n)
    requires forall k: nat :: HoldsRead(s'.threads[t], k) == (HoldsRead(s.threads[t], k) && k != n)
    ensures LocksOk(s')
  {
    forall k | 0 <= k < |s'.locks| ensures LockOk(s', k) { assert LockOk(s, k); }
  }

  lemma NewNodeKeepsLocks(s: State, s': State, t: Tid)
    requires LocksOk(s) && OnlyThread(s, s', t) && s'.locks == s.locks + [UNHELD]
    requires forall k: nat :: HoldsWrite(s'.threads[t], k) == HoldsWrite(s.threads[t], k)
    requires forall k: nat :: HoldsRead(s'.threads[t], k) == HoldsRead(s.threads[t], k)
    requires forall u, k: nat :: u in s.threads && k >= |s.locks| ==>
               !HoldsWrite(s.threads[u], k) && !HoldsRead(s.threads[u], k)
    ensures LocksOk(s')
  {
    forall k | 0 <= k < |s'.locks| ensures LockOk(s', k) { assert k < |s.locks| ==> LockOk(s, k); }
  }

  lemma NobodyHoldsNewNodes(s: State)
    requires Inv(s)
    ensures forall u, k: nat :: u in s.threads && k >= |s.locks| ==>
              !HoldsWrite(s.threads[u], k) && !HoldsRead(s.threads[u], k)
  {
    forall u, k: nat | u in s.threads && k >= |s.locks|
      ensures !HoldsWrite(s.threads[u], k) && !HoldsRead(s.threads[u], k)
    {
      assert ThreadOk(s, u);
    }
  }

  // ---------- putting a step together ----------

  lemma OthersStayOk(s: State, s': State, t: Tid)
    requires ThreadsOk(s) && OnlyThread(s, s', t) && ThreadOk(s', t)
    requires forall u :: u in s.threads && u != t ==> Tolerates(s, s', u)
    ensures ThreadsOk(s')
  {
    forall u | u in s'.threads && u != t ensures ThreadOk(s', u) {
      OthersKeep(s, s', u);
    }
  }

  /** The call thread `t` is in after the step is the one it was in, or a new one. */
  predicate SameOrNewCall(s: State, s': State, t: Tid)
    requires t in s.threads && t in s'.threads
  {
    s'.threads[t].act.Walk? ==>
      || (s.threads[t].act.Walk? && s'.threads[t].act.call == s.threads[t].act.call)
      || s'.threads[t].act.call !in s.rec.calls
  }

  lemma CallsStayDifferent(s: State, s': State, t: Tid)
    requires ThreadsOk(s) && CallsDiffer(s) && OnlyThread(s, s', t) && SameOrNewCall(s, s', t)
    ensures CallsDiffer(s')
  {
    forall u | u in s.threads && u != t && s.threads[u].act.Walk? ensures s.threads[u].act.call in s.rec.calls {
      assert ThreadOk(s, u);
    }
  }

  lemma Assemble(s: State, s': State, t: Tid)
    requires Inv(s) && OnlyThread(s, s', t) && DataOk(s') && LocksOk(s') && ThreadOk(s', t) && SameOrNewCall(s, s', t)
    requires forall u :: u in s.threads && u != t ==> Tolerates(s, s', u)
    requires s'.mutex == s.mutex || s'.mutex == None || s'.mutex == Some(t)
    requires s'.cache == s.cache || s'.cache == None || s'.cache == Some(t)
    ensures Inv(s')
  {
    OthersStayOk(s, s', t);
    CallsStayDifferent(s, s', t);
  }

  /** A step without calls or accesses to nodes. */
  lemma QuietStep(s: State, s': State, t: Tid)
    requires ThreadsOk(s) && OnlyThread(s, s', t) && s'.heap == s.heap && s'.rec == s.rec
    requires forall u :: u != t ==> (s.mutex == Some(u) <==> s'.mutex == Some(u))
    requires forall u :: u != t ==> (s.cache == Some(u) <==> s'.cache == Some(u))
    ensures forall u :: u in s.threads && u != t ==> Tolerates(s, s', u)
  {
    forall u | u in s.threads && u != t ensures Tolerates(s, s', u) {
      assert ThreadOk(s, u);
    }
  }

  /** A step that records the effect of `t`'s call. */
  lemma EffectStep(s: State, s': State, t: Tid, res: Res)
    requires ThreadsOk(s) && CallsDiffer(s) && OnlyThread(s, s', t) && s.threads[t].act.Walk?
    requires s.threads[t].act.call in s.rec.calls && s'.rec == TakeEffect(s.rec, s.threads[t].act.call, res)
    requires s'.mutex == s.mutex && s'.cache == s.cache && |s'.heap| == |s.heap|
    requires forall n :: 0 <= n < |s.heap| ==>
               s'.heap[n].path == s.heap[n].path && s'.heap[n].children == s.heap[n].children
    ensures forall u :: u in s.threads && u != t ==> Tolerates(s, s', u)
  {
    forall u | u in s.threads && u != t ensures Tolerates(s, s', u) {
      assert ThreadOk(s, u);
    }
  }

  // ---------- the steps ----------

  lemma StartKeepsInv(s: State, s': State, t: Tid, script: seq<Action>)
    requires Inv(s) && Starts(s, s', t, script)
    ensures Inv(s')
  {
    forall n | 0 <= n < |s'.locks| ensures LockOk(s', n) { assert LockOk(s, n); }
    forall u | u in s'.threads ensures ThreadOk(s', u) {
      if u != t { assert ThreadOk(s, u); OthersKeep(s, s', u); }
    }
  }

  lemma ReadyKeepsInv(s: State, s': State, t: Tid)
    requires Inv(s) && t in s.threads && s.threads[t].act.Ready? && ReadyNext(s, t) == Some(s')
    ensures Inv(s')
  {
    ReadyKeepsLocks(s, s', t);
    if s.threads[t].script[0].Call? { CallKeepsInv(s, s', t, s.threads[t].script[0].op); }
    else { SyncKeepsInv(s, s', t); }
  }

  lemma ReadyKeepsLocks(s: State, s': State, t: Tid)
    requires LocksOk(s) && |s.heap| > 0 && t in s.threads && s.threads[t].act.Ready? && ReadyNext(s, t) == Some(s')
    ensures LocksOk(s') && s.threads[t].script != []
  {
    SameHoldingsKeepLocks(s, s', t);
  }

  /** Nobody's but the thread's own holding of a mutex changes. */
  predicate OwnMutex(m: Option<Tid>, m': Option<Tid>, t: Tid) {
    m' == m || (m == None && m' == Some(t)) || (m == Some(t) && m' == None)
  }

  /** What an action between calls changes. */
  ghost predicate Syncs(s: State, s': State, t: Tid) {
    && OnlyThread(s, s', t) && s' == s.(threads := s'.threads, mutex := s'.mutex, cache := s'.cache)
    && OwnMutex(s.mutex, s'.mutex, t) && OwnMutex(s.cache, s'.cache, t)
    && ThreadOk(s', t) && !s'.threads[t].act.Walk?
  }

  lemma SyncKeepsInv(s: State, s': State, t: Tid)
    requires Inv(s) && t in s.threads && s.threads[t].act.Ready? && ReadyNext(s, t) == Some(s') && LocksOk(s')
    requires s.threads[t].script != [] && !s.threads[t].script[0].Call?
    ensures Inv(s')
  {
    assert ThreadOk(s, t);
    ActionSyncs(s, s', t);
    SyncsKeepInv(s, s', t);
  }

  lemma ActionSyncs(s: State, s': State, t: Tid)
    requires |s.heap| > 0 && t in s.threads && ThreadOk(s, t) && s.threads[t].act.Ready? && ReadyNext(s, t) == Some(s')
    requires s.threads[t].script != [] && !s.threads[t].script[0].Call? && HeapOk(s.heap)
    ensures Syncs(s, s', t)
  {
  }

  lemma SyncsKeepInv(s: State, s': State, t: Tid)
    requires Inv(s) && Syncs(s, s', t) && LocksOk(s')
    ensures Inv(s')
  {
    QuietStep(s, s', t);
    Assemble(s, s', t);
  }

  lemma CallKeepsInv(s: State, s': State, t: Tid, op: Op)
    requires Inv(s) && t in s.threads && s.threads[t].act.Ready? && ReadyNext(s, t) == Some(s') && LocksOk(s')
    requires s.threads[t].script[0] == Call(op)
    ensures Inv(s')
  {
    assert ThreadOk(s, t);
    BeginKeeps(s.rec, NewCall(s.rec), op);
    assert s.heap[0].path == op.path[..0];
    Assemble(s, s', t);
  }

  lemma LockKeepsInv(s: State, s': State, t: Tid)
    requires Inv(s) && t in s.threads && InBounds(s, s.threads[t])
    requires s.threads[t].act.Walk? && s.threads[t].act.phase == Lock && WalkNext(s, t) == Some(s')
    ensures Inv(s')
  {
    assert ThreadOk(s, t);
    var w := s.threads[t].act;
    AcquireKeepsLocks(s, s', t, w.cur, Writes(w.op));
    Assemble(s, s', t);
  }

  lemma LeaveKeepsInv(s: State, s': State, t: Tid)
    requires Inv(s) && t in s.threads && InBounds(s, s.threads[t])
    requires s.threads[t].act.Walk? && s.threads[t].act.phase == Leave && WalkNext(s, t) == Some(s')
    ensures Inv(s')
  {
    assert ThreadOk(s, t);
    ReleaseKeepsLocks(s, s', t, s.threads[t].act.cur);
    Assemble(s, s', t);
  }

  lemma StepKeepsInv(s: State, s': State, t: Tid)
    requires Inv(s) && t in s.threads && InBounds(s, s.threads[t])
    requires s.threads[t].act.Walk? && s.threads[t].act.phase == Step && WalkNext(s, t) == Some(s')
    ensures Inv(s')
  {
    assert ThreadOk(s, t);
    var w := s.threads[t].act;
    assert Edge(s.heap, w.cur, w.op.path[w.i]);
    assert w.op.path[..w.i + 1] == w.op.path[..w.i] + [w.op.path[w.i]];
    SameHoldingsKeepLocks(s, s', t);
    Assemble(s, s', t);
  }

  /** What the end of a call changes. */
  ghost predicate CallEnds(s: State, s': State, t: Tid) {
    && OnlyThread(s, s', t) && s.threads[t].act.Walk? && s.threads[t].act.phase.Unlock? && s.threads[t].script != []
    && var w := s.threads[t].act;
       && w.cur < |s.locks| && w.call in s.rec.calls
       && s' == s.(threads := s'.threads, locks := s.locks[w.cur := Release(s.locks[w.cur], t)],
                   rec := End(s.rec, w.call, w.phase.res))
       && s'.threads[t] == Thread(s.threads[t].script[1..], Ready)
  }

  lemma EndTolerated(s: State, s': State, t: Tid)
    requires ThreadsOk(s) && CallsDiffer(s) && CallEnds(s, s', t)
    ensures forall u :: u in s.threads && u != t ==> Tolerates(s, s', u)
  {
    forall u | u in s.threads && u != t ensures Tolerates(s, s', u) {
      assert ThreadOk(s, u);
      assert s'.threads[u] == s.threads[u];
    }
  }

  lemma EndKeepsOwn(s: State, s': State, t: Tid)
    requires DataOk(s) && CallEnds(s, s', t) && ThreadOk(s, t)
    ensures DataOk(s') && ThreadOk(s', t) && SameOrNewCall(s, s', t)
  {
    var w := s.threads[t].act;
    EndKeeps(s.rec, w.call, w.op, w.phase.res);
  }

  lemma EndKeepsLocks(s: State, s': State, t: Tid)
    requires LocksOk(s) && CallEnds(s, s', t)
    ensures LocksOk(s')
  {
    ReleaseKeepsLocks(s, s', t, s.threads[t].act.cur);
  }

  lemma UnlockKeepsInv(s: State, s': State, t: Tid)
    requires Inv(s) && CallEnds(s, s', t)
    ensures Inv(s')
  {
    assert ThreadOk(s, t);
    EndTolerated(s, s', t);
    EndKeepsOwn(s, s', t);
    EndKeepsLocks(s, s', t);
    Assemble(s, s', t);
  }

  /** The decision at a node: the linearization point, unless the walk goes on. */
  lemma AtKeepsInv(s: State, s': State, t: Tid)
    requires Inv(s) && t in s.threads && InBounds(s, s.threads[t])
    requires s.threads[t].act.Walk? && s.threads[t].act.phase == At && WalkNext(s, t) == Some(s')
    ensures Inv(s')
  {
    var w := s.threads[t].act;
    SameHoldingsKeepLocks(s, s', t);
    if w.i < |w.op.path| && (w.op.path[w.i] in s.heap[w.cur].children || w.op.Insert?) {
      GoOnKeepsThread(s, s', t);
      QuietStep(s, s', t);
      Assemble(s, s', t);
    } else {
      EffectKeepsInv(s, s', t);
    }
  }

  lemma EffectKeepsInv(s: State, s': State, t: Tid)
    requires Inv(s) && t in s.threads && InBounds(s, s.threads[t])
    requires s.threads[t].act.Walk? && s.threads[t].act.phase == At && WalkNext(s, t) == Some(s') && LocksOk(s')
    requires var w := s.threads[t].act;
             w.i == |w.op.path| || (w.op.path[w.i] !in s.heap[w.cur].children && !w.op.Insert?)
    ensures Inv(s')
  {
    if s.threads[t].act.i == |s.threads[t].act.op.path| { AccessKeepsData(s, s', t); }
    else { MissStep(s, s', t); assert ThreadOk(s, t); MissKeepsData(s, s', t); }
    EffectTolerated(s, s', t);
    Assemble(s, s', t);
  }

  lemma EffectTolerated(s: State, s': State, t: Tid)
    requires Inv(s) && t in s.threads && InBounds(s, s.threads[t])
    requires s.threads[t].act.Walk? && s.threads[t].act.phase == At && WalkNext(s, t) == Some(s')
    requires var w := s.threads[t].act;
             w.i == |w.op.path| || (w.op.path[w.i] !in s.heap[w.cur].children && !w.op.Insert?)
    ensures forall u :: u in s.threads && u != t ==> Tolerates(s, s', u)
    ensures SameOrNewCall(s, s', t)
  {
    EffectStep(s, s', t, s'.threads[t].act.phase.res);
  }

  lemma GoOnKeepsThread(s: State, s': State, t: Tid)
    requires Inv(s) && t in s.threads && InBounds(s, s.threads[t])
    requires s.threads[t].act.Walk? && s.threads[t].act.phase == At && WalkNext(s, t) == Some(s')
    requires var w := s.threads[t].act;
             w.i < |w.op.path| && (w.op.path[w.i] in s.heap[w.cur].children || w.op.Insert?)
    ensures ThreadOk(s', t)
  {
    assert ThreadOk(s, t);
  }

  lemma AccessKeepsData(s: State, s': State, t: Tid)
    requires Inv(s) && t in s.threads && InBounds(s, s.threads[t])
    requires s.threads[t].act.Walk? && s.threads[t].act.phase == At && WalkNext(s, t) == Some(s')
    requires s.threads[t].act.i == |s.threads[t].act.op.path|
    ensures DataOk(s') && ThreadOk(s', t)
  {
    assert ThreadOk(s, t);
    var w := s.threads[t].act;
    var info := s'.heap[w.cur].info;
    var res := s'.threads[t].act.phase.res;
    assert w.op.path[..w.i] == w.op.path;
    AccessRepresents(s.heap, Replay(PathMap(), s.rec.lin), w.cur, w.op, res, info);
    LegalRunGrows(PathMap(), s.rec, w.call, res);
    TakeEffectKeeps(s.rec, w.call, w.op, res);
  }

  /** What a call that finds no child changes. */
  ghost predicate Misses(s: State, s': State, t: Tid) {
    && OnlyThread(s, s', t) && s.threads[t].act.Walk? && s.threads[t].act.phase == At
    && var w := s.threads[t].act;
       && w.call in s.rec.calls && w.i < |w.op.path| && w.cur < |s.heap| && w.op.path[w.i] !in s.heap[w.cur].children
       && !w.op.Insert?
       && s' == s.(threads := s'.threads, rec := TakeEffect(s.rec, w.call, None))
       && s'.threads[t] == s.threads[t].(act := w.(phase := Unlock(None)))
  }

  lemma MissStep(s: State, s': State, t: Tid)
    requires t in s.threads && InBounds(s, s.threads[t])
    requires s.threads[t].act.Walk? && s.threads[t].act.phase == At && WalkNext(s, t) == Some(s')
    requires var w := s.threads[t].act;
             w.i < |w.op.path| && w.op.path[w.i] !in s.heap[w.cur].children && !w.op.Insert?
    ensures Misses(s, s', t)
  {
  }

  lemma MissKeepsData(s: State, s': State, t: Tid)
    requires DataOk(s) && Misses(s, s', t) && ThreadOk(s, t)
    ensures DataOk(s') && ThreadOk(s', t)
  {
    var w := s.threads[t].act;
    MissIsLegal(s, w);
    MissRecorded(s.rec, w);
  }

  lemma MissRecorded(r: Recorder<Op, Res>, w: Activity)
    requires WellRecorded(r) && w.Walk? && Pending(r, w.call, w.op)
    ensures WellRecorded(TakeEffect(r, w.call, None)) && Effective(TakeEffect(r, w.call, None), w.call, w.op, None)
  {
    TakeEffectKeeps(r, w.call, w.op, None);
  }

  lemma MissIsLegal(s: State, w: Activity)
    requires DataOk(s) && w.Walk? && WalkOk(s, w) && w.phase == At
    requires w.i < |w.op.path| && w.op.path[w.i] !in s.heap[w.cur].children && !w.op.Insert?
    ensures w.call in s.rec.calls && LegalRun(PathMap(), TakeEffect(s.rec, w.call, None).lin)
    ensures Replay(PathMap(), TakeEffect(s.rec, w.call, None).lin) == Replay(PathMap(), s.rec.lin)
  {
    NoNodeBeyond(s.heap, w.cur, w.op.path, w.i);
    MissHasNoEffect(Replay(PathMap(), s.rec.lin), w.op);
    LegalRunGrows(PathMap(), s.rec, w.call, None);
  }

  lemma MissHasNoEffect(m: map<Path, Srv>, op: Op)
    requires op.path !in m && !op.Insert?
    ensures Legal(m, op, None) && Effect(m, op, None) == m
  {
  }

  lemma MakeKeepsInv(s: State, s': State, t: Tid)
    requires Inv(s) && t in s.threads && InBounds(s, s.threads[t])
    requires s.threads[t].act.Walk? && s.threads[t].act.phase == Make && WalkNext(s, t) == Some(s')
    ensures Inv(s')
  {
    assert ThreadOk(s, t);
    var w := s.threads[t].act;
    var b := w.op.path[w.i];
    ChildKeepsHeap(s.heap, w.cur, b);
    ChildRepresents(s.heap, w.cur, b, Replay(PathMap(), s.rec.lin));
    NobodyHoldsNewNodes(s);
    NewNodeKeepsLocks(s, s', t);
    forall u | u in s.threads && u != t ensures Tolerates(s, s', u) {
      OnlyOneWriter(s, t, u, w.cur);
    }
    Assemble(s, s', t);
  }

  /** The write lock keeps a second thread from creating the same child. */
  lemma OnlyOneWriter(s: State, t: Tid, u: Tid, n: nat)
    requires LocksOk(s) && n < |s.locks| && t in s.threads && u in s.threads && t != u && HoldsWrite(s.threads[t], n)
    ensures !HoldsWrite(s.threads[u], n) && !HoldsRead(s.threads[u], n)
  {
    assert LockOk(s, n);
  }

  lemma VisitKeepsInv(s: State, s': State, t: Tid)
    requires Inv(s) && t in s.threads && InBounds(s, s.threads[t])
    requires s.threads[t].act.Visit? && VisitNext(s, t) == Some(s')
    ensures Inv(s')
  {
    assert ThreadOk(s, t);
    var Visit(frames, pending, _) := s.threads[t].act;
    if pending.Some? { EnterKeepsInv(s, s', t, frames, pending.value); }
    else if frames == [] { DoneKeepsInv(s, s', t); }
    else if frames[|frames| - 1].next == 256 { ExitKeepsInv(s, s', t, frames); }
    else { AdvanceKeepsInv(s, s', t, frames); }
  }

  lemma DoneKeepsInv(s: State, s': State, t: Tid)
    requires Inv(s) && t in s.threads && InBounds(s, s.threads[t])
    requires s.threads[t].act.Visit? && s.threads[t].act.frames == [] && s.threads[t].act.pending == None
    requires VisitNext(s, t) == Some(s')
    ensures Inv(s')
  {
    assert ThreadOk(s, t);
    SameHoldingsKeepLocks(s, s', t);
    QuietStep(s, s', t);
    Assemble(s, s', t);
  }

  lemma EnterKeepsInv(s: State, s': State, t: Tid, frames: seq<Frame>, n: nat)
    requires Inv(s) && t in s.threads && InBounds(s, s.threads[t])
    requires s.threads[t].act.Visit? && s.threads[t].act == Visit(frames, Some(n), s.threads[t].act.found)
    requires VisitNext(s, t) == Some(s')
    ensures Inv(s')
  {
    assert ThreadOk(s, t);
    PushHolds(frames, Frame(n, 0));
    AcquireKeepsLocks(s, s', t, n, false);
    QuietStep(s, s', t);
    Assemble(s, s', t);
  }

  lemma ExitKeepsInv(s: State, s': State, t: Tid, frames: seq<Frame>)
    requires Inv(s) && t in s.threads && InBounds(s, s.threads[t])
    requires s.threads[t].act.Visit? && s.threads[t].act == Visit(frames, None, s.threads[t].act.found)
    requires VisitNext(s, t) == Some(s')
    requires frames != [] && frames[|frames| - 1].next == 256
    ensures Inv(s')
  {
    assert ThreadOk(s, t);
    PopHolds(frames);
    ReleaseKeepsLocks(s, s', t, frames[|frames| - 1].node);
    QuietStep(s, s', t);
    Assemble(s, s', t);
  }

  lemma AdvanceKeepsInv(s: State, s': State, t: Tid, frames: seq<Frame>)
    requires Inv(s) && t in s.threads && InBounds(s, s.threads[t])
    requires s.threads[t].act.Visit? && s.threads[t].act == Visit(frames, None, s.threads[t].act.found)
    requires VisitNext(s, t) == Some(s')
    requires frames != [] && frames[|frames| - 1].next < 256
    ensures Inv(s')
  {
    AdvanceKeepsLocks(s, s', t, frames);
    QuietStep(s, s', t);
    AdvanceKeepsThread(s, s', t, frames);
    Assemble(s, s', t);
  }

  lemma AdvanceKeepsLocks(s: State, s': State, t: Tid, frames: seq<Frame>)
    requires LocksOk(s) && t in s.threads && InBounds(s, s.threads[t])
    requires s.threads[t].act.Visit? && s.threads[t].act == Visit(frames, None, s.threads[t].act.found)
    requires VisitNext(s, t) == Some(s') && frames != [] && frames[|frames| - 1].next < 256
    ensures LocksOk(s') && s'.locks == s.locks
  {
    TurnHolds(frames, frames[|frames| - 1].next + 1);
    SameHoldingsKeepLocks(s, s', t);
  }

  lemma AdvanceKeepsThread(s: State, s': State, t: Tid, frames: seq<Frame>)
    requires Inv(s) && t in s.threads && InBounds(s, s.threads[t])
    requires s.threads[t].act.Visit? && s.threads[t].act == Visit(frames, None, s.threads[t].act.found)
    requires VisitNext(s, t) == Some(s') && frames != [] && frames[|frames| - 1].next < 256
    ensures ThreadOk(s', t)
  {
    assert ThreadOk(s, t);
    var act' := s'.threads[t].act;
    AdvanceKeepsVisit(s, s.threads[t].act, act');
    assert VisitOk(s'.heap, act');
  }

  lemma AdvanceKeepsVisit(s: State, v: Activity, v': Activity)
    requires HeapOk(s.heap) && v.Visit? && v'.Visit? && VisitOk(s.heap, v) && v.pending == None && v.frames != []
    requires
      var f := v.frames[|v.frames| - 1];
      && f.next < 256 && v'.frames == v.frames[|v.frames| - 1 := f.(next := f.next + 1)]
      && (v'.pending == None || (f.next > 0 && f.next as PathByte in s.heap[f.node].children
                                 && v'.pending == Some(s.heap[f.node].children[f.next as PathByte])))
    ensures VisitOk(s.heap, v')
  {
    var k := |v.frames| - 1;
    var f := v.frames[k];
    forall j | 0 <= j < k ensures GoneDown(s.heap, v'.frames[j], v'.frames[j + 1].node) {
      assert GoneDown(s.heap, v.frames[j], v.frames[j + 1].node);
    }
    if v'.pending.Some? { assert Edge(s.heap, f.node, f.next as PathByte); }
  }

  lemma PushHolds(frames: seq<Frame>, f: Frame)
    ensures forall n: nat :: OnChain(frames + [f], n) <==> OnChain(frames, n) || n == f.node
  {
    var pushed := frames + [f];
    assert pushed[|frames|] == f;
    forall n: nat | OnChain(frames, n) ensures OnChain(pushed, n) {
      var k :| 0 <= k < |frames| && frames[k].node == n;
      assert pushed[k].node == n;
    }
  }

  lemma PopHolds(frames: seq<Frame>)
    requires frames != [] && forall j, k :: 0 <= j < k < |frames| ==> frames[j].node != frames[k].node
    ensures forall n: nat :: OnChain(frames[..|frames| - 1], n)
                        <==> OnChain(frames, n) && n != frames[|frames| - 1].node
  {
    var m := |frames| - 1;
    forall n: nat | OnChain(frames, n) && n != frames[m].node ensures OnChain(frames[..m], n) {
      var k :| 0 <= k < |frames| && frames[k].node == n;
      assert frames[..m][k].node == n;
    }
  }

  lemma TurnHolds(frames: seq<Frame>, next: nat)
    requires frames != []
    ensures forall n: nat ::
              OnChain(frames[|frames| - 1 := frames[|frames| - 1].(next := next)], n) <==> OnChain(frames, n)
  {
    var turned := frames[|frames| - 1 := frames[|frames| - 1].(next := next)];
    assert forall k :: 0 <= k < |frames| ==> turned[k].node == frames[k].node;
    forall n: nat | OnChain(frames, n) ensures OnChain(turned, n) {
      var k :| 0 <= k < |frames| && frames[k].node == n;
      assert turned[k].node == n;
    }
  }
}
