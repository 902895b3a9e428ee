/** What every step of the concurrent trie keeps. */
module TrieInvariant {
  import opened Paths
  import opened Protocol
  import opened PathTree
  import opened RwLocks
  import opened Linearizability
  import opened Tries
  import opened TrieThreads

  // ---------- the heap is a tree ----------

  ghost predicate Edge(heap: seq<Node>, n: nat, b: PathByte)
    requires n < |heap|
  {
    b in heap[n].children ==>
      heap[n].children[b] < |heap| && heap[heap[n].children[b]].path == heap[n].path + [b]
  }

  /** Some node has `m` as its child. */
  ghost predicate HasParent(heap: seq<Node>, m: nat)
    requires m < |heap|
  {
    || heap[m].path == []
    || exists n, b: PathByte :: 0 <= n < |heap| && b in heap[n].children && heap[m].path == heap[n].path + [b]
  }

  ghost predicate HeapOk(heap: seq<Node>) {
    && |heap| > 0 && heap[0].path == []
    && (forall n, b: PathByte :: 0 <= n < |heap| ==> Edge(heap, n, b))
    && (forall m, n :: 0 <= m < n < |heap| ==> heap[m].path != heap[n].path)
    && (forall m :: 0 <= m < |heap| ==> HasParent(heap, m))
  }

  ghost function Labels(heap: seq<Node>): set<Path> {
    set n | 0 <= n < |heap| :: heap[n].path
  }

  lemma LabelsPrefixClosed(heap: seq<Node>)
    requires HeapOk(heap)
    ensures PrefixClosed(Labels(heap))
  {
    assert heap[0].path in Labels(heap);
    forall p: Path, b: PathByte | p + [b] in Labels(heap) ensures p in Labels(heap) {
      var m :| 0 <= m < |heap| && heap[m].path == p + [b];
      assert HasParent(heap, m);
      var n, c: PathByte :| 0 <= n < |heap| && c in heap[n].children && heap[m].path == heap[n].path + [c];
      AppendInjective(p, b, heap[n].path, c);
      assert heap[n].path in Labels(heap);
    }
  }

  /** Where a walk finds no child, no longer string has a node. */
  lemma NoNodeBeyond(heap: seq<Node>, n: nat, path: Path, i: nat)
    requires HeapOk(heap) && n < |heap| && i < |path| && heap[n].path == path[..i] && path[i] !in heap[n].children
    ensures path !in Labels(heap)
  {
    LabelsPrefixClosed(heap);
    if path in Labels(heap) {
      PrefixesInTree(Labels(heap), path, i + 1);
      var m :| 0 <= m < |heap| && heap[m].path == path[..i + 1];
      assert HasParent(heap, m);
      var k, b: PathByte :| 0 <= k < |heap| && b in heap[k].children && heap[m].path == heap[k].path + [b];
      assert path[..i + 1] == path[..i] + [path[i]];
      AppendInjective(heap[k].path, b, path[..i], path[i]);
    }
  }

  // ---------- the heap stands for the replayed map ----------

  ghost predicate Represents(heap: seq<Node>, m: map<Path, Srv>) {
    && (forall n :: 0 <= n < |heap| ==> heap[n].info == Lookup(m, heap[n].path))
    && (forall p :: p in m ==> p in Labels(heap))
  }

  // ---------- threads ----------

  predicate Holding(phase: Phase) {
    phase == At || phase == Make || phase == Leave || phase.Unlock?
  }

  predicate HoldsWrite(th: Thread, n: nat) {
    th.act.Walk? && Writes(th.act.op) && Holding(th.act.phase) && th.act.cur == n
  }

  ghost predicate OnChain(frames: seq<Frame>, n: nat) {
    exists k :: 0 <= k < |frames| && frames[k].node == n
  }

  ghost predicate HoldsRead(th: Thread, n: nat) {
    || (th.act.Walk? && !Writes(th.act.op) && Holding(th.act.phase) && th.act.cur == n)
    || (th.act.Visit? && OnChain(th.act.frames, n))
  }

  ghost predicate LockOk(s: State, n: nat)
    requires n < |s.locks|
  {
    && Sound(s.locks[n])
    && (forall t :: s.locks[n].writer == Some(t) <==> t in s.threads && HoldsWrite(s.threads[t], n))
    && (forall t :: t in s.locks[n].readers <==> t in s.threads && HoldsRead(s.threads[t], n))
  }

  ghost predicate WalkOk(s: State, w: Activity)
    requires w.Walk?
  {
    && w.i <= |w.op.path| && w.cur < |s.heap| && s.heap[w.cur].path == w.op.path[..w.i]
    && (w.phase == Make ==> w.op.Insert? && w.i < |w.op.path| && w.op.path[w.i] !in s.heap[w.cur].children)
    && (w.phase == Leave || w.phase == Step ==> w.i < |w.op.path| && w.op.path[w.i] in s.heap[w.cur].children)
    && (if w.phase.Unlock? then Effective(s.rec, w.call, w.op, w.phase.res) else Pending(s.rec, w.call, w.op))
  }

  /** The node at `n` is the child at the index before `f.next` of the node that `f` is at. */
  predicate GoneDown(heap: seq<Node>, f: Frame, n: nat)
    requires f.node < |heap| && n < |heap|
  {
    2 <= f.next <= 256 && heap[n].path == heap[f.node].path + [(f.next - 1) as PathByte]
  }

  /** The nodes a collector holds are a chain from the root; the node it wants next is one level further down. */
  predicate VisitOk(heap: seq<Node>, v: Activity)
    requires v.Visit?
  {
    && (forall k :: 0 <= k < |v.frames| ==>
          v.frames[k].node < |heap| && v.frames[k].next <= 256 && |heap[v.frames[k].node].path| == k)
    && (forall k :: 0 <= k < |v.frames| - 1 ==> GoneDown(heap, v.frames[k], v.frames[k + 1].node))
    && (v.pending.Some? ==>
          && v.pending.value < |heap| && |heap[v.pending.value].path| == |v.frames|
          && (v.frames != [] ==> GoneDown(heap, v.frames[|v.frames| - 1], v.pending.value)))
  }

  ghost predicate ThreadOk(s: State, t: Tid)
    requires t in s.threads
  {
    var th := s.threads[t];
    && Disciplined(th.script, s.mutex == Some(t), s.cache == Some(t))
    && match th.act
       case Ready => true
       case Walk(op, call, i, cur, phase) => th.script != [] && th.script[0] == Call(op) && WalkOk(s, th.act)
       case Visit(_, _, _) => th.script != [] && th.script[0] == Collect && VisitOk(s.heap, th.act)
  }

  ghost predicate CallsDiffer(s: State) {
    forall t, u :: t in s.threads && u in s.threads && t != u && s.threads[t].act.Walk? && s.threads[u].act.Walk? ==>
      s.threads[t].act.call != s.threads[u].act.call
  }

  ghost predicate DataOk(s: State) {
    && |s.locks| == |s.heap| && HeapOk(s.heap)
    && Represents(s.heap, Replay(PathMap(), s.rec.lin))
    && LegalRun(PathMap(), s.rec.lin) && WellRecorded(s.rec)
  }

  ghost predicate LocksOk(s: State) {
    forall n :: 0 <= n < |s.locks| ==> LockOk(s, n)
  }

  ghost predicate ThreadsOk(s: State) {
    forall t :: t in s.threads ==> ThreadOk(s, t)
  }

  predicate OwnersExist(s: State) {
    (s.mutex.Some? ==> s.mutex.value in s.threads) && (s.cache.Some? ==> s.cache.value in s.threads)
  }

  ghost predicate Inv(s: State) {
    DataOk(s) && LocksOk(s) && ThreadsOk(s) && CallsDiffer(s) && OwnersExist(s)
  }

  lemma InitialInv()
    ensures Inv(Initial())
  {
    var heap := Initial().heap;
    assert forall n, b: PathByte :: 0 <= n < |heap| ==> Edge(heap, n, b);
    assert HasParent(heap, 0);
  }

  // ---------- steps of one thread leave the others alone ----------

  /** What a step of another thread may do to the shared data, as far as thread `u` is concerned. */
  ghost predicate Tolerates(s: State, s': State, u: Tid)
    requires u in s.threads
  {
    && u in s'.threads && s'.threads[u] == s.threads[u]
    && (s.mutex == Some(u) <==> s'.mutex == Some(u)) && (s.cache == Some(u) <==> s'.cache == Some(u))
    && |s.heap| <= |s'.heap|
    && (forall n :: 0 <= n < |s.heap| ==>
          s'.heap[n].path == s.heap[n].path && s.heap[n].children.Keys <= s'.heap[n].children.Keys)
    && var act := s.threads[u].act;
       act.Walk? ==>
         && (act.phase == Make ==> act.cur < |s.heap| && s'.heap[act.cur].children == s.heap[act.cur].children)
         && (if act.phase.Unlock? then
               Effective(s.rec, act.call, act.op, act.phase.res) ==>
                 Effective(s'.rec, act.call, act.op, act.phase.res)
             else Pending(s.rec, act.call, act.op) ==> Pending(s'.rec, act.call, act.op))
  }

  lemma OthersKeep(s: State, s': State, u: Tid)
    requires u in s.threads && ThreadOk(s, u) && Tolerates(s, s', u)
    ensures ThreadOk(s', u)
  {
  }
}
