/** Where a collector is in its walk over the trie: which paths it is through with. */
module TrieCollector {
  import opened Paths
  import opened Protocol
  import opened PathTree
  import opened RwLocks
  import opened Tries
  import opened TrieThreads
  import opened TrieInvariant
  import opened TrieTheorems

  /** The child indices below this one have been dealt with at level `k`. */
  function Limit(v: Activity, k: nat): nat
    requires v.Visit? && k < |v.frames|
  {
    var next := v.frames[k].next;
    if (k == |v.frames| - 1 && v.pending == None) || next == 0 then next else next - 1
  }

  /** `p` is the node at level `k`, already looked at, or lies below it at an index already dealt with. */
  predicate DoneAt(heap: seq<Node>, v: Activity, k: nat, p: Path)
    requires v.Visit? && VisitOk(heap, v) && k < |v.frames|
  {
    var l := heap[v.frames[k].node].path;
    l <= p && if p == l then v.frames[k].next > 0 else p[|l|] as int < Limit(v, k)
  }

  /** The collector will not come to `p` any more. */
  ghost predicate Done(heap: seq<Node>, v: Activity, p: Path)
    requires v.Visit? && VisitOk(heap, v)
  {
    (v.frames == [] && v.pending == None) || exists k :: 0 <= k < |v.frames| && DoneAt(heap, v, k, p)
  }

  /** Deeper levels lie below the index their ancestors went down at. */
  lemma {:induction false} LevelsNest(heap: seq<Node>, v: Activity, j: nat, k: nat)
    requires v.Visit? && VisitOk(heap, v) && j < k < |v.frames|
    ensures
      var l, m := heap[v.frames[j].node].path, heap[v.frames[k].node].path;
      l < m && m[|l|] as int == v.frames[j].next - 1
  {
    assert GoneDown(heap, v.frames[k - 1], v.frames[(k - 1) + 1].node);
    if j < k - 1 { LevelsNest(heap, v, j, k - 1); }
  }

  lemma PendingNests(heap: seq<Node>, v: Activity, k: nat)
    requires v.Visit? && VisitOk(heap, v) && k < |v.frames| && v.pending.Some?
    ensures
      var l, m := heap[v.frames[k].node].path, heap[v.pending.value].path;
      l < m && m[|l|] as int == v.frames[k].next - 1
  {
    if k < |v.frames| - 1 { LevelsNest(heap, v, k, |v.frames| - 1); }
  }

  /** The buffer spells the path of the deepest node. */
  lemma {:induction false} BufferIsPath(heap: seq<Node>, v: Activity, k: nat)
    requires v.Visit? && VisitOk(heap, v) && k < |v.frames| && Descends(v.frames)
    ensures heap[v.frames[k].node].path == Buffer(v.frames)[..k]
  {
    if k > 0 {
      BufferIsPath(heap, v, k - 1);
      assert GoneDown(heap, v.frames[k - 1], v.frames[(k - 1) + 1].node);
      assert Buffer(v.frames)[..k] == Buffer(v.frames)[..k - 1] + [Buffer(v.frames)[k - 1]];
    }
  }

  /** A node that is about to be looked at comes after everything done. */
  lemma DoneIsLess(heap: seq<Node>, v: Activity, p: Path)
    requires v.Visit? && VisitOk(heap, v) && v.frames != [] && v.pending == None && Done(heap, v, p)
    requires v.frames[|v.frames| - 1].next == 0
    ensures Less(p, heap[v.frames[|v.frames| - 1].node].path)
  {
    var n := |v.frames| - 1;
    var k :| 0 <= k < |v.frames| && DoneAt(heap, v, k, p);
    if k < n {
      var l, m := heap[v.frames[k].node].path, heap[v.frames[n].node].path;
      LevelsNest(heap, v, k, n);
      if p == l {
        LessPrefix(l, m[|l|..]);
        assert l + m[|l|..] == m;
      } else {
        LessBranch(l, p[|l|], p[|l| + 1..], m[|l|], m[|l| + 1..]);
        assert l + [p[|l|]] + p[|l| + 1..] == p && l + [m[|l|]] + m[|l| + 1..] == m;
      }
    }
  }

  // ---------- the steps ----------

  /** Locking the node it wants. */
  lemma EnteringDoes(heap: seq<Node>, v: Activity, v': Activity, p: Path)
    requires v.Visit? && v'.Visit? && VisitOk(heap, v) && VisitOk(heap, v') && v.pending.Some?
    requires v'.frames == v.frames + [Frame(v.pending.value, 0)] && v'.pending == None
    ensures Done(heap, v', p) <==> Done(heap, v, p)
  {
    forall k | 0 <= k < |v.frames| ensures DoneAt(heap, v', k, p) <==> DoneAt(heap, v, k, p) {
      assert v'.frames[k] == v.frames[k];
    }
  }

  function Advanced(frames: seq<Frame>): seq<Frame>
    requires frames != []
  {
    frames[|frames| - 1 := frames[|frames| - 1].(next := frames[|frames| - 1].next + 1)]
  }

  /** Looking at the node's own path, or at a child index. */
  lemma AdvancingDoes(heap: seq<Node>, v: Activity, v': Activity, p: Path)
    requires v.Visit? && v'.Visit? && VisitOk(heap, v) && VisitOk(heap, v') && v.frames != [] && v.pending == None
    requires v'.frames == Advanced(v.frames)
    ensures Done(heap, v, p) ==> Done(heap, v', p)
    ensures
      var f := v.frames[|v.frames| - 1];
      var l := heap[f.node].path;
      Done(heap, v', p) ==>
        || Done(heap, v, p) || (f.next == 0 && p == l)
        || (f.next > 0 && v'.pending == None && l < p && p[|l|] as int == f.next)
  {
    var n := |v.frames| - 1;
    forall k | 0 <= k < n ensures DoneAt(heap, v', k, p) <==> DoneAt(heap, v, k, p) {
      assert v'.frames[k] == v.frames[k];
    }
    assert v'.frames[n].node == v.frames[n].node;
    assert DoneAt(heap, v, n, p) ==> DoneAt(heap, v', n, p);
  }

  /** Going back up, after the last child index. */
  lemma LeavingDoes(heap: seq<Node>, v: Activity, v': Activity, p: Path)
    requires v.Visit? && v'.Visit? && VisitOk(heap, v) && VisitOk(heap, v') && v.frames != [] && v.pending == None
    requires v.frames[|v.frames| - 1].next == 256 && v'.frames == v.frames[..|v.frames| - 1] && v'.pending == None
    ensures Done(heap, v', p) <==> Done(heap, v, p)
  {
    var n := |v.frames| - 1;
    var m := heap[v.frames[n].node].path;
    if n == 0 {
      assert DoneAt(heap, v, 0, p);
    } else {
      var l := heap[v.frames[n - 1].node].path;
      LevelsNest(heap, v, n - 1, n);
      assert GoneDown(heap, v.frames[n - 1], v.frames[(n - 1) + 1].node);
      assert m <= p <==> l < p && p[|l|] == m[|l|] by {
        if l < p && p[|l|] == m[|l|] { assert p[..|m|] == l + [p[|l|]] == m; }
      }
      assert DoneAt(heap, v, n, p) <==> m <= p;
      forall k | 0 <= k < n - 1 ensures DoneAt(heap, v', k, p) <==> DoneAt(heap, v, k, p) {
        assert v'.frames[k] == v.frames[k];
      }
      assert DoneAt(heap, v', n - 1, p) <==> DoneAt(heap, v, n - 1, p) || m <= p;
    }
  }

  /** What other threads do to the tree does not move the collector. */
  lemma SamePlace(heap: seq<Node>, heap': seq<Node>, v: Activity, p: Path)
    requires v.Visit? && VisitOk(heap, v) && VisitOk(heap', v)
    requires |heap| <= |heap'| && forall n :: 0 <= n < |heap| ==> heap'[n].path == heap[n].path
    ensures Done(heap', v, p) <==> Done(heap, v, p)
  {
    forall k | 0 <= k < |v.frames| ensures DoneAt(heap', v, k, p) <==> DoneAt(heap, v, k, p) {
      assert heap'[v.frames[k].node].path == heap[v.frames[k].node].path;
    }
  }

  // ---------- all of a collector's steps ----------

  /** Entering a node, looking at its path, looking at a child index, and going back up. */
  predicate Moves(heap: seq<Node>, v: Activity, v': Activity) {
    && v.Visit? && v'.Visit? && VisitOk(heap, v) && VisitOk(heap, v')
    && if v.pending.Some? then
         v'.frames == v.frames + [Frame(v.pending.value, 0)] && v'.pending == None && v'.found == v.found
       else
         && v.frames != []
         && var f := v.frames[|v.frames| - 1];
            if f.next == 256 then v'.frames == v.frames[..|v.frames| - 1] && v'.pending == None && v'.found == v.found
            else if f.next == 0 then
              && v'.frames == Advanced(v.frames) && v'.pending == None
              && v'.found == v.found + Recorded(heap, v)
            else
              && v'.frames == Advanced(v.frames) && v'.found == v.found
              && (v'.pending == None ==> f.next as PathByte !in heap[f.node].children)
  }

  function Recorded(heap: seq<Node>, v: Activity): seq<Path>
    requires v.Visit? && VisitOk(heap, v) && v.frames != []
  {
    var node := heap[v.frames[|v.frames| - 1].node];
    if node.info.Some? && |v.found| < MAX_ACCESSIBLE_PATHS then [node.path] else []
  }

  lemma StepMoves(s: State, s': State, t: Tid)
    requires Steps(s, s', t) && ThreadOk(s, t) && t in s'.threads && ThreadOk(s', t)
    requires s.threads[t].act.Visit? && s'.threads[t].act.Visit?
    ensures s'.heap == s.heap && s'.rec == s.rec && Moves(s.heap, s.threads[t].act, s'.threads[t].act)
  {
    var v := s.threads[t].act;
    if v.pending == None && v.frames != [] {
      var n := |v.frames| - 1;
      ChainDescends(s, v);
      BufferIsPath(s.heap, v, n);
      assert Buffer(v.frames)[..n] == Buffer(v.frames);
    }
  }
}
