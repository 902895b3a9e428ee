/** What a LIST returns while other requests change the trie under it. */
module TrieListing {
  import opened Paths
  import opened Protocol
  import opened PathTree
  import opened RwLocks
  import opened Linearizability
  import opened Tries
  import opened TrieThreads
  import opened TrieInvariant
  import opened TrieTheorems
  import opened TrieCollector

  /** The map at one moment of the run. */
  ghost function Mapped(s: State): map<Path, Srv> {
    Replay(PathMap(), s.rec.lin)
  }

  // ---------- one step of the collector ----------

  /** What a collector has found, given the paths mapped ever since it started and those mapped at some time since:
      at most ten, in order, each mapped at some time; and it has missed none of the paths it is through with that
      were mapped all the time, unless ten smaller ones filled the list. */
  ghost predicate Answers(heap: seq<Node>, v: Activity, always: set<Path>, once: set<Path>) {
    && v.Visit? && VisitOk(heap, v) && |v.found| <= MAX_ACCESSIBLE_PATHS && StrictlyIncreasing(v.found)
    && (forall p :: p in v.found ==> p in once && Done(heap, v, p))
    && (forall p :: p in always && Done(heap, v, p) ==> Covered(v.found, p))
  }

  predicate Covered(found: seq<Path>, p: Path) {
    p in found || (|found| == MAX_ACCESSIBLE_PATHS && forall q :: q in found ==> Less(q, p))
  }

  lemma MoveKeepsAnswers(heap: seq<Node>, v: Activity, v': Activity, m: map<Path, Srv>,
                         always: set<Path>, once: set<Path>)
    requires HeapOk(heap) && Represents(heap, m) && Moves(heap, v, v')
    requires Answers(heap, v, always, once) && always <= m.Keys <= once
    ensures Answers(heap, v', always, once)
  {
    if v.pending.Some? {
      forall p ensures Done(heap, v', p) <==> Done(heap, v, p) { EnteringDoes(heap, v, v', p); }
    } else if v.frames[|v.frames| - 1].next == 256 {
      forall p ensures Done(heap, v', p) <==> Done(heap, v, p) { LeavingDoes(heap, v, v', p); }
    } else if v.frames[|v.frames| - 1].next == 0 {
      ReadKeepsAnswers(heap, v, v', m, always, once);
    } else {
      SkipKeepsAnswers(heap, v, v', m, always, once);
    }
  }

  lemma ReadKeepsAnswers(heap: seq<Node>, v: Activity, v': Activity, m: map<Path, Srv>,
                         always: set<Path>, once: set<Path>)
    requires HeapOk(heap) && Represents(heap, m) && Moves(heap, v, v')
    requires v.pending == None && v.frames[|v.frames| - 1].next == 0
    requires Answers(heap, v, always, once) && always <= m.Keys <= once
    ensures Answers(heap, v', always, once)
  {
    var node := heap[v.frames[|v.frames| - 1].node];
    assert node.info == Lookup(m, node.path);
    forall q | q in v.found ensures Less(q, node.path) { DoneIsLess(heap, v, q); }
    forall p | p in v'.found ensures p in once && Done(heap, v', p) {
      AdvancingDoes(heap, v, v', p);
      if p !in v.found { assert DoneAt(heap, v', |v.frames| - 1, p); }
    }
    forall p | p in always && Done(heap, v', p) ensures Covered(v'.found, p) {
      AdvancingDoes(heap, v, v', p);
      if p == node.path { assert node.info.Some?; } else { assert Covered(v.found, p); }
    }
  }

  /** Where there is no child nothing is mapped. */
  lemma SkipKeepsAnswers(heap: seq<Node>, v: Activity, v': Activity, m: map<Path, Srv>,
                         always: set<Path>, once: set<Path>)
    requires HeapOk(heap) && Represents(heap, m) && Moves(heap, v, v')
    requires v.pending == None && 0 < v.frames[|v.frames| - 1].next < 256
    requires Answers(heap, v, always, once) && always <= m.Keys <= once
    ensures Answers(heap, v', always, once)
  {
    var f := v.frames[|v.frames| - 1];
    var l := heap[f.node].path;
    forall p | p in v'.found ensures Done(heap, v', p) { AdvancingDoes(heap, v, v', p); }
    forall p | p in always && Done(heap, v', p) ensures Covered(v'.found, p) {
      AdvancingDoes(heap, v, v', p);
      if !Done(heap, v, p) { NoNodeBeyond(heap, f.node, p, |l|); }
    }
  }

  // ---------- whole runs ----------

  /** The same walk of thread `t`, from its start at moment `i` to moment `k`. */
  ghost predicate Walking(run: seq<State>, t: Tid, i: nat, k: nat) {
    && i <= k < |run|
    && (forall j :: i <= j <= k ==> t in run[j].threads && run[j].threads[t].act.Visit?)
    && run[i].threads[t].act == Visit([], Some(0), [])
  }

  ghost predicate MappedAt(run: seq<State>, j: nat, p: Path)
    requires j < |run|
  {
    p in Mapped(run[j])
  }

  ghost function Always(run: seq<State>, i: nat, k: nat): set<Path>
    requires i <= k < |run|
  {
    if k == i then Mapped(run[i]).Keys else Always(run, i, k - 1) * Mapped(run[k]).Keys
  }

  ghost function Once(run: seq<State>, i: nat, k: nat): set<Path>
    requires i <= k < |run|
  {
    if k == i then Mapped(run[i]).Keys else Once(run, i, k - 1) + Mapped(run[k]).Keys
  }

  lemma {:induction false} AlwaysAndOnce(run: seq<State>, i: nat, k: nat, p: Path)
    requires i <= k < |run|
    ensures p in Always(run, i, k) <==> forall j :: i <= j <= k ==> MappedAt(run, j, p)
    ensures p in Once(run, i, k) <==> exists j :: i <= j <= k && MappedAt(run, j, p)
  {
    if k > i {
      AlwaysAndOnce(run, i, k - 1, p);
      assert MappedAt(run, k, p) <==> p in Mapped(run[k]);
    } else {
      assert MappedAt(run, i, p) <==> p in Mapped(run[i]);
    }
  }

  /** A step that is not the collector's own. */
  lemma OthersKeepAnswers(heap: seq<Node>, heap': seq<Node>, v: Activity, always: set<Path>, once: set<Path>)
    requires Answers(heap, v, always, once) && VisitOk(heap', v) && Extends(heap, heap')
    ensures Answers(heap', v, always, once)
  {
    forall p ensures Done(heap', v, p) <==> Done(heap, v, p) { SamePlace(heap, heap', v, p); }
  }

  lemma NextKeepsAnswers(run: seq<State>, t: Tid, i: nat, k: nat)
    requires IsRun(run) && Walking(run, t, i, k + 1) && i <= k
    requires Answers(run[k].heap, run[k].threads[t].act, Always(run, i, k), Once(run, i, k))
    requires Always(run, i, k) <= Mapped(run[k]).Keys <= Once(run, i, k)
    ensures Answers(run[k + 1].heap, run[k + 1].threads[t].act, Always(run, i, k), Once(run, i, k))
  {
    RunKeepsInv(run, k);
    RunKeepsInv(run, k + 1);
    NextExtends(run, k);
    var s, s' := run[k], run[k + 1];
    assert ThreadOk(s, t) && ThreadOk(s', t);
    assert Follows(run, k);
    if Steps(s, s', t) {
      StepMoves(s, s', t);
      MoveKeepsAnswers(s.heap, s.threads[t].act, s'.threads[t].act, Mapped(s), Always(run, i, k), Once(run, i, k));
    } else {
      NotItsStep(s, s', t);
      OthersKeepAnswers(s.heap, s'.heap, s.threads[t].act, Always(run, i, k), Once(run, i, k));
    }
  }

  lemma NotItsStep(s: State, s': State, t: Tid)
    requires Transition(s, s') && !Steps(s, s', t) && t in s.threads
    ensures t in s'.threads && s'.threads[t] == s.threads[t]
  {
    if u :| Steps(s, s', u) { OnlyOneMoves(s, s', u); }
  }

  lemma OnlyOneMoves(s: State, s': State, u: Tid)
    requires Steps(s, s', u)
    ensures s'.threads.Keys == s.threads.Keys
    ensures forall t :: t in s.threads && t != u ==> s'.threads[t] == s.threads[t]
  {
  }

  lemma {:induction false} AnswersMeanwhile(run: seq<State>, t: Tid, i: nat, k: nat)
    requires IsRun(run) && Walking(run, t, i, k)
    ensures Answers(run[k].heap, run[k].threads[t].act, Always(run, i, k), Once(run, i, k))
    ensures Always(run, i, k) <= Mapped(run[k]).Keys <= Once(run, i, k)
  {
    if k == i {
      RunKeepsInv(run, i);
      assert ThreadOk(run[i], t);
      NothingYet(run[i].heap, Always(run, i, i), Once(run, i, i));
    } else {
      AnswersMeanwhile(run, t, i, k - 1);
      NextKeepsAnswers(run, t, i, k - 1);
    }
  }

  lemma NothingYet(heap: seq<Node>, always: set<Path>, once: set<Path>)
    requires VisitOk(heap, Visit([], Some(0), []))
    ensures Answers(heap, Visit([], Some(0), []), always, once)
  {
  }

  /** What a LIST that ran from moment `i` to moment `k` returns, whatever other requests did meanwhile: at most ten
      paths in strictly increasing order; each was mapped at some moment between; and every path that was mapped at
      all of them is there, unless the list is full of smaller ones. */
  lemma ListAnswers(run: seq<State>, t: Tid, i: nat, k: nat, found: seq<Path>)
    requires IsRun(run) && Walking(run, t, i, k) && run[k].threads[t].act == Visit([], None, found)
    ensures |found| <= MAX_ACCESSIBLE_PATHS && StrictlyIncreasing(found)
    ensures forall p :: p in found ==> exists j :: i <= j <= k && MappedAt(run, j, p)
    ensures forall p :: (forall j :: i <= j <= k ==> MappedAt(run, j, p)) ==> Covered(found, p)
  {
    AnswersMeanwhile(run, t, i, k);
    var v := run[k].threads[t].act;
    forall p | p in found ensures exists j :: i <= j <= k && MappedAt(run, j, p) { AlwaysAndOnce(run, i, k, p); }
    forall p | forall j :: i <= j <= k ==> MappedAt(run, j, p) ensures Covered(found, p) {
      AlwaysAndOnce(run, i, k, p);
      assert Done(run[k].heap, v, p);
    }
  }

  /** If the map does not change meanwhile, the answer is exactly that of LIST at rest. */
  lemma UndisturbedListIsExact(run: seq<State>, t: Tid, i: nat, k: nat, found: seq<Path>)
    requires IsRun(run) && Walking(run, t, i, k) && run[k].threads[t].act == Visit([], None, found)
    requires forall j, p :: i <= j <= k ==> (MappedAt(run, j, p) <==> MappedAt(run, i, p))
    ensures IsFirst(found, Mapped(run[i]).Keys, MAX_ACCESSIBLE_PATHS)
  {
    ListAnswers(run, t, i, k, found);
    var keys := Mapped(run[i]).Keys;
    forall p ensures MappedAt(run, i, p) <==> p in keys {}
    forall p | p in keys ensures Covered(found, p) {
      assert forall j :: i <= j <= k ==> MappedAt(run, j, p);
    }
    CoveringIsFirst(found, keys);
  }

  lemma CoveringIsFirst(found: seq<Path>, keys: set<Path>)
    requires |found| <= MAX_ACCESSIBLE_PATHS && StrictlyIncreasing(found)
    requires (forall p :: p in found ==> p in keys) && forall p :: p in keys ==> Covered(found, p)
    ensures IsFirst(found, keys, MAX_ACCESSIBLE_PATHS)
  {
    var all := set p | p in found;
    IncreasingCounts(found);
    assert all <= keys;
    assert keys == all + (keys - all);
    if |found| < MAX_ACCESSIBLE_PATHS { assert all == keys; }
  }
}
