/** Every step of the naming server's threads leaves less to do, although the tree grows under those that walk it. */
module TrieProgress {
  import opened Paths
  import opened Protocol
  import opened PathTree
  import opened RwLocks
  import opened Linearizability
  import opened Sums
  import opened TrieThreads
  import opened TrieInvariant
  import opened TrieTheorems
  import opened TrieCollector

  // ---------- how large the tree may still become ----------

  /** The bytes that inserts have still to walk; each may become a node. */
  function ActionBytes(a: Action): nat {
    if a.Call? && a.op.Insert? then |a.op.path| else 0
  }

  function ScriptBytes(script: seq<Action>): nat {
    if script == [] then 0 else ActionBytes(script[0]) + ScriptBytes(script[1..])
  }

  function ActBytes(act: Activity): nat {
    if !act.Walk? || !act.op.Insert? then 0
    else
      match act.phase
      case Unlock(_) => 0
      case Leave => Minus(|act.op.path|, act.i + 1)
      case Step => Minus(|act.op.path|, act.i + 1)
      case _ => Minus(|act.op.path|, act.i)
  }

  /** The script without the action that is going on. */
  function Rest(th: Thread): seq<Action> {
    if th.act.Ready? || th.script == [] then th.script else th.script[1..]
  }

  function PendingBytes(th: Thread): nat {
    ActBytes(th.act) + ScriptBytes(Rest(th))
  }

  function AllBytes(threads: map<Tid, Thread>): map<nat, nat> {
    map t | t in threads :: PendingBytes(threads[t])
  }

  /** The nodes there are and may still be. */
  ghost function Grown(s: State): nat {
    |s.heap| + Sum(AllBytes(s.threads))
  }

  // ---------- how much there is to do ----------

  /** The collector is through with the node, in it, or bound for it. */
  ghost predicate Entered(heap: seq<Node>, v: Activity, p: Path)
    requires v.Visit? && VisitOk(heap, v)
  {
    || Done(heap, v, p)
    || (exists k :: 0 <= k < |v.frames| && p == heap[v.frames[k].node].path)
    || (v.pending.Some? && p == heap[v.pending.value].path)
  }

  ghost function Seen(heap: seq<Node>, v: Activity): set<nat>
    requires v.Visit? && VisitOk(heap, v)
  {
    set n | 0 <= n < |heap| && Entered(heap, v, heap[n].path)
  }

  function FramesWork(frames: seq<Frame>): nat {
    if frames == [] then 0 else FramesWork(frames[..|frames| - 1]) + Minus(258, frames[|frames| - 1].next)
  }

  function Rank(phase: Phase): nat {
    match phase
    case Lock => 5
    case At => 4
    case Make => 3
    case Leave => 2
    case Step => 1
    case Unlock(_) => 0
  }

  function WalkWork(w: Activity): nat
    requires w.Walk?
  {
    if w.phase.Unlock? then 0 else 6 * Minus(|w.op.path|, w.i) + Rank(w.phase)
  }

  /** The nodes a collector has not entered yet, of all that may come to be. */
  ghost function Ahead(heap: seq<Node>, grown: nat, v: Activity): nat
    requires v.Visit?
  {
    if VisitOk(heap, v) then Minus(grown, |Seen(heap, v)|) else 0
  }

  ghost function VisitWork(heap: seq<Node>, grown: nat, v: Activity): nat
    requires v.Visit?
  {
    FramesWork(v.frames) + (if v.pending.Some? then 259 else 0) + 260 * Ahead(heap, grown, v)
  }

  function ActionWork(grown: nat, a: Action): nat {
    match a
    case Call(op) => 7 + 6 * |op.path|
    case Collect => 261 + 260 * grown
    case _ => 1
  }

  function ScriptWork(grown: nat, script: seq<Action>): nat {
    if script == [] then 0 else ActionWork(grown, script[0]) + ScriptWork(grown, script[1..])
  }

  ghost function ActWork(heap: seq<Node>, grown: nat, act: Activity): nat {
    match act
    case Ready => 0
    case Walk(_, _, _, _, _) => 1 + WalkWork(act)
    case Visit(_, _, _) => 1 + VisitWork(heap, grown, act)
  }

  ghost function Work(heap: seq<Node>, grown: nat, th: Thread): nat {
    ActWork(heap, grown, th.act) + ScriptWork(grown, Rest(th))
  }

  ghost function Works(s: State, grown: nat): map<nat, nat> {
    map t | t in s.threads :: Work(s.heap, grown, s.threads[t])
  }

  ghost function Total(s: State): nat {
    Sum(Works(s, Grown(s)))
  }

  // ---------- the tree does not become larger than that ----------

  /** What one step does to the nodes and to the bytes its thread has to walk. */
  lemma StepGrows(s: State, s': State, t: Tid)
    requires Steps(s, s', t) && ThreadOk(s, t)
    ensures t in s'.threads && s'.threads == s.threads[t := s'.threads[t]]
    ensures |s'.heap| + PendingBytes(s'.threads[t]) <= |s.heap| + PendingBytes(s.threads[t])
  {
    match s.threads[t].act
    case Ready =>
    case Visit(_, _, _) =>
    case Walk(_, _, _, _, _) => WalkGrows(s, s', t);
  }

  lemma WalkGrows(s: State, s': State, t: Tid)
    requires Steps(s, s', t) && ThreadOk(s, t) && s.threads[t].act.Walk?
    ensures t in s'.threads && s'.threads == s.threads[t := s'.threads[t]]
    ensures |s'.heap| + PendingBytes(s'.threads[t]) <= |s.heap| + PendingBytes(s.threads[t])
  {
  }

  lemma NeverGrowsMore(s: State, s': State, t: Tid)
    requires Steps(s, s', t) && ThreadOk(s, t)
    ensures Grown(s') <= Grown(s)
  {
    StepGrows(s, s', t);
    var b := PendingBytes(s'.threads[t]);
    SumSplits(AllBytes(s.threads), t);
    SumUpdated(AllBytes(s.threads), t, b);
    assert AllBytes(s'.threads) == AllBytes(s.threads)[t := b];
  }

  // ---------- the other threads have no more to do than before ----------

  lemma {:induction false} ScriptWorkAtMost(grown: nat, less: nat, script: seq<Action>)
    requires less <= grown
    ensures ScriptWork(less, script) <= ScriptWork(grown, script)
  {
    if script != [] { ScriptWorkAtMost(grown, less, script[1..]); }
  }

  lemma SeenStays(heap: seq<Node>, heap': seq<Node>, v: Activity)
    requires v.Visit? && VisitOk(heap, v) && VisitOk(heap', v) && Extends(heap, heap')
    ensures |Seen(heap, v)| <= |Seen(heap', v)|
  {
    forall n | n in Seen(heap, v) ensures n in Seen(heap', v) {
      SamePlace(heap, heap', v, heap[n].path);
      if k :| 0 <= k < |v.frames| && heap[n].path == heap[v.frames[k].node].path {
        assert heap'[n].path == heap'[v.frames[k].node].path;
      }
    }
    SubsetSize(Seen(heap, v), Seen(heap', v));
  }

  lemma SubsetSize(a: set<nat>, b: set<nat>)
    requires a <= b
    ensures |a| <= |b|
  {
    assert b == a + (b - a);
  }

  lemma WorkAtMost(heap: seq<Node>, heap': seq<Node>, grown: nat, less: nat, th: Thread)
    requires less <= grown && Extends(heap, heap')
    requires th.act.Visit? ==> VisitOk(heap, th.act) && VisitOk(heap', th.act)
    ensures Work(heap', less, th) <= Work(heap, grown, th)
  {
    ScriptWorkAtMost(grown, less, Rest(th));
    if th.act.Visit? { SeenStays(heap, heap', th.act); }
  }

  // ---------- the thread that steps has less ----------

  /** Going down, a collector comes to a node it has not seen. */
  lemma PendingIsNew(heap: seq<Node>, v: Activity, v': Activity)
    requires HeapOk(heap) && Moves(heap, v, v') && v.pending == None && v'.pending.Some?
    ensures v'.pending.value !in Seen(heap, v)
  {
    var p := heap[v'.pending.value].path;
    var n := |v.frames| - 1;
    assert v'.frames[n].node == v.frames[n].node;
    forall k | 0 <= k <= n ensures !DoneAt(heap, v, k, p) && p != heap[v.frames[k].node].path {
      PendingNests(heap, v', k);
      assert v'.frames[k].node == v.frames[k].node;
      assert k < n ==> v'.frames[k] == v.frames[k];
    }
  }

  lemma EnteredStays(heap: seq<Node>, v: Activity, v': Activity, p: Path)
    requires Moves(heap, v, v') && Entered(heap, v, p)
    ensures Entered(heap, v', p)
  {
    if v.pending.Some? {
      EnteringDoes(heap, v, v', p);
      assert v'.frames[|v.frames|].node == v.pending.value;
      forall k | 0 <= k < |v.frames| ensures v'.frames[k] == v.frames[k] {}
    } else if v.frames[|v.frames| - 1].next == 256 {
      LeavingDoes(heap, v, v', p);
      LastIsDone(heap, v);
      forall k | 0 <= k < |v.frames| - 1 ensures v'.frames[k] == v.frames[k] {}
    } else {
      AdvancingDoes(heap, v, v', p);
      forall k | 0 <= k < |v.frames| ensures v'.frames[k].node == v.frames[k].node {}
    }
  }

  lemma LastIsDone(heap: seq<Node>, v: Activity)
    requires v.Visit? && VisitOk(heap, v) && v.frames != [] && v.frames[|v.frames| - 1].next == 256
    ensures Done(heap, v, heap[v.frames[|v.frames| - 1].node].path)
  {
    assert DoneAt(heap, v, |v.frames| - 1, heap[v.frames[|v.frames| - 1].node].path);
  }

  lemma SeenGrows(heap: seq<Node>, v: Activity, v': Activity)
    requires HeapOk(heap) && Moves(heap, v, v')
    ensures |Seen(heap, v)| + (if v.pending == None && v'.pending.Some? then 1 else 0) <= |Seen(heap, v')| <= |heap|
  {
    var seen, seen' := Seen(heap, v), Seen(heap, v');
    forall n | n in seen ensures n in seen' { EnteredStays(heap, v, v', heap[n].path); }
    SubsetSize(seen, seen');
    if v.pending == None && v'.pending.Some? {
      PendingIsNew(heap, v, v');
      SubsetSize(seen + {v'.pending.value}, seen');
    }
    AtMostIndices(seen', |heap|);
  }

  lemma {:induction false} AtMostIndices(s: set<nat>, n: nat)
    requires forall i :: i in s ==> i < n
    ensures |s| <= n
  {
    if n == 0 { assert s == {}; } else { AtMostIndices(s - {n - 1}, n - 1); }
  }

  lemma MoveShrinks(heap: seq<Node>, grown: nat, v: Activity, v': Activity)
    requires HeapOk(heap) && Moves(heap, v, v') && |heap| <= grown
    ensures VisitWork(heap, grown, v') < VisitWork(heap, grown, v)
  {
    SeenGrows(heap, v, v');
    FramesShrink(v, v');
  }

  lemma FramesShrink(v: Activity, v': Activity)
    requires v.Visit? && v'.Visit?
    requires
      if v.pending.Some? then v'.frames == v.frames + [Frame(v.pending.value, 0)]
      else v.frames != [] && if v.frames[|v.frames| - 1].next == 256 then v'.frames == v.frames[..|v.frames| - 1]
                             else v.frames[|v.frames| - 1].next < 256 && v'.frames == Advanced(v.frames)
    ensures FramesWork(v'.frames) == if v.pending.Some? then FramesWork(v.frames) + 258
                                     else FramesWork(v.frames) - if |v'.frames| < |v.frames| then 2 else 1
  {
    var n := |v.frames| - 1;
    if v.pending.Some? { assert v'.frames[..n + 1] == v.frames; }
    else if |v'.frames| == |v.frames| { assert v'.frames[..n] == v.frames[..n]; }
  }

  lemma VisitShrinks(s: State, s': State, t: Tid, grown: nat)
    requires HeapOk(s.heap) && Steps(s, s', t) && ThreadOk(s, t) && s.threads[t].act.Visit? && |s.heap| <= grown
    requires t in s'.threads && ThreadOk(s', t)
    ensures Work(s'.heap, grown, s'.threads[t]) < Work(s.heap, grown, s.threads[t])
  {
    if s'.threads[t].act.Visit? {
      StepMoves(s, s', t);
      MoveShrinks(s.heap, grown, s.threads[t].act, s'.threads[t].act);
      assert s'.threads[t].script == s.threads[t].script;
    } else {
      VisitEnds(s, s', t);
    }
  }

  lemma VisitEnds(s: State, s': State, t: Tid)
    requires Steps(s, s', t) && s.threads[t].act.Visit? && t in s'.threads && !s'.threads[t].act.Visit?
    ensures s.threads[t].script != [] && s'.threads[t] == Thread(s.threads[t].script[1..], Ready)
  {
  }

  lemma ReadyShrinks(s: State, s': State, t: Tid, grown: nat)
    requires Steps(s, s', t) && ThreadOk(s, t) && s.threads[t].act.Ready? && t in s'.threads
    ensures Work(s'.heap, grown, s'.threads[t]) < Work(s.heap, grown, s.threads[t])
  {
    assert s'.heap == s.heap;
    var a := s.threads[t].script[0];
    if a.Collect? {
      assert s'.threads[t].act == Visit([], Some(0), []);
      assert Ahead(s.heap, grown, s'.threads[t].act) <= grown;
    }
  }

  lemma WalkShrinks(s: State, s': State, t: Tid, grown: nat)
    requires Steps(s, s', t) && ThreadOk(s, t) && s.threads[t].act.Walk? && t in s'.threads
    ensures Work(s'.heap, grown, s'.threads[t]) < Work(s.heap, grown, s.threads[t])
  {
  }

  lemma OwnWorkShrinks(s: State, s': State, t: Tid, less: nat)
    requires DataOk(s) && Steps(s, s', t) && ThreadOk(s, t) && t in s'.threads && ThreadOk(s', t)
    requires less <= Grown(s)
    ensures Work(s'.heap, less, s'.threads[t]) < Work(s.heap, Grown(s), s.threads[t])
  {
    OwnStepShrinks(s, s', t, Grown(s));
    SmallerTree(s'.heap, Grown(s), less, s'.threads[t]);
  }

  lemma SmallerTree(heap: seq<Node>, grown: nat, less: nat, th: Thread)
    requires less <= grown && (th.act.Visit? ==> VisitOk(heap, th.act))
    ensures Work(heap, less, th) <= Work(heap, grown, th)
  {
    WorkAtMost(heap, heap, grown, less, th);
  }

  lemma OwnStepShrinks(s: State, s': State, t: Tid, grown: nat)
    requires HeapOk(s.heap) && Steps(s, s', t) && ThreadOk(s, t) && t in s'.threads && ThreadOk(s', t)
    requires |s.heap| <= grown
    ensures Work(s'.heap, grown, s'.threads[t]) < Work(s.heap, grown, s.threads[t])
  {
    if s.threads[t].act.Ready? { ReadyShrinks(s, s', t, grown); }
    else if s.threads[t].act.Walk? { WalkShrinks(s, s', t, grown); }
    else { VisitShrinks(s, s', t, grown); }
  }

  lemma OthersWorkAtMost(s: State, s': State, t: Tid, u: Tid, less: nat)
    requires Steps(s, s', t) && ThreadOk(s, t) && u in s.threads && u != t && ThreadOk(s, u)
    requires u in s'.threads && s'.threads[u] == s.threads[u] && ThreadOk(s', u) && less <= Grown(s)
    ensures Work(s'.heap, less, s'.threads[u]) <= Work(s.heap, Grown(s), s.threads[u])
  {
    StepExtends(s, s', t);
    WorkAtMost(s.heap, s'.heap, Grown(s), less, s.threads[u]);
  }

  /** Every step leaves less to do, for its own thread and so for all together. */
  lemma StepsDecrease(s: State, s': State, t: Tid)
    requires Inv(s) && Inv(s') && Steps(s, s', t)
    ensures Total(s') < Total(s)
  {
    assert ThreadOk(s, t);
    StepGrows(s, s', t);
    NeverGrowsMore(s, s', t);
    assert ThreadOk(s', t);
    OwnWorkShrinks(s, s', t, Grown(s'));
    forall u | u in s.threads && u != t
      ensures Work(s'.heap, Grown(s'), s'.threads[u]) <= Work(s.heap, Grown(s), s.threads[u])
    {
      assert ThreadOk(s, u) && ThreadOk(s', u);
      OthersWorkAtMost(s, s', t, u, Grown(s'));
    }
    SumLess(Works(s', Grown(s')), Works(s, Grown(s)), t);
  }

  // ---------- whole runs ----------

  ghost predicate NobodyArrives(run: seq<State>, k: nat)
    requires k + 1 < |run|
  {
    Progresses(run[k], run[k + 1])
  }

  ghost predicate Progresses(s: State, s': State) {
    exists t :: Steps(s, s', t)
  }

  lemma ProgressDecreases(s: State, s': State)
    requires Inv(s) && Inv(s') && Progresses(s, s')
    ensures Total(s') < Total(s)
  {
    var t :| Steps(s, s', t);
    StepsDecrease(s, s', t);
  }

  lemma StepAt(run: seq<State>, k: nat)
    requires IsRun(run) && k + 1 < |run| && NobodyArrives(run, k)
    ensures Total(run[k + 1]) < Total(run[k])
  {
    RunKeepsInv(run, k);
    RunKeepsInv(run, k + 1);
    ProgressDecreases(run[k], run[k + 1]);
  }

  /** Nobody arrives between moments `i` and `j`. */
  ghost predicate Quiet(run: seq<State>, i: nat, j: nat)
    requires i <= j < |run|
  {
    forall k :: i <= k < j ==> NobodyArrives(run, k)
  }

  ghost function Totals(run: seq<State>): (r: seq<nat>)
    ensures |r| == |run|
  {
    seq(|run|, k requires 0 <= k < |run| => Total(run[k]))
  }

  lemma TotalsFall(run: seq<State>, i: nat, j: nat)
    requires IsRun(run) && i <= j < |run| && Quiet(run, i, j)
    ensures forall k :: i <= k < j ==> Falls(Totals(run), k)
  {
    forall k | i <= k < j ensures Falls(Totals(run), k) { StepAt(run, k); }
  }

  /** Once no more requests arrive, at most `Total` steps remain, however they interleave; LIST included, although the
      tree may grow under it. */
  lemma FiniteRequestsFinish(run: seq<State>, i: nat, j: nat)
    requires IsRun(run) && i <= j < |run| && Quiet(run, i, j)
    ensures j - i <= Total(run[i]) - Total(run[j])
  {
    TotalsFall(run, i, j);
    FallsAreShort(Totals(run), i, j);
  }

  /** A run that cannot go on has served every request. */
  lemma StuckRunsAreFinished(run: seq<State>, k: nat)
    requires IsRun(run) && k < |run| && forall t :: !CanStep(run[k], t)
    ensures forall t :: t in run[k].threads ==> Finished(run[k].threads[t])
  {
    forall t | t in run[k].threads ensures Finished(run[k].threads[t]) {
      if !Finished(run[k].threads[t]) { var u := NoDeadlock(run, k, t); }
    }
  }
}
