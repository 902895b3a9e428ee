/** All four calls in one history: INSERT, SEARCH and DELETE as recorded, and LIST from the start of its walk to its
    end. */
module TrieHistory {
  import opened Paths
  import opened Protocol
  import opened PathTree
  import opened RwLocks
  import opened Linearizability
  import opened TrieThreads
  import opened TrieInvariant
  import opened TrieTheorems
  import opened TrieCollector
  import opened TrieListing
  import opened TrieAtomicList

  // ---------- the sequential object ----------

  datatype AnyOp = Base(op: Op) | List
  datatype AnyRes = Answer(res: Res) | Listing(paths: seq<Path>)

  /** A list is the first ten mapped paths in byte order. */
  ghost predicate AnyLegal(m: map<Path, Srv>, o: AnyOp, r: AnyRes) {
    match o
    case Base(op) => r.Answer? && Legal(m, op, r.res)
    case List => r.Listing? && IsFirst(r.paths, m.Keys, MAX_ACCESSIBLE_PATHS)
  }

  function AnyEffect(m: map<Path, Srv>, o: AnyOp, r: AnyRes): map<Path, Srv> {
    if o.Base? && r.Answer? then Effect(m, o.op, r.res) else m
  }

  ghost function Listable(): Spec<map<Path, Srv>, AnyOp, AnyRes> {
    Spec(map[], (m, o, r) => AnyLegal(m, o, r), (m, o, r) => AnyEffect(m, o, r))
  }

  // ---------- the history ----------

  predicate Visits(s: State, t: Tid) {
    t in s.threads && s.threads[t].act.Visit?
  }

  /** When the walk that `t` is on at moment `k` began. */
  ghost function Began(run: seq<State>, t: Tid, k: nat): (i: nat)
    requires k < |run| && Visits(run[k], t)
    ensures i <= k && Visits(run[i], t) && (i > 0 ==> !Visits(run[i - 1], t))
    ensures forall j :: i <= j <= k ==> Visits(run[j], t)
  {
    if k > 0 && Visits(run[k - 1], t) then Began(run, t, k - 1) else k
  }

  /** Calls have even numbers, lists odd ones: the moment at which they began. */
  function Lift(e: Event<Op, Res>): Event<AnyOp, AnyRes> {
    match e
    case Invoke(call, op) => Invoke(2 * call, Base(op))
    case Return(call, res) => Return(2 * call, Answer(res))
  }

  function ListCall(i: nat): nat {
    2 * i + 1
  }

  ghost predicate StartsWalk(run: seq<State>, k: nat)
    requires k + 1 < |run|
  {
    exists t :: !Visits(run[k], t) && Visits(run[k + 1], t)
  }

  ghost predicate EndsWalk(run: seq<State>, k: nat)
    requires k + 1 < |run|
  {
    exists t :: Visits(run[k], t) && !Visits(run[k + 1], t)
  }

  ghost function Walker(run: seq<State>, k: nat): (t: Tid)
    requires k + 1 < |run| && EndsWalk(run, k)
    ensures Visits(run[k], t) && !Visits(run[k + 1], t)
  {
    var t :| Visits(run[k], t) && !Visits(run[k + 1], t);
    t
  }

  /** The list that ends at step `k`. */
  ghost function WalkCall(run: seq<State>, k: nat): nat
    requires k + 1 < |run| && EndsWalk(run, k)
  {
    ListCall(Began(run, Walker(run, k), k))
  }

  ghost function Found(run: seq<State>, k: nat): seq<Path>
    requires k + 1 < |run| && EndsWalk(run, k)
  {
    run[k].threads[Walker(run, k)].act.found
  }

  /** What clients see of the step from moment `k` to the next. */
  ghost function NewEvents(run: seq<State>, k: nat): seq<Event<AnyOp, AnyRes>>
    requires k + 1 < |run|
  {
    var h, h' := run[k].rec.history, run[k + 1].rec.history;
    if |h'| > |h| then [Lift(h'[|h|])]
    else if StartsWalk(run, k) then [Invoke(ListCall(k + 1), List)]
    else if EndsWalk(run, k) then [Return(WalkCall(run, k), Listing(Found(run, k)))]
    else []
  }

  ghost function FullHistory(run: seq<State>, k: nat): seq<Event<AnyOp, AnyRes>>
    requires k < |run|
  {
    if k == 0 then [] else FullHistory(run, k - 1) + NewEvents(run, k - 1)
  }

  /** Every event has its step. */
  lemma {:induction false} EventHasStep(run: seq<State>, k: nat, p: nat) returns (m: nat)
    requires k < |run| && p < |FullHistory(run, k)|
    ensures m < k && NewEvents(run, m) == [FullHistory(run, k)[p]] && |FullHistory(run, m)| == p
  {
    if p < |FullHistory(run, k - 1)| { m := EventHasStep(run, k - 1, p); } else { m := k - 1; }
  }

  lemma {:induction false} HistoryGrows(run: seq<State>, i: nat, k: nat)
    requires i <= k < |run|
    ensures |FullHistory(run, i)| <= |FullHistory(run, k)| && FullHistory(run, i) <= FullHistory(run, k)
  {
    if i < k { HistoryGrows(run, i, k - 1); }
  }

  lemma StepsInOrder(run: seq<State>, k: nat, p: nat, q: nat) returns (m: nat, n: nat)
    requires k < |run| && p < q < |FullHistory(run, k)|
    ensures m < n < k
    ensures NewEvents(run, m) == [FullHistory(run, k)[p]] && NewEvents(run, n) == [FullHistory(run, k)[q]]
  {
    m := EventHasStep(run, k, p);
    n := EventHasStep(run, k, q);
    if n <= m { HistoryGrows(run, n, m); }
  }

  // ---------- what a step does ----------

  /** A step adds at most one event, and none if a walk starts or ends. */
  ghost predicate OneEvent(s: State, s': State) {
    var r, r' := s.rec, s'.rec;
    || (r'.history == r.history && r.lin <= r'.lin && |r'.lin| <= |r.lin| + 1)
    || (exists c, op :: r'.history == r.history + [Invoke(c, op)] && c !in r.calls && r'.lin == r.lin)
    || (exists c, res :: r'.history == r.history + [Return(c, res)] && r'.lin == r.lin && Settled(r, c))
  }

  /** The call has taken effect. */
  predicate Settled(r: Recorder<Op, Res>, c: nat) {
    c in r.calls && r.calls[c].point.Some? && r.calls[c].point.value < |r.lin|
  }

  lemma StepAddsOneEvent(s: State, s': State, t: Tid)
    requires Steps(s, s', t) && ThreadOk(s, t)
    ensures OneEvent(s, s')
    ensures Visits(s, t) != Visits(s', t) ==> s'.rec == s.rec
  {
    match s.threads[t].act
    case Ready => ReadyAddsOneEvent(s, s', t);
    case Walk(_, _, _, _, _) => WalkAddsOneEvent(s, s', t);
    case Visit(_, _, _) =>
  }

  lemma ReadyAddsOneEvent(s: State, s': State, t: Tid)
    requires t in s.threads && s.threads[t].act.Ready? && |s.heap| > 0 && ReadyNext(s, t) == Some(s')
    ensures OneEvent(s, s')
    ensures Visits(s, t) != Visits(s', t) ==> s'.rec == s.rec
  {
    if s.threads[t].script[0].Call? {
      var c, op := NewCall(s.rec), s.threads[t].script[0].op;
      assert s'.rec.history == s.rec.history + [Invoke(c, op)];
    }
  }

  lemma WalkAddsOneEvent(s: State, s': State, t: Tid)
    requires t in s.threads && InBounds(s, s.threads[t]) && s.threads[t].act.Walk? && WalkNext(s, t) == Some(s')
    requires ThreadOk(s, t)
    ensures OneEvent(s, s') && !Visits(s, t) && !Visits(s', t)
  {
    if s.threads[t].act.phase.Unlock? {
      var c, res := s.threads[t].act.call, s.threads[t].act.phase.res;
      assert s'.rec.history == s.rec.history + [Return(c, res)];
    }
  }

  lemma RunAddsOneEvent(run: seq<State>, k: nat)
    requires IsRun(run) && k + 1 < |run|
    ensures OneEvent(run[k], run[k + 1])
    ensures StartsWalk(run, k) || EndsWalk(run, k) ==> run[k + 1].rec == run[k].rec
  {
    RunKeepsInv(run, k);
    assert Follows(run, k);
    var s, s' := run[k], run[k + 1];
    if t :| Steps(s, s', t) {
      assert ThreadOk(s, t);
      StepAddsOneEvent(s, s', t);
      OnlyOneMoves(s, s', t);
      forall u | Visits(s, u) != Visits(s', u) ensures u == t {}
    }
  }

  /** At most one thread starts or ends a walk in one step. */
  lemma OnlyOneWalker(run: seq<State>, k: nat, t: Tid, u: Tid)
    requires IsRun(run) && k + 1 < |run|
    requires Visits(run[k], t) != Visits(run[k + 1], t) && Visits(run[k], u) != Visits(run[k + 1], u)
    ensures t == u
  {
    assert Follows(run, k);
    var s, s' := run[k], run[k + 1];
    if v :| Steps(s, s', v) { OnlyOneMoves(s, s', v); }
  }

  lemma {:induction false} LinIsPrefix(run: seq<State>, i: nat, k: nat)
    requires IsRun(run) && i <= k < |run|
    ensures run[i].rec.lin <= run[k].rec.lin && |run[i].rec.history| <= |run[k].rec.history|
    ensures run[i].rec.history <= run[k].rec.history
  {
    if i < k {
      LinIsPrefix(run, i, k - 1);
      RunAddsOneEvent(run, k - 1);
    }
  }

  /** A call's entry in the record: there is only one. */
  lemma OneEntry(run: seq<State>, k: nat, x: nat, y: nat)
    requires IsRun(run) && k < |run| && x < |run[k].rec.lin| && y < |run[k].rec.lin|
    requires run[k].rec.lin[x].call == run[k].rec.lin[y].call
    ensures x == y
  {
    RunKeepsInv(run, k);
  }

  // ---------- the moments of lists ----------

  lemma BeganLater(run: seq<State>, t: Tid, k: nat)
    requires IsRun(run) && k < |run| && Visits(run[k], t)
    ensures 0 < Began(run, t, k) && StartsWalk(run, Began(run, t, k) - 1)
    ensures run[Began(run, t, k)].threads[t].act == Visit([], Some(0), [])
  {
    var i := Began(run, t, k);
    if i > 0 {
      assert Follows(run, i - 1);
      FirstVisit(run[i - 1], run[i], t);
    }
  }

  lemma FirstVisit(s: State, s': State, t: Tid)
    requires Transition(s, s') && !Visits(s, t) && Visits(s', t)
    ensures s'.threads[t].act == Visit([], Some(0), [])
  {
    if u :| Steps(s, s', u) {
      OnlyOneMoves(s, s', u);
      assert u == t;
      CollectStarts(s, s', t);
    }
  }

  lemma CollectStarts(s: State, s': State, t: Tid)
    requires Steps(s, s', t) && !Visits(s, t) && Visits(s', t)
    ensures s'.threads[t].act == Visit([], Some(0), [])
  {
  }

  lemma LastVisit(s: State, s': State, t: Tid)
    requires Transition(s, s') && Visits(s, t) && !Visits(s', t)
    ensures s.threads[t].act.frames == [] && s.threads[t].act.pending == None
  {
    if u :| Steps(s, s', u) {
      OnlyOneMoves(s, s', u);
      assert u == t;
      CollectEnds(s, s', t);
    }
  }

  lemma CollectEnds(s: State, s': State, t: Tid)
    requires Steps(s, s', t) && Visits(s, t) && !Visits(s', t)
    ensures s.threads[t].act.frames == [] && s.threads[t].act.pending == None
  {
  }

  /** The moment that the list ending at step `w` answers for. */
  ghost predicate AnswersAt(run: seq<State>, w: nat, j: nat)
    requires w + 1 < |run| && EndsWalk(run, w)
  {
    Began(run, Walker(run, w), w) <= j <= w && IsFirst(Found(run, w), KeysAt(run, j), MAX_ACCESSIBLE_PATHS)
  }

  ghost function Moment(run: seq<State>, w: nat): nat
    requires w + 1 < |run| && EndsWalk(run, w)
  {
    if j: nat :| AnswersAt(run, w, j) then j else 0
  }

  lemma MomentAnswers(run: seq<State>, w: nat)
    requires GuardedRun(run) && w + 1 < |run| && EndsWalk(run, w)
    ensures AnswersAt(run, w, Moment(run, w))
  {
    var t := Walker(run, w);
    var i := Began(run, t, w);
    BeganLater(run, t, w);
    assert Follows(run, w);
    LastVisit(run[w], run[w + 1], t);
    assert Walking(run, t, i, w);
    ListIsAtomic(run, t, i, w, Found(run, w));
    var j :| i <= j <= w && IsFirst(Found(run, w), KeysAt(run, j), MAX_ACCESSIBLE_PATHS);
    assert AnswersAt(run, w, j);
  }

  /** A list is known by the moment at which it began. */
  lemma WalksDiffer(run: seq<State>, v: nat, w: nat)
    requires IsRun(run) && v + 1 < |run| && w + 1 < |run| && EndsWalk(run, v) && EndsWalk(run, w)
    requires WalkCall(run, v) == WalkCall(run, w)
    ensures v == w
  {
    var t, u := Walker(run, v), Walker(run, w);
    var i := Began(run, t, v);
    BeganLater(run, t, v);
    OnlyOneWalker(run, i - 1, t, u);
  }

  // ---------- the order ----------

  function LiftEntry(e: Entry<Op, Res>): Entry<AnyOp, AnyRes> {
    Entry(2 * e.call, Base(e.op), Answer(e.res))
  }

  /** What takes effect in the step to moment `m`. */
  ghost function BaseEntries(run: seq<State>, m: nat): seq<Entry<AnyOp, AnyRes>>
    requires 0 < m < |run|
  {
    var lin, lin' := run[m - 1].rec.lin, run[m].rec.lin;
    if |lin'| > |lin| then [LiftEntry(lin'[|lin|])] else []
  }

  ghost function ListEntry(run: seq<State>, w: nat): Entry<AnyOp, AnyRes>
    requires w + 1 < |run| && EndsWalk(run, w)
  {
    Entry(WalkCall(run, w), List, Listing(Found(run, w)))
  }

  /** The lists that end in the first `n` steps and answer for moment `m`. */
  ghost function ListEntries(run: seq<State>, n: nat, m: nat): seq<Entry<AnyOp, AnyRes>>
    requires n < |run|
  {
    if n == 0 then []
    else
      ListEntries(run, n - 1, m)
      + if EndsWalk(run, n - 1) && Moment(run, n - 1) == m then [ListEntry(run, n - 1)] else []
  }

  ghost function At(run: seq<State>, n: nat, m: nat): seq<Entry<AnyOp, AnyRes>>
    requires n < |run| && m < |run|
  {
    (if m == 0 then [] else BaseEntries(run, m)) + ListEntries(run, n, m)
  }

  /** Moment by moment: what takes effect in the step there, then the lists that answer for it. */
  ghost function Upto(run: seq<State>, n: nat, m: nat): seq<Entry<AnyOp, AnyRes>>
    requires n < |run| && m < |run|
    decreases m, 1
  {
    Prior(run, n, m) + At(run, n, m)
  }

  ghost function Prior(run: seq<State>, n: nat, m: nat): seq<Entry<AnyOp, AnyRes>>
    requires n < |run| && m < |run|
    decreases m, 0
  {
    if m == 0 then [] else Upto(run, n, m - 1)
  }

  lemma {:induction false} InListEntries(run: seq<State>, n: nat, m: nat, x: nat) returns (w: nat)
    requires n < |run| && x < |ListEntries(run, n, m)|
    ensures w < n && EndsWalk(run, w) && Moment(run, w) == m && ListEntries(run, n, m)[x] == ListEntry(run, w)
  {
    if x < |ListEntries(run, n - 1, m)| { w := InListEntries(run, n - 1, m, x); } else { w := n - 1; }
  }

  lemma {:induction false} ListEntryIsIn(run: seq<State>, n: nat, w: nat, m: nat) returns (x: nat)
    requires w < n < |run| && EndsWalk(run, w) && Moment(run, w) == m
    ensures x < |ListEntries(run, n, m)| && ListEntries(run, n, m)[x] == ListEntry(run, w)
  {
    if w < n - 1 { x := ListEntryIsIn(run, n - 1, w, m); } else { x := |ListEntries(run, n - 1, m)|; }
  }

  lemma {:induction false} ListEntriesDiffer(run: seq<State>, n: nat, m: nat, x: nat, y: nat)
    requires IsRun(run) && n < |run| && x < y < |ListEntries(run, n, m)|
    ensures ListEntries(run, n, m)[x].call != ListEntries(run, n, m)[y].call
  {
    var before := ListEntries(run, n - 1, m);
    if y < |before| {
      ListEntriesDiffer(run, n - 1, m, x, y);
    } else {
      LastListDiffers(run, n - 1, m, x);
    }
  }

  lemma LastListDiffers(run: seq<State>, w: nat, m: nat, x: nat)
    requires IsRun(run) && w + 1 < |run| && EndsWalk(run, w) && x < |ListEntries(run, w, m)|
    ensures ListEntries(run, w, m)[x].call != WalkCall(run, w)
  {
    var v := InListEntries(run, w, m, x);
    LaterWalkDiffers(run, v, w);
  }

  lemma LaterWalkDiffers(run: seq<State>, v: nat, w: nat)
    requires IsRun(run) && v < w && w + 1 < |run| && EndsWalk(run, v) && EndsWalk(run, w)
    ensures WalkCall(run, v) != WalkCall(run, w)
  {
    if WalkCall(run, v) == WalkCall(run, w) { WalksDiffer(run, v, w); }
  }

  // where an entry of the order is

  lemma {:induction false} UptoGrows(run: seq<State>, n: nat, i: nat, m: nat)
    requires n < |run| && i <= m < |run|
    ensures Upto(run, n, i) <= Upto(run, n, m)
  {
    if i < m { UptoGrows(run, n, i, m - 1); }
  }

  /** The moment `k` of the entry at `x`, and its place `y` there. */
  lemma {:induction false} Place(run: seq<State>, n: nat, m: nat, x: nat) returns (k: nat, y: nat)
    requires n < |run| && m < |run| && x < |Upto(run, n, m)|
    ensures k <= m && y < |At(run, n, k)| && x == |Prior(run, n, k)| + y
    ensures Upto(run, n, m)[x] == At(run, n, k)[y]
  {
    if x < |Prior(run, n, m)| { k, y := Place(run, n, m - 1, x); } else { k, y := m, x - |Prior(run, n, m)|; }
  }

  /** Entries of an earlier moment come first. */
  lemma PlacesInOrder(run: seq<State>, n: nat, i: nat, k: nat)
    requires n < |run| && i < k < |run|
    ensures |Prior(run, n, i)| + |At(run, n, i)| <= |Prior(run, n, k)|
  {
    UptoGrows(run, n, i, k - 1);
  }

  ghost predicate IsBase(run: seq<State>, m: nat, e: Entry<AnyOp, AnyRes>)
    requires m < |run|
  {
    && 0 < m && |run[m - 1].rec.lin| < |run[m].rec.lin|
    && e == LiftEntry(run[m].rec.lin[|run[m - 1].rec.lin|])
  }

  ghost predicate IsList(run: seq<State>, w: nat, m: nat, e: Entry<AnyOp, AnyRes>)
    requires w + 1 < |run|
  {
    EndsWalk(run, w) && Moment(run, w) == m && e == ListEntry(run, w)
  }

  /** The moment of an entry is that at which its call took effect, or that for which its list answers. */
  ghost predicate Belongs(run: seq<State>, n: nat, m: nat, e: Entry<AnyOp, AnyRes>)
    requires n < |run| && m < |run|
  {
    IsBase(run, m, e) || exists w :: 0 <= w < n && IsList(run, w, m, e)
  }

  lemma EntriesBelong(run: seq<State>, n: nat, m: nat, x: nat)
    requires n < |run| && m < |run| && x < |At(run, n, m)|
    ensures Belongs(run, n, m, At(run, n, m)[x])
  {
    var base := if m == 0 then [] else BaseEntries(run, m);
    if x < |base| { BaseIsBase(run, m); } else { ListEntriesBelong(run, n, m, x - |base|); }
  }

  lemma ListEntriesBelong(run: seq<State>, n: nat, m: nat, x: nat)
    requires n < |run| && m < |run| && x < |ListEntries(run, n, m)|
    ensures Belongs(run, n, m, ListEntries(run, n, m)[x])
  {
    var w := InListEntries(run, n, m, x);
    assert IsList(run, w, m, ListEntries(run, n, m)[x]);
  }

  lemma BaseIsBase(run: seq<State>, m: nat)
    requires 0 < m < |run| && BaseEntries(run, m) != []
    ensures |BaseEntries(run, m)| == 1 && IsBase(run, m, BaseEntries(run, m)[0])
  {
  }

  // ---------- the order is legal ----------

  /** What is mapped when the calls of `lin` have been performed in this order, if they may have their results. */
  ghost function Performed(lin: seq<Entry<AnyOp, AnyRes>>): Option<map<Path, Srv>> {
    if lin == [] then Some(map[])
    else
      var e := lin[|lin| - 1];
      match Performed(lin[..|lin| - 1])
      case None => None
      case Some(m) => if AnyLegal(m, e.op, e.res) then Some(AnyEffect(m, e.op, e.res)) else None
  }

  lemma {:induction false} PerformedIsLegal(lin: seq<Entry<AnyOp, AnyRes>>)
    requires Performed(lin).Some?
    ensures LegalRun(Listable(), lin) && Performed(lin) == Some(Replay(Listable(), lin))
  {
    if lin != [] {
      var before := lin[..|lin| - 1];
      PerformedIsLegal(before);
      forall k | 0 <= k < |lin| ensures Listable().legal(Replay(Listable(), lin[..k]), lin[k].op, lin[k].res) {
        assert k < |before| ==> lin[..k] == before[..k] && lin[k] == before[k];
      }
    }
  }

  ghost predicate LeadsTo(lin: seq<Entry<AnyOp, AnyRes>>, m: map<Path, Srv>) {
    Performed(lin) == Some(m)
  }

  lemma AppendLegal(lin: seq<Entry<AnyOp, AnyRes>>, m: map<Path, Srv>, e: Entry<AnyOp, AnyRes>)
    requires LeadsTo(lin, m) && AnyLegal(m, e.op, e.res)
    ensures LeadsTo(lin + [e], AnyEffect(m, e.op, e.res))
  {
    assert (lin + [e])[..|lin|] == lin;
  }

  lemma ListIsLegal(run: seq<State>, w: nat)
    requires GuardedRun(run) && w + 1 < |run| && EndsWalk(run, w)
    ensures Moment(run, w) < |run| && AnyLegal(Mapped(run[Moment(run, w)]), List, Listing(Found(run, w)))
  {
    MomentAnswers(run, w);
  }

  lemma {:induction false} ListsAppend(run: seq<State>, n: nat, m: nat, lin: seq<Entry<AnyOp, AnyRes>>)
    requires GuardedRun(run) && n < |run| && m < |run| && LeadsTo(lin, Mapped(run[m]))
    ensures LeadsTo(lin + ListEntries(run, n, m), Mapped(run[m]))
  {
    if n == 0 {
      assert lin + ListEntries(run, n, m) == lin;
    } else {
      ListsAppend(run, n - 1, m, lin);
      NextListAppends(run, n, m, lin);
    }
  }

  lemma NextListAppends(run: seq<State>, n: nat, m: nat, lin: seq<Entry<AnyOp, AnyRes>>)
    requires GuardedRun(run) && 0 < n < |run| && m < |run|
    requires LeadsTo(lin + ListEntries(run, n - 1, m), Mapped(run[m]))
    ensures LeadsTo(lin + ListEntries(run, n, m), Mapped(run[m]))
  {
    var before := ListEntries(run, n - 1, m);
    if EndsWalk(run, n - 1) && Moment(run, n - 1) == m {
      var e := ListEntry(run, n - 1);
      ListIsLegal(run, n - 1);
      AppendLegal(lin + before, Mapped(run[m]), e);
      Regroup(lin, before, [e]);
      assert ListEntries(run, n, m) == before + [e];
    } else {
      assert ListEntries(run, n, m) == before + [];
      assert before + [] == before;
    }
  }

  lemma Regroup<T>(a: seq<T>, b: seq<T>, c: seq<T>)
    ensures a + b + c == a + (b + c)
  {
  }

  lemma LinGrowsByOne(run: seq<State>, k: nat)
    requires IsRun(run) && k + 1 < |run|
    ensures run[k].rec.lin <= run[k + 1].rec.lin && |run[k + 1].rec.lin| <= |run[k].rec.lin| + 1
  {
    RunAddsOneEvent(run, k);
  }

  lemma EffectIsLegal(was: seq<Entry<Op, Res>>, now: seq<Entry<Op, Res>>)
    requires LegalRun(PathMap(), now) && was <= now && |now| == |was| + 1
    ensures var e, m := now[|was|], Replay(PathMap(), was);
            Legal(m, e.op, e.res) && Replay(PathMap(), now) == Effect(m, e.op, e.res)
  {
    assert now[..|was|] == was;
  }

  lemma RunIsLegal(run: seq<State>, m: nat)
    requires IsRun(run) && m < |run|
    ensures LegalRun(PathMap(), run[m].rec.lin)
  {
    RunKeepsInv(run, m);
  }

  /** What takes effect in the step to moment `m` fits what was mapped before. */
  lemma BaseIsLegal(run: seq<State>, m: nat)
    requires IsRun(run) && 0 < m < |run|
    requires |run[m - 1].rec.lin| < |run[m].rec.lin|
    ensures var e := run[m].rec.lin[|run[m - 1].rec.lin|];
            Legal(Mapped(run[m - 1]), e.op, e.res) && Mapped(run[m]) == Effect(Mapped(run[m - 1]), e.op, e.res)
  {
    LinGrowsByOne(run, m - 1);
    RunIsLegal(run, m);
    EffectIsLegal(run[m - 1].rec.lin, run[m].rec.lin);
  }

  lemma BaseAppends(run: seq<State>, m: nat, lin: seq<Entry<AnyOp, AnyRes>>)
    requires IsRun(run) && 0 < m < |run| && LeadsTo(lin, Mapped(run[m - 1]))
    ensures LeadsTo(lin + BaseEntries(run, m), Mapped(run[m]))
  {
    var was, now := run[m - 1].rec.lin, run[m].rec.lin;
    if |now| > |was| {
      BaseIsLegal(run, m);
      AppendLegal(lin, Mapped(run[m - 1]), LiftEntry(now[|was|]));
    } else {
      LinGrowsByOne(run, m - 1);
      assert lin + BaseEntries(run, m) == lin && now == was;
    }
  }

  lemma MomentAppends(run: seq<State>, n: nat, m: nat, lin: seq<Entry<AnyOp, AnyRes>>)
    requires GuardedRun(run) && n < |run| && 0 < m < |run| && LeadsTo(lin, Mapped(run[m - 1]))
    ensures LeadsTo(lin + At(run, n, m), Mapped(run[m]))
  {
    BaseAppends(run, m, lin);
    ListsAppend(run, n, m, lin + BaseEntries(run, m));
    Regroup(lin, BaseEntries(run, m), ListEntries(run, n, m));
  }

  lemma FirstIsLegal(run: seq<State>, n: nat)
    requires GuardedRun(run) && n < |run|
    ensures LeadsTo(Upto(run, n, 0), Mapped(run[0]))
  {
    StartIsLegal(run);
    ListsAppend(run, n, 0, []);
    UptoStarts(run, n);
  }

  lemma {:induction false} UptoIsLegal(run: seq<State>, n: nat, m: nat)
    requires GuardedRun(run) && n < |run| && m < |run|
    ensures LeadsTo(Upto(run, n, m), Mapped(run[m]))
  {
    if m == 0 {
      FirstIsLegal(run, n);
    } else {
      UptoIsLegal(run, n, m - 1);
      MomentAppends(run, n, m, Prior(run, n, m));
    }
  }

  lemma StartIsLegal(run: seq<State>)
    requires IsRun(run)
    ensures LeadsTo([], Mapped(run[0]))
  {
  }

  lemma UptoStarts(run: seq<State>, n: nat)
    requires n < |run|
    ensures Upto(run, n, 0) == [] + ListEntries(run, n, 0)
  {
  }

  // ---------- no call is in it twice ----------

  lemma SameCallSameMoment(run: seq<State>, n: nat, j: nat, k: nat,
                           d: Entry<AnyOp, AnyRes>, e: Entry<AnyOp, AnyRes>)
    requires IsRun(run) && n < |run| && j <= k < |run| && Belongs(run, n, j, d) && Belongs(run, n, k, e)
    requires d.call == e.call
    ensures j == k
  {
    if IsBase(run, j, d) && IsBase(run, k, e) {
      SameBaseSameMoment(run, j, k);
    } else if !IsBase(run, j, d) && !IsBase(run, k, e) {
      var v :| 0 <= v < n && IsList(run, v, j, d);
      var w :| 0 <= w < n && IsList(run, w, k, e);
      WalksDiffer(run, v, w);
    } else {
      BaseIsNoList(run, n, j, k, d, e);
    }
  }

  /** Even and odd numbers. */
  lemma BaseIsNoList(run: seq<State>, n: nat, j: nat, k: nat, d: Entry<AnyOp, AnyRes>, e: Entry<AnyOp, AnyRes>)
    requires n < |run| && j < |run| && k < |run| && Belongs(run, n, j, d) && Belongs(run, n, k, e)
    requires IsBase(run, j, d) != IsBase(run, k, e)
    ensures d.call != e.call
  {
    Parity(run, n, j, d);
    Parity(run, n, k, e);
  }

  lemma Parity(run: seq<State>, n: nat, m: nat, e: Entry<AnyOp, AnyRes>)
    requires n < |run| && m < |run| && Belongs(run, n, m, e)
    ensures e.call % 2 == if IsBase(run, m, e) then 0 else 1
  {
    if !IsBase(run, m, e) {
      var w :| 0 <= w < n && IsList(run, w, m, e);
      ListCallIsOdd(run, w);
    }
  }

  lemma SameBaseSameMoment(run: seq<State>, j: nat, k: nat)
    requires IsRun(run) && 0 < j <= k < |run|
    requires |run[j - 1].rec.lin| < |run[j].rec.lin| && |run[k - 1].rec.lin| < |run[k].rec.lin|
    requires run[j].rec.lin[|run[j - 1].rec.lin|].call == run[k].rec.lin[|run[k - 1].rec.lin|].call
    ensures j == k
  {
    LinIsPrefix(run, j, k);
    OneEntry(run, k, |run[j - 1].rec.lin|, |run[k - 1].rec.lin|);
    if j < k { LinIsPrefix(run, j, k - 1); }
  }

  lemma CallsAtDiffer(run: seq<State>, n: nat, m: nat, x: nat, y: nat)
    requires IsRun(run) && n < |run| && m < |run| && x < y < |At(run, n, m)|
    ensures At(run, n, m)[x].call != At(run, n, m)[y].call
  {
    var base := if m == 0 then [] else BaseEntries(run, m);
    var lists := ListEntries(run, n, m);
    assert At(run, n, m) == base + lists;
    if x < |base| {
      var w := InListEntries(run, n, m, y - |base|);
      BaseCallIsEven(run, m);
      ListCallIsOdd(run, w);
    } else {
      ListEntriesDiffer(run, n, m, x - |base|, y - |base|);
    }
  }

  lemma BaseCallIsEven(run: seq<State>, m: nat)
    requires m < |run|
    ensures m > 0 && BaseEntries(run, m) != [] ==> BaseEntries(run, m)[0].call % 2 == 0
  {
  }

  lemma ListCallIsOdd(run: seq<State>, w: nat)
    requires w + 1 < |run| && EndsWalk(run, w)
    ensures ListEntry(run, w).call % 2 == 1
  {
  }

  lemma CallsUptoDiffer(run: seq<State>, n: nat, x: nat, y: nat)
    requires IsRun(run) && n < |run| && x < y < |Upto(run, n, n)|
    ensures Upto(run, n, n)[x].call != Upto(run, n, n)[y].call
  {
    var j, a := Place(run, n, n, x);
    var k, b := Place(run, n, n, y);
    EntriesBelong(run, n, j, a);
    EntriesBelong(run, n, k, b);
    if k < j { PlacesInOrder(run, n, k, j); }
    if Upto(run, n, n)[x].call == Upto(run, n, n)[y].call {
      SameCallSameMoment(run, n, j, k, At(run, n, j)[a], At(run, n, k)[b]);
      CallsAtDiffer(run, n, j, a, b);
    }
  }

  // ---------- the history and the order ----------

  ghost predicate ReturnsAt(run: seq<State>, k: nat, call: nat, res: AnyRes)
    requires k + 1 < |run|
  {
    NewEvents(run, k) == [Return(call, res)]
  }

  ghost predicate InvokesAt(run: seq<State>, k: nat, call: nat, op: AnyOp)
    requires k + 1 < |run|
  {
    NewEvents(run, k) == [Invoke(call, op)]
  }

  /** A call that returns has taken effect, a list that returns has been answered for. */
  lemma ReturnsAfter(run: seq<State>, n: nat, k: nat, call: nat, res: AnyRes, m: nat, e: Entry<AnyOp, AnyRes>)
    requires GuardedRun(run) && k < n < |run| && m < |run| && ReturnsAt(run, k, call, res)
    requires Belongs(run, n, m, e) && e.call == call
    ensures m <= k
  {
    var h, h' := run[k].rec.history, run[k + 1].rec.history;
    RunAddsOneEvent(run, k);
    if |h'| > |h| {
      assert h'[|h|].Return? && call == 2 * h'[|h|].call && Settled(run[k].rec, h'[|h|].call);
      BaseTakesEffect(run, n, m, e, h'[|h|].call);
      SettledBefore(run, k, h'[|h|].call, m);
    } else {
      assert EndsWalk(run, k) && call == WalkCall(run, k);
      ListReturnsAfter(run, n, k, m, e);
    }
  }

  /** The step to moment `m` makes the recorded call `c` take effect. */
  ghost predicate TakesEffectAt(run: seq<State>, m: nat, c: nat)
    requires m < |run|
  {
    0 < m && |run[m - 1].rec.lin| < |run[m].rec.lin| && run[m].rec.lin[|run[m - 1].rec.lin|].call == c
  }

  lemma BaseTakesEffect(run: seq<State>, n: nat, m: nat, e: Entry<AnyOp, AnyRes>, c: nat)
    requires n < |run| && m < |run| && Belongs(run, n, m, e) && e.call == 2 * c
    ensures TakesEffectAt(run, m, c)
  {
    Parity(run, n, m, e);
  }

  lemma SettledHasEntry(run: seq<State>, k: nat, c: nat) returns (x: nat)
    requires IsRun(run) && k < |run| && Settled(run[k].rec, c)
    ensures x < |run[k].rec.lin| && run[k].rec.lin[x].call == c
  {
    RunKeepsInv(run, k);
    var r := run[k].rec;
    assert CallOk(r, c);
    x := r.calls[c].point.value;
  }

  lemma EntryHasCall(run: seq<State>, k: nat, x: nat)
    requires IsRun(run) && k < |run| && x < |run[k].rec.lin|
    ensures run[k].rec.lin[x].call in run[k].rec.calls
  {
    RunKeepsInv(run, k);
  }

  lemma SettledBefore(run: seq<State>, k: nat, c: nat, m: nat)
    requires IsRun(run) && k < |run| && m < |run| && Settled(run[k].rec, c) && TakesEffectAt(run, m, c)
    ensures m <= k
  {
    var x := SettledHasEntry(run, k, c);
    if k < m {
      LinIsPrefix(run, k, m - 1);
      LinIsPrefix(run, m - 1, m);
      OneEntry(run, m, x, |run[m - 1].rec.lin|);
    }
  }

  lemma NotYetBegun(run: seq<State>, k: nat, c: nat, m: nat)
    requires IsRun(run) && k < |run| && m < |run| && c !in run[k].rec.calls && TakesEffectAt(run, m, c)
    ensures k < m
  {
    if m <= k {
      LinIsPrefix(run, m, k);
      EntryHasCall(run, k, |run[m - 1].rec.lin|);
    }
  }

  lemma ListReturnsAfter(run: seq<State>, n: nat, k: nat, m: nat, e: Entry<AnyOp, AnyRes>)
    requires GuardedRun(run) && k < n < |run| && m < |run| && EndsWalk(run, k)
    requires Belongs(run, n, m, e) && e.call == WalkCall(run, k)
    ensures m <= k
  {
    Parity(run, n, m, e);
    var w :| 0 <= w < n && IsList(run, w, m, e);
    WalksDiffer(run, w, k);
    MomentAnswers(run, k);
  }

  /** A call that begins has not taken effect, a list that begins is not yet answered for. */
  lemma InvokesBefore(run: seq<State>, n: nat, k: nat, call: nat, op: AnyOp, m: nat, e: Entry<AnyOp, AnyRes>)
    requires GuardedRun(run) && k < n < |run| && m < |run| && InvokesAt(run, k, call, op)
    requires Belongs(run, n, m, e) && e.call == call
    ensures k < m
  {
    var h, h' := run[k].rec.history, run[k + 1].rec.history;
    RunAddsOneEvent(run, k);
    if |h'| > |h| {
      assert h'[|h|].Invoke? && call == 2 * h'[|h|].call;
      BaseTakesEffect(run, n, m, e, h'[|h|].call);
      NotYetBegun(run, k, h'[|h|].call, m);
    } else {
      assert StartsWalk(run, k) && call == ListCall(k + 1);
      ListInvokesBefore(run, n, k, m, e);
    }
  }

  lemma ListInvokesBefore(run: seq<State>, n: nat, k: nat, m: nat, e: Entry<AnyOp, AnyRes>)
    requires GuardedRun(run) && k < n < |run| && m < |run|
    requires Belongs(run, n, m, e) && e.call == ListCall(k + 1)
    ensures k < m
  {
    Parity(run, n, m, e);
    var w :| 0 <= w < n && IsList(run, w, m, e);
    MomentAnswers(run, w);
  }

  /** No event hides another. */
  lemma EventsAreShown(run: seq<State>, k: nat)
    requires IsRun(run) && k + 1 < |run|
    ensures StartsWalk(run, k) ==> NewEvents(run, k) == [Invoke(ListCall(k + 1), List)] && !EndsWalk(run, k)
    ensures EndsWalk(run, k) ==>
              NewEvents(run, k) == [Return(WalkCall(run, k), Listing(Found(run, k)))] && !StartsWalk(run, k)
  {
    RunAddsOneEvent(run, k);
    forall t, u | !Visits(run[k], t) && Visits(run[k + 1], t) && Visits(run[k], u) && !Visits(run[k + 1], u)
      ensures false
    {
      OnlyOneWalker(run, k, t, u);
    }
  }

  lemma {:induction false} RecordedIsShown(run: seq<State>, k: nat, i: nat)
    requires IsRun(run) && k < |run| && i < |run[k].rec.history|
    ensures Lift(run[k].rec.history[i]) in FullHistory(run, k)
  {
    if k == 0 {
      StartIsEmpty(run);
    } else {
      LinIsPrefix(run, k - 1, k);
      if i < |run[k - 1].rec.history| { RecordedIsShown(run, k - 1, i); } else { NewestIsShown(run, k - 1, i); }
      HistoryGrows(run, k - 1, k);
    }
  }

  lemma StartIsEmpty(run: seq<State>)
    requires IsRun(run)
    ensures run[0].rec.history == [] && run[0].rec.lin == []
  {
  }

  lemma NewestIsShown(run: seq<State>, k: nat, i: nat)
    requires IsRun(run) && k + 1 < |run| && |run[k].rec.history| <= i < |run[k + 1].rec.history|
    ensures Lift(run[k + 1].rec.history[i]) in NewEvents(run, k)
  {
    RunAddsOneEvent(run, k);
  }

  /** Every entry's call was made. */
  lemma EntryWasInvoked(run: seq<State>, n: nat, m: nat, e: Entry<AnyOp, AnyRes>)
    requires IsRun(run) && n < |run| && m <= n && Belongs(run, n, m, e)
    ensures Invoke(e.call, e.op) in FullHistory(run, n)
  {
    if IsBase(run, m, e) {
      BaseWasInvoked(run, m, |run[m - 1].rec.lin|);
      HistoryGrows(run, m, n);
    } else {
      var w: nat :| w < n && IsList(run, w, m, e);
      ListWasInvoked(run, n, w);
    }
  }

  lemma BaseWasInvoked(run: seq<State>, m: nat, x: nat)
    requires IsRun(run) && m < |run| && x < |run[m].rec.lin|
    ensures Invoke(2 * run[m].rec.lin[x].call, Base(run[m].rec.lin[x].op)) in FullHistory(run, m)
  {
    var i := CallIsRecorded(run, m, x);
    RecordedIsShown(run, m, i);
  }

  lemma CallIsRecorded(run: seq<State>, m: nat, x: nat) returns (i: nat)
    requires IsRun(run) && m < |run| && x < |run[m].rec.lin|
    ensures i < |run[m].rec.history|
    ensures run[m].rec.history[i] == Invoke(run[m].rec.lin[x].call, run[m].rec.lin[x].op)
  {
    RunKeepsInv(run, m);
    var r := run[m].rec;
    assert CallOk(r, r.lin[x].call);
    i :| 0 <= i < |r.history| && r.history[i] == Invoke(r.lin[x].call, r.lin[x].op);
  }

  lemma ListWasInvoked(run: seq<State>, n: nat, w: nat)
    requires IsRun(run) && w < n < |run| && EndsWalk(run, w)
    ensures Invoke(WalkCall(run, w), List) in FullHistory(run, n)
  {
    var t := Walker(run, w);
    var i := Began(run, t, w);
    BeganLater(run, t, w);
    EventsAreShown(run, i - 1);
    assert FullHistory(run, i)[|FullHistory(run, i - 1)|] == Invoke(ListCall(i), List);
    HistoryGrows(run, i, n);
  }

  /** What took effect has its entry. */
  lemma {:induction false} EffectHasEntry(run: seq<State>, n: nat, m: nat, v: nat)
    requires IsRun(run) && n < |run| && m < |run| && v < |run[m].rec.lin|
    ensures LiftEntry(run[m].rec.lin[v]) in Upto(run, n, m)
  {
    if m == 0 {
      StartIsEmpty(run);
    } else {
      LinIsPrefix(run, m - 1, m);
      UptoGrows(run, n, m - 1, m);
      if v < |run[m - 1].rec.lin| {
        EffectHasEntry(run, n, m - 1, v);
      } else {
        RunAddsOneEvent(run, m - 1);
        assert BaseEntries(run, m)[0] == LiftEntry(run[m].rec.lin[v]);
        BaseIsUpto(run, n, m);
      }
    }
  }

  lemma BaseIsUpto(run: seq<State>, n: nat, m: nat)
    requires n < |run| && 0 < m < |run| && BaseEntries(run, m) != []
    ensures BaseEntries(run, m)[0] in Upto(run, n, m)
  {
    assert At(run, n, m)[0] == BaseEntries(run, m)[0];
    assert Upto(run, n, m)[|Prior(run, n, m)|] == At(run, n, m)[0];
  }

  /** A list that ended has its entry. */
  lemma ListHasEntry(run: seq<State>, n: nat, w: nat)
    requires GuardedRun(run) && w < n < |run| && EndsWalk(run, w)
    ensures ListEntry(run, w) in Upto(run, n, n)
  {
    MomentAnswers(run, w);
    var m := Moment(run, w);
    var x := ListEntryIsIn(run, n, w, m);
    var base := if m == 0 then [] else BaseEntries(run, m);
    assert At(run, n, m) == base + ListEntries(run, n, m);
    assert At(run, n, m)[|base| + x] == ListEntry(run, w);
    assert Upto(run, n, m)[|Prior(run, n, m)| + |base| + x] == ListEntry(run, w);
    UptoGrows(run, n, m, n);
  }

  ghost predicate HasEntry(lin: seq<Entry<AnyOp, AnyRes>>, call: nat, res: AnyRes) {
    exists k :: 0 <= k < |lin| && lin[k].call == call && lin[k].res == res
  }

  lemma ReturnHasEntry(run: seq<State>, n: nat, k: nat, call: nat, res: AnyRes)
    requires GuardedRun(run) && k < n < |run| && ReturnsAt(run, k, call, res)
    ensures HasEntry(Upto(run, n, n), call, res)
  {
    var h, h' := run[k].rec.history, run[k + 1].rec.history;
    RunAddsOneEvent(run, k);
    if |h'| > |h| {
      var v := ReturnTookEffect(run, k + 1, |h|);
      EffectHasEntry(run, n, k + 1, v);
      UptoGrows(run, n, k + 1, n);
    } else {
      ListHasEntry(run, n, k);
    }
  }

  lemma ReturnTookEffect(run: seq<State>, k: nat, i: nat) returns (v: nat)
    requires IsRun(run) && k < |run| && i < |run[k].rec.history| && run[k].rec.history[i].Return?
    ensures v < |run[k].rec.lin| && run[k].rec.lin[v].call == run[k].rec.history[i].call
    ensures run[k].rec.lin[v].res == run[k].rec.history[i].res
  {
    RunKeepsInv(run, k);
    var r := run[k].rec;
    assert EventOk(r, r.history[i]);
    assert CallOk(r, r.history[i].call);
    v := r.calls[r.history[i].call].point.value;
  }

  lemma ReturnedComesFirst(run: seq<State>, n: nat, p: nat, q: nat, x: nat, y: nat)
    requires GuardedRun(run) && n < |run| && p < q < |FullHistory(run, n)|
    requires FullHistory(run, n)[p].Return? && FullHistory(run, n)[q].Invoke?
    requires x < |Upto(run, n, n)| && Upto(run, n, n)[x].call == FullHistory(run, n)[p].call
    requires y < |Upto(run, n, n)| && Upto(run, n, n)[y].call == FullHistory(run, n)[q].call
    ensures x < y
  {
    var k, l := StepsInOrder(run, n, p, q);
    var i, a := Place(run, n, n, x);
    var j, b := Place(run, n, n, y);
    EntriesBelong(run, n, i, a);
    EntriesBelong(run, n, j, b);
    ReturnsAfter(run, n, k, FullHistory(run, n)[p].call, FullHistory(run, n)[p].res, i, At(run, n, i)[a]);
    InvokesBefore(run, n, l, FullHistory(run, n)[q].call, FullHistory(run, n)[q].op, j, At(run, n, j)[b]);
    PlacesInOrder(run, n, i, j);
  }

  /** A call that returned before another began comes before it. */
  lemma OrderIsRealTime(run: seq<State>, n: nat)
    requires GuardedRun(run) && n < |run|
    ensures var h, lin := FullHistory(run, n), Upto(run, n, n);
            forall i, j, k, l :: 0 <= i < j < |h| && h[i].Return? && h[j].Invoke?
              && 0 <= k < |lin| && 0 <= l < |lin| && lin[k].call == h[i].call && lin[l].call == h[j].call
              ==> k < l
  {
    var h, lin := FullHistory(run, n), Upto(run, n, n);
    forall i, j, k, l | 0 <= i < j < |h| && h[i].Return? && h[j].Invoke? && 0 <= k < |lin| && 0 <= l < |lin|
      && lin[k].call == h[i].call && lin[l].call == h[j].call
      ensures k < l
    {
      ReturnedComesFirst(run, n, i, j, k, l);
    }
  }

  lemma EntryIsInvoked(run: seq<State>, n: nat, x: nat)
    requires IsRun(run) && n < |run| && x < |Upto(run, n, n)|
    ensures Invoke(Upto(run, n, n)[x].call, Upto(run, n, n)[x].op) in FullHistory(run, n)
  {
    var m, a := Place(run, n, n, x);
    EntriesBelong(run, n, m, a);
    EntryWasInvoked(run, n, m, At(run, n, m)[a]);
  }

  lemma ReturnedIsIn(run: seq<State>, n: nat, p: nat)
    requires GuardedRun(run) && n < |run| && p < |FullHistory(run, n)| && FullHistory(run, n)[p].Return?
    ensures HasEntry(Upto(run, n, n), FullHistory(run, n)[p].call, FullHistory(run, n)[p].res)
  {
    var k := EventHasStep(run, n, p);
    ReturnHasEntry(run, n, k, FullHistory(run, n)[p].call, FullHistory(run, n)[p].res);
  }

  lemma OrderRespectsHistory(run: seq<State>, n: nat)
    requires GuardedRun(run) && n < |run|
    ensures Respects(FullHistory(run, n), Upto(run, n, n))
  {
    var h, lin := FullHistory(run, n), Upto(run, n, n);
    forall i, j | 0 <= i < j < |lin| ensures lin[i].call != lin[j].call { CallsUptoDiffer(run, n, i, j); }
    forall k | 0 <= k < |lin| ensures Invoke(lin[k].call, lin[k].op) in h { EntryIsInvoked(run, n, k); }
    forall i | 0 <= i < |h| && h[i].Return? ensures HasEntry(lin, h[i].call, h[i].res) { ReturnedIsIn(run, n, i); }
    OrderIsRealTime(run, n);
  }

  /** Inserts, searches, deletes and lists together are linearizable. */
  lemma AllCallsAreLinearizable(run: seq<State>, n: nat)
    requires GuardedRun(run) && n < |run|
    ensures IsLinearization(Listable(), FullHistory(run, n), Upto(run, n, n))
    ensures Replay(Listable(), Upto(run, n, n)) == Mapped(run[n])
  {
    UptoIsLegal(run, n, n);
    PerformedIsLegal(Upto(run, n, n));
    OrderRespectsHistory(run, n);
  }
}
