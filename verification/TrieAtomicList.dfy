/** Why a LIST answers for one moment: the handlers insert and delete under the servers' mutex, and a collector keeps
    the root locked, so at most one change takes effect during its walk. */
module TrieAtomicList {
  import opened Paths
  import opened Protocol
  import opened PathTree
  import opened RwLocks
  import opened Linearizability
  import opened TrieThreads
  import opened TrieInvariant
  import opened TrieSteps
  import opened TrieTheorems
  import opened TrieCollector
  import opened TrieListing
  import opened Handlers

  // ---------- changes are made under the mutex ----------

  predicate Guarded(script: seq<Action>, mutex: bool) {
    script == []
    || match script[0]
       case TakeMutex => Guarded(script[1..], true)
       case DropMutex => Guarded(script[1..], false)
       case Call(op) => (Writes(op) ==> mutex) && Guarded(script[1..], mutex)
       case _ => Guarded(script[1..], mutex)
  }

  ghost predicate AllGuarded(s: State) {
    forall t :: t in s.threads ==> Guarded(s.threads[t].script, s.mutex == Some(t))
  }

  predicate NewcomersGuarded(s: State, s': State) {
    forall t :: t in s'.threads && t !in s.threads ==> Guarded(s'.threads[t].script, false)
  }

  /** A run in which every request that arrives is guarded. */
  ghost predicate GuardedRun(run: seq<State>) {
    IsRun(run) && forall k :: 0 <= k < |run| - 1 ==> GuardedAt(run, k)
  }

  ghost predicate GuardedAt(run: seq<State>, k: nat)
    requires k + 1 < |run|
  {
    NewcomersGuarded(run[k], run[k + 1])
  }

  lemma StepKeepsGuarded(s: State, s': State, t: Tid)
    requires Inv(s) && Steps(s, s', t) && AllGuarded(s)
    ensures AllGuarded(s')
  {
    assert ThreadOk(s, t);
    OnlyOneMoves(s, s', t);
    OwnScript(s, s', t);
    forall u | u in s'.threads && u != t ensures Guarded(s'.threads[u].script, s'.mutex == Some(u)) {
      OthersMutex(s, s', t, u);
    }
  }

  lemma OwnScript(s: State, s': State, t: Tid)
    requires Steps(s, s', t) && ThreadOk(s, t) && Guarded(s.threads[t].script, s.mutex == Some(t))
    ensures t in s'.threads && Guarded(s'.threads[t].script, s'.mutex == Some(t))
  {
    if s.threads[t].act.Ready? { ReadyScript(s, s', t); } else { BusyScript(s, s', t); }
  }

  lemma ReadyScript(s: State, s': State, t: Tid)
    requires t in s.threads && s.threads[t].act.Ready? && |s.heap| > 0 && ReadyNext(s, t) == Some(s')
    requires Guarded(s.threads[t].script, s.mutex == Some(t))
    ensures t in s'.threads && Guarded(s'.threads[t].script, s'.mutex == Some(t))
  {
  }

  /** Inside a call or a walk the mutex stays, and the script loses at most what ends. */
  lemma BusyScript(s: State, s': State, t: Tid)
    requires Steps(s, s', t) && ThreadOk(s, t) && !s.threads[t].act.Ready?
    ensures t in s'.threads && s'.mutex == s.mutex && s.threads[t].script != []
    ensures s.threads[t].script[0].Call? || s.threads[t].script[0].Collect?
    ensures s'.threads[t].script == s.threads[t].script || s'.threads[t].script == s.threads[t].script[1..]
  {
  }

  lemma OthersMutex(s: State, s': State, t: Tid, u: Tid)
    requires Steps(s, s', t) && ThreadOk(s, t) && u != t
    ensures s'.mutex == Some(u) <==> s.mutex == Some(u)
  {
  }

  lemma RunIsGuarded(run: seq<State>, k: nat)
    requires GuardedRun(run) && k < |run|
    ensures AllGuarded(run[k])
  {
    for j := 0 to k
      invariant AllGuarded(run[j])
    {
      NextIsGuarded(run, j);
    }
  }

  lemma NextIsGuarded(run: seq<State>, k: nat)
    requires GuardedRun(run) && k + 1 < |run| && AllGuarded(run[k])
    ensures AllGuarded(run[k + 1])
  {
    RunKeepsInv(run, k);
    var s, s' := run[k], run[k + 1];
    assert Follows(run, k) && GuardedAt(run, k);
    if t :| Steps(s, s', t) { StepKeepsGuarded(s, s', t); }
    else {
      var t, script :| Starts(s, s', t, script);
      assert s'.mutex == s.mutex;
      assert OwnersExist(s);
    }
  }

  // ---------- at most one change ----------

  /** The thread is inserting or deleting, is past the root's lock, and has not taken effect yet. */
  predicate Changing(th: Thread) {
    && th.act.Walk? && Writes(th.act.op) && !th.act.phase.Unlock?
    && !(th.act.phase == Lock && th.act.cur == 0)
  }

  ghost predicate InFlight(s: State) {
    exists t :: t in s.threads && Changing(s.threads[t])
  }

  lemma ChangersOwnMutex(s: State, t: Tid)
    requires AllGuarded(s) && t in s.threads && ThreadOk(s, t) && s.threads[t].act.Walk?
    ensures Writes(s.threads[t].act.op) ==> s.mutex == Some(t)
  {
  }

  /** While a collector is inside the root nobody gets a write lock there. */
  lemma RootIsReadLocked(s: State, c: Tid)
    requires Inv(s) && c in s.threads && s.threads[c].act.Visit? && s.threads[c].act.frames != []
    ensures !Grants(s.locks[0], true)
  {
    var th := s.threads[c];
    assert ThreadOk(s, c) && LockOk(s, 0);
    assert th.act.frames[0].node == 0;
    assert HoldsRead(th, 0);
  }

  lemma OwnChanging(s: State, s': State, t: Tid)
    requires Steps(s, s', t) && ThreadOk(s, t) && !Grants(s.locks[0], true)
    ensures t in s'.threads && (Changing(s'.threads[t]) ==> Changing(s.threads[t]))
  {
  }

  /** A step either records no effect or one of the thread's own call. */
  ghost predicate OwnEffect(s: State, s': State, t: Tid)
    requires t in s.threads
  {
    var act := s.threads[t].act;
    && t in s'.threads
    && (|| s'.rec.lin == s.rec.lin
        || (&& act.Walk? && act.phase == At && s'.threads[t].act.Walk? && s'.threads[t].act.phase.Unlock?
            && s'.rec.lin == s.rec.lin + [Entry(act.call, act.op, s'.threads[t].act.phase.res)]))
  }

  lemma EffectIsOwn(s: State, s': State, t: Tid)
    requires Steps(s, s', t) && ThreadOk(s, t)
    ensures OwnEffect(s, s', t)
  {
    if s.threads[t].act.Walk? { WalkEffectIsOwn(s, s', t); }
  }

  lemma WalkEffectIsOwn(s: State, s': State, t: Tid)
    requires t in s.threads && InBounds(s, s.threads[t]) && s.threads[t].act.Walk? && WalkNext(s, t) == Some(s')
    requires ThreadOk(s, t)
    ensures OwnEffect(s, s', t)
  {
  }

  ghost predicate DifferAtOne(a: set<Path>, b: set<Path>) {
    exists p :: DifferAt(a, b, p)
  }

  predicate DifferAt(a: set<Path>, b: set<Path>, p: Path) {
    a <= b + {p} && b <= a + {p}
  }

  lemma EffectDiffersAtOne(s: State, s': State, e: Entry<Op, Res>)
    requires s'.rec.lin == s.rec.lin + [e]
    ensures DifferAt(Mapped(s).Keys, Mapped(s').Keys, e.op.path)
    ensures !Writes(e.op) ==> Mapped(s').Keys == Mapped(s).Keys
  {
    assert s'.rec.lin[..|s.rec.lin|] == s.rec.lin;
  }

  lemma OnlyOneChanges(s: State, t: Tid, u: Tid)
    requires Inv(s) && AllGuarded(s) && t in s.threads && u in s.threads
    requires s.threads[t].act.Walk? && Writes(s.threads[t].act.op) && Changing(s.threads[u])
    ensures u == t
  {
    assert ThreadOk(s, t) && ThreadOk(s, u);
    ChangersOwnMutex(s, t);
    ChangersOwnMutex(s, u);
  }

  /** Only a change in flight changes the map, and it is the last one. */
  lemma ChangesOnce(s: State, s': State, t: Tid, c: Tid)
    requires Inv(s) && AllGuarded(s) && Steps(s, s', t)
    requires c in s.threads && s.threads[c].act.Visit? && s.threads[c].act.frames != []
    ensures InFlight(s') ==> InFlight(s)
    ensures
      || Mapped(s').Keys == Mapped(s).Keys
      || (InFlight(s) && !InFlight(s') && DifferAtOne(Mapped(s).Keys, Mapped(s').Keys))
  {
    assert ThreadOk(s, t);
    RootIsReadLocked(s, c);
    OwnChanging(s, s', t);
    EffectIsOwn(s, s', t);
    OnlyOneMoves(s, s', t);
    if s'.rec.lin != s.rec.lin {
      var act := s.threads[t].act;
      EffectDiffersAtOne(s, s', Entry(act.call, act.op, s'.threads[t].act.phase.res));
      if Writes(act.op) {
        assert Changing(s.threads[t]);
        forall u | u in s'.threads ensures !Changing(s'.threads[u]) {
          if u != t && Changing(s'.threads[u]) { OnlyOneChanges(s, t, u); }
        }
      }
    }
  }

  // ---------- a walk sees one map or the next ----------

  /** The keys were `a` at first and are `b` now: the same, or a change apart with no other on its way. */
  ghost predicate AtMostOneChange(s: State, a: set<Path>, b: set<Path>) {
    b == Mapped(s).Keys && (a == b || (DifferAtOne(a, b) && !InFlight(s)))
  }

  /** The collector, inside the root, answers for `a` or for `b`. */
  ghost predicate Between(s: State, c: Tid, a: set<Path>, b: set<Path>) {
    && c in s.threads && s.threads[c].act.Visit? && s.threads[c].act.frames != []
    && AtMostOneChange(s, a, b) && Answers(s.heap, s.threads[c].act, a * b, a + b)
  }

  /** What is true of the paths that stayed and of those that were ever there is true of one of the two. */
  lemma OneOfTheTwo(found: seq<Path>, a: set<Path>, b: set<Path>)
    requires a == b || DifferAtOne(a, b)
    requires |found| <= MAX_ACCESSIBLE_PATHS && StrictlyIncreasing(found)
    requires (forall p :: p in found ==> p in a + b) && forall p :: p in a * b ==> Covered(found, p)
    ensures IsFirst(found, a, MAX_ACCESSIBLE_PATHS) || IsFirst(found, b, MAX_ACCESSIBLE_PATHS)
  {
    if a == b { CoveringIsFirst(found, a); } else {
      var p :| DifferAt(a, b, p);
      var c := if (p in found) == (p in a) then a else b;
      CoveringIsFirst(found, c);
    }
  }

  /** The collector moves on inside the root. */
  lemma OwnMoveKeepsBetween(s: State, s': State, c: Tid, a: set<Path>, b: set<Path>)
    requires Inv(s) && Inv(s') && Steps(s, s', c) && Between(s, c, a, b)
    requires c in s'.threads && s'.threads[c].act.Visit?
    ensures Answers(s'.heap, s'.threads[c].act, a * b, a + b)
    ensures s'.threads[c].act.frames != [] && AllGuarded(s) ==> Between(s', c, a, b)
  {
    assert ThreadOk(s, c) && ThreadOk(s', c);
    StepMoves(s, s', c);
    MoveKeepsAnswers(s.heap, s.threads[c].act, s'.threads[c].act, Mapped(s), a * b, a + b);
    if AllGuarded(s) { ChangesOnce(s, s', c, c); }
  }

  /** Somebody else moves, and may change the map, once. */
  lemma OthersKeepBetween(s: State, s': State, t: Tid, c: Tid, a: set<Path>, b: set<Path>) returns (a': set<Path>)
    requires Inv(s) && Inv(s') && AllGuarded(s) && Steps(s, s', t) && t != c && Between(s, c, a, b)
    ensures Between(s', c, a', Mapped(s').Keys) && (a' == a || a' == b)
  {
    var b', act := Mapped(s').Keys, s.threads[c].act;
    assert ThreadOk(s, t) && ThreadOk(s, c);
    OnlyOneMoves(s, s', t);
    assert ThreadOk(s', c);
    StepExtends(s, s', t);
    ChangesOnce(s, s', t, c);
    OthersKeepAnswers(s.heap, s'.heap, act, a * b, a + b);
    a' := if b' == b then a else b;
    if b' != b { assert a * b == b && a + b == b; }
    AnswersForLess(s'.heap, act, a * b, a + b, a' * b', a' + b');
  }

  lemma AnswersForLess(heap: seq<Node>, v: Activity, always: set<Path>, once: set<Path>,
                       fewer: set<Path>, more: set<Path>)
    requires Answers(heap, v, always, once) && fewer <= always && once <= more
    ensures Answers(heap, v, fewer, more)
  {
  }

  // ---------- whole runs ----------

  ghost function KeysAt(run: seq<State>, j: nat): set<Path>
    requires j < |run|
  {
    Mapped(run[j]).Keys
  }

  ghost predicate AnswersFor(run: seq<State>, i: nat, k: nat, found: seq<Path>)
    requires i <= k < |run|
  {
    exists j :: i <= j <= k && IsFirst(found, KeysAt(run, j), MAX_ACCESSIBLE_PATHS)
  }

  /** Before the root is locked, inside it, and after. */
  ghost predicate OnTheWayTo(run: seq<State>, c: Tid, i: nat, k: nat)
    requires i <= k < |run| && c in run[k].threads && run[k].threads[c].act.Visit?
  {
    var v := run[k].threads[c].act;
    || v == Visit([], Some(0), [])
    || (exists j :: i <= j <= k && Between(run[k], c, KeysAt(run, j), KeysAt(run, k)))
    || (v.frames == [] && v.pending == None && AnswersFor(run, i, k, v.found))
  }

  /** Locking the root. */
  lemma RootEntered(s: State, s': State, c: Tid)
    requires Inv(s) && Inv(s') && Steps(s, s', c) && c in s.threads && s.threads[c].act == Visit([], Some(0), [])
    requires c in s'.threads && s'.threads[c].act.Visit?
    ensures Between(s', c, Mapped(s').Keys, Mapped(s').Keys)
  {
    assert ThreadOk(s, c) && ThreadOk(s', c);
    StepMoves(s, s', c);
    var v := s'.threads[c].act;
    assert v.frames[0] == Frame(0, 0) && v.frames == [Frame(0, 0)];
    assert forall p :: !Done(s'.heap, v, p);
  }

  /** The collector's own step inside the root, or out of it. */
  lemma OwnStepOn(run: seq<State>, c: Tid, i: nat, j: nat, k: nat)
    requires GuardedRun(run) && i <= j <= k && k + 1 < |run| && Steps(run[k], run[k + 1], c)
    requires Between(run[k], c, KeysAt(run, j), KeysAt(run, k))
    requires c in run[k + 1].threads && run[k + 1].threads[c].act.Visit?
    ensures OnTheWayTo(run, c, i, k + 1)
  {
    RunKeepsInv(run, k);
    RunKeepsInv(run, k + 1);
    RunIsGuarded(run, k);
    var a, b := KeysAt(run, j), KeysAt(run, k);
    OwnMoveKeepsBetween(run[k], run[k + 1], c, a, b);
    if run[k + 1].threads[c].act.frames != [] {
      assert Between(run[k + 1], c, a, KeysAt(run, k + 1));
    } else {
      LeavesRoot(run[k], run[k + 1], c);
      OutOfRoot(run[k + 1], c, a, b);
      assert IsFirst(run[k + 1].threads[c].act.found, KeysAt(run, j), MAX_ACCESSIBLE_PATHS)
          || IsFirst(run[k + 1].threads[c].act.found, KeysAt(run, k), MAX_ACCESSIBLE_PATHS);
    }
  }

  lemma LeavesRoot(s: State, s': State, c: Tid)
    requires Inv(s) && Inv(s') && Steps(s, s', c) && c in s.threads && s.threads[c].act.Visit?
    requires s.threads[c].act.frames != [] && c in s'.threads && s'.threads[c].act.Visit?
    requires s'.threads[c].act.frames == []
    ensures s'.threads[c].act.pending == None
  {
    assert ThreadOk(s, c) && ThreadOk(s', c);
    StepMoves(s, s', c);
  }

  lemma OutOfRoot(s: State, c: Tid, a: set<Path>, b: set<Path>)
    requires c in s.threads && s.threads[c].act.Visit? && (a == b || DifferAtOne(a, b))
    requires s.threads[c].act.frames == [] && s.threads[c].act.pending == None
    requires Answers(s.heap, s.threads[c].act, a * b, a + b)
    ensures IsFirst(s.threads[c].act.found, a, MAX_ACCESSIBLE_PATHS)
         || IsFirst(s.threads[c].act.found, b, MAX_ACCESSIBLE_PATHS)
  {
    var v := s.threads[c].act;
    forall p | p in a * b ensures Covered(v.found, p) { assert Done(s.heap, v, p); }
    OneOfTheTwo(v.found, a, b);
  }

  lemma OthersStepOn(run: seq<State>, c: Tid, t: Tid, i: nat, j: nat, k: nat)
    requires GuardedRun(run) && i <= j <= k && k + 1 < |run| && Steps(run[k], run[k + 1], t) && t != c
    requires Between(run[k], c, KeysAt(run, j), KeysAt(run, k))
    ensures c in run[k + 1].threads && run[k + 1].threads[c].act.Visit? && OnTheWayTo(run, c, i, k + 1)
  {
    RunKeepsInv(run, k);
    RunKeepsInv(run, k + 1);
    RunIsGuarded(run, k);
    var a := OthersKeepBetween(run[k], run[k + 1], t, c, KeysAt(run, j), KeysAt(run, k));
    assert Between(run[k + 1], c, a, KeysAt(run, k + 1));
  }

  lemma ArrivalKeepsBetween(s: State, s': State, t: Tid, script: seq<Action>, c: Tid, a: set<Path>, b: set<Path>)
    requires Starts(s, s', t, script) && Between(s, c, a, b)
    ensures Between(s', c, a, b)
  {
    if InFlight(s') {
      var u :| u in s'.threads && Changing(s'.threads[u]);
      assert u in s.threads && Changing(s.threads[u]);
    }
  }

  ghost predicate SetsOut(run: seq<State>, c: Tid, i: nat, k: nat) {
    GuardedRun(run) && Walking(run, c, i, k)
  }

  lemma SetsOutBefore(run: seq<State>, c: Tid, i: nat, k: nat)
    requires SetsOut(run, c, i, k + 1) && i <= k
    ensures SetsOut(run, c, i, k)
  {
  }

  lemma NextOnTheWay(run: seq<State>, c: Tid, i: nat, k: nat)
    requires SetsOut(run, c, i, k + 1) && i <= k && SetsOut(run, c, i, k) && OnTheWayTo(run, c, i, k)
    ensures OnTheWayTo(run, c, i, k + 1)
  {
    var s, s', v := run[k], run[k + 1], run[k].threads[c].act;
    assert Follows(run, k);
    RunKeepsInv(run, k);
    RunKeepsInv(run, k + 1);
    if j :| i <= j <= k && Between(s, c, KeysAt(run, j), KeysAt(run, k)) {
      if Steps(s, s', c) { OwnStepOn(run, c, i, j, k); }
      else if t :| Steps(s, s', t) { OthersStepOn(run, c, t, i, j, k); }
      else {
        var t, script :| Starts(s, s', t, script);
        ArrivalKeepsBetween(s, s', t, script, c, KeysAt(run, j), KeysAt(run, k));
        assert Between(s', c, KeysAt(run, j), KeysAt(run, k + 1));
      }
    } else if Steps(s, s', c) {
      StartsOrEnds(s, s', c);
      RootEntered(s, s', c);
      assert Between(s', c, KeysAt(run, k + 1), KeysAt(run, k + 1));
    } else {
      NotItsStep(s, s', c);
      if v.pending == None { assert AnswersFor(run, i, k + 1, v.found); }
    }
  }

  /** A walk that has ended takes no step of its own. */
  lemma StartsOrEnds(s: State, s': State, c: Tid)
    requires Steps(s, s', c) && s.threads[c].act.Visit? && c in s'.threads && s'.threads[c].act.Visit?
    ensures !(s.threads[c].act.frames == [] && s.threads[c].act.pending == None)
  {
  }

  /** The walk from moment `i` on, up to moment `k`, is on its way at every moment. */
  lemma {:induction false} StaysOnTheWay(run: seq<State>, c: Tid, i: nat, k: nat)
    requires SetsOut(run, c, i, k)
    ensures OnTheWayTo(run, c, i, k)
  {
    if i < k {
      ReachesNext(run, c, i, k - 1);
    }
  }

  lemma {:induction false} ReachesNext(run: seq<State>, c: Tid, i: nat, k: nat)
    requires SetsOut(run, c, i, k + 1) && i <= k
    ensures OnTheWayTo(run, c, i, k + 1)
    decreases k
  {
    SetsOutBefore(run, c, i, k);
    if i < k { ReachesNext(run, c, i, k - 1); }
    NextOnTheWay(run, c, i, k);
  }

  /** A LIST in the program answers for one moment: its result is exactly the first ten paths mapped at some moment
      between its start and its end, whatever inserts, deletes and searches run alongside. */
  lemma ListIsAtomic(run: seq<State>, c: Tid, i: nat, k: nat, found: seq<Path>)
    requires GuardedRun(run) && Walking(run, c, i, k) && run[k].threads[c].act == Visit([], None, found)
    ensures exists j :: i <= j <= k && IsFirst(found, KeysAt(run, j), MAX_ACCESSIBLE_PATHS)
  {
    StaysOnTheWay(run, c, i, k);
    assert AnswersFor(run, i, k, found);
  }

  // ---------- the handlers ----------

  lemma {:induction false} GuardedAppend(a: seq<Action>, b: seq<Action>, m: bool, c: bool)
    requires Disciplined(a, m, c) && Guarded(a, m) && Guarded(b, false)
    ensures Guarded(a + b, m)
  {
    if a == [] {
      assert a + b == b;
    } else {
      assert (a + b)[1..] == a[1..] + b;
      match a[0]
      case TakeMutex => GuardedAppend(a[1..], b, true, c);
      case DropMutex => GuardedAppend(a[1..], b, false, c);
      case TakeCache => GuardedAppend(a[1..], b, m, true);
      case DropCache => GuardedAppend(a[1..], b, m, false);
      case _ => GuardedAppend(a[1..], b, m, c);
    }
  }

  lemma GuardedCons(a: Action, rest: seq<Action>)
    ensures forall m :: Guarded([a] + rest, m)
                   <==> match a
                        case TakeMutex => Guarded(rest, true)
                        case DropMutex => Guarded(rest, false)
                        case Call(op) => (Writes(op) ==> m) && Guarded(rest, m)
                        case _ => Guarded(rest, m)
  {
    assert ([a] + rest)[1..] == rest;
  }

  lemma {:induction false} InsertsAreGuarded(paths: seq<Path>, ss: Srv)
    ensures Guarded(Inserts(paths, ss), true)
  {
    if paths != [] {
      InsertsAreGuarded(paths[1..], ss);
      GuardedCons(Call(Insert(paths[0], ss)), Inserts(paths[1..], ss));
    }
  }

  lemma PieceIsGuarded(p: Piece)
    ensures Guarded(Actions(p), false)
  {
    match p
    case Register(paths, ss) =>
      InsertsAreGuarded(paths, ss);
      GuardedCons(TakeMutex, Inserts(paths, ss));
    case WalkTrie => GuardedCons(Collect, []);
    case Find(path) => GuardedCons(Call(Search(path)), []);
    case PickServer => GuardedCons(TakeMutex, [DropMutex]);
    case PassOn(req) => GuardedCons(Ask(req), []);
    case Change(op) =>
      GuardedCons(Call(op), [DropMutex]);
      GuardedCons(TakeMutex, [Call(op)] + [DropMutex]);
    case Forget(path) =>
      var tail := [DropCache] + [DropMutex];
      GuardedCons(DropCache, [DropMutex]);
      GuardedCons(TakeCache, tail);
      GuardedCons(Call(Delete(path)), [TakeCache] + tail);
      GuardedCons(TakeMutex, [Call(Delete(path))] + ([TakeCache] + tail));
    case UseCache => GuardedCons(TakeCache, [DropCache]);
  }

  lemma {:induction false} ConcatIsGuarded(pieces: seq<Piece>)
    ensures Guarded(Concat(pieces), false)
  {
    if pieces != [] {
      PieceIsGuarded(pieces[0]);
      PieceIsDisciplined(pieces[0]);
      ConcatIsGuarded(pieces[1..]);
      GuardedAppend(Actions(pieces[0]), Concat(pieces[1..]), false, false);
    }
  }

  /** Every handler inserts and deletes under the servers' mutex only. */
  lemma HandlersAreGuarded(h: Handler)
    ensures Guarded(Script(h), false)
  {
    ConcatIsGuarded(Pieces(h));
  }
}
