/** Why a request at the storage servers ends with the code it ends with. */
module FileOutcomes {
  import opened Paths
  import opened Protocol
  import opened RwLocks
  import opened Linearizability
  import opened FileStore
  import opened FileInvariant
  import opened FileTheorems

  /** A refused connection, a failure to send or a lost reply, a reply, or the operation's own result, if there is
      nothing to pass on. */
  ghost predicate EndsWith(s: State, t: Tid, c: Choice, code: Code)
    requires t in s.tasks
  {
    var k := s.tasks[t];
    match k.phase
    case Connect => if c.ok then !c.sent && code == NETWORK_ERROR else code == SS_UNAVAILABLE
    case Await(child) =>
      if c.ok then child in s.tasks && s.tasks[child].phase == Finished(code) else code == NETWORK_ERROR
    case Leave2 => code == k.res.code && (k.req.copyTo.Some? ==> code != SUCCESS)
    case _ => false
  }

  /** Nothing else ends a request, and each of these ends it with that code. */
  lemma StepEnds(s: State, s': State, t: Tid, c: Choice, code: Code)
    requires Steps(s, s', t, c) && (s.tasks[t].phase.Await? ==> s.tasks[t].phase.child != t)
    ensures t in s'.tasks && (s'.tasks[t].phase == Finished(code) <==> EndsWith(s, t, c, code))
  {
    match s.tasks[t].phase
    case Connect => MessageEnds(s, s', t, c, code);
    case Await(_) => MessageEnds(s, s', t, c, code);
    case Begun => OpenGoesOn(s, t, c.ok);
    case Reading => BodyGoesOn(s, s', t, c.ok);
    case Writing => BodyGoesOn(s, s', t, c.ok);
    case Closing => BodyGoesOn(s, s', t, c.ok);
    case Removing => BodyGoesOn(s, s', t, c.ok);
    case _ => LockEnds(s, s', t, c, code);
  }

  lemma MessageEnds(s: State, s': State, t: Tid, c: Choice, code: Code)
    requires InBounds(s, t) && (s.tasks[t].phase == Connect || s.tasks[t].phase.Await?)
    requires MessageNext(s, t, c) == Some(s')
    ensures t in s'.tasks && (s'.tasks[t].phase == Finished(code) <==> EndsWith(s, t, c, code))
  {
  }

  lemma LockEnds(s: State, s': State, t: Tid, c: Choice, code: Code)
    requires InBounds(s, t) && !s.tasks[t].relay && LockNext(s, t) == Some(s')
    requires s.tasks[t].phase in {Enter, Look, Leave, Wait, Enter2, Unlock, Leave2}
    ensures t in s'.tasks && (s'.tasks[t].phase == Finished(code) <==> EndsWith(s, t, c, code))
  {
  }

  lemma OpenGoesOn(s: State, t: Tid, ok: bool)
    requires InBounds(s, t) && !s.tasks[t].relay
    ensures t in OpenNext(s, t, ok).tasks && !OpenNext(s, t, ok).tasks[t].phase.Finished?
  {
  }

  lemma BodyGoesOn(s: State, s': State, t: Tid, ok: bool)
    requires InBounds(s, t) && !s.tasks[t].relay && BodyNext(s, t, ok) == Some(s')
    requires s.tasks[t].phase in {Reading, Writing, Closing, Removing}
    ensures t in s'.tasks && !s'.tasks[t].phase.Finished?
  {
  }

  /** What the request ended with is known to it: the reply is to what it passed on, the result is the recorded one. */
  ghost predicate Known(s: State, t: Tid)
    requires t in s.tasks
  {
    var k := s.tasks[t];
    match k.phase
    case Await(child) => IsChild(s, t, child)
    case Leave2 => Effective(s.rec, t, OpOf(k.req), k.res)
    case _ => true
  }

  /** The step from moment `j` ended the request. */
  ghost predicate EndedAt(run: seq<State>, j: nat, t: Tid, c: Choice, code: Code)
    requires j + 1 < |run|
  {
    Steps(run[j], run[j + 1], t, c) && Known(run[j], t) && EndsWith(run[j], t, c, code)
  }

  /** In every run a request that has ended has its reason. */
  lemma {:induction false} EndsForReason(run: seq<State>, init: Disk, n: nat, k: nat, t: Tid, code: Code)
    returns (j: nat, c: Choice)
    requires IsRun(run, init, n) && k < |run| && t in run[k].tasks && run[k].tasks[t].phase == Finished(code)
    ensures j < k && EndedAt(run, j, t, c, code)
  {
    if k > 0 {
      j := k - 1;
      assert Follows(run, j);
      RunKeepsInv(run, init, n, j);
      if t in run[j].tasks && run[j].tasks[t].phase == Finished(code) {
        j, c := EndsForReason(run, init, n, j, t, code);
      } else {
        c := EndsNow(run[j], run[j + 1], init, t, code);
      }
    }
  }

  lemma EndsNow(s: State, s': State, init: Disk, t: Tid, code: Code) returns (c: Choice)
    requires Inv(s, init) && Transition(s, s')
    requires t in s'.tasks && s'.tasks[t].phase == Finished(code)
    requires !(t in s.tasks && s.tasks[t].phase == Finished(code))
    ensures Steps(s, s', t, c) && Known(s, t) && EndsWith(s, t, c, code)
  {
    c := StepOf(s, s', t, code);
    AllIsKnown(s, init, t);
    StepEnds(s, s', t, c, code);
  }

  lemma AllIsKnown(s: State, init: Disk, t: Tid)
    requires Inv(s, init) && t in s.tasks
    ensures Known(s, t)
  {
    assert TaskOk(s, t, init) && OutcomeOk(s, t);
  }

  lemma StepOf(s: State, s': State, t: Tid, code: Code) returns (c: Choice)
    requires Transition(s, s') && t in s'.tasks && s'.tasks[t].phase == Finished(code)
    requires !(t in s.tasks && s.tasks[t].phase == Finished(code))
    ensures Steps(s, s', t, c)
  {
    assert Progresses(s, s');
    var u, d :| Steps(s, s', u, d);
    if u != t { OthersStayPut(s, s', u, d, t); }
    c := d;
  }

  /** A step moves no task but its own, and whom it sends a request to has not ended. */
  lemma OthersStayPut(s: State, s': State, u: Tid, c: Choice, t: Tid)
    requires Steps(s, s', u, c) && t in s'.tasks && t != u
    ensures if t in s.tasks then s'.tasks[t] == s.tasks[t] else s'.tasks[t].phase == Enter
  {
    match s.tasks[u].phase
    case Connect => MessageMovesOne(s, s', u, c, t);
    case Await(_) => MessageMovesOne(s, s', u, c, t);
    case Begun => OpenMovesOne(s, u, c.ok);
    case Reading => BodyMovesOne(s, s', u, c.ok);
    case Writing => BodyMovesOne(s, s', u, c.ok);
    case Closing => BodyMovesOne(s, s', u, c.ok);
    case Removing => BodyMovesOne(s, s', u, c.ok);
    case _ => LockMovesOne(s, s', u);
  }

  lemma MessageMovesOne(s: State, s': State, u: Tid, c: Choice, t: Tid)
    requires InBounds(s, u) && (s.tasks[u].phase == Connect || s.tasks[u].phase.Await?)
    requires MessageNext(s, u, c) == Some(s') && t in s'.tasks && t != u
    ensures if t in s.tasks then s'.tasks[t] == s.tasks[t] else s'.tasks[t].phase == Enter
  {
  }

  lemma OpenMovesOne(s: State, u: Tid, ok: bool)
    requires InBounds(s, u) && !s.tasks[u].relay
    ensures OpenNext(s, u, ok).tasks == s.tasks[u := OpenNext(s, u, ok).tasks[u]]
  {
  }

  lemma BodyMovesOne(s: State, s': State, u: Tid, ok: bool)
    requires InBounds(s, u) && !s.tasks[u].relay && BodyNext(s, u, ok) == Some(s')
    ensures u in s'.tasks && s'.tasks == s.tasks[u := s'.tasks[u]]
  {
  }

  lemma LockMovesOne(s: State, s': State, u: Tid)
    requires InBounds(s, u) && !s.tasks[u].relay && LockNext(s, u) == Some(s')
    ensures u in s'.tasks && s'.tasks == s.tasks[u := s'.tasks[u]]
  {
  }
}
