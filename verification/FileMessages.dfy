/** Requests, replies and the end of an operation keep the invariant; so does every step. */
module FileMessages {
  import opened Paths
  import opened Protocol
  import opened RwLocks
  import opened Linearizability
  import opened FileStore
  import opened FileInvariant
  import opened FileSteps
  import opened FileEffects
  import LockSpec

  // ---------- a new request ----------

  lemma SpawnTask(s: State, id: Tid, req: Request, relay: bool, init: Disk)
    requires RecOk(s, init) && IsFresh(s, id) && WellFormed(s, req)
    requires relay || Pending(Spawn(s, id, req, relay).rec, id, OpOf(req))
    ensures TaskOk(Spawn(s, id, req, relay), id, init) && OutcomeOk(Spawn(s, id, req, relay), id)
  {
  }

  lemma SpawnRecord(s: State, id: Tid, req: Request, relay: bool, init: Disk)
    requires RecOk(s, init) && IsFresh(s, id)
    ensures RecOk(Spawn(s, id, req, relay), init) && Grows(s.rec, Spawn(s, id, req, relay).rec)
    ensures relay || Pending(Spawn(s, id, req, relay).rec, id, OpOf(req))
  {
    if !relay { BeginKeeps(s.rec, id, OpOf(req)); }
  }

  lemma SpawnTasks(s: State, id: Tid, req: Request, relay: bool, init: Disk, u: Tid)
    requires RecOk(s, init) && IsFresh(s, id) && u in s.tasks && TaskOk(s, u, init)
    ensures TaskOk(Spawn(s, id, req, relay), u, init)
  {
    var s' := Spawn(s, id, req, relay);
    assert Committed(s', init) == Committed(s, init);
    TaskStays(s, s', u, init);
  }

  lemma SpawnOutcomes(s: State, id: Tid, req: Request, relay: bool, u: Tid)
    requires IsFresh(s, id) && u in s.tasks && OutcomeOk(s, u) && Grows(s.rec, Spawn(s, id, req, relay).rec)
    ensures OutcomeOk(Spawn(s, id, req, relay), u)
  {
    OutcomeStays(s, Spawn(s, id, req, relay), u);
  }

  lemma SpawnServers(s: State, id: Tid, req: Request, relay: bool)
    requires ServersOk(s) && IsFresh(s, id)
    ensures ServersOk(Spawn(s, id, req, relay))
  {
    var s' := Spawn(s, id, req, relay);
    forall v | 0 <= v < |s'.servers| ensures ServerOk(s', v) {
      assert ServerOk(s, v);
      forall n | 0 <= n < |s'.servers[v].rw| ensures LockOk(s', v, n) { assert LockOk(s, v, n); }
    }
  }

  lemma SpawnDisk(s: State, id: Tid, req: Request, relay: bool, init: Disk)
    requires DiskOk(s, init) && IsFresh(s, id)
    ensures DiskOk(Spawn(s, id, req, relay), init)
  {
    var s' := Spawn(s, id, req, relay);
    forall key | forall u :: u in s'.tasks ==> !Dirty(s'.tasks[u], key)
      ensures SameAt(s'.disk, Committed(s', init), key)
    {
      forall u | u in s.tasks ensures !Dirty(s.tasks[u], key) { assert !Dirty(s'.tasks[u], key); }
      assert SameAt(s.disk, Committed(s, init), key);
    }
  }

  lemma SpawnKeepsInv(s: State, id: Tid, req: Request, relay: bool, init: Disk)
    requires Inv(s, init) && IsFresh(s, id) && WellFormed(s, req)
    ensures Inv(Spawn(s, id, req, relay), init)
  {
    var s' := Spawn(s, id, req, relay);
    SpawnRecord(s, id, req, relay, init);
    SpawnTask(s, id, req, relay, init);
    SpawnServers(s, id, req, relay);
    SpawnDisk(s, id, req, relay, init);
    forall u | u in s'.tasks ensures TaskOk(s', u, init) && OutcomeOk(s', u) {
      if u != id { SpawnTasks(s, id, req, relay, init, u); SpawnOutcomes(s, id, req, relay, u); }
    }
  }

  // ---------- passing a request on, and its reply ----------

  ghost predicate TalkMoves(s: State, s': State, t: Tid) {
    && t in s.tasks && (s.tasks[t].phase == Connect || s.tasks[t].phase.Await?)
    && t in s'.tasks && s' == Go(s, t, s'.tasks[t].phase)
    && (s'.tasks[t].phase.Await? || s'.tasks[t].phase.Finished?)
  }

  lemma TalkTask(s: State, s': State, t: Tid, init: Disk)
    requires t in s.tasks && TaskOk(s, t, init) && TalkMoves(s, s', t)
    ensures TaskOk(s', t, init) && SameDirt(s.tasks[t], s'.tasks[t])
  {
    assert Committed(s', init) == Committed(s, init);
  }

  lemma TalkServers(s: State, s': State, t: Tid)
    requires ServersOk(s) && TalkMoves(s, s', t)
    ensures ServersOk(s') && OnlyTask(s, s', t) && TablesGrow(s, s')
  {
    ServersStay(s, s', t);
  }

  lemma TalkKeepsInv(s: State, s': State, t: Tid, init: Disk)
    requires Inv(s, init) && TalkMoves(s, s', t) && OutcomeOk(s', t)
    ensures Inv(s', init)
  {
    TalkTask(s, s', t, init);
    TalkServers(s, s', t);
    AssembleQuiet(s, s', t, init);
  }

  lemma FailedTalk(s: State, s': State, t: Tid, init: Disk, code: Code)
    requires Inv(s, init) && t in s.tasks && (s.tasks[t].phase == Connect || s.tasks[t].phase.Await?)
    requires code != SUCCESS && s' == Go(s, t, Finished(code))
    ensures Inv(s', init)
  {
    assert TaskOk(s, t, init);
    TalkKeepsInv(s, s', t, init);
  }

  lemma ReplyOutcome(s: State, t: Tid, child: Tid, code: Code)
    requires t in s.tasks && s.tasks[t].phase == Await(child) && OutcomeOk(s, t)
    requires child in s.tasks && s.tasks[child].phase == Finished(code)
    requires PhaseFits(s.tasks[t])
    ensures OutcomeOk(Go(s, t, Finished(code)), t)
  {
    assert IsChild(s, t, child);
    assert IsChild(Go(s, t, Finished(code)), t, child);
  }

  /** The reply is the outcome of the request that was passed on. */
  lemma ReplyKeepsInv(s: State, s': State, t: Tid, child: Tid, init: Disk)
    requires Inv(s, init) && t in s.tasks && s.tasks[t].phase == Await(child)
    requires child in s.tasks && s.tasks[child].phase.Finished?
    requires s' == Go(s, t, Finished(s.tasks[child].phase.code))
    ensures Inv(s', init)
  {
    assert TaskOk(s, t, init) && OutcomeOk(s, t);
    ReplyOutcome(s, t, child, s.tasks[child].phase.code);
    TalkKeepsInv(s, s', t, init);
  }

  /** The request goes out before its sender waits for it. */
  lemma SendInTwo(s: State, t: Tid, id: Tid)
    requires t in s.tasks && s.tasks[t].phase == Connect && IsFresh(s, id)
    ensures
      var s1 := Spawn(s, id, Onward(s.tasks[t]), false);
      t in s1.tasks && Spawn(Go(s, t, Await(id)), id, Onward(s.tasks[t]), false) == Go(s1, t, Await(id))
  {
    assert t < id;
    assert s.tasks[t := s.tasks[t].(phase := Await(id))][id := NewTask(Onward(s.tasks[t]), false)]
        == s.tasks[id := NewTask(Onward(s.tasks[t]), false)][t := s.tasks[t].(phase := Await(id))];
  }

  lemma SendIsChild(s: State, t: Tid, id: Tid)
    requires t in s.tasks && s.tasks[t].phase == Connect && IsFresh(s, id) && OutcomeOk(s, t)
    ensures
      var s1 := Spawn(s, id, Onward(s.tasks[t]), false);
      t in s1.tasks && OutcomeOk(Go(s1, t, Await(id)), t)
  {
    var s1 := Spawn(s, id, Onward(s.tasks[t]), false);
    assert IsChild(Go(s1, t, Await(id)), t, id);
  }

  lemma SendKeepsInv(s: State, t: Tid, id: Tid, init: Disk)
    requires Inv(s, init) && t in s.tasks && s.tasks[t].phase == Connect && IsFresh(s, id)
    ensures Inv(Spawn(Go(s, t, Await(id)), id, Onward(s.tasks[t]), false), init)
  {
    var s1 := Spawn(s, id, Onward(s.tasks[t]), false);
    assert TaskOk(s, t, init) && OutcomeOk(s, t);
    SpawnKeepsInv(s, id, Onward(s.tasks[t]), false, init);
    SendInTwo(s, t, id);
    SendIsChild(s, t, id);
    TalkKeepsInv(s1, Go(s1, t, Await(id)), t, init);
  }

  lemma MessageKeepsInv(s: State, s': State, t: Tid, c: Choice, init: Disk)
    requires Inv(s, init) && InBounds(s, t) && (s.tasks[t].phase == Connect || s.tasks[t].phase.Await?)
    requires MessageNext(s, t, c) == Some(s')
    ensures Inv(s', init)
  {
    match s.tasks[t].phase
    case Connect =>
      if !c.ok { FailedTalk(s, s', t, init, SS_UNAVAILABLE); }
      else if !c.sent { FailedTalk(s, s', t, init, NETWORK_ERROR); }
      else { SendKeepsInv(s, t, c.id, init); }
    case Await(child) =>
      if !c.ok { FailedTalk(s, s', t, init, NETWORK_ERROR); } else { ReplyKeepsInv(s, s', t, child, init); }
  }

  // ---------- the end of an operation ----------

  ghost predicate EndMoves(s: State, s': State, t: Tid) {
    && OnlyTask(s, s', t) && s'.disk == s.disk && t in s.rec.calls
    && s.tasks[t].phase == Leave2 && !s.tasks[t].relay
    && var k, v := s.tasks[t], s.tasks[t].req.srv;
       && s'.rec == End(s.rec, t, k.res)
       && s'.tasks[t] == k.(phase := if k.req.copyTo.Some? && k.res.code == SUCCESS then Connect
                                     else Finished(k.res.code))
       && v < |s.servers| && s'.servers == s.servers[v := s.servers[v].(mutex := None)]
  }

  lemma EndStep(s: State, s': State, t: Tid)
    requires AtLock(s, s', t, Leave2)
    ensures EndMoves(s, s', t)
  {
  }

  lemma EndServers(s: State, s': State, t: Tid)
    requires ServersOk(s) && EndMoves(s, s', t)
    ensures ServersOk(s') && TablesGrow(s, s')
  {
    var v := s.tasks[t].req.srv;
    assert ServerOk(s, v);
    MutexKeepsServer(s, s', t, v);
    OtherServersStay(s, s', t, v);
  }

  lemma EndRecord(s: State, s': State, t: Tid, init: Disk)
    requires RecOk(s, init) && EndMoves(s, s', t) && TaskOk(s, t, init)
    ensures RecOk(s', init) && Grows(s.rec, s'.rec)
  {
    EndKeeps(s.rec, t, OpOf(s.tasks[t].req), s.tasks[t].res);
  }

  /** Only a successful read has something to pass on. */
  lemma EndTask(s: State, s': State, t: Tid, init: Disk)
    requires WellRecorded(s.rec) && EndMoves(s, s', t) && TaskOk(s, t, init)
    ensures TaskOk(s', t, init) && OutcomeOk(s', t) && SameDirt(s.tasks[t], s'.tasks[t])
  {
    assert CallOk(s.rec, t);
    EndOutcome(s, s', t);
  }

  lemma EndOutcome(s: State, s': State, t: Tid)
    requires EndMoves(s, s', t) && CallOk(s.rec, t) && RecordOk(s.rec, t, s.tasks[t])
    requires WellFormed(s, s.tasks[t].req)
    ensures OutcomeOk(s', t)
  {
  }

  lemma EndUnseen(s: State, s': State, t: Tid, init: Disk)
    requires EndMoves(s, s', t)
    ensures Unseen(s, s', t, init)
  {
    assert Committed(s', init) == Committed(s, init);
  }

  lemma EndOthers(s: State, s': State, t: Tid, init: Disk)
    requires TasksOk(s, init) && OutcomesOk(s) && EndMoves(s, s', t) && Grows(s.rec, s'.rec) && TablesGrow(s, s')
    requires TaskOk(s', t, init) && OutcomeOk(s', t)
    ensures TasksOk(s', init) && OutcomesOk(s')
  {
    EndUnseen(s, s', t, init);
    OthersStay(s, s', t, init);
  }

  lemma EndDisk(s: State, s': State, t: Tid, init: Disk)
    requires DiskOk(s, init) && EndMoves(s, s', t) && SameDirt(s.tasks[t], s'.tasks[t])
    ensures DiskOk(s', init)
  {
    DiskStays(s, s', t, init);
  }

  lemma EndKeepsInv(s: State, s': State, t: Tid, init: Disk)
    requires Inv(s, init) && EndMoves(s, s', t)
    ensures Inv(s', init)
  {
    assert TaskOk(s, t, init);
    EndServers(s, s', t);
    EndRecord(s, s', t, init);
    EndTask(s, s', t, init);
    EndOthers(s, s', t, init);
    EndDisk(s, s', t, init);
  }

  // ---------- every step ----------

  lemma LockKeepsInv(s: State, s': State, t: Tid, init: Disk)
    requires Inv(s, init) && t in s.tasks && AtLock(s, s', t, s.tasks[t].phase)
    requires s.tasks[t].phase in {Enter, Look, Leave, Wait, Enter2, Unlock, Leave2}
    ensures Inv(s', init)
  {
    var phase := s.tasks[t].phase;
    if phase == Look { LookStep(s, s', t); LookKeepsInv(s, s', t, init); }
    else if phase == Wait { WaitStep(s, s', t); RwKeepsInv(s, s', t, init); }
    else if phase == Unlock { UnlockMoves(s, s', t, init); RwKeepsInv(s, s', t, init); }
    else if phase == Leave2 { EndStep(s, s', t); EndKeepsInv(s, s', t, init); }
    else { MutexStep(s, s', t, phase); MutexKeepsInv(s, s', t, init); }
  }

  lemma UnlockMoves(s: State, s': State, t: Tid, init: Disk)
    requires ServersOk(s) && TasksOk(s, init) && AtLock(s, s', t, Unlock)
    ensures RwMoves(s, s', t)
  {
    assert TaskOk(s, t, init) && ServerOk(s, s.tasks[t].req.srv);
    UnlockStep(s, s', t, init);
  }

  lemma BodyKeepsInv(s: State, s': State, t: Tid, c: Choice, init: Disk)
    requires Inv(s, init) && Steps(s, s', t, c) && Inside(s.tasks[t]) && BeforeEffect(s.tasks[t])
    ensures Inv(s', init)
  {
    EntersBody(s, t, init);
    BodyFits(s, s', t, c, Committed(s, init));
    FitsKeepsInv(s, s', t, init);
  }

  lemma BodyFits(s: State, s': State, t: Tid, c: Choice, committed: Disk)
    requires Steps(s, s', t, c) && AtBody(s, t, committed)
    ensures Fits(s, s', t, committed)
  {
    match s.tasks[t].phase
    case Begun => OpenFits(s, t, c.ok, committed);
    case Reading => ReadingFits(s, t, c.ok, committed);
    case Writing => WritingFits(s, t, c.ok, committed);
    case _ => LastFits(s, t, c.ok, committed);
  }

  /** A step is one of the lock operations, one inside an operation, or a message. */
  lemma StepKinds(s: State, s': State, t: Tid, c: Choice)
    requires Steps(s, s', t, c) && PhaseFits(s.tasks[t])
    ensures
      var k := s.tasks[t];
      if k.phase == Connect || k.phase.Await? then MessageNext(s, t, c) == Some(s')
      else (Inside(k) && BeforeEffect(k))
           || (k.phase in {Enter, Look, Leave, Wait, Enter2, Unlock, Leave2} && AtLock(s, s', t, k.phase))
  {
  }

  lemma StepKeepsInv(s: State, s': State, t: Tid, c: Choice, init: Disk)
    requires Inv(s, init) && Steps(s, s', t, c)
    ensures Inv(s', init)
  {
    assert TaskOk(s, t, init);
    StepKinds(s, s', t, c);
    var k := s.tasks[t];
    if k.phase == Connect || k.phase.Await? { MessageKeepsInv(s, s', t, c, init); }
    else if Inside(k) && BeforeEffect(k) { BodyKeepsInv(s, s', t, c, init); }
    else { LockKeepsInv(s, s', t, init); }
  }

  lemma TransitionKeepsInv(s: State, s': State, init: Disk)
    requires Inv(s, init) && Transition(s, s')
    ensures Inv(s', init)
  {
    if Progresses(s, s') {
      var t, c :| Steps(s, s', t, c);
      StepKeepsInv(s, s', t, c, init);
    } else {
      var id, req, relay :| Submits(s, s', id, req, relay);
      SpawnKeepsInv(s, id, req, relay, init);
    }
  }
}
