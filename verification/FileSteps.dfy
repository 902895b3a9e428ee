/** Every step of the storage servers keeps the invariant. */
module FileSteps {
  import opened Paths
  import opened Protocol
  import opened RwLocks
  import opened Linearizability
  import opened FileStore
  import opened FileInvariant
  import LockSpec

  // ---------- what a step leaves alone ----------

  predicate OnlyTask(s: State, s': State, t: Tid) {
    && t in s.tasks && t in s'.tasks && s'.tasks == s.tasks[t := s'.tasks[t]]
    && s'.tasks[t].req == s.tasks[t].req && s'.tasks[t].relay == s.tasks[t].relay
    && !s.tasks[t].phase.Finished?
  }

  /** Requests keep their content, and finished ones stay as they are. */
  predicate RequestsStay(s: State, s': State) {
    forall u :: u in s.tasks ==>
      && u in s'.tasks && s'.tasks[u].req == s.tasks[u].req && s'.tasks[u].relay == s.tasks[u].relay
      && (s.tasks[u].phase.Finished? ==> s'.tasks[u] == s.tasks[u])
  }

  ghost predicate Grows(r: Recorder<Op, Res>, r': Recorder<Op, Res>) {
    && r.lin <= r'.lin
    && forall c :: c in r.calls ==>
         && c in r'.calls && r'.calls[c].op == r.calls[c].op && r'.calls[c].start == r.calls[c].start
         && (r.calls[c].point.Some? ==> r'.calls[c].point == r.calls[c].point)
  }

  lemma SawStays(r: Recorder<Op, Res>, r': Recorder<Op, Res>, t: Tid, o: Op, code: Code)
    requires Grows(r, r') && Saw(r, t, o, code)
    ensures Saw(r', t, o, code) && r'.lin[r'.calls[t].point.value] == r.lin[r.calls[t].point.value]
  {
  }

  lemma ChildStays(s: State, s': State, t: Tid, child: Tid)
    requires Grows(s.rec, s'.rec) && RequestsStay(s, s') && IsChild(s, t, child) && s'.tasks[t].buf == s.tasks[t].buf
    ensures IsChild(s', t, child)
  {
    if !s.tasks[t].relay { SawStays(s.rec, s'.rec, t, OpOf(s.tasks[t].req), SUCCESS); }
  }

  lemma OutcomeStays(s: State, s': State, u: Tid)
    requires Grows(s.rec, s'.rec) && RequestsStay(s, s') && u in s.tasks && OutcomeOk(s, u)
    requires s'.tasks[u] == s.tasks[u]
    ensures OutcomeOk(s', u)
  {
    var k := s.tasks[u];
    match k.phase
    case Connect => if !k.relay { SawStays(s.rec, s'.rec, u, OpOf(k.req), SUCCESS); }
    case Await(child) => ChildStays(s, s', u, child);
    case Finished(code) =>
      if k.relay || k.req.copyTo.Some? {
        if code == SUCCESS {
          var child :| IsChild(s, u, child) && s.tasks[child].phase == Finished(SUCCESS);
          ChildStays(s, s', u, child);
        }
      } else {
        SawStays(s.rec, s'.rec, u, OpOf(k.req), code);
      }
    case _ =>
  }

  /** The data a task depends on is the same. */
  ghost predicate SameView(s: State, s': State, u: Tid, init: Disk)
    requires u in s.tasks
  {
    var k := s.tasks[u];
    && |s'.servers| == |s.servers| && WellFormed(s, k.req)
    && s.servers[k.req.srv].table.paths <= s'.servers[k.req.srv].table.paths
    && (Inside(k) ==>
          SameAt(s.disk, s'.disk, Key(k)) && SameAt(Committed(s, init), Committed(s', init), Key(k)))
  }

  ghost predicate SameRecord(r: Recorder<Op, Res>, r': Recorder<Op, Res>, u: Tid) {
    u in r.calls ==> u in r'.calls && r'.calls[u] == r.calls[u] && r.lin <= r'.lin
  }

  lemma TaskStays(s: State, s': State, u: Tid, init: Disk)
    requires u in s.tasks && TaskOk(s, u, init) && u in s'.tasks && s'.tasks[u] == s.tasks[u]
    requires SameView(s, s', u, init) && SameRecord(s.rec, s'.rec, u)
    ensures TaskOk(s', u, init)
  {
  }

  // ---------- putting a step together ----------

  predicate TablesGrow(s: State, s': State) {
    && |s'.servers| == |s.servers|
    && forall v :: 0 <= v < |s.servers| ==> s.servers[v].table.paths <= s'.servers[v].table.paths
  }

  predicate SameDirt(a: Task, b: Task) {
    (Dirty(a, Key(a)) <==> Dirty(b, Key(a))) && Key(a) == Key(b)
  }

  /** A step of `t` that leaves disk and effects alone. */
  lemma DiskStays(s: State, s': State, t: Tid, init: Disk)
    requires DiskOk(s, init) && OnlyTask(s, s', t) && s'.disk == s.disk && s'.rec.lin == s.rec.lin
    requires SameDirt(s.tasks[t], s'.tasks[t])
    ensures DiskOk(s', init)
  {
    forall key | forall u :: u in s'.tasks ==> !Dirty(s'.tasks[u], key)
      ensures SameAt(s'.disk, Committed(s', init), key)
    {
      forall u | u in s.tasks ensures !Dirty(s.tasks[u], key) {
        assert !Dirty(s'.tasks[u], key);
        assert u == t && key == Key(s.tasks[t]) ==> !Dirty(s'.tasks[t], Key(s'.tasks[t]));
      }
      assert SameAt(s.disk, Committed(s, init), key);
    }
  }

  /** The other tasks do not see what `t` did. */
  ghost predicate Unseen(s: State, s': State, t: Tid, init: Disk) {
    && (forall u :: u in s.tasks && u != t ==> SameRecord(s.rec, s'.rec, u))
    && (forall u :: u in s.tasks && u != t && Inside(s.tasks[u]) ==>
          && SameAt(s.disk, s'.disk, Key(s.tasks[u]))
          && SameAt(Committed(s, init), Committed(s', init), Key(s.tasks[u])))
  }

  lemma QuietUnseen(s: State, s': State, t: Tid, init: Disk)
    requires s'.disk == s.disk && s'.rec == s.rec
    ensures Unseen(s, s', t, init) && Grows(s.rec, s'.rec)
  {
    assert Committed(s', init) == Committed(s, init);
  }

  lemma AssembleQuiet(s: State, s': State, t: Tid, init: Disk)
    requires Inv(s, init) && OnlyTask(s, s', t) && s'.disk == s.disk && s'.rec == s.rec
    requires TablesGrow(s, s') && ServersOk(s') && TaskOk(s', t, init) && OutcomeOk(s', t)
    requires SameDirt(s.tasks[t], s'.tasks[t])
    ensures Inv(s', init)
  {
    QuietUnseen(s, s', t, init);
    OthersStay(s, s', t, init);
    DiskStays(s, s', t, init);
  }

  lemma OthersStay(s: State, s': State, t: Tid, init: Disk)
    requires TasksOk(s, init) && OutcomesOk(s) && OnlyTask(s, s', t) && Grows(s.rec, s'.rec)
    requires TablesGrow(s, s')
    requires Unseen(s, s', t, init)
    requires TaskOk(s', t, init) && OutcomeOk(s', t)
    ensures TasksOk(s', init) && OutcomesOk(s')
  {
    forall u | u in s'.tasks && u != t ensures TaskOk(s', u, init) && OutcomeOk(s', u) {
      assert TaskOk(s, u, init);
      TaskStays(s, s', u, init);
      OutcomeStays(s, s', u);
    }
  }

  // ---------- servers ----------

  predicate SameHoldings(a: Task, b: Task) {
    && (Inside(a) <==> Inside(b)) && a.node == b.node && a.req == b.req
    && (HasMutex(a, a.req.srv) <==> HasMutex(b, b.req.srv)) && a.relay == b.relay
  }

  /** Steps inside an operation, and messages. */
  lemma ServersStay(s: State, s': State, t: Tid)
    requires ServersOk(s) && OnlyTask(s, s', t) && s'.servers == s.servers && SameHoldings(s.tasks[t], s'.tasks[t])
    ensures ServersOk(s')
  {
    forall v | 0 <= v < |s'.servers| ensures ServerOk(s', v) {
      assert ServerOk(s, v);
      forall n | 0 <= n < |s'.servers[v].rw| ensures LockOk(s', v, n) { assert LockOk(s, v, n); }
    }
  }

  /** A step of `t` at its own server is no concern of the others. */
  lemma OtherServersStay(s: State, s': State, t: Tid, v: Srv)
    requires ServersOk(s) && OnlyTask(s, s', t) && v < |s.servers| && v == s.tasks[t].req.srv
    requires |s'.servers| == |s.servers| && s'.servers == s.servers[v := s'.servers[v]] && ServerOk(s', v)
    ensures ServersOk(s')
  {
    forall w | 0 <= w < |s'.servers| ensures ServerOk(s', w) {
      assert ServerOk(s, w);
      if w != v {
        forall n | 0 <= n < |s'.servers[w].rw| ensures LockOk(s', w, n) { assert LockOk(s, w, n); }
      }
    }
  }

  lemma MutexKeepsServer(s: State, s': State, t: Tid, v: Srv)
    requires v < |s.servers| && v < |s'.servers| && ServerOk(s, v) && OnlyTask(s, s', t) && v == s.tasks[t].req.srv
    requires s'.servers[v] == s.servers[v].(mutex := s'.servers[v].mutex)
    requires s.servers[v].mutex == None || s.servers[v].mutex == Some(t)
    requires s'.servers[v].mutex == if HasMutex(s'.tasks[t], v) then Some(t) else None
    requires Inside(s.tasks[t]) == Inside(s'.tasks[t]) && s.tasks[t].node == s'.tasks[t].node
    ensures ServerOk(s', v)
  {
    forall n | 0 <= n < |s'.servers[v].rw| ensures LockOk(s', v, n) { assert LockOk(s, v, n); }
  }

  lemma RwKeepsServer(s: State, s': State, t: Tid, v: Srv, n: nat)
    requires v < |s.servers| && v < |s'.servers| && ServerOk(s, v) && OnlyTask(s, s', t) && v == s.tasks[t].req.srv
    requires n < |s.servers[v].rw| && |s'.servers[v].rw| == |s.servers[v].rw|
    requires s'.servers[v] == s.servers[v].(rw := s.servers[v].rw[n := s'.servers[v].rw[n]])
    requires HasMutex(s'.tasks[t], v) == HasMutex(s.tasks[t], v)
    requires s'.tasks[t].node == s.tasks[t].node == n && LockOk(s', v, n)
    ensures ServerOk(s', v)
  {
    forall m | 0 <= m < |s'.servers[v].rw| ensures LockOk(s', v, m) { assert LockOk(s, v, m); }
  }

  // ---------- acquiring and releasing ----------

  /** The lock phases change nothing of a task but its phase and its node. */
  lemma LockPhaseTask(s: State, s': State, t: Tid, init: Disk)
    requires t in s.tasks && TaskOk(s, t, init) && OnlyTask(s, s', t) && s'.disk == s.disk && s'.rec == s.rec
    requires TablesGrow(s, s')
    requires
      var k, k' := s.tasks[t], s'.tasks[t];
      && k' == k.(phase := k'.phase, node := k'.node) && !k.relay
      && (BeforeEffect(k) <==> BeforeEffect(k')) && (AfterEffect(k) <==> AfterEffect(k'))
      && !k'.phase.Await? && !(k'.phase in {Reading, Writing, Closing, Removing, Connect})
      && (Inside(k') && !Inside(k) ==> k'.phase == Begun && BeforeEffect(k))
      && (Inside(k) && !Inside(k') ==> AfterEffect(k'))
      && (KnowsNode(k') ==>
            (KnowsNode(k) && k'.node == k.node)
            || (&& k'.node < |s'.servers[k.req.srv].table.paths|
                && s'.servers[k.req.srv].table.paths[k'.node] == k.req.path))
      && (Inside(k) && Inside(k') ==> AfterEffect(k'))
    ensures TaskOk(s', t, init)
  {
    assert Committed(s', init) == Committed(s, init);
  }

  ghost predicate AtLock(s: State, s': State, t: Tid, phase: Phase) {
    InBounds(s, t) && !s.tasks[t].relay && s.tasks[t].phase == phase && LockNext(s, t) == Some(s')
  }

  /** What taking or dropping the table's mutex changes. */
  ghost predicate MutexMoves(s: State, s': State, t: Tid) {
    && OnlyTask(s, s', t) && s'.disk == s.disk && s'.rec == s.rec && TablesGrow(s, s') && !s.tasks[t].relay
    && var v, k, phase := s.tasks[t].req.srv, s.tasks[t], s.tasks[t].phase;
       && v < |s.servers| && s'.servers == s.servers[v := s'.servers[v]]
       && (phase == Enter || phase == Leave || phase == Enter2)
       && s'.tasks[t] == k.(phase := if phase == Enter then Look else if phase == Leave then Wait else Unlock)
       && s'.servers[v] == s.servers[v].(mutex := if phase == Leave then None else Some(t))
       && (phase == Leave || s.servers[v].mutex == None)
  }

  lemma MutexStep(s: State, s': State, t: Tid, phase: Phase)
    requires AtLock(s, s', t, phase) && (phase == Enter || phase == Leave || phase == Enter2)
    ensures MutexMoves(s, s', t)
  {
  }

  lemma MutexServers(s: State, s': State, t: Tid)
    requires ServersOk(s) && MutexMoves(s, s', t)
    ensures ServersOk(s')
  {
    var v := s.tasks[t].req.srv;
    assert ServerOk(s, v);
    MutexKeepsServer(s, s', t, v);
    OtherServersStay(s, s', t, v);
  }

  lemma MutexTask(s: State, s': State, t: Tid, init: Disk)
    requires t in s.tasks && TaskOk(s, t, init) && MutexMoves(s, s', t)
    ensures TaskOk(s', t, init) && OutcomeOk(s', t) && SameDirt(s.tasks[t], s'.tasks[t])
  {
    LockPhaseTask(s, s', t, init);
  }

  lemma MutexKeepsInv(s: State, s': State, t: Tid, init: Disk)
    requires Inv(s, init) && MutexMoves(s, s', t)
    ensures Inv(s', init)
  {
    MutexServers(s, s', t);
    MutexTask(s, s', t, init);
    AssembleQuiet(s, s', t, init);
  }

  // looking the lock up

  ghost predicate LookMoves(s: State, s': State, t: Tid) {
    && OnlyTask(s, s', t) && s'.disk == s.disk && s'.rec == s.rec && |s'.servers| == |s.servers|
    && !s.tasks[t].relay && s.tasks[t].phase == Look
    && var v, k := s.tasks[t].req.srv, s.tasks[t];
       && v < |s.servers| && s'.servers == s.servers[v := s'.servers[v]]
       && LockSpec.InRange(s.servers[v].table)
       && var (table, n) := LockSpec.GetOrCreate(s.servers[v].table, k.req.path);
          && s'.tasks[t] == k.(phase := Leave, node := n)
          && s'.servers[v].table == table && s'.servers[v].mutex == s.servers[v].mutex
          && s'.servers[v].rw == if n < |s.servers[v].rw| then s.servers[v].rw else s.servers[v].rw + [UNHELD]
  }

  lemma LookStep(s: State, s': State, t: Tid)
    requires AtLock(s, s', t, Look)
    ensures LookMoves(s, s', t)
  {
  }

  lemma LookServers(s: State, s': State, t: Tid, init: Disk)
    requires ServersOk(s) && TasksOk(s, init) && LookMoves(s, s', t)
    ensures ServersOk(s') && TablesGrow(s, s')
  {
    var v := s.tasks[t].req.srv;
    assert ServerOk(s, v);
    LockSpec.GetOrCreateKeepsInv(s.servers[v].table, s.tasks[t].req.path);
    NobodyKnowsNewLocks(s, init, v, |s.servers[v].rw|);
    LookServer(s, s', t);
    OtherServersStay(s, s', t, v);
  }

  lemma NobodyKnowsNewLocks(s: State, init: Disk, v: Srv, n: nat)
    requires TasksOk(s, init) && v < |s.servers| && n >= |s.servers[v].table.paths|
    ensures forall u :: u in s.tasks ==> !Writer(s.tasks[u], v, n) && !Reader(s.tasks[u], v, n)
  {
    forall u | u in s.tasks ensures !Writer(s.tasks[u], v, n) && !Reader(s.tasks[u], v, n) {
      assert TaskOk(s, u, init);
    }
  }

  lemma LookServer(s: State, s': State, t: Tid)
    requires LookMoves(s, s', t) && ServerOk(s, s.tasks[t].req.srv)
    requires LockSpec.Inv(s'.servers[s.tasks[t].req.srv].table)
    requires
      var v, n := s.tasks[t].req.srv, |s.servers[s.tasks[t].req.srv].rw|;
      forall u :: u in s.tasks ==> !Writer(s.tasks[u], v, n) && !Reader(s.tasks[u], v, n)
    ensures ServerOk(s', s.tasks[t].req.srv)
  {
    var v := s.tasks[t].req.srv;
    forall m | 0 <= m < |s'.servers[v].rw| ensures LockOk(s', v, m) {
      if m < |s.servers[v].rw| { assert LockOk(s, v, m); }
    }
  }

  lemma LookTask(s: State, s': State, t: Tid, init: Disk)
    requires t in s.tasks && TaskOk(s, t, init) && LookMoves(s, s', t) && TablesGrow(s, s')
    requires LockSpec.Inv(s.servers[s.tasks[t].req.srv].table)
    ensures TaskOk(s', t, init) && OutcomeOk(s', t) && SameDirt(s.tasks[t], s'.tasks[t])
  {
    LockSpec.GetOrCreateKeepsInv(s.servers[s.tasks[t].req.srv].table, s.tasks[t].req.path);
    LockPhaseTask(s, s', t, init);
  }

  lemma LookKeepsInv(s: State, s': State, t: Tid, init: Disk)
    requires Inv(s, init) && LookMoves(s, s', t)
    ensures Inv(s', init)
  {
    assert ServerOk(s, s.tasks[t].req.srv);
    LookServers(s, s', t, init);
    LookTask(s, s', t, init);
    AssembleQuiet(s, s', t, init);
  }

  // acquiring and releasing the lock

  ghost predicate RwMoves(s: State, s': State, t: Tid) {
    && OnlyTask(s, s', t) && s'.disk == s.disk && s'.rec == s.rec && TablesGrow(s, s') && !s.tasks[t].relay
    && var v, k, phase := s.tasks[t].req.srv, s.tasks[t], s.tasks[t].phase;
       && v < |s.servers| && s'.servers == s.servers[v := s'.servers[v]] && k.node < |s.servers[v].rw|
       && (phase == Wait || phase == Unlock)
       && s'.tasks[t] == k.(phase := if phase == Wait then Begun else Leave2)
       && var l := s.servers[v].rw[k.node];
          && (phase == Wait ==> Grants(l, Exclusive(k.req.op)))
          && s'.servers[v] == s.servers[v].(rw := s.servers[v].rw[k.node :=
               if phase == Wait then Acquire(l, t, Exclusive(k.req.op)) else Release(l, t)])
  }

  lemma WaitStep(s: State, s': State, t: Tid)
    requires AtLock(s, s', t, Wait)
    ensures RwMoves(s, s', t)
  {
  }

  /** The scan at release time finds the lock that was acquired. */
  lemma ReleasesTheSameLock(s: State, t: Tid, init: Disk)
    requires t in s.tasks && TaskOk(s, t, init) && Inside(s.tasks[t])
    requires LockSpec.Inv(s.servers[s.tasks[t].req.srv].table)
    ensures LockSpec.Find(s.servers[s.tasks[t].req.srv].table, s.tasks[t].req.path) == Some(s.tasks[t].node)
  {
    var k := s.tasks[t];
    var table := s.servers[k.req.srv].table;
    LockSpec.SameLockLater(table, table, k.req.path, k.node);
  }

  lemma UnlockStep(s: State, s': State, t: Tid, init: Disk)
    requires AtLock(s, s', t, Unlock) && TaskOk(s, t, init)
    requires LockSpec.Inv(s.servers[s.tasks[t].req.srv].table)
    ensures RwMoves(s, s', t)
  {
    ReleasesTheSameLock(s, t, init);
  }

  lemma RwServer(s: State, s': State, t: Tid)
    requires RwMoves(s, s', t) && LockOk(s, s.tasks[t].req.srv, s.tasks[t].node)
    ensures LockOk(s', s.tasks[t].req.srv, s.tasks[t].node)
  {
  }

  lemma RwServers(s: State, s': State, t: Tid)
    requires ServersOk(s) && RwMoves(s, s', t)
    ensures ServersOk(s')
  {
    var v := s.tasks[t].req.srv;
    assert ServerOk(s, v);
    RwServer(s, s', t);
    RwKeepsServer(s, s', t, v, s.tasks[t].node);
    OtherServersStay(s, s', t, v);
  }

  lemma RwTask(s: State, s': State, t: Tid, init: Disk)
    requires t in s.tasks && TaskOk(s, t, init) && RwMoves(s, s', t)
    ensures TaskOk(s', t, init) && OutcomeOk(s', t) && SameDirt(s.tasks[t], s'.tasks[t])
  {
    LockPhaseTask(s, s', t, init);
  }

  lemma RwKeepsInv(s: State, s': State, t: Tid, init: Disk)
    requires Inv(s, init) && RwMoves(s, s', t)
    ensures Inv(s', init)
  {
    RwServers(s, s', t);
    RwTask(s, s', t, init);
    AssembleQuiet(s, s', t, init);
  }
}
