/** What holds in every run of the storage servers: atomic files, no deadlock, termination, and what COPY means. */
module FileTheorems {
  import opened Paths
  import opened Protocol
  import opened RwLocks
  import opened Linearizability
  import opened FileStore
  import opened FileInvariant
  import opened FileSteps
  import opened FileEffects
  import opened FileMessages
  import opened Sums
  import LockSpec

  lemma {:induction false} RunKeepsInv(run: seq<State>, init: Disk, n: nat, k: nat)
    requires IsRun(run, init, n) && k < |run|
    ensures Inv(run[k], init)
  {
    if k == 0 {
      InitialInv(init, n);
    } else {
      RunKeepsInv(run, init, n, k - 1);
      assert Follows(run, k - 1);
      TransitionKeepsInv(run[k - 1], run[k], init);
    }
  }

  // ---------- atomicity ----------

  /** In every run the requests look as if each had been served at one moment between its arrival and its reply. */
  lemma FilesAreLinearizable(run: seq<State>, init: Disk, n: nat, k: nat)
    requires IsRun(run, init, n) && k < |run|
    ensures IsLinearization(Files(init), run[k].rec.history, run[k].rec.lin)
  {
    RunKeepsInv(run, init, n, k);
    RecordedIsLinearized(Files(init), run[k].rec);
  }

  /** No writer together with another holder, on any file, ever. */
  lemma MutualExclusion(run: seq<State>, init: Disk, n: nat, k: nat, t: Tid, u: Tid)
    requires IsRun(run, init, n) && k < |run| && t in run[k].tasks && u in run[k].tasks && t != u
    requires Inside(run[k].tasks[t]) && Inside(run[k].tasks[u]) && Key(run[k].tasks[t]) == Key(run[k].tasks[u])
    ensures !Exclusive(run[k].tasks[t].req.op) && !Exclusive(run[k].tasks[u].req.op)
  {
    RunKeepsInv(run, init, n, k);
    if Exclusive(run[k].tasks[t].req.op) { Excludes(run[k], init, t, u); }
    else if Exclusive(run[k].tasks[u].req.op) { Excludes(run[k], init, u, t); }
  }

  /** While a request reads or enquires, its file is as the operations that took effect left it and never in the middle
      of one, although other requests write byte by byte; a write that failed half-way took effect with what it
      wrote. */
  lemma ReadersSeeCompleteWrites(run: seq<State>, init: Disk, n: nat, k: nat, t: Tid)
    requires IsRun(run, init, n) && k < |run| && t in run[k].tasks
    requires Inside(run[k].tasks[t]) && !Exclusive(run[k].tasks[t].req.op)
    ensures SameAt(run[k].disk, Committed(run[k], init), Key(run[k].tasks[t]))
  {
    RunKeepsInv(run, init, n, k);
    assert TaskOk(run[k], t, init);
    CleanInside(run[k], init, t);
  }

  /** Nor does a file change once nobody is inside an operation on it: what was written stays. */
  lemma IdleFilesAreCommitted(run: seq<State>, init: Disk, n: nat, k: nat, key: (Srv, Path))
    requires IsRun(run, init, n) && k < |run|
    requires forall t :: t in run[k].tasks && Key(run[k].tasks[t]) == key ==> !Inside(run[k].tasks[t])
    ensures SameAt(run[k].disk, Committed(run[k], init), key)
  {
    RunKeepsInv(run, init, n, k);
  }

  // ---------- progress ----------

  predicate Unfinished(s: State, t: Tid) {
    t in s.tasks && !s.tasks[t].phase.Finished?
  }

  predicate WaitsFor(k: Task, v: Srv, n: nat) {
    !k.relay && k.phase == Wait && k.req.srv == v && k.node == n
  }

  /** Reader-writer locks may hold readers back while a writer waits. */
  ghost predicate WritersFirst(s: State, t: Tid) {
    t in s.tasks && s.tasks[t].phase == Wait && !Exclusive(s.tasks[t].req.op) ==>
      forall u :: u in s.tasks && WaitsFor(s.tasks[u], s.tasks[t].req.srv, s.tasks[t].node) ==>
        !Exclusive(s.tasks[u].req.op)
  }

  /** `t` has a step, even if nothing fails and waiting writers go before readers. */
  ghost predicate CanStep(s: State, t: Tid) {
    WritersFirst(s, t) && exists s', id :: Steps(s, s', t, AllWell(id))
  }

  lemma AllInBounds(s: State, init: Disk, t: Tid)
    requires Inv(s, init) && t in s.tasks
    ensures InBounds(s, t)
  {
    assert TaskOk(s, t, init) && ServerOk(s, s.tasks[t].req.srv);
  }

  lemma StepsIf(s: State, t: Tid, id: Tid)
    requires InBounds(s, t) && Next(s, t, AllWell(id)).Some? && WritersFirst(s, t)
    ensures CanStep(s, t)
  {
    assert Steps(s, Next(s, t, AllWell(id)).value, t, AllWell(id));
  }

  /** Nobody ever waits while holding the table's mutex. */
  lemma MutexHolderSteps(s: State, init: Disk, t: Tid)
    requires Inv(s, init) && t in s.tasks && HasMutex(s.tasks[t], s.tasks[t].req.srv)
    ensures CanStep(s, t)
  {
    AllInBounds(s, init, t);
    MutexHolderGoesOn(s, t);
    StepsIf(s, t, 0);
  }

  lemma MutexHolderGoesOn(s: State, t: Tid)
    requires InBounds(s, t) && HasMutex(s.tasks[t], s.tasks[t].req.srv)
    ensures Next(s, t, AllWell(0)).Some?
  {
  }

  lemma BodySteps(s: State, init: Disk, t: Tid)
    requires Inv(s, init) && t in s.tasks && Inside(s.tasks[t]) && BeforeEffect(s.tasks[t])
    ensures CanStep(s, t)
  {
    AllInBounds(s, init, t);
    EntersBody(s, t, init);
    BodyGoesOn(s, t, Committed(s, init));
    StepsIf(s, t, 0);
  }

  lemma BodyGoesOn(s: State, t: Tid, committed: Disk)
    requires AtBody(s, t, committed)
    ensures Next(s, t, AllWell(0)).Some?
  {
    match s.tasks[t].phase
    case Begun =>
    case Reading => ReadingFits(s, t, true, committed);
    case Writing => WritingFits(s, t, true, committed);
    case _ => LastFits(s, t, true, committed);
  }

  predicate AtMutex(k: Task) {
    !k.relay && (k.phase == Enter || k.phase == Enter2)
  }

  lemma FreeMutexGoesOn(s: State, t: Tid)
    requires InBounds(s, t) && AtMutex(s.tasks[t]) && s.servers[s.tasks[t].req.srv].mutex == None
    ensures Next(s, t, AllWell(0)).Some?
  {
  }

  lemma MutexHolder(s: State, v: Srv, u: Tid)
    requires v < |s.servers| && ServerOk(s, v) && s.servers[v].mutex == Some(u)
    ensures u in s.tasks && HasMutex(s.tasks[u], s.tasks[u].req.srv)
  {
  }

  lemma MutexWaiterSteps(s: State, init: Disk, t: Tid) returns (u: Tid)
    requires Inv(s, init) && t in s.tasks && AtMutex(s.tasks[t])
    ensures CanStep(s, u)
  {
    AllInBounds(s, init, t);
    var v := s.tasks[t].req.srv;
    if s.servers[v].mutex == None {
      u := t;
      FreeMutexGoesOn(s, t);
      StepsIf(s, u, 0);
    } else {
      u := s.servers[v].mutex.value;
      MutexHolder(s, v, u);
      MutexHolderSteps(s, init, u);
    }
  }

  /** Whoever is inside an operation can go on, or waits for somebody who can. */
  lemma InsideSteps(s: State, init: Disk, t: Tid) returns (u: Tid)
    requires Inv(s, init) && t in s.tasks && Inside(s.tasks[t])
    ensures CanStep(s, u)
  {
    u := t;
    if s.tasks[t].phase == Enter2 { u := MutexWaiterSteps(s, init, t); }
    else if s.tasks[t].phase == Unlock { MutexHolderSteps(s, init, t); }
    else { BodySteps(s, init, t); }
  }

  lemma GrantedSteps(s: State, init: Disk, t: Tid)
    requires Inv(s, init) && t in s.tasks && WaitsFor(s.tasks[t], s.tasks[t].req.srv, s.tasks[t].node)
    requires s.tasks[t].req.srv < |s.servers| && s.tasks[t].node < |s.servers[s.tasks[t].req.srv].rw|
    requires s.servers[s.tasks[t].req.srv].rw[s.tasks[t].node] == UNHELD && WritersFirst(s, t)
    ensures CanStep(s, t)
  {
    AllInBounds(s, init, t);
    GrantGoesOn(s, t);
    StepsIf(s, t, 0);
  }

  lemma GrantGoesOn(s: State, t: Tid)
    requires InBounds(s, t) && !s.tasks[t].relay && s.tasks[t].phase == Wait
    requires s.servers[s.tasks[t].req.srv].rw[s.tasks[t].node] == UNHELD
    ensures Next(s, t, AllWell(0)).Some?
  {
  }

  /** A lock that is waited for is held by somebody who can go on, or can be granted. */
  lemma LockWaiterSteps(s: State, init: Disk, t: Tid) returns (u: Tid)
    requires Inv(s, init) && t in s.tasks && WaitsFor(s.tasks[t], s.tasks[t].req.srv, s.tasks[t].node)
    ensures CanStep(s, u)
  {
    var v, n := s.tasks[t].req.srv, s.tasks[t].node;
    LockExists(s, init, t);
    if s.servers[v].rw[n] == UNHELD {
      u := FirstInLine(s, t);
      GrantedSteps(s, init, u);
    } else {
      u := Holder(s, v, n);
      u := InsideSteps(s, init, u);
    }
  }

  lemma LockExists(s: State, init: Disk, t: Tid)
    requires ServersOk(s) && t in s.tasks && TaskOk(s, t, init) && KnowsNode(s.tasks[t])
    ensures s.tasks[t].req.srv < |s.servers| && s.tasks[t].node < |s.servers[s.tasks[t].req.srv].rw|
    ensures LockOk(s, s.tasks[t].req.srv, s.tasks[t].node)
  {
    assert ServerOk(s, s.tasks[t].req.srv);
  }

  lemma Holder(s: State, v: Srv, n: nat) returns (u: Tid)
    requires v < |s.servers| && n < |s.servers[v].rw| && LockOk(s, v, n) && s.servers[v].rw[n] != UNHELD
    ensures u in s.tasks && Inside(s.tasks[u])
  {
    var l := s.servers[v].rw[n];
    if l.writer.Some? { u := l.writer.value; } else { u :| u in l.readers; }
  }

  lemma FirstInLine(s: State, t: Tid) returns (u: Tid)
    requires t in s.tasks && WaitsFor(s.tasks[t], s.tasks[t].req.srv, s.tasks[t].node)
    ensures u in s.tasks && WaitsFor(s.tasks[u], s.tasks[t].req.srv, s.tasks[t].node) && WritersFirst(s, u)
  {
    var v, n := s.tasks[t].req.srv, s.tasks[t].node;
    u := t;
    if w :| w in s.tasks && WaitsFor(s.tasks[w], v, n) && Exclusive(s.tasks[w].req.op) { u := w; }
  }

  lemma Youngest(s: State, t: Tid) returns (u: Tid)
    requires Unfinished(s, t)
    ensures Unfinished(s, u) && forall w: Tid :: Unfinished(s, w) ==> w <= u
  {
    u := t;
    var todo := s.tasks.Keys;
    while todo != {}
      invariant todo <= s.tasks.Keys && Unfinished(s, u)
      invariant forall w: Tid :: w !in todo && Unfinished(s, w) ==> w <= u
      decreases |todo|
    {
      var w :| w in todo;
      todo := todo - {w};
      if Unfinished(s, w) && w > u { u := w; }
    }
  }

  lemma FreshId(s: State) returns (id: Tid)
    ensures IsFresh(s, id)
  {
    id := 0;
    var todo := s.tasks.Keys;
    while todo != {}
      invariant todo <= s.tasks.Keys
      invariant forall t :: t in s.tasks && t !in todo ==> t < id
      decreases |todo|
    {
      var t :| t in todo;
      todo := todo - {t};
      if t >= id { id := t + 1; }
    }
  }

  /** The youngest unfinished request does not wait for a reply: those it could wait for are younger. */
  lemma YoungestTalks(s: State, init: Disk, t: Tid)
    requires Inv(s, init) && Unfinished(s, t) && forall w: Tid :: Unfinished(s, w) ==> w <= t
    requires s.tasks[t].phase == Connect || s.tasks[t].phase.Await?
    ensures CanStep(s, t)
  {
    AllInBounds(s, init, t);
    var id := FreshId(s);
    TalkGoesOn(s, t, id);
    StepsIf(s, t, id);
  }

  lemma TalkGoesOn(s: State, t: Tid, id: Tid)
    requires InBounds(s, t) && OutcomeOk(s, t) && IsFresh(s, id)
    requires forall w: Tid :: Unfinished(s, w) ==> w <= t
    requires s.tasks[t].phase == Connect || s.tasks[t].phase.Await?
    ensures Next(s, t, AllWell(id)).Some?
  {
    if s.tasks[t].phase.Await? { assert !Unfinished(s, s.tasks[t].phase.child); }
  }

  lemma YoungestSteps(s: State, init: Disk, t: Tid) returns (u: Tid)
    requires Inv(s, init) && Unfinished(s, t) && forall w: Tid :: Unfinished(s, w) ==> w <= t
    ensures CanStep(s, u)
  {
    var k := s.tasks[t];
    u := t;
    assert TaskOk(s, t, init);
    if k.phase == Connect || k.phase.Await? { YoungestTalks(s, init, t); }
    else if AtMutex(k) { u := MutexWaiterSteps(s, init, t); }
    else if k.phase == Wait { u := LockWaiterSteps(s, init, t); }
    else if Inside(k) { u := InsideSteps(s, init, t); }
    else { MutexHolderSteps(s, init, t); }
  }

  lemma SomeoneSteps(s: State, init: Disk, t: Tid) returns (u: Tid)
    requires Inv(s, init) && Unfinished(s, t)
    ensures CanStep(s, u)
  {
    var youngest := Youngest(s, t);
    u := YoungestSteps(s, init, youngest);
  }

  /** While a request is unfinished somebody can step: any mix of requests, COPY to the same server or onto the
      same file, COPY in a circle. */
  lemma NoDeadlock(run: seq<State>, init: Disk, n: nat, k: nat, t: Tid)
    requires IsRun(run, init, n) && k < |run| && Unfinished(run[k], t)
    ensures exists u :: CanStep(run[k], u)
  {
    RunKeepsInv(run, init, n, k);
    var u := SomeoneSteps(run[k], init, t);
  }

  // ---------- who waits for whom ----------

  predicate Changes(k: Task) {
    k.req.op.Write? || k.req.op.Create? || k.req.op.Delete?
  }

  /** `u` is inside an operation on `t`'s file, and one of them may change it. */
  predicate Conflicts(s: State, t: Tid, u: Tid) {
    && t in s.tasks && u in s.tasks && Inside(s.tasks[u]) && Key(s.tasks[u]) == Key(s.tasks[t])
    && (Changes(s.tasks[t]) || Changes(s.tasks[u]))
  }

  /** A request waits for its file's lock exactly while one that conflicts with it is inside: reads and enquiries pass
      each other, and nobody waits for another file. */
  lemma WaitsForConflict(run: seq<State>, init: Disk, n: nat, k: nat, t: Tid, c: Choice)
    requires IsRun(run, init, n) && k < |run| && t in run[k].tasks && run[k].tasks[t].phase == Wait
    ensures InBounds(run[k], t)
    ensures Next(run[k], t, c) == None <==> exists u :: Conflicts(run[k], t, u)
  {
    RunKeepsInv(run, init, n, k);
    AllInBounds(run[k], init, t);
    LockedMeansConflict(run[k], init, t);
  }

  lemma LockedMeansConflict(s: State, init: Disk, t: Tid)
    requires ServersOk(s) && TasksOk(s, init) && t in s.tasks && s.tasks[t].phase == Wait && InBounds(s, t)
    ensures !s.tasks[t].relay
    ensures !Grants(s.servers[s.tasks[t].req.srv].rw[s.tasks[t].node], Changes(s.tasks[t]))
       <==> exists u :: Conflicts(s, t, u)
  {
    assert TaskOk(s, t, init);
    var v, n := s.tasks[t].req.srv, s.tasks[t].node;
    assert ServerOk(s, v);
    assert LockOk(s, v, n);
    var l := s.servers[v].rw[n];
    if l.writer.Some? {
      HolderConflicts(s, init, t, l.writer.value);
    }
    if Changes(s.tasks[t]) && l.readers != {} {
      var u :| u in l.readers;
      HolderConflicts(s, init, t, u);
    }
    if u :| Conflicts(s, t, u) { ConflictHolds(s, init, t, u); }
  }

  lemma HolderConflicts(s: State, init: Disk, t: Tid, u: Tid)
    requires ServersOk(s) && TasksOk(s, init) && t in s.tasks && s.tasks[t].phase == Wait && !s.tasks[t].relay
    requires u in s.tasks && s.tasks[t].req.srv < |s.servers|
    requires Writer(s.tasks[u], s.tasks[t].req.srv, s.tasks[t].node)
          || (Reader(s.tasks[u], s.tasks[t].req.srv, s.tasks[t].node) && Changes(s.tasks[t]))
    ensures Conflicts(s, t, u)
  {
    assert TaskOk(s, t, init) && TaskOk(s, u, init);
  }

  lemma ConflictHolds(s: State, init: Disk, t: Tid, u: Tid)
    requires ServersOk(s) && TasksOk(s, init) && Conflicts(s, t, u) && s.tasks[t].phase == Wait && !s.tasks[t].relay
    requires s.tasks[t].req.srv < |s.servers|
    ensures if Changes(s.tasks[u]) then Writer(s.tasks[u], s.tasks[t].req.srv, s.tasks[t].node)
            else Reader(s.tasks[u], s.tasks[t].req.srv, s.tasks[t].node)
  {
    assert TaskOk(s, t, init) && TaskOk(s, u, init);
    var v := s.tasks[t].req.srv;
    assert ServerOk(s, v);
    var table := s.servers[v].table;
    assert table.paths[s.tasks[t].node] == table.paths[s.tasks[u].node];
  }

  // ---------- termination ----------

  /** How many steps a request may still take, those of a request it will pass on included. */
  function Work(k: Task): nat {
    if k.relay then
      match k.phase
      case Connect => 2 + Fresh(k.req.op) + Copying(k.req, [])
      case Await(_) => 1
      case _ => 0
    else
      match k.phase
      case Enter => Fresh(k.req.op) + Copying(k.req, k.buf)
      case Look => 8 + Body(k.req.op) + Copying(k.req, k.buf)
      case Leave => 7 + Body(k.req.op) + Copying(k.req, k.buf)
      case Wait => 6 + Body(k.req.op) + Copying(k.req, k.buf)
      case Begun => 5 + Body(k.req.op) + Copying(k.req, k.buf)
      case Reading => 4 + Minus(MAX_DATA_SIZE, |k.buf|) + Copying(k.req, k.buf)
      case Writing => 4 + Minus(Body(k.req.op), k.count) + Copying(k.req, k.buf)
      case Closing => 4 + Copying(k.req, k.buf)
      case Removing => 4 + Copying(k.req, k.buf)
      case Enter2 => 3 + Copying(k.req, k.buf)
      case Unlock => 2 + Copying(k.req, k.buf)
      case Leave2 => 1 + Copying(k.req, k.buf)
      case Connect => Copying(k.req.(copyTo := Some((0, []))), k.buf)
      case Await(_) => 1
      case Finished(_) => 0
  }

  /** The bytes an operation may have to move. */
  function Body(op: FileOp): nat {
    match op
    case Read => MAX_DATA_SIZE
    case Write(data) => |data|
    case _ => 0
  }

  function Fresh(op: FileOp): nat {
    9 + Body(op)
  }

  /** Sending what was read, waiting for the reply, and the write at the other end. */
  function Copying(req: Request, buf: seq<Byte>): nat {
    if req.copyTo.None? then 0 else 2 + 9 + if |buf| < MAX_DATA_SIZE then MAX_DATA_SIZE else |buf|
  }

  ghost function Total(tasks: map<Tid, Task>): nat {
    Sum(Works(tasks))
  }

  function Works(tasks: map<Tid, Task>): map<nat, nat> {
    map t | t in tasks :: Work(tasks[t])
  }

  lemma TotalSplits(tasks: map<Tid, Task>, t: Tid)
    requires t in tasks
    ensures Total(tasks) == Work(tasks[t]) + Total(tasks - {t})
  {
    SumSplits(Works(tasks), t);
    assert Works(tasks) - {t} == Works(tasks - {t});
  }

  lemma TotalUpdated(tasks: map<Tid, Task>, t: Tid, k: Task)
    ensures Total(tasks[t := k]) == Work(k) + Total(tasks - {t})
  {
    SumUpdated(Works(tasks), t, Work(k));
    assert Works(tasks)[t := Work(k)] == Works(tasks[t := k]);
    assert Works(tasks) - {t} == Works(tasks - {t});
  }

  /** What one step does to the table of requests. */
  ghost predicate Shrinks(s: State, s': State, t: Tid, id: Tid) {
    && t in s.tasks && t in s'.tasks
    && (|| (s'.tasks == s.tasks[t := s'.tasks[t]] && Work(s'.tasks[t]) < Work(s.tasks[t]))
        || (id !in s.tasks && id in s'.tasks && s'.tasks == s.tasks[t := s'.tasks[t]][id := s'.tasks[id]]
            && Work(s'.tasks[t]) + Work(s'.tasks[id]) < Work(s.tasks[t])))
  }

  lemma LockShrinks(s: State, s': State, t: Tid, id: Tid)
    requires InBounds(s, t) && !s.tasks[t].relay && LockNext(s, t) == Some(s')
    requires s.tasks[t].phase in {Enter, Look, Leave, Wait, Enter2, Unlock, Leave2}
    ensures Shrinks(s, s', t, id)
  {
  }

  lemma OpenShrinks(s: State, t: Tid, ok: bool, id: Tid)
    requires InBounds(s, t) && !s.tasks[t].relay && s.tasks[t].phase == Begun
    ensures Shrinks(s, OpenNext(s, t, ok), t, id)
  {
  }

  lemma BodyShrinks(s: State, s': State, t: Tid, ok: bool, id: Tid)
    requires InBounds(s, t) && !s.tasks[t].relay && BodyNext(s, t, ok) == Some(s')
    requires s.tasks[t].phase in {Reading, Writing, Closing, Removing}
    ensures Shrinks(s, s', t, id)
  {
  }

  lemma MessageShrinks(s: State, s': State, t: Tid, c: Choice)
    requires InBounds(s, t) && PhaseFits(s.tasks[t]) && (s.tasks[t].phase == Connect || s.tasks[t].phase.Await?)
    requires MessageNext(s, t, c) == Some(s')
    ensures Shrinks(s, s', t, c.id)
  {
    if s.tasks[t].phase == Connect && c.ok && c.sent { assert t != c.id; }
  }

  lemma StepShrinks(s: State, s': State, t: Tid, c: Choice)
    requires Steps(s, s', t, c) && PhaseFits(s.tasks[t])
    ensures Shrinks(s, s', t, c.id)
  {
    var phase := s.tasks[t].phase;
    if phase == Connect || phase.Await? { MessageShrinks(s, s', t, c); }
    else if phase == Begun { OpenShrinks(s, t, c.ok, c.id); }
    else if phase in {Reading, Writing, Closing, Removing} { BodyShrinks(s, s', t, c.ok, c.id); }
    else { LockShrinks(s, s', t, c.id); }
  }

  /** Every step leaves less to do. */
  lemma StepsDecrease(s: State, s': State, t: Tid, c: Choice)
    requires Steps(s, s', t, c) && PhaseFits(s.tasks[t])
    ensures Total(s'.tasks) < Total(s.tasks)
  {
    StepShrinks(s, s', t, c);
    TotalSplits(s.tasks, t);
    var moved := s.tasks[t := s'.tasks[t]];
    TotalUpdated(s.tasks, t, s'.tasks[t]);
    if s'.tasks != moved {
      assert c.id != t;
      TotalUpdated(moved, c.id, s'.tasks[c.id]);
      assert moved - {c.id} == moved;
    }
  }

  lemma ProgressDecreases(s: State, s': State, init: Disk)
    requires TasksOk(s, init) && Progresses(s, s')
    ensures Total(s'.tasks) < Total(s.tasks)
  {
    var t, c :| Steps(s, s', t, c);
    assert TaskOk(s, t, init);
    StepsDecrease(s, s', t, c);
  }

  ghost predicate NobodyArrives(run: seq<State>, k: nat)
    requires k + 1 < |run|
  {
    Progresses(run[k], run[k + 1])
  }

  lemma StepAt(run: seq<State>, init: Disk, n: nat, k: nat)
    requires IsRun(run, init, n) && k + 1 < |run| && NobodyArrives(run, k)
    ensures Total(run[k + 1].tasks) < Total(run[k].tasks)
  {
    RunKeepsInv(run, init, n, k);
    ProgressDecreases(run[k], run[k + 1], init);
  }

  /** Nobody arrives between moments `i` and `j`. */
  ghost predicate Quiet(run: seq<State>, i: nat, j: nat)
    requires i <= j < |run|
  {
    forall k :: i <= k < j ==> NobodyArrives(run, k)
  }

  ghost function Totals(run: seq<State>): (r: seq<nat>)
    ensures |r| == |run|
  {
    seq(|run|, k requires 0 <= k < |run| => Total(run[k].tasks))
  }

  lemma TotalsFall(run: seq<State>, init: Disk, n: nat, i: nat, j: nat)
    requires IsRun(run, init, n) && i <= j < |run| && Quiet(run, i, j)
    ensures forall k :: i <= k < j ==> Falls(Totals(run), k)
  {
    forall k | i <= k < j ensures Falls(Totals(run), k) { StepAt(run, init, n, k); }
  }

  /** Once no more requests arrive, at most `Total` steps remain, whatever fails and however the steps interleave. */
  lemma FiniteRequestsFinish(run: seq<State>, init: Disk, n: nat, i: nat, j: nat)
    requires IsRun(run, init, n) && i <= j < |run| && Quiet(run, i, j)
    ensures j - i <= Total(run[i].tasks) - Total(run[j].tasks)
  {
    TotalsFall(run, init, n, i, j);
    FallsAreShort(Totals(run), i, j);
  }

  /** A run that cannot go on has answered every request. */
  lemma StuckRunsAreFinished(run: seq<State>, init: Disk, n: nat, k: nat)
    requires IsRun(run, init, n) && k < |run| && forall t :: !CanStep(run[k], t)
    ensures forall t: Tid :: !Unfinished(run[k], t)
  {
    forall t: Tid ensures !Unfinished(run[k], t) {
      if Unfinished(run[k], t) { NoDeadlock(run, init, n, k, t); }
    }
  }
}
