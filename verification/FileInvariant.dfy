/** What every step of the storage servers keeps. */
module FileInvariant {
  import opened Paths
  import opened Protocol
  import opened RwLocks
  import opened Linearizability
  import opened FileStore
  import LockSpec

  /** The disks as the completed operations, in linearization order, leave them. */
  ghost function Committed(s: State, init: Disk): Disk {
    Replay(Files(init), s.rec.lin)
  }

  function Key(k: Task): (Srv, Path) {
    (k.req.srv, k.req.path)
  }

  // ---------- locks ----------

  /** Between acquiring the file's lock and releasing it. */
  predicate Inside(k: Task) {
    && !k.relay
    && (k.phase == Begun || k.phase == Reading || k.phase == Writing || k.phase == Closing || k.phase == Removing
        || k.phase == Enter2 || k.phase == Unlock)
  }

  predicate Writer(k: Task, v: Srv, n: nat) {
    Inside(k) && Exclusive(k.req.op) && k.req.srv == v && k.node == n
  }

  predicate Reader(k: Task, v: Srv, n: nat) {
    Inside(k) && !Exclusive(k.req.op) && k.req.srv == v && k.node == n
  }

  predicate HasMutex(k: Task, v: Srv) {
    && !k.relay && k.req.srv == v
    && (k.phase == Look || k.phase == Leave || k.phase == Unlock || k.phase == Leave2)
  }

  ghost predicate LockOk(s: State, v: Srv, n: nat)
    requires v < |s.servers| && n < |s.servers[v].rw|
  {
    var l := s.servers[v].rw[n];
    && Sound(l)
    && (forall t :: l.writer == Some(t) <==> t in s.tasks && Writer(s.tasks[t], v, n))
    && (forall t :: t in l.readers <==> t in s.tasks && Reader(s.tasks[t], v, n))
  }

  ghost predicate ServerOk(s: State, v: Srv)
    requires v < |s.servers|
  {
    var sv := s.servers[v];
    && LockSpec.Inv(sv.table) && |sv.rw| == |sv.table.paths|
    && (forall n :: 0 <= n < |sv.rw| ==> LockOk(s, v, n))
    && (forall t :: sv.mutex == Some(t) <==> t in s.tasks && HasMutex(s.tasks[t], v))
  }

  // ---------- tasks ----------

  predicate KnowsNode(k: Task) {
    Inside(k) || (!k.relay && (k.phase == Leave || k.phase == Wait))
  }

  predicate PhaseFits(k: Task) {
    && (k.relay ==> k.phase == Connect || k.phase.Await? || k.phase.Finished?)
    && (!k.relay && (k.phase == Connect || k.phase.Await?) ==> k.req.copyTo.Some?)
    && (k.phase == Reading ==> k.req.op == Read)
    && (k.phase == Writing ==> k.req.op.Write?)
    && (k.phase == Closing ==> k.req.op == Create(PlainFile))
    && (k.phase == Removing ==> k.req.op == Delete)
  }

  predicate BeforeEffect(k: Task) {
    !k.relay && (k.phase == Enter || k.phase == Look || k.phase == Leave || k.phase == Wait || k.phase == Begun
                 || k.phase == Reading || k.phase == Writing || k.phase == Closing || k.phase == Removing)
  }

  predicate AfterEffect(k: Task) {
    !k.relay && (k.phase == Enter2 || k.phase == Unlock || k.phase == Leave2)
  }

  /** Inside an operation, what has been read or written so far. */
  ghost predicate BodyOk(k: Task, disk: Disk, committed: Disk) {
    var key := Key(k);
    match k.phase
    case Reading =>
      IsFile(disk, key) && |k.buf| < MAX_DATA_SIZE && k.buf <= disk[key].bytes
    case Writing =>
      && k.req.op.Write? && k.count <= |k.req.op.data| && key in disk && disk[key] == File(k.req.op.data[..k.count])
      && !IsDir(committed, key)
    case Closing => key in disk && disk[key] == File([]) && !IsDir(committed, key)
    case Removing => key in disk
    case _ => k.phase == Begun ==> k.buf == [] && k.count == 0
  }

  ghost predicate RecordOk(r: Recorder<Op, Res>, t: Tid, k: Task) {
    && (!k.relay ==> t in r.calls)
    && (BeforeEffect(k) ==> Pending(r, t, OpOf(k.req)))
    && (AfterEffect(k) ==>
          && Effective(r, t, OpOf(k.req), k.res)
          && (k.req.op == Read && k.res.code == SUCCESS ==> k.res.data == k.buf))
  }

  ghost predicate TaskOk(s: State, t: Tid, init: Disk)
    requires t in s.tasks
  {
    var k := s.tasks[t];
    && WellFormed(s, k.req) && PhaseFits(k)
    && (KnowsNode(k) ==>
          var table := s.servers[k.req.srv].table;
          k.node < |table.paths| && table.paths[k.node] == k.req.path)
    && (Inside(k) ==> BodyOk(k, s.disk, Committed(s, init)))
    && (BeforeEffect(k) && !Inside(k) ==> k.buf == [] && k.count == 0)
    && RecordOk(s.rec, t, k)
  }

  // ---------- disk ----------

  predicate Dirty(k: Task, key: (Srv, Path)) {
    !k.relay && (k.phase == Writing || k.phase == Closing) && Key(k) == key
  }

  predicate SameAt(a: Disk, b: Disk, key: (Srv, Path)) {
    (key in a <==> key in b) && (key in a ==> a[key] == b[key])
  }

  /** A file that nobody is in the middle of writing is as the completed operations left it. */
  ghost predicate DiskOk(s: State, init: Disk) {
    forall key :: (forall t :: t in s.tasks ==> !Dirty(s.tasks[t], key)) ==> SameAt(s.disk, Committed(s, init), key)
  }

  // ---------- outcomes ----------

  ghost predicate Saw(r: Recorder<Op, Res>, t: Tid, o: Op, code: Code) {
    && t in r.calls && r.calls[t].point.Some? && r.calls[t].point.value < |r.lin|
    && var e := r.lin[r.calls[t].point.value];
       e.call == t && e.op == o && e.res.code == code
  }

  /** `t` read, successfully, what is in its buffer. */
  ghost predicate SawBuffer(r: Recorder<Op, Res>, t: Tid, k: Task) {
    Saw(r, t, OpOf(k.req), SUCCESS) && r.lin[r.calls[t].point.value].res.data == k.buf
  }

  /** `child` is the request that `t` passed on, begun after `t` had read what it passes on. */
  ghost predicate IsChild(s: State, t: Tid, child: Tid) {
    && t in s.tasks && child in s.tasks && t < child
    && !s.tasks[child].relay && s.tasks[child].req == Onward(s.tasks[t])
    && (!s.tasks[t].relay ==>
          && child in s.rec.calls && SawBuffer(s.rec, t, s.tasks[t])
          && s.rec.calls[t].point.value < s.rec.calls[child].start)
  }

  ghost predicate OutcomeOk(s: State, t: Tid)
    requires t in s.tasks
  {
    var k := s.tasks[t];
    match k.phase
    case Connect => !k.relay ==> SawBuffer(s.rec, t, k)
    case Await(child) => IsChild(s, t, child)
    case Finished(code) =>
      if k.relay || k.req.copyTo.Some? then
        code == SUCCESS ==> exists child :: IsChild(s, t, child) && s.tasks[child].phase == Finished(SUCCESS)
      else Saw(s.rec, t, OpOf(k.req), code)
    case _ => true
  }

  // ---------- all of it ----------

  ghost predicate RecOk(s: State, init: Disk) {
    && WellRecorded(s.rec) && LegalRun(Files(init), s.rec.lin)
    && s.rec.calls.Keys <= s.tasks.Keys
  }

  ghost predicate ServersOk(s: State) {
    forall v :: 0 <= v < |s.servers| ==> ServerOk(s, v)
  }

  ghost predicate TasksOk(s: State, init: Disk) {
    forall t :: t in s.tasks ==> TaskOk(s, t, init)
  }

  ghost predicate OutcomesOk(s: State) {
    forall t :: t in s.tasks ==> OutcomeOk(s, t)
  }

  ghost predicate Inv(s: State, init: Disk) {
    RecOk(s, init) && ServersOk(s) && TasksOk(s, init) && DiskOk(s, init) && OutcomesOk(s)
  }

  lemma InitialInv(init: Disk, n: nat)
    ensures Inv(Initial(init, n), init)
  {
    LockSpec.EmptyInv();
  }

  // ---------- mutual exclusion ----------

  /** While a task that may change a file is inside its operation, no other task is inside one on that file. */
  lemma Excludes(s: State, init: Disk, t: Tid, u: Tid)
    requires ServersOk(s) && TasksOk(s, init) && t in s.tasks && u in s.tasks && t != u
    requires Inside(s.tasks[t]) && Exclusive(s.tasks[t].req.op) && Key(s.tasks[u]) == Key(s.tasks[t])
    ensures !Inside(s.tasks[u])
  {
    var k, l := s.tasks[t], s.tasks[u];
    assert TaskOk(s, t, init) && TaskOk(s, u, init);
    var v := k.req.srv;
    assert ServerOk(s, v);
    if Inside(l) {
      var table := s.servers[v].table;
      assert table.paths[k.node] == table.paths[l.node];
      assert k.node == l.node;
      assert LockOk(s, v, k.node);
      assert Writer(k, v, k.node);
    }
  }
}
