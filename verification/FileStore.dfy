/** Any number of storage servers and of requests to them: every lock operation, every byte read or written and
    every message is a step of its own, and steps of different requests interleave freely. */
module FileStore {
  import opened Paths
  import opened Protocol
  import opened RwLocks
  import opened Linearizability
  import LockSpec

  datatype Content = File(bytes: seq<Byte>) | Dir

  // ---------- the sequential object: every operation on a file is one step ----------

  datatype FileOp = Read | Info | Write(data: seq<Byte>) | Create(kind: FileKind) | Delete
  datatype Op = Op(srv: Srv, path: Path, op: FileOp)

  /** `data` is what a read returns, `size` what a write wrote or an enquiry reports. */
  datatype Res = Res(code: Code, data: seq<Byte>, size: nat, kind: FileKind)

  function Failure(code: Code): Res {
    Res(code, [], 0, Unknown)
  }

  type Disk = map<(Srv, Path), Content>

  function Cut(bytes: seq<Byte>): seq<Byte> {
    if |bytes| < MAX_DATA_SIZE then bytes else bytes[..MAX_DATA_SIZE - 1]
  }

  function KindOf(c: Content): FileKind {
    if c.Dir? then Directory else PlainFile
  }

  function SizeOf(c: Content): nat {
    if c.Dir? then 0 else |c.bytes|
  }

  predicate IsDir(d: Disk, key: (Srv, Path)) {
    key in d && d[key].Dir?
  }

  predicate IsFile(d: Disk, key: (Srv, Path)) {
    key in d && d[key].File?
  }

  /** The results an operation may have; opening, writing and removing may fail for reasons of the system. */
  predicate Legal(d: Disk, o: Op, r: Res) {
    var key := (o.srv, o.path);
    match o.op
    case Read =>
      || (r == Failure(FILE_NOT_FOUND))
      || (IsFile(d, key) && r == Res(SUCCESS, Cut(d[key].bytes), 0, Unknown))
    case Info =>
      r == if key in d then Res(SUCCESS, [], SizeOf(d[key]), KindOf(d[key])) else Failure(FILE_NOT_FOUND)
    case Write(data) =>
      || (r == Failure(PERMISSION_DENIED))
      || (!IsDir(d, key) && r.size <= |data|
          && r == Res(if r.size == |data| then SUCCESS else ASYNC_WRITE_FAILED, [], r.size, Unknown))
    case Create(kind) =>
      if kind == Unknown then r == Failure(INVALID_OPERATION)
      else || (r == Failure(PERMISSION_DENIED))
           || ((if kind == Directory then key !in d else !IsDir(d, key)) && r == Failure(SUCCESS))
    case Delete =>
      if key in d then r == Failure(SUCCESS) || r == Failure(PERMISSION_DENIED) else r == Failure(FILE_NOT_FOUND)
  }

  function Effect(d: Disk, o: Op, r: Res): Disk {
    var key := (o.srv, o.path);
    match o.op
    case Read => d
    case Info => d
    case Write(data) => if r.code == PERMISSION_DENIED || r.size > |data| then d else d[key := File(data[..r.size])]
    case Create(kind) =>
      if r.code != SUCCESS then d else d[key := if kind == Directory then Dir else File([])]
    case Delete => if r.code == SUCCESS then d - {key} else d
  }

  function Files(init: Disk): Spec<Disk, Op, Res> {
    Spec(init, (d, o, r) => Legal(d, o, r), (d, o, r) => Effect(d, o, r))
  }

  // ---------- states ----------

  datatype Server = Server(table: LockSpec.Table, rw: seq<RwLock>, mutex: Option<Tid>)

  /** What a message asks a storage server for; `copyTo` turns a read into COPY_FILE. */
  datatype Request = Request(srv: Srv, path: Path, op: FileOp, copyTo: Option<(Srv, Path)>)

  /** Where a request is. Acquiring: before the table mutex, before the lookup, before dropping the mutex, before
      the file's lock. Then inside the operation. Releasing: before the mutex, before the unlock, before dropping
      the mutex. Then the messages of a copy. */
  datatype Phase =
    | Enter | Look | Leave | Wait
    | Begun | Reading | Writing | Closing | Removing
    | Enter2 | Unlock | Leave2
    | Connect | Await(child: Tid) | Finished(code: Code)

  /** A handler thread of a storage server (`relay` false), or of the naming server, which only forwards. */
  datatype Task = Task(req: Request, relay: bool, phase: Phase, node: nat, buf: seq<Byte>, count: nat, res: Res)

  datatype State = State(disk: Disk, servers: seq<Server>, tasks: map<Tid, Task>, rec: Recorder<Op, Res>)

  /** What the system decides: whether a call that may fail succeeds, whether a message gets out, and the number of
      a new thread. */
  datatype Choice = Choice(ok: bool, sent: bool, id: Tid)

  function AllWell(id: Tid): Choice {
    Choice(true, true, id)
  }

  function Initial(disk: Disk, n: nat): State {
    State(disk, seq(n, _ => Server(LockSpec.Empty(), [], None)), map[], Recorder([], [], map[]))
  }

  function OpOf(req: Request): Op {
    Op(req.srv, req.path, req.op)
  }

  function Exclusive(op: FileOp): bool {
    !(op.Read? || op.Info?)
  }

  function NewTask(req: Request, relay: bool): Task {
    Task(req, relay, if relay then Connect else Enter, 0, [], 0, Failure(SUCCESS))
  }

  /** Only reads are copied. */
  predicate WellFormed(s: State, req: Request) {
    && req.srv < |s.servers|
    && (req.copyTo.Some? ==> req.op == Read && req.copyTo.value.0 < |s.servers|)
  }

  predicate IsFresh(s: State, id: Tid) {
    forall t :: t in s.tasks ==> t < id
  }

  /** A request reaches its server. */
  function Spawn(s: State, id: Tid, req: Request, relay: bool): State {
    var s' := s.(tasks := s.tasks[id := NewTask(req, relay)]);
    if relay then s' else s'.(rec := Begin(s.rec, id, OpOf(req)))
  }

  // ---------- steps ----------

  function Go(s: State, t: Tid, phase: Phase): State
    requires t in s.tasks
  {
    s.(tasks := s.tasks[t := s.tasks[t].(phase := phase)])
  }

  function WithServer(s: State, srv: Srv, sv: Server): State
    requires srv < |s.servers|
  {
    s.(servers := s.servers[srv := sv])
  }

  /** The operation takes effect with result `r`; the lock is still held. */
  function Done(s: State, t: Tid, r: Res): State
    requires t in s.tasks && t in s.rec.calls
  {
    s.(tasks := s.tasks[t := s.tasks[t].(phase := Enter2, res := r)], rec := TakeEffect(s.rec, t, r))
  }

  predicate InBounds(s: State, t: Tid) {
    && t in s.tasks
    && var k := s.tasks[t];
       && (!k.relay ==> WellFormed(s, k.req) && t in s.rec.calls)
       && (k.relay ==> k.phase == Connect || k.phase.Await? || k.phase.Finished?)
       && (k.relay ==> WellFormed(s, k.req))
       && (!k.relay ==>
             var sv := s.servers[k.req.srv];
             LockSpec.InRange(sv.table) && |sv.rw| == |sv.table.paths| && (k.phase == Wait ==> k.node < |sv.rw|))
  }

  /** The state after task `t`'s next step; `None` if it has to wait or has finished. */
  function Next(s: State, t: Tid, c: Choice): Option<State>
    requires InBounds(s, t)
  {
    var k := s.tasks[t];
    match k.phase
    case Enter => LockNext(s, t)
    case Look => LockNext(s, t)
    case Leave => LockNext(s, t)
    case Wait => LockNext(s, t)
    case Enter2 => LockNext(s, t)
    case Unlock => LockNext(s, t)
    case Leave2 => LockNext(s, t)
    case Begun => Some(OpenNext(s, t, c.ok))
    case Reading => BodyNext(s, t, c.ok)
    case Writing => BodyNext(s, t, c.ok)
    case Closing => BodyNext(s, t, c.ok)
    case Removing => BodyNext(s, t, c.ok)
    case Connect => MessageNext(s, t, c)
    case Await(_) => MessageNext(s, t, c)
    case Finished(_) => None
  }

  /** `acquire_*_lock` and `release_*_lock`. */
  function LockNext(s: State, t: Tid): Option<State>
    requires InBounds(s, t) && !s.tasks[t].relay
  {
    var k := s.tasks[t];
    var sv := s.servers[k.req.srv];
    match k.phase
    case Enter =>
      if sv.mutex == None then Some(WithServer(Go(s, t, Look), k.req.srv, sv.(mutex := Some(t)))) else None
    case Look =>
      var (table, n) := LockSpec.GetOrCreate(sv.table, k.req.path);
      var rw := if n < |sv.rw| then sv.rw else sv.rw + [UNHELD];
      Some(WithServer(s.(tasks := s.tasks[t := k.(phase := Leave, node := n)]), k.req.srv,
                      sv.(table := table, rw := rw)))
    case Leave => Some(WithServer(Go(s, t, Wait), k.req.srv, sv.(mutex := None)))
    case Wait =>
      var l := sv.rw[k.node];
      if Grants(l, Exclusive(k.req.op)) then
        Some(WithServer(Go(s, t, Begun), k.req.srv, sv.(rw := sv.rw[k.node := Acquire(l, t, Exclusive(k.req.op))])))
      else None
    case Enter2 =>
      if sv.mutex == None then Some(WithServer(Go(s, t, Unlock), k.req.srv, sv.(mutex := Some(t)))) else None
    case Unlock =>
      var rw := match LockSpec.Find(sv.table, k.req.path)
                case Some(n) => sv.rw[n := Release(sv.rw[n], t)]
                case None => sv.rw;
      Some(WithServer(Go(s, t, Leave2), k.req.srv, sv.(rw := rw)))
    case _ =>
      var next := if k.req.copyTo.Some? && k.res.code == SUCCESS then Connect else Finished(k.res.code);
      Some(WithServer(Go(s, t, next), k.req.srv, sv.(mutex := None)).(rec := End(s.rec, t, k.res)))
  }

  /** The first system call of each operation. */
  function OpenNext(s: State, t: Tid, ok: bool): State
    requires InBounds(s, t) && !s.tasks[t].relay
  {
    var k := s.tasks[t];
    var key := (k.req.srv, k.req.path);
    match k.req.op
    case Read =>
      if IsFile(s.disk, key) && ok then Go(s, t, Reading) else Done(s, t, Failure(FILE_NOT_FOUND))
    case Info =>
      Done(s, t, if key in s.disk then Res(SUCCESS, [], SizeOf(s.disk[key]), KindOf(s.disk[key]))
                 else Failure(FILE_NOT_FOUND))
    case Write(_) =>
      if !IsDir(s.disk, key) && ok then Go(s, t, Writing).(disk := s.disk[key := File([])])
      else Done(s, t, Failure(PERMISSION_DENIED))
    case Create(kind) =>
      if kind == PlainFile && !IsDir(s.disk, key) && ok then Go(s, t, Closing).(disk := s.disk[key := File([])])
      else if kind == Directory && key !in s.disk && ok then
        Done(s, t, Failure(SUCCESS)).(disk := s.disk[key := Dir])
      else Done(s, t, Failure(if kind == Unknown then INVALID_OPERATION else PERMISSION_DENIED))
    case Delete =>
      if key in s.disk then Go(s, t, Removing) else Done(s, t, Failure(FILE_NOT_FOUND))
  }

  /** The rest of each operation; reads and writes go byte by byte. */
  function BodyNext(s: State, t: Tid, ok: bool): Option<State>
    requires InBounds(s, t) && !s.tasks[t].relay
  {
    var k := s.tasks[t];
    var key := (k.req.srv, k.req.path);
    match k.phase
    case Reading =>
      if !IsFile(s.disk, key) then None
      else if |k.buf| < |s.disk[key].bytes| && |k.buf| < MAX_DATA_SIZE - 1 then
        Some(s.(tasks := s.tasks[t := k.(buf := k.buf + [s.disk[key].bytes[|k.buf|]])]))
      else Some(Done(s, t, Res(SUCCESS, k.buf, 0, Unknown)))
    case Writing =>
      if !IsFile(s.disk, key) || !k.req.op.Write? then None
      else if k.count < |k.req.op.data| && ok then
        Some(s.(disk := s.disk[key := File(s.disk[key].bytes + [k.req.op.data[k.count]])],
                tasks := s.tasks[t := k.(count := k.count + 1)]))
      else
        Some(Done(s, t, Res(if k.count == |k.req.op.data| then SUCCESS else ASYNC_WRITE_FAILED, [], k.count, Unknown)))
    case Closing => Some(Done(s, t, Failure(SUCCESS)))
    case _ =>
      if ok then Some(Done(s, t, Failure(SUCCESS)).(disk := s.disk - {key}))
      else Some(Done(s, t, Failure(PERMISSION_DENIED)))
  }

  /** What the task asks another server for. */
  function Onward(k: Task): Request {
    if k.relay || k.req.copyTo.None? then k.req
    else Request(k.req.copyTo.value.0, k.req.copyTo.value.1, Write(k.buf), None)
  }

  /** Connecting and sending, and waiting for the reply; `!ok` is a refused connection or a lost reply, `!sent` a
      failure to send, or to have a socket at all. */
  function MessageNext(s: State, t: Tid, c: Choice): Option<State>
    requires InBounds(s, t) && (s.tasks[t].phase == Connect || s.tasks[t].phase.Await?)
  {
    var k := s.tasks[t];
    match k.phase
    case Connect =>
      if !c.ok then Some(Go(s, t, Finished(SS_UNAVAILABLE)))
      else if !c.sent then Some(Go(s, t, Finished(NETWORK_ERROR)))
      else if IsFresh(s, c.id) then Some(Spawn(Go(s, t, Await(c.id)), c.id, Onward(k), false))
      else None
    case Await(child) =>
      if !c.ok then Some(Go(s, t, Finished(NETWORK_ERROR)))
      else if child in s.tasks && s.tasks[child].phase.Finished? then
        Some(Go(s, t, Finished(s.tasks[child].phase.code)))
      else None
  }

  /** A client or another server sends a request, or some task takes a step. */
  predicate Submits(s: State, s': State, id: Tid, req: Request, relay: bool) {
    WellFormed(s, req) && IsFresh(s, id) && s' == Spawn(s, id, req, relay)
  }

  predicate Steps(s: State, s': State, t: Tid, c: Choice) {
    InBounds(s, t) && Next(s, t, c) == Some(s')
  }

  ghost predicate Progresses(s: State, s': State) {
    exists t, c :: Steps(s, s', t, c)
  }

  ghost predicate Transition(s: State, s': State) {
    || (exists id, req, relay :: Submits(s, s', id, req, relay))
    || Progresses(s, s')
  }

  ghost predicate Follows(run: seq<State>, k: nat)
    requires k + 1 < |run|
  {
    Transition(run[k], run[k + 1])
  }

  ghost predicate IsRun(run: seq<State>, init: Disk, n: nat) {
    && run != [] && run[0] == Initial(init, n)
    && forall k :: 0 <= k < |run| - 1 ==> Follows(run, k)
  }
}
