/** The trie under any number of naming-server threads: every lock operation and every access to a node is a
    step of its own, and steps of different threads interleave freely. */
module TrieThreads {
  import opened Paths
  import opened Protocol
  import opened PathTree
  import opened RwLocks
  import opened Linearizability
  import opened Tries
  import Files = FileStore

  // ---------- the sequential object ----------

  datatype Op = Insert(path: Path, info: Srv) | Search(path: Path) | Delete(path: Path)
  type Res = Option<Srv>

  function Effect(m: map<Path, Srv>, op: Op, res: Res): map<Path, Srv> {
    match op
    case Insert(p, info) => m[p := info]
    case Search(p) => m
    case Delete(p) => m - {p}
  }

  predicate Legal(m: map<Path, Srv>, op: Op, res: Res) {
    res == if op.Search? then Lookup(m, op.path) else None
  }

  function PathMap(): Spec<map<Path, Srv>, Op, Res> {
    Spec(map[], (m, op, res) => Legal(m, op, res), (m, op, res) => Effect(m, op, res))
  }

  // ---------- states ----------

  /** `path` is the string that leads to the node; the program does not store it. */
  datatype Node = Node(path: Path, children: map<PathByte, nat>, info: Option<Srv>)

  /** What a request handler does with shared data, in order; `Ask` passes a request on to a storage server and waits
      for the reply. */
  datatype Action = TakeMutex | DropMutex | TakeCache | DropCache | Call(op: Op) | Collect | Ask(req: Files.Request)

  /** Where a call of `trie_insert`, `trie_search` or `trie_delete` is: about to lock `cur`; holding it; holding
      it and bound to create a child; holding it with the child there; having released it, about to follow the
      child pointer; holding it with the result known. */
  datatype Phase = Lock | At | Make | Leave | Step | Unlock(res: Res)

  /** A level of the collector's recursion: its node, and the child index it looks at next; 0 before the node's own
      path is looked at. */
  datatype Frame = Frame(node: nat, next: nat)

  /** `Visit` is `trie_collect_paths`: a chain of read-locked nodes, a node about to be locked, and the paths
      collected so far. */
  datatype Activity =
    | Ready
    | Walk(op: Op, call: nat, i: nat, cur: nat, phase: Phase)
    | Visit(frames: seq<Frame>, pending: Option<nat>, found: seq<Path>)

  datatype Thread = Thread(script: seq<Action>, act: Activity)

  datatype State = State(
    heap: seq<Node>, locks: seq<RwLock>, mutex: Option<Tid>, cache: Option<Tid>,
    threads: map<Tid, Thread>, rec: Recorder<Op, Res>)

  function Initial(): State {
    State([Node([], map[], None)], [UNHELD], None, None, map[], Recorder([], [], map[]))
  }

  // ---------- steps ----------

  predicate Finished(th: Thread) {
    th.act == Ready && th.script == []
  }

  function NewCall(r: Recorder<Op, Res>): (c: nat)
    ensures c !in r.calls
  {
    FreshCall(r.calls.Keys);
    var c: nat :| c !in r.calls && forall d: nat :: d < c ==> d in r.calls;
    c
  }

  lemma FreshCall(s: set<nat>)
    ensures exists c: nat :: c !in s && forall d: nat :: d < c ==> d in s
  {
    var c: nat := 0;
    while c in s
      invariant forall d: nat :: d < c ==> d in s
      decreases s - set d: nat | d in s && d < c
    {
      assert c in s - set d: nat | d in s && d < c;
      c := c + 1;
    }
  }

  function Writes(op: Op): bool {
    !op.Search?
  }

  /** Every level but the deepest has gone down at the child before its `next`. */
  predicate Descends(frames: seq<Frame>) {
    forall k :: 0 <= k < |frames| - 1 ==> 2 <= frames[k].next <= 256
  }

  /** What the collector's shared buffer holds up to its deepest level. */
  function Buffer(frames: seq<Frame>): (p: Path)
    requires Descends(frames)
    ensures |p| == if frames == [] then 0 else |frames| - 1
  {
    seq(if frames == [] then 0 else |frames| - 1,
        k requires 0 <= k < |frames| - 1 => (frames[k].next - 1) as PathByte)
  }

  /** The indices a thread uses exist. */
  predicate InBounds(s: State, th: Thread) {
    && |s.locks| == |s.heap| > 0
    && match th.act
       case Ready => true
       case Walk(op, call, i, cur, phase) =>
         && th.script != [] && i <= |op.path| && cur < |s.heap| && call in s.rec.calls
         && (phase == Step || phase == Make ==> i < |op.path|)
         && (phase == Step ==> op.path[i] in s.heap[cur].children)
       case Visit(frames, pending, _) =>
         && th.script != [] && (pending.Some? ==> pending.value < |s.heap|) && Descends(frames)
         && forall k :: 0 <= k < |frames| ==> frames[k].node < |s.heap| && frames[k].next <= 256
  }

  function Set(s: State, t: Tid, act: Activity): State
    requires t in s.threads
  {
    s.(threads := s.threads[t := s.threads[t].(act := act)])
  }

  function EndAction(s: State, t: Tid): State
    requires t in s.threads && s.threads[t].script != []
  {
    s.(threads := s.threads[t := Thread(s.threads[t].script[1..], Ready)])
  }

  /** The state after thread `t`'s next step; `None` if it has to wait or has finished. */
  function Next(s: State, t: Tid): Option<State>
    requires t in s.threads && InBounds(s, s.threads[t])
  {
    match s.threads[t].act
    case Ready => ReadyNext(s, t)
    case Walk(op, call, i, cur, phase) => WalkNext(s, t)
    case Visit(_, _, _) => VisitNext(s, t)
  }

  function ReadyNext(s: State, t: Tid): Option<State>
    requires t in s.threads && |s.heap| > 0
  {
    if s.threads[t].script == [] then None
    else match s.threads[t].script[0]
      case TakeMutex => if s.mutex == None then Some(EndAction(s, t).(mutex := Some(t))) else None
      case DropMutex => Some(EndAction(s, t).(mutex := None))
      case TakeCache => if s.cache == None then Some(EndAction(s, t).(cache := Some(t))) else None
      case DropCache => Some(EndAction(s, t).(cache := None))
      case Call(op) =>
        var call := NewCall(s.rec);
        Some(Set(s, t, Walk(op, call, 0, 0, Lock)).(rec := Begin(s.rec, call, op)))
      case Collect => Some(Set(s, t, Visit([], Some(0), [])))
      case Ask(_) => Some(EndAction(s, t))
  }

  function WalkNext(s: State, t: Tid): Option<State>
    requires t in s.threads && InBounds(s, s.threads[t]) && s.threads[t].act.Walk?
  {
    var w := s.threads[t].act;
    var here := s.heap[w.cur];
    match w.phase
    case Lock =>
      if Grants(s.locks[w.cur], Writes(w.op)) then
        Some(Set(s, t, w.(phase := At)).(locks := s.locks[w.cur := Acquire(s.locks[w.cur], t, Writes(w.op))]))
      else None
    case At =>
      if w.i == |w.op.path| then
        var res := if w.op.Search? then here.info else None;
        var info := match w.op case Insert(_, v) => Some(v) case Search(_) => here.info case Delete(_) => None;
        Some(Set(s, t, w.(phase := Unlock(res)))
             .(heap := s.heap[w.cur := here.(info := info)], rec := TakeEffect(s.rec, w.call, res)))
      else if w.op.path[w.i] in here.children then Some(Set(s, t, w.(phase := Leave)))
      else if w.op.Insert? then Some(Set(s, t, w.(phase := Make)))
      else Some(Set(s, t, w.(phase := Unlock(None))).(rec := TakeEffect(s.rec, w.call, None)))
    case Make =>
      var b := w.op.path[w.i];
      Some(Set(s, t, w.(phase := Leave))
           .(heap := s.heap[w.cur := here.(children := here.children[b := |s.heap|])]
                     + [Node(here.path + [b], map[], None)],
             locks := s.locks + [UNHELD]))
    case Leave =>
      Some(Set(s, t, w.(phase := Step)).(locks := s.locks[w.cur := Release(s.locks[w.cur], t)]))
    case Step =>
      Some(Set(s, t, w.(i := w.i + 1, cur := here.children[w.op.path[w.i]], phase := Lock)))
    case Unlock(res) =>
      Some(EndAction(s, t).(locks := s.locks[w.cur := Release(s.locks[w.cur], t)], rec := End(s.rec, w.call, res)))
  }

  function VisitNext(s: State, t: Tid): Option<State>
    requires t in s.threads && InBounds(s, s.threads[t]) && s.threads[t].act.Visit?
  {
    var Visit(frames, pending, found) := s.threads[t].act;
    match pending
    case Some(n) =>
      if Grants(s.locks[n], false) then
        Some(Set(s, t, Visit(frames + [Frame(n, 0)], None, found))
             .(locks := s.locks[n := Acquire(s.locks[n], t, false)]))
      else None
    case None =>
      if frames == [] then Some(EndAction(s, t))
      else
        var k := |frames| - 1;
        var f := frames[k];
        var on := frames[k := f.(next := f.next + 1)];
        if f.next == 256 then
          Some(Set(s, t, Visit(frames[..k], None, found))
               .(locks := s.locks[f.node := Release(s.locks[f.node], t)]))
        else if f.next == 0 then
          var mine := if s.heap[f.node].info.Some? && |found| < MAX_ACCESSIBLE_PATHS then [Buffer(frames)] else [];
          Some(Set(s, t, Visit(on, None, found + mine)))
        else if f.next as PathByte in s.heap[f.node].children then
          Some(Set(s, t, Visit(on, Some(s.heap[f.node].children[f.next as PathByte]), found)))
        else Some(Set(s, t, Visit(on, None, found)))
  }

  /** Mutex and cache lock are paired, nothing else is taken while the cache lock is held, and no reply is waited for
      while either is. */
  predicate Disciplined(script: seq<Action>, mutex: bool, cache: bool) {
    if script == [] then !mutex && !cache
    else match script[0]
      case TakeMutex => !mutex && !cache && Disciplined(script[1..], true, cache)
      case DropMutex => mutex && !cache && Disciplined(script[1..], false, cache)
      case TakeCache => !cache && Disciplined(script[1..], mutex, true)
      case DropCache => cache && Disciplined(script[1..], mutex, false)
      case Call(_) => !cache && Disciplined(script[1..], mutex, cache)
      case Collect => !cache && Disciplined(script[1..], mutex, cache)
      case Ask(_) => !mutex && !cache && Disciplined(script[1..], mutex, cache)
  }

  /** A handler starts, or some thread takes a step. */
  predicate Starts(s: State, s': State, t: Tid, script: seq<Action>) {
    t !in s.threads && Disciplined(script, false, false) && s' == s.(threads := s.threads[t := Thread(script, Ready)])
  }

  predicate Steps(s: State, s': State, t: Tid) {
    t in s.threads && InBounds(s, s.threads[t]) && Next(s, t) == Some(s')
  }

  ghost predicate Transition(s: State, s': State) {
    || (exists t, script :: Starts(s, s', t, script))
    || (exists t :: Steps(s, s', t))
  }

  ghost predicate Follows(run: seq<State>, k: nat)
    requires k + 1 < |run|
  {
    Transition(run[k], run[k + 1])
  }

  ghost predicate IsRun(run: seq<State>) {
    && run != [] && run[0] == Initial()
    && forall k :: 0 <= k < |run| - 1 ==> Follows(run, k)
  }
}
