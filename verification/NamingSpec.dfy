/** The naming server as a value: every request is one transition, given what the storage servers answered. */
module NamingSpec {
  import opened Paths
  import opened Protocol
  import opened LruSpec
  import opened PathTree
  import opened Listing

  /** A registered storage server, and the paths it is listed with. */
  datatype Record = Record(info: SsInfo, paths: seq<Path>)

  /** `cursor` is the server whose turn it is to create. */
  datatype Naming = Naming(servers: seq<Record>, trie: map<Path, Srv>, cache: Cache, cursor: nat)

  datatype Response = Response(ack: bool, code: Code, ip: string, port: int, data: seq<Byte>)

  /** What comes of passing a request on: no socket, no connection, not sent, no answer, or an answer. */
  datatype Reply = NoSocket | Refused | NotSent | Silent | Answer(ack: bool, code: Code)

  /** Pointers into the table of servers are in bounds; before the first registration there are none. */
  predicate Sane(d: Naming) {
    && |d.cache.slots| == LRU_CACHE_SIZE && |d.servers| <= MAX_SS
    && (d.cursor < |d.servers| || d.cursor == |d.servers| == 0)
    && forall p :: p in d.trie ==> d.trie[p] < |d.servers|
  }

  function Start(): (d: Naming)
    ensures Sane(d)
  {
    Naming([], map[], Empty(0), 0)
  }

  const ACK: Response := Response(true, SUCCESS, "", 0, [])

  function Nack(code: Code): Response {
    Response(false, code, "", 0, [])
  }

  /** How the naming server answers when it passed a request on. */
  function Relayed(reply: Reply): Response {
    match reply
    case Refused => Nack(SS_UNAVAILABLE)
    case Answer(ack, code) => if ack && code == SUCCESS then ACK else Nack(code)
    case _ => Nack(NETWORK_ERROR)
  }

  function Succeeded(reply: Reply): bool {
    reply == Answer(true, SUCCESS)
  }

  // ---------- the round-robin cursor ----------

  /** `get_available_ss_for_creation`. */
  function Pick(d: Naming): (r: (Naming, Option<Srv>))
    requires Sane(d)
    ensures Sane(r.0) && (r.1.Some? <==> d.servers != []) && (r.1.Some? ==> r.1.value < |d.servers|)
  {
    if |d.servers| > 0 then (d.(cursor := (d.cursor + 1) % |d.servers|), Some(d.cursor)) else (d, None)
  }

  // ---------- the lists of paths ----------

  /** Where in the list the path first is; past the end if nowhere. */
  function FirstIndex(paths: seq<Path>, path: Path, start: nat): (i: nat)
    requires start <= |paths|
    ensures start <= i <= |paths| && (i < |paths| ==> paths[i] == path)
    ensures forall j :: start <= j < i ==> paths[j] != path
    decreases |paths| - start
  {
    if start == |paths| || paths[start] == path then start else FirstIndex(paths, path, start + 1)
  }

  /** `remove_path_from_ss_info`. */
  function RemovePath(paths: seq<Path>, path: Path): seq<Path> {
    var i := FirstIndex(paths, path, 0);
    if i < |paths| then Without(paths, i) else paths
  }

  function AddPath(paths: seq<Path>, path: Path): seq<Path> {
    if |paths| < MAX_ACCESSIBLE_PATHS then paths + [path] else paths
  }

  function Enter(d: Naming, v: Srv, path: Path): (r: Naming)
    requires Sane(d) && v < |d.servers|
    ensures Sane(r)
  {
    d.(trie := d.trie[path := v],
       servers := d.servers[v := d.servers[v].(paths := AddPath(d.servers[v].paths, path))])
  }

  // ---------- the requests ----------

  function InsertAll(trie: map<Path, Srv>, paths: seq<Path>, v: Srv): (r: map<Path, Srv>)
    ensures forall p :: p in r <==> p in trie || p in paths
    ensures forall p :: p in r ==> r[p] == if p in paths then v else trie[p]
  {
    if paths == [] then trie
    else
      assert paths == paths[..|paths| - 1] + [paths[|paths| - 1]];
      InsertAll(trie, paths[..|paths| - 1], v)[paths[|paths| - 1] := v]
  }

  lemma InsertAllNext(trie: map<Path, Srv>, paths: seq<Path>, i: nat, v: Srv)
    requires i < |paths|
    ensures InsertAll(trie, paths[..i + 1], v) == InsertAll(trie, paths[..i], v)[paths[i] := v]
  {
    assert paths[..i + 1][..i] == paths[..i];
  }

  function Register(d: Naming, info: SsInfo, paths: seq<Path>): (r: (Naming, Response))
    requires Sane(d)
    ensures Sane(r.0)
  {
    if |d.servers| < MAX_SS then
      (d.(servers := d.servers + [Record(info, paths)], trie := InsertAll(d.trie, paths, |d.servers|)), ACK)
    else (d, Nack(SS_UNAVAILABLE))
  }

  /** The first ten mapped paths in byte order. */
  ghost predicate Lists(d: Naming, r: Response) {
    exists paths :: IsFirst(paths, d.trie.Keys, MAX_ACCESSIBLE_PATHS) && r == ACK.(data := Lines(paths))
  }

  function Create(d: Naming, path: Path, reply: Reply): (r: (Naming, Response))
    requires Sane(d)
    ensures Sane(r.0)
  {
    if path in d.trie then (d, Nack(FILE_EXISTS)) else Place(d, path, reply)
  }

  /** The next server in turn is asked to store `path`, and on success the path is mapped to it. */
  function Place(d: Naming, path: Path, reply: Reply): (r: (Naming, Response))
    requires Sane(d)
    ensures Sane(r.0)
  {
    var (d1, v) := Pick(d);
    match v
    case None => (d1, Nack(SS_UNAVAILABLE))
    case Some(v) => (if Succeeded(reply) then Enter(d1, v, path) else d1, Relayed(reply))
  }

  function Delete(d: Naming, path: Path, reply: Reply): (r: (Naming, Response))
    requires Sane(d)
    ensures Sane(r.0)
  {
    if path !in d.trie then (d, Nack(FILE_NOT_FOUND))
    else if !Succeeded(reply) then (d, Relayed(reply))
    else
      var v := d.trie[path];
      (d.(trie := d.trie - {path}, cache := Remove(d.cache, path),
          servers := d.servers[v := d.servers[v].(paths := RemovePath(d.servers[v].paths, path))]), ACK)
  }

  function Copy(d: Naming, from: Path, to: Path, reply: Reply): (r: (Naming, Response))
    requires Sane(d)
    ensures Sane(r.0)
  {
    if from !in d.trie then (d, Nack(FILE_NOT_FOUND))
    else if to in d.trie then (d, Relayed(reply))
    else Place(d, to, reply)
  }

  /** What the trie alone would answer. */
  function Located(d: Naming, path: Path): Response
    requires Sane(d)
  {
    if path in d.trie then Directed(d.servers[d.trie[path]].info) else Nack(FILE_NOT_FOUND)
  }

  function Directed(info: SsInfo): Response {
    Response(true, SUCCESS, info.ip, info.clientPort, [])
  }

  /** READ, WRITE and GET_FILE_INFO. */
  function Locate(d: Naming, path: Path): (r: (Naming, Response))
    requires Sane(d)
    ensures Sane(r.0)
  {
    var (cache, hit) := Get(d.cache, path);
    match hit
    case Some(info) => (d.(cache := cache), Directed(info))
    case None =>
      if path in d.trie then
        var info := d.servers[d.trie[path]].info;
        (d.(cache := Put(cache, path, info)), Directed(info))
      else (d.(cache := cache), Nack(FILE_NOT_FOUND))
  }

  // ---------- one request ----------

  datatype Command =
    | RegisterSs(info: SsInfo, paths: seq<Path>) | ListPaths | CreateFile(path: Path, kind: FileKind)
    | DeleteFile(path: Path) | CopyFile(path: Path, path2: Path) | LocateFile(path: Path) | OtherOperation

  /** `reply` is what came of passing the command on, if it was. */
  datatype Event = Event(command: Command, reply: Reply, response: Response)

  function Handle(d: Naming, c: Command, reply: Reply): (r: (Naming, Response))
    requires Sane(d)
    ensures Sane(r.0)
  {
    match c
    case RegisterSs(info, paths) => Register(d, info, paths)
    case ListPaths => (d, ACK)
    case CreateFile(path, _) => Create(d, path, reply)
    case DeleteFile(path) => Delete(d, path, reply)
    case CopyFile(from, to) => Copy(d, from, to, reply)
    case LocateFile(path) => Locate(d, path)
    case OtherOperation => (d, Nack(INVALID_OPERATION))
  }

  /** A request served from beginning to end. A message has room for ten paths. */
  ghost predicate Serves(d: Naming, d': Naming, e: Event)
    requires Sane(d)
  {
    && d' == Handle(d, e.command, e.reply).0
    && (e.command.RegisterSs? ==> |e.command.paths| <= MAX_ACCESSIBLE_PATHS)
    && if e.command.ListPaths? then Lists(d, e.response) else e.response == Handle(d, e.command, e.reply).1
  }

  /** Whole requests, one after the other. */
  ghost predicate Serving(ds: seq<Naming>, es: seq<Event>) {
    && |ds| == |es| + 1 && (forall k :: 0 <= k < |ds| ==> Sane(ds[k]))
    && forall k :: 0 <= k < |es| ==> Serves(ds[k], ds[k + 1], es[k])
  }

  ghost predicate IsRun(ds: seq<Naming>, es: seq<Event>) {
    Serving(ds, es) && ds[0] == Start()
  }
}
