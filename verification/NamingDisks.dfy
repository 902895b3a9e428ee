/** The naming server together with the storage servers' files: what is mapped exists, unless a reply was lost or a
    server advertised what it does not have. */
module NamingDisks {
  import opened Paths
  import opened Protocol
  import opened LruSpec
  import opened NamingSpec
  import Files = FileStore

  type Disk = Files.Disk

  /** `missing` are the files that a server advertised without having them, or whose deletion was performed but never
      confirmed, and that have not come since. */
  datatype World = World(names: Naming, disk: Disk, missing: set<(Srv, Path)>)

  /** A request to the naming server, or a client's operation on a file at a storage server. */
  datatype Move = Request(event: Event) | Direct(op: Files.Op)

  // ---------- passing a request on ----------

  predicate Unanswered(reply: Reply) {
    !reply.Answer?
  }

  /** A storage server is asked for `o`: either it never hears of it, or it performs it and answers, and the answer
      may be lost. */
  ghost predicate Exchanged(d: Disk, d': Disk, o: Files.Op, reply: Reply) {
    || (d' == d && Unanswered(reply))
    || exists r: Files.Res ::
         Files.Legal(d, o, r) && d' == Files.Effect(d, o, r) && (reply == Silent || reply == Answer(true, r.code))
  }

  /** A COPY at the source server: the read may fail, the other server may be out of reach, its reply may be lost, or
      it answers. */
  ghost predicate CopyExchanged(d: Disk, d': Disk, from: (Srv, Path), to: (Srv, Path), reply: Reply) {
    || (d' == d && Unanswered(reply))
    || exists r: Files.Res ::
         && Files.Legal(d, Files.Op(from.0, from.1, Files.Read), r)
         && if r.code != SUCCESS then d' == d && (reply == Silent || reply == Answer(false, r.code))
            else HandedOn(d, d', to, r.data, reply)
  }

  ghost predicate HandedOn(d: Disk, d': Disk, to: (Srv, Path), data: seq<Byte>, reply: Reply) {
    || (d' == d && (reply == Silent || reply == Answer(false, SS_UNAVAILABLE) || reply == Answer(false, NETWORK_ERROR)))
    || exists r: Files.Res ::
         var o := Files.Op(to.0, to.1, Files.Write(data));
         && Files.Legal(d, o, r) && d' == Files.Effect(d, o, r)
         && (reply == Silent || reply == Answer(false, NETWORK_ERROR) || reply == Answer(r.code == SUCCESS, r.code))
  }

  // ---------- steps ----------

  /** The server a new path goes to. */
  function Turn(d: Naming): Option<Srv>
    requires Sane(d)
  {
    Pick(d).1
  }

  ghost predicate Stored(w: World, w': World, e: Event)
    requires Sane(w.names)
  {
    match e.command
    case CreateFile(path, kind) =>
      if path in w.names.trie || Turn(w.names).None? then w'.disk == w.disk
      else Exchanged(w.disk, w'.disk, Files.Op(Turn(w.names).value, path, Files.Create(kind)), e.reply)
    case DeleteFile(path) =>
      if path !in w.names.trie then w'.disk == w.disk
      else Exchanged(w.disk, w'.disk, Files.Op(w.names.trie[path], path, Files.Delete), e.reply)
    case CopyFile(from, to) =>
      if from !in w.names.trie || (to !in w.names.trie && Turn(w.names).None?) then w'.disk == w.disk
      else
        var v := if to in w.names.trie then w.names.trie[to] else Turn(w.names).value;
        CopyExchanged(w.disk, w'.disk, (w.names.trie[from], from), (v, to), e.reply)
    case _ => w'.disk == w.disk
  }

  ghost predicate Acts(w: World, w': World, m: Move)
    requires Sane(w.names)
  {
    match m
    case Request(e) =>
      && Serves(w.names, w'.names, e) && Stored(w, w', e)
      && w'.missing == (w.missing + LostBy(w, w', e) + Advertised(w, e)) - w'.disk.Keys
    case Direct(o) =>
      && w'.names == w.names && w'.missing == w.missing - w'.disk.Keys && (o.op.Read? || o.op.Info? || o.op.Write?)
      && exists r: Files.Res :: Files.Legal(w.disk, o, r) && w'.disk == Files.Effect(w.disk, o, r)
  }

  function LostBy(w: World, w': World, e: Event): set<(Srv, Path)> {
    if e.command.DeleteFile? && e.command.path in w.names.trie && !Succeeded(e.reply) then
      var key := (w.names.trie[e.command.path], e.command.path);
      if key in w.disk && key !in w'.disk then {key} else {}
    else {}
  }

  /** What an accepted registration maps; nobody checks that it is there. */
  function Advertised(w: World, e: Event): set<(Srv, Path)> {
    if e.command.RegisterSs? && |w.names.servers| < MAX_SS then
      set p | p in e.command.paths :: (|w.names.servers|, p)
    else {}
  }

  ghost predicate IsRun(ws: seq<World>, ms: seq<Move>) {
    && |ws| == |ms| + 1 && ws[0].names == Start() && ws[0].missing == {}
    && (forall k :: 0 <= k < |ws| ==> Sane(ws[k].names))
    && forall k :: 0 <= k < |ms| ==> Acts(ws[k], ws[k + 1], ms[k])
  }

  // ---------- what is mapped exists ----------

  /** A mapped path is on its server's disk or missing, not both. */
  predicate Accounted(w: World, path: Path)
    requires path in w.names.trie
  {
    var key := (w.names.trie[path], path);
    key in w.disk <==> key !in w.missing
  }

  predicate AllAccounted(w: World) {
    && (forall path :: path in w.names.trie ==> Accounted(w, path))
    && forall key :: key in w.missing ==> key !in w.disk
  }

  /** Only a DELETE takes a file away, and only its own. */
  lemma ExchangeKeeps(d: Disk, d': Disk, o: Files.Op, reply: Reply, key: (Srv, Path))
    requires Exchanged(d, d', o, reply) && key in d && (o.op.Delete? ==> key != (o.srv, o.path))
    ensures key in d'
  {
  }

  /** An acknowledged success has happened. */
  lemma AckedCreateExists(d: Disk, d': Disk, v: Srv, path: Path, kind: FileKind)
    requires Exchanged(d, d', Files.Op(v, path, Files.Create(kind)), Answer(true, SUCCESS))
    ensures (v, path) in d' && d'[(v, path)] == if kind == Directory then Files.Dir else Files.File([])
  {
  }

  lemma AckedCopyExists(d: Disk, d': Disk, from: (Srv, Path), to: (Srv, Path))
    requires CopyExchanged(d, d', from, to, Answer(true, SUCCESS))
    ensures Files.IsFile(d, from) && to in d' && d'[to] == Files.File(Files.Cut(d[from].bytes))
  {
    var data := Files.Cut(d[from].bytes);
    assert data[..|data|] == data;
  }

  /** Apart from registrations, the trie is never extended without an ACK with SUCCESS, and then the file is there. */
  lemma TrieGrowsOnAckOnly(w: World, w': World, e: Event, path: Path)
    requires Sane(w.names) && Acts(w, w', Request(e)) && path in w'.names.trie
    requires path in w.names.trie ==> w'.names.trie[path] != w.names.trie[path]
    ensures
      if e.command.RegisterSs? then (w'.names.trie[path], path) in Advertised(w, e)
      else
        && Succeeded(e.reply) && path !in w.names.trie && (w'.names.trie[path], path) in w'.disk
        && ((e.command.CreateFile? && e.command.path == path) || (e.command.CopyFile? && e.command.path2 == path))
  {
    match e.command
    case CreateFile(_, _) => CreateGrowsOnAckOnly(w, w', e, path);
    case CopyFile(_, _) => CopyGrowsOnAckOnly(w, w', e, path);
    case _ =>
  }

  lemma CreateGrowsOnAckOnly(w: World, w': World, e: Event, path: Path)
    requires Sane(w.names) && Acts(w, w', Request(e)) && e.command.CreateFile? && path in w'.names.trie
    requires path in w.names.trie ==> w'.names.trie[path] != w.names.trie[path]
    ensures (w'.names.trie[path], path) in w'.disk
    ensures Succeeded(e.reply) && path !in w.names.trie && e.command.path == path
  {
    AckedCreateExists(w.disk, w'.disk, Turn(w.names).value, path, e.command.kind);
  }

  lemma CopyGrowsOnAckOnly(w: World, w': World, e: Event, path: Path)
    requires Sane(w.names) && Acts(w, w', Request(e)) && e.command.CopyFile? && path in w'.names.trie
    requires path in w.names.trie ==> w'.names.trie[path] != w.names.trie[path]
    ensures (w'.names.trie[path], path) in w'.disk
    ensures Succeeded(e.reply) && path !in w.names.trie && e.command.path2 == path
  {
    var from := e.command.path;
    AckedCopyExists(w.disk, w'.disk, (w.names.trie[from], from), (Turn(w.names).value, path));
  }

  /** Files go only by a DELETE of a mapped path. */
  lemma FilesStay(w: World, w': World, m: Move, key: (Srv, Path))
    requires Sane(w.names) && Acts(w, w', m) && key in w.disk && key !in w'.disk
    ensures m.Request? && m.event.command == DeleteFile(key.1)
    ensures key.1 in w.names.trie && w.names.trie[key.1] == key.0
    ensures Succeeded(m.event.reply) || key in w'.missing
  {
    match m
    case Direct(o) =>
    case Request(e) =>
      match e.command
      case CreateFile(path, kind) =>
        ExchangeKeeps(w.disk, w'.disk, Files.Op(Turn(w.names).value, path, Files.Create(kind)), e.reply, key);
      case DeleteFile(path) =>
        var o := Files.Op(w.names.trie[path], path, Files.Delete);
        if key != (o.srv, o.path) { ExchangeKeeps(w.disk, w'.disk, o, e.reply, key); }
      case _ =>
  }

  lemma ActsKeepAccounts(w: World, w': World, m: Move)
    requires Sane(w.names) && Sane(w'.names) && Acts(w, w', m) && AllAccounted(w)
    ensures AllAccounted(w')
  {
    forall path | path in w'.names.trie ensures Accounted(w', path) {
      var key := (w'.names.trie[path], path);
      if path in w.names.trie && w.names.trie[path] == key.0 {
        assert Accounted(w, path);
        if key in w.disk && key !in w'.disk {
          FilesStay(w, w', m, key);
          DeletedIsUnmapped(w, w', m.event, path);
        }
      } else {
        TrieGrowsOnAckOnly(w, w', m.event, path);
      }
    }
  }

  lemma DeletedIsUnmapped(w: World, w': World, e: Event, path: Path)
    requires Sane(w.names) && Acts(w, w', Request(e)) && e.command == DeleteFile(path)
    ensures Succeeded(e.reply) ==> path !in w'.names.trie
  {
  }

  /** In every run of requests, with any of them refused, unanswered or failing, a mapped path exists on its server
      exactly if it is not missing. */
  lemma {:induction false} MappedPathsExist(ws: seq<World>, ms: seq<Move>, k: nat)
    requires IsRun(ws, ms) && k < |ws|
    ensures AllAccounted(ws[k])
  {
    if k > 0 {
      MappedPathsExist(ws, ms, k - 1);
      assert Acts(ws[k - 1], ws[(k - 1) + 1], ms[k - 1]);
      ActsKeepAccounts(ws[k - 1], ws[k], ms[k - 1]);
    }
  }

  /** How a mapped path comes to be missing. */
  predicate GoesMissing(w: World, w': World, m: Move, key: (Srv, Path)) {
    Unconfirmed(w, w', m, key) || (m.Request? && key in Advertised(w, m.event) && key !in w'.disk)
  }

  lemma MissingNext(w: World, w': World, m: Move, key: (Srv, Path))
    requires Sane(w.names) && Acts(w, w', m)
    ensures key in w'.missing <==> key !in w'.disk && (key in w.missing || GoesMissing(w, w', m, key))
  {
  }

  /** That happened at moment `j`, and the file has not been there since. */
  ghost predicate MissingSince(ws: seq<World>, ms: seq<Move>, j: nat, k: nat, key: (Srv, Path))
    requires j < k < |ws| && |ws| == |ms| + 1
  {
    GoesMissing(ws[j], ws[j + 1], ms[j], key) && forall i :: j < i <= k ==> key !in ws[i].disk
  }

  ghost predicate HasCause(ws: seq<World>, ms: seq<Move>, k: nat, key: (Srv, Path))
    requires k < |ws| && |ws| == |ms| + 1
  {
    exists j :: 0 <= j < k && MissingSince(ws, ms, j, k, key)
  }

  lemma CauseNext(ws: seq<World>, ms: seq<Move>, k: nat, key: (Srv, Path))
    requires k + 1 < |ws| && |ws| == |ms| + 1
    ensures HasCause(ws, ms, k + 1, key)
       <==> key !in ws[k + 1].disk && (HasCause(ws, ms, k, key) || GoesMissing(ws[k], ws[k + 1], ms[k], key))
  {
    var n := k + 1;
    if j :| 0 <= j < n && MissingSince(ws, ms, j, n, key) {
      if j < k { assert MissingSince(ws, ms, j, k, key); }
    }
    if key !in ws[k + 1].disk {
      if j :| 0 <= j < k && MissingSince(ws, ms, j, k, key) { assert MissingSince(ws, ms, j, n, key); }
      if GoesMissing(ws[k], ws[k + 1], ms[k], key) { assert MissingSince(ws, ms, k, n, key); }
    }
  }

  ghost predicate Explained(ws: seq<World>, ms: seq<Move>, k: nat, key: (Srv, Path))
    requires k < |ws| && |ws| == |ms| + 1
  {
    key in ws[k].missing <==> HasCause(ws, ms, k, key)
  }

  lemma ExplainedNext(ws: seq<World>, ms: seq<Move>, k: nat, key: (Srv, Path))
    requires IsRun(ws, ms) && k < |ms| && Explained(ws, ms, k, key)
    ensures Explained(ws, ms, k + 1, key)
  {
    assert Acts(ws[k], ws[k + 1], ms[k]);
    MissingNext(ws[k], ws[k + 1], ms[k], key);
    CauseNext(ws, ms, k, key);
  }

  /** What `missing` records: deletions that were performed and never confirmed, and advertised files that are not
      there, each without a return since. */
  lemma MissingHasCause(ws: seq<World>, ms: seq<Move>, k: nat, key: (Srv, Path))
    requires IsRun(ws, ms) && k < |ws|
    ensures key in ws[k].missing <==> exists j :: 0 <= j < k && MissingSince(ws, ms, j, k, key)
  {
    for j := 0 to k
      invariant Explained(ws, ms, j, key)
    {
      ExplainedNext(ws, ms, j, key);
    }
    assert HasCause(ws, ms, k, key) <==> exists j :: 0 <= j < k && MissingSince(ws, ms, j, k, key);
  }

  /** The file was mapped, went, and stayed mapped because the reply was lost. */
  predicate Unconfirmed(w: World, w': World, m: Move, key: (Srv, Path)) {
    && m.Request? && m.event.command == DeleteFile(key.1) && m.event.reply == Silent
    && key.1 in w.names.trie && w.names.trie[key.1] == key.0 && key in w.disk && key !in w'.disk
    && m.event.response == Nack(NETWORK_ERROR) && w'.names.trie == w.names.trie
  }

  // ---------- while a mapped path is missing ----------

  /** Mapped, but not there. */
  predicate Wedged(w: World, path: Path) {
    path in w.names.trie && (w.names.trie[path], path) !in w.disk
  }

  /** A new server advertises the path, or a file is written where the path is mapped to. */
  predicate Repairs(w: World, m: Move, path: Path) {
    match m
    case Direct(o) => path in w.names.trie && (o.srv, o.path) == (w.names.trie[path], path) && o.op.Write?
    case Request(e) =>
      || (e.command.RegisterSs? && path in e.command.paths)
      || (e.command.CopyFile? && e.command.path2 == path)
  }

  /** The path can be neither deleted nor created: the storage server no longer has it, the naming server still
      does. */
  predicate Refuses(e: Event, path: Path) {
    && (e.command == DeleteFile(path) ==>
          e.response == Nack(if e.reply.Answer? then FILE_NOT_FOUND
                             else if e.reply.Refused? then SS_UNAVAILABLE else NETWORK_ERROR))
    && (e.command.CreateFile? && e.command.path == path ==> e.response == Nack(FILE_EXISTS))
  }

  lemma WedgedStays(w: World, w': World, m: Move, path: Path)
    requires Sane(w.names) && Sane(w'.names) && Acts(w, w', m) && Wedged(w, path) && !Repairs(w, m, path)
    ensures Wedged(w', path) && w'.names.trie[path] == w.names.trie[path]
    ensures m.Request? ==> Refuses(m.event, path)
  {
    match m
    case Direct(o) =>
    case Request(e) =>
      match e.command
      case DeleteFile(p) =>
      case CreateFile(p, kind) =>
      case CopyFile(from, to) =>
      case _ =>
  }

  lemma MissingWedges(w: World, w': World, m: Move, path: Path)
    requires Sane(w.names) && Acts(w, w', m) && path in w'.names.trie
    requires GoesMissing(w, w', m, (w'.names.trie[path], path))
    ensures Wedged(w', path)
  {
  }

  lemma WedgedNext(ws: seq<World>, ms: seq<Move>, k: nat, path: Path)
    requires IsRun(ws, ms) && k < |ms| && Wedged(ws[k], path) && !Repairs(ws[k], ms[k], path)
    ensures Wedged(ws[k + 1], path) && (ms[k].Request? ==> Refuses(ms[k].event, path))
  {
    assert Acts(ws[k], ws[k + 1], ms[k]);
    WedgedStays(ws[k], ws[k + 1], ms[k], path);
  }

  lemma WedgedMeanwhile(ws: seq<World>, ms: seq<Move>, i: nat, j: nat, path: Path)
    requires IsRun(ws, ms) && i <= j < |ws| && Wedged(ws[i], path)
    requires forall k :: i <= k < j ==> !Repairs(ws[k], ms[k], path)
    ensures Wedged(ws[j], path)
  {
    for k := i to j
      invariant Wedged(ws[k], path)
    {
      WedgedNext(ws, ms, k, path);
    }
  }

  /** From the moment a mapped path goes missing on, until a write, a copy or a registration brings the file, every
      DELETE and every CREATE of the path is refused. */
  lemma MissingPathIsRefused(ws: seq<World>, ms: seq<Move>, i: nat, j: nat, path: Path)
    requires IsRun(ws, ms) && i < j < |ms| && path in ws[i + 1].names.trie
    requires GoesMissing(ws[i], ws[i + 1], ms[i], (ws[i + 1].names.trie[path], path))
    requires forall k :: i < k <= j ==> !Repairs(ws[k], ms[k], path)
    ensures ms[j].Request? ==> Refuses(ms[j].event, path)
  {
    assert Acts(ws[i], ws[i + 1], ms[i]);
    MissingWedges(ws[i], ws[i + 1], ms[i], path);
    WedgedMeanwhile(ws, ms, i + 1, j, path);
    WedgedNext(ws, ms, j, path);
  }

  // ---------- runs in which it goes wrong ----------

  /** A server registers with one path. */
  lemma OnePath(info: SsInfo, path: Path, disk: Disk) returns (ws: seq<World>, ms: seq<Move>)
    ensures IsRun(ws, ms) && |ms| == 1 && ms[0] == Request(Event(RegisterSs(info, [path]), Silent, ACK))
    ensures ws[0] == World(Start(), disk, {})
    ensures ws[1] == World(Naming([Record(info, [path])], map[path := 0], Empty(0), 0), disk, {(0, path)} - disk.Keys)
  {
    var w0, e := World(Start(), disk, {}), Event(RegisterSs(info, [path]), Silent, ACK);
    assert [path][..0] == [] && InsertAll(map[], [path], 0) == map[path := 0];
    assert Start().servers + [Record(info, [path])] == [Record(info, [path])];
    assert Advertised(w0, e) == {(0, path)};
    var w1 := World(Register(Start(), info, [path]).0, disk, {(0, path)} - disk.Keys);
    assert Acts(w0, w1, Request(e));
    ws, ms := [w0, w1], [Request(e)];
  }

  /** A server that advertises what it does not have: one request, and the path is mapped and not there. */
  lemma AdvertisedButAbsent(info: SsInfo, path: Path) returns (ws: seq<World>, ms: seq<Move>)
    ensures IsRun(ws, ms) && |ms| == 1 && ms[0].Request? && ms[0].event.response == ACK
    ensures GoesMissing(ws[0], ws[1], ms[0], (0, path)) && Wedged(ws[1], path)
  {
    ws, ms := OnePath(info, path, map[]);
  }

  lemma ActsNext(ws: seq<World>, ms: seq<Move>, w: World, m: Move)
    requires IsRun(ws, ms) && Sane(w.names) && Acts(ws[|ms|], w, m)
    ensures IsRun(ws + [w], ms + [m])
  {
    var ws', ms' := ws + [w], ms + [m];
    forall k | 0 <= k < |ms'| ensures Acts(ws'[k], ws'[k + 1], ms'[k]) {
      if k < |ms| { assert Acts(ws[k], ws[k + 1], ms[k]); }
    }
  }

  /** A DELETE that is performed and whose reply is lost. */
  lemma DeletionGoesUnconfirmed(info: SsInfo, path: Path) returns (ws: seq<World>, ms: seq<Move>)
    ensures IsRun(ws, ms) && |ms| == 2 && Unconfirmed(ws[1], ws[2], ms[1], (0, path)) && Wedged(ws[2], path)
  {
    ws, ms := OnePath(info, path, map[(0, path) := Files.File([])]);
    var w := ws[1];
    var o, r := Files.Op(0, path, Files.Delete), Files.Failure(SUCCESS);
    var m := Request(Event(DeleteFile(path), Silent, Nack(NETWORK_ERROR)));
    var w' := w.(disk := Files.Effect(w.disk, o, r), missing := {(0, path)});
    assert Files.Legal(w.disk, o, r) && Exchanged(w.disk, w'.disk, o, Silent);
    assert Acts(w, w', m);
    ActsNext(ws, ms, w', m);
    ws, ms := ws + [w'], ms + [m];
  }

  lemma CopySucceeds(d: Disk, from: (Srv, Path), to: (Srv, Path))
    requires Files.IsFile(d, from) && !Files.IsDir(d, to)
    ensures CopyExchanged(d, d[to := Files.File(Files.Cut(d[from].bytes))], from, to, Answer(true, SUCCESS))
  {
    var data := Files.Cut(d[from].bytes);
    var d' := d[to := Files.File(data)];
    assert data[..|data|] == data;
    assert Files.Legal(d, Files.Op(from.0, from.1, Files.Read), Files.Res(SUCCESS, data, 0, Unknown));
    var written := Files.Res(SUCCESS, [], |data|, Unknown);
    assert Files.Legal(d, Files.Op(to.0, to.1, Files.Write(data)), written);
    assert HandedOn(d, d', to, data, Answer(true, SUCCESS));
  }

  lemma AckedCopyActs(w: World, from: Path, to: Path, disk: Disk)
    requires Sane(w.names) && from in w.names.trie && to !in w.names.trie && w.names.servers != []
    requires CopyExchanged(w.disk, disk, (w.names.trie[from], from), (w.names.cursor, to), Answer(true, SUCCESS))
    ensures Acts(w, World(Copy(w.names, from, to, Answer(true, SUCCESS)).0, disk, w.missing - disk.Keys),
                 Request(Event(CopyFile(from, to), Answer(true, SUCCESS), ACK)))
  {
  }

  /** Any file of 8192 bytes or more can be copied, with success reported, to a copy that differs from it. */
  lemma LongFileIsCut(info: SsInfo, from: Path, to: Path, bytes: seq<Byte>) returns (ws: seq<World>, ms: seq<Move>)
    requires |bytes| >= MAX_DATA_SIZE && from != to
    ensures IsRun(ws, ms) && |ms| == 2 && ms[1] == Request(Event(CopyFile(from, to), Answer(true, SUCCESS), ACK))
    ensures ws[2].disk == map[(0, from) := Files.File(bytes), (0, to) := Files.File(bytes[..MAX_DATA_SIZE - 1])]
  {
    ws, ms := OnePath(info, from, map[(0, from) := Files.File(bytes)]);
    var w, ok := ws[1], Answer(true, SUCCESS);
    var m := Request(Event(CopyFile(from, to), ok, ACK));
    var disk := w.disk[(0, to) := Files.File(Files.Cut(bytes))];
    var w' := World(Copy(w.names, from, to, ok).0, disk, w.missing - disk.Keys);
    CopySucceeds(w.disk, (0, from), (0, to));
    AckedCopyActs(w, from, to, disk);
    ActsNext(ws, ms, w', m);
    ws, ms := ws + [w'], ms + [m];
  }
}
