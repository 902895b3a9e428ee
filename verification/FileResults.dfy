/** What an operation on a file answers after an earlier one, with no change to that file between. */
module FileResults {
  import opened Paths
  import opened Protocol
  import opened RwLocks
  import opened Linearizability
  import opened FileStore
  import opened FileInvariant
  import opened FileTheorems
  import opened FileCopies

  /** A read, an enquiry, or an operation on another file. */
  predicate Elsewhere(e: Entry<Op, Res>, srv: Srv, path: Path) {
    e.op.srv != srv || e.op.path != path || e.op.op.Read? || e.op.op.Info?
  }

  /** Operation `j` is on the same file as `i`, and none between changes it. */
  ghost predicate Follow(init: Disk, lin: seq<Entry<Op, Res>>, i: nat, j: nat) {
    && LegalRun(Files(init), lin) && i < j < |lin|
    && lin[j].op.srv == lin[i].op.srv && lin[j].op.path == lin[i].op.path
    && forall k :: i < k < j ==> Elsewhere(lin[k], lin[i].op.srv, lin[i].op.path)
  }

  /** The results of operations on a file that holds `bytes`. */
  ghost predicate OnFile(bytes: seq<Byte>, op: FileOp, r: Res) {
    match op
    case Read =>
      || r.code == FILE_NOT_FOUND
      || (r.code == SUCCESS && r.data == if |bytes| < 8192 then bytes else bytes[..8191])
    case Info => r.code == SUCCESS && r.kind == PlainFile && r.size == |bytes|
    case Write(data) => Written(data, r)
    case Create(kind) =>
      if kind == Unknown then r.code == INVALID_OPERATION
      else r.code == PERMISSION_DENIED || (kind == PlainFile && r.code == SUCCESS)
    case Delete => r.code == SUCCESS || r.code == PERMISSION_DENIED
  }

  /** A write that could open the file succeeds exactly if all of it got there. */
  ghost predicate Written(data: seq<Byte>, r: Res) {
    || r.code == PERMISSION_DENIED
    || (r.code == SUCCESS && r.size == |data|)
    || (r.code == ASYNC_WRITE_FAILED && r.size < |data|)
  }

  ghost predicate OnDirectory(op: FileOp, r: Res) {
    match op
    case Read => r.code == FILE_NOT_FOUND
    case Info => r.code == SUCCESS && r.kind == Directory
    case Write(data) => r.code == PERMISSION_DENIED
    case Create(kind) => r.code == if kind == Unknown then INVALID_OPERATION else PERMISSION_DENIED
    case Delete => r.code == SUCCESS || r.code == PERMISSION_DENIED
  }

  ghost predicate OnNothing(op: FileOp, r: Res) {
    match op
    case Read => r.code == FILE_NOT_FOUND
    case Info => r.code == FILE_NOT_FOUND
    case Write(data) => Written(data, r)
    case Create(kind) =>
      if kind == Unknown then r.code == INVALID_OPERATION else r.code == SUCCESS || r.code == PERMISSION_DENIED
    case Delete => r.code == FILE_NOT_FOUND
  }

  /** The results of operations on what is there. */
  ghost predicate OnContent(d: Disk, key: (Srv, Path), op: FileOp, r: Res) {
    if key !in d then OnNothing(op, r)
    else match d[key]
         case File(bytes) => OnFile(bytes, op, r)
         case Dir => OnDirectory(op, r)
  }

  lemma LegalOnContent(d: Disk, o: Op, r: Res)
    requires Legal(d, o, r)
    ensures OnContent(d, (o.srv, o.path), o.op, r)
  {
  }

  lemma Between(init: Disk, lin: seq<Entry<Op, Res>>, i: nat, j: nat)
    requires Follow(init, lin, i, j)
    ensures
      var key := (lin[i].op.srv, lin[i].op.path);
      var before, after := Replay(Files(init), lin[..i]), Replay(Files(init), lin[..j]);
      && SameAt(Effect(before, lin[i].op, lin[i].res), after, key)
      && Legal(before, lin[i].op, lin[i].res) && OnContent(after, key, lin[j].op.op, lin[j].res)
  {
    SparedFilesStay(init, lin, i + 1, j, (lin[i].op.srv, lin[i].op.path));
    assert lin[..i + 1][..i] == lin[..i];
    assert Files(init).legal(Replay(Files(init), lin[..i]), lin[i].op, lin[i].res);
    assert Files(init).legal(Replay(Files(init), lin[..j]), lin[j].op, lin[j].res);
    LegalOnContent(Replay(Files(init), lin[..j]), lin[j].op, lin[j].res);
  }

  /** After a write the file holds as much of the data as the write says it wrote, all of it exactly if it succeeded. */
  lemma AfterWrite(init: Disk, lin: seq<Entry<Op, Res>>, i: nat, j: nat)
    requires Follow(init, lin, i, j) && lin[i].op.op.Write? && lin[i].res.code != PERMISSION_DENIED
    ensures lin[i].res.size <= |lin[i].op.op.data|
    ensures lin[i].res.code == SUCCESS <==> lin[i].res.size == |lin[i].op.op.data|
    ensures OnFile(lin[i].op.op.data[..lin[i].res.size], lin[j].op.op, lin[j].res)
  {
    Between(init, lin, i, j);
  }

  /** A file that was created is empty, a directory is one. */
  lemma AfterCreate(init: Disk, lin: seq<Entry<Op, Res>>, i: nat, j: nat)
    requires Follow(init, lin, i, j) && lin[i].op.op.Create? && lin[i].res.code == SUCCESS
    ensures lin[i].op.op.kind != Unknown
    ensures if lin[i].op.op.kind == Directory then OnDirectory(lin[j].op.op, lin[j].res)
            else OnFile([], lin[j].op.op, lin[j].res)
  {
    Between(init, lin, i, j);
  }

  lemma AfterDelete(init: Disk, lin: seq<Entry<Op, Res>>, i: nat, j: nat)
    requires Follow(init, lin, i, j) && lin[i].op.op.Delete? && lin[i].res.code == SUCCESS
    ensures OnNothing(lin[j].op.op, lin[j].res)
  {
    Between(init, lin, i, j);
  }

  /** Nobody has changed the file since the start. */
  lemma Untouched(init: Disk, lin: seq<Entry<Op, Res>>, j: nat)
    requires LegalRun(Files(init), lin) && j < |lin|
    requires forall k :: 0 <= k < j ==> Elsewhere(lin[k], lin[j].op.srv, lin[j].op.path)
    ensures OnContent(init, (lin[j].op.srv, lin[j].op.path), lin[j].op.op, lin[j].res)
  {
    SparedFilesStay(init, lin, 0, j, (lin[j].op.srv, lin[j].op.path));
    assert Files(init).legal(Replay(Files(init), lin[..j]), lin[j].op, lin[j].res);
    LegalOnContent(Replay(Files(init), lin[..j]), lin[j].op, lin[j].res);
  }

  /** What failed otherwise has changed nothing. */
  lemma FailedChangesNothing(init: Disk, lin: seq<Entry<Op, Res>>, i: nat)
    requires LegalRun(Files(init), lin) && i < |lin|
    requires lin[i].res.code != SUCCESS && lin[i].res.code != ASYNC_WRITE_FAILED
    ensures Replay(Files(init), lin[..i + 1]) == Replay(Files(init), lin[..i])
  {
    assert lin[..i + 1][..i] == lin[..i];
    assert Files(init).legal(Replay(Files(init), lin[..i]), lin[i].op, lin[i].res);
  }
}
