/** What reading, writing and copying mean together. */
module FileCopies {
  import opened Paths
  import opened Protocol
  import opened RwLocks
  import opened Linearizability
  import opened FileStore
  import opened FileInvariant
  import opened FileTheorems

  /** The disks just before the `k`th operation took effect. */
  ghost function Before(s: State, init: Disk, k: nat): Disk
    requires k <= |s.rec.lin|
  {
    Replay(Files(init), s.rec.lin[..k])
  }

  /** `t` read `data`, the beginning of what `from` held at moment `i` of the copy, and at the later moment `j` the
      request `child`, sent after the read, stored exactly that at `to`. */
  ghost predicate Copied(s: State, init: Disk, t: Tid, child: Tid, from: (Srv, Path), to: (Srv, Path), i: nat, j: nat)
  {
    && i < j < |s.rec.lin| && t in s.rec.calls && child in s.rec.calls
    && s.rec.calls[t].start <= i < s.rec.calls[child].start <= j
    && IsFile(Before(s, init, i), from)
    && var data := Cut(Before(s, init, i)[from].bytes);
       && s.rec.lin[i] == Entry(t, Op(from.0, from.1, Read), Res(SUCCESS, data, 0, Unknown))
       && s.rec.lin[j] == Entry(child, Op(to.0, to.1, Write(data)), Res(SUCCESS, [], |data|, Unknown))
       && Before(s, init, j + 1) == Before(s, init, j)[to := File(data)]
  }

  lemma SawLegally(s: State, init: Disk, t: Tid, o: Op, code: Code) returns (i: nat)
    requires RecOk(s, init) && Saw(s.rec, t, o, code)
    ensures i < |s.rec.lin| && s.rec.calls[t].point == Some(i) && s.rec.calls[t].start <= i
    ensures s.rec.lin[i].call == t && s.rec.lin[i].op == o && s.rec.lin[i].res.code == code
    ensures Legal(Before(s, init, i), o, s.rec.lin[i].res)
    ensures Before(s, init, i + 1) == Effect(Before(s, init, i), o, s.rec.lin[i].res)
  {
    i := s.rec.calls[t].point.value;
    assert CallOk(s.rec, t);
    assert s.rec.lin[..i + 1][..i] == s.rec.lin[..i];
  }

  /** A COPY that reports success has copied one moment's content, cut to what a message holds. */
  lemma CopyIsFaithful(run: seq<State>, init: Disk, n: nat, k: nat, t: Tid)
    requires IsRun(run, init, n) && k < |run| && t in run[k].tasks
    requires
      var task := run[k].tasks[t];
      !task.relay && task.req.copyTo.Some? && task.phase == Finished(SUCCESS)
    ensures exists child, i, j ::
              Copied(run[k], init, t, child, Key(run[k].tasks[t]), run[k].tasks[t].req.copyTo.value, i, j)
  {
    RunKeepsInv(run, init, n, k);
    var s := run[k];
    assert OutcomeOk(s, t) && TaskOk(s, t, init);
    var child :| IsChild(s, t, child) && s.tasks[child].phase == Finished(SUCCESS);
    var o := Op(s.tasks[t].req.srv, s.tasks[t].req.path, Read);
    var i := SawLegally(s, init, t, o, SUCCESS);
    assert OutcomeOk(s, child);
    var j := SawLegally(s, init, child, OpOf(s.tasks[child].req), SUCCESS);
    WholeWrite(s, init, i, j, t, child);
    assert Copied(s, init, t, child, Key(s.tasks[t]), s.tasks[t].req.copyTo.value, i, j);
  }

  lemma WholeWrite(s: State, init: Disk, i: nat, j: nat, t: Tid, child: Tid)
    requires i < |s.rec.lin| && j < |s.rec.lin| && IsChild(s, t, child) && !s.tasks[t].relay
    requires s.rec.calls[t].point == Some(i) && s.rec.lin[i].res.code == SUCCESS
    requires s.tasks[t].req.copyTo.Some? && s.tasks[t].req.op == Read
    requires Legal(Before(s, init, i), OpOf(s.tasks[t].req), s.rec.lin[i].res)
    requires Legal(Before(s, init, j), OpOf(s.tasks[child].req), s.rec.lin[j].res) && s.rec.lin[j].res.code == SUCCESS
    ensures IsFile(Before(s, init, i), Key(s.tasks[t]))
    ensures
      var data := Cut(Before(s, init, i)[Key(s.tasks[t])].bytes);
      && s.rec.lin[i].res == Res(SUCCESS, data, 0, Unknown)
      && s.tasks[child].req.op == Write(data)
      && s.rec.lin[j].res == Res(SUCCESS, [], |data|, Unknown)
      && Effect(Before(s, init, j), OpOf(s.tasks[child].req), s.rec.lin[j].res)
         == Before(s, init, j)[s.tasks[t].req.copyTo.value := File(data)]
  {
    var data := s.tasks[t].buf;
    assert data[..|data|] == data;
  }

  /** The request `child` did `o`, successfully, at moment `i`. */
  ghost predicate Performed(s: State, init: Disk, child: Tid, o: Op, i: nat) {
    && i < |s.rec.lin| && child in s.rec.calls && s.rec.calls[child].start <= i
    && s.rec.lin[i].call == child && s.rec.lin[i].op == o && s.rec.lin[i].res.code == SUCCESS
    && Legal(Before(s, init, i), o, s.rec.lin[i].res)
    && Before(s, init, i + 1) == Effect(Before(s, init, i), o, s.rec.lin[i].res)
  }

  /** When the naming server is told that a CREATE or DELETE succeeded, it has been done at the storage server. */
  lemma ForwardedIsPerformed(run: seq<State>, init: Disk, n: nat, k: nat, t: Tid) returns (child: Tid, i: nat)
    requires IsRun(run, init, n) && k < |run| && t in run[k].tasks && run[k].tasks[t].relay
    requires run[k].tasks[t].phase == Finished(SUCCESS) && run[k].tasks[t].req.copyTo.None?
    ensures Performed(run[k], init, child, OpOf(run[k].tasks[t].req), i)
  {
    child := ForwardedTo(run, init, n, k, t);
    i := PerformedBy(run, init, n, k, child);
  }

  lemma ForwardedTo(run: seq<State>, init: Disk, n: nat, k: nat, t: Tid) returns (child: Tid)
    requires IsRun(run, init, n) && k < |run| && t in run[k].tasks && run[k].tasks[t].relay
    requires run[k].tasks[t].phase == Finished(SUCCESS)
    ensures child in run[k].tasks && run[k].tasks[child].req == run[k].tasks[t].req
    ensures !run[k].tasks[child].relay && run[k].tasks[child].phase == Finished(SUCCESS)
  {
    RunKeepsInv(run, init, n, k);
    assert OutcomeOk(run[k], t);
    child :| IsChild(run[k], t, child) && run[k].tasks[child].phase == Finished(SUCCESS);
  }

  lemma PerformedBy(run: seq<State>, init: Disk, n: nat, k: nat, t: Tid) returns (i: nat)
    requires IsRun(run, init, n) && k < |run| && t in run[k].tasks && !run[k].tasks[t].relay
    requires run[k].tasks[t].phase == Finished(SUCCESS) && run[k].tasks[t].req.copyTo.None?
    ensures Performed(run[k], init, t, OpOf(run[k].tasks[t].req), i)
  {
    RunKeepsInv(run, init, n, k);
    assert OutcomeOk(run[k], t);
    i := SawLegally(run[k], init, t, OpOf(run[k].tasks[t].req), SUCCESS);
  }

  /** When it is told that a COPY succeeded, the copy has been made, from one storage server to the other. */
  lemma ForwardedCopyIsFaithful(run: seq<State>, init: Disk, n: nat, k: nat, t: Tid)
    returns (reader: Tid, writer: Tid, i: nat, j: nat)
    requires IsRun(run, init, n) && k < |run| && t in run[k].tasks && run[k].tasks[t].relay
    requires run[k].tasks[t].phase == Finished(SUCCESS) && run[k].tasks[t].req.copyTo.Some?
    ensures Copied(run[k], init, reader, writer, Key(run[k].tasks[t]), run[k].tasks[t].req.copyTo.value, i, j)
  {
    reader := ForwardedTo(run, init, n, k, t);
    CopyIsFaithful(run, init, n, k, reader);
    writer, i, j :|
      Copied(run[k], init, reader, writer, Key(run[k].tasks[reader]), run[k].tasks[reader].req.copyTo.value, i, j);
  }

  /** The copy is the whole source exactly if that fitted into a message. */
  lemma CopiedWhole(s: State, init: Disk, t: Tid, child: Tid, from: (Srv, Path), to: (Srv, Path), i: nat, j: nat)
    requires Copied(s, init, t, child, from, to, i, j)
    ensures Before(s, init, j + 1)[to] == Before(s, init, i)[from]
       <==> |Before(s, init, i)[from].bytes| < MAX_DATA_SIZE
  {
    var bytes := Before(s, init, i)[from].bytes;
    assert |Cut(bytes)| == |bytes| <==> |bytes| < MAX_DATA_SIZE;
  }

  // ---------- reading what was written ----------

  /** The operation leaves the file alone. */
  predicate Spares(e: Entry<Op, Res>, key: (Srv, Path)) {
    (e.op.srv, e.op.path) != key || !Exclusive(e.op.op)
  }

  lemma {:induction false} SparedFilesStay(init: Disk, lin: seq<Entry<Op, Res>>, i: nat, j: nat, key: (Srv, Path))
    requires i <= j <= |lin| && forall k :: i <= k < j ==> Spares(lin[k], key)
    ensures SameAt(Replay(Files(init), lin[..i]), Replay(Files(init), lin[..j]), key)
  {
    if i < j {
      SparedFilesStay(init, lin, i, j - 1, key);
      assert lin[..j][..j - 1] == lin[..j - 1] && Spares(lin[j - 1], key);
    }
  }

  /** A successful read after a successful write, with no change to that file between, returns what was written, up
      to what a message holds. */
  lemma ReadsLastWrite(init: Disk, lin: seq<Entry<Op, Res>>, i: nat, j: nat)
    requires LegalRun(Files(init), lin) && i < j < |lin|
    requires lin[i].op.op.Write? && lin[i].res.code == SUCCESS
    requires lin[j].op == lin[i].op.(op := Read) && lin[j].res.code == SUCCESS
    requires forall k :: i < k < j ==> Spares(lin[k], (lin[i].op.srv, lin[i].op.path))
    ensures lin[j].res.data == Cut(lin[i].op.op.data)
    ensures lin[j].res.data == lin[i].op.op.data <==> |lin[i].op.op.data| < MAX_DATA_SIZE
  {
    var key, data := (lin[i].op.srv, lin[i].op.path), lin[i].op.op.data;
    SparedFilesStay(init, lin, i + 1, j, key);
    assert lin[..i + 1][..i] == lin[..i];
    assert data[..|data|] == data;
    assert Files(init).legal(Replay(Files(init), lin[..i]), lin[i].op, lin[i].res);
    assert Files(init).legal(Replay(Files(init), lin[..j]), lin[j].op, lin[j].res);
  }

  // ---------- copies of copies ----------

  lemma CutTwice(bytes: seq<Byte>)
    ensures Cut(Cut(bytes)) == Cut(bytes) && |Cut(bytes)| < MAX_DATA_SIZE && Cut(bytes) <= bytes
  {
  }

  /** One whole copy: the effect of the write it ends in, with what the read it begins with returned. */
  function CopyOnce(d: Disk, from: (Srv, Path), to: (Srv, Path)): Disk {
    if !IsFile(d, from) || IsDir(d, to) then d
    else
      var data := Cut(d[from].bytes);
      Effect(d, Op(to.0, to.1, Write(data)), Res(SUCCESS, [], |data|, Unknown))
  }

  /** The disks after copying `places[0]` to `places[1]`, that to `places[2]` and so on. */
  function CopyAlong(d: Disk, places: seq<(Srv, Path)>): Disk
    decreases |places|
  {
    if |places| < 2 then d else CopyAlong(CopyOnce(d, places[0], places[1]), places[1..])
  }

  /** Any chain of copies, even one that returns to where it was, is one truncation. */
  lemma {:induction false} CopyChains(d: Disk, places: seq<(Srv, Path)>)
    requires |places| >= 2 && IsFile(d, places[0]) && forall i :: 0 <= i < |places| ==> !IsDir(d, places[i])
    ensures IsFile(CopyAlong(d, places), places[|places| - 1])
    ensures CopyAlong(d, places)[places[|places| - 1]].bytes == Cut(d[places[0]].bytes)
    decreases |places|
  {
    var data := Cut(d[places[0]].bytes);
    assert data[..|data|] == data;
    CutTwice(d[places[0]].bytes);
    if |places| > 2 { CopyChains(CopyOnce(d, places[0], places[1]), places[1..]); }
  }

  /** What a faithful copy did to the disks of the two moments at which it took effect. */
  lemma CopiedIsCopyOnce(s: State, init: Disk, t: Tid, child: Tid, from: (Srv, Path), to: (Srv, Path), i: nat, j: nat)
    requires Copied(s, init, t, child, from, to, i, j) && LegalRun(Files(init), s.rec.lin)
    requires SameAt(Before(s, init, i), Before(s, init, j), from)
    ensures Before(s, init, j + 1) == CopyOnce(Before(s, init, j), from, to)
  {
    var data := Cut(Before(s, init, i)[from].bytes);
    assert data[..|data|] == data;
    assert Files(init).legal(Before(s, init, j), s.rec.lin[j].op, s.rec.lin[j].res);
  }
}
