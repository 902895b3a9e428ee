/** The steps inside an operation, where files change and operations take effect, keep the invariant. */
module FileEffects {
  import opened Paths
  import opened Protocol
  import opened RwLocks
  import opened Linearizability
  import opened FileStore
  import opened FileInvariant
  import opened FileSteps
  import LockSpec

  /** Nothing but the task's file changes, and not even that unless the operation is exclusive. */
  ghost predicate BodyMoves(s: State, s': State, t: Tid) {
    && OnlyTask(s, s', t) && s'.servers == s.servers && SameHoldings(s.tasks[t], s'.tasks[t])
    && Inside(s.tasks[t])
    && (forall key :: key != Key(s.tasks[t]) || !Exclusive(s.tasks[t].req.op) ==> SameAt(s.disk, s'.disk, key))
  }

  /** The file of a task that is inside its operation but has not begun to change it is as committed. */
  lemma CleanInside(s: State, init: Disk, t: Tid)
    requires Inv(s, init) && t in s.tasks && Inside(s.tasks[t]) && !Dirty(s.tasks[t], Key(s.tasks[t]))
    ensures SameAt(s.disk, Committed(s, init), Key(s.tasks[t]))
  {
    forall u | u in s.tasks ensures !Dirty(s.tasks[u], Key(s.tasks[t])) { OnlyOneIsDirty(s, init, t, u); }
  }

  lemma OnlyOneIsDirty(s: State, init: Disk, t: Tid, u: Tid)
    requires ServersOk(s) && TasksOk(s, init) && t in s.tasks && u in s.tasks
    requires Inside(s.tasks[t]) && !Dirty(s.tasks[t], Key(s.tasks[t]))
    ensures !Dirty(s.tasks[u], Key(s.tasks[t]))
  {
    if Dirty(s.tasks[u], Key(s.tasks[t])) {
      assert TaskOk(s, u, init);
      Excludes(s, init, u, t);
    }
  }

  /** The other tasks inside an operation do not see what `t` does to its file. */
  lemma OthersDoNotSee(s: State, s': State, t: Tid, u: Tid, init: Disk)
    requires ServersOk(s) && TasksOk(s, init) && BodyMoves(s, s', t)
    requires u in s.tasks && u != t && Inside(s.tasks[u])
    ensures SameAt(s.disk, s'.disk, Key(s.tasks[u]))
    ensures Key(s.tasks[u]) != Key(s.tasks[t]) || !Exclusive(s.tasks[t].req.op)
  {
    if Key(s.tasks[u]) == Key(s.tasks[t]) && Exclusive(s.tasks[t].req.op) { Excludes(s, init, t, u); }
  }

  // ---------- steps that do not take effect yet ----------

  lemma PartialDisk(s: State, s': State, t: Tid, init: Disk)
    requires DiskOk(s, init) && BodyMoves(s, s', t) && s'.rec == s.rec
    requires (s'.disk == s.disk && SameDirt(s.tasks[t], s'.tasks[t])) || Dirty(s'.tasks[t], Key(s.tasks[t]))
    ensures DiskOk(s', init)
  {
    forall key | forall u :: u in s'.tasks ==> !Dirty(s'.tasks[u], key)
      ensures SameAt(s'.disk, Committed(s', init), key)
    {
      assert !Dirty(s'.tasks[t], key);
      forall u | u in s.tasks ensures !Dirty(s.tasks[u], key) {
        assert !Dirty(s'.tasks[u], key);
        assert u == t && key == Key(s.tasks[t]) ==> !Dirty(s'.tasks[t], Key(s'.tasks[t]));
      }
      assert SameAt(s.disk, Committed(s, init), key) && SameAt(s.disk, s'.disk, key);
    }
  }

  lemma PartialKeepsInv(s: State, s': State, t: Tid, init: Disk)
    requires Inv(s, init) && BodyMoves(s, s', t) && s'.rec == s.rec
    requires (s'.disk == s.disk && SameDirt(s.tasks[t], s'.tasks[t])) || Dirty(s'.tasks[t], Key(s.tasks[t]))
    requires TaskOk(s', t, init) && OutcomeOk(s', t)
    ensures Inv(s', init)
  {
    assert Committed(s', init) == Committed(s, init) && Grows(s.rec, s'.rec);
    forall u | u in s.tasks && u != t && Inside(s.tasks[u])
      ensures SameAt(s.disk, s'.disk, Key(s.tasks[u]))
      ensures SameAt(Committed(s, init), Committed(s', init), Key(s.tasks[u]))
    {
      OthersDoNotSee(s, s', t, u, init);
    }
    ServersStay(s, s', t);
    OthersStay(s, s', t, init);
    PartialDisk(s, s', t, init);
  }

  // ---------- taking effect ----------

  ghost predicate EffectMoves(s: State, s': State, t: Tid, r: Res) {
    && BodyMoves(s, s', t) && t in s.rec.calls && s'.rec == TakeEffect(s.rec, t, r)
    && s'.tasks[t] == s.tasks[t].(phase := Enter2, res := r)
    && BeforeEffect(s.tasks[t])
    && (s.tasks[t].req.op == Read && r.code == SUCCESS ==> r.data == s.tasks[t].buf)
  }

  lemma EffectElsewhere(d: Disk, o: Op, r: Res, key: (Srv, Path))
    requires key != (o.srv, o.path) || !Exclusive(o.op)
    ensures SameAt(d, Effect(d, o, r), key)
  {
  }

  lemma EffectRecorded(s: State, s': State, t: Tid, r: Res, init: Disk)
    requires WellRecorded(s.rec) && t in s.tasks && TaskOk(s, t, init) && EffectMoves(s, s', t, r)
    ensures WellRecorded(s'.rec) && Grows(s.rec, s'.rec) && RecordOk(s'.rec, t, s'.tasks[t])
  {
    TakeEffectKeeps(s.rec, t, OpOf(s.tasks[t].req), r);
    EffectGrows(s, s', t, r);
  }

  lemma EffectGrows(s: State, s': State, t: Tid, r: Res)
    requires EffectMoves(s, s', t, r) && Pending(s.rec, t, OpOf(s.tasks[t].req))
    ensures Grows(s.rec, s'.rec) && RecordOk(s'.rec, t, s'.tasks[t])
  {
  }

  lemma EffectCommitted(s: State, s': State, t: Tid, r: Res, init: Disk)
    requires LegalRun(Files(init), s.rec.lin) && t in s.rec.calls && s'.rec == TakeEffect(s.rec, t, r)
    requires t in s.tasks && s.rec.calls[t].op == OpOf(s.tasks[t].req)
    requires Legal(Committed(s, init), OpOf(s.tasks[t].req), r)
    ensures LegalRun(Files(init), s'.rec.lin)
    ensures Committed(s', init) == Effect(Committed(s, init), OpOf(s.tasks[t].req), r)
  {
    LegalRunGrows(Files(init), s.rec, t, r);
  }

  lemma EffectDisk(s: State, s': State, t: Tid, r: Res, init: Disk)
    requires DiskOk(s, init) && EffectMoves(s, s', t, r)
    requires Committed(s', init) == Effect(Committed(s, init), OpOf(s.tasks[t].req), r)
    requires SameAt(s'.disk, Committed(s', init), Key(s.tasks[t]))
    ensures DiskOk(s', init)
  {
    var o := OpOf(s.tasks[t].req);
    forall key | forall u :: u in s'.tasks ==> !Dirty(s'.tasks[u], key)
      ensures SameAt(s'.disk, Committed(s', init), key)
    {
      if key != Key(s.tasks[t]) {
        forall u | u in s.tasks ensures !Dirty(s.tasks[u], key) {
          assert !Dirty(s'.tasks[u], key);
        }
        assert SameAt(s.disk, Committed(s, init), key) && SameAt(s.disk, s'.disk, key);
        EffectElsewhere(Committed(s, init), o, r, key);
      }
    }
  }

  lemma EffectUnseen(s: State, s': State, t: Tid, r: Res, init: Disk)
    requires ServersOk(s) && TasksOk(s, init) && EffectMoves(s, s', t, r)
    requires Committed(s', init) == Effect(Committed(s, init), OpOf(s.tasks[t].req), r)
    ensures Unseen(s, s', t, init)
  {
    var o := OpOf(s.tasks[t].req);
    forall u | u in s.tasks && u != t && Inside(s.tasks[u])
      ensures SameAt(s.disk, s'.disk, Key(s.tasks[u]))
      ensures SameAt(Committed(s, init), Committed(s', init), Key(s.tasks[u]))
    {
      OthersDoNotSee(s, s', t, u, init);
      EffectElsewhere(Committed(s, init), o, r, Key(s.tasks[u]));
    }
  }

  lemma EffectOthers(s: State, s': State, t: Tid, r: Res, init: Disk)
    requires ServersOk(s) && TasksOk(s, init) && OutcomesOk(s) && EffectMoves(s, s', t, r) && Grows(s.rec, s'.rec)
    requires Committed(s', init) == Effect(Committed(s, init), OpOf(s.tasks[t].req), r)
    requires TaskOk(s', t, init) && OutcomeOk(s', t)
    ensures TasksOk(s', init) && OutcomesOk(s')
  {
    EffectUnseen(s, s', t, r, init);
    OthersStay(s, s', t, init);
  }

  lemma EffectServers(s: State, s': State, t: Tid, r: Res)
    requires ServersOk(s) && EffectMoves(s, s', t, r)
    ensures ServersOk(s')
  {
    ServersStay(s, s', t);
  }

  lemma EffectKeepsInv(s: State, s': State, t: Tid, r: Res, init: Disk)
    requires Inv(s, init) && EffectMoves(s, s', t, r) && Legal(Committed(s, init), OpOf(s.tasks[t].req), r)
    requires SameAt(s'.disk, Effect(Committed(s, init), OpOf(s.tasks[t].req), r), Key(s.tasks[t]))
    ensures Inv(s', init)
  {
    assert TaskOk(s, t, init);
    EffectRecorded(s, s', t, r, init);
    EffectCommitted(s, s', t, r, init);
    EffectTask(s, s', t, r, init);
    EffectServers(s, s', t, r);
    EffectOthers(s, s', t, r, init);
    EffectDisk(s, s', t, r, init);
  }

  lemma EffectTask(s: State, s': State, t: Tid, r: Res, init: Disk)
    requires t in s.tasks && TaskOk(s, t, init) && EffectMoves(s, s', t, r)
    requires RecordOk(s'.rec, t, s'.tasks[t])
    ensures TaskOk(s', t, init) && OutcomeOk(s', t)
  {
  }

  // ---------- the steps ----------

  ghost predicate OnlyAt(d: Disk, d': Disk, key: (Srv, Path)) {
    forall other :: other != key ==> SameAt(d, d', other)
  }

  /** A step inside an operation before it takes effect. */
  function Along(s: State, t: Tid, k: Task, disk: Disk): State {
    s.(tasks := s.tasks[t := k], disk := disk)
  }

  ghost predicate Framed(s: State, t: Tid, disk: Disk)
    requires t in s.tasks
  {
    if Exclusive(s.tasks[t].req.op) then OnlyAt(s.disk, disk, Key(s.tasks[t])) else disk == s.disk
  }

  ghost predicate AlongFits(s: State, s': State, t: Tid, committed: Disk) {
    && t in s.tasks && Inside(s.tasks[t]) && BeforeEffect(s.tasks[t]) && t in s'.tasks
    && var k := s'.tasks[t];
       && s' == Along(s, t, k, s'.disk)
       && k == s.tasks[t].(phase := k.phase, buf := k.buf, count := k.count)
       && Inside(k) && BeforeEffect(k) && PhaseFits(k) && BodyOk(k, s'.disk, committed)
       && ((s'.disk == s.disk && SameDirt(s.tasks[t], k)) || Dirty(k, Key(s.tasks[t])))
       && Framed(s, t, s'.disk)
  }

  ghost predicate DoneFits(s: State, s': State, t: Tid, committed: Disk) {
    && t in s.tasks && t in s.rec.calls && Inside(s.tasks[t]) && BeforeEffect(s.tasks[t]) && t in s'.tasks
    && var o, r := OpOf(s.tasks[t].req), s'.tasks[t].res;
       && s' == Done(s, t, r).(disk := s'.disk)
       && Legal(committed, o, r) && SameAt(s'.disk, Effect(committed, o, r), Key(s.tasks[t]))
       && Framed(s, t, s'.disk)
       && (o.op == Read && r.code == SUCCESS ==> r.data == s.tasks[t].buf)
  }

  lemma DoneKeepsInv(s: State, s': State, t: Tid, init: Disk)
    requires Inv(s, init) && DoneFits(s, s', t, Committed(s, init))
    ensures Inv(s', init)
  {
    DoneMoves(s, s', t, Committed(s, init));
    EffectKeepsInv(s, s', t, s'.tasks[t].res, init);
  }

  lemma DoneMoves(s: State, s': State, t: Tid, committed: Disk)
    requires DoneFits(s, s', t, committed)
    ensures EffectMoves(s, s', t, s'.tasks[t].res)
  {
  }

  lemma AlongKeepsInv(s: State, s': State, t: Tid, init: Disk)
    requires Inv(s, init) && AlongFits(s, s', t, Committed(s, init))
    ensures Inv(s', init)
  {
    assert TaskOk(s, t, init);
    AlongMoves(s, s', t, Committed(s, init));
    AlongTask(s, s', t, init);
    PartialKeepsInv(s, s', t, init);
  }

  lemma AlongMoves(s: State, s': State, t: Tid, committed: Disk)
    requires AlongFits(s, s', t, committed)
    ensures BodyMoves(s, s', t) && s'.rec == s.rec
  {
  }

  lemma AlongTask(s: State, s': State, t: Tid, init: Disk)
    requires t in s.tasks && TaskOk(s, t, init) && AlongFits(s, s', t, Committed(s, init))
    ensures TaskOk(s', t, init) && OutcomeOk(s', t)
  {
    assert Committed(s', init) == Committed(s, init);
  }

  // ---------- the steps ----------

  /** What a task knows inside its operation, before it takes effect. */
  ghost predicate AtBody(s: State, t: Tid, committed: Disk) {
    && InBounds(s, t) && Inside(s.tasks[t]) && BeforeEffect(s.tasks[t])
    && BodyOk(s.tasks[t], s.disk, committed) && PhaseFits(s.tasks[t])
    && (!Dirty(s.tasks[t], Key(s.tasks[t])) ==> SameAt(s.disk, committed, Key(s.tasks[t])))
  }

  lemma EntersBody(s: State, t: Tid, init: Disk)
    requires Inv(s, init) && InBounds(s, t) && Inside(s.tasks[t]) && BeforeEffect(s.tasks[t])
    ensures AtBody(s, t, Committed(s, init))
  {
    assert TaskOk(s, t, init);
    if !Dirty(s.tasks[t], Key(s.tasks[t])) { CleanInside(s, init, t); }
  }

  ghost predicate Fits(s: State, s': State, t: Tid, committed: Disk) {
    AlongFits(s, s', t, committed) || DoneFits(s, s', t, committed)
  }

  lemma OpenFits(s: State, t: Tid, ok: bool, committed: Disk)
    requires AtBody(s, t, committed) && s.tasks[t].phase == Begun
    ensures Fits(s, OpenNext(s, t, ok), t, committed)
  {
    if s.tasks[t].req.op.Create? { CreateFits(s, t, ok, committed); }
    else if s.tasks[t].req.op.Write? { OpenWriteFits(s, t, ok, committed); }
  }

  lemma OpenWriteFits(s: State, t: Tid, ok: bool, committed: Disk)
    requires AtBody(s, t, committed) && s.tasks[t].phase == Begun && s.tasks[t].req.op.Write?
    ensures Fits(s, OpenNext(s, t, ok), t, committed)
  {
  }

  lemma CreateFits(s: State, t: Tid, ok: bool, committed: Disk)
    requires AtBody(s, t, committed) && s.tasks[t].phase == Begun && s.tasks[t].req.op.Create?
    ensures Fits(s, OpenNext(s, t, ok), t, committed)
  {
  }

  lemma ReadingFits(s: State, t: Tid, ok: bool, committed: Disk)
    requires AtBody(s, t, committed) && s.tasks[t].phase == Reading
    ensures BodyNext(s, t, ok).Some? && Fits(s, BodyNext(s, t, ok).value, t, committed)
  {
    var k, bytes := s.tasks[t], s.disk[Key(s.tasks[t])].bytes;
    if !(|k.buf| < |bytes| && |k.buf| < MAX_DATA_SIZE - 1) { assert k.buf == Cut(bytes); }
  }

  lemma WritingFits(s: State, t: Tid, ok: bool, committed: Disk)
    requires AtBody(s, t, committed) && s.tasks[t].phase == Writing
    ensures BodyNext(s, t, ok).Some? && Fits(s, BodyNext(s, t, ok).value, t, committed)
  {
    var k, data := s.tasks[t], s.tasks[t].req.op.data;
    if k.count < |data| && ok { assert data[..k.count] + [data[k.count]] == data[..k.count + 1]; }
  }

  lemma LastFits(s: State, t: Tid, ok: bool, committed: Disk)
    requires AtBody(s, t, committed) && (s.tasks[t].phase == Closing || s.tasks[t].phase == Removing)
    ensures BodyNext(s, t, ok).Some? && Fits(s, BodyNext(s, t, ok).value, t, committed)
  {
  }

  lemma FitsKeepsInv(s: State, s': State, t: Tid, init: Disk)
    requires Inv(s, init) && Fits(s, s', t, Committed(s, init))
    ensures Inv(s', init)
  {
    if AlongFits(s, s', t, Committed(s, init)) { AlongKeepsInv(s, s', t, init); } else { DoneKeepsInv(s, s', t, init); }
  }
}
