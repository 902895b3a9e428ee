/** Linearizability of a concurrent object (Herlihy and Wing, 1990), and a recorder that establishes it. */
module Linearizability {
  import opened Paths

  /** What a client sees: calls begin and end. */
  datatype Event<Op, Res> = Invoke(call: nat, op: Op) | Return(call: nat, res: Res)

  /** A call that has taken effect. */
  datatype Entry<Op, Res> = Entry(call: nat, op: Op, res: Res)

  /** A sequential object; `legal` says which results an operation may have in a state. */
  datatype Spec<!St, !Op, !Res> = Spec(init: St, legal: (St, Op, Res) -> bool, effect: (St, Op, Res) -> St)

  function Replay<St, Op, Res>(spec: Spec<St, Op, Res>, lin: seq<Entry<Op, Res>>): St {
    if lin == [] then spec.init
    else
      var last := lin[|lin| - 1];
      spec.effect(Replay(spec, lin[..|lin| - 1]), last.op, last.res)
  }

  predicate LegalRun<St, Op, Res>(spec: Spec<St, Op, Res>, lin: seq<Entry<Op, Res>>) {
    forall k :: 0 <= k < |lin| ==> spec.legal(Replay(spec, lin[..k]), lin[k].op, lin[k].res)
  }

  /** The calls in `lin` were made, those that have ended are there with their results, and a call that ended before
      another began comes first. Calls that have not ended may be in `lin` or not. */
  ghost predicate Respects<Op(!new), Res(!new)>(history: seq<Event<Op, Res>>, lin: seq<Entry<Op, Res>>) {
    && (forall i, j :: 0 <= i < j < |lin| ==> lin[i].call != lin[j].call)
    && (forall k :: 0 <= k < |lin| ==> Invoke(lin[k].call, lin[k].op) in history)
    && (forall i :: 0 <= i < |history| && history[i].Return? ==>
          exists k :: 0 <= k < |lin| && lin[k].call == history[i].call && lin[k].res == history[i].res)
    && (forall i, j, k, l :: 0 <= i < j < |history| && history[i].Return? && history[j].Invoke?
          && 0 <= k < |lin| && 0 <= l < |lin| && lin[k].call == history[i].call && lin[l].call == history[j].call
          ==> k < l)
  }

  /** Performed one after the other in the order `lin`, the calls would have had the results they had. */
  ghost predicate IsLinearization<St, Op(!new), Res(!new)>(
    spec: Spec<St, Op, Res>, history: seq<Event<Op, Res>>, lin: seq<Entry<Op, Res>>)
  {
    LegalRun(spec, lin) && Respects(history, lin)
  }

  // ---------- the recorder ----------

  /** How far `lin` had grown when a call began, took effect and ended. */
  datatype CallRecord<Op> = CallRecord(op: Op, start: nat, point: Option<nat>, end: Option<nat>)

  datatype Recorder<Op, Res> =
    Recorder(history: seq<Event<Op, Res>>, lin: seq<Entry<Op, Res>>, calls: map<nat, CallRecord<Op>>)

  ghost predicate Pending<Op, Res>(r: Recorder<Op, Res>, c: nat, op: Op) {
    c in r.calls && r.calls[c].op == op && r.calls[c].point == None && r.calls[c].end == None
  }

  ghost predicate Effective<Op, Res>(r: Recorder<Op, Res>, c: nat, op: Op, res: Res) {
    && c in r.calls && r.calls[c].op == op && r.calls[c].end == None
    && r.calls[c].point.Some? && r.calls[c].point.value < |r.lin| && r.lin[r.calls[c].point.value].res == res
  }

  function Begin<Op, Res>(r: Recorder<Op, Res>, c: nat, op: Op): Recorder<Op, Res> {
    r.(history := r.history + [Invoke(c, op)], calls := r.calls[c := CallRecord(op, |r.lin|, None, None)])
  }

  function TakeEffect<Op, Res>(r: Recorder<Op, Res>, c: nat, res: Res): Recorder<Op, Res>
    requires c in r.calls
  {
    r.(lin := r.lin + [Entry(c, r.calls[c].op, res)], calls := r.calls[c := r.calls[c].(point := Some(|r.lin|))])
  }

  function End<Op, Res>(r: Recorder<Op, Res>, c: nat, res: Res): Recorder<Op, Res>
    requires c in r.calls
  {
    r.(history := r.history + [Return(c, res)], calls := r.calls[c := r.calls[c].(end := Some(|r.lin|))])
  }

  ghost predicate CallOk<Op, Res>(r: Recorder<Op, Res>, c: nat)
    requires c in r.calls
  {
    var x := r.calls[c];
    && x.start <= |r.lin|
    && Invoke(c, x.op) in r.history
    && (x.point.Some? ==>
          x.start <= x.point.value < |r.lin| && r.lin[x.point.value].call == c && r.lin[x.point.value].op == x.op)
    && (x.end.Some? ==> x.point.Some? && x.point.value < x.end.value <= |r.lin|)
  }

  ghost predicate EventOk<Op, Res>(r: Recorder<Op, Res>, e: Event<Op, Res>) {
    && e.call in r.calls
    && (e.Return? ==>
          var x := r.calls[e.call];
          x.end.Some? && x.point.Some? && x.point.value < |r.lin| && r.lin[x.point.value].res == e.res)
  }

  ghost predicate WellRecorded<Op(!new), Res(!new)>(r: Recorder<Op, Res>) {
    && (forall c :: c in r.calls ==> CallOk(r, c))
    && (forall i :: 0 <= i < |r.history| ==> EventOk(r, r.history[i]))
    && (forall k :: 0 <= k < |r.lin| ==> r.lin[k].call in r.calls && r.calls[r.lin[k].call].point == Some(k))
    && (forall i, j :: 0 <= i < j < |r.history| && r.history[i].Return? && r.history[j].Invoke? ==>
          EndedBefore(r, r.history[i].call, r.history[j].call))
  }

  ghost predicate EndedBefore<Op, Res>(r: Recorder<Op, Res>, c: nat, d: nat) {
    c in r.calls && d in r.calls && r.calls[c].end.Some? && r.calls[c].end.value <= r.calls[d].start
  }

  lemma BeginKeeps<Op(!new), Res(!new)>(r: Recorder<Op, Res>, c: nat, op: Op)
    requires WellRecorded(r) && c !in r.calls
    ensures WellRecorded(Begin(r, c, op)) && Pending(Begin(r, c, op), c, op)
  {
    var r' := Begin(r, c, op);
    assert r'.history[|r.history|] == Invoke(c, op);
    forall d | d in r'.calls ensures CallOk(r', d) { assert d != c ==> CallOk(r, d); }
    forall i | 0 <= i < |r'.history| ensures EventOk(r', r'.history[i]) {
      assert i < |r.history| ==> r'.history[i] == r.history[i] && EventOk(r, r.history[i]);
    }
    forall i, j | 0 <= i < j < |r'.history| && r'.history[i].Return? && r'.history[j].Invoke?
      ensures EndedBefore(r', r'.history[i].call, r'.history[j].call)
    {
      assert EventOk(r, r.history[i]) && CallOk(r, r.history[i].call);
      if j < |r.history| { assert EndedBefore(r, r.history[i].call, r.history[j].call) && EventOk(r, r.history[j]); }
    }
  }

  lemma TakeEffectKeeps<Op(!new), Res(!new)>(r: Recorder<Op, Res>, c: nat, op: Op, res: Res)
    requires WellRecorded(r) && Pending(r, c, op)
    ensures WellRecorded(TakeEffect(r, c, res)) && Effective(TakeEffect(r, c, res), c, op, res)
  {
    var r' := TakeEffect(r, c, res);
    forall d | d in r'.calls ensures CallOk(r', d) { assert CallOk(r, d); }
    forall i | 0 <= i < |r'.history| ensures EventOk(r', r'.history[i]) { assert EventOk(r, r.history[i]); }
    forall i, j | 0 <= i < j < |r'.history| && r'.history[i].Return? && r'.history[j].Invoke?
      ensures EndedBefore(r', r'.history[i].call, r'.history[j].call)
    {
      assert EndedBefore(r, r.history[i].call, r.history[j].call);
    }
  }

  lemma EndKeeps<Op(!new), Res(!new)>(r: Recorder<Op, Res>, c: nat, op: Op, res: Res)
    requires WellRecorded(r) && Effective(r, c, op, res)
    ensures WellRecorded(End(r, c, res))
  {
    var r' := End(r, c, res);
    forall d | d in r'.calls ensures CallOk(r', d) {
      assert CallOk(r, d);
      assert forall e :: e in r.history ==> e in r'.history;
    }
    forall i | 0 <= i < |r'.history| ensures EventOk(r', r'.history[i]) {
      assert i < |r.history| ==> r'.history[i] == r.history[i] && EventOk(r, r.history[i]);
    }
    forall i, j | 0 <= i < j < |r'.history| && r'.history[i].Return? && r'.history[j].Invoke?
      ensures EndedBefore(r', r'.history[i].call, r'.history[j].call)
    {
      assert EndedBefore(r, r.history[i].call, r.history[j].call);
    }
  }

  /** Recorded calls whose effects were legal are linearizable in the order they took effect. */
  lemma RecordedIsLinearized<St, Op(!new), Res(!new)>(spec: Spec<St, Op, Res>, r: Recorder<Op, Res>)
    requires WellRecorded(r) && LegalRun(spec, r.lin)
    ensures IsLinearization(spec, r.history, r.lin)
  {
    forall i | 0 <= i < |r.history| && r.history[i].Return?
      ensures exists k :: 0 <= k < |r.lin| && r.lin[k].call == r.history[i].call && r.lin[k].res == r.history[i].res
    {
      assert EventOk(r, r.history[i]) && CallOk(r, r.history[i].call);
    }
    forall k | 0 <= k < |r.lin| ensures Invoke(r.lin[k].call, r.lin[k].op) in r.history {
      assert CallOk(r, r.lin[k].call);
    }
    forall i, j, k, l | 0 <= i < j < |r.history| && r.history[i].Return? && r.history[j].Invoke?
      && 0 <= k < |r.lin| && 0 <= l < |r.lin|
      && r.lin[k].call == r.history[i].call && r.lin[l].call == r.history[j].call
      ensures k < l
    {
      assert EndedBefore(r, r.history[i].call, r.history[j].call);
      assert CallOk(r, r.history[i].call) && CallOk(r, r.history[j].call);
    }
  }

  /** Appending a legal effect. */
  lemma LegalRunGrows<St, Op, Res>(spec: Spec<St, Op, Res>, r: Recorder<Op, Res>, c: nat, res: Res)
    requires LegalRun(spec, r.lin) && c in r.calls && spec.legal(Replay(spec, r.lin), r.calls[c].op, res)
    ensures LegalRun(spec, TakeEffect(r, c, res).lin)
    ensures Replay(spec, TakeEffect(r, c, res).lin) == spec.effect(Replay(spec, r.lin), r.calls[c].op, res)
  {
    var lin := TakeEffect(r, c, res).lin;
    assert lin[..|r.lin|] == r.lin;
    forall k | 0 <= k < |lin| ensures spec.legal(Replay(spec, lin[..k]), lin[k].op, lin[k].res) {
      assert k < |r.lin| ==> lin[..k] == r.lin[..k] && lin[k] == r.lin[k];
    }
  }
}
