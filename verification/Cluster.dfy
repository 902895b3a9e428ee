/** Naming server and storage servers together: a handler that passes a request on waits for its reply. */
module Cluster {
  import opened Paths
  import opened Protocol
  import opened RwLocks
  import opened Sums
  import Names = TrieThreads
  import NamesInv = TrieInvariant
  import NamesSteps = TrieSteps
  import NamesTheorems = TrieTheorems
  import NamesProgress = TrieProgress
  import Files = FileStore
  import FilesInv = FileInvariant
  import FilesSteps = FileMessages
  import FilesTheorems = FileTheorems

  /** `waits` says for which request at the storage servers a handler thread is waiting. */
  datatype State = State(names: Names.State, files: Files.State, waits: map<Tid, Tid>)

  function Initial(disk: Files.Disk, n: nat): State {
    State(Names.Initial(), Files.Initial(disk, n), map[])
  }

  // ---------- steps ----------

  /** The handler has come to a request that it passes on. */
  predicate AtAsk(s: State, t: Tid) {
    && t in s.names.threads && s.names.threads[t].act.Ready?
    && s.names.threads[t].script != [] && s.names.threads[t].script[0].Ask?
  }

  predicate NameStep(s: State, s': State, t: Tid) {
    !AtAsk(s, t) && Names.Steps(s.names, s'.names, t) && s' == s.(names := s'.names)
  }

  predicate FileStep(s: State, s': State, t: Tid, c: Files.Choice) {
    Files.Steps(s.files, s'.files, t, c) && s' == s.(files := s'.files)
  }

  predicate Sends(s: State, s': State, t: Tid, id: Tid) {
    && AtAsk(s, t) && t !in s.waits
    && Files.Submits(s.files, s'.files, id, s.names.threads[t].script[0].req, true)
    && s' == s.(files := s'.files, waits := s.waits[t := id])
  }

  /** The reply is there, be it an error. */
  predicate Receives(s: State, s': State, t: Tid) {
    && AtAsk(s, t) && t in s.waits && s.waits[t] in s.files.tasks && s.files.tasks[s.waits[t]].phase.Finished?
    && Names.Steps(s.names, s'.names, t) && s' == s.(names := s'.names, waits := s.waits - {t})
  }

  ghost predicate Progresses(s: State, s': State) {
    || (exists t :: NameStep(s, s', t))
    || (exists t, c :: FileStep(s, s', t, c))
    || (exists t, id :: Sends(s, s', t, id))
    || (exists t :: Receives(s, s', t))
  }

  /** The servers a script asks exist. */
  predicate AsksFit(files: Files.State, script: seq<Names.Action>) {
    forall i :: 0 <= i < |script| && script[i].Ask? ==> Files.WellFormed(files, script[i].req)
  }

  /** A request to the naming server. */
  predicate Arrives(s: State, s': State, t: Tid, script: seq<Names.Action>) {
    Names.Starts(s.names, s'.names, t, script) && AsksFit(s.files, script) && s' == s.(names := s'.names)
  }

  /** A client's request to a storage server. */
  predicate Submits(s: State, s': State, id: Tid, req: Files.Request) {
    Files.Submits(s.files, s'.files, id, req, false) && s' == s.(files := s'.files)
  }

  ghost predicate Transition(s: State, s': State) {
    || Progresses(s, s')
    || (exists t, script :: Arrives(s, s', t, script))
    || (exists id, req :: Submits(s, s', id, req))
  }

  ghost predicate Follows(run: seq<State>, k: nat)
    requires k + 1 < |run|
  {
    Transition(run[k], run[k + 1])
  }

  ghost predicate IsRun(run: seq<State>, init: Files.Disk, n: nat) {
    && run != [] && run[0] == Initial(init, n)
    && forall k :: 0 <= k < |run| - 1 ==> Follows(run, k)
  }

  // ---------- what every step keeps ----------

  predicate WaitsOk(s: State) {
    forall t :: t in s.waits ==> AtAsk(s, t) && s.waits[t] in s.files.tasks
  }

  predicate AllAsksFit(s: State) {
    forall t :: t in s.names.threads ==> AsksFit(s.files, s.names.threads[t].script)
  }

  ghost predicate Inv(s: State, init: Files.Disk) {
    NamesInv.Inv(s.names) && FilesInv.Inv(s.files, init) && WaitsOk(s) && AllAsksFit(s)
  }

  lemma InitialInv(init: Files.Disk, n: nat)
    ensures Inv(Initial(init, n), init)
  {
    NamesInv.InitialInv();
    FilesInv.InitialInv(init, n);
  }

  /** What a step of a naming-server thread leaves of the scripts. */
  predicate ScriptsShrink(s: Names.State, s': Names.State, t: Tid) {
    && t in s.threads && s'.threads.Keys == s.threads.Keys && s.threads[t].script != []
    && (s'.threads[t].script == s.threads[t].script || s'.threads[t].script == s.threads[t].script[1..])
    && forall u :: u in s.threads && u != t ==> s'.threads[u] == s.threads[u]
  }

  lemma StepShrinksScripts(s: Names.State, s': Names.State, t: Tid)
    requires Names.Steps(s, s', t)
    ensures ScriptsShrink(s, s', t)
  {
  }

  lemma AskEndsAtOnce(s: State, names: Names.State, t: Tid)
    requires AtAsk(s, t) && Names.Steps(s.names, names, t)
    ensures t in names.threads && names.threads[t].script == s.names.threads[t].script[1..]
  {
  }

  /** Whoever waits is not the one that steps. */
  lemma AsksStay(s: State, s': State, t: Tid)
    requires WaitsOk(s) && AllAsksFit(s) && ScriptsShrink(s.names, s'.names, t) && s'.files == s.files
    requires forall u :: u in s'.waits ==> u in s.waits && u != t && s'.waits[u] == s.waits[u]
    ensures WaitsOk(s') && AllAsksFit(s')
  {
    forall u | u in s'.names.threads ensures AsksFit(s'.files, s'.names.threads[u].script) {
      assert AsksFit(s.files, s.names.threads[u].script);
    }
  }

  /** A step of the storage servers keeps the requests there are, and the number of servers. */
  lemma FilesGrow(s: Files.State, s': Files.State, t: Tid, c: Files.Choice)
    requires Files.Steps(s, s', t, c)
    ensures s.tasks.Keys <= s'.tasks.Keys && |s'.servers| == |s.servers|
  {
  }

  lemma NameStepKeepsInv(s: State, s': State, t: Tid, init: Files.Disk)
    requires Inv(s, init) && NameStep(s, s', t)
    ensures Inv(s', init)
  {
    NamesTheorems.NextKeepsInv(s.names, s'.names, t);
    StepShrinksScripts(s.names, s'.names, t);
    AsksStay(s, s', t);
  }

  lemma FileStepKeepsInv(s: State, s': State, t: Tid, c: Files.Choice, init: Files.Disk)
    requires Inv(s, init) && FileStep(s, s', t, c)
    ensures Inv(s', init)
  {
    FilesSteps.StepKeepsInv(s.files, s'.files, t, c, init);
    FilesGrow(s.files, s'.files, t, c);
  }

  lemma SendKeepsInv(s: State, s': State, t: Tid, id: Tid, init: Files.Disk)
    requires Inv(s, init) && Sends(s, s', t, id)
    ensures Inv(s', init)
  {
    FilesSteps.SpawnKeepsInv(s.files, id, s.names.threads[t].script[0].req, true, init);
  }

  lemma ReceiveKeepsInv(s: State, s': State, t: Tid, init: Files.Disk)
    requires Inv(s, init) && Receives(s, s', t)
    ensures Inv(s', init)
  {
    NamesTheorems.NextKeepsInv(s.names, s'.names, t);
    StepShrinksScripts(s.names, s'.names, t);
    AsksStay(s, s', t);
  }

  lemma ArrivalKeepsInv(s: State, s': State, t: Tid, script: seq<Names.Action>, init: Files.Disk)
    requires Inv(s, init) && Arrives(s, s', t, script)
    ensures Inv(s', init)
  {
    NamesSteps.StartKeepsInv(s.names, s'.names, t, script);
  }

  lemma SubmitKeepsInv(s: State, s': State, id: Tid, req: Files.Request, init: Files.Disk)
    requires Inv(s, init) && Submits(s, s', id, req)
    ensures Inv(s', init)
  {
    FilesSteps.SpawnKeepsInv(s.files, id, req, false, init);
  }

  lemma TransitionKeepsInv(s: State, s': State, init: Files.Disk)
    requires Inv(s, init) && Transition(s, s')
    ensures Inv(s', init)
  {
    if t, script :| Arrives(s, s', t, script) { ArrivalKeepsInv(s, s', t, script, init); }
    else if id, req :| Submits(s, s', id, req) { SubmitKeepsInv(s, s', id, req, init); }
    else if t :| NameStep(s, s', t) { NameStepKeepsInv(s, s', t, init); }
    else if t, c :| FileStep(s, s', t, c) { FileStepKeepsInv(s, s', t, c, init); }
    else if t, id :| Sends(s, s', t, id) { SendKeepsInv(s, s', t, id, init); }
    else { var t :| Receives(s, s', t); ReceiveKeepsInv(s, s', t, init); }
  }

  lemma {:induction false} RunKeepsInv(run: seq<State>, init: Files.Disk, n: nat, k: nat)
    requires IsRun(run, init, n) && k < |run|
    ensures Inv(run[k], init)
  {
    if k == 0 {
      InitialInv(init, n);
    } else {
      RunKeepsInv(run, init, n, k - 1);
      assert Follows(run, k - 1);
      TransitionKeepsInv(run[k - 1], run[k], init);
    }
  }

  // ---------- progress ----------

  ghost predicate Unfinished(s: State) {
    || (exists t :: t in s.names.threads && !Names.Finished(s.names.threads[t]))
    || (exists t: Tid :: FilesTheorems.Unfinished(s.files, t))
  }

  /** Somebody can step, even if nothing fails and waiting writers go before readers. */
  ghost predicate CanStep(s: State) {
    || (exists t :: !AtAsk(s, t) && NamesTheorems.CanStep(s.names, t))
    || (exists t :: FilesTheorems.CanStep(s.files, t))
    || (exists s', t, id :: Sends(s, s', t, id))
    || (exists s', t :: Receives(s, s', t))
  }

  /** A handler at a request it passes on can send it, or its reply is there, once the storage servers are done. */
  lemma AskerSteps(s: State, init: Files.Disk, t: Tid)
    requires Inv(s, init) && AtAsk(s, t)
    requires forall u: Tid :: !FilesTheorems.Unfinished(s.files, u)
    ensures CanStep(s)
  {
    if t in s.waits {
      assert !FilesTheorems.Unfinished(s.files, s.waits[t]);
      NamesTheorems.OkIsInBounds(s.names, t);
      CanReceive(s, t);
    } else {
      assert AsksFit(s.files, s.names.threads[t].script);
      var id := FilesTheorems.FreshId(s.files);
      CanSend(s, t, id);
    }
  }

  lemma CanReceive(s: State, t: Tid)
    requires AtAsk(s, t) && Names.InBounds(s.names, s.names.threads[t])
    requires t in s.waits && s.waits[t] in s.files.tasks && s.files.tasks[s.waits[t]].phase.Finished?
    ensures CanStep(s)
  {
    var names' := Names.Next(s.names, t).value;
    assert Receives(s, s.(names := names', waits := s.waits - {t}), t);
  }

  lemma CanSend(s: State, t: Tid, id: Tid)
    requires AtAsk(s, t) && t !in s.waits && Files.IsFresh(s.files, id)
    requires Files.WellFormed(s.files, s.names.threads[t].script[0].req)
    ensures CanStep(s)
  {
    var req := s.names.threads[t].script[0].req;
    assert Sends(s, s.(files := Files.Spawn(s.files, id, req, true), waits := s.waits[t := id]), t, id);
  }

  /** In every reachable state of the whole system with an unfinished request somebody can step: handlers wait for
      storage servers, storage servers for each other and for locks, but never in a circle. */
  lemma NoDeadlock(run: seq<State>, init: Files.Disk, n: nat, k: nat)
    requires IsRun(run, init, n) && k < |run| && Unfinished(run[k])
    ensures CanStep(run[k])
  {
    RunKeepsInv(run, init, n, k);
    var s := run[k];
    if t: Tid :| FilesTheorems.Unfinished(s.files, t) {
      var u := FilesTheorems.SomeoneSteps(s.files, init, t);
    } else {
      var t :| t in s.names.threads && !Names.Finished(s.names.threads[t]);
      var u := NamesTheorems.SomeoneSteps(s.names, t);
      if AtAsk(s, u) { AskerSteps(s, init, u); }
    }
  }

  // ---------- termination ----------

  /** The work that requests not yet passed on will make for the storage servers. */
  function AskWork(script: seq<Names.Action>): nat {
    if script == [] then 0 else Asking(script[0]) + AskWork(script[1..])
  }

  function Asking(a: Names.Action): nat {
    if a.Ask? then 1 + FilesTheorems.Work(Files.NewTask(a.req, true)) else 0
  }

  function Unsent(th: Names.Thread, sent: bool): nat {
    AskWork(if sent && th.script != [] then th.script[1..] else th.script)
  }

  function AllUnsent(s: State): map<nat, nat> {
    map t | t in s.names.threads :: Unsent(s.names.threads[t], t in s.waits)
  }

  ghost function Total(s: State): nat {
    NamesProgress.Total(s.names) + FilesTheorems.Total(s.files.tasks) + Sum(AllUnsent(s))
  }

  /** What is not sent yet becomes no more while handlers go on. */
  lemma UnsentStays(s: State, s': State, t: Tid)
    requires ScriptsShrink(s.names, s'.names, t)
    requires forall u :: u in s.names.threads && u != t ==> (u in s'.waits <==> u in s.waits)
    requires Unsent(s'.names.threads[t], t in s'.waits) <= Unsent(s.names.threads[t], t in s.waits)
    ensures Sum(AllUnsent(s')) <= Sum(AllUnsent(s))
  {
    SumAtMost(AllUnsent(s'), AllUnsent(s));
  }

  lemma NameStepDecreases(s: State, s': State, t: Tid, init: Files.Disk)
    requires Inv(s, init) && Inv(s', init) && NameStep(s, s', t)
    ensures Total(s') < Total(s)
  {
    NamesProgress.StepsDecrease(s.names, s'.names, t);
    StepShrinksScripts(s.names, s'.names, t);
    UnsentStays(s, s', t);
  }

  lemma FileStepDecreases(s: State, s': State, t: Tid, c: Files.Choice, init: Files.Disk)
    requires Inv(s, init) && FileStep(s, s', t, c)
    ensures Total(s') < Total(s)
  {
    assert FilesInv.TaskOk(s.files, t, init);
    FilesTheorems.StepsDecrease(s.files, s'.files, t, c);
    assert AllUnsent(s') == AllUnsent(s);
  }

  lemma SendDecreases(s: State, s': State, t: Tid, id: Tid)
    requires Sends(s, s', t, id)
    ensures Total(s') < Total(s)
  {
    FilesAfterSend(s, s', t, id);
    UnsentAfterSend(s, s', t);
  }

  lemma FilesAfterSend(s: State, s': State, t: Tid, id: Tid)
    requires Sends(s, s', t, id)
    ensures FilesTheorems.Total(s'.files.tasks) + 1
         == FilesTheorems.Total(s.files.tasks) + Asking(s.names.threads[t].script[0])
    ensures s'.names == s.names && t !in s.waits && s'.waits.Keys == s.waits.Keys + {t}
  {
    var task := Files.NewTask(s.names.threads[t].script[0].req, true);
    assert id !in s.files.tasks;
    FilesTheorems.TotalUpdated(s.files.tasks, id, task);
    assert s.files.tasks - {id} == s.files.tasks;
  }

  lemma UnsentAfterSend(s: State, s': State, t: Tid)
    requires t in s.names.threads && s.names.threads[t].script != [] && s'.names == s.names
    requires t !in s.waits && s'.waits.Keys == s.waits.Keys + {t}
    ensures Sum(AllUnsent(s)) == Sum(AllUnsent(s')) + Asking(s.names.threads[t].script[0])
  {
    var less := Unsent(s.names.threads[t], true);
    SumSplits(AllUnsent(s), t);
    SumUpdated(AllUnsent(s), t, less);
    assert AllUnsent(s') == AllUnsent(s)[t := less];
  }

  /** What was sent was counted as sent already. */
  lemma UnsentAfterReply(s: State, s': State, t: Tid)
    requires ScriptsShrink(s.names, s'.names, t) && t in s.waits && s'.waits == s.waits - {t}
    requires s'.names.threads[t].script == s.names.threads[t].script[1..]
    ensures Sum(AllUnsent(s')) <= Sum(AllUnsent(s))
  {
    UnsentStays(s, s', t);
  }

  lemma ReceiveDecreases(s: State, s': State, t: Tid, init: Files.Disk)
    requires Inv(s, init) && Inv(s', init) && Receives(s, s', t)
    ensures Total(s') < Total(s)
  {
    NamesProgress.StepsDecrease(s.names, s'.names, t);
    ReplyUnsent(s, s', t);
  }

  lemma ReplyUnsent(s: State, s': State, t: Tid)
    requires Receives(s, s', t)
    ensures Sum(AllUnsent(s')) <= Sum(AllUnsent(s))
  {
    StepShrinksScripts(s.names, s'.names, t);
    AskEndsAtOnce(s, s'.names, t);
    UnsentAfterReply(s, s', t);
  }

  lemma ProgressDecreases(s: State, s': State, init: Files.Disk)
    requires Inv(s, init) && Inv(s', init) && Progresses(s, s')
    ensures Total(s') < Total(s)
  {
    if t :| NameStep(s, s', t) { NameStepDecreases(s, s', t, init); }
    else if t, c :| FileStep(s, s', t, c) { FileStepDecreases(s, s', t, c, init); }
    else if t, id :| Sends(s, s', t, id) { SendDecreases(s, s', t, id); }
    else { var t :| Receives(s, s', t); ReceiveDecreases(s, s', t, init); }
  }

  ghost predicate NobodyArrives(run: seq<State>, k: nat)
    requires k + 1 < |run|
  {
    Progresses(run[k], run[k + 1])
  }

  /** Nobody arrives between moments `i` and `j`. */
  ghost predicate Quiet(run: seq<State>, i: nat, j: nat)
    requires i <= j < |run|
  {
    forall k :: i <= k < j ==> NobodyArrives(run, k)
  }

  ghost function Totals(run: seq<State>): (r: seq<nat>)
    ensures |r| == |run|
  {
    seq(|run|, k requires 0 <= k < |run| => Total(run[k]))
  }

  lemma StepAt(run: seq<State>, init: Files.Disk, n: nat, k: nat)
    requires IsRun(run, init, n) && k + 1 < |run| && NobodyArrives(run, k)
    ensures Falls(Totals(run), k)
  {
    RunKeepsInv(run, init, n, k);
    RunKeepsInv(run, init, n, k + 1);
    ProgressDecreases(run[k], run[k + 1], init);
  }

  lemma TotalsFall(run: seq<State>, init: Files.Disk, n: nat, i: nat, j: nat)
    requires IsRun(run, init, n) && i <= j < |run| && Quiet(run, i, j)
    ensures forall k :: i <= k < j ==> Falls(Totals(run), k)
  {
    forall k | i <= k < j ensures Falls(Totals(run), k) { StepAt(run, init, n, k); }
  }

  /** Once no more requests arrive, at most `Total` steps remain for handlers and storage servers together, whatever
      fails and however the steps interleave. */
  lemma FiniteRequestsFinish(run: seq<State>, init: Files.Disk, n: nat, i: nat, j: nat)
    requires IsRun(run, init, n) && i <= j < |run| && Quiet(run, i, j)
    ensures j - i <= Total(run[i]) - Total(run[j])
  {
    TotalsFall(run, init, n, i, j);
    FallsAreShort(Totals(run), i, j);
  }

  /** A run that cannot go on has served every request. */
  lemma StuckRunsAreFinished(run: seq<State>, init: Files.Disk, n: nat, k: nat)
    requires IsRun(run, init, n) && k < |run| && !CanStep(run[k])
    ensures !Unfinished(run[k])
  {
    if Unfinished(run[k]) { NoDeadlock(run, init, n, k); }
  }
}
