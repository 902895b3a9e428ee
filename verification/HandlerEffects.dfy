/** A handler's script does to the shared data what its request does to the naming server as a value. */
module HandlerEffects {
  import opened Paths
  import opened Protocol
  import opened PathTree
  import opened TrieThreads
  import opened Handlers
  import Spec = NamingSpec
  import LruSpec
  import Files = FileStore

  /** The branch that the state and the storage server's reply select. */
  function Branch(d: Spec.Naming, c: Spec.Command, reply: Spec.Reply): Handler
    requires Spec.Sane(d)
  {
    match c
    case RegisterSs(_, paths) =>
      if |d.servers| < MAX_SS then Handler.RegisterSs(paths, |d.servers|) else Handler.RegisterSs([], 0)
    case ListPaths => Handler.ListPaths
    case CreateFile(path, kind) =>
      var turn := Spec.Pick(d).1;
      Handler.CreateFile(path, path in d.trie,
                         if turn.Some? then Some(Files.Request(turn.value, path, Files.Create(kind), None)) else None,
                         if Spec.Succeeded(reply) then turn else None)
    case DeleteFile(path) =>
      Handler.DeleteFile(path,
                         if path in d.trie then Some(Files.Request(d.trie[path], path, Files.Delete, None)) else None,
                         Spec.Succeeded(reply))
    case CopyFile(from, to) =>
      var turn := if to in d.trie then Some(d.trie[to]) else Spec.Pick(d).1;
      Handler.CopyFile(from, to, from in d.trie, to !in d.trie,
                       if from in d.trie && turn.Some?
                       then Some(Files.Request(d.trie[from], from, Files.Read, Some((turn.value, to)))) else None,
                       if Spec.Succeeded(reply) then turn else None)
    case LocateFile(path) => Handler.Locate(path, LruSpec.Find(d.cache, path).Some?, path in d.trie)
    case OtherOperation => NotUnderstood
  }

  /** What a script does, in order, apart from locking: calls of the trie, walks, and requests passed on. */
  function Deeds(script: seq<Action>): seq<Action> {
    if script == [] then []
    else Deed(script[0]) + Deeds(script[1..])
  }

  function Deed(a: Action): seq<Action> {
    if a.Call? || a.Collect? || a.Ask? then [a] else []
  }

  /** The trie after the calls of a script. */
  function TrieAfter(trie: map<Path, Srv>, script: seq<Action>): map<Path, Srv>
    decreases |script|
  {
    if script == [] then trie
    else TrieAfter(if script[0].Call? then Effect(trie, script[0].op, None) else trie, script[1..])
  }

  // ---------- deeds of what scripts are made of ----------

  lemma Grouped<T>(a: seq<T>, b: seq<T>, c: seq<T>)
    ensures a + b + c == a + (b + c)
  {
  }

  lemma {:induction false} DeedsAppend(a: seq<Action>, b: seq<Action>)
    ensures Deeds(a + b) == Deeds(a) + Deeds(b)
  {
    if a == [] {
      assert a + b == b;
    } else {
      assert (a + b)[1..] == a[1..] + b;
      DeedsAppend(a[1..], b);
      Grouped(Deed(a[0]), Deeds(a[1..]), Deeds(b));
    }
  }

  lemma DeedsCons(a: Action, rest: seq<Action>)
    ensures Deeds([a] + rest) == Deed(a) + Deeds(rest)
  {
    assert ([a] + rest)[1..] == rest;
  }

  /** The inserts of a registration. */
  function InsertCalls(paths: seq<Path>, v: Srv): seq<Action> {
    seq(|paths|, i requires 0 <= i < |paths| => Call(Insert(paths[i], v)))
  }

  lemma {:induction false} InsertsDeeds(paths: seq<Path>, v: Srv)
    ensures Deeds(Inserts(paths, v)) == InsertCalls(paths, v)
  {
    if paths == [] {
      DeedsCons(DropMutex, []);
    } else {
      var call := Call(Insert(paths[0], v));
      InsertsDeeds(paths[1..], v);
      DeedsCons(call, Inserts(paths[1..], v));
      assert InsertCalls(paths, v) == [call] + InsertCalls(paths[1..], v);
    }
  }

  lemma PieceDeeds(p: Piece)
    ensures Deeds(Actions(p))
         == match p
            case Register(paths, v) => InsertCalls(paths, v)
            case WalkTrie => [Collect]
            case Find(path) => [Call(Search(path))]
            case PickServer => []
            case PassOn(req) => [Ask(req)]
            case Change(op) => [Call(op)]
            case Forget(path) => [Call(Delete(path))]
            case UseCache => []
  {
    match p
    case Register(paths, v) =>
      InsertsDeeds(paths, v);
      DeedsCons(TakeMutex, Inserts(paths, v));
    case WalkTrie =>
    case Find(path) =>
    case PickServer => DeedsCons(TakeMutex, [DropMutex]);
    case PassOn(req) =>
    case Change(op) =>
      DeedsCons(Call(op), [DropMutex]);
      DeedsCons(TakeMutex, [Call(op)] + [DropMutex]);
    case Forget(path) =>
      var tail := [DropCache] + [DropMutex];
      DeedsCons(DropCache, [DropMutex]);
      DeedsCons(TakeCache, tail);
      DeedsCons(Call(Delete(path)), [TakeCache] + tail);
      DeedsCons(TakeMutex, [Call(Delete(path))] + ([TakeCache] + tail));
    case UseCache => DeedsCons(TakeCache, [DropCache]);
  }

  lemma Then(p: Piece, rest: seq<Piece>)
    ensures Deeds(Concat([p] + rest)) == Deeds(Actions(p)) + Deeds(Concat(rest))
  {
    assert ([p] + rest)[1..] == rest;
    DeedsAppend(Actions(p), Concat(rest));
  }

  lemma SingleDeeds(p: Piece)
    ensures Deeds(Concat([p])) == Deeds(Actions(p))
  {
    Then(p, []);
    assert [p] + [] == [p];
  }

  lemma FindAlone(path: Path)
    ensures Deeds(Concat([Find(path)])) == [Call(Search(path))]
  {
    SingleDeeds(Find(path));
    PieceDeeds(Find(path));
  }

  lemma UseAlone()
    ensures Deeds(Concat([UseCache])) == []
  {
    SingleDeeds(UseCache);
    PieceDeeds(UseCache);
  }

  lemma FindThen(path: Path, rest: seq<Piece>)
    ensures Deeds(Concat([Find(path)] + rest)) == [Call(Search(path))] + Deeds(Concat(rest))
  {
    Then(Find(path), rest);
    PieceDeeds(Find(path));
  }

  lemma LocksThen(p: Piece, rest: seq<Piece>)
    requires p.PickServer? || p.UseCache?
    ensures Deeds(Concat([p] + rest)) == Deeds(Concat(rest))
  {
    Then(p, rest);
    PieceDeeds(p);
  }

  lemma PassingThen(ask: Option<Files.Request>, rest: seq<Piece>)
    ensures Deeds(Concat(Passing(ask) + rest))
         == if ask.Some? then [Ask(ask.value)] + Deeds(Concat(rest)) else Deeds(Concat(rest))
  {
    if ask.Some? {
      Then(PassOn(ask.value), rest);
      PieceDeeds(PassOn(ask.value));
    } else {
      assert Passing(ask) + rest == rest;
    }
  }

  // ---------- the trie ----------

  lemma {:induction false} TrieAfterAppend(trie: map<Path, Srv>, a: seq<Action>, b: seq<Action>)
    ensures TrieAfter(trie, a + b) == TrieAfter(TrieAfter(trie, a), b)
    decreases |a|
  {
    if a == [] {
      assert a + b == b;
    } else {
      assert (a + b)[1..] == a[1..] + b;
      TrieAfterAppend(if a[0].Call? then Effect(trie, a[0].op, None) else trie, a[1..], b);
    }
  }

  lemma TrieAfterCons(trie: map<Path, Srv>, a: Action, rest: seq<Action>)
    ensures TrieAfter(trie, [a] + rest) == TrieAfter(if a.Call? then Effect(trie, a.op, None) else trie, rest)
  {
    assert ([a] + rest)[1..] == rest;
  }

  /** Locking leaves the trie alone. */
  lemma {:induction false} DeedsDecide(trie: map<Path, Srv>, script: seq<Action>)
    ensures TrieAfter(trie, script) == TrieAfter(trie, Deeds(script))
    decreases |script|
  {
    if script != [] {
      var a := script[0];
      DeedsDecide(if a.Call? then Effect(trie, a.op, None) else trie, script[1..]);
      TrieAfterCons(trie, a, Deeds(script[1..]));
      assert Deeds(script) == if Deed(a) == [] then Deeds(script[1..]) else [a] + Deeds(script[1..]);
    }
  }

  lemma {:induction false} InsertCallsInsert(trie: map<Path, Srv>, paths: seq<Path>, v: Srv)
    ensures TrieAfter(trie, InsertCalls(paths, v)) == Spec.InsertAll(trie, paths, v)
  {
    if paths != [] {
      var before, last := paths[..|paths| - 1], paths[|paths| - 1];
      InsertCallsInsert(trie, before, v);
      assert InsertCalls(paths, v) == InsertCalls(before, v) + [Call(Insert(last, v))];
      TrieAfterAppend(trie, InsertCalls(before, v), [Call(Insert(last, v))]);
    }
  }

  /** Searches, walks and requests to storage servers leave the trie alone. */
  predicate Looks(a: Action) {
    a.Call? ==> a.op.Search?
  }

  lemma {:induction false} LookingKeepsTrie(trie: map<Path, Srv>, deeds: seq<Action>)
    requires forall i :: 0 <= i < |deeds| ==> Looks(deeds[i])
    ensures TrieAfter(trie, deeds) == trie
  {
    if deeds != [] {
      assert Looks(deeds[0]);
      LookingKeepsTrie(trie, deeds[1..]);
    }
  }

  lemma ChangeAfterLooking(trie: map<Path, Srv>, deeds: seq<Action>, op: Op)
    requires forall i :: 0 <= i < |deeds| ==> Looks(deeds[i])
    ensures TrieAfter(trie, deeds + [Call(op)]) == Effect(trie, op, None)
  {
    LookingKeepsTrie(trie, deeds);
    TrieAfterAppend(trie, deeds, [Call(op)]);
  }

  // ---------- request by request ----------

  /** Every advertised path is inserted, in order, for the new server. */
  lemma RegisterDoes(d: Spec.Naming, info: LruSpec.SsInfo, paths: seq<Path>, reply: Spec.Reply)
    requires Spec.Sane(d)
    ensures
      var deeds := Deeds(Script(Branch(d, Spec.RegisterSs(info, paths), reply)));
      if |d.servers| < 100 then
        && |deeds| == |paths|
        && forall i :: 0 <= i < |paths| ==> deeds[i] == Call(Insert(paths[i], |d.servers|))
      else deeds == []
    ensures TrieAfter(d.trie, Script(Branch(d, Spec.RegisterSs(info, paths), reply)))
         == Spec.Register(d, info, paths).0.trie
  {
    var h := Branch(d, Spec.RegisterSs(info, paths), reply);
    SingleDeeds(Register(h.paths, h.ss));
    PieceDeeds(Register(h.paths, h.ss));
    DeedsDecide(d.trie, Script(h));
    InsertCallsInsert(d.trie, h.paths, h.ss);
  }

  /** Search, and if the path is free and there is a server: ask the one whose turn it is to create it, and on success
      insert the path for it. */
  lemma CreateDeeds(d: Spec.Naming, path: Path, kind: FileKind, reply: Spec.Reply)
    requires Spec.Sane(d)
    ensures Deeds(Script(Branch(d, Spec.CreateFile(path, kind), reply)))
         == [Call(Search(path))]
            + if path in d.trie || d.servers == [] then []
              else [Ask(Files.Request(d.cursor, path, Files.Create(kind), None))]
                   + if reply == Spec.Answer(true, SUCCESS) then [Call(Insert(path, d.cursor))] else []
  {
    var h := Branch(d, Spec.CreateFile(path, kind), reply);
    if path in d.trie { FindAlone(path); } else { FreePathDeeds(path, h.ask, h.created); }
  }

  /** What is inserted at the end, if anything. */
  function Inserted(path: Path, ask: Option<Files.Request>, v: Option<Srv>): seq<Piece> {
    if ask.Some? && v.Some? then [Change(Insert(path, v.value))] else []
  }

  lemma InsertedDeeds(path: Path, ask: Option<Files.Request>, v: Option<Srv>)
    ensures Deeds(Concat(Inserted(path, ask, v))) == if ask.Some? && v.Some? then [Call(Insert(path, v.value))] else []
  {
    if ask.Some? && v.Some? {
      SingleDeeds(Change(Insert(path, v.value)));
      PieceDeeds(Change(Insert(path, v.value)));
    }
  }

  lemma FreePathDeeds(path: Path, ask: Option<Files.Request>, created: Option<Srv>)
    ensures Deeds(Script(Handler.CreateFile(path, false, ask, created)))
         == [Call(Search(path))]
            + if ask.None? then []
              else [Ask(ask.value)] + if created.Some? then [Call(Insert(path, created.value))] else []
  {
    var last := Inserted(path, ask, created);
    InsertedDeeds(path, ask, created);
    PassingThen(ask, last);
    LocksThen(PickServer, Passing(ask) + last);
    FindThen(path, [PickServer] + (Passing(ask) + last));
    assert Pieces(Handler.CreateFile(path, false, ask, created))
        == [Find(path)] + ([PickServer] + (Passing(ask) + last));
  }

  /** Search, and if the path is mapped: ask its server to delete it, and on success delete it from the trie. */
  lemma DeleteDeeds(d: Spec.Naming, path: Path, reply: Spec.Reply)
    requires Spec.Sane(d)
    ensures Deeds(Script(Branch(d, Spec.DeleteFile(path), reply)))
         == [Call(Search(path))]
            + if path !in d.trie then []
              else [Ask(Files.Request(d.trie[path], path, Files.Delete, None))]
                   + if reply == Spec.Answer(true, SUCCESS) then [Call(Delete(path))] else []
  {
    var h := Branch(d, Spec.DeleteFile(path), reply);
    var last := if h.ask.Some? && h.deleted then [Forget(path)] else [];
    SingleDeeds(Forget(path));
    PieceDeeds(Forget(path));
    PassingThen(h.ask, last);
    FindThen(path, Passing(h.ask) + last);
    Grouped([Find(path)], Passing(h.ask), last);
  }

  /** Search both paths; if the first is mapped, and the second or any server is there: ask the first one's server to
      copy, and on success insert the second path if it was free. */
  lemma CopyDeeds(d: Spec.Naming, from: Path, to: Path, reply: Spec.Reply)
    requires Spec.Sane(d)
    ensures Deeds(Script(Branch(d, Spec.CopyFile(from, to), reply)))
         == [Call(Search(from))]
            + if from !in d.trie then []
              else [Call(Search(to))]
                   + if to !in d.trie && d.servers == [] then []
                     else
                       var v := if to in d.trie then d.trie[to] else d.cursor;
                       [Ask(Files.Request(d.trie[from], from, Files.Read, Some((v, to))))]
                       + if to !in d.trie && reply == Spec.Answer(true, SUCCESS) then [Call(Insert(to, v))] else []
  {
    var h := Branch(d, Spec.CopyFile(from, to), reply);
    if from !in d.trie { FindAlone(from); }
    else if to in d.trie { CopyOverDeeds(from, to, h.ask, h.copied); }
    else { CopyNewDeeds(from, to, h.ask, h.copied); }
  }

  lemma CopyOverDeeds(from: Path, to: Path, ask: Option<Files.Request>, copied: Option<Srv>)
    ensures Deeds(Script(Handler.CopyFile(from, to, true, false, ask, copied)))
         == [Call(Search(from))] + ([Call(Search(to))] + if ask.Some? then [Ask(ask.value)] else [])
  {
    PassingThen(ask, []);
    FindThen(to, Passing(ask) + []);
    FindThen(from, [Find(to)] + (Passing(ask) + []));
    assert Pieces(Handler.CopyFile(from, to, true, false, ask, copied))
        == [Find(from)] + ([Find(to)] + (Passing(ask) + []));
  }

  lemma CopyNewDeeds(from: Path, to: Path, ask: Option<Files.Request>, copied: Option<Srv>)
    ensures Deeds(Script(Handler.CopyFile(from, to, true, true, ask, copied)))
         == [Call(Search(from))]
            + ([Call(Search(to))]
               + if ask.None? then []
                 else [Ask(ask.value)] + if copied.Some? then [Call(Insert(to, copied.value))] else [])
  {
    var last := Inserted(to, ask, copied);
    InsertedDeeds(to, ask, copied);
    PassingThen(ask, last);
    LocksThen(PickServer, Passing(ask) + last);
    FindThen(to, [PickServer] + (Passing(ask) + last));
    FindThen(from, [Find(to)] + ([PickServer] + (Passing(ask) + last)));
    Nested(Find(from), Find(to), [PickServer], Passing(ask), last);
  }

  lemma Nested(a: Piece, b: Piece, c: seq<Piece>, d: seq<Piece>, e: seq<Piece>)
    ensures [a, b] + c + d + e == [a] + ([b] + (c + (d + e)))
  {
    assert [a, b] == [a] + [b];
    Grouped([a, b] + c, d, e);
    Grouped([a, b], c, d + e);
    Grouped([a], [b], c + (d + e));
  }

  /** The trie is searched only if the cache does not know the path. */
  lemma LocateDeeds(d: Spec.Naming, path: Path, reply: Spec.Reply)
    requires Spec.Sane(d)
    ensures Deeds(Script(Branch(d, Spec.LocateFile(path), reply)))
         == if LruSpec.Find(d.cache, path).Some? then [] else [Call(Search(path))]
  {
    if LruSpec.Find(d.cache, path).Some? { UseAlone(); } else { MissDeeds(path, path in d.trie); }
  }

  lemma MissDeeds(path: Path, found: bool)
    ensures Deeds(Script(Handler.Locate(path, false, found))) == [Call(Search(path))]
  {
    var last := if found then [UseCache] else [];
    UseAlone();
    FindThen(path, last);
    LocksThen(UseCache, [Find(path)] + last);
    assert Pieces(Handler.Locate(path, false, found)) == [UseCache] + ([Find(path)] + last);
  }

  lemma ListDeeds(d: Spec.Naming, reply: Spec.Reply)
    requires Spec.Sane(d)
    ensures Deeds(Script(Branch(d, Spec.ListPaths, reply))) == [Collect]
  {
    SingleDeeds(WalkTrie);
    PieceDeeds(WalkTrie);
  }

  /** For every request, in the branch its state and the storage server's reply select, the calls that its handler makes
      do to the trie what the request does. */
  lemma ScriptsMatchRequests(d: Spec.Naming, c: Spec.Command, reply: Spec.Reply)
    requires Spec.Sane(d)
    ensures TrieAfter(d.trie, Script(Branch(d, c, reply))) == Spec.Handle(d, c, reply).0.trie
  {
    if c.RegisterSs? {
      RegisterDoes(d, c.info, c.paths, reply);
    } else {
      var deeds := Deeds(Script(Branch(d, c, reply)));
      DeedsDecide(d.trie, Script(Branch(d, c, reply)));
      match c
      case CreateFile(path, kind) => CreateMatches(d, path, kind, reply);
      case DeleteFile(path) => DeleteMatches(d, path, reply);
      case CopyFile(from, to) => CopyMatches(d, from, to, reply);
      case LocateFile(path) => LocateDeeds(d, path, reply);
      case ListPaths => ListDeeds(d, reply);
      case OtherOperation =>
    }
  }

  lemma CreateMatches(d: Spec.Naming, path: Path, kind: FileKind, reply: Spec.Reply)
    requires Spec.Sane(d)
    ensures TrieAfter(d.trie, Deeds(Script(Branch(d, Spec.CreateFile(path, kind), reply))))
         == Spec.Create(d, path, reply).0.trie
  {
    CreateDeeds(d, path, kind, reply);
    if path in d.trie || d.servers == [] || reply != Spec.Answer(true, SUCCESS) {
      LookingKeepsTrie(d.trie, Deeds(Script(Branch(d, Spec.CreateFile(path, kind), reply))));
    } else {
      var ask := Ask(Files.Request(d.cursor, path, Files.Create(kind), None));
      Grouped([Call(Search(path))], [ask], [Call(Insert(path, d.cursor))]);
      ChangeAfterLooking(d.trie, [Call(Search(path))] + [ask], Insert(path, d.cursor));
    }
  }

  lemma DeleteMatches(d: Spec.Naming, path: Path, reply: Spec.Reply)
    requires Spec.Sane(d)
    ensures TrieAfter(d.trie, Deeds(Script(Branch(d, Spec.DeleteFile(path), reply))))
         == Spec.Delete(d, path, reply).0.trie
  {
    DeleteDeeds(d, path, reply);
    if path !in d.trie || reply != Spec.Answer(true, SUCCESS) {
      LookingKeepsTrie(d.trie, Deeds(Script(Branch(d, Spec.DeleteFile(path), reply))));
    } else {
      var ask := Ask(Files.Request(d.trie[path], path, Files.Delete, None));
      Grouped([Call(Search(path))], [ask], [Call(Delete(path))]);
      ChangeAfterLooking(d.trie, [Call(Search(path))] + [ask], Delete(path));
    }
  }

  lemma CopyMatches(d: Spec.Naming, from: Path, to: Path, reply: Spec.Reply)
    requires Spec.Sane(d)
    ensures TrieAfter(d.trie, Deeds(Script(Branch(d, Spec.CopyFile(from, to), reply))))
         == Spec.Copy(d, from, to, reply).0.trie
  {
    CopyDeeds(d, from, to, reply);
    if from !in d.trie || to in d.trie || d.servers == [] || reply != Spec.Answer(true, SUCCESS) {
      LookingKeepsTrie(d.trie, Deeds(Script(Branch(d, Spec.CopyFile(from, to), reply))));
    } else {
      var searches := [Call(Search(from))] + [Call(Search(to))];
      var ask := Ask(Files.Request(d.trie[from], from, Files.Read, Some((d.cursor, to))));
      Grouped([Call(Search(from))], [Call(Search(to))], [ask] + [Call(Insert(to, d.cursor))]);
      Grouped(searches, [ask], [Call(Insert(to, d.cursor))]);
      ChangeAfterLooking(d.trie, searches + [ask], Insert(to, d.cursor));
    }
  }

  // ---------- locks ----------

  lemma {:induction false} ConcatAppend(a: seq<Piece>, b: seq<Piece>)
    ensures Concat(a + b) == Concat(a) + Concat(b)
  {
    if a == [] {
      assert a + b == b;
    } else {
      assert (a + b)[1..] == a[1..] + b;
      ConcatAppend(a[1..], b);
    }
  }

  /** How often a script takes a lock. */
  function Takes(script: seq<Action>, lock: Action): nat {
    if script == [] then 0 else (if script[0] == lock then 1 else 0) + Takes(script[1..], lock)
  }

  lemma {:induction false} TakesAppend(a: seq<Action>, b: seq<Action>, lock: Action)
    ensures Takes(a + b, lock) == Takes(a, lock) + Takes(b, lock)
  {
    if a == [] {
      assert a + b == b;
    } else {
      assert (a + b)[1..] == a[1..] + b;
      TakesAppend(a[1..], b, lock);
    }
  }

  lemma LocksOfTwo(a: seq<Piece>, b: seq<Piece>)
    ensures Takes(Concat(a + b), TakeMutex) == Takes(Concat(a), TakeMutex) + Takes(Concat(b), TakeMutex)
    ensures Takes(Concat(a + b), TakeCache) == Takes(Concat(a), TakeCache) + Takes(Concat(b), TakeCache)
  {
    ConcatAppend(a, b);
    TakesAppend(Concat(a), Concat(b), TakeMutex);
    TakesAppend(Concat(a), Concat(b), TakeCache);
  }

  lemma {:induction false} InsertsTakeNothing(paths: seq<Path>, v: Srv)
    ensures Takes(Inserts(paths, v), TakeMutex) == Takes(Inserts(paths, v), TakeCache) == 0
  {
    if paths != [] {
      InsertsTakeNothing(paths[1..], v);
      assert Inserts(paths, v)[1..] == Inserts(paths[1..], v);
    }
  }

  lemma TakesCons(a: Action, rest: seq<Action>, lock: Action)
    ensures Takes([a] + rest, lock) == (if a == lock then 1 else 0) + Takes(rest, lock)
  {
    assert ([a] + rest)[1..] == rest;
  }

  lemma ActionsTake(p: Piece, lock: Action)
    requires lock == TakeMutex || lock == TakeCache
    ensures Takes(Actions(p), lock)
         == if lock == TakeMutex then if p.Register? || p.PickServer? || p.Change? || p.Forget? then 1 else 0
            else if p.Forget? || p.UseCache? then 1 else 0
  {
    match p
    case Register(paths, v) =>
      InsertsTakeNothing(paths, v);
      TakesCons(TakeMutex, Inserts(paths, v), lock);
    case WalkTrie =>
    case Find(path) =>
    case PickServer => TakesCons(TakeMutex, [DropMutex], lock);
    case PassOn(req) =>
    case Change(op) =>
      TakesCons(Call(op), [DropMutex], lock);
      TakesCons(TakeMutex, [Call(op)] + [DropMutex], lock);
    case Forget(path) =>
      var tail := [DropCache] + [DropMutex];
      TakesCons(DropCache, [DropMutex], lock);
      TakesCons(TakeCache, tail, lock);
      TakesCons(Call(Delete(path)), [TakeCache] + tail, lock);
      TakesCons(TakeMutex, [Call(Delete(path))] + ([TakeCache] + tail), lock);
    case UseCache => TakesCons(TakeCache, [DropCache], lock);
  }

  lemma PieceTakes(p: Piece)
    ensures Takes(Concat([p]), TakeMutex) == if p.Register? || p.PickServer? || p.Change? || p.Forget? then 1 else 0
    ensures Takes(Concat([p]), TakeCache) == if p.Forget? || p.UseCache? then 1 else 0
  {
    assert Concat([p]) == Actions(p);
    ActionsTake(p, TakeMutex);
    ActionsTake(p, TakeCache);
  }

  /** How often a handler takes the servers' mutex: to register, to choose a server, and to change the trie. */
  function MutexUses(h: Handler): nat {
    match h
    case RegisterSs(_, _) => 1
    case CreateFile(_, taken, ask, created) => if taken then 0 else if ask.Some? && created.Some? then 2 else 1
    case DeleteFile(_, ask, deleted) => if ask.Some? && deleted then 1 else 0
    case CopyFile(_, _, found, picks, ask, copied) =>
      if !found || !picks then 0 else if ask.Some? && copied.Some? then 2 else 1
    case _ => 0
  }

  /** How often it takes the cache's lock: to look up, to put, and to remove. */
  function CacheUses(h: Handler): nat {
    match h
    case DeleteFile(_, ask, deleted) => if ask.Some? && deleted then 1 else 0
    case Locate(_, hit, found) => if !hit && found then 2 else 1
    case _ => 0
  }

  predicate TakesLocks(h: Handler) {
    Takes(Script(h), TakeMutex) == MutexUses(h) && Takes(Script(h), TakeCache) == CacheUses(h)
  }

  lemma LocksTaken(h: Handler)
    ensures TakesLocks(h)
  {
    match h
    case RegisterSs(paths, ss) => PieceTakes(Register(paths, ss));
    case ListPaths => PieceTakes(WalkTrie);
    case CreateFile(path, taken, ask, created) => CreateTakes(path, taken, ask, created);
    case DeleteFile(path, ask, deleted) => DeleteTakes(path, ask, deleted);
    case CopyFile(path, path2, found, picks, ask, copied) =>
      if found { CopyTakes(path, path2, picks, ask, copied); } else { PieceTakes(Find(path)); }
    case Locate(path, hit, found) =>
      if hit { PieceTakes(UseCache); } else { MissTakes(path, found); }
    case NotUnderstood =>
  }

  lemma CreateTakes(path: Path, taken: bool, ask: Option<Files.Request>, created: Option<Srv>)
    ensures TakesLocks(Handler.CreateFile(path, taken, ask, created))
  {
    PieceTakes(Find(path));
    if !taken {
      var last := if ask.Some? && created.Some? then [Change(Insert(path, created.value))] else [];
      PickTakes([Find(path)]);
      assert [Find(path)] + [PickServer] == [Find(path), PickServer];
      PassingTakes([Find(path), PickServer], ask, last);
    }
  }

  lemma DeleteTakes(path: Path, ask: Option<Files.Request>, deleted: bool)
    ensures TakesLocks(Handler.DeleteFile(path, ask, deleted))
  {
    PieceTakes(Find(path));
    PassingTakes([Find(path)], ask, if ask.Some? && deleted then [Forget(path)] else []);
  }

  lemma CopyTakes(path: Path, path2: Path, picks: bool, ask: Option<Files.Request>, copied: Option<Srv>)
    ensures TakesLocks(Handler.CopyFile(path, path2, true, picks, ask, copied))
  {
    var searches := [Find(path), Find(path2)];
    var last := if picks && ask.Some? && copied.Some? then [Change(Insert(path2, copied.value))] else [];
    PieceTakes(Find(path));
    PieceTakes(Find(path2));
    LocksOfTwo([Find(path)], [Find(path2)]);
    assert [Find(path)] + [Find(path2)] == searches;
    PickTakes(searches);
    assert searches + [] == searches;
    PassingTakes(if picks then searches + [PickServer] else searches, ask, last);
  }

  lemma MissTakes(path: Path, found: bool)
    ensures TakesLocks(Handler.Locate(path, false, found))
  {
    PieceTakes(UseCache);
    PieceTakes(Find(path));
    LocksOfTwo([UseCache], [Find(path)]);
    assert [UseCache] + [Find(path)] == [UseCache, Find(path)];
    LocksOfTwo([UseCache, Find(path)], if found then [UseCache] else []);
  }

  lemma PickTakes(a: seq<Piece>)
    ensures Takes(Concat(a + [PickServer]), TakeMutex) == Takes(Concat(a), TakeMutex) + 1
    ensures Takes(Concat(a + [PickServer]), TakeCache) == Takes(Concat(a), TakeCache)
  {
    PieceTakes(PickServer);
    LocksOfTwo(a, [PickServer]);
  }

  lemma PassingTakes(a: seq<Piece>, ask: Option<Files.Request>, last: seq<Piece>)
    requires last != [] ==> |last| == 1 && (last[0].Change? || last[0].Forget?)
    ensures Takes(Concat(a + Passing(ask) + last), TakeMutex) == Takes(Concat(a), TakeMutex) + |last|
    ensures Takes(Concat(a + Passing(ask) + last), TakeCache)
         == Takes(Concat(a), TakeCache) + if last != [] && last[0].Forget? then 1 else 0
  {
    LocksOfTwo(a, Passing(ask));
    LocksOfTwo(a + Passing(ask), last);
    if ask.Some? { PieceTakes(PassOn(ask.value)); }
    if last != [] {
      assert last == [last[0]];
      PieceTakes(last[0]);
    }
  }
}
