/** What each handler of the naming server does with shared data, and the order in which it takes locks. */
module Handlers {
  import opened Paths
  import opened Protocol
  import opened TrieThreads
  import Files = FileStore

  /** The shared data each kind of request goes through, branch by branch. */
  datatype Handler =
    | RegisterSs(paths: seq<Path>, ss: Srv)
    | ListPaths
    | CreateFile(path: Path, taken: bool, ask: Option<Files.Request>, created: Option<Srv>)
    | DeleteFile(path: Path, ask: Option<Files.Request>, deleted: bool)
    | CopyFile(path: Path, path2: Path, found: bool, picks: bool, ask: Option<Files.Request>, copied: Option<Srv>)
    | Locate(path: Path, hit: bool, found: bool)
    | NotUnderstood

  function Inserts(paths: seq<Path>, ss: Srv): seq<Action> {
    if paths == [] then [DropMutex] else [Call(Insert(paths[0], ss))] + Inserts(paths[1..], ss)
  }

  /** What handlers are put together from. */
  datatype Piece =
    | Register(paths: seq<Path>, ss: Srv) | WalkTrie | Find(path: Path) | PickServer | PassOn(req: Files.Request)
    | Change(op: Op) | Forget(path: Path) | UseCache

  function Actions(p: Piece): seq<Action> {
    match p
    case Register(paths, ss) => [TakeMutex] + Inserts(paths, ss)
    case WalkTrie => [Collect]
    case Find(path) => [Call(Search(path))]
    case PickServer => [TakeMutex] + [DropMutex]
    case PassOn(req) => [Ask(req)]
    case Change(op) => [TakeMutex] + ([Call(op)] + [DropMutex])
    case Forget(path) => [TakeMutex] + ([Call(Delete(path))] + ([TakeCache] + ([DropCache] + [DropMutex])))
    case UseCache => [TakeCache] + [DropCache]
  }

  function Passing(ask: Option<Files.Request>): seq<Piece> {
    match ask
    case Some(req) => [PassOn(req)]
    case None => []
  }

  function Pieces(h: Handler): seq<Piece> {
    match h
    case RegisterSs(paths, ss) => [Register(paths, ss)]
    case ListPaths => [WalkTrie]
    case CreateFile(path, taken, ask, created) =>
      if taken then [Find(path)]
      else [Find(path), PickServer] + Passing(ask)
           + if ask.Some? && created.Some? then [Change(Insert(path, created.value))] else []
    case DeleteFile(path, ask, deleted) =>
      [Find(path)] + Passing(ask) + if ask.Some? && deleted then [Forget(path)] else []
    case CopyFile(path, path2, found, picks, ask, copied) =>
      if !found then [Find(path)]
      else [Find(path), Find(path2)] + (if picks then [PickServer] else []) + Passing(ask)
           + if picks && ask.Some? && copied.Some? then [Change(Insert(path2, copied.value))] else []
    case Locate(path, hit, found) =>
      if hit then [UseCache] else [UseCache, Find(path)] + if found then [UseCache] else []
    case NotUnderstood => []
  }

  function Concat(pieces: seq<Piece>): seq<Action> {
    if pieces == [] then [] else Actions(pieces[0]) + Concat(pieces[1..])
  }

  function Script(h: Handler): seq<Action> {
    Concat(Pieces(h))
  }

  lemma {:induction false} InsertsAreDisciplined(paths: seq<Path>, ss: Srv)
    ensures Disciplined(Inserts(paths, ss), true, false)
  {
    if paths != [] {
      InsertsAreDisciplined(paths[1..], ss);
      assert Inserts(paths, ss)[1..] == Inserts(paths[1..], ss);
    }
  }

  /** Two disciplined scripts in a row. */
  lemma {:induction false} DisciplinedAppend(a: seq<Action>, b: seq<Action>, m: bool, c: bool)
    requires Disciplined(a, m, c) && Disciplined(b, false, false)
    ensures Disciplined(a + b, m, c)
  {
    if a == [] {
      assert a + b == b;
    } else {
      assert (a + b)[1..] == a[1..] + b;
      match a[0]
      case TakeMutex => DisciplinedAppend(a[1..], b, true, c);
      case DropMutex => DisciplinedAppend(a[1..], b, false, c);
      case TakeCache => DisciplinedAppend(a[1..], b, m, true);
      case DropCache => DisciplinedAppend(a[1..], b, m, false);
      case Call(_) => DisciplinedAppend(a[1..], b, m, c);
      case Collect => DisciplinedAppend(a[1..], b, m, c);
      case Ask(_) => DisciplinedAppend(a[1..], b, m, c);
    }
  }

  lemma DisciplinedCons(a: Action, rest: seq<Action>)
    ensures forall m, c :: Disciplined([a] + rest, m, c)
                      <==> match a
                           case TakeMutex => !m && !c && Disciplined(rest, true, c)
                           case DropMutex => m && !c && Disciplined(rest, false, c)
                           case TakeCache => !c && Disciplined(rest, m, true)
                           case DropCache => c && Disciplined(rest, m, false)
                           case Call(_) => !c && Disciplined(rest, m, c)
                           case Collect => !c && Disciplined(rest, m, c)
                           case Ask(_) => !m && !c && Disciplined(rest, m, c)
  {
    assert ([a] + rest)[1..] == rest;
  }

  lemma PieceIsDisciplined(p: Piece)
    ensures Disciplined(Actions(p), false, false)
  {
    match p
    case Register(paths, ss) =>
      InsertsAreDisciplined(paths, ss);
      DisciplinedCons(TakeMutex, Inserts(paths, ss));
    case WalkTrie => DisciplinedCons(Collect, []);
    case Find(path) => DisciplinedCons(Call(Search(path)), []);
    case PickServer => DisciplinedCons(TakeMutex, [DropMutex]);
    case PassOn(req) => DisciplinedCons(Ask(req), []);
    case Change(op) =>
      DisciplinedCons(Call(op), [DropMutex]);
      DisciplinedCons(TakeMutex, [Call(op)] + [DropMutex]);
    case Forget(path) =>
      var tail := [DropCache] + [DropMutex];
      DisciplinedCons(DropCache, [DropMutex]);
      DisciplinedCons(TakeCache, tail);
      DisciplinedCons(Call(Delete(path)), [TakeCache] + tail);
      DisciplinedCons(TakeMutex, [Call(Delete(path))] + ([TakeCache] + tail));
    case UseCache => DisciplinedCons(TakeCache, [DropCache]);
  }

  lemma {:induction false} ConcatIsDisciplined(pieces: seq<Piece>)
    ensures Disciplined(Concat(pieces), false, false)
  {
    if pieces != [] {
      PieceIsDisciplined(pieces[0]);
      ConcatIsDisciplined(pieces[1..]);
      DisciplinedAppend(Actions(pieces[0]), Concat(pieces[1..]), false, false);
    }
  }

  /** Every handler takes the server mutex before trie and cache locks and nothing while it holds the cache, and waits
      for storage servers while it holds neither. */
  lemma HandlersAreDisciplined(h: Handler)
    ensures Disciplined(Script(h), false, false)
  {
    ConcatIsDisciplined(Pieces(h));
  }
}
