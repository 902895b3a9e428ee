/** The text that answers LIST: one path a line. */
module Listing {
  import opened Paths

  const NEWLINE: Byte := 10

  function Lines(paths: seq<Path>): seq<Byte> {
    if paths == [] then []
    else if |paths| == 1 then Bytes(paths[0])
    else Lines(paths[..|paths| - 1]) + [NEWLINE] + Bytes(paths[|paths| - 1])
  }

  /** The lines of a text, as a client sees them. */
  function Split(text: seq<Byte>): (r: seq<seq<Byte>>)
    ensures r != []
  {
    if text == [] then [[]]
    else
      var before, last := Split(text[..|text| - 1]), text[|text| - 1];
      if last == NEWLINE then before + [[]] else before[|before| - 1 := before[|before| - 1] + [last]]
  }

  lemma {:induction false} SplitLine(text: seq<Byte>, line: seq<Byte>)
    requires NEWLINE !in line
    ensures Split(text + [NEWLINE] + line) == Split(text) + [line]
  {
    var all := text + [NEWLINE] + line;
    if line == [] {
      assert all[..|all| - 1] == text;
    } else {
      var n := |line| - 1;
      assert all[..|all| - 1] == text + [NEWLINE] + line[..n];
      SplitLine(text, line[..n]);
      assert line == line[..n] + [line[n]];
    }
  }

  lemma {:induction false} SplitOneLine(line: seq<Byte>)
    requires NEWLINE !in line
    ensures Split(line) == [line]
  {
    if line != [] {
      var n := |line| - 1;
      SplitOneLine(line[..n]);
      assert line == line[..n] + [line[n]];
    }
  }

  /** A line break more is a line more. */
  function Breaks(text: seq<Byte>): nat {
    if text == [] then 0 else Breaks(text[..|text| - 1]) + if text[|text| - 1] == NEWLINE then 1 else 0
  }

  lemma {:induction false} SplitCounts(text: seq<Byte>)
    ensures |Split(text)| == Breaks(text) + 1
  {
    if text != [] { SplitCounts(text[..|text| - 1]); }
  }

  lemma {:induction false} BreaksAdd(a: seq<Byte>, b: seq<Byte>)
    ensures Breaks(a + b) == Breaks(a) + Breaks(b)
  {
    if b == [] { assert a + b == a; } else {
      assert (a + b)[..|a + b| - 1] == a + b[..|b| - 1];
      BreaksAdd(a, b[..|b| - 1]);
    }
  }

  lemma {:induction false} BreaksOf(text: seq<Byte>)
    ensures Breaks(text) == 0 <==> NEWLINE !in text
  {
    if text != [] {
      var n := |text| - 1;
      BreaksOf(text[..n]);
      assert text == text[..n] + [text[n]];
    }
  }

  predicate OneLine(path: Path) {
    NEWLINE !in Bytes(path)
  }

  predicate OneLiners(paths: seq<Path>) {
    forall i :: 0 <= i < |paths| ==> OneLine(paths[i])
  }

  lemma OneLinersAndLast(paths: seq<Path>)
    requires paths != []
    ensures OneLiners(paths) <==> OneLiners(paths[..|paths| - 1]) && OneLine(paths[|paths| - 1])
  {
    var n := |paths| - 1;
    forall i | 0 <= i < n ensures paths[..n][i] == paths[i] {}
  }

  lemma LineAdds(text: seq<Byte>, line: seq<Byte>)
    ensures Breaks(text + [NEWLINE] + line) == Breaks(text) + 1 + Breaks(line)
  {
    BreaksAdd(text + [NEWLINE], line);
    BreaksAdd(text, [NEWLINE]);
    assert [NEWLINE][..0] == [];
    assert Breaks([NEWLINE]) == 1;
  }

  lemma {:induction false} LinesCount(paths: seq<Path>)
    requires paths != []
    ensures Breaks(Lines(paths)) >= |paths| - 1
    ensures Breaks(Lines(paths)) == |paths| - 1 <==> OneLiners(paths)
  {
    var n := |paths| - 1;
    BreaksOf(Bytes(paths[n]));
    OneLinersAndLast(paths);
    if n > 0 {
      LinesCount(paths[..n]);
      LineAdds(Lines(paths[..n]), Bytes(paths[n]));
    }
  }

  function Texts(paths: seq<Path>): (r: seq<seq<Byte>>)
    ensures |r| == |paths|
  {
    seq(|paths|, i requires 0 <= i < |paths| => Bytes(paths[i]))
  }

  lemma {:induction false} OneLinersSplit(paths: seq<Path>)
    requires paths != [] && OneLiners(paths)
    ensures Split(Lines(paths)) == Texts(paths)
  {
    var n := |paths| - 1;
    if n == 0 {
      SplitOneLine(Bytes(paths[0]));
    } else {
      OneLinersAndLast(paths);
      OneLinersSplit(paths[..n]);
      SplitLine(Lines(paths[..n]), Bytes(paths[n]));
      assert Texts(paths[..n]) + [Bytes(paths[n])] == Texts(paths);
    }
  }

  /** A client that splits the answer into lines gets the listed paths exactly if there are any and none contains a
      line break. */
  lemma LinesCanBeToldApart(paths: seq<Path>)
    ensures Split(Lines(paths)) == Texts(paths) <==> paths != [] && OneLiners(paths)
  {
    if paths != [] {
      LinesCount(paths);
      SplitCounts(Lines(paths));
      if OneLiners(paths) { OneLinersSplit(paths); }
    }
  }

  lemma TextsDiffer(a: seq<Path>, b: seq<Path>)
    requires Texts(a) == Texts(b)
    ensures a == b
  {
    assert |Texts(a)| == |a| && |Texts(b)| == |b|;
    forall i | 0 <= i < |a| ensures a[i] == b[i] {
      assert Bytes(a[i]) == Texts(a)[i] == Texts(b)[i] == Bytes(b[i]);
      BytesDiffer(a[i], b[i]);
    }
  }

  lemma BytesDiffer(p: Path, q: Path)
    requires Bytes(p) == Bytes(q)
    ensures p == q
  {
    forall i | 0 <= i < |p| ensures p[i] == q[i] { assert Bytes(p)[i] as int == Bytes(q)[i] as int; }
  }

  /** Without line breaks in the paths, two different listings give the same answer exactly if one is empty and the
      other lists the empty path alone. */
  lemma SameLines(a: seq<Path>, b: seq<Path>)
    requires OneLiners(a) && OneLiners(b) && a != b
    ensures Lines(a) == Lines(b) <==> (a == [] && b == [[]]) || (a == [[]] && b == [])
  {
    var none: Path := [];
    assert Lines([none]) == [] == Lines([]);
    if Lines(a) == Lines(b) {
      if a != [] && b != [] {
        OneLinersSplit(a);
        OneLinersSplit(b);
        TextsDiffer(a, b);
      } else {
        EmptyLines(if a == [] then b else a);
      }
    }
  }

  lemma EmptyLines(paths: seq<Path>)
    requires paths != [] && OneLiners(paths) && Lines(paths) == []
    ensures paths == [[]]
  {
    OneLinersSplit(paths);
    assert Texts(paths) == [[]];
    assert |paths| == 1 && Bytes(paths[0]) == [];
  }

  /** Two listings in a row are separated by one line feed, whatever the paths contain; the listing of one path is the
      path. */
  lemma {:induction false} LinesJoin(a: seq<Path>, b: seq<Path>)
    ensures Lines([]) == []
    ensures |a| == 1 ==> Lines(a) == Bytes(a[0])
    ensures a != [] && b != [] ==> Lines(a + b) == Lines(a) + [10] + Lines(b)
  {
    if a != [] && b != [] {
      var n := |b| - 1;
      assert (a + b)[..|a| + n] == a + b[..n];
      if n == 0 {
        assert a + b[..n] == a;
      } else {
        LinesJoin(a, b[..n]);
        Regroup(Lines(a), Lines(b[..n]), Bytes(b[n]));
      }
    }
  }

  lemma Regroup(x: seq<Byte>, y: seq<Byte>, z: seq<Byte>)
    ensures x + [10] + y + [10] + z == x + [10] + (y + [10] + z)
  {
  }
}
