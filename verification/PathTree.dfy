/** The shape of a trie as a set of paths, and the order in which a depth-first walk meets them. */
module PathTree {
  import opened Paths

  /** Every node but the root hangs below another node. */
  ghost predicate PrefixClosed(tree: set<Path>) {
    [] in tree && forall p: Path, b: PathByte :: p + [b] in tree ==> p in tree
  }

  lemma {:induction false} PrefixesInTree(tree: set<Path>, p: Path, i: nat)
    requires PrefixClosed(tree) && p in tree && i <= |p|
    ensures p[..i] in tree
    decreases |p| - i
  {
    if i < |p| {
      PrefixesInTree(tree, p, i + 1);
      assert p[..i + 1] == p[..i] + [p[i]];
    } else {
      assert p[..i] == p;
    }
  }

  /** A walk along `p` passes `q`. */
  predicate OnTheWay(q: Path, p: Path) {
    q <= p
  }

  /** No path comes twice, nor before one of its extensions. */
  predicate ExtensionsFirst(order: seq<Path>) {
    forall i, j :: 0 <= i < j < |order| ==> !OnTheWay(order[i], order[j])
  }

  lemma OneStepFurther(p: Path, b: PathByte)
    ensures forall q :: OnTheWay(q, p + [b]) <==> OnTheWay(q, p) || q == p + [b]
  {
    forall q | OnTheWay(q, p + [b]) && q != p + [b] ensures OnTheWay(q, p) {
      assert q == (p + [b])[..|q|] == p[..|q|];
    }
  }

  lemma AppendInjective(p: Path, b: PathByte, q: Path, c: PathByte)
    ensures p + [b] == q + [c] ==> p == q && b == c
  {
    if p + [b] == q + [c] {
      assert (p + [b])[|p|] == b && (q + [c])[|p|] == c;
      assert p == (p + [b])[..|p|] == q;
    }
  }

  lemma PrefixClosedGrows(tree: set<Path>, prefix: Path, index: PathByte)
    requires PrefixClosed(tree) && prefix in tree
    ensures PrefixClosed(tree + {prefix + [index]})
  {
    forall p: Path, b: PathByte | p + [b] in tree + {prefix + [index]} ensures p in tree {
      AppendInjective(p, b, prefix, index);
    }
  }

  /** The nodes of the subtree at `prefix`. */
  ghost function Below(tree: set<Path>, prefix: Path): set<Path> {
    set p | p in tree && prefix <= p
  }

  lemma BelowShrinks(tree: set<Path>, prefix: Path, b: PathByte)
    requires prefix in tree
    ensures Below(tree, prefix + [b]) < Below(tree, prefix)
  {
    assert prefix in Below(tree, prefix) && prefix !in Below(tree, prefix + [b]);
  }

  /** The mapped paths of the subtree at `prefix`, in the order of a depth-first walk. */
  ghost function Walk(tree: set<Path>, mapped: set<Path>, prefix: Path): seq<Path>
    requires prefix in tree
    decreases Below(tree, prefix), 257
  {
    (if prefix in mapped then [prefix] else []) + WalkFrom(tree, mapped, prefix, 0)
  }

  /** The same for the children of `prefix` with index `b` and up. */
  ghost function WalkFrom(tree: set<Path>, mapped: set<Path>, prefix: Path, b: nat): seq<Path>
    requires prefix in tree && b <= 256
    decreases Below(tree, prefix), 256 - b
  {
    if b == 256 then []
    else WalkChild(tree, mapped, prefix, b) + WalkFrom(tree, mapped, prefix, b + 1)
  }

  ghost function WalkChild(tree: set<Path>, mapped: set<Path>, prefix: Path, b: nat): seq<Path>
    requires prefix in tree && b < 256
    decreases Below(tree, prefix), 0
  {
    if b != 0 && prefix + [b as PathByte] in tree then
      BelowShrinks(tree, prefix, b as PathByte);
      Walk(tree, mapped, prefix + [b as PathByte])
    else []
  }

  lemma WalkGoesOn(tree: set<Path>, mapped: set<Path>, prefix: Path, b: nat, done: seq<Path>)
    requires prefix in tree && b < 256
    requires WalkFrom(tree, mapped, prefix, 0) == done + WalkFrom(tree, mapped, prefix, b)
    ensures WalkFrom(tree, mapped, prefix, 0)
         == done + WalkChild(tree, mapped, prefix, b) + WalkFrom(tree, mapped, prefix, b + 1)
  {
  }

  lemma {:induction false} WalkIsOrdered(tree: set<Path>, mapped: set<Path>, prefix: Path)
    requires PrefixClosed(tree) && mapped <= tree && prefix in tree
    ensures forall q :: q in Walk(tree, mapped, prefix) <==> q in mapped && prefix <= q
    ensures StrictlyIncreasing(Walk(tree, mapped, prefix))
    decreases Below(tree, prefix), 257
  {
    WalkFromIsOrdered(tree, mapped, prefix, 0);
    var rest := WalkFrom(tree, mapped, prefix, 0);
    forall q | q in rest ensures Less(prefix, q) {
      assert q == prefix + q[|prefix|..];
      LessPrefix(prefix, q[|prefix|..]);
    }
    forall q | q in mapped && prefix <= q ensures q == prefix || prefix < q {
      if |q| == |prefix| { assert q == q[..|prefix|]; }
    }
  }

  lemma {:induction false} WalkFromIsOrdered(tree: set<Path>, mapped: set<Path>, prefix: Path, b: nat)
    requires PrefixClosed(tree) && mapped <= tree && prefix in tree && b <= 256
    ensures forall q :: q in WalkFrom(tree, mapped, prefix, b)
                    <==> q in mapped && prefix < q && q[|prefix|] as int >= b
    ensures StrictlyIncreasing(WalkFrom(tree, mapped, prefix, b))
    decreases Below(tree, prefix), 256 - b
  {
    if b < 256 {
      var first, rest := WalkChild(tree, mapped, prefix, b), WalkFrom(tree, mapped, prefix, b + 1);
      WalkChildIsOrdered(tree, mapped, prefix, b);
      WalkFromIsOrdered(tree, mapped, prefix, b + 1);
      forall q, r | q in first && r in rest ensures Less(q, r) {
        assert q == prefix + [q[|prefix|]] + q[|prefix| + 1..];
        assert r == prefix + [r[|prefix|]] + r[|prefix| + 1..];
        LessBranch(prefix, q[|prefix|], q[|prefix| + 1..], r[|prefix|], r[|prefix| + 1..]);
      }
    }
  }

  lemma {:induction false} WalkChildIsOrdered(tree: set<Path>, mapped: set<Path>, prefix: Path, b: nat)
    requires PrefixClosed(tree) && mapped <= tree && prefix in tree && b < 256
    ensures forall q :: q in WalkChild(tree, mapped, prefix, b)
                    <==> q in mapped && prefix < q && q[|prefix|] as int == b
    ensures StrictlyIncreasing(WalkChild(tree, mapped, prefix, b))
    decreases Below(tree, prefix), 0
  {
    if b != 0 && prefix + [b as PathByte] in tree {
      BelowShrinks(tree, prefix, b as PathByte);
      WalkIsOrdered(tree, mapped, prefix + [b as PathByte]);
      forall q: Path ensures prefix + [b as PathByte] <= q <==> prefix < q && q[|prefix|] as int == b {
        if prefix < q && q[|prefix|] as int == b { assert q[..|prefix| + 1] == prefix + [b as PathByte]; }
      }
    } else {
      forall q | q in mapped && prefix < q ensures q[|prefix|] as int != b {
        PrefixesInTree(tree, q, |prefix| + 1);
        assert q[..|prefix| + 1] == prefix + [q[|prefix|]];
      }
    }
  }

  // ---------- the answer to LIST ----------

  /** `r` is the first `limit` members of `keys` in byte order, or all of them. */
  ghost predicate IsFirst(r: seq<Path>, keys: set<Path>, limit: nat) {
    && StrictlyIncreasing(r)
    && |r| == (if |keys| < limit then |keys| else limit)
    && (forall q :: q in r ==> q in keys)
    && (forall q, k :: q in r && k in keys && k !in r ==> Less(q, k))
  }

  lemma {:induction false} IncreasingCounts(s: seq<Path>)
    requires StrictlyIncreasing(s)
    ensures |set q | q in s| == |s|
  {
    if s != [] {
      var t := s[..|s| - 1];
      IncreasingCounts(t);
      LessIrreflexive(s[|s| - 1]);
      assert (set q | q in s) == (set q | q in t) + {s[|s| - 1]};
    }
  }

  ghost function Truncate(w: seq<Path>, limit: nat): seq<Path> {
    if |w| <= limit then w else w[..limit]
  }

  lemma TruncateTwice(a: seq<Path>, b: seq<Path>, c: seq<Path>, limit: nat)
    ensures Truncate(Truncate(a + b, limit) + c, limit) == Truncate(a + (b + c), limit)
  {
    assert a + b + c == a + (b + c);
  }

  lemma WalkIsFirst(tree: set<Path>, mapped: set<Path>, limit: nat)
    requires PrefixClosed(tree) && mapped <= tree
    ensures IsFirst(Truncate(Walk(tree, mapped, []), limit), mapped, limit)
  {
    WalkIsOrdered(tree, mapped, []);
    var w := Walk(tree, mapped, []);
    IncreasingCounts(w);
    assert (set q | q in w) == mapped;
    if limit < |w| {
      forall q, k | q in w[..limit] && k in mapped && k !in w[..limit] ensures Less(q, k) {
        var i :| 0 <= i < limit && w[i] == q;
        assert k in w && w == w[..limit] + w[limit..];
        var j :| 0 <= j < |w[limit..]| && w[limit..][j] == k;
      }
    }
  }

  /** The description leaves no choice. */
  lemma {:induction false} FirstIsUnique(r: seq<Path>, s: seq<Path>, keys: set<Path>, limit: nat)
    requires IsFirst(r, keys, limit) && IsFirst(s, keys, limit)
    ensures r == s
  {
    if r != s {
      var i :| 0 <= i < |r| && r[i] != s[i] && forall j :: 0 <= j < i ==> r[j] == s[j] by {
        FirstDifference(r, s, |r|);
      }
      LessTotal(r[i], s[i]);
      SmallerIsNotMissed(r, s, i, keys, limit);
      SmallerIsNotMissed(s, r, i, keys, limit);
    }
  }

  lemma {:induction false} FirstDifference(r: seq<Path>, s: seq<Path>, n: nat)
    requires |r| == |s| && n <= |r| && r[..n] != s[..n]
    ensures exists i :: 0 <= i < n && r[i] != s[i] && forall j :: 0 <= j < i ==> r[j] == s[j]
  {
    if r[..n - 1] != s[..n - 1] {
      FirstDifference(r, s, n - 1);
    } else {
      forall j | 0 <= j < n - 1 ensures r[j] == s[j] { assert r[j] == r[..n - 1][j] == s[..n - 1][j]; }
      assert r[n - 1] != s[n - 1];
    }
  }

  lemma SmallerIsNotMissed(r: seq<Path>, s: seq<Path>, i: nat, keys: set<Path>, limit: nat)
    requires IsFirst(r, keys, limit) && IsFirst(s, keys, limit)
    requires i < |r| == |s| && forall j :: 0 <= j < i ==> r[j] == s[j]
    ensures !Less(r[i], s[i])
  {
    LessIrreflexive(r[i]);
    forall k, j | 0 <= j < |s| && Less(k, s[j]) && Less(s[j], k) ensures false {
      LessTransitive(k, s[j], k);
      LessIrreflexive(k);
    }
    if r[i] in s {
      var j :| 0 <= j < |s| && s[j] == r[i];
    }
  }
}
