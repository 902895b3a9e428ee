/** The naming server's directory: a 256-way tree of nodes on the heap. */
module Tries {
  import opened Paths
  import opened Protocol
  import opened PathTree

  const MAX_CHILDREN: nat := 256

  class TrieNode {
    const children: array<TrieNode?>
    var ssInfo: Option<Srv>

    constructor ()
      ensures fresh(children) && children.Length == MAX_CHILDREN
      ensures forall b :: 0 <= b < MAX_CHILDREN ==> children[b] == null
      ensures ssInfo == None
    {
      children := new TrieNode?[MAX_CHILDREN](_ => null);
      ssInfo := None;
    }
  }

  function Lookup(m: map<Path, Srv>, p: Path): Option<Srv> {
    if p in m then Some(m[p]) else None
  }

  class Trie {
    const root: TrieNode
    /** The node reached by each string that leads to one. */
    ghost var nodes: map<Path, TrieNode>
    /** The map the tree stands for. */
    ghost var contents: map<Path, Srv>
    ghost var Repr: set<object>

    /** A tree without sharing: every edge leads to the node of the longer string, and to no other. */
    ghost predicate Valid()
      reads this, Repr
    {
      && this in Repr && (forall p :: p in nodes ==> nodes[p] in Repr && nodes[p].children in Repr)
      && PrefixClosed(nodes.Keys) && nodes[[]] == root
      && Unshared()
      && (forall p :: p in nodes ==> Wired(p))
      && contents.Keys <= nodes.Keys
      && (forall p :: p in nodes ==> nodes[p].ssInfo == Lookup(contents, p))
    }

    /** Different strings lead to different arrays of children, and so to different nodes. */
    ghost predicate Unshared()
      reads this
    {
      forall p, q :: p in nodes && q in nodes && p != q ==> nodes[p].children != nodes[q].children
    }

    ghost predicate Wired(p: Path)
      requires p in nodes
      reads this, nodes[p].children
    {
      var children := nodes[p].children;
      && children.Length == MAX_CHILDREN && children[0] == null
      && (forall b: PathByte :: children[b] == if p + [b] in nodes then nodes[p + [b]] else null)
    }

    constructor ()
      ensures Valid() && PathsFit() && fresh(Repr) && contents == map[]
    {
      var r := new TrieNode();
      root := r;
      nodes := map[[] := r];
      contents := map[];
      Repr := {this, r, r.children};
    }

    method Insert(path: Path, ssInfo: Srv)
      requires Valid()
      modifies Repr
      ensures Valid() && fresh(Repr - old(Repr))
      ensures contents == old(contents)[path := ssInfo]
      ensures forall p :: p in nodes <==> p in old(nodes) || OnTheWay(p, path)
    {
      var current := root;
      assert path[..0] == [];
      for i := 0 to |path|
        invariant Valid() && fresh(Repr - old(Repr))
        invariant path[..i] in nodes && nodes[path[..i]] == current
        invariant contents == old(contents)
        invariant forall p :: p in nodes <==> p in old(nodes) || OnTheWay(p, path[..i])
      {
        var index := path[i];
        assert path[..i + 1] == path[..i] + [index];
        OneStepFurther(path[..i], index);
        assert Wired(path[..i]);
        if current.children[index] == null {
          AddChild(current, path[..i], index);
        }
        assert Wired(path[..i]);
        current := current.children[index];
      }
      assert path[..|path|] == path;
      Store(current, path, Some(ssInfo));
    }

    /** `current->children[index] = create_trie_node()`. */
    method AddChild(current: TrieNode, ghost prefix: Path, index: PathByte)
      requires Valid() && prefix in nodes && nodes[prefix] == current
      requires prefix + [index] !in nodes
      modifies this, current.children
      ensures Valid() && fresh(Repr - old(Repr))
      ensures prefix + [index] in nodes && nodes == old(nodes)[prefix + [index] := nodes[prefix + [index]]]
      ensures contents == old(contents)
    {
      assert Wired(prefix) && Unshared();
      ghost var longer := prefix + [index];
      var child := new TrieNode();
      current.children[index] := child;
      PrefixClosedGrows(nodes.Keys, prefix, index);
      nodes := nodes[longer := child];
      Repr := Repr + {child, child.children};
      assert nodes.Keys == old(nodes.Keys) + {longer};
      forall p | p in nodes ensures Wired(p) {
        assert p != longer ==> old(Wired(p));
        forall b: PathByte ensures p + [b] == longer <==> p == prefix && b == index {
          AppendInjective(p, b, prefix, index);
        }
      }
    }

    method Store(current: TrieNode, ghost path: Path, info: Option<Srv>)
      requires Valid() && path in nodes && nodes[path] == current
      modifies this`contents, current
      ensures Valid()
      ensures contents == if info.Some? then old(contents)[path := info.value] else old(contents) - {path}
    {
      current.ssInfo := info;
      contents := if info.Some? then contents[path := info.value] else contents - {path};
      assert forall p :: p in nodes ==> old(Wired(p)) && Wired(p);
    }

    method Search(path: Path) returns (info: Option<Srv>)
      requires Valid()
      ensures info == Lookup(contents, path)
    {
      var current := root;
      assert path[..0] == [];
      for i := 0 to |path|
        invariant path[..i] in nodes && nodes[path[..i]] == current
      {
        var index := path[i];
        assert path[..i + 1] == path[..i] + [index];
        assert Wired(path[..i]);
        if current.children[index] == null {
          NoNodeBeyond(path, i + 1);
          return None;
        }
        current := current.children[index];
      }
      assert path[..|path|] == path;
      info := current.ssInfo;
    }

    method Delete(path: Path)
      requires Valid()
      modifies Repr
      ensures Valid() && Repr == old(Repr) && nodes == old(nodes)
      ensures contents == old(contents) - {path}
    {
      var current := root;
      assert path[..0] == [];
      for i := 0 to |path|
        invariant path[..i] in nodes && nodes[path[..i]] == current
      {
        var index := path[i];
        assert path[..i + 1] == path[..i] + [index];
        assert Wired(path[..i]);
        if current.children[index] == null {
          NoNodeBeyond(path, i + 1);
          return;
        }
        current := current.children[index];
      }
      assert path[..|path|] == path;
      Store(current, path, None);
    }

    /** Where the walk stops, no longer string has a node. */
    lemma NoNodeBeyond(path: Path, i: nat)
      requires Valid() && i <= |path| && path[..i] !in nodes
      ensures path !in nodes
    {
      if path in nodes { PrefixesInTree(nodes.Keys, path, i); }
    }

    // ---------- LIST ----------

    /** No string stored is longer than the buffers allow. */
    ghost predicate PathsFit()
      reads this
    {
      forall p :: p in nodes ==> |p| < MAX_PATH_LEN
    }

    /** Collects into `paths` the first mapped paths in byte order; one buffer serves the whole walk. */
    method CollectPaths(currentPath: array<Byte>, paths: array<Path>) returns (count: nat)
      requires Valid() && PathsFit() && Buffers(currentPath, paths)
      modifies currentPath, paths
      ensures count <= paths.Length
      ensures IsFirst(paths[..count], contents.Keys, MAX_ACCESSIBLE_PATHS)
    {
      count := CollectPathsRecursive(root, [], currentPath, 0, paths, 0);
      WalkIsFirst(nodes.Keys, contents.Keys, MAX_ACCESSIBLE_PATHS);
      ghost var w := Walk(nodes.Keys, contents.Keys, []);
      assert paths[..count] == Truncate(w, MAX_ACCESSIBLE_PATHS) by { assert [] + w == w; }
    }

    ghost predicate Buffers(currentPath: array<Byte>, paths: array<Path>)
      reads this
    {
      && currentPath.Length == MAX_PATH_LEN && paths.Length == MAX_ACCESSIBLE_PATHS
      && currentPath !in Repr && paths !in Repr
    }

    method CollectPathsRecursive(node: TrieNode, ghost prefix: Path, currentPath: array<Byte>, level: nat,
                                 paths: array<Path>, count: nat) returns (n: nat)
      requires Valid() && PathsFit() && Buffers(currentPath, paths)
      requires prefix in nodes && nodes[prefix] == node && |prefix| == level && count <= paths.Length
      requires currentPath[..level] == Bytes(prefix)
      modifies currentPath, paths
      ensures n <= paths.Length && currentPath[..level] == Bytes(prefix)
      ensures paths[..n] == Truncate(old(paths[..count]) + Walk(nodes.Keys, contents.Keys, prefix),
                                     MAX_ACCESSIBLE_PATHS)
      decreases Below(nodes.Keys, prefix), 2
    {
      ghost var sofar, own := paths[..count], if prefix in contents then [prefix] else [];
      n := CollectNode(node, prefix, currentPath, level, paths, count);
      n := CollectChildren(node, prefix, currentPath, level, paths, n);
      TruncateTwice(sofar, own, WalkFrom(nodes.Keys, contents.Keys, prefix, 0), MAX_ACCESSIBLE_PATHS);
    }

    method CollectChildren(node: TrieNode, ghost prefix: Path, currentPath: array<Byte>, level: nat,
                           paths: array<Path>, count: nat) returns (n: nat)
      requires Valid() && PathsFit() && Buffers(currentPath, paths)
      requires prefix in nodes && nodes[prefix] == node && |prefix| == level && count <= paths.Length
      requires currentPath[..level] == Bytes(prefix) && count <= MAX_ACCESSIBLE_PATHS
      modifies currentPath, paths
      ensures n <= paths.Length && currentPath[..level] == Bytes(prefix)
      ensures paths[..n] == Truncate(old(paths[..count]) + WalkFrom(nodes.Keys, contents.Keys, prefix, 0),
                                     MAX_ACCESSIBLE_PATHS)
      decreases Below(nodes.Keys, prefix), 1
    {
      n := count;
      ghost var sofar: seq<Path>, done: seq<Path> := paths[..count], [];
      ghost var tree, mapped := nodes.Keys, contents.Keys;
      for i := 0 to MAX_CHILDREN
        invariant n <= paths.Length && currentPath[..level] == Bytes(prefix)
        invariant WalkFrom(tree, mapped, prefix, 0) == done + WalkFrom(tree, mapped, prefix, i)
        invariant paths[..n] == Truncate(sofar + done, MAX_ACCESSIBLE_PATHS)
      {
        n := CollectChild(node, prefix, i, currentPath, level, paths, n);
        ghost var more := WalkChild(tree, mapped, prefix, i);
        WalkGoesOn(tree, mapped, prefix, i, done);
        TruncateTwice(sofar, done, more, MAX_ACCESSIBLE_PATHS);
        done := done + more;
      }
    }

    /** The node's own path, if it is mapped. */
    method CollectNode(node: TrieNode, ghost prefix: Path, currentPath: array<Byte>, level: nat,
                       paths: array<Path>, count: nat) returns (n: nat)
      requires Valid() && prefix in nodes && nodes[prefix] == node
      requires currentPath.Length == MAX_PATH_LEN && paths.Length == MAX_ACCESSIBLE_PATHS
      requires |prefix| == level < MAX_PATH_LEN && count <= paths.Length && currentPath[..level] == Bytes(prefix)
      modifies currentPath, paths
      ensures n <= paths.Length && currentPath[..level] == Bytes(prefix)
      ensures paths[..n] == Truncate(old(paths[..count]) + if prefix in contents then [prefix] else [],
                                     MAX_ACCESSIBLE_PATHS)
    {
      n := count;
      if node.ssInfo.Some? {
        if n < MAX_ACCESSIBLE_PATHS {
          n := Record(prefix, currentPath, level, paths, n);
        }
      }
    }

    /** One turn of the loop over the children. */
    method CollectChild(node: TrieNode, ghost prefix: Path, i: nat, currentPath: array<Byte>, level: nat,
                        paths: array<Path>, count: nat) returns (n: nat)
      requires Valid() && PathsFit() && Buffers(currentPath, paths)
      requires prefix in nodes && nodes[prefix] == node && |prefix| == level && count <= paths.Length
      requires currentPath[..level] == Bytes(prefix) && i < MAX_CHILDREN
      modifies currentPath, paths
      ensures n <= paths.Length && currentPath[..level] == Bytes(prefix)
      ensures paths[..n] == Truncate(old(paths[..count]) + WalkChild(nodes.Keys, contents.Keys, prefix, i),
                                     MAX_ACCESSIBLE_PATHS)
      decreases Below(nodes.Keys, prefix), 0
    {
      n := count;
      assert Wired(prefix);
      if node.children[i] != null {
        ghost var longer := prefix + [i as PathByte];
        BelowShrinks(nodes.Keys, prefix, i as PathByte);
        var child: TrieNode := node.children[i];
        currentPath[level] := i as Byte;
        assert currentPath[..level + 1] == Bytes(longer);
        n := CollectPathsRecursive(child, longer, currentPath, level + 1, paths, count);
        assert currentPath[..level] == currentPath[..level + 1][..level] == Bytes(longer)[..level];
      }
    }

    method Record(ghost prefix: Path, currentPath: array<Byte>, level: nat, paths: array<Path>, count: nat)
      returns (n: nat)
      requires currentPath.Length == MAX_PATH_LEN && level == |prefix| < MAX_PATH_LEN
      requires count < paths.Length && currentPath[..level] == Bytes(prefix)
      modifies currentPath, paths
      ensures n == count + 1 && currentPath[..level] == old(currentPath[..level])
      ensures paths[..n] == old(paths[..count]) + [prefix]
    {
      currentPath[level] := 0;
      CStringOfTerminated(prefix, currentPath[..]);
      paths[count] := CString(currentPath[..]);
      n := count + 1;
    }

    // ---------- teardown ----------

    /** The strings that lead to the freed nodes: all below `prefix` that branch off before `b`, none twice, and
        extensions first. */
    ghost predicate FreedBefore(prefix: Path, b: nat, freed: seq<TrieNode>, order: seq<Path>)
      reads this
    {
      && |freed| == |order| && (forall i :: 0 <= i < |order| ==> order[i] in nodes && freed[i] == nodes[order[i]])
      && ExtensionsFirst(order)
      && (forall p :: p in order <==> p in nodes && BranchesBefore(prefix, b, p))
    }

    ghost predicate BranchesBefore(prefix: Path, b: nat, p: Path) {
      prefix <= p && |p| > |prefix| && p[|prefix|] as int < b
    }

    /** `free_trie`; `freed` logs the calls of `free`, children before their parent. */
    method FreeTrie(node: TrieNode, ghost prefix: Path) returns (freed: seq<TrieNode>, ghost order: seq<Path>)
      requires Valid() && prefix in nodes && nodes[prefix] == node
      ensures |freed| == |order| > 0 && FreedBefore(prefix, MAX_CHILDREN, freed[..|freed| - 1], order[..|order| - 1])
      ensures order[|order| - 1] == prefix && freed[|freed| - 1] == node && ExtensionsFirst(order)
      decreases Below(nodes.Keys, prefix), 1
    {
      freed, order := [], [];
      for b := 0 to MAX_CHILDREN
        invariant FreedBefore(prefix, b, freed, order)
      {
        freed, order := FreeChild(node, prefix, b, freed, order);
      }
      forall i | 0 <= i < |order| ensures !OnTheWay(order[i], prefix) { assert order[i] in order; }
      freed, order := freed + [node], order + [prefix];
      assert freed[..|freed| - 1] + [node] == freed && order[..|order| - 1] + [prefix] == order;
    }

    method FreeChild(node: TrieNode, ghost prefix: Path, b: nat, sofar: seq<TrieNode>, ghost visited: seq<Path>)
      returns (freed: seq<TrieNode>, ghost order: seq<Path>)
      requires Valid() && prefix in nodes && nodes[prefix] == node && b < MAX_CHILDREN
      requires FreedBefore(prefix, b, sofar, visited)
      ensures FreedBefore(prefix, b + 1, freed, order)
      decreases Below(nodes.Keys, prefix), 0
    {
      freed, order := sofar, visited;
      assert Wired(prefix);
      if node.children[b] != null {
        BelowShrinks(nodes.Keys, prefix, b as PathByte);
        var child: TrieNode := node.children[b];
        var more: seq<TrieNode>;
        ghost var rest: seq<Path>;
        more, rest := FreeTrie(child, prefix + [b as PathByte]);
        BranchFreed(prefix, b as PathByte, more, rest);
        Joined(prefix, b as PathByte, freed, order, more, rest);
        freed, order := freed + more, order + rest;
      } else {
        NothingBelow(prefix, b);
      }
    }

    lemma NothingBelow(prefix: Path, b: nat)
      requires Valid() && prefix in nodes && b < MAX_CHILDREN && (b > 0 ==> prefix + [b as PathByte] !in nodes)
      ensures forall p :: p in nodes && BranchesBefore(prefix, b + 1, p) ==> BranchesBefore(prefix, b, p)
    {
      forall p | p in nodes && BranchesBefore(prefix, b + 1, p) ensures p[|prefix|] as int != b {
        PrefixesInTree(nodes.Keys, p, |prefix| + 1);
        assert p[..|prefix| + 1] == prefix + [p[|prefix|]];
      }
    }

    lemma Joined(prefix: Path, b: PathByte, freed: seq<TrieNode>, order: seq<Path>,
                 more: seq<TrieNode>, rest: seq<Path>)
      requires FreedBefore(prefix, b as nat, freed, order) && |more| == |rest|
      requires forall i :: 0 <= i < |rest| ==> rest[i] in nodes && more[i] == nodes[rest[i]]
      requires ExtensionsFirst(rest)
      requires forall p :: p in rest <==> p in nodes && prefix <= p && |p| > |prefix| && p[|prefix|] == b
      ensures FreedBefore(prefix, b as nat + 1, freed + more, order + rest)
    {
      var both := order + rest;
      forall i, j | 0 <= i < j < |both| ensures !OnTheWay(both[i], both[j]) {
        if i < |order| <= j { assert both[i] in order && both[j] in rest; }
      }
    }

    /** A subtree, its root included, is what branches off at `b`. */
    lemma BranchFreed(prefix: Path, b: PathByte, freed: seq<TrieNode>, order: seq<Path>)
      requires prefix + [b] in nodes && |freed| == |order| > 0
      requires FreedBefore(prefix + [b], MAX_CHILDREN, freed[..|freed| - 1], order[..|order| - 1])
      requires order[|order| - 1] == prefix + [b] && freed[|freed| - 1] == nodes[prefix + [b]]
      ensures forall i :: 0 <= i < |order| ==> order[i] in nodes && freed[i] == nodes[order[i]]
      ensures forall p :: p in order <==> p in nodes && prefix <= p && |p| > |prefix| && p[|prefix|] == b
    {
      var n, longer := |order| - 1, prefix + [b];
      assert order == order[..n] + [longer] && freed == freed[..n] + [nodes[longer]];
      forall p: Path ensures longer <= p <==> prefix <= p && |p| > |prefix| && p[|prefix|] == b {
        if prefix <= p && |p| > |prefix| && p[|prefix|] == b { assert p[..|longer|] == longer; }
      }
      forall p: Path ensures longer <= p <==> p == longer || BranchesBefore(longer, MAX_CHILDREN, p) {}
    }

    /** Every node is freed, exactly once, and none before its children. */
    method Free() returns (freed: seq<TrieNode>)
      requires Valid()
      ensures forall n :: n in freed <==> n in nodes.Values
      ensures forall i, j :: 0 <= i < j < |freed| ==> freed[i] != freed[j] && !IsChild(freed[i], freed[j])
    {
      ghost var order: seq<Path>;
      freed, order := FreeTrie(root, []);
      ghost var n := |order| - 1;
      forall p | p in nodes ensures p in order {
        assert p == [] || BranchesBefore([], MAX_CHILDREN, p);
        if p != [] { assert p in order[..n]; }
      }
      forall i | 0 <= i < |order| ensures order[i] in nodes && freed[i] == nodes[order[i]] {
        if i < n { assert order[..n][i] == order[i] && freed[..n][i] == freed[i]; }
      }
      forall i, j | 0 <= i < j < |order| ensures freed[i] != freed[j] && !IsChild(freed[i], freed[j]) {
        NoChildLater(order[i], order[j]);
      }
    }

    ghost predicate IsChild(parent: TrieNode, node: TrieNode)
      reads parent.children
    {
      exists b :: 0 <= b < parent.children.Length && parent.children[b] == node
    }

    lemma NoChildLater(p: Path, q: Path)
      requires Valid() && p in nodes && q in nodes && !OnTheWay(p, q)
      ensures nodes[p] != nodes[q] && !IsChild(nodes[p], nodes[q])
    {
      assert Wired(p) && Unshared();
      assert p != q;
      forall b | 0 <= b < MAX_CHILDREN ensures nodes[p].children[b] != nodes[q] {
        if b > 0 && p + [b as PathByte] in nodes {
          assert OnTheWay(p, p + [b as PathByte]);
        }
      }
    }
  }
}
