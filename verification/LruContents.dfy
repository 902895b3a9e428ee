/** What each operation leaves in the cache, node by node and slot by slot. */
module LruContents {
  import opened Paths
  import opened LruSpec
  import opened LruTheorems

  /** After a put the first node is the path's, with the value just put: the node found, or a new one. Behind it are
      the nodes that were there, unchanged and in order, but for the last if a full cache had to make room. */
  lemma PutStores(c: Cache, path: Path, info: SsInfo)
    requires ListInv(c)
    ensures Put(c, path, info).list != []
    ensures Put(c, path, info).list[0].path == path && Put(c, path, info).list[0].info == info
    ensures Put(c, path, info).list[0].id == if Find(c, path).Some? then c.list[Find(c, path).value].id else c.nextId
    ensures Put(c, path, info).list[1..]
         == match Find(c, path)
            case Some(i) => c.list[..i] + c.list[i + 1..]
            case None => if |c.list| == 100 then c.list[..99] else c.list
  {
    if Find(c, path).Some? {
      var i := Find(c, path).value;
      MoveToFrontAt(c.list[i := c.list[i].(info := info)], i);
      assert Put(c, path, info).list[1..] == c.list[..i] + c.list[i + 1..];
    }
  }

  /** A put that finds its node moves no slot; one that does not points the path's slot to the new node, and empties
      the evicted node's own slot if that pointed there. */
  lemma PutSetsSlots(c: Cache, path: Path, info: SsInfo, h: nat)
    requires ListInv(c) && h < 100
    ensures |Put(c, path, info).slots| == 100
    ensures Put(c, path, info).slots[h]
         == if Find(c, path).Some? then c.slots[h]
            else if h == Slot(path) then Some(c.nextId)
            else if |c.list| == 100 && h == Slot(c.list[99].path) && c.slots[h] == Some(c.list[99].id) then None
            else c.slots[h]
  {
  }

  /** A removal moves no slot but the path's own, and that only if it pointed to the node found: to the next node of the
      list, whatever its hash, or to nothing. */
  lemma RemoveSetsSlots(c: Cache, path: Path, h: nat)
    requires ListInv(c) && h < 100
    ensures |Remove(c, path).slots| == 100
    ensures Remove(c, path).slots[h]
         == match Find(c, path)
            case None => c.slots[h]
            case Some(i) =>
              if h != Slot(path) || c.slots[h] != Some(c.list[i].id) then c.slots[h]
              else if i == |c.list| - 1 then None
              else Some(c.list[i + 1].id)
  {
  }

  /** The last put that found or created the node `id`. */
  ghost function LastPut(ops: seq<Op>, id: nat): Option<Op> {
    if ops == [] then None
    else
      var before, op := ops[..|ops| - 1], ops[|ops| - 1];
      if op.PutOp? && Used(Run(before), op) == Some(id) then Some(op) else LastPut(before, id)
  }

  /** After every run, each node holds the path and the value of the last put that used it. */
  lemma {:induction false} NodesHoldLastPut(ops: seq<Op>, i: nat)
    requires i < |Run(ops).list|
    ensures LastPut(ops, Run(ops).list[i].id) == Some(PutOp(Run(ops).list[i].path, Run(ops).list[i].info))
  {
    if ops != [] {
      var before, op := ops[..|ops| - 1], ops[|ops| - 1];
      RunKeepsInv(before);
      RunKeepsInv(ops);
      var j := NodeBefore(Run(before), op, i);
      if j.Some? { NodesHoldLastPut(before, j.value); }
    }
  }

  /** Where the node at `i` was before the operation, which did not put it. */
  lemma NodeBefore(c: Cache, op: Op, i: nat) returns (j: Option<nat>)
    requires ListInv(c) && DistinctIds(Apply(c, op).list) && i < |Apply(c, op).list|
    ensures
      var e := Apply(c, op).list[i];
      match j
      case None => op == PutOp(e.path, e.info) && Used(c, op) == Some(e.id)
      case Some(j) => j < |c.list| && c.list[j] == e && (op.PutOp? ==> Used(c, op) != Some(e.id))
  {
    var d, found := Apply(c, op), Find(c, op.path);
    if op.PutOp? {
      PutStores(c, op.path, op.info);
      if i == 0 {
        j := None;
      } else {
        assert d.list[i] == d.list[1..][i - 1];
        j := Some(if found.Some? && i > found.value then i else i - 1);
      }
    } else {
      GetMovesToFront(c, op.path);
      j := Some(if found == None || i > found.value then i else if i == 0 then found.value else i - 1);
    }
  }
}
