/** Export of node trees to self-contained documents, and reading them back. */
module Portable {
  import opened Text
  import opened Json

  datatype NodeKind = Folder | Ref | History | Content

  datatype Node = Node(
    id: string,
    parent: Option<string>,
    sortOrder: i64,
    kind: NodeKind,
    tag: Option<string>,
    definition: Option<string>,
    enabled: bool,
    meta: Json)

  datatype Definition = Definition(id: string, defType: string, name: string, content: string, meta: Json)

  predicate UniqueIds(nodes: seq<Node>) {
    forall i, j :: 0 <= i < j < |nodes| ==> nodes[i].id != nodes[j].id
  }

  /** Nodes by id, as collecting them into a map leaves it. */
  function ById(nodes: seq<Node>): map<string, Node> {
    if nodes == [] then map[]
    else ById(nodes[..|nodes| - 1])[nodes[|nodes| - 1].id := nodes[|nodes| - 1]]
  }

  method CollectById(nodes: seq<Node>) returns (byId: map<string, Node>)
    ensures byId == ById(nodes)
  {
    byId := map[];
    for k := 0 to |nodes|
      invariant byId == ById(nodes[..k])
    {
      assert nodes[..k + 1][..k] == nodes[..k];
      byId := byId[nodes[k].id := nodes[k]];
    }
    assert nodes[..|nodes|] == nodes;
  }

  predicate Indexes(byId: map<string, Node>, nodes: seq<Node>) {
    && (forall id :: id in byId ==> byId[id] in nodes && byId[id].id == id)
    && forall j :: 0 <= j < |nodes| ==> nodes[j].id in byId && byId[nodes[j].id] == nodes[j]
  }

  lemma {:induction false} ByIdIndexes(nodes: seq<Node>)
    requires UniqueIds(nodes)
    ensures Indexes(ById(nodes), nodes)
  {
    if nodes != [] {
      var front, last := nodes[..|nodes| - 1], nodes[|nodes| - 1];
      ByIdIndexes(front);
      assert nodes == front + [last];
      assert forall j :: 0 <= j < |front| ==> nodes[j] == front[j];
    }
  }

  // ---- Which nodes are kept ----

  function ParentOf(byId: map<string, Node>, n: Node): Option<Node> {
    if n.parent.Some? && n.parent.value in byId then Some(byId[n.parent.value]) else None
  }

  /** Each node the parent of the one before. */
  predicate Linked(byId: map<string, Node>, chain: seq<Node>) {
    chain != [] && forall k :: 0 < k < |chain| ==> ParentOf(byId, chain[k - 1]) == Some(chain[k])
  }

  /** A whole ancestor chain: it ends in a node without a parent among the nodes. */
  predicate Whole(byId: map<string, Node>, chain: seq<Node>) {
    Linked(byId, chain) && ParentOf(byId, chain[|chain| - 1]).None?
  }

  predicate AllEnabled(chain: seq<Node>) {
    forall k :: 0 <= k < |chain| ==> chain[k].enabled
  }

  /** The node's ancestor chain comes to an end, which no cycle does, and everything on it is enabled. */
  ghost predicate Clear(byId: map<string, Node>, n: Node) {
    exists chain: seq<Node> :: Whole(byId, chain) && chain[0] == n && AllEnabled(chain)
  }

  /** Walking upward is deterministic: a walk is the beginning of the whole chain, if there is one. */
  lemma {:induction false} WalkIsPrefix(byId: map<string, Node>, walk: seq<Node>, chain: seq<Node>)
    requires Linked(byId, walk) && Whole(byId, chain) && walk[0] == chain[0]
    ensures walk <= chain
  {
    var n := |walk| - 1;
    if n > 0 {
      assert ParentOf(byId, walk[n - 1]) == Some(walk[n]);
      WalkIsPrefix(byId, walk[..n], chain);
      assert walk[..n][n - 1] == chain[n - 1];
      if n < |chain| {
        assert ParentOf(byId, chain[n - 1]) == Some(chain[n]);
      }
      assert walk == walk[..n] + [walk[n]];
    }
  }

  /** A walk that comes back to a node has no end. */
  lemma CycleIsEndless(byId: map<string, Node>, walk: seq<Node>, j: nat, chain: seq<Node>)
    requires Linked(byId, walk) && j < |walk| - 1 && walk[j] == walk[|walk| - 1]
    requires chain != [] && walk[0] == chain[0]
    ensures !Whole(byId, chain)
  {
    if Whole(byId, chain) {
      WalkIsPrefix(byId, walk, chain);
      var n := |walk| - 1;
      TailIsWhole(byId, chain, j);
      TailIsWhole(byId, chain, n);
      assert chain[j..][0] == chain[n..][0];
      WalkIsPrefix(byId, chain[j..], chain[n..]);
    }
  }

  lemma TailIsWhole(byId: map<string, Node>, chain: seq<Node>, j: nat)
    requires Whole(byId, chain) && j < |chain|
    ensures Whole(byId, chain[j..])
  {
    var tail := chain[j..];
    forall k | 0 < k < |tail|
      ensures ParentOf(byId, tail[k - 1]) == Some(tail[k])
    {
      assert ParentOf(byId, chain[j + k - 1]) == Some(chain[j + k]);
    }
  }

  lemma WalkStep(byId: map<string, Node>, walk: seq<Node>, p: Node)
    requires Linked(byId, walk) && ParentOf(byId, walk[|walk| - 1]) == Some(p)
    ensures Linked(byId, walk + [p])
  {
    var more := walk + [p];
    forall k | 0 < k < |more|
      ensures ParentOf(byId, more[k - 1]) == Some(more[k])
    {
      if k < |walk| {
        assert more[k - 1] == walk[k - 1] && more[k] == walk[k];
      }
    }
  }

  /** Walks up from a node with the ids it has seen, so that a cycle of parents does not keep it walking. */
  method IsClear(n: Node, byId: map<string, Node>, ghost nodes: seq<Node>) returns (clear: bool)
    requires Indexes(byId, nodes) && n in nodes
    ensures clear <==> Clear(byId, n)
  {
    hide ParentOf, Linked, Whole, AllEnabled;
    var cur := n;
    var seen: set<string> := {};
    ghost var walk := [n];
    OneIsLinked(byId, n);
    while true
      invariant Linked(byId, walk) && walk != [] && walk[0] == n && walk[|walk| - 1] == cur
      invariant forall k :: 0 <= k < |walk| ==> walk[k] in nodes
      invariant forall k :: 0 <= k < |walk| - 1 ==> walk[k].enabled
      invariant forall id :: id in seen ==> id in byId && exists k :: 0 <= k < |walk| - 1 && walk[k].id == id
      decreases byId.Keys - seen
    {
      if !cur.enabled {
        DisabledIsNotClear(byId, walk);
        return false;
      }
      if cur.id in seen {
        CycleIsNotClear(byId, nodes, walk);
        return false;
      }
      seen := seen + {cur.id};
      var parent := ParentOf(byId, cur);
      if parent.None? {
        EndIsClear(byId, walk);
        return true;
      }
      ParentIsKnown(byId, nodes, cur);
      WalkStep(byId, walk, parent.value);
      ghost var before := walk;
      walk := walk + [parent.value];
      forall id | id in seen
        ensures id in byId && exists k :: 0 <= k < |walk| - 1 && walk[k].id == id
      {
        var k :| 0 <= k < |before| && before[k].id == id;
        assert walk[k].id == id;
      }
      cur := parent.value;
    }
  }

  lemma OneIsLinked(byId: map<string, Node>, n: Node)
    ensures Linked(byId, [n])
  {
  }

  lemma ParentIsKnown(byId: map<string, Node>, nodes: seq<Node>, n: Node)
    requires Indexes(byId, nodes) && ParentOf(byId, n).Some?
    ensures ParentOf(byId, n).value in nodes
  {
  }

  lemma DisabledIsNotClear(byId: map<string, Node>, walk: seq<Node>)
    requires Linked(byId, walk) && !walk[|walk| - 1].enabled
    ensures !Clear(byId, walk[0])
  {
    forall chain: seq<Node> | Whole(byId, chain) && chain[0] == walk[0]
      ensures !AllEnabled(chain)
    {
      WalkIsPrefix(byId, walk, chain);
      assert !chain[|walk| - 1].enabled;
    }
  }

  lemma CycleIsNotClear(byId: map<string, Node>, nodes: seq<Node>, walk: seq<Node>)
    requires Indexes(byId, nodes) && Linked(byId, walk) && forall k :: 0 <= k < |walk| ==> walk[k] in nodes
    requires exists k :: 0 <= k < |walk| - 1 && walk[k].id == walk[|walk| - 1].id
    ensures !Clear(byId, walk[0])
  {
    var j :| 0 <= j < |walk| - 1 && walk[j].id == walk[|walk| - 1].id;
    assert walk[j] == byId[walk[j].id] == walk[|walk| - 1];
    forall chain: seq<Node> | chain != [] && chain[0] == walk[0]
      ensures !Whole(byId, chain)
    {
      CycleIsEndless(byId, walk, j, chain);
    }
  }

  lemma EndIsClear(byId: map<string, Node>, walk: seq<Node>)
    requires Linked(byId, walk) && ParentOf(byId, walk[|walk| - 1]).None?
    requires forall k :: 0 <= k < |walk| ==> walk[k].enabled
    ensures Clear(byId, walk[0])
  {
    assert Whole(byId, walk) && AllEnabled(walk);
  }

  ghost function KeptOf(byId: map<string, Node>, nodes: seq<Node>): seq<Node> {
    if nodes == [] then []
    else KeptOf(byId, nodes[..|nodes| - 1]) + if Clear(byId, nodes[|nodes| - 1]) then [nodes[|nodes| - 1]] else []
  }

  /** Keeps exactly the nodes whose whole ancestor chain is enabled, in order; parent cycles do not stop it. */
  method FilterEnabled(nodes: seq<Node>) returns (kept: seq<Node>)
    requires UniqueIds(nodes)
    ensures kept == KeptOf(ById(nodes), nodes)
  {
    hide Clear, ById, Indexes;
    var byId := CollectById(nodes);
    ByIdIndexes(nodes);
    kept := [];
    for k := 0 to |nodes|
      invariant kept == KeptOf(byId, nodes[..k])
    {
      assert nodes[..k + 1][..k] == nodes[..k];
      var clear := IsClear(nodes[k], byId, nodes);
      if clear {
        kept := kept + [nodes[k]];
      }
    }
    assert nodes[..|nodes|] == nodes;
  }

  lemma {:induction false} KeptMeaning(byId: map<string, Node>, nodes: seq<Node>)
    ensures forall n :: n in KeptOf(byId, nodes) <==> n in nodes && Clear(byId, n)
    ensures UniqueIds(nodes) ==> UniqueIds(KeptOf(byId, nodes))
  {
    hide Clear;
    if nodes != [] {
      var m := |nodes| - 1;
      KeptMeaning(byId, nodes[..m]);
      assert nodes == nodes[..m] + [nodes[m]];
      var kept := KeptOf(byId, nodes);
      if UniqueIds(nodes) {
        forall i, j | 0 <= i < j < |kept|
          ensures kept[i].id != kept[j].id
        {
          if j == |kept| - 1 && Clear(byId, nodes[m]) {
            assert kept[i] in nodes[..m];
          }
        }
      }
    }
  }

  /** With a node its parent is kept too. */
  lemma KeptHasItsParents(byId: map<string, Node>, nodes: seq<Node>, n: Node)
    requires Indexes(byId, nodes) && n in KeptOf(byId, nodes) && ParentOf(byId, n).Some?
    ensures ParentOf(byId, n).value in KeptOf(byId, nodes)
  {
    KeptMeaning(byId, nodes);
    var p := ParentOf(byId, n).value;
    ParentIsKnown(byId, nodes, n);
    assert Clear(byId, n);
    var chain: seq<Node> :| Whole(byId, chain) && chain[0] == n && AllEnabled(chain);
    if |chain| > 1 {
      assert ParentOf(byId, chain[0]) == Some(chain[1]);
      TailIsWhole(byId, chain, 1);
      assert chain[1..][0] == p && AllEnabled(chain[1..]);
    }
  }

  /** A node on a cycle of parents is never kept. */
  lemma CyclesAreDropped(byId: map<string, Node>, nodes: seq<Node>, cycle: seq<Node>)
    requires Indexes(byId, nodes) && |cycle| > 1 && Linked(byId, cycle) && cycle[0] == cycle[|cycle| - 1]
    ensures cycle[0] !in KeptOf(byId, nodes)
  {
    KeptMeaning(byId, nodes);
    forall chain: seq<Node> | chain != [] && chain[0] == cycle[0]
      ensures !Whole(byId, chain)
    {
      CycleIsEndless(byId, cycle, 0, chain);
    }
  }
}
