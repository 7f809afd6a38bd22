/** Paths in a graph, strongly connected sets, and the breadth-first scan that finds what the entry can reach. */
module Reachability {
  import opened GraphRun

  /** The nodes one edge away; END is not a node. */
  function Succs(g: Graph, x: NodeId): set<NodeId> {
    set e | e in Out(g, x) && e.dest != END :: e.dest
  }

  ghost predicate IsPath(g: Graph, p: seq<NodeId>) {
    |p| > 0 && forall i :: 0 < i < |p| ==> p[i] in Succs(g, p[i - 1])
  }

  ghost predicate Joins(g: Graph, p: seq<NodeId>, x: NodeId, y: NodeId) {
    IsPath(g, p) && p[0] == x && p[|p| - 1] == y
  }

  /** Some path leads from x to y; every node reaches itself. */
  ghost predicate Reach(g: Graph, x: NodeId, y: NodeId) {
    exists p :: Joins(g, p, x, y)
  }

  lemma ReachSelf(g: Graph, x: NodeId)
    ensures Reach(g, x, x)
  {
    assert Joins(g, [x], x, x);
  }

  lemma ReachEdge(g: Graph, x: NodeId, y: NodeId)
    requires y in Succs(g, x)
    ensures Reach(g, x, y)
  {
    assert Joins(g, [x, y], x, y);
  }

  lemma ReachTransitive(g: Graph, x: NodeId, y: NodeId, z: NodeId)
    requires Reach(g, x, y) && Reach(g, y, z)
    ensures Reach(g, x, z)
  {
    var p :| Joins(g, p, x, y);
    var q :| Joins(g, q, y, z);
    var r := p + q[1..];
    forall i | 0 < i < |r|
      ensures r[i] in Succs(g, r[i - 1])
    {
      if i >= |p| {
        assert r[i] == q[i - |p| + 1];
        assert r[i - 1] == q[i - |p|];
      }
    }
    assert Joins(g, r, x, z);
  }

  /** A path that leaves a set leaves it over an edge. */
  lemma CrossingEdge(g: Graph, inside: set<NodeId>, x: NodeId, y: NodeId) returns (u: NodeId, v: NodeId)
    requires Reach(g, x, y) && x in inside && y !in inside
    ensures u in inside && v !in inside && v in Succs(g, u) && Reach(g, v, y)
  {
    var p :| Joins(g, p, x, y);
    u, v := CrossingAlong(g, inside, p, x, y);
  }

  lemma {:induction false} CrossingAlong(g: Graph, inside: set<NodeId>, p: seq<NodeId>, x: NodeId, y: NodeId)
    returns (u: NodeId, v: NodeId)
    requires Joins(g, p, x, y) && x in inside && y !in inside
    ensures u in inside && v !in inside && v in Succs(g, u) && Reach(g, v, y)
    decreases |p|
  {
    assert |p| > 1;
    var q := p[1..];
    assert p[1] in Succs(g, p[0]);
    assert IsPath(g, q) by {
      forall i | 0 < i < |q|
        ensures q[i] in Succs(g, q[i - 1])
      {
        assert q[i] == p[i + 1] && q[i - 1] == p[i];
      }
    }
    assert Joins(g, q, p[1], y);
    if p[1] in inside {
      u, v := CrossingAlong(g, inside, q, p[1], y);
    } else {
      u, v := x, p[1];
    }
  }

  /** Nothing outside a successor-closed set is reachable from inside it. */
  lemma ClosedSetHolds(g: Graph, inside: set<NodeId>, x: NodeId, y: NodeId)
    requires Reach(g, x, y) && x in inside
    requires forall u :: u in inside ==> Succs(g, u) <= inside
    ensures y in inside
  {
    if y !in inside {
      var u, v := CrossingEdge(g, inside, x, y);
    }
  }

  // ------------------------------------------------------------------ BFS

  lemma SuccsAreKnown(g: Graph, x: NodeId)
    requires Valid(g)
    ensures forall y :: y in Succs(g, x) ==> y in g.order
  {
  }

  /** The set of nodes reachable from a start node, found breadth first: exactly those, no fewer. */
  method ReachableFrom(g: Graph, start: NodeId) returns (seen: set<NodeId>)
    requires Valid(g) && start in g.order
    ensures forall y :: y in seen <==> Reach(g, start, y)
  {
    ghost var all := set id | id in g.order;
    seen := {start};
    var queue := [start];
    ReachSelf(g, start);
    while |queue| > 0
      invariant seen <= all && start in seen
      invariant forall y :: y in queue ==> y in seen
      invariant forall y :: y in seen ==> Reach(g, start, y)
      invariant forall u :: u in seen && u !in queue ==> Succs(g, u) <= seen
      decreases all - seen, |queue|
    {
      var id := queue[0];
      assert queue == [id] + queue[1..];
      seen, queue := Expand(g, start, id, all, seen, queue[1..]);
    }
    forall y | Reach(g, start, y)
      ensures y in seen
    {
      ClosedSetHolds(g, seen, start, y);
    }
  }

  /** One node's edges: every target not yet seen is marked and queued. */
  method Expand(g: Graph, ghost start: NodeId, id: NodeId, ghost all: set<NodeId>, before: set<NodeId>, waiting: seq<NodeId>)
    returns (seen: set<NodeId>, queue: seq<NodeId>)
    requires Valid(g) && all == (set x | x in g.order) && before <= all && id in before
    requires Reach(g, start, id) && (forall y :: y in before ==> Reach(g, start, y))
    requires forall y :: y in waiting ==> y in before
    ensures before <= seen <= all && waiting <= queue
    ensures Succs(g, id) <= seen
    ensures forall y :: y in queue ==> y in seen
    ensures forall y :: y in seen && y !in before ==> y in queue
    ensures forall y :: y in seen ==> Reach(g, start, y)
    ensures seen == before ==> queue == waiting
  {
    seen, queue := before, waiting;
    var edges := Out(g, id);
    for i := 0 to |edges|
      invariant before <= seen <= all && waiting <= queue
      invariant forall k :: 0 <= k < i && edges[k].dest != END ==> edges[k].dest in seen
      invariant forall y :: y in queue ==> y in seen
      invariant forall y :: y in seen && y !in before ==> y in queue
      invariant forall y :: y in seen ==> Reach(g, start, y)
      invariant seen == before ==> queue == waiting
    {
      var w := edges[i].dest;
      if w == END || w in seen {
        continue;
      }
      assert w in Succs(g, id);
      SuccsAreKnown(g, id);
      ReachEdge(g, id, w);
      ReachTransitive(g, start, id, w);
      seen, queue := seen + {w}, queue + [w];
    }
  }

  // ---------------------------------------------------- strong connection

  ghost predicate Mutual(g: Graph, x: NodeId, y: NodeId) {
    Reach(g, x, y) && Reach(g, y, x)
  }

  /** The maximal strongly connected set around a node. */
  ghost function Component(g: Graph, x: NodeId): set<NodeId> {
    set y | y in g.order && Mutual(g, x, y)
  }

  /** The node lies on a cycle, self-loops included. */
  ghost predicate OnCycle(g: Graph, x: NodeId) {
    exists y :: y in Succs(g, x) && Reach(g, y, x)
  }

  lemma MutualTransitive(g: Graph, x: NodeId, y: NodeId, z: NodeId)
    requires Mutual(g, x, y) && Mutual(g, y, z)
    ensures Mutual(g, x, z)
  {
    ReachTransitive(g, x, y, z);
    ReachTransitive(g, z, y, x);
  }

  /** Mutual nodes share their component. */
  lemma ComponentShared(g: Graph, x: NodeId, y: NodeId)
    requires Mutual(g, x, y)
    ensures Component(g, x) == Component(g, y)
  {
    forall z
      ensures Mutual(g, x, z) <==> Mutual(g, y, z)
    {
      if Mutual(g, x, z) { MutualTransitive(g, y, x, z); }
      if Mutual(g, y, z) { MutualTransitive(g, x, y, z); }
    }
  }

  /** Components are equal or disjoint. */
  lemma ComponentsDisjoint(g: Graph, x: NodeId, y: NodeId)
    ensures Component(g, x) == Component(g, y) || Component(g, x) !! Component(g, y)
  {
    if z :| z in Component(g, x) && z in Component(g, y) {
      MutualTransitive(g, x, z, y);
      ComponentShared(g, x, y);
    }
  }

  /** What the analysis reports: several mutually reachable nodes, or one with an edge to itself. */
  ghost predicate Cyclic(g: Graph, x: NodeId) {
    Component(g, x) != {x} || exists e :: e in Out(g, x) && e.dest == x
  }

  /** No edge counts towards END, so nothing else reaches a node of that name. */
  lemma OnlyEndReachesEnd(g: Graph, x: NodeId)
    requires Reach(g, x, END)
    ensures x == END
  {
    var p :| Joins(g, p, x, END);
    assert |p| > 1 ==> p[|p| - 1] in Succs(g, p[|p| - 2]);
  }

  lemma OrdinaryCyclicIffOnCycle(g: Graph, x: NodeId)
    requires Valid(g) && x in g.order && x != END
    ensures Cyclic(g, x) <==> OnCycle(g, x)
  {
    var c := Component(g, x);
    ReachSelf(g, x);
    if OnCycle(g, x) {
      var y :| y in Succs(g, x) && Reach(g, y, x);
      ReachEdge(g, x, y);
      SuccsAreKnown(g, x);
      assert y in c;
    }
    if c != {x} {
      assert x in c;
      var y :| y in c && y != x;
      var u, v := CrossingEdge(g, {x}, x, y);
      ReachTransitive(g, v, y, x);
    } else if e :| e in Out(g, x) && e.dest == x {
      assert x in Succs(g, x);
    }
  }

  /** A node named like the END marker is its own component and on no cycle, whatever its edges. */
  lemma EndIsAlone(g: Graph)
    requires END in g.order
    ensures Component(g, END) == {END} && !OnCycle(g, END)
  {
    ReachSelf(g, END);
    forall y | y in Component(g, END)
      ensures y == END
    {
      OnlyEndReachesEnd(g, y);
    }
    forall y | y in Succs(g, END)
      ensures !Reach(g, y, END)
    {
      if Reach(g, y, END) {
        OnlyEndReachesEnd(g, y);
      }
    }
  }

  predicate HasSelfEdge(g: Graph, x: NodeId) {
    exists e :: e in Out(g, x) && e.dest == x
  }

  /** The report is right, a node being reported if and only if it lies on a cycle, exactly for every node but one named like END with an edge to itself. */
  lemma CyclicIffOnCycle(g: Graph, x: NodeId)
    requires Valid(g) && x in g.order
    ensures (Cyclic(g, x) <==> OnCycle(g, x)) <==> !(x == END && HasSelfEdge(g, x))
  {
    if x == END {
      EndIsAlone(g);
    } else {
      OrdinaryCyclicIffOnCycle(g, x);
    }
  }
}
