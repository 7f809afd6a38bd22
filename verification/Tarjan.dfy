/**
 Tarjan's algorithm as the build-time analysis runs it: index, lowlink and stack
 updated in place by a recursive visit. For every graph and every visiting order
 it returns exactly the cyclic strongly connected components.
 */
module Tarjan {
  import opened GraphRun
  import opened Reachability

  /** The search between two steps: visit numbers, and the nodes still on the stack. */
  datatype Search = Search(index: map<NodeId, nat>, on: set<NodeId>, counter: nat)

  function At(t: Search, x: NodeId): nat {
    if x in t.index then t.index[x] else 0
  }

  predicate Finished(t: Search, x: NodeId) {
    x in t.index && x !in t.on
  }

  /** Visit numbers are distinct and come from the counter. */
  ghost predicate Indexed(g: Graph, t: Search) {
    && t.on <= t.index.Keys
    && (forall x :: x in t.index ==> x in g.order && At(t, x) < t.counter)
    && (forall x, y :: x in t.index && y in t.index && At(t, x) == At(t, y) ==> x == y)
  }

  /** A node whose visit is over has no unvisited successor. */
  ghost predicate NoneMissed(g: Graph, t: Search, gray: set<NodeId>) {
    forall x, y :: x in t.index && x !in gray && y in Succs(g, x) ==> y in t.index
  }

  /** A node being visited reaches everything pushed after it. */
  ghost predicate GrayReach(g: Graph, t: Search, gray: set<NodeId>) {
    && gray <= t.on
    && (forall x, y :: x in gray && y in t.on && At(t, x) <= At(t, y) ==> Reach(g, x, y))
  }

  /** `z` is being visited, was pushed no later than `y`, and `y` reaches it. */
  ghost predicate ReachesBack(g: Graph, t: Search, gray: set<NodeId>, y: NodeId, z: NodeId) {
    z in gray && At(t, z) <= At(t, y) && Reach(g, y, z)
  }

  /** Everything on the stack reaches back to a node being visited. */
  ghost predicate StackReach(g: Graph, t: Search, gray: set<NodeId>) {
    forall y :: y in t.on ==> exists z :: ReachesBack(g, t, gray, y, z)
  }

  /** Finished nodes come in whole components. */
  ghost predicate WholeComponents(g: Graph, t: Search) {
    forall x, y :: Finished(t, x) && y in g.order && Mutual(g, x, y) ==> Finished(t, y)
  }

  ghost predicate Ok(g: Graph, t: Search, gray: set<NodeId>) {
    && Valid(g)
    && Indexed(g, t) && NoneMissed(g, t, gray) && GrayReach(g, t, gray)
    && StackReach(g, t, gray) && WholeComponents(g, t)
  }

  /** The reported components are the cyclic ones among the finished, each once. */
  ghost predicate Reported(g: Graph, t: Search, comps: seq<set<NodeId>>) {
    && (forall c :: c in comps ==> exists x :: Finished(t, x) && Cyclic(g, x) && c == Component(g, x))
    && (forall x :: Finished(t, x) && Cyclic(g, x) ==> Component(g, x) in comps)
    && (forall i, j :: 0 <= i < j < |comps| ==> comps[i] != comps[j])
  }

  // ------------------------------------------------------- pushing a node

  function Pushed(t: Search, x: NodeId): Search {
    Search(t.index[x := t.counter], t.on + {x}, t.counter + 1)
  }

  lemma PushedAt(t: Search, x: NodeId, y: NodeId)
    requires x !in t.index && t.on <= t.index.Keys
    ensures At(Pushed(t, x), y) == if y == x then t.counter else At(t, y)
    ensures Finished(Pushed(t, x), y) <==> Finished(t, y)
  {
  }

  lemma PushIndexed(g: Graph, t: Search, gray: set<NodeId>, x: NodeId)
    requires Indexed(g, t) && NoneMissed(g, t, gray) && x !in t.index && x in g.order
    ensures Indexed(g, Pushed(t, x)) && NoneMissed(g, Pushed(t, x), gray + {x})
  {
    hide Succs;
    forall y ensures At(Pushed(t, x), y) == if y == x then t.counter else At(t, y) { PushedAt(t, x, y); }
    hide At;
  }

  lemma PushReach(g: Graph, t: Search, gray: set<NodeId>, x: NodeId)
    requires Indexed(g, t) && GrayReach(g, t, gray) && x !in t.index
    requires forall z :: z in gray ==> Reach(g, z, x)
    ensures GrayReach(g, Pushed(t, x), gray + {x})
  {
    hide Reach;
    var t', gray' := Pushed(t, x), gray + {x};
    ReachSelf(g, x);
    forall u, y | u in gray' && y in t'.on && At(t', u) <= At(t', y)
      ensures Reach(g, u, y)
    {
      PushedAt(t, x, u);
      PushedAt(t, x, y);
    }
  }

  lemma PushReachesBack(g: Graph, t: Search, gray: set<NodeId>, x: NodeId)
    requires Indexed(g, t) && GrayReach(g, t, gray) && StackReach(g, t, gray) && x !in t.index
    ensures StackReach(g, Pushed(t, x), gray + {x})
  {
    hide Reach;
    var t', gray' := Pushed(t, x), gray + {x};
    ReachSelf(g, x);
    forall y | y in t'.on
      ensures exists z :: ReachesBack(g, t', gray', y, z)
    {
      if y == x {
        assert ReachesBack(g, t', gray', x, x);
      } else {
        var z :| ReachesBack(g, t, gray, y, z);
        PushedAt(t, x, y);
        PushedAt(t, x, z);
        assert ReachesBack(g, t', gray', y, z);
      }
    }
  }

  lemma PushWhole(g: Graph, t: Search, x: NodeId)
    requires Indexed(g, t) && WholeComponents(g, t) && x !in t.index
    ensures WholeComponents(g, Pushed(t, x))
  {
    forall y ensures Finished(Pushed(t, x), y) <==> Finished(t, y) { PushedAt(t, x, y); }
    hide Finished, Pushed, Mutual;
  }

  lemma PushOk(g: Graph, t: Search, gray: set<NodeId>, x: NodeId)
    requires Ok(g, t, gray) && x !in t.index && x in g.order
    requires forall z :: z in gray ==> Reach(g, z, x)
    ensures Ok(g, Pushed(t, x), gray + {x})
  {
    hide Indexed, NoneMissed, GrayReach, StackReach, WholeComponents, Pushed, Reach, Valid;
    PushIndexed(g, t, gray, x);
    PushReach(g, t, gray, x);
    PushReachesBack(g, t, gray, x);
    PushWhole(g, t, x);
  }

  // ------------------------------------------------------------ low links

  /** `low` is the visit number of a stacked node that x reaches. */
  ghost predicate LowReached(g: Graph, t: Search, x: NodeId, low: nat, y: NodeId) {
    y in t.on && At(t, y) == low && Reach(g, x, y)
  }

  /** No edge from the nodes above x, and none of the edges `done` of x itself, goes below `low` on the stack under x. */
  ghost predicate LowBounds(g: Graph, t: Search, x: NodeId, low: nat, done: set<NodeId>) {
    && (forall u, v :: u in t.on && At(t, x) < At(t, u) && v in Succs(g, u) && v in t.on && At(t, v) < At(t, x) ==> low <= At(t, v))
    && (forall v :: v in done && v in t.on && At(t, v) < At(t, x) ==> low <= At(t, v))
  }

  /** One visit between two edges: x is the innermost node being visited, `done` the edges followed. */
  ghost predicate Visiting(g: Graph, t: Search, gray: set<NodeId>, x: NodeId, low: nat, done: set<NodeId>) {
    && x in gray
    && (forall z :: z in gray && z != x ==> At(t, z) < At(t, x))
    && low <= At(t, x) && (exists y :: LowReached(g, t, x, low, y))
    && done <= t.index.Keys
    && LowBounds(g, t, x, low, done)
  }

  lemma BeginVisit(g: Graph, t: Search, gray: set<NodeId>, x: NodeId)
    requires Ok(g, t, gray) && x !in t.index
    ensures Visiting(g, Pushed(t, x), gray + {x}, x, t.counter, {})
  {
    hide Reach, StackReach, NoneMissed, WholeComponents;
    ReachSelf(g, x);
    var t' := Pushed(t, x);
    assert LowReached(g, t', x, t.counter, x);
  }

  /** An edge to a node already on the stack. */
  lemma BackEdge(g: Graph, t: Search, gray: set<NodeId>, x: NodeId, low: nat, done: set<NodeId>, w: NodeId)
    requires Indexed(g, t) && Visiting(g, t, gray, x, low, done) && w in Succs(g, x) && w in t.on
    ensures Visiting(g, t, gray, x, if At(t, w) < low then At(t, w) else low, done + {w})
  {
    hide Reach;
    ReachEdge(g, x, w);
    if At(t, w) < low {
      assert LowReached(g, t, x, At(t, w), w);
    }
    hide At, Succs, LowReached;
    assert LowBounds(g, t, x, if At(t, w) < low then At(t, w) else low, done + {w});
  }

  /** An edge to a finished node changes nothing. */
  lemma SideEdge(g: Graph, t: Search, gray: set<NodeId>, x: NodeId, low: nat, done: set<NodeId>, w: NodeId)
    requires Visiting(g, t, gray, x, low, done) && Finished(t, w)
    ensures Visiting(g, t, gray, x, low, done + {w})
  {
    hide Reach;
  }

  /** The search has moved on: nothing visited is renumbered, and only new nodes were pushed. */
  ghost predicate Grew(t: Search, t': Search) {
    && t.counter <= t'.counter && t.on <= t'.on
    && (forall x :: x in t.index ==> x in t'.index && At(t', x) == At(t, x))
    && (forall x :: x in t'.index && x !in t.index ==> At(t', x) >= t.counter)
    && (forall x :: x in t'.on && x !in t.on ==> x !in t.index)
  }

  /** What the visit of w leaves behind, seen from its caller. */
  ghost predicate VisitedFrom(g: Graph, t: Search, w: NodeId, t': Search, low: nat) {
    && Grew(t, t') && w in t'.index && At(t', w) >= t.counter
    && (if Finished(t', w) then t'.on == t.on && low == At(t', w)
        else low < At(t', w) && exists y :: LowReached(g, t', w, low, y))
    && (forall u, v :: u in t'.on && u !in t.on && v in Succs(g, u) && v in t.on ==> low <= At(t', v))
  }

  lemma GrewTransitive(a: Search, b: Search, c: Search)
    requires Grew(a, b) && Grew(b, c)
    ensures Grew(a, c)
  {
    hide At;
  }

  lemma TreeEdgeReach(g: Graph, t: Search, x: NodeId, low: nat, w: NodeId, t': Search, wlow: nat)
    requires Indexed(g, t) && x in t.on && low <= At(t, x) && (exists y :: LowReached(g, t, x, low, y))
    requires w in Succs(g, x) && VisitedFrom(g, t, w, t', wlow)
    ensures var now := if wlow < low then wlow else low;
            exists y :: LowReached(g, t', x, now, y)
  {
    hide Reach;
    if wlow < low {
      assert At(t, x) < t.counter <= At(t', w);
      var y :| LowReached(g, t', w, wlow, y);
      ReachEdge(g, x, w);
      ReachTransitive(g, x, w, y);
      assert LowReached(g, t', x, wlow, y);
    } else {
      var y :| LowReached(g, t, x, low, y);
      assert LowReached(g, t', x, low, y);
    }
  }

  lemma TreeEdgeBounds(g: Graph, t: Search, x: NodeId, low: nat, done: set<NodeId>, w: NodeId, t': Search, wlow: nat)
    requires Indexed(g, t) && x in t.on && done <= t.index.Keys && LowBounds(g, t, x, low, done)
    requires VisitedFrom(g, t, w, t', wlow) && t'.on <= t'.index.Keys
    ensures LowBounds(g, t', x, if wlow < low then wlow else low, done + {w})
  {
    hide Reach, LowReached;
    var now := if wlow < low then wlow else low;
    assert At(t', x) == At(t, x) < t.counter;
    forall u, v | u in t'.on && At(t', x) < At(t', u) && v in Succs(g, u) && v in t'.on && At(t', v) < At(t', x)
      ensures now <= At(t', v)
    {
      assert v in t.on && At(t', v) == At(t, v);
      if u in t.on {
        assert At(t', u) == At(t, u);
      }
    }
    forall v | v in done + {w} && v in t'.on && At(t', v) < At(t', x)
      ensures now <= At(t', v)
    {
      assert v in t.on && v != w && At(t', v) == At(t, v);
    }
  }

  /** Back from a recursive visit. */
  lemma TreeEdge(g: Graph, t: Search, gray: set<NodeId>, x: NodeId, low: nat, done: set<NodeId>,
                 w: NodeId, t': Search, wlow: nat)
    requires Indexed(g, t) && gray <= t.on && Visiting(g, t, gray, x, low, done) && w in Succs(g, x)
    requires VisitedFrom(g, t, w, t', wlow) && t'.on <= t'.index.Keys
    ensures Visiting(g, t', gray, x, if wlow < low then wlow else low, done + {w})
  {
    hide Reach, LowReached, LowBounds;
    TreeEdgeReach(g, t, x, low, w, t', wlow);
    TreeEdgeBounds(g, t, x, low, done, w, t', wlow);
    forall z | z in gray && z != x
      ensures At(t', z) < At(t', x)
    {
      assert At(t', z) == At(t, z) && At(t', x) == At(t, x);
    }
  }

  // -------------------------------------------------------- ending a visit

  /** x and everything pushed after it. */
  function Segment(t: Search, x: NodeId): set<NodeId> {
    set y | y in t.on && At(t, x) <= At(t, y)
  }

  lemma SegmentReachesBack(g: Graph, t: Search, gray: set<NodeId>, x: NodeId, low: nat, done: set<NodeId>, u: NodeId)
    requires Ok(g, t, gray) && Visiting(g, t, gray, x, low, done) && u in Segment(t, x)
    ensures Mutual(g, x, u)
  {
    hide Reach, NoneMissed, WholeComponents, LowBounds;
    var z :| ReachesBack(g, t, gray, u, z);
    if z != x {
      ReachTransitive(g, u, z, x);
    }
  }

  lemma LowBoundsEdge(g: Graph, t: Search, x: NodeId, low: nat, done: set<NodeId>, u: NodeId, v: NodeId)
    requires LowBounds(g, t, x, low, done) && u in t.on && v in t.on && v in Succs(g, u)
    requires (u == x && v in done) || At(t, x) < At(t, u)
    ensures At(t, v) < At(t, x) ==> low <= At(t, v)
  {
  }

  /** When nothing reaches lower than x, an edge out of the segment does not lead back to x. */
  lemma SegmentIsClosed(g: Graph, t: Search, gray: set<NodeId>, x: NodeId, done: set<NodeId>, u: NodeId, v: NodeId)
    requires Ok(g, t, gray) && Visiting(g, t, gray, x, At(t, x), done) && done == Succs(g, x)
    requires u in Segment(t, x) && v in Succs(g, u) && Reach(g, v, x)
    ensures v in Segment(t, x)
  {
    SegmentReachesBack(g, t, gray, x, At(t, x), done, u);
    ReachEdge(g, u, v);
    ReachTransitive(g, x, u, v);
    hide Reach, StackReach, LowReached, LowBounds, Succs;
    assert v in t.index by {
      assert u != x ==> u !in gray;
    }
    assert x in g.order && Mutual(g, v, x) && !Finished(t, x);
    assert v in t.on;
    assert u == x || At(t, x) < At(t, u);
    LowBoundsEdge(g, t, x, At(t, x), done, u, v);
  }

  lemma SegmentIsComponent(g: Graph, t: Search, gray: set<NodeId>, x: NodeId, done: set<NodeId>)
    requires Ok(g, t, gray) && Visiting(g, t, gray, x, At(t, x), done) && done == Succs(g, x)
    ensures Segment(t, x) == Component(g, x)
  {
    hide Reach, StackReach, LowReached, LowBounds, NoneMissed, WholeComponents;
    var seg := Segment(t, x);
    assert x in seg;
    forall u | u in seg
      ensures u in Component(g, x)
    {
      SegmentReachesBack(g, t, gray, x, At(t, x), done, u);
    }
    forall y | y in Component(g, x)
      ensures y in seg
    {
      if y !in seg {
        var u, v := CrossingEdge(g, seg, x, y);
        ReachTransitive(g, v, y, x);
        SegmentIsClosed(g, t, gray, x, done, u, v);
      }
    }
  }

  function Popped(t: Search, x: NodeId): Search {
    t.(on := t.on - Segment(t, x))
  }

  lemma PopGray(g: Graph, t: Search, gray: set<NodeId>, x: NodeId)
    requires GrayReach(g, t, gray)
    requires forall z :: z in gray && z != x ==> At(t, z) < At(t, x)
    ensures GrayReach(g, Popped(t, x), gray - {x})
  {
    hide Reach;
    var t', gray' := Popped(t, x), gray - {x};
    forall u, y | u in gray' && y in t'.on && At(t', u) <= At(t', y)
      ensures Reach(g, u, y)
    {
      assert At(t', u) == At(t, u) && At(t', y) == At(t, y);
    }
  }

  lemma PopReachesBack(g: Graph, t: Search, gray: set<NodeId>, x: NodeId)
    requires StackReach(g, t, gray)
    ensures StackReach(g, Popped(t, x), gray - {x})
  {
    hide Reach;
    var t', gray' := Popped(t, x), gray - {x};
    forall y | y in t'.on
      ensures exists z :: ReachesBack(g, t', gray', y, z)
    {
      var z :| ReachesBack(g, t, gray, y, z);
      assert At(t', y) == At(t, y) && At(t', z) == At(t, z);
      assert ReachesBack(g, t', gray', y, z);
    }
  }

  lemma PopWhole(g: Graph, t: Search, x: NodeId)
    requires WholeComponents(g, t) && Segment(t, x) == Component(g, x) && x in Segment(t, x) && Indexed(g, t)
    ensures WholeComponents(g, Popped(t, x))
    ensures forall y :: Finished(Popped(t, x), y) <==> Finished(t, y) || y in Component(g, x)
  {
    hide Reach;
    var t' := Popped(t, x);
    assert forall y :: Finished(t', y) <==> Finished(t, y) || y in Component(g, x);
    forall u, y | Finished(t', u) && y in g.order && Mutual(g, u, y)
      ensures Finished(t', y)
    {
      if u in Component(g, x) {
        MutualTransitive(g, x, u, y);
        assert y in Component(g, x);
      }
    }
  }

  /** The root of a component: the segment leaves the stack whole. */
  lemma PopOk(g: Graph, t: Search, gray: set<NodeId>, x: NodeId, done: set<NodeId>)
    requires Ok(g, t, gray) && Visiting(g, t, gray, x, At(t, x), done) && done == Succs(g, x)
    ensures Ok(g, Popped(t, x), gray - {x})
    ensures Segment(t, x) == Component(g, x)
    ensures forall y :: Finished(Popped(t, x), y) <==> Finished(t, y) || y in Component(g, x)
  {
    assert x in Segment(t, x) && forall z :: z in gray && z != x ==> At(t, z) < At(t, x);
    hide Reach, StackReach, GrayReach, WholeComponents, LowReached, LowBounds, Segment, Component, Visiting, Succs;
    SegmentIsComponent(g, t, gray, x, done);
    PopGray(g, t, gray, x);
    PopReachesBack(g, t, gray, x);
    PopWhole(g, t, x);
    PopIndexed(g, t, gray, x, done);
  }

  lemma PopIndexed(g: Graph, t: Search, gray: set<NodeId>, x: NodeId, done: set<NodeId>)
    requires Indexed(g, t) && NoneMissed(g, t, gray) && done == Succs(g, x) && done <= t.index.Keys
    ensures Indexed(g, Popped(t, x)) && NoneMissed(g, Popped(t, x), gray - {x})
  {
    hide Succs;
    assert forall y :: At(Popped(t, x), y) == At(t, y);
    hide At;
  }

  /** Not a root: x stays on the stack and reaches back through its low link. */
  lemma LeaveOk(g: Graph, t: Search, gray: set<NodeId>, x: NodeId, low: nat, done: set<NodeId>)
    requires Ok(g, t, gray) && Visiting(g, t, gray, x, low, done) && done == Succs(g, x) && low < At(t, x)
    ensures Ok(g, t, gray - {x})
  {
    hide Reach, WholeComponents, LowBounds, Indexed, Succs, At;
    var gray' := gray - {x};
    assert NoneMissed(g, t, gray') && GrayReach(g, t, gray');
    LeaveReachesBack(g, t, gray, x, low);
  }

  lemma LeaveReachesBack(g: Graph, t: Search, gray: set<NodeId>, x: NodeId, low: nat)
    requires StackReach(g, t, gray) && low < At(t, x) && (exists y :: LowReached(g, t, x, low, y))
    ensures StackReach(g, t, gray - {x})
  {
    hide Reach;
    var gray' := gray - {x};
    var y0 :| LowReached(g, t, x, low, y0);
    var z0 :| ReachesBack(g, t, gray, y0, z0);
    forall y | y in t.on
      ensures exists z :: ReachesBack(g, t, gray', y, z)
    {
      var z :| ReachesBack(g, t, gray, y, z);
      if z == x {
        ReachTransitive(g, y, x, y0);
        ReachTransitive(g, y, y0, z0);
        assert ReachesBack(g, t, gray', y, z0);
      } else {
        assert ReachesBack(g, t, gray', y, z);
      }
    }
  }

  // ------------------------------------------------------------ reporting

  lemma ReportOne(g: Graph, t: Search, comps: seq<set<NodeId>>, t': Search, x: NodeId)
    requires x in g.order && Reported(g, t, comps) && !Finished(t, x) && WholeComponents(g, t)
    requires forall y :: Finished(t', y) <==> Finished(t, y) || y in Component(g, x)
    ensures Reported(g, t', if Cyclic(g, x) then comps + [Component(g, x)] else comps)
  {
    hide Reach, Finished;
    var c := Component(g, x);
    ReachSelf(g, x);
    assert x in c;
    forall y | y in c
      ensures Component(g, y) == c && (Cyclic(g, y) <==> Cyclic(g, x))
    {
      ComponentShared(g, x, y);
    }
    hide Component, Cyclic;
    forall y | Finished(t, y)
      ensures Component(g, y) != c
    {
      if Component(g, y) == c {
        ComponentIsMutual(g, x, y);
      }
    }
    assert c !in comps;
    var comps' := if Cyclic(g, x) then comps + [c] else comps;
    forall d | d in comps'
      ensures exists y :: Finished(t', y) && Cyclic(g, y) && d == Component(g, y)
    {
      if d in comps {
        var y :| Finished(t, y) && Cyclic(g, y) && d == Component(g, y);
        assert Finished(t', y);
      } else {
        assert Finished(t', x);
      }
    }
  }

  lemma ComponentIsMutual(g: Graph, x: NodeId, y: NodeId)
    requires x in g.order && Component(g, x) == Component(g, y)
    ensures Mutual(g, y, x)
  {
    ReachSelf(g, x);
    assert x in Component(g, x);
  }

  lemma SameFinished(g: Graph, t: Search, comps: seq<set<NodeId>>, t': Search)
    requires Reported(g, t, comps) && (forall y :: Finished(t, y) <==> Finished(t', y))
    ensures Reported(g, t', comps)
  {
    hide Reach, OnCycle, Finished, Component;
    forall c | c in comps
      ensures exists x :: Finished(t', x) && Cyclic(g, x) && c == Component(g, x)
    {
      var x :| Finished(t, x) && Cyclic(g, x) && c == Component(g, x);
      assert Finished(t', x);
    }
  }

  // ------------------------------------------------------- the search object

  /** The stack holds the unfinished nodes in visiting order. */
  ghost predicate Stacked(t: Search, stack: seq<NodeId>) {
    && (forall x :: x in stack <==> x in t.on)
    && (forall i, j :: 0 <= i < j < |stack| ==> At(t, stack[i]) < At(t, stack[j]))
  }

  lemma PushStacked(g: Graph, t: Search, stack: seq<NodeId>, x: NodeId)
    requires Indexed(g, t) && Stacked(t, stack) && x !in t.index
    ensures Stacked(Pushed(t, x), stack + [x])
  {
    var s := stack + [x];
    forall y ensures At(Pushed(t, x), y) == if y == x then t.counter else At(t, y) { PushedAt(t, x, y); }
    forall i, j | 0 <= i < j < |s|
      ensures At(Pushed(t, x), s[i]) < At(Pushed(t, x), s[j])
    {
      assert stack[i] in t.on;
    }
  }

  function Elements(s: seq<NodeId>): set<NodeId> {
    set y | y in s
  }

  lemma ElementsFrom(s: seq<NodeId>, n: nat)
    requires n < |s|
    ensures Elements(s[n..]) == Elements(s[n + 1..]) + {s[n]}
    ensures s[..n + 1][..n] == s[..n]
  {
    assert s[n..] == [s[n]] + s[n + 1..];
  }

  lemma StackedOnce(t: Search, stack: seq<NodeId>, i: nat, j: nat)
    requires Stacked(t, stack) && i < |stack| && j < |stack| && stack[i] == stack[j]
    ensures i == j
  {
    hide At;
  }

  function PoppedAll(t: Search, nodes: set<NodeId>): Search {
    t.(on := t.on - nodes)
  }

  /** Popping down to x takes exactly its segment. */
  lemma PopTakesSegment(g: Graph, t: Search, stack: seq<NodeId>, x: NodeId) returns (p: nat)
    requires Indexed(g, t) && Stacked(t, stack) && x in t.on
    ensures p < |stack| && stack[p] == x && Elements(stack[p..]) == Segment(t, x)
    ensures Elements(stack[|stack|..]) == {}
    ensures Popped(t, x) == PoppedAll(t, Segment(t, x)) && Stacked(Popped(t, x), stack[..p])
  {
    p :| 0 <= p < |stack| && stack[p] == x;
    forall y
      ensures y in stack[p..] <==> y in Segment(t, x)
      ensures y in stack[..p] <==> y in Popped(t, x).on
    {
      StackSplits(t, stack, p, y);
    }
    assert forall y :: At(Popped(t, x), y) == At(t, y);
    hide At, Segment, Indexed;
  }

  /** What lies at or above a stack position is what was pushed no earlier. */
  lemma StackSplits(t: Search, stack: seq<NodeId>, p: nat, y: NodeId)
    requires Stacked(t, stack) && p < |stack|
    ensures y in stack[p..] <==> y in Segment(t, stack[p])
    ensures y in stack[..p] <==> y in Popped(t, stack[p]).on
  {
    if y in t.on {
      var i :| 0 <= i < |stack| && stack[i] == y;
      if i < p {
        assert y == stack[..p][i];
      } else {
        assert y == stack[p..][i - p];
      }
    }
  }

  /** The targets of the first n edges. */
  function Followed(edges: seq<Edge>, n: nat): set<NodeId> {
    set k | 0 <= k < n && k < |edges| && edges[k].dest != END :: edges[k].dest
  }

  lemma FollowedAll(g: Graph, x: NodeId)
    ensures Followed(Out(g, x), |Out(g, x)|) == Succs(g, x)
  {
    var edges := Out(g, x);
    forall y
      ensures y in Followed(edges, |edges|) <==> y in Succs(g, x)
    {
      if y in Succs(g, x) {
        var e :| e in edges && e.dest != END && e.dest == y;
        var k :| 0 <= k < |edges| && edges[k] == e;
      }
    }
  }

  lemma FollowedOne(g: Graph, x: NodeId, n: nat)
    requires n < |Out(g, x)|
    ensures var w := Out(g, x)[n].dest;
            && Followed(Out(g, x), n + 1) == (if w == END then Followed(Out(g, x), n) else Followed(Out(g, x), n) + {w})
            && (w != END ==> w in Succs(g, x))
  {
    assert Out(g, x)[n] in Out(g, x);
  }

  /** The end of a visit, seen from its start: root or not, the caller's contract holds. */
  lemma VisitEnds(g: Graph, t0: Search, t: Search, gray: set<NodeId>, x: NodeId, low: nat)
    requires Indexed(g, t0) && Indexed(g, t) && Grew(t0, t) && x in t.on && x !in t0.index && At(t, x) == t0.counter
    requires Visiting(g, t, gray, x, low, Succs(g, x))
    ensures low < At(t, x) ==> VisitedFrom(g, t0, x, t, low)
    ensures low == At(t, x) ==> VisitedFrom(g, t0, x, Popped(t, x), low)
  {
    hide Reach, LowReached, Succs;
    assert forall u :: u in t.on && u !in t0.on ==> u == x || At(t, x) < At(t, u);
    assert forall v :: v in t0.on ==> At(t, v) < At(t, x);
    if low == At(t, x) {
      var t' := Popped(t, x);
      assert t'.on == t0.on;
      assert forall y :: At(t', y) == At(t, y);
    }
  }

  lemma EnterReady(g: Graph, t: Search, gray: set<NodeId>, x: NodeId, stack: seq<NodeId>, sccs: seq<set<NodeId>>)
    requires Ok(g, t, gray) && Stacked(t, stack) && Reported(g, t, sccs) && x !in t.index && x in g.order
    requires forall z :: z in gray ==> Reach(g, z, x)
    ensures Ok(g, Pushed(t, x), gray + {x}) && Stacked(Pushed(t, x), stack + [x]) && Reported(g, Pushed(t, x), sccs)
    ensures Visiting(g, Pushed(t, x), gray + {x}, x, t.counter, {})
  {
    PushOk(g, t, gray, x);
    BeginVisit(g, t, gray, x);
    PushStacked(g, t, stack, x);
    forall y ensures Finished(t, y) <==> Finished(Pushed(t, x), y) { PushedAt(t, x, y); }
    hide *;
    SameFinished(g, t, sccs, Pushed(t, x));
  }

  lemma OkParts(g: Graph, t: Search, gray: set<NodeId>)
    requires Ok(g, t, gray)
    ensures Valid(g) && Indexed(g, t) && WholeComponents(g, t) && StackReach(g, t, gray)
    ensures gray <= t.on <= t.index.Keys
    ensures forall x :: x in t.index ==> x in g.order && At(t, x) < t.counter
  {
    hide Reach, StackReach, WholeComponents;
  }

  lemma VisitingIsGray(g: Graph, t: Search, gray: set<NodeId>, x: NodeId, low: nat, done: set<NodeId>)
    requires Ok(g, t, gray) && Visiting(g, t, gray, x, low, done)
    ensures x in gray && x in t.on && x in t.index && low <= At(t, x) && gray <= t.on && Indexed(g, t)
    ensures !Finished(t, x)
  {
    hide Reach, StackReach, WholeComponents, LowBounds;
  }

  /** Every node being visited reaches the innermost one, so also its successors. */
  lemma EdgeFromGray(g: Graph, t: Search, gray: set<NodeId>, x: NodeId, low: nat, done: set<NodeId>, w: NodeId)
    requires Ok(g, t, gray) && Visiting(g, t, gray, x, low, done) && w in Succs(g, x)
    ensures w in g.order && forall z :: z in gray ==> Reach(g, z, w)
  {
    hide Reach, StackReach, WholeComponents, LowBounds, LowReached, NoneMissed;
    SuccsAreKnown(g, x);
    ReachEdge(g, x, w);
    forall z | z in gray
      ensures Reach(g, z, w)
    {
      ReachTransitive(g, z, x, w);
    }
  }

  lemma VisitedGrew(g: Graph, t: Search, w: NodeId, t': Search, low: nat)
    requires VisitedFrom(g, t, w, t', low)
    ensures Grew(t, t')
  {
  }

  lemma PushGrew(g: Graph, t: Search, x: NodeId)
    requires Indexed(g, t) && x !in t.index
    ensures Grew(Pushed(t, x), Pushed(t, x)) && Grew(t, Pushed(t, x))
  {
  }

  lemma GrewMore(g: Graph, t0: Search, x: NodeId, t: Search)
    requires Indexed(g, t0) && x !in t0.index && Grew(Pushed(t0, x), t)
    ensures Grew(t0, t) && x in t.index && x in t.on && At(t, x) == t0.counter && t.index.Keys > t0.index.Keys
  {
    PushGrew(g, t0, x);
    GrewTransitive(t0, Pushed(t0, x), t);
  }

  lemma FollowedNone(edges: seq<Edge>)
    ensures Followed(edges, 0) == {}
  {
  }

  /** The two tests on the popped component. */
  lemma SeveralOrLoop(g: Graph, x: NodeId, scc: set<NodeId>, selfLoop: bool)
    requires x in g.order && scc == Component(g, x)
    requires selfLoop <==> exists e :: e in Out(g, x) && e.dest == x
    ensures |scc| > 1 || selfLoop <==> Cyclic(g, x)
  {
    ReachSelf(g, x);
    assert x in scc;
    hide Component, Reach;
    if |scc| <= 1 {
      var rest := scc - {x};
      assert |rest| == |scc| - 1;
      assert rest == {};
      assert scc == {x};
    }
  }

  /** With no visit under way the stack is empty, so every numbered node is finished. */
  lemma AllFinished(g: Graph, t: Search, sccs: seq<set<NodeId>>)
    requires Ok(g, t, {}) && Reported(g, t, sccs) && (forall x :: x in g.order ==> x in t.index)
    ensures forall c :: c in sccs <==> exists x :: x in g.order && Cyclic(g, x) && c == Component(g, x)
    ensures forall i, j :: 0 <= i < j < |sccs| ==> sccs[i] !! sccs[j]
  {
    OkParts(g, t, {});
    hide Reach, Component, Cyclic;
    assert forall x, z :: !ReachesBack(g, t, {}, x, z);
    assert t.on == {};
    forall i, j | 0 <= i < j < |sccs|
      ensures sccs[i] !! sccs[j]
    {
      assert sccs[i] in sccs && sccs[j] in sccs;
      var x :| Finished(t, x) && sccs[i] == Component(g, x);
      var y :| Finished(t, y) && sccs[j] == Component(g, y);
      ComponentsDisjoint(g, x, y);
    }
    hide Finished;
  }

  class Finder {
    const g: Graph
    var index: map<NodeId, nat>
    var lowlink: map<NodeId, nat>
    var onStack: set<NodeId>
    var stack: seq<NodeId>
    var sccs: seq<set<NodeId>>
    var counter: nat

    function Now(): Search
      reads this
    {
      Search(index, onStack, counter)
    }

    function Low(x: NodeId): nat
      reads this
    {
      if x in lowlink then lowlink[x] else 0
    }

    ghost predicate Good(gray: set<NodeId>)
      reads this
    {
      Ok(g, Now(), gray) && Stacked(Now(), stack) && Reported(g, Now(), sccs)
    }

    /** An unvisited node that every node being visited reaches. */
    ghost predicate Visitable(id: NodeId, gray: set<NodeId>)
      reads this
    {
      Good(gray) && id !in index && id in g.order && forall z :: z in gray ==> Reach(g, z, id)
    }

    /** The visit of `id` has followed its first i edges. */
    ghost predicate Midway(id: NodeId, i: nat, gray: set<NodeId>)
      reads this
    {
      Good(gray) && id in lowlink && Visiting(g, Now(), gray, id, Low(id), Followed(Out(g, id), i))
    }

    constructor (g: Graph)
      requires Valid(g)
      ensures this.g == g && Good({}) && index == map[]
    {
      this.g := g;
      index, lowlink, onStack, stack, sccs, counter := map[], map[], {}, [], [], 0;
    }

    /** Pops the component whose root is `id` off the stack. */
    method PopComponent(id: NodeId) returns (scc: set<NodeId>)
      requires Indexed(g, Now()) && Stacked(Now(), stack) && id in onStack
      modifies this`stack, this`onStack
      ensures scc == Segment(old(Now()), id)
      ensures Now() == Popped(old(Now()), id) && Stacked(Now(), stack)
    {
      hide Indexed, Stacked, Segment, Elements, Popped;
      ghost var t, all := Now(), stack;
      ghost var p := PopTakesSegment(g, t, all, id);
      scc := {};
      while true
        invariant p < |stack| <= |all| && stack == all[..|stack|]
        invariant scc == Elements(all[|stack|..])
        invariant onStack == t.on - scc
        decreases |stack|
      {
        var n := |stack| - 1;
        var top := stack[n];
        ElementsFrom(all, n);
        stack := stack[..n];
        onStack := onStack - {top};
        scc := scc + {top};
        if top == id {
          StackedOnce(t, all, n, p);
          break;
        }
      }
      assert Now() == PoppedAll(t, scc) && stack == all[..p];
    }

    /** Numbers the node and puts it on the stack. */
    method Enter(id: NodeId, ghost gray: set<NodeId>)
      requires Visitable(id, gray)
      modifies this
      ensures Now() == Pushed(old(Now()), id) && lowlink == old(lowlink)[id := old(counter)]
      ensures Good(gray + {id}) && Visiting(g, Now(), gray + {id}, id, Low(id), {})
    {
      ghost var t := Now();
      hide Reach, Visiting, Indexed, NoneMissed, GrayReach, StackReach, WholeComponents, Reported, Stacked;
      EnterReady(g, t, gray, id, stack, sccs);
      index := index[id := counter];
      lowlink := lowlink[id := counter];
      counter := counter + 1;
      stack := stack + [id];
      onStack := onStack + {id};
    }

    /** One edge of the node being visited. */
    method Follow(id: NodeId, i: nat, ghost gray: set<NodeId>)
      requires Midway(id, i, gray) && i < |Out(g, id)|
      modifies this
      ensures Midway(id, i + 1, gray) && lowlink.Keys >= old(lowlink.Keys)
      ensures Grew(old(Now()), Now())
      ensures forall x :: x in old(index) && x != id ==> Low(x) == old(Low(x))
      decreases (set x | x in g.order) - index.Keys, 1
    {
      hide Reach, Indexed, NoneMissed, GrayReach, StackReach, WholeComponents, Reported, Stacked, LowReached, LowBounds, Visiting, Succs, Followed;
      ghost var t, low, done := Now(), lowlink[id], Followed(Out(g, id), i);
      FollowedOne(g, id, i);
      var w := Out(g, id)[i].dest;
      if w == END {
        return;
      }
      VisitingIsGray(g, t, gray, id, low, done);
      if w !in index {
        EdgeFromGray(g, t, gray, id, low, done, w);
        Visit(w, gray);
        hide VisitedFrom;
        OkParts(g, Now(), gray);
        TreeEdge(g, t, gray, id, low, done, w, Now(), lowlink[w]);
        VisitedGrew(g, t, w, Now(), lowlink[w]);
        if lowlink[w] < lowlink[id] {
          lowlink := lowlink[id := lowlink[w]];
        }
      } else if w in onStack {
        BackEdge(g, t, gray, id, low, done, w);
        if index[w] < lowlink[id] {
          lowlink := lowlink[id := index[w]];
        }
      } else {
        SideEdge(g, t, gray, id, low, done, w);
      }
    }

    /** The end of a visit: the root of a component takes its segment off the stack. */
    method Leave(id: NodeId, ghost gray: set<NodeId>)
      requires Good(gray) && id in index && id in lowlink
      requires Visiting(g, Now(), gray, id, Low(id), Succs(g, id))
      modifies this`stack, this`onStack, this`sccs
      ensures Good(gray - {id})
      ensures Now() == if Low(id) == old(At(Now(), id)) then Popped(old(Now()), id) else old(Now())
    {
      ghost var t := Now();
      hide Reach, Indexed, NoneMissed, GrayReach, StackReach, WholeComponents, Reported, Stacked, LowReached, LowBounds, Visiting, Succs, Popped, Segment, Component;
      OkParts(g, t, gray);
      VisitingIsGray(g, t, gray, id, lowlink[id], Succs(g, id));
      if lowlink[id] == index[id] {
        PopOk(g, t, gray, id, Succs(g, id));
        ReportOne(g, t, sccs, Popped(t, id), id);
        var scc := PopComponent(id);
        var selfLoop := SelfLoop(id);
        SeveralOrLoop(g, id, scc, selfLoop);
        if |scc| > 1 || selfLoop {
          sccs := sccs + [scc];
        }
      } else {
        LeaveOk(g, t, gray, id, lowlink[id], Succs(g, id));
      }
    }

    method SelfLoop(id: NodeId) returns (found: bool)
      ensures found <==> exists e :: e in Out(g, id) && e.dest == id
    {
      var edges := Out(g, id);
      found := false;
      for i := 0 to |edges|
        invariant found <==> exists k :: 0 <= k < i && edges[k].dest == id
      {
        if edges[i].dest == id {
          found := true;
        }
      }
    }

    /** One depth-first visit. */
    method Visit(id: NodeId, ghost gray: set<NodeId>)
      requires Visitable(id, gray)
      modifies this
      ensures Good(gray) && lowlink.Keys >= old(lowlink.Keys) + {id}
      ensures VisitedFrom(g, old(Now()), id, Now(), Low(id))
      ensures forall x :: x in old(index) ==> Low(x) == old(Low(x))
      decreases (set x | x in g.order) - index.Keys, 0
    {
      hide Reach, Indexed, NoneMissed, GrayReach, StackReach, WholeComponents, Reported, Stacked, LowReached, LowBounds, Visiting, Succs, Followed;
      hide VisitedFrom, Grew, Popped;
      ghost var t0 := Now();
      ghost var inner := gray + {id};
      OkParts(g, t0, gray);
      Enter(id, gray);
      var edges := Out(g, id);
      FollowedNone(edges);
      PushGrew(g, t0, id);
      for i := 0 to |edges|
        invariant Midway(id, i, inner) && lowlink.Keys >= old(lowlink.Keys) + {id}
        invariant Grew(Pushed(t0, id), Now())
        invariant forall x :: x in old(index) ==> Low(x) == old(Low(x))
      {
        ghost var t := Now();
        GrewMore(g, t0, id, t);
        Follow(id, i, inner);
        GrewTransitive(Pushed(t0, id), t, Now());
      }
      FollowedAll(g, id);
      GrewMore(g, t0, id, Now());
      OkParts(g, Now(), inner);
      VisitEnds(g, t0, Now(), inner, id, lowlink[id]);
      VisitingIsGray(g, Now(), inner, id, lowlink[id], Succs(g, id));
      Leave(id, inner);
      assert inner - {id} == gray;
    }
  }

  /** Tarjan over every node, in whatever order the node map yields them. */
  method StronglyConnectedComponents(g: Graph, visiting: seq<NodeId>) returns (sccs: seq<set<NodeId>>)
    requires Valid(g) && (forall x :: x in visiting <==> x in g.order)
    ensures forall c :: c in sccs <==> exists x :: x in g.order && Cyclic(g, x) && c == Component(g, x)
    ensures forall i, j :: 0 <= i < j < |sccs| ==> sccs[i] !! sccs[j]
  {
    hide Ok, Reported, Stacked, Component, Cyclic, Reach, Succs, LowReached;
    var f := new Finder(g);
    for i := 0 to |visiting|
      invariant f.g == g && fresh(f) && f.Good({})
      invariant forall k :: 0 <= k < i ==> visiting[k] in f.index
    {
      if visiting[i] !in f.index {
        f.Visit(visiting[i], {});
      }
    }
    sccs := f.sccs;
    AllFinished(g, f.Now(), sccs);
  }
}
