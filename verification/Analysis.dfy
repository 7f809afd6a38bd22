/**
 The build-time warnings and what they promise about runs: a node flagged
 unreachable is in no wave of a fresh run, and a run that enters a component
 flagged as an unguarded cycle never ends by running out of nodes.
 */
module Analysis {
  import opened BoardModel
  import opened GraphRun
  import opened Reachability
  import opened Tarjan

  // ------------------------------------------------------------- topology

  /** Unreachable and dead-end nodes, as `checkTopology` reports them. */
  method CheckTopology(g: Graph) returns (unreachable: seq<NodeId>, deadEnds: seq<NodeId>)
    requires Valid(g)
    ensures forall x :: x in unreachable <==> x in g.order && !Reach(g, g.entry, x)
    ensures forall x :: x in deadEnds <==> x in g.order && Out(g, x) == []
  {
    hide Reach;
    var reachable := ReachableFrom(g, g.entry);
    unreachable, deadEnds := [], [];
    for i := 0 to |g.order|
      invariant forall x :: x in unreachable <==> x in g.order[..i] && x !in reachable
      invariant forall x :: x in deadEnds <==> x in g.order[..i] && Out(g, x) == []
    {
      var id := g.order[i];
      assert g.order[..i + 1] == g.order[..i] + [id];
      if id !in reachable {
        unreachable := unreachable + [id];
      }
      if |Out(g, id)| == 0 {
        deadEnds := deadEnds + [id];
      }
    }
    assert g.order[..|g.order|] == g.order;
  }

  /** Every node of every wave of an entry-started run is reachable from the entry. */
  lemma {:induction false} WavesAreReachable(g: Graph, env: Env, c: Config, n: nat, x: NodeId)
    requires forall id :: id in c.frontier ==> Reach(g, g.entry, id)
    requires After(g, env, c, n).Some? && x in After(g, env, c, n).value.frontier
    ensures Reach(g, g.entry, x)
    decreases n
  {
    hide Turn, Reach;
    if n > 0 {
      AfterStep(g, env, c, n);
      hide After;
      var before := After(g, env, c, n - 1).value;
      TurnFollowsEdges(g, env, before, x);
      var id, e :| id in before.frontier && e in Out(g, id) && e.dest == x;
      WavesAreReachable(g, env, c, n - 1, id);
      assert x in Succs(g, id);
      ReachEdge(g, id, x);
      ReachTransitive(g, g.entry, id, x);
    }
  }

  /** A node flagged unreachable never enters a frontier of a fresh run. */
  lemma FlaggedNodeNeverRuns(g: Graph, env: Env, board: Snapshot, n: nat, x: NodeId)
    requires !Reach(g, g.entry, x) && After(g, env, Fresh(g, board), n).Some?
    ensures x !in After(g, env, Fresh(g, board), n).value.frontier
  {
    ReachSelf(g, g.entry);
    hide Reach;
    if x in After(g, env, Fresh(g, board), n).value.frontier {
      WavesAreReachable(g, env, Fresh(g, board), n, x);
    }
  }

  // ----------------------------------------------------- unguarded cycles

  /** No edge of the component is conditional or leaves it. */
  ghost predicate Unguarded(g: Graph, scc: set<NodeId>) {
    forall id, e :: id in scc && e in Out(g, id) ==> e.cond.None? && e.dest in scc
  }

  /** A component the analysis warns about. */
  ghost predicate Flagged(g: Graph, scc: set<NodeId>) {
    && (exists x :: x in g.order && Cyclic(g, x) && scc == Component(g, x))
    && Unguarded(g, scc)
  }

  method IsUnguarded(g: Graph, scc: set<NodeId>) returns (unguarded: bool)
    ensures unguarded <==> Unguarded(g, scc)
  {
    unguarded := true;
    var done: set<NodeId> := {};
    while done != scc
      invariant done <= scc
      invariant unguarded <==> forall id, e :: id in done && e in Out(g, id) ==> e.cond.None? && e.dest in scc
      decreases scc - done
    {
      var from :| from in scc && from !in done;
      var edges := Out(g, from);
      var ok := true;
      for i := 0 to |edges|
        invariant ok <==> forall k :: 0 <= k < i ==> edges[k].cond.None? && edges[k].dest in scc
      {
        if !(edges[i].cond.None? && edges[i].dest in scc) {
          ok := false;
        }
      }
      assert ok <==> forall e :: e in edges ==> e.cond.None? && e.dest in scc;
      unguarded := unguarded && ok;
      done := done + {from};
    }
  }

  /** Exactly the flagged components, each once. */
  method CheckUnguardedCycles(g: Graph, visiting: seq<NodeId>) returns (flagged: seq<set<NodeId>>)
    requires Valid(g) && (forall x :: x in visiting <==> x in g.order)
    ensures forall c :: c in flagged <==> Flagged(g, c)
    ensures forall i, j :: 0 <= i < j < |flagged| ==> flagged[i] !! flagged[j]
  {
    hide Component, Cyclic, Unguarded;
    var sccs := StronglyConnectedComponents(g, visiting);
    flagged := [];
    for i := 0 to |sccs|
      invariant forall c :: c in flagged <==> c in sccs[..i] && Unguarded(g, c)
      invariant forall k, l :: 0 <= k < l < |flagged| ==> flagged[k] !! flagged[l]
    {
      assert sccs[..i + 1] == sccs[..i] + [sccs[i]];
      forall c | c in sccs[..i] ensures c !! sccs[i] {
        var k :| 0 <= k < i && sccs[k] == c;
      }
      var unguarded := IsUnguarded(g, sccs[i]);
      if unguarded {
        assert forall k :: 0 <= k < |flagged| ==> flagged[k] in flagged;
        flagged := flagged + [sccs[i]];
      }
    }
    assert sccs[..|sccs|] == sccs;
  }

  /** Every node of a flagged component has an edge, and it stays inside. */
  lemma FlaggedHasEdge(g: Graph, scc: set<NodeId>, x: NodeId) returns (e: Edge)
    requires Valid(g) && Flagged(g, scc) && x in scc && x != END
    ensures e in Out(g, x) && e.cond.None? && e.dest in scc
  {
    var y :| y in g.order && Cyclic(g, y) && scc == Component(g, y);
    ReachSelf(g, y);
    assert y in scc;
    ComponentShared(g, y, x);
    hide Component;
    assert Cyclic(g, x);
    OrdinaryCyclicIffOnCycle(g, x);
    var w :| w in Succs(g, x) && Reach(g, w, x);
    e :| e in Out(g, x) && e.dest == w;
  }

  ghost predicate Meets(frontier: seq<NodeId>, scc: set<NodeId>) {
    exists x :: x in frontier && x in scc
  }

  lemma TurnStaysInCycle(g: Graph, env: Env, scc: set<NodeId>, c: Config)
    requires Valid(g) && Flagged(g, scc) && END !in scc
    requires Meets(c.frontier, scc) && Turn(g, env, c).Running?
    ensures Meets(Turn(g, env, c).next.frontier, scc)
  {
    hide Turn, Flagged;
    TurnRoutes(g, env, c);
    var x :| x in c.frontier && x in scc;
    var p := Turn(g, env, c);
    var e := FlaggedHasEdge(g, scc, x);
    UnconditionalIsRouted(g, env, p.wave, p.view.vars, p.next.iterations, x, e);
    assert e.dest in p.next.frontier;
  }

  lemma HaltsOnlyWhenEmpty(g: Graph, env: Env, c: Config)
    ensures Turn(g, env, c).Halted? <==> c.frontier == []
  {
    hide ExecuteWave, Resolve;
  }

  /** A frontier that edges led to never holds END. */
  lemma RoutedFrontierHasNoEnd(g: Graph, env: Env, c: Config, n: nat)
    requires n > 0 && After(g, env, c, n).Some?
    ensures END !in After(g, env, c, n).value.frontier
  {
    hide Turn;
    AfterStep(g, env, c, n);
    var before := After(g, env, c, n - 1).value;
    if END in After(g, env, c, n).value.frontier {
      TurnFollowsEdges(g, env, before, END);
    }
  }

  /** A flagged component around a node named like END is that node alone. */
  lemma FlaggedWithEnd(g: Graph, scc: set<NodeId>)
    requires Flagged(g, scc) && END in scc
    ensures scc == {END}
  {
    var y :| y in g.order && Cyclic(g, y) && scc == Component(g, y);
    OnlyEndReachesEnd(g, y);
    EndIsAlone(g);
  }

  lemma {:induction false} OrdinaryCycleIsKept(g: Graph, env: Env, scc: set<NodeId>, c: Config, n: nat)
    requires Valid(g) && Flagged(g, scc) && END !in scc && Meets(c.frontier, scc)
    requires After(g, env, c, n).Some?
    ensures Meets(After(g, env, c, n).value.frontier, scc)
    decreases n
  {
    hide Turn, Flagged, Valid;
    if n > 0 {
      AfterStep(g, env, c, n);
      hide After;
      OrdinaryCycleIsKept(g, env, scc, c, n - 1);
      TurnStaysInCycle(g, env, scc, After(g, env, c, n - 1).value);
    }
  }

  /**
   Once a frontier meets a flagged component, a later one meets it if and only if the
   component is not the one around a node named like END; and then the run never halts
   on an empty frontier.
   */
  lemma UnguardedCycleIsKeptIff(g: Graph, env: Env, scc: set<NodeId>, c: Config, n: nat)
    requires Valid(g) && Flagged(g, scc) && Meets(c.frontier, scc)
    requires After(g, env, c, n).Some?
    ensures Meets(After(g, env, c, n).value.frontier, scc) <==> n == 0 || END !in scc
    ensures END !in scc ==> !Turn(g, env, After(g, env, c, n).value).Halted?
  {
    hide Turn, Flagged, Valid;
    if END in scc {
      FlaggedWithEnd(g, scc);
      if n > 0 {
        RoutedFrontierHasNoEnd(g, env, c, n);
      }
    } else {
      OrdinaryCycleIsKept(g, env, scc, c, n);
    }
    HaltsOnlyWhenEmpty(g, env, After(g, env, c, n).value);
  }
}
