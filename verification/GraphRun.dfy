/**
 The graph and its run as a deterministic function: waves over a frontier,
 routing, and the iteration budget. Node handlers and conditions are arbitrary
 functions of what a board accessor can see.
 */
module GraphRun {
  import opened Wrappers
  import opened BoardModel

  type NodeId = string

  type Cond = string

  const END: NodeId := "__end__"
  const VAR_ITERATIONS: Name := "__iterations"
  const VAR_INTERRUPTED: Name := "__interrupted_node"

  datatype Edge = Edge(dest: NodeId, cond: Option<Cond>)

  datatype Graph = Graph(
    entry: NodeId,
    order: seq<NodeId>,
    edges: map<NodeId, seq<Edge>>,
    maxIterations: nat,
    maxNodeRetries: nat,
    specVersion: string)

  function Out(g: Graph, id: NodeId): seq<Edge> {
    if id in g.edges then g.edges[id] else []
  }

  /** What definition validation guarantees: a known entry, and edges between known nodes or to END. */
  ghost predicate Valid(g: Graph) {
    && g.entry in g.order
    && g.edges.Keys <= (set id | id in g.order)
    && forall id, e :: id in g.edges && e in g.edges[id] ==> e.dest == END || e.dest in g.order
  }

  // ------------------------------------------------------------ behaviour

  datatype Verdict = Yes | No | Broken

  datatype Failure = Retryable | Terminal | Interrupt

  /** What a node call sees of its context: point 2k before attempt k, 2k + 1 after attempt k failed; `Some` once it is done. */
  type Context = nat -> Option<Failure>

  const ALIVE: Context := (n: nat) => None

  /** One handler call: the writes it made and how it ended. */
  datatype Attempt = Attempt(ops: seq<Op>, err: Option<Failure>)

  /** A parallel wave reaches the shared board only through the writes of its merge, or what an interrupt keeps. */
  datatype Merge = Merge(ops: seq<Op>) | Failed(err: Failure, ops: seq<Op>)

  /** Everything outside the engine: skip conditions, role checks, handlers, merges, edge conditions. */
  datatype Env = Env(
    skip: (NodeId, map<Name, Value>) -> Verdict,
    ready: (NodeId, Snapshot) -> bool,
    attempt: (NodeId, nat, Snapshot) -> Attempt,
    wrote: (NodeId, Snapshot, Snapshot) -> bool,
    cond: (Cond, map<Name, Value>, nat) -> Verdict,
    parallel: bool,
    merge: (seq<NodeId>, Snapshot) -> Merge)

  /** Handlers and merges write the board; only the engine restores it. */
  ghost predicate Handlers(env: Env) {
    && (forall id, k, v :: forall op :: op in env.attempt(id, k, v).ops ==> !op.Restore?)
    && (forall wave, v :: forall op :: op in env.merge(wave, v).ops ==> !op.Restore?)
  }

  /** Contents after a batch of writes, as accessors see them. */
  function Wrote(v: Snapshot, ops: seq<Op>): Snapshot {
    Seen(Effects(v, ops))
  }

  datatype NodeOut = NodeOut(view: Snapshot, err: Option<Failure>)

  /** The retry loop: a retryable failure puts the pre-attempt contents back, and a context that is done starts no other attempt. */
  function Attempts(env: Env, ctx: Context, id: NodeId, k: nat, retries: nat, v: Snapshot): NodeOut
    requires k <= retries
    decreases retries - k
  {
    if k > 0 && ctx(2 * k).Some? then NodeOut(v, ctx(2 * k))
    else
      var a := env.attempt(id, k, v);
      if a.err != Some(Retryable) || k >= retries
      then NodeOut(Wrote(v, a.ops), if a.err.Some? && ctx(2 * k + 1).Some? then ctx(2 * k + 1) else a.err)
      else Attempts(env, ctx, id, k + 1, retries, v)
  }

  /** An interrupted node leaves its name on the board. */
  function Noted(id: NodeId, r: NodeOut): NodeOut {
    if r.err == Some(Interrupt) then r.(view := Wrote(r.view, [SetVar(VAR_INTERRUPTED, Atom(id))])) else r
  }

  /** One node: skipped nodes still route, every refused check ends the run. */
  function Invoke(g: Graph, env: Env, ctx: Context, id: NodeId, v: Snapshot): NodeOut {
    match env.skip(id, v.vars)
    case Broken => NodeOut(v, Some(Terminal))
    case Yes => NodeOut(v, None)
    case No =>
      if !env.ready(id, v) then NodeOut(v, Some(Terminal))
      else
        var r := Attempts(env, ctx, id, 0, g.maxNodeRetries, v);
        if r.err.None? && !env.wrote(id, v, r.view) then r.(err := Some(Terminal)) else Noted(id, r)
  }

  /** A context that is done can only fail a node: one that still succeeds left what it leaves on a live context. */
  lemma {:induction false} ContextOnlyFails(env: Env, ctx: Context, id: NodeId, k: nat, retries: nat, v: Snapshot)
    requires k <= retries && Attempts(env, ctx, id, k, retries, v).err.None?
    ensures Attempts(env, ctx, id, k, retries, v) == Attempts(env, ALIVE, id, k, retries, v)
    decreases retries - k
  {
    var a := env.attempt(id, k, v);
    if a.err == Some(Retryable) && k < retries {
      ContextOnlyFails(env, ctx, id, k + 1, retries, v);
    }
  }

  lemma CancelledNodeFailsOrAgrees(g: Graph, env: Env, ctx: Context, id: NodeId, v: Snapshot)
    ensures Invoke(g, env, ctx, id, v).err.None? ==> Invoke(g, env, ctx, id, v) == Invoke(g, env, ALIVE, id, v)
  {
    hide Attempts;
    if Attempts(env, ctx, id, 0, g.maxNodeRetries, v).err.None? {
      ContextOnlyFails(env, ctx, id, 0, g.maxNodeRetries, v);
    }
  }

  /**
   The attempt that decides a node call: every earlier one failed in a way worth retrying, with
   a live context before each, and this one is not made, not worth retrying or the last allowed.
   */
  ghost predicate Decides(env: Env, ctx: Context, id: NodeId, retries: nat, v: Snapshot, k: nat) {
    && k <= retries
    && (forall j :: 0 <= j < k ==> env.attempt(id, j, v).err == Some(Retryable) && (j > 0 ==> ctx(2 * j).None?))
    && (NotMade(ctx, k) || env.attempt(id, k, v).err != Some(Retryable) || k == retries)
  }

  /** The context was done before a retry. */
  predicate NotMade(ctx: Context, k: nat) {
    k > 0 && ctx(2 * k).Some?
  }

  lemma {:induction false} AttemptsAreDecided(env: Env, ctx: Context, id: NodeId, j: nat, retries: nat, v: Snapshot, k: nat)
    requires Decides(env, ctx, id, retries, v, k) && j <= k
    ensures var a := env.attempt(id, k, v);
            Attempts(env, ctx, id, j, retries, v)
            == if NotMade(ctx, k) then NodeOut(v, ctx(2 * k))
               else NodeOut(Wrote(v, a.ops), if a.err.Some? && ctx(2 * k + 1).Some? then ctx(2 * k + 1) else a.err)
    decreases k - j
  {
    hide Wrote;
    if j < k {
      AttemptsAreDecided(env, ctx, id, j + 1, retries, v, k);
    }
  }

  lemma {:induction false} SomeAttemptDecides(env: Env, ctx: Context, id: NodeId, retries: nat, v: Snapshot, j: nat) returns (k: nat)
    requires j <= retries
    requires forall i :: 0 <= i < j ==> env.attempt(id, i, v).err == Some(Retryable) && (i > 0 ==> ctx(2 * i).None?)
    ensures Decides(env, ctx, id, retries, v, k)
    decreases retries - j
  {
    if NotMade(ctx, j) || env.attempt(id, j, v).err != Some(Retryable) || j == retries {
      k := j;
    } else {
      k := SomeAttemptDecides(env, ctx, id, retries, v, j + 1);
    }
  }

  /** What a ready node that is not skipped does, told by the attempt that decides it: that attempt's writes and error alone. */
  lemma NodeDoesItsDecidingAttempt(g: Graph, env: Env, ctx: Context, id: NodeId, v: Snapshot, k: nat)
    requires env.skip(id, v.vars) == No && env.ready(id, v) && Decides(env, ctx, id, g.maxNodeRetries, v, k)
    ensures var a, out := env.attempt(id, k, v), Invoke(g, env, ctx, id, v);
            var view := if NotMade(ctx, k) then v else Wrote(v, a.ops);
            var err := if NotMade(ctx, k) then ctx(2 * k) else if a.err.Some? && ctx(2 * k + 1).Some? then ctx(2 * k + 1) else a.err;
            && out.view == (if err == Some(Interrupt) then Wrote(view, [SetVar(VAR_INTERRUPTED, Atom(id))]) else view)
            && out.err == (if err.None? && !env.wrote(id, v, view) then Some(Terminal) else err)
  {
    hide Attempts, Wrote;
    AttemptsAreDecided(env, ctx, id, 0, g.maxNodeRetries, v, k);
  }

  /** A skipped node changes nothing and does not fail; a broken skip condition or a missing input fails it and changes nothing. */
  lemma NodeThatDoesNotRun(g: Graph, env: Env, ctx: Context, id: NodeId, v: Snapshot)
    requires env.skip(id, v.vars) != No || !env.ready(id, v)
    ensures Invoke(g, env, ctx, id, v) == NodeOut(v, if env.skip(id, v.vars) == Yes then None else Some(Terminal))
  {
  }

  /** A node succeeds exactly when it is skipped, or it runs and its deciding attempt succeeds and wrote what it must. */
  lemma NodeSucceedsIff(g: Graph, env: Env, id: NodeId, v: Snapshot) returns (k: nat)
    ensures Decides(env, ALIVE, id, g.maxNodeRetries, v, k)
    ensures Invoke(g, env, ALIVE, id, v).err.None? <==>
            env.skip(id, v.vars) == Yes
            || (env.skip(id, v.vars) == No && env.ready(id, v)
                && env.attempt(id, k, v).err.None? && env.wrote(id, v, Wrote(v, env.attempt(id, k, v).ops)))
  {
    hide Wrote, Invoke;
    k := SomeAttemptDecides(env, ALIVE, id, g.maxNodeRetries, v, 0);
    if env.skip(id, v.vars) == No && env.ready(id, v) {
      NodeDoesItsDecidingAttempt(g, env, ALIVE, id, v, k);
    } else {
      NodeThatDoesNotRun(g, env, ALIVE, id, v);
    }
  }

  function Sequential(g: Graph, env: Env, wave: seq<NodeId>, v: Snapshot): NodeOut
    decreases |wave|
  {
    if wave == [] then NodeOut(v, None)
    else
      var r := Invoke(g, env, ALIVE, wave[0], v);
      if r.err.Some? then r else Sequential(g, env, wave[1..], r.view)
  }

  function ExecuteWave(g: Graph, env: Env, wave: seq<NodeId>, v: Snapshot): NodeOut {
    if |wave| == 1 || !env.parallel then Sequential(g, env, wave, v)
    else match env.merge(wave, v)
      case Merge(ops) => NodeOut(Wrote(v, ops), None)
      case Failed(err, ops) => NodeOut(Wrote(v, ops), Some(err))
  }

  /**
   A wave that is not run in parallel: its nodes in order, each on what the one before left,
   all of them or up to and including the first that fails.
   */
  lemma {:induction false} WaveRunsItsNodes(g: Graph, env: Env, wave: seq<NodeId>, v: Snapshot) returns (views: seq<Snapshot>, n: nat)
    ensures n <= |wave| && |views| == n + 1 && views[0] == v
    ensures forall i :: 0 <= i < n ==> Invoke(g, env, ALIVE, wave[i], views[i]) == NodeOut(views[i + 1], None)
    ensures n < |wave| ==> Invoke(g, env, ALIVE, wave[n], views[n]).err.Some?
    ensures |wave| == 1 || !env.parallel ==>
              ExecuteWave(g, env, wave, v) == if n == |wave| then NodeOut(views[n], None) else Invoke(g, env, ALIVE, wave[n], views[n])
    ensures Sequential(g, env, wave, v) == if n == |wave| then NodeOut(views[n], None) else Invoke(g, env, ALIVE, wave[n], views[n])
    decreases |wave|
  {
    hide Invoke;
    views, n := [v], 0;
    if wave != [] && Invoke(g, env, ALIVE, wave[0], v).err.None? {
      var rest, m := WaveRunsItsNodes(g, env, wave[1..], Invoke(g, env, ALIVE, wave[0], v).view);
      views, n := [v] + rest, m + 1;
    }
  }

  // -------------------------------------------------------------- routing

  /** First occurrences, in order. */
  function Dedup(ids: seq<NodeId>): (r: seq<NodeId>)
    ensures forall x :: x in r <==> x in ids
    ensures forall i, j :: 0 <= i < j < |r| ==> r[i] != r[j]
    ensures |r| <= |ids| && (ids != [] ==> r != [])
  {
    if ids == [] then []
    else
      var r := Dedup(ids[..|ids| - 1]);
      var last := ids[|ids| - 1];
      assert forall x :: x in ids <==> x in ids[..|ids| - 1] || x == last;
      if last in r then r else r + [last]
  }

  /** The condition environment: the kernel's iteration count shadows any variable of that name. */
  function Evaluate(env: Env, c: Cond, vars: map<Name, Value>, iterations: nat): Verdict {
    env.cond(c, vars - {VAR_ITERATIONS}, iterations)
  }

  /** The targets one node's edges contribute; a condition that cannot be evaluated fails the routing. */
  function Taken(env: Env, edges: seq<Edge>, vars: map<Name, Value>, iterations: nat): Option<seq<NodeId>> {
    if edges == [] then Some([])
    else
      var e := edges[|edges| - 1];
      var before := Taken(env, edges[..|edges| - 1], vars, iterations);
      if before.None? then None
      else match (if e.cond.None? then Yes else Evaluate(env, e.cond.value, vars, iterations))
        case Broken => None
        case No => before
        case Yes => if e.dest == END then before else Some(before.value + [e.dest])
  }

  function Routed(g: Graph, env: Env, wave: seq<NodeId>, vars: map<Name, Value>, iterations: nat): Option<seq<NodeId>> {
    if wave == [] then Some([])
    else
      var before := Routed(g, env, wave[..|wave| - 1], vars, iterations);
      var last := Taken(env, Out(g, wave[|wave| - 1]), vars, iterations);
      if before.None? || last.None? then None else Some(before.value + last.value)
  }

  /** The next frontier after a wave. */
  function Resolve(g: Graph, env: Env, wave: seq<NodeId>, vars: map<Name, Value>, iterations: nat): Option<seq<NodeId>> {
    var r := Routed(g, env, wave, vars, iterations);
    if r.None? then None else Some(Dedup(r.value))
  }

  /** A frontier only ever holds targets of edges leaving the wave. */
  lemma {:induction false} TakenFollowsEdges(env: Env, edges: seq<Edge>, vars: map<Name, Value>, iterations: nat, x: NodeId)
    requires Taken(env, edges, vars, iterations).Some? && x in Taken(env, edges, vars, iterations).value
    ensures x != END && exists e :: e in edges && e.dest == x
  {
    var e := edges[|edges| - 1];
    var before := Taken(env, edges[..|edges| - 1], vars, iterations);
    if x in before.value {
      TakenFollowsEdges(env, edges[..|edges| - 1], vars, iterations, x);
    } else {
      assert e in edges && e.dest == x;
    }
  }

  lemma {:induction false} RoutedFollowsEdges(g: Graph, env: Env, wave: seq<NodeId>, vars: map<Name, Value>, iterations: nat, x: NodeId)
    requires Routed(g, env, wave, vars, iterations).Some? && x in Routed(g, env, wave, vars, iterations).value
    ensures x != END && exists id, e :: id in wave && e in Out(g, id) && e.dest == x
  {
    var last := wave[|wave| - 1];
    if x in Routed(g, env, wave[..|wave| - 1], vars, iterations).value {
      RoutedFollowsEdges(g, env, wave[..|wave| - 1], vars, iterations, x);
      var id, e :| id in wave[..|wave| - 1] && e in Out(g, id) && e.dest == x;
      assert id in wave;
    } else {
      TakenFollowsEdges(env, Out(g, last), vars, iterations, x);
      assert last in wave;
    }
  }

  /** An unconditional edge to a node is always followed. */
  lemma {:induction false} UnconditionalIsTaken(env: Env, edges: seq<Edge>, vars: map<Name, Value>, iterations: nat, e: Edge)
    requires Taken(env, edges, vars, iterations).Some? && e in edges && e.cond.None? && e.dest != END
    ensures e.dest in Taken(env, edges, vars, iterations).value
  {
    var last := edges[|edges| - 1];
    if e != last {
      assert edges == edges[..|edges| - 1] + [last];
      UnconditionalIsTaken(env, edges[..|edges| - 1], vars, iterations, e);
    }
  }

  lemma {:induction false} UnconditionalIsRouted(g: Graph, env: Env, wave: seq<NodeId>, vars: map<Name, Value>, iterations: nat, id: NodeId, e: Edge)
    requires Routed(g, env, wave, vars, iterations).Some?
    requires id in wave && e in Out(g, id) && e.cond.None? && e.dest != END
    ensures e.dest in Routed(g, env, wave, vars, iterations).value
  {
    var last := wave[|wave| - 1];
    if id == last {
      UnconditionalIsTaken(env, Out(g, last), vars, iterations, e);
    } else {
      assert wave == wave[..|wave| - 1] + [last];
      UnconditionalIsRouted(g, env, wave[..|wave| - 1], vars, iterations, id, e);
    }
  }

  /** The edge is followed: it has no condition or the condition holds. */
  predicate Passes(env: Env, e: Edge, vars: map<Name, Value>, iterations: nat) {
    e.cond.None? || Evaluate(env, e.cond.value, vars, iterations) == Yes
  }

  predicate Unevaluable(env: Env, e: Edge, vars: map<Name, Value>, iterations: nat) {
    e.cond.Some? && Evaluate(env, e.cond.value, vars, iterations) == Broken
  }

  /** The edges leaving a wave, in wave and edge order. */
  function EdgesOf(g: Graph, wave: seq<NodeId>): seq<Edge> {
    if wave == [] then [] else EdgesOf(g, wave[..|wave| - 1]) + Out(g, wave[|wave| - 1])
  }

  lemma {:induction false} EdgesOfMembers(g: Graph, wave: seq<NodeId>, e: Edge)
    ensures e in EdgesOf(g, wave) <==> exists id :: id in wave && e in Out(g, id)
    decreases |wave|
  {
    if wave != [] {
      var last := wave[|wave| - 1];
      assert wave == wave[..|wave| - 1] + [last];
      EdgesOfMembers(g, wave[..|wave| - 1], e);
    }
  }

  lemma {:induction false} TakenOfBoth(env: Env, a: seq<Edge>, b: seq<Edge>, vars: map<Name, Value>, iterations: nat)
    ensures var ta, tb := Taken(env, a, vars, iterations), Taken(env, b, vars, iterations);
            Taken(env, a + b, vars, iterations) == if ta.None? || tb.None? then None else Some(ta.value + tb.value)
    decreases |b|
  {
    if b == [] {
      assert a + b == a;
      assert Taken(env, a, vars, iterations).Some? ==> Taken(env, a, vars, iterations).value + [] == Taken(env, a, vars, iterations).value;
    } else {
      var all, front := a + b, b[..|b| - 1];
      assert all[..|all| - 1] == a + front && all[|all| - 1] == b[|b| - 1];
      TakenOfBoth(env, a, front, vars, iterations);
      var ta, tf := Taken(env, a, vars, iterations), Taken(env, front, vars, iterations);
      if ta.Some? && tf.Some? {
        assert ta.value + (tf.value + [b[|b| - 1].dest]) == ta.value + tf.value + [b[|b| - 1].dest];
      }
    }
  }

  lemma {:induction false} RoutedIsTaken(g: Graph, env: Env, wave: seq<NodeId>, vars: map<Name, Value>, iterations: nat)
    ensures Routed(g, env, wave, vars, iterations) == Taken(env, EdgesOf(g, wave), vars, iterations)
    decreases |wave|
  {
    if wave != [] {
      hide Taken;
      RoutedIsTaken(g, env, wave[..|wave| - 1], vars, iterations);
      TakenOfBoth(env, EdgesOf(g, wave[..|wave| - 1]), Out(g, wave[|wave| - 1]), vars, iterations);
    } else {
      assert Taken(env, [], vars, iterations) == Some([]);
    }
  }

  /** Edge j leads to x. */
  predicate Leads(env: Env, edges: seq<Edge>, vars: map<Name, Value>, iterations: nat, j: int, x: NodeId) {
    0 <= j < |edges| && Passes(env, edges[j], vars, iterations) && edges[j].dest == x && x != END
  }

  /** Some followed edge leads to x. */
  ghost predicate Led(env: Env, edges: seq<Edge>, vars: map<Name, Value>, iterations: nat, x: NodeId) {
    exists j :: Leads(env, edges, vars, iterations, j, x)
  }

  /** The frontier a list of edges gives: the targets of the followed edges, each once, in the order of their first edges. */
  ghost predicate IsFrontier(env: Env, edges: seq<Edge>, vars: map<Name, Value>, iterations: nat, next: seq<NodeId>) {
    && (forall x :: x in next <==> Led(env, edges, vars, iterations, x))
    && (forall a, b :: 0 <= a < b < |next| ==> next[a] != next[b] && Earlier(env, edges, vars, iterations, next[a], next[b]))
  }

  /** Some edge to x comes before every edge to y. */
  ghost predicate Earlier(env: Env, edges: seq<Edge>, vars: map<Name, Value>, iterations: nat, x: NodeId, y: NodeId) {
    forall j :: Leads(env, edges, vars, iterations, j, y) ==> exists i :: i < j && Leads(env, edges, vars, iterations, i, x)
  }

  lemma {:induction false} TakenFailsIff(env: Env, edges: seq<Edge>, vars: map<Name, Value>, iterations: nat)
    ensures Taken(env, edges, vars, iterations).None? <==> exists j :: 0 <= j < |edges| && Unevaluable(env, edges[j], vars, iterations)
    decreases |edges|
  {
    if edges != [] {
      var n := |edges| - 1;
      TakenFailsIff(env, edges[..n], vars, iterations);
      assert forall j :: 0 <= j < n ==> edges[..n][j] == edges[j];
    }
  }

  lemma LeadsBefore(env: Env, edges: seq<Edge>, vars: map<Name, Value>, iterations: nat, j: int, x: NodeId)
    requires edges != []
    ensures Leads(env, edges[..|edges| - 1], vars, iterations, j, x) <==> j < |edges| - 1 && Leads(env, edges, vars, iterations, j, x)
  {
  }

  lemma EarlierStays(env: Env, edges: seq<Edge>, vars: map<Name, Value>, iterations: nat, x: NodeId, y: NodeId)
    requires edges != [] && Earlier(env, edges[..|edges| - 1], vars, iterations, x, y)
    requires Led(env, edges[..|edges| - 1], vars, iterations, x)
    ensures Earlier(env, edges, vars, iterations, x, y)
  {
    var before, n := edges[..|edges| - 1], |edges| - 1;
    hide Leads;
    forall j | Leads(env, edges, vars, iterations, j, y)
      ensures exists i :: i < j && Leads(env, edges, vars, iterations, i, x)
    {
      LeadsInRange(env, edges, vars, iterations, j, y);
      LeadsBefore(env, edges, vars, iterations, j, y);
      var i: int;
      if j < n {
        i :| i < j && Leads(env, before, vars, iterations, i, x);
      } else {
        i :| Leads(env, before, vars, iterations, i, x);
      }
      LeadsBefore(env, edges, vars, iterations, i, x);
    }
  }

  lemma LeadsInRange(env: Env, edges: seq<Edge>, vars: map<Name, Value>, iterations: nat, j: int, x: NodeId)
    requires Leads(env, edges, vars, iterations, j, x)
    ensures 0 <= j < |edges| && x != END
  {
  }

  /** A target not reached before comes after everything that was. */
  lemma NewComesLast(env: Env, edges: seq<Edge>, vars: map<Name, Value>, iterations: nat, x: NodeId, y: NodeId)
    requires edges != [] && Led(env, edges[..|edges| - 1], vars, iterations, x) && !Led(env, edges[..|edges| - 1], vars, iterations, y)
    ensures Earlier(env, edges, vars, iterations, x, y)
  {
    hide Leads;
    var i :| Leads(env, edges[..|edges| - 1], vars, iterations, i, x);
    LeadsBefore(env, edges, vars, iterations, i, x);
    forall j | Leads(env, edges, vars, iterations, j, y)
      ensures i < j
    {
      LeadsInRange(env, edges, vars, iterations, j, y);
      LeadsBefore(env, edges, vars, iterations, j, y);
    }
  }

  lemma {:induction false} TakenIsFrontier(env: Env, edges: seq<Edge>, vars: map<Name, Value>, iterations: nat)
    requires Taken(env, edges, vars, iterations).Some?
    ensures IsFrontier(env, edges, vars, iterations, Dedup(Taken(env, edges, vars, iterations).value))
    decreases |edges|
  {
    if edges != [] {
      TakenIsFrontier(env, edges[..|edges| - 1], vars, iterations);
      FrontierGrows(env, edges, vars, iterations);
    }
  }

  /** One more edge appends its target to the frontier if it is followed and the target is new. */
  lemma FrontierNext(env: Env, edges: seq<Edge>, vars: map<Name, Value>, iterations: nat)
    requires edges != [] && Taken(env, edges, vars, iterations).Some?
    ensures var n := |edges| - 1;
            && Taken(env, edges[..n], vars, iterations).Some?
            && var was, now := Dedup(Taken(env, edges[..n], vars, iterations).value), Dedup(Taken(env, edges, vars, iterations).value);
               now == if Leads(env, edges, vars, iterations, n, edges[n].dest) && edges[n].dest !in was then was + [edges[n].dest] else was
  {
    hide Taken, Dedup, Leads;
    var n := |edges| - 1;
    TakenNext(env, edges, vars, iterations);
    DedupNext(Taken(env, edges[..n], vars, iterations).value, edges[n].dest);
  }

  lemma TakenNext(env: Env, edges: seq<Edge>, vars: map<Name, Value>, iterations: nat)
    requires edges != [] && Taken(env, edges, vars, iterations).Some?
    ensures var n := |edges| - 1;
            && Taken(env, edges[..n], vars, iterations).Some?
            && var was, now := Taken(env, edges[..n], vars, iterations).value, Taken(env, edges, vars, iterations).value;
               now == if Leads(env, edges, vars, iterations, n, edges[n].dest) then was + [edges[n].dest] else was
  {
    hide Evaluate;
  }

  lemma DedupNext(ids: seq<NodeId>, x: NodeId)
    ensures Dedup(ids + [x]) == if x in Dedup(ids) then Dedup(ids) else Dedup(ids) + [x]
  {
    assert (ids + [x])[..|ids|] == ids;
  }

  lemma FrontierGrows(env: Env, edges: seq<Edge>, vars: map<Name, Value>, iterations: nat)
    requires edges != [] && Taken(env, edges, vars, iterations).Some?
    requires Taken(env, edges[..|edges| - 1], vars, iterations).Some?
    requires IsFrontier(env, edges[..|edges| - 1], vars, iterations, Dedup(Taken(env, edges[..|edges| - 1], vars, iterations).value))
    ensures IsFrontier(env, edges, vars, iterations, Dedup(Taken(env, edges, vars, iterations).value))
  {
    hide Dedup, Taken, Leads, Earlier, Led;
    var n := |edges| - 1;
    var was, now := Dedup(Taken(env, edges[..n], vars, iterations).value), Dedup(Taken(env, edges, vars, iterations).value);
    FrontierNext(env, edges, vars, iterations);
    forall x ensures x in now <==> Led(env, edges, vars, iterations, x) { LastEdgeLeads(env, edges, vars, iterations, x); }
    forall a, b | 0 <= a < b < |now|
      ensures now[a] != now[b] && Earlier(env, edges, vars, iterations, now[a], now[b])
    {
      assert was[a] in was;
      if b < |was| {
        EarlierStays(env, edges, vars, iterations, now[a], now[b]);
      } else {
        NewComesLast(env, edges, vars, iterations, now[a], now[b]);
      }
    }
  }

  lemma LastEdgeLeads(env: Env, edges: seq<Edge>, vars: map<Name, Value>, iterations: nat, x: NodeId)
    requires edges != []
    ensures var n := |edges| - 1;
            Led(env, edges, vars, iterations, x) <==>
            Led(env, edges[..n], vars, iterations, x) || (x == edges[n].dest && Leads(env, edges, vars, iterations, n, edges[n].dest))
  {
    var n := |edges| - 1;
    if j :| Leads(env, edges[..n], vars, iterations, j, x) { LeadsBefore(env, edges, vars, iterations, j, x); }
    if j :| Leads(env, edges, vars, iterations, j, x) {
      LeadsBefore(env, edges, vars, iterations, j, x);
    }
  }

  lemma LedFromWave(g: Graph, env: Env, wave: seq<NodeId>, vars: map<Name, Value>, iterations: nat, x: NodeId)
    ensures Led(env, EdgesOf(g, wave), vars, iterations, x) <==>
            x != END && exists id, e :: id in wave && e in Out(g, id) && e.dest == x && Passes(env, e, vars, iterations)
  {
    var edges := EdgesOf(g, wave);
    hide Passes, EdgesOf;
    if j :| Leads(env, edges, vars, iterations, j, x) {
      EdgesOfMembers(g, wave, edges[j]);
    }
    if x != END {
      if id, e :| id in wave && e in Out(g, id) && e.dest == x && Passes(env, e, vars, iterations) {
        EdgesOfMembers(g, wave, e);
        var j :| 0 <= j < |edges| && edges[j] == e;
        assert Leads(env, edges, vars, iterations, j, x);
      }
    }
  }

  lemma UnevaluableInWave(g: Graph, env: Env, wave: seq<NodeId>, vars: map<Name, Value>, iterations: nat)
    ensures (exists j :: 0 <= j < |EdgesOf(g, wave)| && Unevaluable(env, EdgesOf(g, wave)[j], vars, iterations)) <==>
            exists id, e :: id in wave && e in Out(g, id) && Unevaluable(env, e, vars, iterations)
  {
    var edges := EdgesOf(g, wave);
    hide Unevaluable, EdgesOf;
    if j :| 0 <= j < |edges| && Unevaluable(env, edges[j], vars, iterations) {
      EdgesOfMembers(g, wave, edges[j]);
    }
    if id, e :| id in wave && e in Out(g, id) && Unevaluable(env, e, vars, iterations) {
      EdgesOfMembers(g, wave, e);
      var j :| 0 <= j < |edges| && edges[j] == e;
    }
  }

  /**
   What routing means, for every graph, wave, board and count: it fails exactly when some edge
   leaving the wave has a condition that cannot be evaluated; otherwise the frontier holds
   exactly the targets other than END of edges without a condition or with one that holds,
   each once, in the wave and edge order of their first such edge.
   */
  lemma ResolveMeans(g: Graph, env: Env, wave: seq<NodeId>, vars: map<Name, Value>, iterations: nat)
    ensures var next := Resolve(g, env, wave, vars, iterations);
            && (next.None? <==> exists id, e :: id in wave && e in Out(g, id) && Unevaluable(env, e, vars, iterations))
            && (next.Some? ==> IsFrontier(env, EdgesOf(g, wave), vars, iterations, next.value))
            && (next.Some? ==> forall x :: x in next.value <==>
                  x != END && exists id, e :: id in wave && e in Out(g, id) && e.dest == x && Passes(env, e, vars, iterations))
  {
    hide Taken, Dedup, Earlier, EdgesOf, Routed, Led, Unevaluable, Passes;
    var edges := EdgesOf(g, wave);
    RoutedIsTaken(g, env, wave, vars, iterations);
    TakenFailsIff(env, edges, vars, iterations);
    UnevaluableInWave(g, env, wave, vars, iterations);
    if Taken(env, edges, vars, iterations).Some? {
      TakenIsFrontier(env, edges, vars, iterations);
      var next := Dedup(Taken(env, edges, vars, iterations).value);
      forall x
        ensures x in next <==> x != END && exists id, e :: id in wave && e in Out(g, id) && e.dest == x && Passes(env, e, vars, iterations)
      {
        LedFromWave(g, env, wave, vars, iterations, x);
      }
    }
  }

  /** `resolveNext` as the engine runs it: two nested loops, then the in-order dedup. */
  method ResolveNext(g: Graph, env: Env, wave: seq<NodeId>, vars: map<Name, Value>, iterations: nat)
    returns (next: Option<seq<NodeId>>)
    ensures next == Resolve(g, env, wave, vars, iterations)
  {
    var ids: seq<NodeId> := [];
    for i := 0 to |wave|
      invariant Routed(g, env, wave[..i], vars, iterations) == Some(ids)
    {
      assert wave[..i + 1][..i] == wave[..i];
      var edges := Out(g, wave[i]);
      ghost var before := ids;
      for j := 0 to |edges|
        invariant Taken(env, edges[..j], vars, iterations).Some?
        invariant ids == before + Taken(env, edges[..j], vars, iterations).value
      {
        assert edges[..j + 1][..j] == edges[..j];
        var e := edges[j];
        var verdict := if e.cond.None? then Yes else Evaluate(env, e.cond.value, vars, iterations);
        if verdict == Broken {
          BrokenEdgeFailsRouting(g, env, wave, vars, iterations, i, j);
          return None;
        }
        if verdict == Yes && e.dest != END {
          ids := ids + [e.dest];
        }
      }
      assert edges[..|edges|] == edges;
    }
    assert wave[..|wave|] == wave;
    next := Some(Dedup(ids));
  }

  lemma {:induction false} BrokenTaken(env: Env, edges: seq<Edge>, vars: map<Name, Value>, iterations: nat, j: nat)
    requires j < |edges| && edges[j].cond.Some? && Evaluate(env, edges[j].cond.value, vars, iterations) == Broken
    ensures Taken(env, edges, vars, iterations).None?
  {
    if j < |edges| - 1 {
      BrokenTaken(env, edges[..|edges| - 1], vars, iterations, j);
    }
  }

  lemma {:induction false} BrokenEdgeFailsRouting(g: Graph, env: Env, wave: seq<NodeId>, vars: map<Name, Value>, iterations: nat, i: nat, j: nat)
    requires i < |wave| && j < |Out(g, wave[i])|
    requires var e := Out(g, wave[i])[j]; e.cond.Some? && Evaluate(env, e.cond.value, vars, iterations) == Broken
    ensures Routed(g, env, wave, vars, iterations).None?
  {
    if i < |wave| - 1 {
      BrokenEdgeFailsRouting(g, env, wave[..|wave| - 1], vars, iterations, i, j);
    } else {
      BrokenTaken(env, Out(g, wave[i]), vars, iterations, j);
    }
  }

  // ------------------------------------------------------------- the run

  /** A run between two waves. */
  datatype Config = Config(view: Snapshot, frontier: seq<NodeId>, iterations: nat)

  datatype Progress =
    | Running(wave: seq<NodeId>, view: Snapshot, next: Config)
    | Halted
    | OverBudget
    | NodeFailed
    | RouteFailed(wave: seq<NodeId>, view: Snapshot, count: nat)

  function Fresh(g: Graph, board: Snapshot): Config {
    Config(Seen(board), [g.entry], 0)
  }

  /** One turn of the wave loop. */
  function Turn(g: Graph, env: Env, c: Config): Progress {
    if c.frontier == [] then Halted
    else
      var wave := Dedup(c.frontier);
      if g.maxIterations > 0 && c.iterations + |wave| > g.maxIterations then OverBudget
      else
        var r := ExecuteWave(g, env, wave, c.view);
        if r.err.Some? then NodeFailed
        else
          var done := c.iterations + |wave|;
          match Resolve(g, env, wave, r.view.vars, done)
          case None => RouteFailed(wave, r.view, done)
          case Some(next) => Running(wave, r.view, Config(r.view, next, done))
  }

  /** The configuration after n waves, if the run gets that far. */
  function After(g: Graph, env: Env, c: Config, n: nat): Option<Config> {
    if n == 0 then Some(c)
    else
      var before := After(g, env, c, n - 1);
      if before.None? then None
      else match Turn(g, env, before.value)
        case Running(_, _, next) => Some(next)
        case _ => None
  }

  /** The wave was executed and counted, whether or not routing out of it succeeded. */
  predicate Executed(p: Progress) {
    p.Running? || p.RouteFailed?
  }

  function CountOf(p: Progress): nat
    requires Executed(p)
  {
    if p.Running? then p.next.iterations else p.count
  }

  /** An executed wave: what was run, what it left, and that the frontier is what is routed from there, within the budget. */
  lemma TurnRoutes(g: Graph, env: Env, c: Config)
    requires Executed(Turn(g, env, c))
    ensures var p := Turn(g, env, c);
            && p.wave == Dedup(c.frontier) && p.wave != []
            && CountOf(p) == c.iterations + |p.wave| && (g.maxIterations > 0 ==> CountOf(p) <= g.maxIterations)
            && Resolve(g, env, p.wave, p.view.vars, CountOf(p)) == (if p.Running? then Some(p.next.frontier) else None)
            && (p.Running? ==> p.next.view == p.view)
  {
    hide ExecuteWave, Resolve;
  }

  lemma {:induction false} DedupCounts(ids: seq<NodeId>)
    ensures |Dedup(ids)| == |set x | x in ids|
  {
    if ids != [] {
      var rest, last := ids[..|ids| - 1], ids[|ids| - 1];
      DedupCounts(rest);
      assert (set x | x in ids) == (set x | x in rest) + {last};
    }
  }

  /** How a turn ends: completed without a frontier, over budget if the frontier's distinct nodes do not fit, failed with a node, or routed on. */
  lemma TurnEndsIff(g: Graph, env: Env, c: Config)
    ensures var p, count := Turn(g, env, c), c.iterations + |set x | x in c.frontier|;
            var over := g.maxIterations > 0 && count > g.maxIterations;
            var out := ExecuteWave(g, env, Dedup(c.frontier), c.view);
            && (p.Halted? <==> c.frontier == [])
            && (p.OverBudget? <==> c.frontier != [] && over)
            && (p.NodeFailed? <==> c.frontier != [] && !over && out.err.Some?)
            && (Executed(p) <==> c.frontier != [] && !over && out.err.None?)
            && (Executed(p) ==> p.view == out.view && CountOf(p) == count)
  {
    hide ExecuteWave, Resolve, Dedup;
    DedupCounts(c.frontier);
    assert c.frontier == [] ==> (set x | x in c.frontier) == {};
  }

  /** The next configuration is what a turn hands on. */
  lemma AfterNext(g: Graph, env: Env, c: Config, n: nat)
    requires After(g, env, c, n).Some?
    ensures var p := Turn(g, env, After(g, env, c, n).value);
            After(g, env, c, n + 1) == if p.Running? then Some(p.next) else None
  {
    hide Turn;
  }

  lemma AfterStep(g: Graph, env: Env, c: Config, n: nat)
    requires n > 0 && After(g, env, c, n).Some?
    ensures After(g, env, c, n - 1).Some?
    ensures var p := Turn(g, env, After(g, env, c, n - 1).value); p.Running? && p.next == After(g, env, c, n).value
  {
    hide Turn;
  }

  /** The sizes of the first n deduplicated waves, added up. */
  function NodesRouted(g: Graph, env: Env, c: Config, n: nat): nat
    requires After(g, env, c, n).Some?
  {
    if n == 0 then 0
    else NodesRouted(g, env, c, n - 1) + |Dedup(After(g, env, c, n - 1).value.frontier)|
  }

  /** The counter is the starting count plus every node routed since, skipped nodes included. */
  lemma {:induction false} CounterCountsRoutedNodes(g: Graph, env: Env, c: Config, n: nat)
    requires After(g, env, c, n).Some?
    ensures After(g, env, c, n).value.iterations == c.iterations + NodesRouted(g, env, c, n)
    ensures NodesRouted(g, env, c, n) >= n
  {
    hide Turn;
    if n > 0 {
      AfterStep(g, env, c, n);
      CounterCountsRoutedNodes(g, env, c, n - 1);
      TurnRoutes(g, env, After(g, env, c, n - 1).value);
    }
  }

  /** A run that starts within its limit stays within it. */
  lemma {:induction false} BudgetIsNeverExceeded(g: Graph, env: Env, c: Config, n: nat)
    requires g.maxIterations > 0 && c.iterations <= g.maxIterations
    requires After(g, env, c, n).Some?
    ensures After(g, env, c, n).value.iterations <= g.maxIterations
  {
    hide Turn;
    if n > 0 {
      AfterStep(g, env, c, n);
      TurnRoutes(g, env, After(g, env, c, n - 1).value);
    }
  }

  /** With a positive limit every run stops, even one whose nodes are all skipped. */
  lemma BudgetedRunStops(g: Graph, env: Env, c: Config)
    requires g.maxIterations > 0 && c.iterations <= g.maxIterations
    ensures After(g, env, c, g.maxIterations - c.iterations + 1).None?
    ensures forall n: nat :: After(g, env, c, n).Some? ==> NodesRouted(g, env, c, n) <= g.maxIterations - c.iterations
  {
    forall n: nat | After(g, env, c, n).Some?
      ensures n <= NodesRouted(g, env, c, n) <= g.maxIterations - c.iterations
    {
      CounterCountsRoutedNodes(g, env, c, n);
      BudgetIsNeverExceeded(g, env, c, n);
    }
  }

  /** A run is a function of its configuration: splitting it anywhere changes nothing. */
  lemma {:induction false} AfterComposes(g: Graph, env: Env, c: Config, m: nat, n: nat)
    requires After(g, env, c, m).Some?
    ensures After(g, env, c, m + n) == After(g, env, After(g, env, c, m).value, n)
  {
    hide Turn;
    if n > 0 {
      AfterComposes(g, env, c, m, n - 1);
    }
  }

  /** A turn hands on the targets of edges leaving its wave. */
  lemma TurnFollowsEdges(g: Graph, env: Env, c: Config, x: NodeId)
    requires Turn(g, env, c).Running? && x in Turn(g, env, c).next.frontier
    ensures x != END && exists id, e :: id in c.frontier && e in Out(g, id) && e.dest == x
  {
    hide Turn;
    TurnRoutes(g, env, c);
    var p := Turn(g, env, c);
    RoutedFollowsEdges(g, env, p.wave, p.view.vars, p.next.iterations, x);
    var id, e :| id in p.wave && e in Out(g, id) && e.dest == x;
    assert id in c.frontier;
  }

  /** Waves hold only nodes of the graph. */
  lemma {:induction false} FrontierIsKnown(g: Graph, env: Env, c: Config, n: nat)
    requires Valid(g) && (forall id :: id in c.frontier ==> id in g.order)
    requires After(g, env, c, n).Some?
    ensures forall id :: id in After(g, env, c, n).value.frontier ==> id in g.order
  {
    hide Turn;
    if n > 0 {
      AfterStep(g, env, c, n);
      FrontierIsKnown(g, env, c, n - 1);
      var before := After(g, env, c, n - 1).value;
      forall x | x in Turn(g, env, before).next.frontier
        ensures x in g.order
      {
        TurnFollowsEdges(g, env, before, x);
      }
    }
  }
}
