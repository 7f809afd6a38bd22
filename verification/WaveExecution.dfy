/**
 The wave executor on a live board: handler writes, the retry loop with its
 rollback, sequential and merged waves, and the whole Execute loop. Each is
 proved against the deterministic run, and each keeps the board's write history
 whole, so every later delta is exact.
 */
module WaveExecution {
  import opened Wrappers
  import opened BoardModel
  import opened BoardHistory
  import opened BoardObject
  import opened Checkpoints
  import opened CheckpointWriting
  import opened GraphRun
  import opened CrashResume

  lemma {:induction false} EffectsSnoc(a: Snapshot, ops: seq<Op>, op: Op)
    ensures Effects(a, ops + [op]) == Effect(Effects(a, ops), op)
    decreases |ops|
  {
    if ops == [] {
      assert (ops + [op])[1..] == [];
    } else {
      assert (ops + [op])[1..] == ops[1..] + [op];
      EffectsSnoc(Effect(a, ops[0]), ops[1..], op);
    }
  }

  /** Restoring a snapshot of the board puts back what accessors saw. */
  lemma RestoredIsSame(a: Snapshot, snap: Snapshot)
    ensures Same(Effect(a, Restore(snap)), snap)
  {
  }

  method ApplyOp(board: Board, op: Op)
    modifies board
    ensures Step(old(board.Contents()), op, board.Contents())
  {
    match op
    case SetVar(k, v) => board.SetVar(k, v);
    case DeleteVar(k) => board.DeleteVar(k);
    case AppendSlice(k, v) => var _ := board.AppendSliceVar(k, v);
    case SetChannel(c, ms) => board.SetChannel(c, ms);
    case Append(c, ms) => board.AppendChannelMessages(c, ms);
    case Pop(c) => var _ := board.PopChannelMessage(c);
    case Restore(snap) => board.RestoreFrom(Some(snap));
    case Apply(d) => board.ApplyDelta(d);
  }

  lemma StepHasEffect(s: State, op: Op, t: State)
    requires Step(s, op, t)
    ensures Snap(t) == Effect(Snap(s), op)
  {
  }

  /** One handler write, seen from a mark taken before it. */
  method ApplyWrite(board: Board, op: Op, ghost s0: State)
    requires Follows(s0, board.Contents()) && !op.Restore?
    modifies board
    ensures Snap(board.Contents()) == Effect(old(Snap(board.Contents())), op)
    ensures Follows(s0, board.Contents())
  {
    hide Follows, Effect, Step, WellStamped, Tracks;
    ghost var s := board.Contents();
    FollowsTracks(s0, s);
    ApplyOp(board, op);
    StepFollows(s, op, board.Contents());
    FollowsTransitive(s0, s, board.Contents());
    StepHasEffect(s, op, board.Contents());
  }

  method ApplyOps(board: Board, ops: seq<Op>)
    requires WellStamped(board.Contents()) && forall op :: op in ops ==> !op.Restore?
    modifies board
    ensures Snap(board.Contents()) == Effects(old(Snap(board.Contents())), ops)
    ensures Follows(old(board.Contents()), board.Contents())
  {
    ghost var s0 := board.Contents();
    assert Effects(Snap(s0), []) == Snap(s0);
    hide *;
    FollowsReflexive(s0);
    for i := 0 to |ops|
      invariant Snap(board.Contents()) == Effects(Snap(s0), ops[..i])
      invariant Follows(s0, board.Contents())
    {
      ApplyWrite(board, ops[i], s0);
      EffectsSnoc(Snap(s0), ops[..i], ops[i]);
      assert ops[..i + 1] == ops[..i] + [ops[i]];
    }
    assert ops[..|ops|] == ops;
  }

  /** Writes on two boards nobody can tell apart leave two boards nobody can tell apart. */
  lemma WroteFromSeen(a: Snapshot, ops: seq<Op>)
    ensures Seen(Effects(a, ops)) == Wrote(Seen(a), ops)
  {
    SeenIsSame(a);
    EffectsRespectSame(a, Seen(a), ops);
    SameIffSeenEqual(Effects(a, ops), Effects(Seen(a), ops));
  }

  lemma SeenIsSame(a: Snapshot)
    ensures Same(a, Seen(a)) && Seen(Seen(a)) == Seen(a)
  {
    SameIffSeenEqual(a, Seen(a));
  }

  /** The retry loop of one node invocation. */
  method RunAttempts(g: Graph, env: Env, ctx: Context, id: NodeId, board: Board) returns (err: Option<Failure>)
    requires WellStamped(board.Contents()) && Handlers(env)
    modifies board
    ensures var v := old(Seen(Snap(board.Contents())));
            NodeOut(Seen(Snap(board.Contents())), err) == Attempts(env, ctx, id, 0, g.maxNodeRetries, v)
    ensures Follows(old(board.Contents()), board.Contents())
  {
    hide Follows, WellStamped, Tracks, Step, Effects, Seen, Handlers;
    ghost var s0 := board.Contents();
    var view := Seen(BoardModel.Snapshot(board.vars, board.channels));
    var rollback: Option<Snapshot> := None;
    if g.maxNodeRetries > 0 {
      var snap := board.Snapshot();
      rollback := Some(snap);
    }
    FollowsReflexive(s0);
    var k := 0;
    while true
      invariant k <= g.maxNodeRetries && Follows(s0, board.Contents())
      invariant Seen(Snap(board.Contents())) == view
      invariant g.maxNodeRetries > 0 ==> rollback == Some(Snap(s0))
      invariant Attempts(env, ctx, id, k, g.maxNodeRetries, view) == Attempts(env, ctx, id, 0, g.maxNodeRetries, view)
      decreases g.maxNodeRetries - k
    {
      if k > 0 && ctx(2 * k).Some? {
        return ctx(2 * k);
      }
      ghost var s := board.Contents();
      FollowsTracks(s0, s);
      var a := env.attempt(id, k, view);
      HandlersDoNotRestore(env, id, k, view, []);
      ApplyOps(board, a.ops);
      FollowsTransitive(s0, s, board.Contents());
      WroteFromSeen(Snap(s), a.ops);
      if a.err != Some(Retryable) || k >= g.maxNodeRetries {
        return if a.err.Some? && ctx(2 * k + 1).Some? then ctx(2 * k + 1) else a.err;
      }
      ghost var wrote := board.Contents();
      board.RestoreFrom(rollback);
      assert Same(Snap(board.Contents()), Snap(s0)) by {
        StepRestores(wrote, Snap(s0), board.Contents());
      }
      SameIffSeenEqual(Snap(board.Contents()), Snap(s0));
      FollowsReflexive(s0);
      FollowsTracks(s0, wrote);
      RollbackFollows(s0, s0, wrote, board.Contents());
      k := k + 1;
    }
  }

  lemma HandlersDoNotRestore(env: Env, id: NodeId, k: nat, v: Snapshot, wave: seq<NodeId>)
    requires Handlers(env)
    ensures forall op :: op in env.attempt(id, k, v).ops ==> !op.Restore?
    ensures forall op :: op in env.merge(wave, v).ops ==> !op.Restore?
  {
  }

  lemma StepRestores(s: State, snap: Snapshot, t: State)
    requires Step(s, Restore(snap), t)
    ensures Same(Snap(t), snap)
  {
    RestoredIsSame(Snap(s), snap);
  }

  /** One node call under a context: skip test, role checks, attempts, and the name an interrupted node leaves behind. */
  method InvokeNode(g: Graph, env: Env, ctx: Context, id: NodeId, board: Board) returns (err: Option<Failure>)
    requires WellStamped(board.Contents()) && Handlers(env)
    modifies board
    ensures var v := old(Seen(Snap(board.Contents())));
            NodeOut(Seen(Snap(board.Contents())), err) == Invoke(g, env, ctx, id, v)
    ensures Follows(old(board.Contents()), board.Contents())
  {
    hide Follows, WellStamped, Seen, Attempts, Handlers, Tracks, Effects;
    FollowsReflexive(board.Contents());
    var view := Seen(BoardModel.Snapshot(board.vars, board.channels));
    SeenVars(Snap(board.Contents()));
    match env.skip(id, board.vars) {
      case Broken => return Some(Terminal);
      case Yes => return None;
      case No =>
    }
    if !env.ready(id, view) {
      return Some(Terminal);
    }
    ghost var s0 := board.Contents();
    err := RunAttempts(g, env, ctx, id, board);
    if err == Some(Interrupt) {
      ghost var s := board.Contents();
      FollowsTracks(s0, s);
      var note := SetVar(VAR_INTERRUPTED, Atom(id));
      ApplyOps(board, [note]);
      FollowsTransitive(s0, s, board.Contents());
      WroteFromSeen(Snap(s), [note]);
    }
    if err.None? {
      var after := Seen(BoardModel.Snapshot(board.vars, board.channels));
      if !env.wrote(id, view, after) {
        err := Some(Terminal);
      }
    }
  }

  lemma SeenVars(a: Snapshot)
    ensures Seen(a).vars == a.vars
  {
  }

  method ExecuteWaveOn(g: Graph, env: Env, wave: seq<NodeId>, board: Board) returns (err: Option<Failure>)
    requires WellStamped(board.Contents()) && Handlers(env)
    modifies board
    ensures var v := old(Seen(Snap(board.Contents())));
            NodeOut(Seen(Snap(board.Contents())), err) == ExecuteWave(g, env, wave, v)
    ensures Follows(old(board.Contents()), board.Contents())
  {
    hide Follows, WellStamped, Seen, Invoke, Effects, Tracks, Handlers;
    ghost var s0 := board.Contents();
    FollowsReflexive(s0);
    if |wave| == 1 || !env.parallel {
      for i := 0 to |wave|
        invariant Follows(s0, board.Contents())
        invariant Sequential(g, env, wave[i..], Seen(Snap(board.Contents()))) == Sequential(g, env, wave, Seen(Snap(s0)))
      {
        assert wave[i..][1..] == wave[i + 1..];
        ghost var s := board.Contents();
        FollowsTracks(s0, s);
        err := InvokeNode(g, env, ALIVE, wave[i], board);
        FollowsTransitive(s0, s, board.Contents());
        if err.Some? {
          return;
        }
      }
      return None;
    }
    var view := Seen(BoardModel.Snapshot(board.vars, board.channels));
    var merged := env.merge(wave, view);
    HandlersDoNotRestore(env, "", 0, view, wave);
    ApplyOps(board, merged.ops);
    WroteFromSeen(Snap(s0), merged.ops);
    return if merged.Merge? then None else Some(merged.err);
  }

  /** How an Execute call ended. */
  datatype Outcome = Completed | Cancelled | OverLimit | NodeError | RouteError

  /** The objects of a running engine hold what the live state says. */
  ghost predicate Mirrors(l: Live, board: Board, frontier: seq<NodeId>, iterations: nat,
                          writer: CheckpointWriter, store: CheckpointStore)
    reads board, writer, store
  {
    && l.board == board.Contents() && l.frontier == frontier && l.iterations == iterations
    && l.writer == writer.Contents() && l.store == store.Contents()
  }

  /** The live state after the executed part of a turn: on the next frontier, or stuck. */
  ghost function Advanced(j: Job, l: Live, board: State, meta: Meta, onAppend: Reply, onSave: Reply): Live
    requires Executed(Turn(j.g, j.env, ConfigOf(l)))
  {
    var p := Turn(j.g, j.env, ConfigOf(l));
    var r := Stamp(l.writer, l.store, board, meta, onAppend, onSave);
    var carried := if MayAppend(l.writer) && onAppend == Accepted && l.last.Some?
                   then Merged(l.last.value.meta, meta) else meta;
    var frontier, count := if p.Running? then p.next.frontier else l.frontier, if p.Running? then p.next.iterations else l.iterations;
    Live(board, frontier, count, p.RouteFailed?, r.writer, r.store, if p.Running? then l.pos + 1 else l.pos,
         if r.ok then l.pos + 1 else l.saved,
         if r.ok then Some(Boundary(board, carried)) else l.last)
  }

  lemma AdvancedIsOk(j: Job, l: Live, board: State, meta: Meta, onAppend: Reply, onSave: Reply)
    requires LiveOk(j, l) && !l.stuck && Executed(Turn(j.g, j.env, ConfigOf(l)))
    requires var p := Turn(j.g, j.env, ConfigOf(l));
             Seen(Snap(board)) == p.view && BoundaryMeta(j.g, p.wave, CountOf(p), meta)
    requires Follows(l.board, board)
    requires MayAppend(l.writer) && onAppend == Accepted ==> l.store.base.Some?
    ensures LiveOk(j, Advanced(j, l, board, meta, onAppend, onSave))
  {
    hide Follows, LiveOk, Turn, Stamp, Merged, Seen, BoundaryMeta;
    var l' := Advanced(j, l, board, meta, onAppend, onSave);
    if l'.stuck {
      StuckKeepsOk(j, l, meta, onAppend, onSave, l');
    } else {
      WaveKeepsOk(j, l, meta, onAppend, onSave, l');
    }
  }

  /** What one turn does, from its parts. */
  lemma TurnFromParts(g: Graph, env: Env, c: Config, wave: seq<NodeId>, r: NodeOut, next: Option<seq<NodeId>>)
    requires c.frontier != [] && wave == Dedup(c.frontier) && r == ExecuteWave(g, env, wave, c.view)
    requires next == Resolve(g, env, wave, r.view.vars, c.iterations + |wave|)
    ensures Turn(g, env, c)
            == if g.maxIterations > 0 && c.iterations + |wave| > g.maxIterations then OverBudget
               else if r.err.Some? then NodeFailed
               else match next case None => RouteFailed(wave, r.view, c.iterations + |wave|)
                               case Some(f) => Running(wave, r.view, Config(r.view, f, c.iterations + |wave|))
  {
    hide ExecuteWave, Resolve;
  }

  /** A wave was executed: stamp the boundary, then route out of it. */
  method StampAndRoute(j: Job, ghost l: Live, board: Board, writer: CheckpointWriter, store: CheckpointStore,
                       wave: seq<NodeId>, done: nat, meta: Meta, onAppend: Reply, onSave: Reply)
    returns (next: Option<seq<NodeId>>, ghost l': Live)
    requires LiveOk(j, l) && !l.stuck && l.writer == writer.Contents() && l.store == store.Contents()
    requires Follows(l.board, board.Contents())
    requires var p := Turn(j.g, j.env, ConfigOf(l));
             && Executed(p) && p.wave == wave && CountOf(p) == done && p.view == Seen(Snap(board.Contents()))
             && BoundaryMeta(j.g, wave, done, meta)
    modifies writer, store
    ensures LiveOk(j, l') && l'.board == board.Contents() && l'.writer == writer.Contents() && l'.store == store.Contents()
    ensures l'.stuck == next.None?
    ensures if next.Some? then l'.frontier == next.value && l'.iterations == done && l'.pos == l.pos + 1 else l'.pos == l.pos
  {
    hide Follows, Seen, Turn, Resolve, Stamp, LiveOk, Advanced, BoundaryMeta, MayAppend;
    ghost var reply := if onAppend == Accepted && store.base.None? then NeedsBase else onAppend;
    var _ := writer.StampBoard(meta, board, store, onAppend, onSave);
    SeenVars(Snap(board.Contents()));
    TurnRoutes(j.g, j.env, ConfigOf(l));
    next := ResolveNext(j.g, j.env, wave, board.vars, done);
    l' := Advanced(j, l, board.Contents(), meta, reply, onSave);
    AdvancedIsOk(j, l, board.Contents(), meta, reply, onSave);
    AdvancedMirrors(j, l, board.Contents(), meta, reply, onSave);
  }

  /** How a poll finds the run stopped: by its context, by an interrupt behind that, or by the host's interrupt. */
  datatype Poll = ContextDone | ContextInterrupted | HostInterrupt

  /** The one strike of a call: the poll before its wave number `at`, or the one after that wave ran and before it is stamped. */
  datatype Strike = Strike(at: nat, afterWave: bool, poll: Poll)

  /** Before a wave either kind of interrupt leaves the name of the node that would have run; after it only the host's. */
  predicate LeavesName(strike: Strike) {
    strike.poll.HostInterrupt? || (strike.poll.ContextInterrupted? && !strike.afterWave)
  }

  method NoteNode(board: Board, id: NodeId)
    requires WellStamped(board.Contents())
    modifies board
    ensures Seen(Snap(board.Contents())) == Wrote(old(Seen(Snap(board.Contents()))), [SetVar(VAR_INTERRUPTED, Atom(id))])
  {
    hide Follows, WellStamped, Seen, Effects;
    ghost var s := board.Contents();
    var note := SetVar(VAR_INTERRUPTED, Atom(id));
    ApplyOps(board, [note]);
    WroteFromSeen(Snap(s), [note]);
  }

  /** What a struck call leaves on its board: the last boundary's contents, or one executed wave more, and a name if it was an interrupt. */
  ghost predicate LeftBy(j: Job, strike: Strike, l: Live, view: Snapshot) {
    var wave := Dedup(l.frontier);
    && wave != []
    && if strike.afterWave
       then var out := ExecuteWave(j.g, j.env, wave, ConfigOf(l).view);
            out.err.None? && view == if LeavesName(strike) then Wrote(out.view, [SetVar(VAR_INTERRUPTED, Atom(wave[|wave| - 1]))]) else out.view
       else l.frontier != [] &&
            view == if LeavesName(strike) then Wrote(ConfigOf(l).view, [SetVar(VAR_INTERRUPTED, Atom(l.frontier[0]))]) else ConfigOf(l).view
  }

  /**
   The wave loop. It polls before and after every wave; `strike` says which poll of this
   call stops it, if nothing else does before. Envelopes and store replies are the host's
   choice, one per boundary. The call starts from any live state, fresh or resumed, and
   ends on the uninterrupted run, with a store a resume returns to it from; a wave that
   cannot be routed was stamped all the same, and a wave struck after it ran was not.
   */
  method Execute(j: Job, ghost l0: Live, board: Board, frontier: seq<NodeId>, iterations: nat,
                 writer: CheckpointWriter, store: CheckpointStore,
                 strike: Strike, metaOf: (nat, seq<NodeId>, nat) -> Meta, replies: nat -> (Reply, Reply))
    returns (outcome: Outcome, waves: nat, rest: seq<NodeId>, count: nat, ghost l: Live)
    requires Handlers(j.env) && LiveOk(j, l0) && !l0.stuck
    requires Mirrors(l0, board, frontier, iterations, writer, store)
    requires forall i, wave, n: nat :: BoundaryMeta(j.g, wave, n, metaOf(i, wave, n))
    modifies board, writer, store
    ensures LiveOk(j, l) && l.pos == l0.pos + waves && waves <= strike.at
    ensures l.writer == writer.Contents() && l.store == store.Contents()
    ensures outcome == Completed ==> Mirrors(l, board, rest, count, writer, store)
    ensures l.stuck <==> outcome == RouteError
    ensures match outcome
            case Completed => Turn(j.g, j.env, ConfigOf(l)) == Halted
            case Cancelled => waves == strike.at && LeftBy(j, strike, l, Seen(Snap(board.Contents())))
            case OverLimit => Turn(j.g, j.env, ConfigOf(l)) == OverBudget
            case NodeError => Turn(j.g, j.env, ConfigOf(l)) == NodeFailed
            case RouteError => l.board == board.Contents()
  {
    hide Follows, WellStamped, Seen, Turn, ExecuteWave, Resolve, Stamp, LiveOk, Handlers, Advanced, BoundaryMeta, MayAppend, Dedup, Routed, Effects, Wrote;
    l, rest, count, waves := l0, frontier, iterations, 0;
    while |rest| > 0
      invariant LiveOk(j, l) && l.pos == l0.pos + waves && waves <= strike.at && !l.stuck
      invariant Mirrors(l, board, rest, count, writer, store)
      decreases strike.at - waves
    {
      LiveWellStamped(j, l);
      var wave := Dedup(rest);
      DedupKeepsSome(rest);
      if waves == strike.at && !strike.afterWave {
        if LeavesName(strike) {
          NoteNode(board, rest[0]);
        }
        return Cancelled, waves, rest, count, l;
      }
      ghost var c := ConfigOf(l);
      ghost var r := ExecuteWave(j.g, j.env, wave, c.view);
      ghost var routed := Resolve(j.g, j.env, wave, r.view.vars, count + |wave|);
      TurnFromParts(j.g, j.env, c, wave, r, routed);
      if j.g.maxIterations > 0 && count + |wave| > j.g.maxIterations {
        return OverLimit, waves, rest, count, l;
      }
      var err := ExecuteWaveOn(j.g, j.env, wave, board);
      if err.Some? {
        return NodeError, waves, rest, count, l;
      }
      if waves == strike.at {
        if LeavesName(strike) {
          FollowsTracks(l.board, board.Contents());
          NoteNode(board, wave[|wave| - 1]);
        }
        return Cancelled, waves, rest, count, l;
      }
      var done := count + |wave|;
      var next;
      next, l := StampAndRoute(j, l, board, writer, store, wave, done, metaOf(waves, wave, done), replies(waves).0, replies(waves).1);
      if next.None? {
        return RouteError, waves, rest, count, l;
      }
      rest, count, waves := next.value, done, waves + 1;
    }
    EmptyFrontierHalts(j.g, j.env, ConfigOf(l));
    outcome := Completed;
  }

  lemma DedupKeepsSome(ids: seq<NodeId>)
    requires ids != []
    ensures Dedup(ids) != []
  {
  }

  lemma EmptyFrontierHalts(g: Graph, env: Env, c: Config)
    requires c.frontier == []
    ensures Turn(g, env, c) == Halted
  {
  }

  lemma LiveWellStamped(j: Job, l: Live)
    requires LiveOk(j, l)
    ensures WellStamped(l.board)
  {
  }

  lemma AdvancedMirrors(j: Job, l: Live, board: State, meta: Meta, onAppend: Reply, onSave: Reply)
    requires Executed(Turn(j.g, j.env, ConfigOf(l)))
    ensures var a, p, r := Advanced(j, l, board, meta, onAppend, onSave), Turn(j.g, j.env, ConfigOf(l)),
                           Stamp(l.writer, l.store, board, meta, onAppend, onSave);
            && a.board == board && a.writer == r.writer && a.store == r.store && a.stuck == p.RouteFailed?
            && (p.Running? ==> a.frontier == p.next.frontier && a.iterations == p.next.iterations && a.pos == l.pos + 1)
            && (p.RouteFailed? ==> a.pos == l.pos)
  {
    hide Turn, Stamp;
  }
}
