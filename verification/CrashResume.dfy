/**
 Crash and resume. The engine stamps every wave boundary through the checkpoint
 writer; a crash throws the live run away and a resume rebuilds it from what the
 store loads. Whatever the store refused or lost and however often the process
 dies, the run is always somewhere on the uninterrupted run.
 */
module CrashResume {
  import opened Wrappers
  import opened BoardModel
  import opened BoardHistory
  import opened Checkpoints
  import opened CheckpointWriting
  import opened GraphRun

  // ---------------------------------------------------------------- resume

  /** The admission check before a resume. */
  predicate CanResume(g: Graph, r: Record) {
    && (r.meta.specVersion == "" || r.meta.specVersion == g.specVersion)
    && r.meta.steps.Some? && r.meta.steps.value != []
    && (forall id :: id in r.meta.steps.value ==> id in g.order)
    && (g.maxIterations > 0 ==> r.meta.iteration <= g.maxIterations)
  }

  /** Restore the board, take the recorded count, and route again from the recorded wave. */
  function Resumed(g: Graph, env: Env, runID: string, r: Record): Option<Config> {
    if r.execID != runID || !CanResume(g, r) || r.meta.iteration < 0 then None
    else
      var view := Seen(r.board);
      var next := Resolve(g, env, r.meta.steps.value, view.vars, r.meta.iteration);
      if next.None? then None else Some(Config(view, next.value, r.meta.iteration))
  }

  /** The envelope the engine stamps at a boundary; clocks and attributes are the host's. */
  predicate BoundaryMeta(g: Graph, wave: seq<NodeId>, iterations: nat, m: Meta) {
    m.steps == Some(wave) && m.iteration == iterations && m.specVersion == g.specVersion
  }

  /** The turn that leads to the n-th boundary. */
  ghost predicate TurnBefore(g: Graph, env: Env, c: Config, n: nat, p: Progress) {
    n > 0 && After(g, env, c, n - 1).Some? && p == Turn(g, env, After(g, env, c, n - 1).value) && Executed(p)
  }

  /** The record of the boundary a turn leads to. A boundary is stamped before it is routed, so routing may fail behind it. */
  ghost predicate RecordsTurn(g: Graph, runID: string, p: Progress, r: Record)
    requires Executed(p)
  {
    r.execID == runID && Seen(r.board) == p.view && BoundaryMeta(g, p.wave, CountOf(p), r.meta)
  }

  /** The record of the n-th wave boundary of the run from c. */
  ghost predicate RecordsBoundary(g: Graph, env: Env, runID: string, c: Config, n: nat, r: Record) {
    exists p :: TurnBefore(g, env, c, n, p) && RecordsTurn(g, runID, p, r)
  }

  /**
   Resuming a boundary's record is admitted and puts the run exactly where the boundary
   left it; if the run itself could not be routed from there, neither can the resume.
   */
  lemma ResumeReturnsToRun(g: Graph, env: Env, runID: string, c: Config, n: nat, r: Record)
    requires Valid(g) && (forall id :: id in c.frontier ==> id in g.order)
    requires RecordsBoundary(g, env, runID, c, n, r)
    ensures n > 0 && r.execID == runID && CanResume(g, r) && Resumed(g, env, runID, r) == After(g, env, c, n)
  {
    hide Turn, Resolve, Seen;
    var p :| TurnBefore(g, env, c, n, p) && RecordsTurn(g, runID, p, r);
    FrontierIsKnown(g, env, c, n - 1);
    TurnRoutes(g, env, After(g, env, c, n - 1).value);
    AfterNext(g, env, c, n - 1);
  }

  /** Why a record is refused: another run's, another graph version's, no wave recorded, an unknown node in it, or a count outside the budget. */
  ghost predicate Foreign(g: Graph, runID: string, r: Record) {
    || r.execID != runID || (r.meta.specVersion != "" && r.meta.specVersion != g.specVersion)
    || r.meta.steps == None || r.meta.steps == Some([]) || (exists id :: id in r.meta.steps.value && id !in g.order)
    || r.meta.iteration < 0 || 0 < g.maxIterations < r.meta.iteration
  }

  /**
   A resume is refused exactly for a foreign record or one whose wave cannot be routed again;
   one that is admitted continues with the recorded contents, within the budget, at nodes of the graph.
   */
  lemma ResumeAdmitsIff(g: Graph, env: Env, runID: string, r: Record)
    requires Valid(g)
    ensures var c := Resumed(g, env, runID, r);
            && (c.None? <==> Foreign(g, runID, r) || Resolve(g, env, r.meta.steps.value, Seen(r.board).vars, r.meta.iteration).None?)
            && (c.Some? ==> c.value.view == Seen(r.board) && c.value.iterations == r.meta.iteration
                            && (g.maxIterations > 0 ==> c.value.iterations <= g.maxIterations)
                            && forall x :: x in c.value.frontier ==> x in g.order)
  {
    hide Seen, Resolve;
    var c := Resumed(g, env, runID, r);
    if c.Some? {
      forall x | x in c.value.frontier
        ensures x in g.order
      {
        ResolvedIsKnown(g, env, r.meta.steps.value, Seen(r.board).vars, r.meta.iteration, x);
      }
    }
  }

  lemma ResolvedIsKnown(g: Graph, env: Env, wave: seq<NodeId>, vars: map<Name, Value>, iterations: nat, x: NodeId)
    requires Valid(g) && Resolve(g, env, wave, vars, iterations).Some? && x in Resolve(g, env, wave, vars, iterations).value
    ensures x in g.order
  {
    hide Routed;
    RoutedFollowsEdges(g, env, wave, vars, iterations, x);
  }

  // ------------------------------------------------------------- live runs

  datatype Job = Job(g: Graph, env: Env, runID: string, seed: Snapshot, journal: bool, window: nat)

  function Start(j: Job): Config {
    Fresh(j.g, j.seed)
  }

  /**
   A live process and its store. `pos`, `saved` and `last` are history: where the run and
   its record stand. `stuck` is set once a wave was executed and could not be routed.
   */
  datatype Live = Live(
    board: State, frontier: seq<NodeId>, iterations: nat, stuck: bool,
    writer: Writer, store: Store,
    pos: nat, saved: nat, last: Option<Boundary>)

  function ConfigOf(l: Live): Config {
    Config(Seen(Snap(l.board)), l.frontier, l.iterations)
  }

  /** The boundary `at` is stamped: accepted, refused or failed, and noted in the history. */
  ghost predicate Stamps(l: Live, meta: Meta, onAppend: Reply, onSave: Reply, at: nat, l': Live) {
    var r := Stamp(l.writer, l.store, l'.board, meta, onAppend, onSave);
    && (MayAppend(l.writer) && onAppend == Accepted ==> l.store.base.Some?)
    && l'.writer == r.writer && l'.store == r.store
    && (if r.ok
        then && l'.saved == at
             && l'.last == Some(Boundary(l'.board, if MayAppend(l.writer) && onAppend == Accepted && l.last.Some?
                                                   then Merged(l.last.value.meta, meta) else meta))
        else l'.saved == l.saved && l'.last == l.last)
  }

  /** The executed part of a turn: the board keeps its history whole while nodes write it, then the boundary is stamped. */
  ghost predicate ExecuteStep(j: Job, l: Live, p: Progress, meta: Meta, onAppend: Reply, onSave: Reply, l': Live)
    requires Executed(p)
  {
    && Follows(l.board, l'.board) && Seen(Snap(l'.board)) == p.view
    && BoundaryMeta(j.g, p.wave, CountOf(p), meta)
    && Stamps(l, meta, onAppend, onSave, l.pos + 1, l')
  }

  /** One wave: execute, count, stamp, route. */
  ghost predicate WaveStep(j: Job, l: Live, meta: Meta, onAppend: Reply, onSave: Reply, l': Live) {
    var p := Turn(j.g, j.env, ConfigOf(l));
    && !l.stuck && p.Running? && ExecuteStep(j, l, p, meta, onAppend, onSave, l')
    && !l'.stuck && l'.frontier == p.next.frontier && l'.iterations == p.next.iterations && l'.pos == l.pos + 1
  }

  /** The last wave of a run that cannot go on: executed and stamped, then routing fails. */
  ghost predicate StuckStep(j: Job, l: Live, meta: Meta, onAppend: Reply, onSave: Reply, l': Live) {
    var p := Turn(j.g, j.env, ConfigOf(l));
    && !l.stuck && p.RouteFailed? && ExecuteStep(j, l, p, meta, onAppend, onSave, l')
    && l'.stuck && l'.pos == l.pos
  }

  /** The process dies and another one takes over from the store, or from the seed when nothing was stored. */
  ghost predicate CrashStep(j: Job, l: Live, l': Live) {
    && l'.store == l.store && l'.saved == l.saved && l'.last.None? && !l'.stuck
    && l'.writer == NewWriter(j.runID, true, j.journal, j.window)
    && WellStamped(l'.board)
    && match Load(l.store)
       case None => ConfigOf(l') == Start(j) && l'.pos == 0
       case Some(r) =>
         && Snap(l'.board) == Effect(Snap(l.board), Restore(r.board))
         && Resumed(j.g, j.env, j.runID, r) == Some(ConfigOf(l')) && l'.pos == l.saved
  }

  /** The store loses the record, and its chain with it; the writer does not know. */
  ghost predicate WipeStep(l: Live, l': Live) {
    l' == l.(store := Store(None, []), saved := 0, last := None)
  }

  ghost predicate Begins(j: Job, l: Live) {
    && WellStamped(l.board) && ConfigOf(l) == Start(j) && l.pos == 0 && l.saved == 0 && !l.stuck
    && l.writer == NewWriter(j.runID, true, j.journal, j.window)
    && l.store == Store(None, []) && l.last.None?
  }

  ghost predicate GoodJob(j: Job) {
    Valid(j.g) && j.runID != ""
  }

  /** Where the run is: on the uninterrupted one, at the wave it could not be routed from if it is stuck. */
  ghost predicate RunOk(j: Job, l: Live) {
    && After(j.g, j.env, Start(j), l.pos).Some?
    && (if l.stuck then Turn(j.g, j.env, After(j.g, j.env, Start(j), l.pos).value).RouteFailed?
        else After(j.g, j.env, Start(j), l.pos) == Some(ConfigOf(l)))
  }

  /** What the store holds, and that the writer's next delta will be exact. */
  ghost predicate StoreOk(j: Job, l: Live) {
    && l.writer.execID == j.runID && l.writer.enabled && l.writer.window > 0
    && (Load(l.store).None? <==> l.saved == 0)
    && (Load(l.store).Some? ==> RecordsBoundary(j.g, j.env, j.runID, Start(j), l.saved, Load(l.store).value))
    && (l.last.None? ==> !l.writer.hasBase || l.store.base.None?)
    && (l.last.Some? ==> Durable(l.writer, l.store, l.last.value) && Follows(l.last.value.board, l.board))
  }

  ghost predicate LiveOk(j: Job, l: Live) {
    WellStamped(l.board) && RunOk(j, l) && StoreOk(j, l)
  }

  lemma StartIsKnown(j: Job)
    requires GoodJob(j)
    ensures forall id :: id in Start(j).frontier ==> id in j.g.order
  {
  }

  lemma BeginIsOk(j: Job, l: Live)
    requires GoodJob(j) && Begins(j, l)
    ensures LiveOk(j, l)
  {
  }

  /** A successful stamp makes the new boundary durable: the delta is exact because nodes never orphan a channel. */
  lemma StampIsDurable(w: Writer, st: Store, last: Option<Boundary>, s: State, meta: Meta, onAppend: Reply, onSave: Reply)
    requires w.enabled && WellStamped(s)
    requires last.Some? ==> Durable(w, st, last.value) && Follows(last.value.board, s)
    requires MayAppend(w) && onAppend == Accepted ==> last.Some?
    requires Stamp(w, st, s, meta, onAppend, onSave).ok
    ensures var r := Stamp(w, st, s, meta, onAppend, onSave);
            Durable(r.writer, r.store,
                    Boundary(s, if MayAppend(w) && onAppend == Accepted then Merged(last.value.meta, meta) else meta))
  {
    hide Durable, Follows, Tracks, WellStamped, Continues, Exact;
    if MayAppend(w) && onAppend == Accepted {
      FollowsIsExact(last.value.board, s);
      assert Tracks(last.value.board, s) by { FollowsTracks(last.value.board, s); }
      DeltaExactIffContinues(last.value.board, s);
      AppendDurableIff(w, st, last.value, s, meta);
    } else {
      DurableRecord(w, st, s, meta);
    }
  }

  lemma DurableLoads(w: Writer, st: Store, at: Boundary)
    requires Durable(w, st, at)
    ensures Load(st).Some? && w.hasBase
    ensures var r := Load(st).value;
            r.execID == w.execID && r.meta == at.meta && Seen(r.board) == Seen(Snap(at.board))
  {
    SameIffSeenEqual(Load(st).value.board, Snap(at.board));
  }

  lemma MergedBoundaryMeta(g: Graph, wave: seq<NodeId>, iterations: nat, was: Meta, m: Meta)
    requires BoundaryMeta(g, wave, iterations, m) && iterations > 0 && was.specVersion == g.specVersion
    ensures BoundaryMeta(g, wave, iterations, Merged(was, m))
  {
  }

  /** The envelope a load shows after the stamp describes the executed wave, carried over an older one or not. */
  lemma CarriedMeta(j: Job, l: Live, p: Progress, meta: Meta)
    requires StoreOk(j, l) && l.last.Some? && Executed(p) && CountOf(p) > 0 && BoundaryMeta(j.g, p.wave, CountOf(p), meta)
    ensures BoundaryMeta(j.g, p.wave, CountOf(p), Merged(l.last.value.meta, meta))
  {
    hide Durable, Follows, Turn, Merged;
    DurableLoads(l.writer, l.store, l.last.value);
    var r := Load(l.store).value;
    var q :| TurnBefore(j.g, j.env, Start(j), l.saved, q) && RecordsTurn(j.g, j.runID, q, r);
    MergedBoundaryMeta(j.g, p.wave, CountOf(p), l.last.value.meta, meta);
  }

  /** What a stamp leaves of the writer, whether it succeeded or not. */
  lemma StampFrame(w: Writer, st: Store, s: State, meta: Meta, onAppend: Reply, onSave: Reply)
    requires w.enabled
    ensures var r := Stamp(w, st, s, meta, onAppend, onSave);
            && r.writer.execID == w.execID && r.writer.enabled && r.writer.window == w.window
            && (if r.ok then r.writer.hasBase else r.writer == w && r.store == st)
  {
  }

  /** A boundary that became durable: the load shows it and later deltas start from it. */
  lemma StampSucceeds(j: Job, l: Live, p: Progress, meta: Meta, onAppend: Reply, onSave: Reply, l': Live)
    requires StoreOk(j, l) && WellStamped(l'.board) && (l.last.Some? ==> Follows(l.last.value.board, l'.board))
    requires Executed(p) && CountOf(p) > 0 && TurnBefore(j.g, j.env, Start(j), l.pos + 1, p)
    requires ExecuteStep(j, l, p, meta, onAppend, onSave, l') && Stamp(l.writer, l.store, l'.board, meta, onAppend, onSave).ok
    ensures StoreOk(j, l')
  {
    hide Durable, Follows, WellStamped, TurnBefore, Merged, Seen, Stamp;
    StampFrame(l.writer, l.store, l'.board, meta, onAppend, onSave);
    StampIsDurable(l.writer, l.store, l.last, l'.board, meta, onAppend, onSave);
    if l.last.Some? {
      CarriedMeta(j, l, p, meta);
    }
    DurableLoads(l'.writer, l'.store, l'.last.value);
    FollowsReflexive(l'.board);
    assert RecordsTurn(j.g, j.runID, p, Load(l'.store).value);
  }

  lemma ExecuteKeepsStore(j: Job, l: Live, p: Progress, meta: Meta, onAppend: Reply, onSave: Reply, l': Live)
    requires LiveOk(j, l) && Executed(p) && CountOf(p) > 0 && TurnBefore(j.g, j.env, Start(j), l.pos + 1, p)
    requires ExecuteStep(j, l, p, meta, onAppend, onSave, l')
    ensures StoreOk(j, l') && WellStamped(l'.board)
  {
    hide Durable, Follows, Tracks, WellStamped, TurnBefore, Stamp, RecordsBoundary, RunOk, BoundaryMeta;
    FollowsTracks(l.board, l'.board);
    if l.last.Some? {
      FollowsTransitive(l.last.value.board, l.board, l'.board);
    }
    if Stamp(l.writer, l.store, l'.board, meta, onAppend, onSave).ok {
      hide StoreOk, ExecuteStep;
      StampSucceeds(j, l, p, meta, onAppend, onSave, l');
    } else {
      StampFrame(l.writer, l.store, l'.board, meta, onAppend, onSave);
    }
  }

  lemma NextTurn(j: Job, l: Live)
    requires RunOk(j, l) && !l.stuck && Executed(Turn(j.g, j.env, ConfigOf(l)))
    ensures TurnBefore(j.g, j.env, Start(j), l.pos + 1, Turn(j.g, j.env, ConfigOf(l)))
    ensures CountOf(Turn(j.g, j.env, ConfigOf(l))) > 0
  {
    hide Turn;
    TurnRoutes(j.g, j.env, ConfigOf(l));
  }

  /** After a wave the live objects hold what the turn hands on. */
  lemma WaveConfig(j: Job, l: Live, meta: Meta, onAppend: Reply, onSave: Reply, l': Live)
    requires WaveStep(j, l, meta, onAppend, onSave, l')
    ensures var p := Turn(j.g, j.env, ConfigOf(l));
            !l.stuck && p.Running? && ConfigOf(l') == p.next && l'.pos == l.pos + 1 && !l'.stuck
  {
    hide Turn, Stamps, Follows, Seen, BoundaryMeta, CountOf;
    TurnRoutes(j.g, j.env, ConfigOf(l));
  }

  lemma WaveKeepsRun(j: Job, l: Live, meta: Meta, onAppend: Reply, onSave: Reply, l': Live)
    requires RunOk(j, l) && WaveStep(j, l, meta, onAppend, onSave, l')
    ensures RunOk(j, l')
  {
    hide Turn, WaveStep, After, ConfigOf;
    WaveConfig(j, l, meta, onAppend, onSave, l');
    AfterNext(j.g, j.env, Start(j), l.pos);
  }

  lemma WaveKeepsOk(j: Job, l: Live, meta: Meta, onAppend: Reply, onSave: Reply, l': Live)
    requires LiveOk(j, l) && WaveStep(j, l, meta, onAppend, onSave, l')
    ensures LiveOk(j, l')
  {
    hide WellStamped, StoreOk, ExecuteStep, Turn, RunOk, TurnBefore;
    NextTurn(j, l);
    WaveKeepsRun(j, l, meta, onAppend, onSave, l');
    ExecuteKeepsStore(j, l, Turn(j.g, j.env, ConfigOf(l)), meta, onAppend, onSave, l');
  }

  lemma StuckKeepsOk(j: Job, l: Live, meta: Meta, onAppend: Reply, onSave: Reply, l': Live)
    requires LiveOk(j, l) && StuckStep(j, l, meta, onAppend, onSave, l')
    ensures LiveOk(j, l')
  {
    hide WellStamped, StoreOk, ExecuteStep, Turn, TurnBefore;
    NextTurn(j, l);
    ExecuteKeepsStore(j, l, Turn(j.g, j.env, ConfigOf(l)), meta, onAppend, onSave, l');
  }

  lemma CrashKeepsOk(j: Job, l: Live, l': Live)
    requires GoodJob(j) && LiveOk(j, l) && CrashStep(j, l, l')
    ensures LiveOk(j, l')
  {
    hide Follows, Tracks, WellStamped, Durable, Turn, Seen, RecordsBoundary, Resumed;
    StartIsKnown(j);
    if Load(l.store).Some? {
      ResumeReturnsToRun(j.g, j.env, j.runID, Start(j), l.saved, Load(l.store).value);
    }
  }

  lemma WipeKeepsOk(j: Job, l: Live, l': Live)
    requires LiveOk(j, l) && WipeStep(l, l')
    ensures LiveOk(j, l')
  {
    hide Follows, WellStamped, Durable, Turn, Seen, RecordsBoundary, After;
  }

  // ------------------------------------------------------------ whole runs

  datatype Event =
    | Wave(meta: Meta, onAppend: Reply, onSave: Reply)
    | Stuck(meta: Meta, onAppend: Reply, onSave: Reply)
    | Crash
    | Wipe

  ghost predicate EventAt(j: Job, ls: seq<Live>, es: seq<Event>, i: int) {
    && 0 <= i < |es| && i + 1 < |ls|
    && match es[i]
       case Wave(meta, onAppend, onSave) => WaveStep(j, ls[i], meta, onAppend, onSave, ls[i + 1])
       case Stuck(meta, onAppend, onSave) => StuckStep(j, ls[i], meta, onAppend, onSave, ls[i + 1])
       case Crash => CrashStep(j, ls[i], ls[i + 1])
       case Wipe => WipeStep(ls[i], ls[i + 1])
  }

  ghost predicate Life(j: Job, ls: seq<Live>, es: seq<Event>) {
    && GoodJob(j) && |ls| == |es| + 1 && Begins(j, ls[0])
    && forall i :: 0 <= i < |es| ==> EventAt(j, ls, es, i)
  }

  lemma {:induction false} LifeKeepsOk(j: Job, ls: seq<Live>, es: seq<Event>, n: nat)
    requires Life(j, ls, es) && n <= |es|
    ensures LiveOk(j, ls[n])
    decreases n
  {
    hide LiveOk, WaveStep, StuckStep, CrashStep, WipeStep, Begins;
    if n == 0 {
      BeginIsOk(j, ls[0]);
    } else {
      LifeKeepsOk(j, ls, es, n - 1);
      assert EventAt(j, ls, es, n - 1);
      match es[n - 1]
      case Wave(meta, onAppend, onSave) => WaveKeepsOk(j, ls[n - 1], meta, onAppend, onSave, ls[n]);
      case Stuck(meta, onAppend, onSave) => StuckKeepsOk(j, ls[n - 1], meta, onAppend, onSave, ls[n]);
      case Crash => CrashKeepsOk(j, ls[n - 1], ls[n]);
      case Wipe => WipeKeepsOk(j, ls[n - 1], ls[n]);
    }
  }

  /**
   Crash-resume equivalence: through any sequence of waves, failed or refused stamps,
   routing failures, lost records and crashes, the live board, frontier and iteration count are those
   of the uninterrupted run after some number of waves; a crash loses exactly the waves
   since the last stamp that succeeded and was not lost; and the record of a wave that could not be routed
   is refused by the same routing failure that ended the run.
   */
  lemma CrashResumeEquivalence(j: Job, ls: seq<Live>, es: seq<Event>, n: nat)
    requires Life(j, ls, es) && n <= |es|
    ensures After(j.g, j.env, Start(j), ls[n].pos).Some?
    ensures if ls[n].stuck then Turn(j.g, j.env, After(j.g, j.env, Start(j), ls[n].pos).value).RouteFailed?
            else After(j.g, j.env, Start(j), ls[n].pos) == Some(ConfigOf(ls[n]))
    ensures Load(ls[n].store).Some? ==>
              && CanResume(j.g, Load(ls[n].store).value)
              && Resumed(j.g, j.env, j.runID, Load(ls[n].store).value) == After(j.g, j.env, Start(j), ls[n].saved)
    ensures Load(ls[n].store).None? <==> ls[n].saved == 0
  {
    hide Turn, Resumed, CanResume, RecordsBoundary;
    LifeKeepsOk(j, ls, es, n);
    StartIsKnown(j);
    if Load(ls[n].store).Some? {
      ResumeReturnsToRun(j.g, j.env, j.runID, Start(j), ls[n].saved, Load(ls[n].store).value);
    }
  }

  lemma {:induction false} EarlierWavesExist(g: Graph, env: Env, c: Config, m: nat, n: nat)
    requires m <= n && After(g, env, c, n).Some?
    ensures After(g, env, c, m).Some?
    decreases n
  {
    hide Turn;
    if m < n {
      AfterStep(g, env, c, n);
      EarlierWavesExist(g, env, c, m, n - 1);
    }
  }

  /** A run that is stuck, or whose next turn does not go on. */
  ghost predicate IsOver(j: Job, l: Live) {
    l.stuck || !Turn(j.g, j.env, ConfigOf(l)).Running?
  }

  /** A crash-ridden run that ends, ends where the uninterrupted one does, and in the same way. */
  lemma SameEnding(j: Job, ls: seq<Live>, es: seq<Event>, n: nat, m: nat)
    requires Life(j, ls, es) && n <= |es| && IsOver(j, ls[n])
    requires After(j.g, j.env, Start(j), m).Some? && !Turn(j.g, j.env, After(j.g, j.env, Start(j), m).value).Running?
    ensures ls[n].pos == m
    ensures if ls[n].stuck then Turn(j.g, j.env, After(j.g, j.env, Start(j), m).value).RouteFailed?
            else Some(ConfigOf(ls[n])) == After(j.g, j.env, Start(j), m)
  {
    hide Turn, Resumed, CanResume;
    CrashResumeEquivalence(j, ls, es, n);
    var p := ls[n].pos;
    AfterNext(j.g, j.env, Start(j), p);
    AfterNext(j.g, j.env, Start(j), m);
    hide After;
    if p < m {
      EarlierWavesExist(j.g, j.env, Start(j), p + 1, m);
    } else if m < p {
      EarlierWavesExist(j.g, j.env, Start(j), m + 1, p);
    }
  }
}
