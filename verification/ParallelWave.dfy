/**
 A parallel wave as interleaved branch steps: each branch writes its own copy of the
 board, may be cancelled by another through the fork controller, and gets one terminal
 event; the wave then fails, or merges and accepts.
 */
module ParallelWave {
  import opened Wrappers
  import opened Sums
  import opened BoardModel
  import opened BoardHistory
  import opened GraphRun
  import opened ParallelMerge
  import WaveExecution

  /** How the node's handler ended. */
  datatype HandlerEnd = Success | Skip | Error(interrupted: bool) | Panicked

  datatype Pc = Queued | Active | Settled | Finished

  datatype TerminalEvent = TerminalEvent(branch: nat, accepted: bool)

  datatype Outcome = Merged | BranchFailed(interrupted: bool) | MergeFailed

  /** What was forked: the wave, the contents before it, and how it merges. */
  datatype Fork = Fork(ids: seq<NodeId>, preFork: Snapshot, how: Strategy)

  /** The wave; `board` is the shared board, `boards` the branches' own. `late` records branches first marked after their result was settled. */
  datatype Wave = Wave(
    pcs: seq<Pc>,
    boards: seq<State>,
    results: Results,
    terminal: seq<bool>,
    marks: set<nat>,
    done: set<nat>,
    late: set<nat>,
    log: seq<TerminalEvent>,
    board: Snapshot,
    outcome: Option<Outcome>)

  const NEW_BOARD := State(map[], map[MAIN_CHANNEL := []], 0, map[], map[])

  /** A branch's board before its first write: a new one restored from the pre-fork snapshot. */
  function Seeded(preFork: Snapshot): State {
    State(preFork.vars, RestoredChannels(preFork), 1,
          map k | k in preFork.vars :: 1, map c | c in RestoredChannels(preFork) :: 1)
  }

  lemma SeededIsWellStamped(preFork: Snapshot)
    ensures WellStamped(Seeded(preFork)) && RestoredChannels(preFork).Keys != {}
  {
    assert MAIN_CHANNEL in RestoredChannels(preFork) || RestoredChannels(preFork) == preFork.channels;
  }

  lemma SeededByRestore(preFork: Snapshot)
    ensures Step(NEW_BOARD, Restore(preFork), Seeded(preFork))
  {
    SeededIsWellStamped(preFork);
    hide RestoredChannels, WellStamped;
    var a, op := Snap(NEW_BOARD), Restore(preFork);
    var c :| c in RestoredChannels(preFork);
    assert c in TouchedVars(a, op) + TouchedChannels(a, op);
    assert preFork.vars.Keys + a.vars.Keys == preFork.vars.Keys;
  }

  function Forked(f: Fork): Wave {
    var n := |f.ids|;
    Wave(seq(n, (i: nat) => Queued), seq(n, (i: nat) => Seeded(f.preFork)), seq(n, (i: nat) => Pending), seq(n, (i: nat) => false),
         {}, {}, {}, [], f.preFork, None)
  }

  /** The slots belong to the same branches. */
  predicate Shaped(n: nat, w: Wave) {
    |w.pcs| == |w.boards| == |w.results| == |w.terminal| == n
  }

  // ---------------------------------------------------------------- steps

  /** A write names the board it leaves, since an applied delta may stamp its keys in any order. */
  datatype Action =
    | Begin(i: nat)
    | BranchWrite(i: nat, op: Op, next: State)
    | Return(i: nat, end: HandlerEnd)
    | Finish(i: nat)
    | CancelNode(caller: nat, target: nat)
    | Join(interrupt: bool)

  /** The branch ends with this result, publishing its cancel terminal or leaving that to the wave. */
  function Settle(w: Wave, i: nat, pc: Pc, r: BranchResult, publish: bool): Wave
    requires i < |w.pcs| == |w.results| == |w.terminal|
  {
    w.(pcs := w.pcs[i := pc], results := w.results[i := r], terminal := w.terminal[i := publish],
       log := if publish then w.log + [TerminalEvent(i, false)] else w.log)
  }

  /** The active branch i of a wave that has not ended. */
  predicate Runs(f: Fork, w: Wave, i: nat) {
    Shaped(|f.ids|, w) && i < |f.ids| && w.outcome.None? && w.pcs[i].Active?
  }

  /** A branch cancelled while queued skips its node and never registers with the controller. */
  function DoBegin(f: Fork, w: Wave, i: nat): Option<Wave> {
    if Shaped(|f.ids|, w) && i < |f.ids| && w.pcs[i].Queued? && w.outcome.None? then
      if i in w.marks then Some(Settle(w, i, Finished, Cancelled, true))
      else Some(w.(pcs := w.pcs[i := Active]))
    else None
  }

  ghost function DoWrite(f: Fork, w: Wave, i: nat, op: Op, next: State): Option<Wave> {
    if Runs(f, w, i) && Step(w.boards[i], op, next) then Some(w.(boards := w.boards[i := next])) else None
  }

  /** What a handler's end and its board leave in the slot. */
  function ResultOf(preFork: Snapshot, end: HandlerEnd, s: State): BranchResult {
    match end
    case Success => BranchWrote(Seeded(preFork), s)
    case Skip => Skipped
    case Error(interrupted) => Errored(interrupted, Some(Since(s, MarkOf(Seeded(preFork)))))
    case Panicked => Errored(false, None)
  }

  /** A cancellation seen after the handler returned wins over every result but a panic. */
  function DoReturn(f: Fork, w: Wave, i: nat, end: HandlerEnd): Option<Wave> {
    if Runs(f, w, i) then
      if i in w.marks && !end.Panicked? then Some(Settle(w, i, Settled, Cancelled, true))
      else Some(Settle(w, i, Settled, ResultOf(f.preFork, end, w.boards[i]), end.Error?))
    else None
  }

  function DoFinish(f: Fork, w: Wave, i: nat): Option<Wave> {
    if Shaped(|f.ids|, w) && i < |f.ids| && w.pcs[i].Settled? && w.outcome.None?
    then Some(w.(pcs := w.pcs[i := Finished], done := w.done + {i}))
    else None
  }

  /** A branch holds its view of the controller once it has begun, and may still use it after its handler returned. */
  predicate HoldsView(f: Fork, w: Wave, i: nat) {
    Shaped(|f.ids|, w) && i < |f.ids| && w.outcome.None? && (w.pcs[i].Active? || w.pcs[i].Settled?)
  }

  /** The controller refuses unknown or finished targets and callers that are themselves cancelled or finished. */
  function DoCancel(f: Fork, w: Wave, caller: nat, target: nat): Option<Wave> {
    if HoldsView(f, w, caller) then
      if target < |f.ids| && target !in w.done && caller !in w.done && caller !in w.marks
      then Some(w.(marks := w.marks + {target}, late := if w.pcs[target].Settled? && target !in w.marks then w.late + {target} else w.late))
      else Some(w)
    else None
  }

  /** The terminals the wave owes its branches from index i on. */
  function Rest(terminal: seq<bool>, accepted: bool, i: nat): seq<TerminalEvent>
    requires i <= |terminal|
    decreases |terminal| - i
  {
    if i == |terminal| then []
    else (if terminal[i] then [] else [TerminalEvent(i, accepted)]) + Rest(terminal, accepted, i + 1)
  }

  lemma RestHead(terminal: seq<bool>, accepted: bool, i: nat)
    requires i < |terminal|
    ensures Rest(terminal, accepted, i) == (if terminal[i] then [] else [TerminalEvent(i, accepted)]) + Rest(terminal, accepted, i + 1)
  {
  }

  lemma RestEnd(terminal: seq<bool>, accepted: bool)
    ensures Rest(terminal, accepted, |terminal|) == []
  {
  }

  /** Publishes the missing terminals in wave order. */
  method PublishRest(terminal: array<bool>, accepted: bool) returns (log: seq<TerminalEvent>)
    modifies terminal
    ensures log == Rest(old(terminal[..]), accepted, 0)
    ensures forall i :: 0 <= i < terminal.Length ==> terminal[i]
  {
    hide Rest;
    ghost var was := terminal[..];
    log := [];
    for i := 0 to terminal.Length
      invariant Rest(was, accepted, 0) == log + Rest(was, accepted, i)
      invariant forall k :: 0 <= k < i ==> terminal[k]
      invariant forall k :: i <= k < terminal.Length ==> terminal[k] == was[k]
    {
      RestHead(was, accepted, i);
      if terminal[i] {
        continue;
      }
      log := log + [TerminalEvent(i, accepted)];
      terminal[i] := true;
    }
    RestEnd(was, accepted);
  }

  predicate AllFinished(w: Wave) {
    forall i :: 0 <= i < |w.pcs| ==> w.pcs[i].Finished?
  }

  function OutcomeOf(join: Merge): Outcome {
    match join
    case Merge(_) => Merged
    case Failed(err, _) => if err.Interrupt? then BranchFailed(true) else MergeFailed
  }

  /** The join decides from the results, writes the shared board once, and publishes what is missing. */
  function JoinOutcome(f: Fork, w: Wave, interrupt: bool): Outcome
    requires |f.ids| == |w.results| > 0
  {
    if ErrorOf(w.results, interrupt) == Some(GraphRun.Terminal) then BranchFailed(false)
    else OutcomeOf(JoinWrites(f.how, f.ids, f.preFork, w.results, interrupt))
  }

  function DoJoin(f: Fork, w: Wave, interrupt: bool): Option<Wave> {
    if Shaped(|f.ids|, w) && |f.ids| > 0 && AllFinished(w) && w.outcome.None? then
      var outcome := JoinOutcome(f, w, interrupt);
      Some(w.(log := w.log + Rest(w.terminal, outcome.Merged?, 0), outcome := Some(outcome),
              board := Effects(w.board, JoinWrites(f.how, f.ids, f.preFork, w.results, interrupt).ops)))
    else None
  }

  ghost function Do(f: Fork, w: Wave, a: Action): Option<Wave> {
    match a
    case Begin(i) => DoBegin(f, w, i)
    case BranchWrite(i, op, next) => DoWrite(f, w, i, op, next)
    case Return(i, end) => DoReturn(f, w, i, end)
    case Finish(i) => DoFinish(f, w, i)
    case CancelNode(caller, target) => DoCancel(f, w, caller, target)
    case Join(interrupt) => DoJoin(f, w, interrupt)
  }

  ghost function Run(f: Fork, actions: seq<Action>): Option<Wave> {
    if actions == [] then Some(Forked(f))
    else
      var before := Run(f, actions[..|actions| - 1]);
      if before.None? then None else Do(f, before.value, actions[|actions| - 1])
  }

  // ------------------------------------------------------------ invariant

  function OfBranch(i: nat): TerminalEvent -> bool {
    (t: TerminalEvent) => t.branch == i
  }

  /** How many terminals a branch got. */
  function Count(log: seq<TerminalEvent>, i: nat): nat {
    Tally(log, OfBranch(i))
  }

  /** The wave owes a terminal to exactly the branches without one. */
  lemma {:induction false} RestCounts(terminal: seq<bool>, accepted: bool, i: nat, b: nat)
    requires i <= |terminal|
    ensures Count(Rest(terminal, accepted, i), b) == if i <= b < |terminal| && !terminal[b] then 1 else 0
    decreases |terminal| - i
  {
    if i < |terminal| {
      RestCounts(terminal, accepted, i + 1, b);
      var head := if terminal[i] then [] else [TerminalEvent(i, accepted)];
      var tail := Rest(terminal, accepted, i + 1);
      TallyJoin(head, tail, OfBranch(b));
      hide Rest;
      assert Count(head, b) == if terminal[i] || b != i then 0 else 1 by {
        if !terminal[i] { TallyOne([], TerminalEvent(i, accepted), OfBranch(b)); assert [] + head == head; }
      }
      assert Rest(terminal, accepted, i) == head + tail by { RestHead(terminal, accepted, i); }
    }
  }

  lemma {:induction false} RestMembers(terminal: seq<bool>, accepted: bool, i: nat, t: TerminalEvent)
    requires i <= |terminal| && t in Rest(terminal, accepted, i)
    ensures t.accepted == accepted && i <= t.branch < |terminal| && !terminal[t.branch]
    decreases |terminal| - i
  {
    if t in Rest(terminal, accepted, i + 1) {
      RestMembers(terminal, accepted, i + 1, t);
    }
  }

  lemma {:induction false} RestReaches(terminal: seq<bool>, accepted: bool, i: nat, b: nat)
    requires i <= b < |terminal| && !terminal[b]
    ensures TerminalEvent(b, accepted) in Rest(terminal, accepted, i)
    decreases |terminal| - i
  {
    if i < b {
      RestReaches(terminal, accepted, i + 1, b);
    }
  }

  predicate IsPanic(r: BranchResult) {
    r.Errored? && r.writes.None?
  }

  /** One branch and its slot. */
  ghost predicate BranchOk(f: Fork, w: Wave, i: nat)
    requires Shaped(|f.ids|, w) && i < |f.ids|
  {
    && (w.pcs[i].Queued? || w.pcs[i].Active? <==> w.results[i].Pending?)
    && (w.results[i].Cancelled? ==> i in w.marks && i !in w.late)
    && (i in w.late ==> i in w.marks && !w.results[i].Pending?)
    && (w.pcs[i].Finished? ==> i in w.done || i in w.marks) && (i in w.done ==> w.pcs[i].Finished?)
    && (i in w.marks && i !in w.late ==> w.results[i].Pending? || w.results[i].Cancelled? || IsPanic(w.results[i]))
    && (w.terminal[i] <==> w.results[i].Cancelled? || (w.results[i].Errored? && !IsPanic(w.results[i])))
    && Tracks(Seeded(f.preFork), w.boards[i])
    && (w.results[i].Wrote? ==> w.results[i] == BranchWrote(Seeded(f.preFork), w.boards[i]))
  }

  /** A wave whose branches are still running. */
  ghost predicate Open(f: Fork, w: Wave)
    requires Shaped(|f.ids|, w)
  {
    && w.board == f.preFork && (forall t :: t in w.log ==> !t.accepted)
    && (forall i :: 0 <= i < |f.ids| ==> Count(w.log, i) == if w.terminal[i] then 1 else 0)
  }

  /** A wave that has ended, by a join that saw this interrupt. */
  ghost predicate Ended(f: Fork, w: Wave, interrupt: bool)
    requires Shaped(|f.ids|, w)
  {
    && |f.ids| > 0 && w.outcome == Some(JoinOutcome(f, w, interrupt))
    && w.board == Effects(f.preFork, JoinWrites(f.how, f.ids, f.preFork, w.results, interrupt).ops)
    && (forall i :: 0 <= i < |f.ids| ==> Count(w.log, i) == 1 && !w.results[i].Pending?)
    && (forall t :: t in w.log && t.accepted ==> w.outcome == Some(Merged) && t.branch < |f.ids| && !w.terminal[t.branch])
    && (forall i :: 0 <= i < |f.ids| && !w.terminal[i] && w.outcome == Some(Merged) ==> TerminalEvent(i, true) in w.log)
  }

  ghost predicate Inv(f: Fork, w: Wave) {
    && Shaped(|f.ids|, w)
    && (forall i :: 0 <= i < |f.ids| ==> BranchOk(f, w, i))
    && (if w.outcome.None? then Open(f, w) else exists interrupt :: Ended(f, w, interrupt))
  }

  lemma SettleKeepsInv(f: Fork, w: Wave, i: nat, pc: Pc, r: BranchResult, publish: bool)
    requires Inv(f, w) && i < |f.ids| && w.outcome.None? && w.results[i].Pending?
    requires (pc.Settled? || (pc.Finished? && r.Cancelled?)) && !r.Pending? && (r.Cancelled? ==> i in w.marks)
    requires i in w.marks ==> r.Cancelled? || IsPanic(r)
    requires publish <==> r.Cancelled? || (r.Errored? && !IsPanic(r))
    requires r.Wrote? ==> r == BranchWrote(Seeded(f.preFork), w.boards[i])
    ensures Inv(f, Settle(w, i, pc, r, publish))
  {
    hide Tracks, Seeded, BranchWrote;
    var w' := Settle(w, i, pc, r, publish);
    forall k | 0 <= k < |f.ids|
      ensures BranchOk(f, w', k) && Count(w'.log, k) == if w'.terminal[k] then 1 else 0
    {
      assert BranchOk(f, w, k);
      TallyOne(w.log, TerminalEvent(i, false), OfBranch(k));
    }
    hide BranchOk;
  }

  lemma JoinLogs(f: Fork, w: Wave, accepted: bool)
    requires Inv(f, w) && w.outcome.None? && AllFinished(w)
    ensures forall i :: 0 <= i < |f.ids| ==> Count(w.log + Rest(w.terminal, accepted, 0), i) == 1 && !w.results[i].Pending?
    ensures forall t :: t in w.log + Rest(w.terminal, accepted, 0) && t.accepted ==> accepted && t.branch < |f.ids| && !w.terminal[t.branch]
    ensures forall i :: 0 <= i < |f.ids| && !w.terminal[i] ==> TerminalEvent(i, accepted) in w.log + Rest(w.terminal, accepted, 0)
  {
    hide Tally, Rest, Tracks, Seeded, BranchWrote;
    var rest := Rest(w.terminal, accepted, 0);
    forall i | 0 <= i < |f.ids|
      ensures Count(w.log + rest, i) == 1 && !w.results[i].Pending?
    {
      assert BranchOk(f, w, i);
      RestCounts(w.terminal, accepted, 0, i);
      TallyJoin(w.log, rest, OfBranch(i));
    }
    forall t | t in w.log + rest && t.accepted
      ensures accepted && t.branch < |f.ids| && !w.terminal[t.branch]
    {
      assert t in rest;
      RestMembers(w.terminal, accepted, 0, t);
    }
    forall i | 0 <= i < |f.ids| && !w.terminal[i]
      ensures TerminalEvent(i, accepted) in w.log + rest
    {
      RestReaches(w.terminal, accepted, 0, i);
    }
  }

  lemma JoinKeepsInv(f: Fork, w: Wave, interrupt: bool, w': Wave)
    requires Inv(f, w) && DoJoin(f, w, interrupt) == Some(w')
    ensures Inv(f, w')
  {
    hide Rest, Count, ErrorOf, JoinWrites, JoinOutcome, Tracks, Seeded, BranchWrote, Effects;
    JoinLogs(f, w, w'.outcome == Some(Merged));
    forall i | 0 <= i < |f.ids| ensures BranchOk(f, w', i) { assert BranchOk(f, w, i); }
    hide BranchOk;
    assert JoinOutcome(f, w', interrupt) == JoinOutcome(f, w, interrupt) by { SameOutcome(f, w, w', interrupt); }
    assert Ended(f, w', interrupt);
  }

  lemma SameOutcome(f: Fork, w: Wave, w': Wave, interrupt: bool)
    requires |f.ids| == |w.results| > 0 && w'.results == w.results
    ensures JoinOutcome(f, w', interrupt) == JoinOutcome(f, w, interrupt)
  {
    hide ErrorOf, JoinWrites;
  }

  lemma WriteKeepsInv(f: Fork, w: Wave, i: nat, op: Op, next: State, w': Wave)
    requires Inv(f, w) && DoWrite(f, w, i, op, next) == Some(w')
    ensures Inv(f, w')
  {
    hide Tracks, Seeded, BranchWrote, Step;
    forall k | 0 <= k < |f.ids|
      ensures BranchOk(f, w', k)
    {
      assert BranchOk(f, w, k);
      if k == i {
        StepTracks(Seeded(f.preFork), w.boards[i], op, next);
      }
    }
    hide BranchOk;
  }

  /** Still before its result, or still after it. */
  predicate SamePart(pc: Pc, pc': Pc) {
    pc.Queued? || pc.Active? <==> pc'.Queued? || pc'.Active?
  }

  lemma SmallStepKeepsInv(f: Fork, w: Wave, w': Wave)
    requires Inv(f, w) && w.outcome.None? && |w'.pcs| == |f.ids|
    requires w' == w.(pcs := w'.pcs, marks := w'.marks, done := w'.done, late := w'.late)
    requires w.marks <= w'.marks && w.late <= w'.late && w.done <= w'.done
    requires forall i :: 0 <= i < |f.ids| ==> SamePart(w.pcs[i], w'.pcs[i]) && (w'.pcs[i].Finished? ==> w.pcs[i].Finished? || i in w'.done)
    requires forall i :: 0 <= i < |f.ids| && (w.pcs[i].Finished? || (i in w'.done && i !in w.done)) ==> w'.pcs[i].Finished?
    requires forall i :: i in w'.marks && i !in w.marks && i < |f.ids| ==> (i in w'.late <==> w.pcs[i].Settled?) && !w.pcs[i].Finished?
    requires forall i :: i in w'.late && i !in w.late ==> i in w'.marks && i !in w.marks
    ensures Inv(f, w')
  {
    hide Tracks, Seeded, BranchWrote;
    forall i | 0 <= i < |f.ids| ensures BranchOk(f, w', i) { assert BranchOk(f, w, i); }
    hide BranchOk;
  }

  lemma StepKeepsInv(f: Fork, w: Wave, a: Action, w': Wave)
    requires Inv(f, w) && Do(f, w, a) == Some(w')
    ensures Inv(f, w')
  {
    hide Tracks, Seeded, Step, Since;
    match a
    case Begin(i) =>
      assert BranchOk(f, w, i);
      if i in w.marks { hide Inv; SettleKeepsInv(f, w, i, Finished, Cancelled, true); } else { SmallStepKeepsInv(f, w, w'); }
    case BranchWrite(i, op, next) => hide Inv; WriteKeepsInv(f, w, i, op, next, w');
    case Return(i, end) =>
      assert BranchOk(f, w, i);
      hide Inv;
      SettleKeepsInv(f, w, i, Settled, w'.results[i], w'.terminal[i]);
    case Finish(i) => SmallStepKeepsInv(f, w, w');
    case CancelNode(_, target) => if target < |f.ids| { assert BranchOk(f, w, target); } SmallStepKeepsInv(f, w, w');
    case Join(interrupt) => hide Inv; JoinKeepsInv(f, w, interrupt, w');
  }

  lemma ForkIsOk(f: Fork)
    ensures Inv(f, Forked(f))
  {
    SeededIsWellStamped(f.preFork);
    TracksReflexive(Seeded(f.preFork));
    hide Tracks, Seeded;
  }

  lemma {:induction false} RunKeepsInv(f: Fork, actions: seq<Action>)
    requires Run(f, actions).Some?
    ensures Inv(f, Run(f, actions).value)
    decreases |actions|
  {
    hide Inv, Do;
    if actions != [] {
      RunKeepsInv(f, actions[..|actions| - 1]);
      StepKeepsInv(f, Run(f, actions[..|actions| - 1]).value, actions[|actions| - 1], Run(f, actions).value);
    } else {
      ForkIsOk(f);
    }
  }

  // ----------------------------------------------------------- guarantees

  /** In every interleaving an ended wave gave each branch exactly one terminal, accepted exactly if the wave merged and the branch wrote or was skipped; a merged wave has no failed branch. */
  lemma OneTerminalPerBranch(f: Fork, actions: seq<Action>, i: nat)
    requires Run(f, actions).Some? && Run(f, actions).value.outcome.Some? && i < |f.ids|
    ensures var w := Run(f, actions).value;
            && |w.results| == |f.ids| && Count(w.log, i) == 1
            && (TerminalEvent(i, true) in w.log <==> w.outcome == Some(Merged) && (w.results[i].Wrote? || w.results[i].Skipped?))
            && (w.outcome == Some(Merged) ==> forall k :: 0 <= k < |f.ids| ==> !w.results[k].Errored?)
  {
    RunKeepsInv(f, actions);
    var w := Run(f, actions).value;
    hide Run, Tracks, BranchWrote, Seeded, JoinWrites;
    var interrupt :| Ended(f, w, interrupt);
    assert BranchOk(f, w, i);
    if w.outcome == Some(Merged) {
      MergedMeansNoError(f, w, interrupt);
    }
  }

  /** Once every branch has finished the wave can end; how it ends is decided by interrupts first, then by failed branches, then by the merge. */
  lemma JoinDecides(f: Fork, actions: seq<Action>, interrupt: bool)
    requires Run(f, actions).Some? && |f.ids| > 0 && AllFinished(Run(f, actions).value) && Run(f, actions).value.outcome.None?
    ensures var w := Run(f, actions).value; var w' := Do(f, w, Join(interrupt));
            var interrupted := interrupt || exists i :: 0 <= i < |w.results| && w.results[i].Errored? && w.results[i].interrupted;
            var failed := exists i :: 0 <= i < |w.results| && w.results[i].Errored?;
            && w'.Some? && w'.value.results == w.results
            && w'.value.outcome == Some(if interrupted then BranchFailed(true)
                                        else if failed then BranchFailed(false)
                                        else if f.how.Custom? && !f.how.f(f.preFork, w.results).0 then MergeFailed
                                        else Merged)
  {
    RunKeepsInv(f, actions);
    hide Run, BranchOk, KeptDelta, MergeDelta, InterruptedNode, Rest, Effects;
  }

  /** What a branch's end leaves in its slot, unless a cancellation was granted before: nothing else of the wave's results moves. */
  lemma ReturnSettles(f: Fork, w: Wave, i: nat, end: HandlerEnd)
    requires Runs(f, w, i)
    ensures var w' := Do(f, w, Return(i, end)); var delta := Since(w.boards[i], MarkOf(Seeded(f.preFork)));
            && w'.Some? && |w'.value.results| == |w.results| && w'.value.marks == w.marks
            && (forall k :: 0 <= k < |w.results| && k != i ==> w'.value.results[k] == w.results[k])
            && w'.value.results[i] == (match end
                 case Panicked => Errored(false, None)
                 case Success => if i in w.marks then Cancelled else Wrote(delta, Snap(w.boards[i]))
                 case Skip => if i in w.marks then Cancelled else Skipped
                 case Error(interrupted) => if i in w.marks then Cancelled else Errored(interrupted, Some(delta)))
  {
    hide Since, MarkOf, Seeded;
  }

  /** A cancel call by a running branch marks its target exactly if the target is a branch that has not finished and the caller is not cancelled itself. */
  lemma CancelGrantedIff(f: Fork, actions: seq<Action>, caller: nat, target: nat)
    requires Run(f, actions).Some? && HoldsView(f, Run(f, actions).value, caller)
    ensures var w := Run(f, actions).value; var w' := Do(f, w, CancelNode(caller, target));
            && w'.Some? && w'.value == w.(marks := w'.value.marks, late := w'.value.late)
            && (target in w'.value.marks <==> target in w.marks || (target < |f.ids| && !w.pcs[target].Finished? && caller !in w.marks))
            && (forall i :: i != target ==> (i in w'.value.marks <==> i in w.marks))
  {
    RunKeepsInv(f, actions);
    hide Run, Tracks, Seeded, BranchWrote;
    var w := Run(f, actions).value;
    assert BranchOk(f, w, caller);
    if target < |f.ids| {
      assert BranchOk(f, w, target);
    }
    hide BranchOk;
  }

  lemma MergedMeansNoError(f: Fork, w: Wave, interrupt: bool)
    requires |f.ids| == |w.results| > 0 && JoinOutcome(f, w, interrupt) == Merged
    ensures ErrorOf(w.results, interrupt).None? && JoinWrites(f.how, f.ids, f.preFork, w.results, interrupt).Merge?
  {
    hide KeptDelta, MergeDelta, InterruptedNode;
  }

  /**
   Whatever the branches wrote to their own boards, a wave that fails without an interrupt
   leaves the shared board as it was before the fork, and so does one that has not ended.
   */
  lemma FailureLeavesBoard(f: Fork, actions: seq<Action>)
    requires Run(f, actions).Some?
    ensures var w := Run(f, actions).value;
            w.outcome == None || w.outcome == Some(BranchFailed(false)) ==> w.board == f.preFork
  {
    RunKeepsInv(f, actions);
    var w := Run(f, actions).value;
    hide Run, BranchOk;
    if w.outcome == Some(BranchFailed(false)) {
      var interrupt :| Ended(f, w, interrupt);
      PlainFailureWritesNothing(f, w, interrupt);
    }
  }

  lemma PlainFailureWritesNothing(f: Fork, w: Wave, interrupt: bool)
    requires |f.ids| == |w.results| > 0 && JoinOutcome(f, w, interrupt) == BranchFailed(false)
    ensures Effects(f.preFork, JoinWrites(f.how, f.ids, f.preFork, w.results, interrupt).ops) == f.preFork
  {
    hide KeptDelta, MergeDelta, InterruptedNode;
    NoEffects(f.preFork);
  }

  /** An interrupted wave changes one var, the name of the interrupted node, and only adds an assistant's messages of interrupted branches. */
  lemma InterruptKeepsMessages(f: Fork, actions: seq<Action>, c: Name)
    requires Run(f, actions).Some? && Run(f, actions).value.outcome == Some(BranchFailed(true))
    ensures var w := Run(f, actions).value;
            && |w.results| == |f.ids| > 0
            && w.board.vars == f.preFork.vars[VAR_INTERRUPTED := Atom(InterruptedNode(f.ids, w.results))]
            && Msgs(w.board.channels, c) == Msgs(f.preFork.channels, c) + Added(w.results, true, c)
  {
    RunKeepsInv(f, actions);
    var w := Run(f, actions).value;
    hide Run, Inv, Replay, KeptDelta, InterruptedNode, Added;
    InterruptedBoard(f, w);
    KeptVars(f.preFork, w.results);
    MergedChannel(f.preFork, f.preFork, w.results, false, c);
  }

  lemma InterruptedBoard(f: Fork, w: Wave)
    requires Inv(f, w) && w.outcome == Some(BranchFailed(true))
    ensures |w.results| == |f.ids| > 0
    ensures w.board == Effect(Replay(f.preFork, KeptDelta(w.results)), SetVar(VAR_INTERRUPTED, Atom(InterruptedNode(f.ids, w.results))))
  {
    hide BranchOk, Replay, KeptDelta, InterruptedNode, Effects, Count, JoinOutcome;
    var interrupt :| Ended(f, w, interrupt);
    InterruptWrites(f, w, interrupt);
    TwoEffects(f.preFork, Apply(KeptDelta(w.results)), SetVar(VAR_INTERRUPTED, Atom(InterruptedNode(f.ids, w.results))));
  }

  lemma InterruptWrites(f: Fork, w: Wave, interrupt: bool)
    requires |f.ids| == |w.results| > 0 && JoinOutcome(f, w, interrupt) == BranchFailed(true)
    ensures JoinWrites(f.how, f.ids, f.preFork, w.results, interrupt).ops
            == [Apply(KeptDelta(w.results)), SetVar(VAR_INTERRUPTED, Atom(InterruptedNode(f.ids, w.results)))]
  {
    hide MergeDelta, KeptDelta, InterruptedNode;
  }

  /**
   First write wins, over whole runs: a merged var holds the value on the board of the
   first branch, in wave order, whose own board ended with a value that was not there
   before the fork; if there is none the var is as it was, even if a branch deleted it.
   */
  lemma FirstWriterWins(f: Fork, actions: seq<Action>, k: Name, i: nat)
    requires Run(f, actions).Some? && Run(f, actions).value.outcome == Some(Merged) && f.how.FirstWriteWins? && i <= |f.ids|
    requires var w := Run(f, actions).value;
             Shaped(|f.ids|, w) && (forall j :: 0 <= j < i ==> !Changed(f, w, j, k)) && (i < |f.ids| ==> Changed(f, w, i, k))
    ensures var w := Run(f, actions).value;
            Lookup(w.board.vars, k) == if i < |f.ids| then Some(w.boards[i].vars[k]) else Lookup(f.preFork.vars, k)
  {
    RunKeepsInv(f, actions);
    var w := Run(f, actions).value;
    hide Run, Inv, Changed, Claims, Claim, Lookup;
    forall j | 0 <= j < |f.ids|
      ensures Claims(f.preFork, w.results[j], k) <==> Changed(f, w, j, k)
    {
      ChangedIsClaimed(f, w, j, k);
    }
    ClaimIsFirst(f.preFork, w.results, k, i);
    MergedVarIsClaim(f, w, k);
    if i < |f.ids| {
      ChangedIsClaimed(f, w, i, k);
    }
  }

  /** Last write wins, over whole runs: the last branch of the wave whose own board ended with a new value. */
  lemma LastWriterWins(f: Fork, actions: seq<Action>, k: Name, i: nat)
    requires Run(f, actions).Some? && Run(f, actions).value.outcome == Some(Merged) && f.how.LastWriteWins? && i < |f.ids|
    requires var w := Run(f, actions).value;
             Shaped(|f.ids|, w) && Changed(f, w, i, k) && (forall j :: i < j < |f.ids| ==> !Changed(f, w, j, k))
    ensures var w := Run(f, actions).value; Lookup(w.board.vars, k) == Some(w.boards[i].vars[k])
  {
    RunKeepsInv(f, actions);
    var w := Run(f, actions).value;
    hide Run, Inv, Changed, Claims, Claim, Lookup;
    forall j | 0 <= j < |f.ids|
      ensures Claims(f.preFork, w.results[j], k) <==> Changed(f, w, j, k)
    {
      ChangedIsClaimed(f, w, j, k);
    }
    ClaimBackwardIsLast(f.preFork, w.results, k, i);
    MergedVarIsClaim(f, w, k);
    ChangedIsClaimed(f, w, i, k);
  }

  predicate BuiltIn(how: Strategy) {
    how.FirstWriteWins? || how.LastWriteWins?
  }

  lemma MergedVarIsClaim(f: Fork, w: Wave, k: Name)
    requires Inv(f, w) && w.outcome == Some(Merged) && BuiltIn(f.how)
    ensures var won := Claim(f.preFork, Ranked(w.results, f.how.LastWriteWins?), k);
            Lookup(w.board.vars, k) == if won.Some? then won else Lookup(f.preFork.vars, k)
  {
    hide BranchOk, Replay, MergeDelta, Claim, Effects, JoinOutcome, Count, Lookup, Ranked;
    var interrupt :| Ended(f, w, interrupt);
    BuiltInWrites(f, w, interrupt);
    OneEffect(f.preFork, Apply(MergeDelta(f.preFork, w.results, f.how.LastWriteWins?)));
    MergedVar(f.preFork, f.preFork, w.results, f.how.LastWriteWins?, k);
  }

  lemma BuiltInWrites(f: Fork, w: Wave, interrupt: bool)
    requires |f.ids| == |w.results| > 0 && JoinOutcome(f, w, interrupt) == Merged && BuiltIn(f.how)
    ensures JoinWrites(f.how, f.ids, f.preFork, w.results, interrupt).ops == [Apply(MergeDelta(f.preFork, w.results, f.how.LastWriteWins?))]
  {
    hide MergeDelta, KeptDelta, InterruptedNode;
    MergedMeansNoError(f, w, interrupt);
  }

  /** What a branch's own board shows past the pre-fork messages, if the channel was not stamped since. */
  function OwnAppends(f: Fork, w: Wave, i: nat, c: Name): seq<Message>
    requires Shaped(|f.ids|, w) && i < |f.ids|
  {
    var before, now := Msgs(Seeded(f.preFork).channels, c), Msgs(w.boards[i].channels, c);
    if w.results[i].Wrote? && StampOf(w.boards[i].chanSeq, c) <= Seeded(f.preFork).clock && |now| > |before| then now[|before|..] else []
  }

  function AllAppends(f: Fork, w: Wave, n: nat, c: Name): seq<Message>
    requires Shaped(|f.ids|, w) && n <= |f.ids|
  {
    if n == 0 then [] else AllAppends(f, w, n - 1, c) + OwnAppends(f, w, n - 1, c)
  }

  lemma GivenIsOwn(f: Fork, w: Wave, i: nat, c: Name)
    requires Inv(f, w) && i < |f.ids|
    ensures Given(w.results[i], false, c) == OwnAppends(f, w, i, c)
  {
    assert BranchOk(f, w, i);
    hide Tracks, Inv;
  }

  lemma {:induction false} AddedIsAllAppends(f: Fork, w: Wave, n: nat, c: Name)
    requires Inv(f, w) && n <= |f.ids|
    ensures Added(w.results[..n], false, c) == AllAppends(f, w, n, c)
    decreases n
  {
    hide Inv, Given, OwnAppends;
    InvShaped(f, w);
    if n > 0 {
      assert w.results[..n][..n - 1] == w.results[..n - 1];
      AddedIsAllAppends(f, w, n - 1, c);
      GivenIsOwn(f, w, n - 1, c);
    }
  }

  /**
   A merged channel, over whole runs and under either built-in strategy: the pre-fork
   messages, then in wave order what each successful branch's own board shows past them,
   the branches that stamped the channel giving nothing.
   */
  lemma MergedChannelIsAppends(f: Fork, actions: seq<Action>, c: Name)
    requires Run(f, actions).Some? && Run(f, actions).value.outcome == Some(Merged) && BuiltIn(f.how)
    ensures var w := Run(f, actions).value;
            Shaped(|f.ids|, w) && Msgs(w.board.channels, c) == Msgs(f.preFork.channels, c) + AllAppends(f, w, |f.ids|, c)
  {
    RunKeepsInv(f, actions);
    var w := Run(f, actions).value;
    hide Run, Inv, AllAppends, Added, Msgs;
    InvShaped(f, w);
    AddedIsAllAppends(f, w, |f.ids|, c);
    assert w.results[..|f.ids|] == w.results;
    MergedChannelIsAdded(f, w, c);
  }

  lemma MergedChannelIsAdded(f: Fork, w: Wave, c: Name)
    requires Inv(f, w) && w.outcome == Some(Merged) && BuiltIn(f.how)
    ensures Msgs(w.board.channels, c) == Msgs(f.preFork.channels, c) + Added(w.results, false, c)
  {
    hide BranchOk, Replay, MergeDelta, Effects, JoinOutcome, Count, Msgs, Added;
    var interrupt :| Ended(f, w, interrupt);
    BuiltInWrites(f, w, interrupt);
    OneEffect(f.preFork, Apply(MergeDelta(f.preFork, w.results, f.how.LastWriteWins?)));
    MergedChannel(f.preFork, f.preFork, w.results, f.how.LastWriteWins?, c);
  }

  /** The branch succeeded and its own board ended with another value for the var. */
  predicate Changed(f: Fork, w: Wave, i: nat, k: Name)
    requires Shaped(|f.ids|, w) && i < |f.ids|
  {
    w.results[i].Wrote? && k in w.boards[i].vars && Lookup(w.boards[i].vars, k) != Lookup(f.preFork.vars, k)
  }

  lemma ChangedIsClaimed(f: Fork, w: Wave, i: nat, k: Name)
    requires Inv(f, w) && i < |f.ids|
    ensures Claims(f.preFork, w.results[i], k) <==> Changed(f, w, i, k)
    ensures Changed(f, w, i, k) ==> w.results[i].delta.vars[k] == w.boards[i].vars[k]
  {
    assert BranchOk(f, w, i);
    hide Tracks, Inv, Since;
    if w.results[i].Wrote? {
      BranchClaimsIff(f.preFork, Seeded(f.preFork), w.boards[i], k);
    }
  }

  // ------------------------------------------------- independence of order

  /** The board a branch's own writes leave, read off the interleaving. */
  function OwnBoard(preFork: Snapshot, actions: seq<Action>, i: nat): State {
    if actions == [] then Seeded(preFork)
    else
      var a := actions[|actions| - 1];
      if a.BranchWrite? && a.i == i then a.next else OwnBoard(preFork, actions[..|actions| - 1], i)
  }

  /** How a branch's handler ended, if it did. */
  function OwnEnd(actions: seq<Action>, i: nat): Option<HandlerEnd> {
    if actions == [] then None
    else
      var a := actions[|actions| - 1];
      if a.Return? && a.i == i then Some(a.end) else OwnEnd(actions[..|actions| - 1], i)
  }

  predicate Pure(r: BranchResult) {
    !r.Pending? && !r.Cancelled?
  }

  /** What one step does to one branch's board and slot. */
  lemma StepOwns(f: Fork, w: Wave, a: Action, w': Wave, i: nat)
    requires Inv(f, w) && Do(f, w, a) == Some(w') && i < |f.ids| && Shaped(|f.ids|, w')
    ensures w'.boards[i] == if a.BranchWrite? && a.i == i then a.next else w.boards[i]
    ensures a.BranchWrite? && a.i == i ==> w'.results[i].Pending?
    ensures w'.results[i] == w.results[i] || w'.results[i].Cancelled? ||
            (a.Return? && a.i == i && w'.results[i] == ResultOf(f.preFork, a.end, w.boards[i]))
    ensures a.Return? && a.i == i ==> w'.results[i] == ResultOf(f.preFork, a.end, w.boards[i]) || w'.results[i].Cancelled?
  {
    hide Step, Rest, JoinWrites, JoinOutcome, Seeded, ResultOf, Open, Ended;
    assert BranchOk(f, w, i);
    hide BranchOk;
  }

  /** A branch's board and its result depend on its own actions alone, except for being cancelled. */
  lemma {:induction false} RunOwns(f: Fork, actions: seq<Action>, i: nat)
    requires Run(f, actions).Some? && i < |f.ids|
    ensures Shaped(|f.ids|, Run(f, actions).value)
    ensures Run(f, actions).value.boards[i] == OwnBoard(f.preFork, actions, i)
    ensures var r := Run(f, actions).value.results[i];
            Pure(r) ==> OwnEnd(actions, i).Some? && r == ResultOf(f.preFork, OwnEnd(actions, i).value, OwnBoard(f.preFork, actions, i))
    decreases |actions|
  {
    RunKeepsInv(f, actions);
    hide Inv, Do, ResultOf, Seeded;
    assert Shaped(|f.ids|, Run(f, actions).value) by { InvShaped(f, Run(f, actions).value); }
    if actions != [] {
      var before := actions[..|actions| - 1];
      RunOwns(f, before, i);
      RunKeepsInv(f, before);
      StepOwns(f, Run(f, before).value, actions[|actions| - 1], Run(f, actions).value, i);
    }
  }

  lemma InvShaped(f: Fork, w: Wave)
    requires Inv(f, w)
    ensures Shaped(|f.ids|, w)
  {
  }

  /** In both runs the branch was cancelled, or in neither and it wrote and ended the same. */
  ghost predicate SameBranch(f: Fork, a: seq<Action>, b: seq<Action>, i: nat)
    requires Run(f, a).Some? && Run(f, b).Some? && i < |f.ids|
    requires Shaped(|f.ids|, Run(f, a).value) && Shaped(|f.ids|, Run(f, b).value)
  {
    var ra, rb := Run(f, a).value.results[i], Run(f, b).value.results[i];
    if ra.Cancelled? || rb.Cancelled? then ra == rb
    else OwnEnd(a, i) == OwnEnd(b, i) && OwnBoard(f.preFork, a, i) == OwnBoard(f.preFork, b, i)
  }

  /**
   The end of a wave does not depend on how its branches interleaved, nor on anything a
   cancelled branch wrote: two runs in which the same branches were cancelled and the
   others wrote and ended the same leave the same results, outcome and shared board.
   */
  lemma MergeIgnoresInterleaving(f: Fork, a: seq<Action>, b: seq<Action>, interrupt: bool)
    requires Run(f, a).Some? && Run(f, b).Some?
    requires Shaped(|f.ids|, Run(f, a).value) && Ended(f, Run(f, a).value, interrupt)
    requires Shaped(|f.ids|, Run(f, b).value) && Ended(f, Run(f, b).value, interrupt)
    requires forall i :: 0 <= i < |f.ids| ==> SameBranch(f, a, b, i)
    ensures Run(f, a).value.results == Run(f, b).value.results
    ensures Run(f, a).value.outcome == Run(f, b).value.outcome && Run(f, a).value.board == Run(f, b).value.board
  {
    hide Run, ResultOf, JoinWrites, ErrorOf, OwnBoard, OwnEnd;
    var wa, wb := Run(f, a).value, Run(f, b).value;
    forall i | 0 <= i < |f.ids|
      ensures wa.results[i] == wb.results[i]
    {
      RunOwns(f, a, i);
      RunOwns(f, b, i);
      assert SameBranch(f, a, b, i);
    }
    assert wa.results == wb.results;
  }

  /** What deterministic branches do: how each one's handler ends and the board it leaves. */
  type Behaviour = nat -> (HandlerEnd, State)

  /** A run in which every branch behaved so and none was cancelled. */
  ghost predicate Behaves(f: Fork, actions: seq<Action>, b: Behaviour)
    requires Run(f, actions).Some? && Shaped(|f.ids|, Run(f, actions).value)
  {
    forall i :: 0 <= i < |f.ids| ==> BehavesAt(f, actions, b, i)
  }

  ghost predicate BehavesAt(f: Fork, actions: seq<Action>, b: Behaviour, i: nat)
    requires Run(f, actions).Some? && Shaped(|f.ids|, Run(f, actions).value) && i < |f.ids|
  {
    !Run(f, actions).value.results[i].Cancelled? && OwnEnd(actions, i) == Some(b(i).0) && OwnBoard(f.preFork, actions, i) == b(i).1
  }

  function BehavedResults(f: Fork, b: Behaviour): Results {
    seq(|f.ids|, (i: nat) => ResultOf(f.preFork, b(i).0, b(i).1))
  }

  /**
   The engine's run takes a parallel wave as a batch of writes fixed by the pre-fork
   contents. It may: if the branches behave deterministically, every interleaving that runs
   to its end without a cancelled branch leaves, seen through the accessors, exactly what
   that batch leaves, and fails exactly when it does.
   */
  lemma EngineSeesJoin(g: Graph, env: Env, f: Fork, b: Behaviour, actions: seq<Action>, interrupt: bool)
    requires env.parallel && |f.ids| > 1
    requires env.merge(f.ids, Seen(f.preFork)) == JoinWrites(f.how, f.ids, f.preFork, BehavedResults(f, b), interrupt)
    requires Run(f, actions).Some? && Shaped(|f.ids|, Run(f, actions).value) && Ended(f, Run(f, actions).value, interrupt)
    requires Behaves(f, actions, b)
    ensures var out := ExecuteWave(g, env, f.ids, Seen(f.preFork));
            out.view == Seen(Run(f, actions).value.board) && (out.err.None? <==> Run(f, actions).value.outcome == Some(Merged))
  {
    BehavedRunHasResults(f, b, actions, interrupt);
    hide Run, Seen, Effects, Sequential, BehavedResults;
    var w := Run(f, actions).value;
    var join := JoinWrites(f.how, f.ids, f.preFork, w.results, interrupt);
    WaveExecution.WroteFromSeen(f.preFork, join.ops);
    hide KeptDelta, MergeDelta, InterruptedNode, ErrorOf;
  }

  lemma BehavedRunHasResults(f: Fork, b: Behaviour, actions: seq<Action>, interrupt: bool)
    requires Run(f, actions).Some? && Shaped(|f.ids|, Run(f, actions).value) && Ended(f, Run(f, actions).value, interrupt)
    requires Behaves(f, actions, b)
    ensures Run(f, actions).value.results == BehavedResults(f, b)
  {
    hide Run, ResultOf, JoinWrites, ErrorOf, OwnBoard, OwnEnd, JoinOutcome, Effects;
    var w := Run(f, actions).value;
    forall i | 0 <= i < |f.ids|
      ensures w.results[i] == BehavedResults(f, b)[i]
    {
      RunOwns(f, actions, i);
      assert BehavesAt(f, actions, b, i);
    }
  }

  // --------------------------------------------------------- cancellations

  /** A cancelled branch was marked by the controller and is never accepted. */
  lemma CancelledIsNeverAccepted(f: Fork, actions: seq<Action>, i: nat)
    requires Run(f, actions).Some? && i < |f.ids|
    ensures var w := Run(f, actions).value;
            |w.results| == |f.ids| && (w.results[i].Cancelled? ==> i in w.marks && TerminalEvent(i, true) !in w.log)
  {
    RunKeepsInv(f, actions);
    var w := Run(f, actions).value;
    hide Run, Tracks, BranchWrote, JoinWrites, JoinOutcome;
    assert BranchOk(f, w, i);
  }

  /** A granted cancellation is honoured exactly when it came before the branch's result was settled, a panic aside. */
  lemma CancelIsHonouredIff(f: Fork, actions: seq<Action>, i: nat)
    requires Run(f, actions).Some? && i < |f.ids| && i in Run(f, actions).value.marks
    ensures var w := Run(f, actions).value;
            && |w.results| == |f.ids|
            && (!w.results[i].Pending? && !IsPanic(w.results[i]) ==> (w.results[i].Cancelled? <==> i !in w.late))
  {
    RunKeepsInv(f, actions);
    var w := Run(f, actions).value;
    hide Run, Tracks, BranchWrote;
    assert BranchOk(f, w, i);
  }

  lemma RunStep(f: Fork, before: seq<Action>, a: Action, w: Wave, w': Wave)
    requires Run(f, before) == Some(w) && Do(f, w, a) == Some(w')
    ensures Run(f, before + [a]) == Some(w')
  {
    hide Do;
    assert (before + [a])[..|before|] == before;
  }

  lemma Pair<T>(x: T, y: T, z: T)
    ensures [x, y][0 := z] == [z, y] && [x, y][1 := z] == [x, z]
  {
  }

  /** The board of a branch that wrote one var. */
  function Seeded2(f: Fork, k: Name, v: Value): State {
    var s := Seeded(f.preFork);
    s.(vars := s.vars[k := v], clock := 2, varSeq := s.varSeq[k := 2])
  }

  lemma SeededWrite(f: Fork, k: Name, v: Value)
    ensures Step(Seeded(f.preFork), SetVar(k, v), Seeded2(f, k, v))
  {
    hide RestoredChannels;
    assert k in {k} + {};
  }

  /** Two branches: the second writes and returns, and only then does the first get its cancellation granted. */
  lemma GrantedTooLate(f: Fork, k: Name, v: Value) returns (actions: seq<Action>, w: Wave)
    requires |f.ids| == 2
    ensures Run(f, actions) == Some(w)
    ensures w == Wave([Active, Settled], [Seeded(f.preFork), Seeded2(f, k, v)],
                      [Pending, BranchWrote(Seeded(f.preFork), Seeded2(f, k, v))], [false, false], {1}, {}, {1}, [], f.preFork, None)
  {
    hide Seeded, Seeded2, BranchWrote, Step, Run, Do, Forked;
    var s0, s1 := Seeded(f.preFork), Seeded2(f, k, v);
    var w0 := Wave([Queued, Queued], [s0, s0], [Pending, Pending], [false, false], {}, {}, {}, [], f.preFork, None);
    var w1 := w0.(pcs := [Active, Queued]);
    var w2 := w0.(pcs := [Active, Active]);
    var w3 := w2.(boards := [s0, s1]);
    var w4 := w3.(pcs := [Active, Settled], results := [Pending, BranchWrote(s0, s1)]);
    w := w4.(marks := {1}, late := {1});
    ForkedTwo(f);
    FirstBegins(f, w0, w1);
    SecondBegins(f, w1, w2);
    SecondWrites(f, w2, k, v, w3);
    SecondReturns(f, w3, w4);
    LateGrant(f, w4, w);
    var a1 := [] + [Begin(0)];
    var a2 := a1 + [Begin(1)];
    var a3 := a2 + [BranchWrite(1, SetVar(k, v), s1)];
    var a4 := a3 + [Return(1, Success)];
    actions := a4 + [CancelNode(0, 1)];
    RunStep(f, [], Begin(0), w0, w1);
    RunStep(f, a1, Begin(1), w1, w2);
    RunStep(f, a2, BranchWrite(1, SetVar(k, v), s1), w2, w3);
    RunStep(f, a3, Return(1, Success), w3, w4);
    RunStep(f, a4, CancelNode(0, 1), w4, w);
  }

  lemma ForkedTwo(f: Fork)
    requires |f.ids| == 2
    ensures var s0 := Seeded(f.preFork);
            Run(f, []) == Some(Wave([Queued, Queued], [s0, s0], [Pending, Pending], [false, false], {}, {}, {}, [], f.preFork, None))
  {
    hide Seeded;
    var w := Forked(f);
    assert w.pcs == [Queued, Queued] && w.boards == [Seeded(f.preFork), Seeded(f.preFork)];
    assert w.results == [Pending, Pending] && w.terminal == [false, false];
  }

  lemma FirstBegins(f: Fork, w: Wave, w': Wave)
    requires Shaped(2, w) && |f.ids| == 2 && w.pcs == [Queued, Queued] && w.marks == {} && w.outcome.None?
    requires w' == w.(pcs := [Active, Queued])
    ensures Do(f, w, Begin(0)) == Some(w')
  {
    Pair(Queued, Queued, Active);
  }

  lemma SecondBegins(f: Fork, w: Wave, w': Wave)
    requires Shaped(2, w) && |f.ids| == 2 && w.pcs == [Active, Queued] && w.marks == {} && w.outcome.None?
    requires w' == w.(pcs := [Active, Active])
    ensures Do(f, w, Begin(1)) == Some(w')
  {
    Pair(Active, Queued, Active);
  }

  lemma SecondWrites(f: Fork, w: Wave, k: Name, v: Value, w': Wave)
    requires Shaped(2, w) && |f.ids| == 2 && w.pcs == [Active, Active] && w.outcome.None? && w.boards == [Seeded(f.preFork), Seeded(f.preFork)]
    requires w' == w.(boards := [Seeded(f.preFork), Seeded2(f, k, v)])
    ensures Do(f, w, BranchWrite(1, SetVar(k, v), Seeded2(f, k, v))) == Some(w')
  {
    hide Seeded, Seeded2, Step;
    SeededWrite(f, k, v);
    Pair(Seeded(f.preFork), Seeded(f.preFork), Seeded2(f, k, v));
  }

  lemma SecondReturns(f: Fork, w: Wave, w': Wave)
    requires Shaped(2, w) && |f.ids| == 2 && w.pcs == [Active, Active] && w.marks == {} && w.outcome.None?
    requires w.results == [Pending, Pending] && w.terminal == [false, false]
    requires w' == w.(pcs := [Active, Settled], results := [Pending, BranchWrote(Seeded(f.preFork), w.boards[1])])
    ensures Do(f, w, Return(1, Success)) == Some(w')
  {
    hide Seeded, BranchWrote;
    Pair(Active, Active, Settled);
    Pair(Pending, Pending, BranchWrote(Seeded(f.preFork), w.boards[1]));
    Pair(false, false, false);
  }

  lemma LateGrant(f: Fork, w: Wave, w': Wave)
    requires Shaped(2, w) && |f.ids| == 2 && w.pcs == [Active, Settled] && w.marks == {} && w.done == {} && w.late == {} && w.outcome.None?
    requires w' == w.(marks := {1}, late := {1})
    ensures Do(f, w, CancelNode(0, 1)) == Some(w')
  {
    var none: set<nat> := {};
    assert none + {1} == {1};
  }

  /** The two branches finish, the first having written nothing. */
  lemma GrantedThenFinished(f: Fork, k: Name, v: Value) returns (actions: seq<Action>, w: Wave)
    requires |f.ids| == 2
    ensures Run(f, actions) == Some(w)
    ensures var s0, s1 := Seeded(f.preFork), Seeded2(f, k, v);
            w == Wave([Finished, Finished], [s0, s1], [BranchWrote(s0, s0), BranchWrote(s0, s1)], [false, false],
                      {1}, {1, 0}, {1}, [], f.preFork, None)
  {
    hide Seeded, Seeded2, Step, BranchWrote, Run, Do;
    var before, w0 := GrantedTooLate(f, k, v);
    var s0, s1 := Seeded(f.preFork), Seeded2(f, k, v);
    var w1 := w0.(pcs := [Active, Finished], done := {1});
    var w2 := w1.(pcs := [Settled, Finished], results := [BranchWrote(s0, s0), BranchWrote(s0, s1)]);
    w := w2.(pcs := [Finished, Finished], done := {1, 0});
    SecondFinishes(f, w0, w1);
    FirstReturns(f, w1, w2);
    FirstFinishes(f, w2, w);
    var a1 := before + [Finish(1)];
    var a2 := a1 + [Return(0, Success)];
    RunStep(f, before, Finish(1), w0, w1);
    RunStep(f, a1, Return(0, Success), w1, w2);
    actions := a2 + [Finish(0)];
    RunStep(f, a2, Finish(0), w2, w);
  }

  lemma SecondFinishes(f: Fork, w: Wave, w': Wave)
    requires Shaped(2, w) && |f.ids| == 2 && w.pcs == [Active, Settled] && w.done == {} && w.outcome.None?
    requires w' == w.(pcs := [Active, Finished], done := {1})
    ensures Do(f, w, Finish(1)) == Some(w')
  {
    var none: set<nat> := {};
    assert none + {1} == {1};
    Pair(Active, Settled, Finished);
  }

  lemma FirstReturns(f: Fork, w: Wave, w': Wave)
    requires Shaped(2, w) && |f.ids| == 2 && w.pcs == [Active, Finished] && w.marks == {1} && w.outcome.None? && w.terminal == [false, false]
    requires w.boards[0] == Seeded(f.preFork) && w.results[0] == Pending
    requires w' == w.(pcs := [Settled, Finished], results := [BranchWrote(Seeded(f.preFork), Seeded(f.preFork)), w.results[1]])
    ensures Do(f, w, Return(0, Success)) == Some(w')
  {
    hide Seeded, BranchWrote;
    Pair(Active, Finished, Settled);
    Pair(w.results[0], w.results[1], BranchWrote(Seeded(f.preFork), Seeded(f.preFork)));
    assert w.results == [w.results[0], w.results[1]];
    Pair(false, false, false);
  }

  lemma FirstFinishes(f: Fork, w: Wave, w': Wave)
    requires Shaped(2, w) && |f.ids| == 2 && w.pcs == [Settled, Finished] && w.done == {1} && w.outcome.None?
    requires w' == w.(pcs := [Finished, Finished], done := {1, 0})
    ensures Do(f, w, Finish(0)) == Some(w')
  {
    assert {1} + {0} == {1, 0};
    Pair(Settled, Finished, Finished);
  }

  /**
   Between a branch's last look at the marks and its deregistration the controller still
   grants a cancellation that changes nothing: for every var and value the branch's write is
   merged into the shared board and the branch is accepted.
   */
  lemma GrantedCancelCanMerge(f: Fork, k: Name, v: Value) returns (actions: seq<Action>, w: Wave)
    requires |f.ids| == 2 && f.how.FirstWriteWins? && Lookup(f.preFork.vars, k) != Some(v)
    ensures Run(f, actions) == Some(w) && 1 in w.marks
    ensures w.outcome == Some(Merged) && TerminalEvent(1, true) in w.log && Lookup(w.board.vars, k) == Some(v)
  {
    hide Run, Step, Seeded, Seeded2, BranchWrote, Do, DoJoin, Changed, Lookup;
    var before, w0 := GrantedThenFinished(f, k, v);
    w := BothAccepted(f, w0, Seeded(f.preFork), Seeded2(f, k, v));
    actions := before + [Join(false)];
    assert Do(f, w0, Join(false)) == Some(w) by { JoinIsJoin(f, w0, false); }
    RunStep(f, before, Join(false), w0, w);
    OnlySecondChanged(f, w, k, v);
    FirstWriterWins(f, actions, k, 1);
    SecondHolds(f, k, v);
  }

  lemma JoinIsJoin(f: Fork, w: Wave, interrupt: bool)
    ensures Do(f, w, Join(interrupt)) == DoJoin(f, w, interrupt)
  {
  }

  lemma SecondHolds(f: Fork, k: Name, v: Value)
    ensures k in Seeded2(f, k, v).vars && Seeded2(f, k, v).vars[k] == v
  {
    hide RestoredChannels;
  }

  lemma OnlySecondChanged(f: Fork, w: Wave, k: Name, v: Value)
    requires Shaped(2, w) && |f.ids| == 2 && Lookup(f.preFork.vars, k) != Some(v)
    requires w.boards == [Seeded(f.preFork), Seeded2(f, k, v)] && w.results[0].Wrote? && w.results[1].Wrote?
    ensures !Changed(f, w, 0, k) && Changed(f, w, 1, k)
  {
    hide RestoredChannels;
  }

  lemma BothAccepted(f: Fork, w: Wave, s0: State, s1: State) returns (w': Wave)
    requires |f.ids| == 2 && f.how.FirstWriteWins?
    requires w == Wave([Finished, Finished], [s0, s1], [BranchWrote(s0, s0), BranchWrote(s0, s1)], [false, false],
                       {1}, {1, 0}, {1}, [], f.preFork, None)
    ensures DoJoin(f, w, false) == Some(w') && w'.outcome == Some(Merged) && TerminalEvent(1, true) in w'.log
    ensures w'.boards == w.boards && w'.results == w.results && w'.marks == w.marks && Shaped(2, w')
    ensures w'.results[0].Wrote? && w'.results[1].Wrote?
  {
    assert !w.results[0].Errored? && !w.results[1].Errored?;
    assert w.results[0].Wrote? && w.results[1].Wrote?;
    hide JoinWrites, Effects, BranchWrote, JoinOutcome;
    JoinMerges(f, w);
    hide ErrorOf;
    BothOwed();
    hide Rest;
    w' := DoJoin(f, w, false).value;
    assert w'.log == [] + [TerminalEvent(0, true), TerminalEvent(1, true)];
    assert w'.log[1] == TerminalEvent(1, true);
  }

  lemma BothOwed()
    ensures Rest([false, false], true, 0) == [TerminalEvent(0, true), TerminalEvent(1, true)]
  {
    RestHead([false, false], true, 0);
    RestHead([false, false], true, 1);
    RestEnd([false, false], true);
  }

  lemma JoinMerges(f: Fork, w: Wave)
    requires |f.ids| == |w.results| > 0 && f.how.FirstWriteWins? && ErrorOf(w.results, false).None?
    ensures JoinOutcome(f, w, false) == Merged
  {
    hide MergeDelta, KeptDelta;
  }
}
