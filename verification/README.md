# Verified model of the agent runtime core

This project models the parts of the runtime whose correctness depends on many
operations working together, and proves what they promise over every input, every
run or every interleaving:

- **Board history and checkpoints** (`BoardModel`, `BoardHistory`, `BoardObject`,
  `SnapshotDeltas`, `Checkpoints`, `CheckpointWriting`). A board keeps a write
  counter and last-write stamps; deltas since a mark replace full copies; a writer
  chooses between base records and appended deltas. The fast form is proved equal to
  the full snapshot, with the exact condition where it is not.
- **The graph engine** (`GraphRun`, `CrashResume`, `WaveExecution`, `ParallelMerge`,
  `ParallelWave`).
  Waves over a frontier, routing, the iteration budget, node retries, resume from a
  checkpoint, parallel branches. A run interrupted by crashes is proved to be the
  uninterrupted run.
- **Build-time analysis** (`Reachability`, `Tarjan`, `Analysis`). Breadth-first
  reachability and Tarjan's components, exact for every graph and visiting order,
  and what the warnings mean for every run.
- **The event bus** (`Subjects`, `BusModel`, `BusSafety`, `BusClose`, `BusProgress`,
  `BusAccounting`, `BusDelivery`, `BusLifecycle`). Publish, subscribe and the two close
  protocols as atomic steps between lock boundaries: when a send is safe, what a publish
  owes every matching subscription, and where every envelope goes.
- **Smaller protocols**: `SingleFlight` (idempotency keys), `RuntimeTables` and
  `RuntimeOutcomes` (the craft's open, reload and close), `RunTrace` (attempts, referees, commit),
  `AgentSync` (agent reconciliation).

Values, messages and node behaviour are arbitrary. Two boards count as the same
when no accessor can tell them apart, so an absent channel equals an empty one.
Concurrent components are functions from a state and an action to the next state;
a run is any sequence of possible actions, and handlers, stores, clocks, random
sampling and cancellation are choices of the environment.

`dafny verify dfyconfig.toml` checks everything.

## What turned out false, and the exact condition

- A delta is wrong when a restore drops a marked channel and a plain append recreates
  it (`BoardHistory.RestoreThenAppendIsLost`); `BoardHistory.RunDeltaExactIff` gives
  the condition. Rollbacks of node retries never do this.
- `SnapshotDelta` samples a channel at two points, so rewriting the middle of a
  channel of three or more messages is lost (`SnapshotDeltas.MiddleRewriteIsLost`).
- The comments on `SinceMark` and in `Stamp` say the delta and the next mark are taken
  together; the code takes two read locks, and the base path marks after it wrote. A write
  in between is missing from every later continuation until its var or channel is written
  whole again or a new base is stored (`CheckpointWriting.WriteBetweenLocksIsLost`,
  `CheckpointWriting.WindowChannelStaysLost`,
  `CheckpointWriting.LateMarkRepairedIff`, `CheckpointWriting.LateMarkLosesWritesIff`).
- After a Block send a publish goes on with the route it resolved before letting go
  of the lock. A subscription closed meanwhile can then be sent to on its closed
  channel, although the comment on `senders` says non-blocking sends cannot race with
  the close. `BusClose.SafeIffNoOverlap` says exactly for which subscriptions this
  can happen.
- `CancelNode` may report success for a branch whose result is already settled, which is
  then merged and accepted (`ParallelWave.GrantedCancelCanMerge`);
  `ParallelWave.CancelIsHonouredIff` says when a granted cancellation is honoured.
- A parallel branch merges what it appended, except that a node retried inside its branch
  loses every message on the channels that existed before the fork: the rollback stamps
  them, and the merge reads appended messages only
  (`ParallelMerge.RetriedMessageIsLost`, `ParallelMerge.RetriedBranchArrivesIff`,
  `ParallelMerge.BranchMessagesArriveIff`). A
  var a branch deletes is not deleted by the merge (`ParallelWave.FirstWriterWins`).
- The observer contract promises one `OnRunEnd` for a started run. It comes exactly once
  unless the board cannot be seeded again after a revise, and then not at all
  (`RunTrace.StartedRunEndsIff`).
- A node is reported as cyclic if and only if it lies on a cycle, for every node but one
  named like the END marker with an edge to itself (`Reachability.CyclicIffOnCycle`); a
  cycle warning about such a node does not keep a run going
  (`Analysis.UnguardedCycleIsKeptIff`).
- An empty subject matches nothing according to `Matches`; the bus matches it with the
  patterns that are one wildcard, and agrees with `Matches` everywhere else
  (`Subjects.BusMatchAgreesIff`).

## Model

| member | source | states |
|---|---|---|
| `BoardModel.StepKeepsWellStamped` | core/agent/board_delta.go:144-191 | every board operation keeps all stamps at or below the write counter |
| `BoardModel.EffectRespectsSame` | core/agent/board.go:246-377 | no operation can tell an absent channel from an empty one |
| `BoardModel.ReplayedMsgs` | core/agent/board_delta.go:366-400 | what a replayed delta leaves on one channel: the replacement, or the old messages followed by the appended ones |
| `BoardModel.EffectOnVar` | core/agent/board.go:132-217 | what each operation leaves of one var: the value written, none after a delete, the list with the new value last, the snapshot's or the delta's, or what was there |
| `BoardModel.EffectOnChannel` | core/agent/board.go:325-377 | what each operation leaves on one channel: the messages set, the old ones with the appended behind them, all but the last, the snapshot's or the delta's, or what was there |
| `BoardHistory.StepTracks` | core/agent/board_delta.go:144-191 | what the stamps say about the state since a mark survives every operation, restores included |
| `BoardHistory.DeltaExactIffContinues` | core/agent/board_delta.go:61-131 | replaying the delta on the marked contents gives the current contents if and only if every unstamped channel still starts with its marked messages |
| `BoardHistory.UndroppedChannelContinues` | core/agent/board_delta.go:101-131 | a marked channel that is never stamped and never dropped by a restore has only been appended to |
| `BoardHistory.RunDeltaExactIff` | core/agent/board_delta.go:61-191 | over every run of sets, deletes, appends, replaces, pops, applied deltas and restores, the delta is exact if and only if no channel dropped by a restore came back unstamped with a different beginning |
| `BoardHistory.RestoreThenAppendIsLost` | core/agent/board_delta.go:172-191 | for every channel and pair of messages, restore-without-it then append gives a delta that misses the change |
| `BoardHistory.RollbackFollows` | core/graph/execute.go:322-353 | rolling back to a snapshot taken after the mark keeps every delta from that mark exact |
| `BoardHistory.RollbackRunIsExact` | core/graph/execute.go:322-353 | a run whose restores are all rollbacks has an exact delta at every point |
| `BoardHistory.DeltasCompose` | core/agent/board_delta.go:366-400 | replaying consecutive exact deltas in order on the oldest contents gives the newest |
| `BoardObject.Board.constructor` | core/agent/board.go:89-94 | a new board holds the empty main channel and no history |
| `BoardObject.Board.FromSnapshot` | core/agent/board.go:434-450 | a board rebuilt from a record has its contents and no history |
| `BoardObject.Board.Clone` | core/agent/board.go:105-124 | a clone has the same contents |
| `BoardObject.Board.NoteRestore` | core/agent/board_delta.go:172-191 | one write stamps every present var and channel and every var that disappeared, nothing else |
| `BoardObject.Board.SetVar` | core/agent/board.go:132-137 | the new contents and stamps are those of the modelled operation |
| `BoardObject.Board.DeleteVar` | core/agent/board.go:140-145 | likewise; an absent var is stamped all the same |
| `BoardObject.Board.AppendSliceVar` | core/agent/board.go:201-217 | appends to a list, creates one, or refuses and writes nothing |
| `BoardObject.Board.SetChannel` | core/agent/board.go:325-333 | replaces the channel and stamps it |
| `BoardObject.Board.AppendChannelMessages` | core/agent/board.go:346-360 | appends without stamping |
| `BoardObject.Board.PopChannelMessage` | core/agent/board.go:366-377 | takes the last message and stamps, or reports an empty channel |
| `BoardObject.Board.RestoreFrom` | core/agent/board.go:456-478 | the snapshot's contents with every key stamped; a nil snapshot changes nothing |
| `BoardObject.Board.Since` | core/agent/board_delta.go:78-131 | the loops compute exactly the modelled delta |
| `BoardObject.Board.ApplyDelta` | core/agent/board_delta.go:348-431 | writing a delta onto a live board gives the contents a replay on its snapshot gives, with one tick per removed, written or replaced key |
| `SnapshotDeltas.SnapshotDelta` | core/agent/board_delta.go:201-262 | the loops compute the modelled delta, nil base and nil target included |
| `SnapshotDeltas.SnapshotDeltaExactIff` | core/agent/board_delta.go:201-278 | applying the delta to its base gives the target if and only if, on every channel, equal head and seam mean a true prefix |
| `SnapshotDeltas.ShortBaseIsAlwaysHonest` | core/agent/board_delta.go:267-278 | that condition always holds for base channels of at most two messages |
| `SnapshotDeltas.MiddleRewriteIsLost` | core/agent/board_delta.go:267-278 | any change of the second of three or more messages yields an empty delta |
| `Checkpoints.LoadAppended` | core/agent/checkpoint_journal.go:103-136 | loading after an append is loading before it with the increment applied |
| `Checkpoints.MergedFieldByField` | core/agent/checkpoint_journal.go:103-136 | each field of the envelope, payload, attributes and both times included, is the continuation's where that names one and the record's otherwise |
| `Checkpoints.MergedComposes` | core/agent/checkpoint_journal.go:103-136 | an empty envelope changes nothing, and applying two envelopes in turn is applying their merge |
| `Checkpoints.CheckpointStore.Append` | core/agent/checkpoint_journal.go:20-53 | a continuation without a base is refused with a request for one, an accepted one extends the chain |
| `Checkpoints.CheckpointStore.LoadRecord` | core/agent/checkpoint_journal.go:103-136 | the loop rebuilds base plus chain |
| `CheckpointWriting.CheckpointWriter.StampBoard` | core/agent/checkpoint_writer.go:102-132 | writer and store after a boundary, for every combination of accepted, refused and failed store calls; a refused continuation falls through to a full record |
| `CheckpointWriting.CheckpointWriter.StampSnapshot` | core/agent/checkpoint_writer.go:142-170 | the same for untracked states; a nil base always starts a new record |
| `CheckpointWriting.StampSucceedsIff` | core/agent/checkpoint_writer.go:102-132 | a boundary succeeds if and only if the continuation was possible and accepted, or the full record is accepted and no continuation failed outright; a failure changes nothing and a full record loads as the board |
| `CheckpointWriting.StampStatesSucceedsIff` | core/agent/checkpoint_writer.go:142-170 | the same for untracked states; the full record then loads as the new state |
| `CheckpointWriting.AcceptedBoundaryIsDurable` | core/agent/checkpoint_writer.go:113-131 | over every run, lost records included, the first boundary whose full record would be accepted and whose continuation does not fail outright leaves a store whose load is the board of that boundary |
| `CheckpointWriting.CompactionCycle` | core/agent/checkpoint_writer.go:88-132 | when every call is accepted, one full record is followed by exactly a window of continuations, over and over |
| `CheckpointWriting.AppendDurableIff` | core/agent/checkpoint_writer.go:107-121 | after an accepted continuation the stored record is the board if and only if no channel was misread |
| `CheckpointWriting.ChainInvariant` | core/agent/checkpoint_writer.go:102-132 | over every mix of writes, restores, stamps, failures and lost records in which no write recreates, unstamped, a dropped channel of the last durable boundary, a load gives the board of the last successful stamp, and the chain length equals the writer's count and stays within the window |
| `CheckpointWriting.FailureLosesNothing` | core/agent/checkpoint_writer.go:113-127 | after a failed boundary the durable record still loads, and the next boundary that succeeds makes the board of that moment durable, the writes before the failure included |
| `CheckpointWriting.LateMarkRepairedIff` | core/agent/board_delta.go:137-140 | for every later board, a continuation from a mark taken after the capture repairs the record if and only if every var unwritten since the mark was the same at both moments and every channel not reported whole is the captured one plus the reported tail |
| `CheckpointWriting.LateMarkLosesWritesIff` | core/agent/checkpoint_writer.go:107-128 | when no restore orphans a channel, it loses exactly the window's writes to vars and channels not written whole again since |
| `CheckpointWriting.WindowWriteStaysLost` | core/agent/checkpoint_writer.go:107-121 | through any number of accepted continuations such a var stays wrong in the record until it is written again |
| `CheckpointWriting.WindowChannelStaysLost` | core/agent/checkpoint_writer.go:107-121 | through any number of accepted continuations a channel not stamped again keeps the messages recorded before the window, followed only by what was appended after the mark |
| `CheckpointWriting.WriteBetweenLocksIsLost` | core/agent/board_delta.go:137-140 | every `SetVar` between the two locks that changes a value is such a loss, on every board |
| `CheckpointWriting.StampStatesExactIff` | core/agent/checkpoint_writer.go:142-170 | an appended snapshot delta makes the record the new state if and only if the two-point sample is honest |
| `GraphRun.Dedup` | core/graph/execute.go:818-828 | same members, no duplicates, no longer than the input |
| `GraphRun.ResolveNext` | core/graph/execute.go:732-750 | the nested loops compute the modelled frontier, failing at the first condition that cannot be evaluated |
| `GraphRun.ResolveMeans` | core/graph/execute.go:732-750 | routing fails exactly when some edge leaving the wave has a condition that cannot be evaluated; otherwise a node is in the frontier exactly when an edge to it is unconditional or its condition holds, once each, in the order of the first such edge |
| `GraphRun.RoutedFollowsEdges` | core/graph/execute.go:732-750 | everything routed is the target of an edge leaving the wave, never END |
| `GraphRun.UnconditionalIsRouted` | core/graph/execute.go:732-750 | an unconditional edge to a node is always followed |
| `GraphRun.CounterCountsRoutedNodes` | core/graph/execute.go:173-218 | the counter is the starting count plus the sizes of the completed deduplicated waves |
| `GraphRun.BudgetIsNeverExceeded` | core/graph/execute.go:173-218 | a run that starts within its limit never exceeds it |
| `GraphRun.BudgetedRunStops` | core/graph/execute.go:173-218 | with a positive limit every run stops within a bounded number of routed nodes, whatever is skipped |
| `GraphRun.AfterComposes` | core/graph/execute.go:173-218 | splitting a run anywhere and going on from its configuration changes nothing |
| `GraphRun.TurnEndsIff` | core/graph/execute.go:173-218 | a turn completes exactly without a frontier, is over budget exactly when the frontier's distinct nodes do not fit, fails exactly when its wave does, and is counted by its distinct nodes otherwise |
| `CrashResume.ResumeReturnsToRun` | core/graph/execute.go:136-165 | a recorded boundary is admitted, and restoring it and recomputing the frontier gives board, frontier and count of the run there, or the routing failure the run met there |
| `CrashResume.ResumeAdmitsIff` | core/graph/resume.go:16-42 | a resume is refused exactly for a record of another run or graph version, without a recorded wave, with an unknown node or over the budget, or when its wave cannot be routed; an admitted one continues with the recorded contents and count at nodes of the graph |
| `CrashResume.StampIsDurable` | core/graph/execute.go:701-725 | a successful stamp makes the wave boundary the one a load returns |
| `CrashResume.CrashResumeEquivalence` | core/graph/execute.go:136-218 | through any sequence of waves, failed stamps, routing failures behind a stamp, lost records and crashes the live state is that of the uninterrupted run after some number of waves, and a resume returns to the last successful stamp still there or fails in routing as the run did |
| `CrashResume.SameEnding` | core/graph/execute.go:136-218 | a run with crashes that ends, ends after as many waves as the uninterrupted run and with its board, frontier and count, or its routing failure |
| `WaveExecution.RunAttempts` | core/graph/execute.go:316-353 | the retry loop with its rollbacks leaves what the last attempt alone would leave on the untouched board, and starts no attempt under a context that is done |
| `WaveExecution.InvokeNode` | core/graph/execute.go:240-374 | one node call on a live board, cancelled or not, equals the modelled one, leaves the name of an interrupted node, and keeps later deltas exact |
| `GraphRun.NodeDoesItsDecidingAttempt` | core/graph/execute.go:316-374 | a ready node that is not skipped leaves the writes and error of one attempt alone: the first not worth retrying or the last allowed, with the interrupted-node name exactly after an interrupt and a failed write check on top; a context done before a retry or at a failure gives its own error |
| `GraphRun.NodeThatDoesNotRun` | core/graph/execute.go:244-315 | a skipped node changes nothing and succeeds, a broken skip condition or a failed readiness check changes nothing and fails |
| `GraphRun.NodeSucceedsIff` | core/graph/execute.go:240-374 | a node succeeds if and only if it is skipped, or it is ready and its deciding attempt succeeds and wrote what it must |
| `GraphRun.CancelledNodeFailsOrAgrees` | core/graph/execute.go:326-374 | cancellation can only fail a node: one that still succeeds leaves what it leaves uncancelled |
| `WaveExecution.ExecuteWaveOn` | core/graph/execute.go:222-233 | one wave on a live board equals the modelled wave |
| `GraphRun.WaveRunsItsNodes` | core/graph/execute.go:222-233 | a sequential wave invokes its nodes in order, each on what the one before left, up to and including the first that fails |
| `WaveExecution.StampAndRoute` | core/graph/execute.go:210-216 | an executed wave is stamped before it is routed, and the store then holds its boundary whether or not routing succeeds |
| `WaveExecution.Execute` | core/graph/execute.go:173-218 | the loop over board, writer and store objects, started fresh or resumed and struck by any poll before or after any wave, stays on the uninterrupted run, leaves a store a resume returns to it from on every exit, and names the reason it stopped and what it left on the board |
| `Reachability.ReachableFrom` | core/graph/analyze.go:79-92 | the breadth-first set is exactly the nodes reachable by some path |
| `Reachability.CyclicIffOnCycle` | core/graph/analyze.go:308-342 | reported means on a cycle, self-loops included, exactly for every node but one named like END with an edge to itself |
| `Reachability.EndIsAlone` | core/graph/analyze.go:308-342 | a node named like END is its own component and on no cycle, whatever its edges |
| `Reachability.ComponentsDisjoint` | core/graph/analyze.go:289-292 | components are equal or disjoint |
| `Tarjan.SegmentIsComponent` | core/graph/analyze.go:322-332 | when no edge reaches lower than a node, the stack above it is exactly its strongly connected component |
| `Tarjan.Finder.PopComponent` | core/graph/analyze.go:323-332 | the pop loop removes exactly that part of the stack |
| `Tarjan.Finder.Follow` | core/graph/analyze.go:308-320 | one edge keeps the low link the least stack position reached |
| `Tarjan.Finder.Leave` | core/graph/analyze.go:322-343 | the end of a visit reports a cyclic component once or leaves the node on the stack |
| `Tarjan.Finder.Visit` | core/graph/analyze.go:300-344 | one recursive visit keeps every invariant of the search |
| `Tarjan.StronglyConnectedComponents` | core/graph/analyze.go:292-352 | for every graph and visiting order the result is exactly the cyclic components, pairwise disjoint |
| `Analysis.CheckTopology` | core/graph/analyze.go:76-110 | flags exactly the nodes with no path from the entry and exactly those without edges |
| `Analysis.FlaggedNodeNeverRuns` | core/graph/analyze.go:93-100 | a node flagged unreachable is in no wave of any entry-started run |
| `Analysis.CheckUnguardedCycles` | core/graph/analyze.go:114-138 | flags exactly the cyclic components whose every edge is unconditional and internal |
| `Analysis.UnguardedCycleIsKeptIff` | core/graph/analyze.go:114-138 | once a frontier meets a flagged component a later one does if and only if the component is not the one around a node named like END, and then the run never ends by an empty frontier |
| `ParallelMerge.FindWaveError` | core/graph/execute.go:555-571 | an interrupt of the run or of a branch wins over any other branch failure |
| `ParallelMerge.MergeBranchVars` | core/graph/parallel.go:162-176 | one branch sets exactly the unclaimed vars it wrote with a new value, and claims them |
| `ParallelMerge.ClaimIsFirst` | core/graph/parallel.go:138-145 | a var goes to the first branch of the wave that claims it |
| `ParallelMerge.ClaimBackwardIsLast` | core/graph/parallel.go:149-156 | under last-write-wins it goes to the last |
| `ParallelMerge.AppendAll` | core/graph/parallel.go:195-212 | every channel gets the branches' appended messages in wave order, after an interrupt only an assistant's of interrupted branches |
| `ParallelMerge.AssistantsKeeps` | core/graph/parallel.go:195-212 | the filter after an interrupt keeps every assistant message in place and drops every other |
| `ParallelMerge.InterruptedNodeIsFirst` | core/graph/execute.go:555-585 | the node named after an interrupt is the first interrupted branch in wave order, or the first of the wave when none is |
| `ParallelMerge.MergedVar` | core/graph/parallel.go:138-176 | a var after the merge is the winner's value or what was there |
| `ParallelMerge.MergedChannel` | core/graph/parallel.go:188-223 | a channel after the merge or an interrupt is what was there plus what the branches give |
| `ParallelMerge.JoinOn` | core/graph/execute.go:555-592 | the loops at the end of a wave write exactly the modelled batch to the shared board, for every result vector, strategy and interrupt |
| `ParallelMerge.BranchClaimsIff` | core/graph/parallel.go:162-176 | a branch claims a var exactly when its own board ends with a value that was not there before the fork |
| `ParallelMerge.BranchMessagesArriveIff` | core/graph/parallel.go:188-212 | a branch's messages on a channel arrive if and only if the channel is unstamped since the fork or unchanged |
| `ParallelMerge.RetriedBranchArrivesIff` | core/graph/execute.go:349-353 | after a rollback inside the branch nothing arrives on a channel that existed before the fork |
| `ParallelMerge.RetriedMessageIsLost` | core/graph/execute.go:349-353 | on every board one retry and one appended message lose the message |
| `ParallelWave.PublishRest` | core/graph/execute.go:633-657 | publishes one terminal, in wave order, for exactly the branches without one |
| `ParallelWave.RestCounts` | core/graph/execute.go:633-657 | those terminals count one for a branch without one and none for the others |
| `ParallelWave.SeededByRestore` | core/graph/execute.go:508-513 | a branch's board is a new one restored from the pre-fork snapshot |
| `ParallelWave.StepKeepsInv` | core/graph/execute.go:458-552 | every step of a branch, the controller and the join keeps the wave's invariant |
| `ParallelWave.OneTerminalPerBranch` | core/graph/execute.go:426-612 | in every interleaving each branch of an ended wave has exactly one terminal, accepted if and only if the wave merged and the branch wrote or was skipped; a merged wave has no failed branch |
| `ParallelWave.JoinDecides` | core/graph/execute.go:553-612 | once all branches have finished the wave ends: interrupted if the run or a branch was, else failed if a branch was, else by a failed custom merge, else merged |
| `ParallelWave.ReturnSettles` | core/graph/execute.go:508-550 | what each way a handler can end leaves in its branch's slot, cancelled when it was marked before unless it panicked, and no other slot moves |
| `ParallelWave.FailureLeavesBoard` | core/graph/execute.go:572-587 | whatever the branches wrote to their own boards, a branch failure that is no interrupt leaves the shared board as before the fork |
| `ParallelWave.InterruptKeepsMessages` | core/graph/execute.go:575-585 | an interrupted wave adds an assistant's messages of interrupted branches and the interrupted node's name, and changes nothing else |
| `ParallelWave.FirstWriterWins` | core/graph/parallel.go:138-176 | over whole runs a merged var is the value on the board of the first branch in wave order that ended with a new one, and what it was if there is none |
| `ParallelWave.LastWriterWins` | core/graph/parallel.go:149-176 | under last-write-wins it is the last branch's |
| `ParallelWave.MergedChannelIsAppends` | core/graph/parallel.go:188-212 | over whole runs a merged channel is the pre-fork one, then in wave order what each successful branch's own board shows past it, unless that branch stamped it |
| `ParallelWave.RunOwns` | core/graph/execute.go:508-550 | a branch's board and result depend on its own actions alone, except for being cancelled |
| `ParallelWave.MergeIgnoresInterleaving` | core/graph/execute.go:508-612 | results, outcome and shared board do not depend on the interleaving or on what a cancelled branch wrote |
| `ParallelWave.EngineSeesJoin` | core/graph/execute.go:222-233 | if the branches behave deterministically, every uncancelled interleaving leaves what one batch of writes, fixed before the fork, leaves, so the engine's run may take a parallel wave as that batch |
| `ParallelWave.CancelledIsNeverAccepted` | core/graph/execute.go:490-528 | a cancelled branch was marked by the controller and is never accepted |
| `ParallelWave.CancelGrantedIff` | core/graph/parallel.go:315-361 | a cancel call by a running branch marks its target exactly when that is a branch of the wave that has not finished and the caller is not cancelled itself |
| `ParallelWave.CancelIsHonouredIff` | core/graph/parallel.go:315-370 | a granted cancellation is honoured exactly when it came before the branch's result was settled, a panic aside |
| `ParallelWave.GrantedCancelCanMerge` | core/graph/parallel.go:315-361 | for every var and value, an interleaving in which a branch's cancellation is granted and its write is merged and accepted |
| `Subjects.MatchSegsIff` | core/event/subject.go:176-195 | the matcher decides exactly the segment-wise meaning, malformed patterns included |
| `Subjects.JoinSplit` | core/event/subject.go:139-141 | joining the segments gives the subject back |
| `Subjects.LiteralMatchesItself` | core/event/subject.go:130-135 | a pattern without wildcards matches exactly the equal subject |
| `Subjects.BusMatchAgreesIff` | core/event/memory.go:353-362 | the bus's matcher and `Matches` agree on every non-empty pattern and every subject except the empty subject under a single wildcard |
| `BusSafety.MoveHasShape` | core/event/memory.go:305-477 | the control flow of every publish step: where it goes next, what it does to locks, senders and route |
| `BusSafety.GoKeepsInv` | core/event/memory.go:305-477 | every publish step that does not panic keeps the bus invariant |
| `BusSafety.PanicNeedsStaleAndSwept` | core/event/memory.go:366-414 | a send meets a closed channel only on a route resolved before the lock was released, after a subscription close drained its senders |
| `BusSafety.StepKeepsInv` | core/event/memory.go:305-628 | every step of publish, subscribe, receive and both closes keeps the invariant |
| `BusClose.CachedRouteIsFullScan` | core/event/memory.go:155-195 | in every reachable state a cached route lists exactly the registered matching subscriptions, once each, and the cache is within its cap |
| `BusClose.FirstBlockIsSafe` | core/event/memory.go:366-414 | whoever closes what, every send up to and including a publish's first Block send is safe |
| `BusClose.BusCloseIsSafe` | core/event/memory.go:596-619 | with the bus close as the only closer no interleaving sends on a closed channel |
| `BusClose.NoOverlapIsSafe` | core/event/memory.go:366-414 | without a Block subscription that shares an envelope with another one, no interleaving does |
| `BusClose.OverlapCanPanic` | core/event/memory.go:366-470 | with such a pair some interleaving does |
| `BusClose.SafeIffNoOverlap` | core/event/memory.go:250-257 | with subscription closes in play, safety in every interleaving holds exactly when no such pair exists |
| `BusProgress.NothingSetsCloseBack` | core/event/memory.go:596-619 | on a closed bus no step increases the remaining work, and every step of a publish or of the close decreases it |
| `BusProgress.CloseIsNeverStuck` | core/event/memory.go:596-619 | until the close has returned some step towards its end is possible, parked Block publishes included |
| `BusProgress.CloseAlwaysFinishes` | core/event/memory.go:596-619 | from every reachable state of a closed bus the close can run to its end |
| `BusProgress.CloseTakesBoundedSteps` | core/event/memory.go:596-619 | in every run of a closed bus publishes and the close take a bounded number of steps |
| `BusProgress.LockHolderNeverWaits` | core/event/memory.go:341-476 | a publish holding the read lock always has a next step and its scan ends, so a writer is never kept out |
| `BusAccounting.BooksBalance` | core/event/memory.go:366-492 | in every reachable state enqueued equals consumed or evicted followed by buffered, in order and within the size, and the dropped counter equals reported plus pending counted drops |
| `BusAccounting.MoveBalances` | core/event/memory.go:366-476 | each publish step counts exactly the drops it notes, and notes a delivery exactly when its envelope enters the channel |
| `BusAccounting.NewestIsNeverLost` | core/event/memory.go:416-440 | with one publisher the retry after an eviction always enqueues the newest envelope |
| `BusDelivery.RoomMeansDelivery` | core/event/memory.go:366-471 | a send under any policy to an open channel with room enqueues the envelope last and notes the delivery, nothing else |
| `BusDelivery.FullMeansDrop` | core/event/memory.go:416-471 | against a full channel DropOldest goes on to evict, a parked Block send waits, and every other send drops its own envelope, counts and notes it |
| `BusDelivery.MoveIsProper` | core/event/memory.go:366-476 | every publish step past the lookup deals with at most one subscription, notes it once if it allows the envelope and not otherwise, drops the envelope only for a full buffer, a sampling decision or a signalled close, and returns early only for a cancelled context or a closed bus |
| `BusDelivery.PublishIsFair` | core/event/memory.go:366-476 | in every reachable state a publish has exactly one delivery or drop of its own envelope noted for each allowed subscription of its route dealt with so far and none for any other |
| `BusDelivery.LookupFindsMatches` | core/event/memory.go:346-364 | the route of a publish lists exactly the registered subscriptions whose pattern matches, from the cache or by a scan |
| `BusDelivery.PublishReachesEveryMatch` | core/event/memory.go:341-476 | the delivery law: in every interleaving a publish that returns success has exactly one delivery or drop of its envelope noted for every subscription registered at its lookup that matches and allows it, and none for any other |
| `BusLifecycle.RegisteredUntilTakenOff` | core/event/memory.go:521-570 | on an open bus a subscription is registered, with an open channel, exactly until a call of its Close took it off |
| `BusLifecycle.ReturnedCloseHasClosed` | core/event/memory.go:250-257 | a subscription close that returned has unregistered it, signalled its senders and closed its channel |
| `BusLifecycle.BusCloseClosesAll` | core/event/memory.go:596-619 | once the bus close returned every channel is closed but those a subscription close took off and has yet to close |
| `SingleFlight.StepKeepsInv` | core/delegation/service.go:624-705 | every step of entering, finishing, waking, cancelling, expiring and the clock keeps the invariant |
| `SingleFlight.OneExecutionPerKey` | core/delegation/service.go:640-680 | a key has at most one execution in flight and is then not cached |
| `SingleFlight.ExecutionsAreSpaced` | core/delegation/service.go:624-705 | over a whole run a later execution under a key starts after the earlier one ended, and after a success only once it expired |
| `SingleFlight.SuccessIsReplayed` | core/delegation/service.go:628-639 | until its expiry a success is returned to the same request, any other request under the key conflicts, and nothing executes |
| `SingleFlight.EnterJoins` | core/delegation/service.go:640-660 | a call under a key in flight waits for that execution if it makes the same request and conflicts otherwise, and starts nothing |
| `SingleFlight.EnterExecutesIff` | core/delegation/service.go:628-668 | a call executes if and only if every earlier execution under its key has ended and every success among them has expired; it then starts a new execution of its own request |
| `SingleFlight.FinishEndsExecution` | core/delegation/service.go:669-697 | the executing call ends its execution with its outcome, held for the retention of its mode, returns it, and leaves the key free of executions |
| `SingleFlight.OutcomeIsShared` | core/delegation/service.go:640-679 | all calls that took part in an execution made the same request and return its outcome |
| `SingleFlight.WaiterIsServed` | core/delegation/service.go:640-660 | a waiter's execution is still carried out, or it can return that outcome now |
| `RuntimeTables.StepKeepsInv` | craft/craft.go:312-384 | every step of open, reload, close-runtime and close keeps the table invariant |
| `RuntimeTables.TablesAgree` | craft/craft.go:312-384 | runtimes and records have the same keys, opening keys are in neither, a closed craft stays empty |
| `RuntimeTables.NoRuntimeIsLost` | craft/craft.go:345-384 | every running runtime is in the table under its key or held by a call that publishes or closes it |
| `RuntimeTables.RecordMatchesRuntime` | craft/craft.go:506-525 | a record was written for the runtime beside it, so no reload writes onto a reopened key, and outside a reload that runtime serves it |
| `RuntimeTables.ReloadLeavesRecordServed` | craft/craft.go:483-590 | a reload that fails before its swap changes nothing; one that succeeds or rolls back leaves the runtime serving the recorded inputs |
| `RuntimeOutcomes.TabledRuntimeRuns` | craft/craft.go:312-397 | in every interleaving a runtime in the table runs unless its bind failed and that open is about to withdraw it, and no call is about to close it |
| `RuntimeOutcomes.OpenTakesEffect` | craft/craft.go:301-383 | an undisturbed open tables a new running runtime with the record of what it serves and changes no other entry |
| `RuntimeOutcomes.FailedBindUndoesOpen` | craft/craft.go:363-379 | an open whose bind fails leaves both tables as before and its runtime stopped |
| `RuntimeOutcomes.CloseRuntimeTakesEffect` | craft/craft.go:650-675 | closing a runtime frees its key in both tables and stops exactly that runtime |
| `RuntimeOutcomes.ReloadReads` | craft/craft.go:458-482 | a reload of a key that is not served is refused and changes nothing; any other reads the record, and keeps its options unless it was given new ones |
| `RuntimeOutcomes.ReloadTakesEffect` | craft/craft.go:483-553 | an undisturbed reload leaves its runtime serving the new inputs and the record saying so, and nothing else changed |
| `RunTrace.ComposeReferees` | core/agent/lifecycle.go:541-571 | each directive is set exactly when some referee asked for it, the reason is the first given, any error discards all |
| `RunTrace.StatusIff` | core/agent/execute.go:208-283 | interrupted exactly when the engine was; else cancelled exactly when the context or the engine says so, a nil engine error included; else completed exactly without an error |
| `RunTrace.Attempt` | core/agent/execute.go:181-228 | status, observer calls and commitment of one attempt |
| `RunTrace.Finalize` | core/agent/execute.go:321-358 | committed exactly when nothing at the end fails; committers run up to the first failure |
| `RunTrace.Execute` | core/agent/execute.go:117-156 | the log is (Start Revise)* Start [Interrupt] commits End, the attempts end where revising stops, and committed without error holds exactly when the last attempt is upheld and every final step succeeds; a run without a result stopped at a board that could not be seeded |
| `RunTrace.FullLogCounts` | core/agent/execute.go:117-156 | starts equal attempts, one end, at most one interrupt |
| `RunTrace.ResultIff` | core/agent/execute.go:119-126 | a run has no result exactly when some attempt it gets to cannot be seeded |
| `RunTrace.StartedRunEndsIff` | core/agent/execute.go:117-156 | a run whose start was observed is observed to end exactly once unless the board cannot be seeded again after a revise, and then never |
| `AgentSync.CheckDecls` | craft/agentset.go:212-232 | accepts exactly the sets with given, distinct names and given revisions |
| `AgentSync.Coordinator.Drop` | craft/agentset.go:267-280 | a dropped name is forgotten, removed, or reported and kept |
| `AgentSync.Coordinator.Upsert` | craft/agentset.go:290-319 | a declared name is left, replaced or registered, or reported |
| `AgentSync.Coordinator.Sync` | craft/agentset.go:237-321 | what a pass does to every name, its report lists, and exactly when it calls the runtime |
| `AgentSync.DeclaredIsLiveOrReported` | craft/agentset.go:237-321 | after a pass a declared name is live with its revision recorded, or reported |
| `AgentSync.StrangersAreUntouched` | craft/agentset.go:260-319 | agents neither declared nor recorded are untouched |
| `AgentSync.DroppedIsGoneOrReported` | craft/agentset.go:260-280 | a recorded name the set dropped is gone from runtime and records, or reported and left as it was |
| `AgentSync.ReportedIff` | craft/agentset.go:260-319 | exactly when a name is reported registered, updated, removed or failed, by what was live and recorded before the pass and what the runtime answered, and what a failed replacement leaves |
| `AgentSync.CleanPassRecordsDeclarations` | craft/agentset.go:237-321 | an error-free pass leaves the records equal to the declarations |
| `AgentSync.RepeatPassMakesNoCalls` | craft/agentset.go:290-294 | repeating it makes no call and changes nothing |

## Left out

- Deep copies, aliasing of slices inside values, `UpdateSliceVarItem` and JSON encoding: values are immutable and opaque.
- The difference between a nil and an empty slice, and the sorted order of lists such as a delta's removed names, a component's members or a report's entries.
- 64-bit overflow of the board's write counter.
- `CheckpointWriting.ChainInvariant`: no board write runs during a stamp (`CheckpointWriting.LateMarkRepairedIff` says what happens otherwise), and a failed store call has no effect on the store.
- `CrashResume.CrashResumeEquivalence`: handlers and merges write the board through its operations and do not call `RestoreFrom` themselves; conditions and nodes are deterministic.
- `CrashResume.ResumeAdmitsIff`: a record with a negative wave count, which no stamp writes, is refused; the source would count on from it.
- `WaveExecution.Execute`: a context that ends while a wave is running is not passed down to its nodes (`WaveExecution.InvokeNode` covers a single node); the polls before and after every wave are.
- Branch limits, concurrency limits and branch timeouts of a parallel wave; a custom merge is any function of the pre-fork contents and the results.
- `GraphRun.ResolveNext`: a run starts at the entry; the per-call start-node override is not modelled.
- Missing-default, unresolved-reference and no-join warnings: single scans that add only easy members.
- `BusProgress.CloseIsNeverStuck`: that an enabled step is eventually taken is the scheduler's business; before the bus is marked closed only `LockHolderNeverWaits` is shown.
- Envelope identity and trace fields, drop-log throttling, observer callbacks beyond their drop list, and subscription contexts other than as callers of close.
- Delegation outside idempotency keys (workers, streams, sessions); a panic inside an execution.
- `BusDelivery.PublishReachesEveryMatch`: a run in which a send meets a closed channel ends there; `BusClose.SafeIffNoOverlap` says when none does.
- `RuntimeTables.ReloadLeavesRecordServed`: a core reload is all or nothing; whether a runtime is bound, and the generation numbers in error texts, are not modelled.
- Starting the craft's shared services, its plugin watch and the order in which close tears runtimes down.
- `RunTrace.Execute`: results carry status, commitment, attempts and reason; messages, artifacts and the projected commit view are not modelled.
- `AgentSync.Coordinator.Sync`: each name's runtime answers are fixed for the pass; the removal time bound is one of them.
- Subject and pattern validation, the subject builders and identifier sanitising: field checks settled by reading one branch.
- Telemetry, events and logs.
