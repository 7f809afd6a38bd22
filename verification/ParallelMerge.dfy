/**
 What a parallel wave does to the shared board: the built-in merges of the branches'
 deltas, what an interrupt keeps, and when a branch's writes really arrive.
 */
module ParallelMerge {
  import opened Wrappers
  import opened BoardModel
  import opened BoardHistory
  import opened BoardObject
  import opened GraphRun
  import WaveExecution

  /** What a branch's goroutine left in its slot. A panic is a failure without writes and without its own terminal. */
  datatype BranchResult =
    | Pending
    | Wrote(delta: Delta, snap: Snapshot)
    | Skipped
    | Cancelled
    | Errored(interrupted: bool, writes: Option<Delta>)

  type Results = seq<BranchResult>

  // ----------------------------------------------------------------- vars

  /** The branch wrote the var, and not the value that was already there. */
  predicate Claims(preFork: Snapshot, r: BranchResult, k: Name) {
    r.Wrote? && k in r.delta.vars && Lookup(preFork.vars, k) != Some(r.delta.vars[k])
  }

  /** The first claim in the order given. */
  function Claim(preFork: Snapshot, rs: Results, k: Name): Option<Value> {
    if rs == [] then None
    else
      var before, r := Claim(preFork, rs[..|rs| - 1], k), rs[|rs| - 1];
      if before.Some? then before else if Claims(preFork, r, k) then Some(r.delta.vars[k]) else None
  }

  function Backward(rs: Results): Results {
    if rs == [] then [] else [rs[|rs| - 1]] + Backward(rs[..|rs| - 1])
  }

  /** First write wins in wave order, last write wins in the reverse of it. */
  function Ranked(rs: Results, lastWins: bool): Results {
    if lastWins then Backward(rs) else rs
  }

  function VarKeys(rs: Results): set<Name> {
    set i, k | 0 <= i < |rs| && rs[i].Wrote? && k in rs[i].delta.vars :: k
  }

  // ------------------------------------------------------------- channels

  /** Of a channel's messages, those an assistant wrote. */
  function Assistants(ms: seq<Message>): seq<Message> {
    if ms == [] then []
    else Assistants(ms[..|ms| - 1]) + if ms[|ms| - 1].assistant then [ms[|ms| - 1]] else []
  }

  /** The filter keeps each assistant message and drops every other, whatever surrounds it. */
  lemma {:induction false} AssistantsKeeps(a: seq<Message>, m: Message, b: seq<Message>)
    ensures Assistants(a + [m] + b) == Assistants(a) + (if m.assistant then [m] else []) + Assistants(b)
    decreases |b|
  {
    var all := a + [m] + b;
    if b == [] {
      assert all[..|all| - 1] == a;
    } else {
      assert all[..|all| - 1] == a + [m] + b[..|b| - 1];
      AssistantsKeeps(a, m, b[..|b| - 1]);
    }
  }

  /** What one result adds to a channel: its appended messages, or after an interrupt the assistant messages of interrupted branches. */
  function Given(r: BranchResult, interrupted: bool, c: Name): seq<Message> {
    if interrupted then (if r.Errored? && r.interrupted && r.writes.Some? then Assistants(Msgs(r.writes.value.appends, c)) else [])
    else if r.Wrote? then Msgs(r.delta.appends, c) else []
  }

  /** Everything a channel gets, in wave order. */
  function Added(rs: Results, interrupted: bool, c: Name): seq<Message> {
    if rs == [] then [] else Added(rs[..|rs| - 1], interrupted, c) + Given(rs[|rs| - 1], interrupted, c)
  }

  function AppendsOf(r: BranchResult, interrupted: bool): Channels {
    if interrupted then (if r.Errored? && r.interrupted && r.writes.Some? then r.writes.value.appends else map[])
    else if r.Wrote? then r.delta.appends else map[]
  }

  function ChannelKeys(rs: Results, interrupted: bool): set<Name> {
    set i, c | 0 <= i < |rs| && c in AppendsOf(rs[i], interrupted) :: c
  }

  lemma {:induction false} AddedOnlyToKeys(rs: Results, interrupted: bool, c: Name)
    requires c !in ChannelKeys(rs, interrupted)
    ensures Added(rs, interrupted, c) == []
    decreases |rs|
  {
    if rs != [] {
      var n := |rs| - 1;
      assert c !in AppendsOf(rs[n], interrupted);
      assert forall i :: 0 <= i < n ==> rs[..n][i] == rs[i];
      AddedOnlyToKeys(rs[..n], interrupted, c);
      assert Assistants([]) == [];
    }
  }

  lemma {:induction false} ClaimOnlyKeys(preFork: Snapshot, rs: Results, k: Name)
    requires Claim(preFork, rs, k).Some?
    ensures k in VarKeys(rs)
    decreases |rs|
  {
    var n := |rs| - 1;
    if Claim(preFork, rs[..n], k).Some? {
      ClaimOnlyKeys(preFork, rs[..n], k);
      var i :| 0 <= i < n && rs[..n][i].Wrote? && k in rs[..n][i].delta.vars;
      assert rs[i].Wrote? && k in rs[i].delta.vars;
    } else {
      assert rs[n].Wrote? && k in rs[n].delta.vars;
    }
  }

  // ------------------------------------------------------ the merged delta

  /** The built-in merges as one delta: claimed vars and appended messages; removals and replacements are not merged. */
  function MergeDelta(preFork: Snapshot, rs: Results, lastWins: bool): Delta {
    var ranked := Ranked(rs, lastWins);
    Delta(map k | k in VarKeys(ranked) && Claim(preFork, ranked, k).Some? :: Claim(preFork, ranked, k).value,
          {},
          map c | c in ChannelKeys(rs, false) :: Added(rs, false, c),
          map[])
  }

  /** What an interrupted wave keeps. */
  function KeptDelta(rs: Results): Delta {
    Delta(map[], {}, map c | c in ChannelKeys(rs, true) :: Added(rs, true, c), map[])
  }

  /** One var after a merge: the winning branch's value, or what was there. */
  lemma MergedVar(v: Snapshot, preFork: Snapshot, rs: Results, lastWins: bool, k: Name)
    ensures var won := Claim(preFork, Ranked(rs, lastWins), k);
            Lookup(Replay(v, MergeDelta(preFork, rs, lastWins)).vars, k) == if won.Some? then won else Lookup(v.vars, k)
  {
    if Claim(preFork, Ranked(rs, lastWins), k).Some? {
      ClaimOnlyKeys(preFork, Ranked(rs, lastWins), k);
    }
    hide Claim, VarKeys, ChannelKeys, Added, Appended, Replaced, Ranked;
    var d := MergeDelta(preFork, rs, lastWins);
    assert Replay(v, d).vars == v.vars - {} + d.vars;
  }

  /** The winner of a var is the first result of the ranking that claims it. */
  lemma {:induction false} ClaimIsFirst(preFork: Snapshot, rs: Results, k: Name, i: nat)
    requires i <= |rs| && (forall j :: 0 <= j < i ==> !Claims(preFork, rs[j], k)) && (i < |rs| ==> Claims(preFork, rs[i], k))
    ensures Claim(preFork, rs, k) == if i < |rs| then Some(rs[i].delta.vars[k]) else None
    decreases |rs|
  {
    if rs != [] {
      var n := |rs| - 1;
      assert forall j :: 0 <= j < n ==> rs[..n][j] == rs[j];
      if i <= n {
        ClaimIsFirst(preFork, rs[..n], k, i);
      } else {
        ClaimIsFirst(preFork, rs[..n], k, n);
      }
    }
  }

  lemma {:induction false} BackwardAt(rs: Results, i: nat)
    requires i < |rs|
    ensures |Backward(rs)| == |rs| && Backward(rs)[i] == rs[|rs| - 1 - i]
    decreases |rs|
  {
    if |rs| > 1 {
      BackwardAt(rs[..|rs| - 1], if i > 0 then i - 1 else 0);
    }
  }

  /** Last write wins: the winner is the last branch of the wave that claims the var. */
  lemma ClaimBackwardIsLast(preFork: Snapshot, rs: Results, k: Name, i: nat)
    requires i < |rs| && Claims(preFork, rs[i], k) && (forall j :: i < j < |rs| ==> !Claims(preFork, rs[j], k))
    ensures Claim(preFork, Backward(rs), k) == Some(rs[i].delta.vars[k])
  {
    forall j | 0 <= j < |rs|
      ensures |Backward(rs)| == |rs| && Backward(rs)[j] == rs[|rs| - 1 - j]
    {
      BackwardAt(rs, j);
    }
    BackwardAt(rs, i);
    ClaimIsFirst(preFork, Backward(rs), k, |rs| - 1 - i);
  }

  /** One channel after a merge or an interrupt: what was there, then what the branches add in wave order. */
  lemma MergedChannel(v: Snapshot, preFork: Snapshot, rs: Results, lastWins: bool, c: Name)
    ensures Msgs(Replay(v, MergeDelta(preFork, rs, lastWins)).channels, c) == Msgs(v.channels, c) + Added(rs, false, c)
    ensures Msgs(Replay(v, KeptDelta(rs)).channels, c) == Msgs(v.channels, c) + Added(rs, true, c)
  {
    ReplayedMsgs(v, MergeDelta(preFork, rs, lastWins), c);
    ReplayedMsgs(v, KeptDelta(rs), c);
    if c !in ChannelKeys(rs, false) { AddedOnlyToKeys(rs, false, c); }
    if c !in ChannelKeys(rs, true) { AddedOnlyToKeys(rs, true, c); }
    hide Replay, ChannelKeys, Added, VarKeys, Claim;
  }

  // ------------------------------------------------- merging into the board

  /** The var writes of one branch, as far as the keys in `done`. */
  function VarNow(preFork: Snapshot, r: BranchResult, claimed: set<Name>, done: set<Name>, was: Option<Value>, k: Name): Option<Value> {
    if k in done && k !in claimed && Claims(preFork, r, k) then Some(r.delta.vars[k]) else was
  }

  /** One write to the shared board, seen from before the merge. */
  method WriteVar(board: Board, k: Name, v: Value, ghost s0: State)
    requires Follows(s0, board.Contents())
    modifies board
    ensures board.vars == old(board.vars)[k := v] && board.channels == old(board.channels)
    ensures Follows(s0, board.Contents())
  {
    hide Follows, WellStamped;
    ghost var s := board.Contents();
    board.SetVar(k, v);
    StepIsFollowed(s0, s, SetVar(k, v), board.Contents());
    assert Snap(board.Contents()) == Effect(Snap(s), SetVar(k, v));
  }

  lemma StepIsFollowed(s0: State, s: State, op: Op, t: State)
    requires Follows(s0, s) && Step(s, op, t) && !op.Restore?
    ensures Follows(s0, t)
  {
    hide Step;
    assert WellStamped(s);
    hide Follows;
    StepFollows(s, op, t);
    FollowsTransitive(s0, s, t);
  }

  method MergeBranchVars(board: Board, preFork: Snapshot, r: BranchResult, claimed: set<Name>, ghost s0: State) returns (now: set<Name>)
    requires Follows(s0, board.Contents())
    modifies board
    ensures board.channels == old(board.channels) && Follows(s0, board.Contents())
    ensures forall k :: Lookup(board.vars, k) == if k !in claimed && Claims(preFork, r, k) then Some(r.delta.vars[k]) else old(Lookup(board.vars, k))
    ensures forall k :: k in now <==> k in claimed || Claims(preFork, r, k)
  {
    hide Follows;
    now := claimed;
    if !r.Wrote? {
      return;
    }
    var done: set<Name> := {};
    while done != r.delta.vars.Keys
      invariant done <= r.delta.vars.Keys && board.channels == old(board.channels) && Follows(s0, board.Contents())
      invariant forall k :: Lookup(board.vars, k) == VarNow(preFork, r, claimed, done, old(Lookup(board.vars, k)), k)
      invariant forall k :: k in now <==> k in claimed || (k in done && Claims(preFork, r, k))
      decreases r.delta.vars.Keys - done
    {
      var k :| k in r.delta.vars && k !in done;
      done := done + {k};
      if k in now {
        continue;
      }
      if k in preFork.vars && preFork.vars[k] == r.delta.vars[k] {
        continue;
      }
      WriteVar(board, k, r.delta.vars[k], s0);
      now := now + {k};
    }
  }

  /** The loop over the results, each var going to the first that claims it. */
  method MergeVars(board: Board, preFork: Snapshot, ranked: Results, ghost s0: State)
    requires Follows(s0, board.Contents())
    modifies board
    ensures board.channels == old(board.channels) && Follows(s0, board.Contents())
    ensures forall k :: Lookup(board.vars, k) == if Claim(preFork, ranked, k).Some? then Claim(preFork, ranked, k) else old(Lookup(board.vars, k))
  {
    hide Follows, Lookup;
    var claimed: set<Name> := {};
    for i := 0 to |ranked|
      invariant board.channels == old(board.channels) && Follows(s0, board.Contents())
      invariant forall k :: k in claimed <==> Claim(preFork, ranked[..i], k).Some?
      invariant forall k :: Lookup(board.vars, k) == (if Claim(preFork, ranked[..i], k).Some? then Claim(preFork, ranked[..i], k) else old(Lookup(board.vars, k)))
    {
      forall k ensures Claim(preFork, ranked[..i + 1], k) ==
        (var before := Claim(preFork, ranked[..i], k);
         if before.Some? then before else if Claims(preFork, ranked[i], k) then Some(ranked[i].delta.vars[k]) else None)
      {
        assert ranked[..i + 1][..i] == ranked[..i];
      }
      hide Claim, Claims;
      claimed := MergeBranchVars(board, preFork, ranked[i], claimed, s0);
    }
    assert ranked[..|ranked|] == ranked;
  }

  /** One channel got these messages at its end; the others are untouched. */
  ghost predicate Grew(before: Channels, after: Channels, c: Name, added: seq<Message>) {
    forall n :: Msgs(after, n) == Msgs(before, n) + if n == c then added else []
  }

  lemma GrewThen(a: Channels, b: Channels, d: Channels, c: Name, x: seq<Message>, y: seq<Message>)
    requires Grew(a, b, c, x) && Grew(b, d, c, y)
    ensures Grew(a, d, c, x + y)
  {
    hide Msgs;
    forall n ensures Msgs(d, n) == Msgs(a, n) + if n == c then x + y else [] {
      assert Msgs(b, n) == Msgs(a, n) + if n == c then x else [];
    }
  }

  lemma GrewNothing(a: Channels, c: Name)
    ensures Grew(a, a, c, [])
  {
    hide Msgs;
  }

  method WriteMessage(board: Board, c: Name, m: Message, ghost s0: State)
    requires Follows(s0, board.Contents())
    modifies board
    ensures board.vars == old(board.vars) && Follows(s0, board.Contents())
    ensures Grew(old(board.channels), board.channels, c, [m])
  {
    hide Follows, WellStamped;
    ghost var s := board.Contents();
    board.AppendChannelMessages(c, [m]);
    StepIsFollowed(s0, s, Append(c, [m]), board.Contents());
    assert Snap(board.Contents()) == Effect(Snap(s), Append(c, [m]));
  }

  /** Which of a branch's messages stay: all of them, or after an interrupt an assistant's. */
  function Filtered(ms: seq<Message>, interrupted: bool): seq<Message> {
    if interrupted then Assistants(ms) else ms
  }

  lemma FilteredOne(ms: seq<Message>, interrupted: bool, i: nat)
    requires i < |ms|
    ensures Filtered(ms[..i + 1], interrupted) == Filtered(ms[..i], interrupted) + if interrupted && !ms[i].assistant then [] else [ms[i]]
  {
    assert ms[..i + 1][..i] == ms[..i] && ms[..i + 1] == ms[..i] + [ms[i]];
  }

  /** The messages of one channel of one branch, one by one. */
  method AppendKept(board: Board, c: Name, ms: seq<Message>, interrupted: bool, ghost s0: State)
    requires Follows(s0, board.Contents())
    modifies board
    ensures board.vars == old(board.vars) && Follows(s0, board.Contents())
    ensures Grew(old(board.channels), board.channels, c, Filtered(ms, interrupted))
  {
    GrewNothing(board.channels, c);
    assert Filtered(ms[..0], interrupted) == [];
    hide Follows, Grew, Filtered;
    for i := 0 to |ms|
      invariant board.vars == old(board.vars) && Follows(s0, board.Contents())
      invariant Grew(old(board.channels), board.channels, c, Filtered(ms[..i], interrupted))
    {
      FilteredOne(ms, interrupted, i);
      if interrupted && !ms[i].assistant {
        assert Filtered(ms[..i], interrupted) + [] == Filtered(ms[..i], interrupted);
        continue;
      }
      ghost var mid := board.channels;
      WriteMessage(board, c, ms[i], s0);
      GrewThen(old(board.channels), mid, board.channels, c, Filtered(ms[..i], interrupted), [ms[i]]);
    }
    assert ms[..|ms|] == ms;
  }

  /** What a branch adds, as far as the channels in `done`. */
  ghost predicate GrewBy(before: Channels, after: Channels, r: BranchResult, interrupted: bool, done: set<Name>) {
    forall c :: Msgs(after, c) == Msgs(before, c) + if c in done then Given(r, interrupted, c) else []
  }

  lemma GrewByNone(before: Channels, r: BranchResult, interrupted: bool)
    ensures GrewBy(before, before, r, interrupted, {})
  {
    hide Msgs, Given;
  }

  lemma GrewByOne(a: Channels, b: Channels, d: Channels, r: BranchResult, interrupted: bool, done: set<Name>, c: Name)
    requires GrewBy(a, b, r, interrupted, done) && c !in done && Grew(b, d, c, Given(r, interrupted, c))
    ensures GrewBy(a, d, r, interrupted, done + {c})
  {
    hide Msgs, Given;
    forall n ensures Msgs(d, n) == Msgs(a, n) + if n in done + {c} then Given(r, interrupted, n) else [] {
      assert Msgs(d, n) == Msgs(b, n) + if n == c then Given(r, interrupted, c) else [];
    }
  }

  lemma GivenIsFiltered(r: BranchResult, interrupted: bool, c: Name)
    ensures var appends := AppendsOf(r, interrupted);
            Given(r, interrupted, c) == if c in appends then Filtered(appends[c], interrupted) else []
  {
    assert Assistants([]) == [];
  }

  lemma GrewByAll(a: Channels, b: Channels, r: BranchResult, interrupted: bool)
    requires GrewBy(a, b, r, interrupted, AppendsOf(r, interrupted).Keys)
    ensures forall c :: Msgs(b, c) == Msgs(a, c) + Given(r, interrupted, c)
  {
    hide Msgs, Given, AppendsOf, Filtered;
    forall c ensures Msgs(b, c) == Msgs(a, c) + Given(r, interrupted, c) { GivenIsFiltered(r, interrupted, c); }
  }

  method AppendBranch(board: Board, r: BranchResult, interrupted: bool, ghost s0: State)
    requires Follows(s0, board.Contents())
    modifies board
    ensures board.vars == old(board.vars) && Follows(s0, board.Contents())
    ensures forall c :: Msgs(board.channels, c) == old(Msgs(board.channels, c)) + Given(r, interrupted, c)
  {
    hide Follows, Given, AppendsOf, Filtered, Msgs, Grew, GrewBy;
    var appends := AppendsOf(r, interrupted);
    GrewByNone(board.channels, r, interrupted);
    var done: set<Name> := {};
    while done != appends.Keys
      invariant done <= appends.Keys && board.vars == old(board.vars) && Follows(s0, board.Contents())
      invariant GrewBy(old(board.channels), board.channels, r, interrupted, done)
      decreases appends.Keys - done
    {
      var c :| c in appends && c !in done;
      ghost var mid := board.channels;
      AppendKept(board, c, appends[c], interrupted, s0);
      GivenIsFiltered(r, interrupted, c);
      GrewByOne(old(board.channels), mid, board.channels, r, interrupted, done, c);
      done := done + {c};
    }
    GrewByAll(old(board.channels), board.channels, r, interrupted);
  }

  method AppendAll(board: Board, rs: Results, interrupted: bool, ghost s0: State)
    requires Follows(s0, board.Contents())
    modifies board
    ensures board.vars == old(board.vars) && Follows(s0, board.Contents())
    ensures forall c :: Msgs(board.channels, c) == old(Msgs(board.channels, c)) + Added(rs, interrupted, c)
  {
    hide Follows, Given, Msgs;
    for i := 0 to |rs|
      invariant board.vars == old(board.vars) && Follows(s0, board.Contents())
      invariant forall c :: Msgs(board.channels, c) == old(Msgs(board.channels, c)) + Added(rs[..i], interrupted, c)
    {
      forall c ensures Added(rs[..i + 1], interrupted, c) == Added(rs[..i], interrupted, c) + Given(rs[i], interrupted, c) {
        assert rs[..i + 1][..i] == rs[..i];
      }
      ghost var mid := board.channels;
      hide Added;
      AppendBranch(board, rs[i], interrupted, s0);
      forall c ensures Msgs(board.channels, c) == old(Msgs(board.channels, c)) + Added(rs[..i + 1], interrupted, c) {
        assert Msgs(board.channels, c) == Msgs(mid, c) + Given(rs[i], interrupted, c);
      }
    }
    assert rs[..|rs|] == rs;
  }

  // ------------------------------------------------------ ending the wave

  function AnyFailed(rs: Results, n: nat): (r: bool)
    requires n <= |rs|
    ensures r <==> exists i :: 0 <= i < n && rs[i].Errored?
  {
    n > 0 && (rs[n - 1].Errored? || AnyFailed(rs, n - 1))
  }

  function AnyInterrupted(rs: Results, n: nat): (r: bool)
    requires n <= |rs|
    ensures r <==> exists i :: 0 <= i < n && rs[i].Errored? && rs[i].interrupted
  {
    n > 0 && ((rs[n - 1].Errored? && rs[n - 1].interrupted) || AnyInterrupted(rs, n - 1))
  }

  /** The wave's error: an interrupt of the run or of a branch, else any failed branch. */
  function ErrorOf(rs: Results, interrupt: bool): (err: Option<Failure>)
    ensures err.None? <==> !interrupt && forall i :: 0 <= i < |rs| ==> !rs[i].Errored?
    ensures err == Some(Interrupt) <==> interrupt || exists i :: 0 <= i < |rs| && rs[i].Errored? && rs[i].interrupted
  {
    if interrupt || AnyInterrupted(rs, |rs|) then Some(Interrupt)
    else if AnyFailed(rs, |rs|) then Some(Terminal)
    else None
  }

  /** The two loops that pick the wave's error. */
  method FindWaveError(rs: Results, interrupt: bool) returns (err: Option<Failure>)
    ensures err == ErrorOf(rs, interrupt)
  {
    err := if interrupt then Some(Interrupt) else None;
    for i := 0 to |rs|
      invariant err == if interrupt || AnyInterrupted(rs, i) then Some(Interrupt) else None
    {
      if err.None? && rs[i].Errored? && rs[i].interrupted {
        err := Some(Interrupt);
      }
    }
    if err.None? {
      for i := 0 to |rs|
        invariant err.None? && !AnyFailed(rs, i)
      {
        if rs[i].Errored? {
          err := Some(Terminal);
          break;
        }
      }
    }
  }

  /** The built-in strategies, or a function of the pre-fork contents and the results that says how it ended and what it wrote. */
  datatype Strategy = FirstWriteWins | LastWriteWins | Custom(f: (Snapshot, Results) -> (bool, seq<Op>))

  /** The first interrupted branch, or the first of the wave when the run itself was interrupted. */
  function InterruptedNode(ids: seq<NodeId>, rs: Results): NodeId
    requires |ids| == |rs| > 0
  {
    InterruptedFrom(ids, rs, 0)
  }

  function InterruptedFrom(ids: seq<NodeId>, rs: Results, i: nat): NodeId
    requires |ids| == |rs| > 0 && i <= |rs|
    decreases |rs| - i
  {
    if i == |rs| then ids[0] else if rs[i].Errored? && rs[i].interrupted then ids[i] else InterruptedFrom(ids, rs, i + 1)
  }

  /** The node named after an interrupt: the first interrupted branch in wave order, or the first of the wave when none is. */
  lemma {:induction false} InterruptedNodeIsFirst(ids: seq<NodeId>, rs: Results, i: nat)
    requires |ids| == |rs| > 0 && i <= |rs|
    requires forall k :: 0 <= k < i ==> !(rs[k].Errored? && rs[k].interrupted)
    requires i < |rs| ==> rs[i].Errored? && rs[i].interrupted
    ensures InterruptedNode(ids, rs) == if i < |rs| then ids[i] else ids[0]
  {
    for k := i downto 0
      invariant InterruptedFrom(ids, rs, k) == if i < |rs| then ids[i] else ids[0]
    {
    }
  }

  /**
   Everything a wave does to the shared board, as the engine's run assumes it: a batch of
   writes that depends on nothing but the pre-fork contents and the branches' results.
   */
  function JoinWrites(how: Strategy, ids: seq<NodeId>, preFork: Snapshot, rs: Results, interrupt: bool): Merge
    requires |ids| == |rs| > 0
  {
    match ErrorOf(rs, interrupt)
    case Some(Interrupt) => Merge.Failed(Interrupt, [Apply(KeptDelta(rs)), SetVar(VAR_INTERRUPTED, Atom(InterruptedNode(ids, rs)))])
    case Some(err) => Merge.Failed(err, [])
    case None =>
      match how
      case FirstWriteWins => Merge.Merge([Apply(MergeDelta(preFork, rs, false))])
      case LastWriteWins => Merge.Merge([Apply(MergeDelta(preFork, rs, true))])
      case Custom(f) => if f(preFork, rs).0 then Merge.Merge(f(preFork, rs).1) else Merge.Failed(Terminal, f(preFork, rs).1)
  }

  /** Custom merges write the board through its operations. */
  ghost predicate WritesOnly(how: Strategy) {
    how.Custom? ==> forall v, rs, op :: op in how.f(v, rs).1 ==> !op.Restore?
  }

  lemma JoinNeverRestores(how: Strategy, ids: seq<NodeId>, preFork: Snapshot, rs: Results, interrupt: bool)
    requires |ids| == |rs| > 0 && WritesOnly(how)
    ensures forall op :: op in JoinWrites(how, ids, preFork, rs, interrupt).ops ==> !op.Restore?
  {
    hide KeptDelta, MergeDelta, InterruptedNode, ErrorOf;
  }

  /** The shared board holds these contents, up to absent and empty channels. */
  ghost predicate Holds(board: Board, v: Snapshot)
    reads board
  {
    Same(Snap(board.Contents()), v)
  }

  lemma HoldsIf(s: State, v: Snapshot)
    requires forall k :: Lookup(s.vars, k) == Lookup(v.vars, k)
    requires forall c :: Msgs(s.channels, c) == Msgs(v.channels, c)
    ensures Same(Snap(s), v)
  {
    forall k
      ensures k in s.vars <==> k in v.vars
      ensures k in s.vars ==> s.vars[k] == v.vars[k]
    {
      assert Lookup(s.vars, k) == Lookup(v.vars, k);
    }
  }

  method MergeBuiltIn(board: Board, rs: Results, lastWins: bool)
    requires WellStamped(board.Contents())
    modifies board
    ensures var pre := old(Snap(board.Contents())); Holds(board, Replay(pre, MergeDelta(pre, rs, lastWins)))
    ensures Follows(old(board.Contents()), board.Contents())
  {
    ghost var s0 := board.Contents();
    FollowsReflexive(s0);
    hide Follows, WellStamped, Claim, Added, Replay, MergeDelta, Lookup, Msgs;
    var preFork := board.Snapshot();
    var ranked := Ranked(rs, lastWins);
    MergeVars(board, preFork, ranked, s0);
    AppendAll(board, rs, false, s0);
    ghost var v := Replay(Snap(s0), MergeDelta(Snap(s0), rs, lastWins));
    forall k ensures Lookup(board.vars, k) == Lookup(v.vars, k) { MergedVar(Snap(s0), preFork, rs, lastWins, k); }
    forall c ensures Msgs(board.channels, c) == Msgs(v.channels, c) { MergedChannel(Snap(s0), preFork, rs, lastWins, c); }
    HoldsIf(board.Contents(), v);
  }

  method KeepInterrupted(board: Board, ids: seq<NodeId>, rs: Results)
    requires WellStamped(board.Contents()) && |ids| == |rs| > 0
    modifies board
    ensures var pre := old(Snap(board.Contents()));
            Holds(board, Effect(Replay(pre, KeptDelta(rs)), SetVar(VAR_INTERRUPTED, Atom(InterruptedNode(ids, rs)))))
    ensures Follows(old(board.Contents()), board.Contents())
  {
    ghost var s0 := board.Contents();
    FollowsReflexive(s0);
    hide Follows, WellStamped, Added, Replay, Msgs, InterruptedNode;
    AppendAll(board, rs, true, s0);
    var node := FindInterrupted(ids, rs);
    ghost var mid := board.vars;
    WriteVar(board, VAR_INTERRUPTED, Atom(node), s0);
    ghost var kept := Replay(Snap(s0), KeptDelta(rs));
    KeptVars(Snap(s0), rs);
    ghost var v := Effect(kept, SetVar(VAR_INTERRUPTED, Atom(node)));
    forall c ensures Msgs(board.channels, c) == Msgs(v.channels, c) { MergedChannel(Snap(s0), Snap(s0), rs, false, c); }
    HoldsIf(board.Contents(), v);
  }

  lemma KeptVars(v: Snapshot, rs: Results)
    ensures Replay(v, KeptDelta(rs)).vars == v.vars
  {
    hide Added, ChannelKeys;
  }

  method FindInterrupted(ids: seq<NodeId>, rs: Results) returns (node: NodeId)
    requires |ids| == |rs| > 0
    ensures node == InterruptedNode(ids, rs)
  {
    node := ids[0];
    for i := 0 to |rs|
      invariant InterruptedNode(ids, rs) == InterruptedFrom(ids, rs, i) && node == ids[0]
    {
      if rs[i].Errored? && rs[i].interrupted {
        return ids[i];
      }
    }
  }

  /** The end of a parallel wave on the shared board, untouched since the fork: the loops write exactly the modelled batch. */
  method JoinOn(board: Board, how: Strategy, ids: seq<NodeId>, rs: Results, interrupt: bool) returns (err: Option<Failure>)
    requires WellStamped(board.Contents()) && |ids| == |rs| > 0 && WritesOnly(how)
    modifies board
    ensures var pre := old(Snap(board.Contents()));
            var join := JoinWrites(how, ids, pre, rs, interrupt);
            && Holds(board, Effects(pre, join.ops)) && (err == if join.Merge? then None else Some(join.err))
    ensures Follows(old(board.Contents()), board.Contents())
  {
    ghost var s0 := board.Contents();
    ghost var pre := Snap(s0);
    hide Follows, WellStamped, Effect, ErrorOf, KeptDelta, MergeDelta, InterruptedNode, WritesOnly;
    FollowsReflexive(s0);
    TwoEffects(pre, Apply(KeptDelta(rs)), SetVar(VAR_INTERRUPTED, Atom(InterruptedNode(ids, rs))));
    OneEffect(pre, Apply(MergeDelta(pre, rs, false)));
    OneEffect(pre, Apply(MergeDelta(pre, rs, true)));
    SameSelf(pre);
    JoinNeverRestores(how, ids, pre, rs, interrupt);
    hide Effects, Same;
    AppliedDelta(pre, KeptDelta(rs));
    AppliedDelta(pre, MergeDelta(pre, rs, false));
    AppliedDelta(pre, MergeDelta(pre, rs, true));
    hide Replay;
    err := FindWaveError(rs, interrupt);
    if err == Some(Interrupt) {
      KeepInterrupted(board, ids, rs);
      return;
    }
    if err.Some? {
      NoEffects(pre);
      return;
    }
    match how {
      case FirstWriteWins => MergeBuiltIn(board, rs, false);
      case LastWriteWins => MergeBuiltIn(board, rs, true);
      case Custom(f) =>
        var snap := board.Snapshot();
        var (ok, ops) := f(snap, rs);
        WaveExecution.ApplyOps(board, ops);
        SameSelf(Snap(board.Contents()));
        err := if ok then None else Some(Terminal);
    }
  }

  lemma SameSelf(v: Snapshot)
    ensures Same(v, v)
  {
  }

  lemma NoEffects(v: Snapshot)
    ensures Effects(v, []) == v
  {
  }

  lemma OneEffect(v: Snapshot, op: Op)
    ensures Effects(v, [op]) == Effect(v, op)
  {
    assert [op][1..] == [];
  }

  lemma TwoEffects(v: Snapshot, a: Op, b: Op)
    ensures Effects(v, [a, b]) == Effect(Effect(v, a), b)
  {
    assert [a, b][1..] == [b];
    OneEffect(Effect(v, a), b);
  }

  lemma AppliedDelta(v: Snapshot, d: Delta)
    ensures Effect(v, Apply(d)) == Replay(v, d)
  {
  }

  // ------------------------------------------ what a branch's writes become

  /** The slot of a branch that started on board s0 and ended on board s. */
  function BranchWrote(s0: State, s: State): BranchResult {
    Wrote(Since(s, MarkOf(s0)), Snap(s))
  }

  /** A branch claims a var exactly when its board ends with a value that was not there before the fork; a deleted var is never claimed. */
  lemma BranchClaimsIff(preFork: Snapshot, s0: State, s: State, k: Name)
    requires Tracks(s0, s) && s0.vars == preFork.vars
    ensures Claims(preFork, BranchWrote(s0, s), k) <==> k in s.vars && Lookup(s.vars, k) != Lookup(preFork.vars, k)
    ensures Claims(preFork, BranchWrote(s0, s), k) ==> BranchWrote(s0, s).delta.vars[k] == s.vars[k]
  {
    if StampOf(s.varSeq, k) <= s0.clock {
      assert Lookup(s0.vars, k) == Lookup(s.vars, k);
    }
  }

  /**
   A branch's messages on a channel arrive, so that what was there before the fork plus
   what it gives is what its own board shows, if and only if the channel carries no stamp
   since the fork or did not change.
   */
  lemma BranchMessagesArriveIff(s0: State, s: State, c: Name)
    requires Follows(s0, s)
    ensures Msgs(s0.channels, c) + Given(BranchWrote(s0, s), false, c) == Msgs(s.channels, c) <==>
            StampOf(s.chanSeq, c) <= s0.clock || Msgs(s.channels, c) == Msgs(s0.channels, c)
  {
    hide Follows, BranchWrote;
    if StampOf(s.chanSeq, c) <= s0.clock {
      UnstampedIsGiven(s0, s, c);
    } else {
      StampedGivesNothing(s0, s, c);
      assert Msgs(s0.channels, c) + [] == Msgs(s0.channels, c);
    }
  }

  lemma UnstampedIsGiven(s0: State, s: State, c: Name)
    requires Follows(s0, s) && StampOf(s.chanSeq, c) <= s0.clock
    ensures Msgs(s0.channels, c) + Given(BranchWrote(s0, s), false, c) == Msgs(s.channels, c)
  {
    var before, now := Msgs(s0.channels, c), Msgs(s.channels, c);
    assert before <= now;
    hide Follows;
    assert now == before + now[|before|..];
  }

  lemma StampedGivesNothing(s0: State, s: State, c: Name)
    requires StampOf(s.chanSeq, c) > s0.clock
    ensures Given(BranchWrote(s0, s), false, c) == []
  {
  }

  /**
   A node that was retried inside its branch: the rollback stamped every channel there was
   before the fork, so what the successful attempt then says on one of them arrives if and
   only if it changes nothing.
   */
  lemma RetriedBranchArrivesIff(s0: State, tried: State, rolledBack: State, s: State, c: Name)
    requires Follows(s0, tried) && Step(tried, Restore(Snap(s0)), rolledBack) && Follows(rolledBack, s) && c in s0.channels
    ensures Given(BranchWrote(s0, s), false, c) == []
    ensures Msgs(s0.channels, c) + Given(BranchWrote(s0, s), false, c) == Msgs(s.channels, c) <==> Msgs(s.channels, c) == Msgs(s0.channels, c)
  {
    hide Follows, Step, Tracks;
    RollbackStamps(s0, tried, rolledBack, s, c);
    hide BranchWrote, Given;
    StampedGivesNothing(s0, s, c);
    assert Msgs(s0.channels, c) + [] == Msgs(s0.channels, c);
  }

  lemma RollbackStamps(s0: State, tried: State, rolledBack: State, s: State, c: Name)
    requires Follows(s0, tried) && Step(tried, Restore(Snap(s0)), rolledBack) && Follows(rolledBack, s) && c in s0.channels
    ensures StampOf(s.chanSeq, c) > s0.clock
  {
    assert c in RestoredChannels(Snap(s0));
    assert StampOf(rolledBack.chanSeq, c) <= StampOf(s.chanSeq, c);
  }

  /** A board rolled back to its own snapshot: the same contents, every key stamped once more. */
  function RolledBack(s: State): State {
    State(s.vars, s.channels, s.clock + 1,
          s.varSeq + Uniform(s.vars.Keys, s.clock + 1), s.chanSeq + Uniform(s.channels.Keys, s.clock + 1))
  }

  lemma RestoredSelf(s: State, c: Name)
    requires c in s.channels
    ensures RestoredChannels(Snap(s)) == s.channels
  {
  }

  lemma RollsBackToItself(s: State, c: Name)
    requires c in s.channels
    ensures Step(s, Restore(Snap(s)), RolledBack(s))
  {
    hide Bumped, Uniform, RestoredChannels;
    var op := Restore(Snap(s));
    RestoredSelf(s, c);
    assert s.vars.Keys + s.vars.Keys == s.vars.Keys;
    BumpAll(s.varSeq, s.vars.Keys, s.clock);
    BumpAll(s.chanSeq, s.channels.Keys, s.clock);
    assert c in TouchedVars(Snap(s), op) + TouchedChannels(Snap(s), op);
  }

  /**
   The loss is real on every board: one retry, whose first attempt wrote nothing, and then
   one message appended to a channel that was there before the fork. The branch's own board
   shows the message and the merge does not get it.
   */
  lemma RetriedMessageIsLost(s0: State, c: Name, m: Message) returns (s: State)
    requires WellStamped(s0) && c in s0.channels
    ensures Step(RolledBack(s0), Append(c, [m]), s) && Follows(s0, s)
    ensures Msgs(s.channels, c) == Msgs(s0.channels, c) + [m] && Given(BranchWrote(s0, s), false, c) == []
  {
    hide Given, BranchWrote;
    var back := RolledBack(s0);
    s := back.(channels := back.channels[c := Msgs(back.channels, c) + [m]]);
    RollsBackToItself(s0, c);
    AppendStep(back, c, m, s);
    hide Step, RolledBack, WellStamped, Tracks;
    FollowsReflexive(s0);
    TracksReflexive(s0);
    RollbackFollows(s0, s0, s0, back);
    FollowsTracks(s0, back);
    StepFollows(back, Append(c, [m]), s);
    FollowsTransitive(s0, back, s);
    RetriedBranchArrivesIff(s0, s0, back, s, c);
  }

  lemma AppendStep(s: State, c: Name, m: Message, t: State)
    requires t == s.(channels := s.channels[c := Msgs(s.channels, c) + [m]])
    ensures Step(s, Append(c, [m]), t)
  {
  }
}
