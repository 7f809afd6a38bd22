/**
 Deltas against full copies: when replaying `Since(mark)` on the marked
 contents gives the current contents, over every run of board operations.
 */
module BoardHistory {
  import opened BoardModel

  /** The delta a board reports since `s0`, replayed on `s0`, is the board. */
  ghost predicate Exact(s0: State, s: State) {
    Same(Replay(Snap(s0), Since(s, MarkOf(s0))), Snap(s))
  }

  /** The part of the history every run keeps: stamps only grow, and an unstamped var is untouched. */
  ghost predicate Tracks(s0: State, s: State) {
    && WellStamped(s)
    && s0.clock <= s.clock
    && (forall k :: StampOf(s0.varSeq, k) <= StampOf(s.varSeq, k))
    && (forall c :: StampOf(s0.chanSeq, c) <= StampOf(s.chanSeq, c))
    && (forall k :: StampOf(s.varSeq, k) <= s0.clock ==> Lookup(s0.vars, k) == Lookup(s.vars, k))
  }

  /** A channel the mark knows, the board has, and no stamp explains: reported by length alone. */
  predicate ByLength(s0: State, s: State, c: Name) {
    c in s0.channels && c in s.channels && StampOf(s.chanSeq, c) <= s0.clock
  }

  /** Every channel reported by length alone really is an extension of what was marked. */
  ghost predicate Continues(s0: State, s: State) {
    forall c :: ByLength(s0, s, c) ==> s0.channels[c] <= s.channels[c]
  }

  lemma TracksReflexive(s: State)
    requires WellStamped(s)
    ensures Tracks(s, s)
  {
  }

  /** One var across one step: stamped past the old counter, or left alone. */
  lemma StepVar(s: State, op: Op, t: State, k: Name)
    requires Step(s, op, t)
    ensures StampOf(t.varSeq, k) > s.clock
            || (StampOf(t.varSeq, k) == StampOf(s.varSeq, k) && Lookup(t.vars, k) == Lookup(s.vars, k))
  {
    if k !in TouchedVars(Snap(s), op) {
      assert t.vars == Effect(Snap(s), op).vars;
      assert k in t.vars <==> k in s.vars;
      assert k in t.vars ==> t.vars[k] == s.vars[k];
    }
  }

  lemma ReplayKeepsChannel(a: Snapshot, d: Delta, c: Name)
    requires c !in d.replaced
    ensures (c in a.channels ==> c in Replay(a, d).channels) && Msgs(a.channels, c) <= Msgs(Replay(a, d).channels, c)
  {
    ReplayedMsgs(a, d, c);
    assert c in a.channels ==> c in Replaced(a.channels, d.replaced);
  }

  /** What an operation does to the contents of a channel it does not stamp. */
  lemma EffectOnUntouched(a: Snapshot, op: Op, c: Name)
    requires c !in TouchedChannels(a, op)
    ensures var b := Effect(a, op);
            if op.Restore? then c !in b.channels
            else (c in a.channels ==> c in b.channels) && Msgs(a.channels, c) <= Msgs(b.channels, c)
  {
    match op
    case Apply(d) => hide Replay; ReplayKeepsChannel(a, d, c);
    case _ =>
  }

  /** One channel across one step: stamped, dropped by a restore, or at most appended to. */
  lemma StepChannel(s: State, op: Op, t: State, c: Name)
    requires Step(s, op, t)
    ensures StampOf(t.chanSeq, c) > s.clock
            || (&& StampOf(t.chanSeq, c) == StampOf(s.chanSeq, c)
                && (if op.Restore? then c !in t.channels
                    else (c in s.channels ==> c in t.channels) && Msgs(s.channels, c) <= Msgs(t.channels, c)))
  {
    hide Effect, TouchedChannels, TouchedVars, Elapsed;
    if c !in TouchedChannels(Snap(s), op) {
      EffectOnUntouched(Snap(s), op, c);
    }
  }

  lemma StepTracks(s0: State, s: State, op: Op, t: State)
    requires Tracks(s0, s) && Step(s, op, t)
    ensures Tracks(s0, t)
  {
    StepKeepsWellStamped(s, op, t);
    forall k
      ensures StampOf(s0.varSeq, k) <= StampOf(t.varSeq, k)
      ensures StampOf(t.varSeq, k) <= s0.clock ==> Lookup(s0.vars, k) == Lookup(t.vars, k)
    {
      assert StampOf(s0.varSeq, k) <= StampOf(s.varSeq, k) <= s.clock;
      StepVar(s, op, t, k);
    }
    forall c
      ensures StampOf(s0.chanSeq, c) <= StampOf(t.chanSeq, c)
    {
      assert StampOf(s0.chanSeq, c) <= StampOf(s.chanSeq, c) <= s.clock;
      StepChannel(s, op, t, c);
    }
  }

  // ---------------------------------------------------------- one channel

  /** What the replayed delta leaves on one channel. */
  lemma ReplayedChannel(s0: State, s: State, c: Name)
    ensures var got := Msgs(Replay(Snap(s0), Since(s, MarkOf(s0))).channels, c);
            if ByLength(s0, s, c)
            then got == s0.channels[c] + (if |s.channels[c]| > |s0.channels[c]| then s.channels[c][|s0.channels[c]|..] else [])
            else got == Msgs(s.channels, c)
  {
    var d := Since(s, MarkOf(s0));
    ReplayedMsgs(Snap(s0), d, c);
    if c in s.channels && StampOf(s.chanSeq, c) <= s0.clock && c !in s0.channels {
      assert Msgs(d.appends, c) == s.channels[c];
    }
  }

  lemma ReplayedVars(s0: State, s: State)
    requires Tracks(s0, s)
    ensures Replay(Snap(s0), Since(s, MarkOf(s0))).vars == s.vars
  {
    var got := Replay(Snap(s0), Since(s, MarkOf(s0))).vars;
    forall k
      ensures k in got <==> k in s.vars
      ensures k in got ==> got[k] == s.vars[k]
    {
      if StampOf(s.varSeq, k) <= s0.clock {
        assert Lookup(s0.vars, k) == Lookup(s.vars, k);
      }
    }
  }

  /**
   The exact condition. `Since` decides by length only on a channel that is
   present on both sides and carries no stamp past the mark; the delta is right
   if and only if each such channel still starts with what was marked.
   */
  lemma DeltaExactIffContinues(s0: State, s: State)
    requires Tracks(s0, s)
    ensures Exact(s0, s) <==> Continues(s0, s)
  {
    hide Replay, Since, Tracks;
    var got := Replay(Snap(s0), Since(s, MarkOf(s0)));
    ReplayedVars(s0, s);
    if Exact(s0, s) {
      forall c | ByLength(s0, s, c)
        ensures s0.channels[c] <= s.channels[c]
      {
        ReplayedChannel(s0, s, c);
        assert Msgs(got.channels, c) == Msgs(s.channels, c);
      }
    }
    if Continues(s0, s) {
      forall c
        ensures Msgs(got.channels, c) == Msgs(s.channels, c)
      {
        ReplayedChannel(s0, s, c);
      }
    }
  }

  // ------------------------------------------------------------------ runs

  /** The i-th state becomes the next one by the i-th operation. */
  ghost predicate StepAt(states: seq<State>, ops: seq<Op>, i: int) {
    0 <= i < |ops| && i + 1 < |states| && Step(states[i], ops[i], states[i + 1])
  }

  /** A run: each state follows from the one before it by the operation between them. */
  ghost predicate Run(states: seq<State>, ops: seq<Op>) {
    && |states| == |ops| + 1
    && WellStamped(states[0])
    && forall i :: 0 <= i < |ops| ==> StepAt(states, ops, i)
  }

  /** Some restore of the run left the board without `c`. */
  ghost predicate DroppedByRestore(states: seq<State>, ops: seq<Op>, c: Name)
    requires |states| == |ops| + 1
  {
    exists i :: 0 <= i < |ops| && ops[i].Restore? && c !in states[i + 1].channels
  }

  lemma {:induction false} RunTracks(states: seq<State>, ops: seq<Op>, i: nat, n: nat)
    requires Run(states, ops) && i <= n <= |ops|
    ensures Tracks(states[i], states[n])
    decreases n, n - i
  {
    if n == 0 {
      TracksReflexive(states[0]);
    } else {
      RunTracks(states, ops, n - 1, n - 1);
      assert StepAt(states, ops, n - 1);
      StepKeepsWellStamped(states[n - 1], ops[n - 1], states[n]);
      if i == n {
        TracksReflexive(states[n]);
      } else {
        RunTracks(states, ops, i, n - 1);
        StepTracks(states[i], states[n - 1], ops[n - 1], states[n]);
      }
    }
  }

  lemma RunWellStamped(states: seq<State>, ops: seq<Op>, n: nat)
    requires Run(states, ops) && n <= |ops|
    ensures WellStamped(states[n])
  {
    RunTracks(states, ops, 0, n);
  }

  /** A marked channel that nothing stamps and no restore drops is only ever appended to. */
  lemma {:induction false} UndroppedChannelContinues(states: seq<State>, ops: seq<Op>, n: nat, c: Name)
    requires Run(states, ops) && n <= |ops| && c in states[0].channels
    requires forall i :: 0 <= i < n && ops[i].Restore? ==> c in states[i + 1].channels
    requires StampOf(states[n].chanSeq, c) <= states[0].clock
    ensures c in states[n].channels && states[0].channels[c] <= states[n].channels[c]
  {
    if n == 0 {
    } else {
      RunTracks(states, ops, 0, n - 1);
      var s, op, t := states[n - 1], ops[n - 1], states[n];
      assert StepAt(states, ops, n - 1);
      StepChannel(s, op, t, c);
      UndroppedChannelContinues(states, ops, n - 1, c);
    }
  }

  /**
   Delta exactness over runs. For every mark and every run of sets, deletes,
   slice appends, channel sets, appends, pops, applied deltas and restores, the
   delta is exact if and only if no marked channel that a restore dropped has
   come back, unstamped, with different leading messages.
   */
  lemma RunDeltaExactIff(states: seq<State>, ops: seq<Op>)
    requires Run(states, ops)
    ensures var s0, s := states[0], states[|ops|];
            Exact(s0, s) <==>
            (forall c :: ByLength(s0, s, c) && DroppedByRestore(states, ops, c) ==> s0.channels[c] <= s.channels[c])
  {
    var s0, s := states[0], states[|ops|];
    RunTracks(states, ops, 0, |ops|);
    DeltaExactIffContinues(s0, s);
    forall c | ByLength(s0, s, c) && !DroppedByRestore(states, ops, c)
      ensures s0.channels[c] <= s.channels[c]
    {
      UndroppedChannelContinues(states, ops, |ops|, c);
    }
  }

  const BARE := Snapshot(map[], map[MAIN_CHANNEL := []])

  function Holding(c: Name, m: Message): State {
    State(map[], map[MAIN_CHANNEL := [], c := [m]], 0, map[], map[])
  }

  const BARED := State(map[], map[MAIN_CHANNEL := []], 1, map[], map[MAIN_CHANNEL := 1])

  function Recreated(c: Name, m: Message): State {
    BARED.(channels := BARED.channels[c := [m]])
  }

  lemma DropStep(c: Name, m: Message)
    ensures WellStamped(Holding(c, m)) && Step(Holding(c, m), Restore(BARE), BARED)
  {
    assert RestoredChannels(BARE) == BARE.channels by {
      assert MAIN_CHANNEL in BARE.channels;
    }
  }

  lemma RecreateStep(c: Name, m: Message)
    requires c != MAIN_CHANNEL
    ensures Step(BARED, Append(c, [m]), Recreated(c, m))
  {
    assert Msgs(BARED.channels, c) + [m] == [m];
  }

  lemma RecreatedMisread(c: Name, before: Message, after: Message)
    requires c != MAIN_CHANNEL && before != after
    ensures Since(Recreated(c, after), MarkOf(Holding(c, before))).appends == map[]
    ensures !Continues(Holding(c, before), Recreated(c, after))
  {
    assert ByLength(Holding(c, before), Recreated(c, after), c);
    assert Holding(c, before).channels[c][0] != Recreated(c, after).channels[c][0];
  }

  /**
   The failing family: mark a channel holding one message, restore a snapshot
   without that channel, append a different message. The delta appends nothing
   and a replay keeps the old message, whatever the channel and the messages.
   */
  lemma RestoreThenAppendIsLost(c: Name, before: Message, after: Message) returns (states: seq<State>, ops: seq<Op>)
    requires c != MAIN_CHANNEL && before != after
    ensures Run(states, ops) && !Exact(states[0], states[|ops|])
    ensures states[0] == Holding(c, before) && ops == [Restore(BARE), Append(c, [after])]
    ensures Since(states[|ops|], MarkOf(states[0])).appends == map[]
  {
    hide *;
    states, ops := [Holding(c, before), BARED, Recreated(c, after)], [Restore(BARE), Append(c, [after])];
    DropStep(c, before);
    RecreateStep(c, after);
    RecreatedMisread(c, before, after);
    assert Run(states, ops) by {
      TwoSteps(states, ops);
    }
    RunTracks(states, ops, 0, 2);
    DeltaExactIffContinues(Holding(c, before), Recreated(c, after));
  }

  lemma TwoSteps(states: seq<State>, ops: seq<Op>)
    requires |states| == 3 && |ops| == 2 && WellStamped(states[0])
    requires Step(states[0], ops[0], states[1]) && Step(states[1], ops[1], states[2])
    ensures Run(states, ops)
  {
    hide Step, WellStamped;
    assert StepAt(states, ops, 0) && StepAt(states, ops, 1);
  }

  // ------------------------------------------- histories that never orphan

  /**
   `s` continues `s0` with nothing orphaned: a stronger `Tracks` in which an
   unstamped channel is still there and still starts with what it held.
   */
  ghost predicate Follows(s0: State, s: State) {
    && Tracks(s0, s)
    && (forall c :: StampOf(s.chanSeq, c) <= s0.clock && c in s0.channels ==> c in s.channels)
    && (forall c :: StampOf(s.chanSeq, c) <= s0.clock ==> Msgs(s0.channels, c) <= Msgs(s.channels, c))
  }

  lemma FollowsTracks(a: State, b: State)
    requires Follows(a, b)
    ensures Tracks(a, b) && WellStamped(b)
  {
  }

  lemma FollowsIsExact(s0: State, s: State)
    requires Follows(s0, s)
    ensures Exact(s0, s)
  {
    forall c | ByLength(s0, s, c)
      ensures s0.channels[c] <= s.channels[c]
    {
      assert Msgs(s0.channels, c) <= Msgs(s.channels, c);
    }
    DeltaExactIffContinues(s0, s);
  }

  lemma FollowsReflexive(s: State)
    requires WellStamped(s)
    ensures Follows(s, s)
  {
  }

  lemma FollowsTransitive(a: State, b: State, c: State)
    requires Follows(a, b) && Follows(b, c)
    ensures Follows(a, c)
  {
    forall k
      ensures StampOf(a.varSeq, k) <= StampOf(c.varSeq, k)
      ensures StampOf(c.varSeq, k) <= a.clock ==> Lookup(a.vars, k) == Lookup(c.vars, k)
    {
      assert StampOf(a.varSeq, k) <= StampOf(b.varSeq, k) <= StampOf(c.varSeq, k);
    }
    forall n
      ensures StampOf(a.chanSeq, n) <= StampOf(c.chanSeq, n)
      ensures StampOf(c.chanSeq, n) <= a.clock && n in a.channels ==> n in c.channels
      ensures StampOf(c.chanSeq, n) <= a.clock ==> Msgs(a.channels, n) <= Msgs(c.channels, n)
    {
      assert StampOf(a.chanSeq, n) <= StampOf(b.chanSeq, n) <= StampOf(c.chanSeq, n);
      if StampOf(c.chanSeq, n) <= a.clock {
        assert Msgs(a.channels, n) <= Msgs(b.channels, n) <= Msgs(c.channels, n);
      }
    }
  }

  /** Every operation but a restore keeps the history whole. */
  lemma StepFollows(s: State, op: Op, t: State)
    requires WellStamped(s) && Step(s, op, t) && !op.Restore?
    ensures Follows(s, t)
  {
    TracksReflexive(s);
    StepTracks(s, s, op, t);
    forall c | StampOf(t.chanSeq, c) <= s.clock
      ensures c in s.channels ==> c in t.channels
      ensures Msgs(s.channels, c) <= Msgs(t.channels, c)
    {
      StepChannel(s, op, t, c);
    }
  }

  /** Rolling back to a snapshot taken after the mark keeps it whole too: this is the retry path. */
  lemma RollbackFollows(s0: State, taken: State, s: State, t: State)
    requires Follows(s0, taken) && Tracks(taken, s) && Follows(s0, s)
    requires Step(s, Restore(Snap(taken)), t)
    ensures Follows(s0, t)
  {
    StepTracks(s0, s, Restore(Snap(taken)), t);
    forall c | StampOf(t.chanSeq, c) <= s0.clock
      ensures c in s0.channels ==> c in t.channels
      ensures Msgs(s0.channels, c) <= Msgs(t.channels, c)
    {
      StepChannel(s, Restore(Snap(taken)), t, c);
      assert StampOf(taken.chanSeq, c) <= StampOf(s.chanSeq, c);
      assert c !in taken.channels && c !in s0.channels;
    }
  }

  /** The i-th operation restores the contents of the j-th state, reached no later than it. */
  ghost predicate RollsBackTo(states: seq<State>, ops: seq<Op>, i: int, j: int) {
    0 <= j <= i < |ops| && i < |states| && ops[i] == Restore(Snap(states[j]))
  }

  /** Every restore of the run goes back to a state the run itself went through. */
  ghost predicate RollsBack(states: seq<State>, ops: seq<Op>) {
    forall i :: 0 <= i < |ops| && ops[i].Restore? ==> exists j :: RollsBackTo(states, ops, i, j)
  }

  lemma {:induction false} RollbackRunFollows(states: seq<State>, ops: seq<Op>, n: nat)
    requires Run(states, ops) && RollsBack(states, ops) && n <= |ops|
    ensures Follows(states[0], states[n])
    decreases n
  {
    hide Follows, Tracks, WellStamped, Step;
    if n == 0 {
      FollowsReflexive(states[0]);
    } else {
      RollbackRunFollows(states, ops, n - 1);
      assert StepAt(states, ops, n - 1);
      var s, op, t := states[n - 1], ops[n - 1], states[n];
      if op.Restore? {
        var j :| RollsBackTo(states, ops, n - 1, j);
        RollbackRunFollows(states, ops, j);
        RunTracks(states, ops, j, n - 1);
        RollbackFollows(states[0], states[j], s, t);
      } else {
        RunWellStamped(states, ops, n - 1);
        StepFollows(s, op, t);
        FollowsTransitive(states[0], s, t);
      }
    }
  }

  /**
   Node-retry rollbacks always meet the restore hypothesis: a run that only
   ever restores snapshots taken since the mark has an exact delta throughout.
   */
  lemma RollbackRunIsExact(states: seq<State>, ops: seq<Op>)
    requires Run(states, ops) && RollsBack(states, ops)
    ensures Exact(states[0], states[|ops|])
  {
    RollbackRunFollows(states, ops, |ops|);
    FollowsIsExact(states[0], states[|ops|]);
  }

  // ------------------------------------------------------ chains of deltas

  lemma ReplayRespectsSame(a: Snapshot, b: Snapshot, d: Delta)
    requires Same(a, b)
    ensures Same(Replay(a, d), Replay(b, d))
  {
    EffectRespectsSame(a, b, Apply(d));
  }

  /** The deltas between consecutive marked states, oldest first. */
  function Deltas(marks: seq<State>): seq<Delta>
    requires |marks| > 0
  {
    seq(|marks| - 1, i requires 0 <= i < |marks| - 1 => Since(marks[i + 1], MarkOf(marks[i])))
  }

  function ReplayAll(a: Snapshot, ds: seq<Delta>): Snapshot {
    if ds == [] then a else Replay(ReplayAll(a, ds[..|ds| - 1]), ds[|ds| - 1])
  }

  /** Consecutive deltas compose: replaying all of them on the oldest contents gives the newest. */
  lemma {:induction false} DeltasCompose(marks: seq<State>)
    requires |marks| > 0
    requires forall i :: 0 < i < |marks| ==> Exact(marks[i - 1], marks[i])
    ensures Same(ReplayAll(Snap(marks[0]), Deltas(marks)), Snap(marks[|marks| - 1]))
  {
    if |marks| == 1 {
    } else {
      var n := |marks| - 1;
      var ds := Deltas(marks);
      assert Exact(marks[n - 1], marks[n]);
      assert ds[..n - 1] == Deltas(marks[..n]);
      DeltasCompose(marks[..n]);
      ReplayRespectsSame(ReplayAll(Snap(marks[0]), ds[..n - 1]), Snap(marks[n - 1]), ds[n - 1]);
    }
  }
}
