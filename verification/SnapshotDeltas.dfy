/** Deltas between two states nobody tracked: what comparing only the ends of a channel can and cannot see. */
module SnapshotDeltas {
  import opened Wrappers
  import opened BoardModel

  /** The sampled prefix test: the first message and the one at the seam. */
  predicate ContinuesChannel(base: seq<Message>, next: seq<Message>) {
    || |base| == 0
    || (|next| >= |base| && base[0] == next[0] && base[|base| - 1] == next[|base| - 1])
  }

  predicate Grown(base: Channels, next: Channels, c: Name) {
    c in next && |next[c]| > |Msgs(base, c)| && ContinuesChannel(Msgs(base, c), next[c])
  }

  predicate Unchanged(base: Channels, next: Channels, c: Name) {
    c in next && |next[c]| == |Msgs(base, c)| && ContinuesChannel(Msgs(base, c), next[c])
  }

  function Between(base: Snapshot, next: Snapshot): Delta {
    Delta(
      map k | k in next.vars && !(k in base.vars && base.vars[k] == next.vars[k]) :: next.vars[k],
      base.vars.Keys - next.vars.Keys,
      map c | c in next.channels && Grown(base.channels, next.channels, c) ::
        next.channels[c][|Msgs(base.channels, c)|..],
      map c | c in base.channels.Keys + next.channels.Keys
              && !Grown(base.channels, next.channels, c) && !Unchanged(base.channels, next.channels, c) ::
        if c in next.channels then Some(next.channels[c]) else None)
  }

  /** The sample does not lie: a channel that passes it really starts with the base. */
  predicate SampleIsPrefix(base: seq<Message>, next: seq<Message>) {
    |next| >= |base| && ContinuesChannel(base, next) ==> base <= next
  }

  lemma ReplayedBetween(base: Snapshot, next: Snapshot, c: Name)
    ensures var got := Msgs(Replay(base, Between(base, next)).channels, c);
            var b, n := Msgs(base.channels, c), Msgs(next.channels, c);
            if c in next.channels && |n| >= |b| && ContinuesChannel(b, n)
            then got == b + n[|b|..]
            else got == n
  {
    ReplayedMsgs(base, Between(base, next), c);
  }

  lemma ReplayedBetweenVars(base: Snapshot, next: Snapshot)
    ensures Replay(base, Between(base, next)).vars == next.vars
  {
    var got := Replay(base, Between(base, next)).vars;
    assert forall k :: k in got <==> k in next.vars;
    assert forall k :: k in got ==> got[k] == next.vars[k];
  }

  /** Snapshot deltas are exact if and only if the two-point sample is honest on every channel. */
  lemma SnapshotDeltaExactIff(base: Snapshot, next: Snapshot)
    ensures Same(Replay(base, Between(base, next)), next) <==>
            (forall c :: c in next.channels ==> SampleIsPrefix(Msgs(base.channels, c), next.channels[c]))
  {
    hide Replay, Between;
    var got := Replay(base, Between(base, next));
    ReplayedBetweenVars(base, next);
    if Same(got, next) {
      forall c | c in next.channels
        ensures SampleIsPrefix(Msgs(base.channels, c), next.channels[c])
      {
        ReplayedBetween(base, next, c);
        assert Msgs(got.channels, c) == Msgs(next.channels, c);
      }
    }
    if forall c :: c in next.channels ==> SampleIsPrefix(Msgs(base.channels, c), next.channels[c]) {
      forall c
        ensures Msgs(got.channels, c) == Msgs(next.channels, c)
      {
        ReplayedBetween(base, next, c);
      }
    }
  }

  /** Two points determine a channel of at most two messages. */
  lemma ShortBaseIsAlwaysHonest(base: seq<Message>, next: seq<Message>)
    requires |base| <= 2
    ensures SampleIsPrefix(base, next)
  {
    if |next| >= |base| && ContinuesChannel(base, next) {
      assert forall i :: 0 <= i < |base| ==> base[i] == next[i];
    }
  }

  /** And no more than two: rewriting the middle of a longer channel goes unnoticed. */
  lemma MiddleRewriteIsLost(base: seq<Message>, m: Message)
    requires |base| >= 3 && m != base[1]
    ensures var a, b := Snapshot(map[], map[MAIN_CHANNEL := base]), Snapshot(map[], map[MAIN_CHANNEL := base[1 := m]]);
            Between(a, b) == Delta(map[], {}, map[], map[]) && !Same(Replay(a, Between(a, b)), b)
  {
    var a, b := Snapshot(map[], map[MAIN_CHANNEL := base]), Snapshot(map[], map[MAIN_CHANNEL := base[1 := m]]);
    assert Unchanged(a.channels, b.channels, MAIN_CHANNEL);
    assert Between(a, b) == Delta(map[], {}, map[], map[]);
    SnapshotDeltaExactIff(a, b);
    assert base[1 := m][1] != base[1];
    assert !SampleIsPrefix(Msgs(a.channels, MAIN_CHANNEL), b.channels[MAIN_CHANNEL]);
  }

  const NOTHING := Snapshot(map[], map[])

  /** `SnapshotDelta`: a nil base counts as empty, a nil target writes nothing. */
  method SnapshotDelta(base: Option<Snapshot>, next: Option<Snapshot>) returns (d: Delta)
    ensures next.None? ==> d == Delta(map[], {}, map[], map[])
    ensures next.Some? ==> d == Between(if base.Some? then base.value else NOTHING, next.value)
  {
    if next.None? {
      return Delta(map[], {}, map[], map[]);
    }
    var was, now := if base.Some? then base.value else NOTHING, next.value;
    var vars, removed := VarsBetween(was.vars, now.vars);
    var appends, replaced := ChannelsBetween(was, now);
    d := Delta(vars, removed, appends, replaced);
  }

  method VarsBetween(base: map<Name, Value>, next: map<Name, Value>)
    returns (vars: map<Name, Value>, removed: set<Name>)
    ensures vars == map k | k in next && !(k in base && base[k] == next[k]) :: next[k]
    ensures removed == base.Keys - next.Keys
  {
    vars, removed := map[], {};
    var done: set<Name> := {};
    while done != next.Keys
      invariant done <= next.Keys
      invariant vars == map k | k in next && k in done && !(k in base && base[k] == next[k]) :: next[k]
      decreases next.Keys - done
    {
      var k :| k in next && k !in done;
      done := done + {k};
      if !(k in base && base[k] == next[k]) {
        vars := vars[k := next[k]];
      }
    }
    done := {};
    while done != base.Keys
      invariant done <= base.Keys && removed == done - next.Keys
      decreases base.Keys - done
    {
      var k :| k in base && k !in done;
      done := done + {k};
      if k !in next {
        removed := removed + {k};
      }
    }
  }

  /** What the delta says about one channel of the target, one channel at a time. */
  lemma BetweenOne(base: Snapshot, next: Snapshot, done: set<Name>, c: Name)
    requires c in next.channels && c !in done
    ensures var was, now := base.channels, next.channels;
            && AppendsOver(base, next, done + {c})
               == (if Grown(was, now, c) then AppendsOver(base, next, done)[c := now[c][|Msgs(was, c)|..]]
                   else AppendsOver(base, next, done))
            && ReplacedOver(base, next, done + {c})
               == (if Grown(was, now, c) || Unchanged(was, now, c) then ReplacedOver(base, next, done)
                   else ReplacedOver(base, next, done)[c := Some(now[c])])
  {
  }

  function AppendsOver(base: Snapshot, next: Snapshot, done: set<Name>): Channels {
    map c | c in done && Grown(base.channels, next.channels, c) :: next.channels[c][|Msgs(base.channels, c)|..]
  }

  function ReplacedOver(base: Snapshot, next: Snapshot, done: set<Name>): map<Name, Option<seq<Message>>> {
    map c | c in (base.channels.Keys - next.channels.Keys) + done
            && !Grown(base.channels, next.channels, c) && !Unchanged(base.channels, next.channels, c) ::
      if c in next.channels then Some(next.channels[c]) else None
  }

  method ChannelsBetween(base: Snapshot, next: Snapshot)
    returns (appends: Channels, replaced: map<Name, Option<seq<Message>>>)
    ensures appends == Between(base, next).appends && replaced == Between(base, next).replaced
  {
    var was, now := base.channels, next.channels;
    replaced := DroppedChannels(base, next);
    appends := map[];
    var done: set<Name> := {};
    while done != now.Keys
      invariant done <= now.Keys
      invariant appends == AppendsOver(base, next, done) && replaced == ReplacedOver(base, next, done)
      decreases now.Keys - done
    {
      var c :| c in now && c !in done;
      BetweenOne(base, next, done, c);
      done := done + {c};
      var had := Msgs(was, c);
      if |now[c]| > |had| && ContinuesChannel(had, now[c]) {
        appends := appends[c := now[c][|had|..]];
        continue;
      }
      if |now[c]| == |had| && ContinuesChannel(had, now[c]) {
        continue;
      }
      replaced := replaced[c := Some(now[c])];
    }
    assert (was.Keys - now.Keys) + now.Keys == was.Keys + now.Keys;
  }

  method DroppedChannels(base: Snapshot, next: Snapshot) returns (replaced: map<Name, Option<seq<Message>>>)
    ensures replaced == ReplacedOver(base, next, {})
  {
    replaced := map[];
    var done: set<Name> := {};
    while done != base.channels.Keys
      invariant done <= base.channels.Keys
      invariant replaced == map c | c in done && c !in next.channels :: None
      decreases base.channels.Keys - done
    {
      var c :| c in base.channels && c !in done;
      done := done + {c};
      if c !in next.channels {
        replaced := replaced[c := None];
      }
    }
  }
}
