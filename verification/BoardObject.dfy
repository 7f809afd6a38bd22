/** The mutable board. Every method is one `Step` of the value model; map iteration order is arbitrary. */
module BoardObject {
  import opened Wrappers
  import opened BoardModel

  // ----------------------------------------- one iteration of each map loop

  /** The part of a map whose keys have been visited. */
  function Part<T>(m: map<Name, T>, done: set<Name>): map<Name, T> {
    map k | k in m && k in done :: m[k]
  }

  lemma BumpOne(before: Stamps, touched: set<Name>, lo: nat, hi: nat, after: Stamps, k: Name)
    requires Bumped(before, touched, lo, hi, after) && lo <= hi
    ensures Bumped(before, touched + {k}, lo, hi + 1, after[k := hi + 1])
  {
  }

  /** Every key with the same stamp. */
  function Uniform(keys: set<Name>, at: nat): Stamps {
    map k | k in keys :: at
  }

  lemma BumpNone(stamps: Stamps, clock: nat)
    ensures Bumped(stamps, {}, clock, clock, stamps)
  {
  }

  lemma BumpAll(before: Stamps, keys: set<Name>, clock: nat)
    ensures Bumped(before, keys, clock, clock + 1, before + Uniform(keys, clock + 1))
  {
  }

  lemma BumpBoth(before: Stamps, now: set<Name>, previous: set<Name>, clock: nat)
    ensures Bumped(before, now + previous, clock, clock + 1,
                   before + Uniform(now, clock + 1) + Uniform(previous - now, clock + 1))
  {
  }

  lemma BumpThen(a: Stamps, s: set<Name>, lo: nat, mid: nat, b: Stamps, t: set<Name>, hi: nat, c: Stamps)
    requires Bumped(a, s, lo, mid, b) && Bumped(b, t, mid, hi, c) && lo <= mid <= hi
    ensures Bumped(a, s + t, lo, hi, c)
  {
  }

  /** The vars were stamped up to `mid`, the channels after it. */
  lemma AppliedIsStep(s: State, d: Delta, mid: nat, t: State)
    requires t.vars == (s.vars - d.removed) + d.vars && t.channels == Appended(Replaced(s.channels, d.replaced), d.appends)
    requires mid == s.clock + Size(d.removed) + Size(d.vars.Keys) && t.clock == mid + Size(d.replaced.Keys)
    requires Bumped(s.varSeq, d.removed + d.vars.Keys, s.clock, mid, t.varSeq)
    requires Bumped(s.chanSeq, d.replaced.Keys, mid, t.clock, t.chanSeq)
    ensures Step(s, Apply(d), t)
  {
    hide Replaced, Appended, Size;
  }

  lemma OneMore(done: set<Name>, k: Name)
    requires k !in done
    ensures Size(done + {k}) == Size(done) + 1
  {
  }

  lemma NoneYet()
    ensures Size({}) == 0
  {
  }

  lemma PartNone<T>(m: map<Name, T>)
    ensures Part(m, {}) == map[]
  {
  }

  lemma PartAll<T>(m: map<Name, T>)
    ensures Part(m, m.Keys) == m
  {
  }

  lemma PartOne<T>(m: map<Name, T>, done: set<Name>, k: Name)
    requires k in m
    ensures Part(m, done + {k}) == Part(m, done)[k := m[k]]
  {
  }

  lemma ReplaceNone(channels: Channels, r: map<Name, Option<seq<Message>>>)
    ensures Replaced(channels, Part(r, {})) == channels
  {
  }

  lemma ReplaceOne(channels: Channels, r: map<Name, Option<seq<Message>>>, done: set<Name>, c: Name)
    requires c in r && c !in done
    ensures var before, now := Replaced(channels, Part(r, done)), Replaced(channels, Part(r, done + {c}));
            now == match r[c] case None => before - {c} case Some(ms) => before[c := ms]
  {
    var p, q := Part(r, done), Part(r, done + {c});
    assert q == p[c := r[c]];
  }

  lemma AppendedNothing(channels: Channels, a: Channels)
    requires a == map[]
    ensures Appended(channels, a) == channels
  {
    var got := Appended(channels, a);
    assert got.Keys == channels.Keys;
    assert forall c :: c in channels ==> got[c] == channels[c] + [] == channels[c];
  }

  lemma AppendOne(channels: Channels, a: Channels, done: set<Name>, c: Name)
    requires c in a && c !in done
    ensures var before, now := Appended(channels, Part(a, done)), Appended(channels, Part(a, done + {c}));
            now == if a[c] == [] then before else before[c := Msgs(before, c) + a[c]]
  {
    var p, q := Part(a, done), Part(a, done + {c});
    PartOne(a, done, c);
    var before, now := Appended(channels, p), Appended(channels, q);
    var want := if a[c] == [] then before else before[c := Msgs(before, c) + a[c]];
    assert Msgs(before, c) == Msgs(channels, c);
    assert now.Keys == want.Keys;
    forall n | n in now
      ensures now[n] == want[n]
    {
      assert Msgs(q, n) == if n == c then a[c] else Msgs(p, n);
    }
  }

  lemma SinceOne(s: State, m: Mark, done: set<Name>, c: Name)
    requires c in s.channels && c !in done
    ensures var d := Since(s, m);
            && Part(d.replaced, done + {c})
               == (if Rewritten(s, m, c) then Part(d.replaced, done)[c := Some(s.channels[c])] else Part(d.replaced, done))
            && Part(d.appends, done + {c})
               == (if !Rewritten(s, m, c) && |s.channels[c]| > MarkedLength(m, c)
                   then Part(d.appends, done)[c := s.channels[c][MarkedLength(m, c)..]]
                   else Part(d.appends, done))
  {
    var d := Since(s, m);
    if c in d.replaced { PartOne(d.replaced, done, c); }
    if c in d.appends { PartOne(d.appends, done, c); }
  }

  lemma SinceGone(s: State, m: Mark, done: set<Name>, c: Name)
    requires c in m.lengths && c !in done
    ensures var d, seen := Since(s, m), s.channels.Keys + done;
            Part(d.replaced, s.channels.Keys + (done + {c}))
            == if c in s.channels then Part(d.replaced, seen) else Part(d.replaced, seen)[c := None]
  {
    var d, seen := Since(s, m), s.channels.Keys + done;
    assert s.channels.Keys + (done + {c}) == seen + {c};
    if c in s.channels {
      assert seen + {c} == seen;
    } else {
      PartOne(d.replaced, seen, c);
    }
  }

  lemma SinceCovered(s: State, m: Mark)
    ensures Part(Since(s, m).appends, s.channels.Keys) == Since(s, m).appends
    ensures Part(Since(s, m).replaced, s.channels.Keys + m.lengths.Keys) == Since(s, m).replaced
  {
  }

  /** Every key stamped with one write, as a restore does. */
  method StampAll(stamps: Stamps, keys: set<Name>, at: nat) returns (out: Stamps)
    ensures out == stamps + Uniform(keys, at)
  {
    out := stamps;
    var left := keys;
    while left != {}
      invariant left <= keys && out == stamps + Uniform(keys - left, at)
      decreases left
    {
      var k :| k in left;
      out, left := out[k := at], left - {k};
    }
    assert keys - left == keys;
  }

  class Board {
    var vars: map<Name, Value>
    var channels: Channels
    var clock: nat
    var varSeq: Stamps
    var chanSeq: Stamps

    function Contents(): State
      reads this
    {
      State(vars, channels, clock, varSeq, chanSeq)
    }

    constructor ()
      ensures Contents() == State(map[], map[MAIN_CHANNEL := []], 0, map[], map[])
    {
      vars, channels, clock := map[], map[MAIN_CHANNEL := []], 0;
      varSeq, chanSeq := map[], map[];
    }

    /** A board rebuilt from a record: same contents, no history. */
    constructor FromSnapshot(snap: Option<Snapshot>)
      ensures WellStamped(Contents()) && clock == 0
      ensures snap.Some? ==> Same(Snap(Contents()), snap.value)
      ensures snap.None? ==> Snap(Contents()) == BoardModel.Snapshot(map[], map[MAIN_CHANNEL := []])
      ensures MAIN_CHANNEL in channels || (snap.Some? && |snap.value.channels| > 0)
    {
      clock, varSeq, chanSeq := 0, map[], map[];
      if snap.None? {
        vars, channels := map[], map[MAIN_CHANNEL := []];
      } else {
        vars, channels := snap.value.vars, RestoredChannels(snap.value);
      }
    }

    method Clone() returns (b: Board)
      ensures fresh(b) && b.Contents() == Contents()
    {
      b := new Board();
      b.vars, b.channels, b.clock, b.varSeq, b.chanSeq := vars, channels, clock, varSeq, chanSeq;
    }

    // ------------------------------------------------------ write history

    method NoteVarWrite(key: Name)
      modifies this`clock, this`varSeq
      ensures clock == old(clock) + 1 && varSeq == old(varSeq)[key := clock]
    {
      clock := clock + 1;
      varSeq := varSeq[key := clock];
    }

    method NoteChannelReplace(name: Name)
      modifies this`clock, this`chanSeq
      ensures clock == old(clock) + 1 && chanSeq == old(chanSeq)[name := clock]
    {
      clock := clock + 1;
      chanSeq := chanSeq[name := clock];
    }

    method NoteRestore(previous: map<Name, Value>)
      modifies this`clock, this`varSeq, this`chanSeq
      ensures clock == old(clock) + 1
      ensures Bumped(old(varSeq), vars.Keys + previous.Keys, old(clock), clock, varSeq)
      ensures Bumped(old(chanSeq), channels.Keys, old(clock), clock, chanSeq)
    {
      hide *;
      clock := clock + 1;
      varSeq := StampAll(varSeq, vars.Keys, clock);
      varSeq := StampAll(varSeq, previous.Keys - vars.Keys, clock);
      chanSeq := StampAll(chanSeq, channels.Keys, clock);
      BumpBoth(old(varSeq), vars.Keys, previous.Keys, old(clock));
      BumpAll(old(chanSeq), channels.Keys, old(clock));
    }

    // --------------------------------------------------------------- vars

    method SetVar(key: Name, value: Value)
      modifies this
      ensures Step(old(Contents()), Op.SetVar(key, value), Contents())
    {
      vars := vars[key := value];
      NoteVarWrite(key);
    }

    method DeleteVar(key: Name)
      modifies this
      ensures Step(old(Contents()), Op.DeleteVar(key), Contents())
    {
      vars := vars - {key};
      NoteVarWrite(key);
    }

    /** Refuses, writing nothing, when the variable holds something other than a list. */
    method AppendSliceVar(key: Name, value: Value) returns (ok: bool)
      modifies this
      ensures Step(old(Contents()), AppendSlice(key, value), Contents())
      ensures ok == !Refused(old(vars), key)
      ensures !ok ==> Contents() == old(Contents())
    {
      if key !in vars {
        vars := vars[key := List([value])];
        NoteVarWrite(key);
        return true;
      }
      if !vars[key].List? {
        return false;
      }
      vars := vars[key := List(vars[key].items + [value])];
      NoteVarWrite(key);
      return true;
    }

    // ----------------------------------------------------------- channels

    method SetChannel(name: Name, msgs: seq<Message>)
      modifies this
      ensures Step(old(Contents()), Op.SetChannel(name, msgs), Contents())
    {
      channels := channels[name := msgs];
      NoteChannelReplace(name);
    }

    method AppendChannelMessages(name: Name, msgs: seq<Message>)
      modifies this
      ensures Step(old(Contents()), Append(name, msgs), Contents())
    {
      if |msgs| == 0 {
        return;
      }
      var out := Msgs(channels, name);
      for i := 0 to |msgs|
        invariant out == Msgs(channels, name) + msgs[..i]
        invariant Contents() == old(Contents())
      {
        out := out + [msgs[i]];
      }
      assert msgs[..|msgs|] == msgs;
      channels := channels[name := out];
    }

    method PopChannelMessage(name: Name) returns (last: Option<Message>)
      modifies this
      ensures Step(old(Contents()), Pop(name), Contents())
      ensures last.None? <==> old(Msgs(channels, name)) == []
      ensures last.Some? ==> Msgs(channels, name) + [last.value] == old(Msgs(channels, name))
    {
      var msgs := Msgs(channels, name);
      if |msgs| == 0 {
        return None;
      }
      channels := channels[name := msgs[..|msgs| - 1]];
      NoteChannelReplace(name);
      return Some(msgs[|msgs| - 1]);
    }

    // -------------------------------------------------- snapshot / restore

    method Snapshot() returns (snap: BoardModel.Snapshot)
      ensures snap == Snap(Contents())
    {
      snap := BoardModel.Snapshot(vars, channels);
    }

    method RestoreFrom(snap: Option<BoardModel.Snapshot>)
      modifies this
      ensures snap.None? ==> Contents() == old(Contents())
      ensures snap.Some? ==> Step(old(Contents()), Restore(snap.value), Contents())
    {
      if snap.None? {
        return;
      }
      var previous := vars;
      vars, channels := snap.value.vars, RestoredChannels(snap.value);
      NoteRestore(previous);
    }

    // -------------------------------------------------------- mark / since

    method Mark() returns (m: BoardModel.Mark)
      ensures m == MarkOf(Contents())
    {
      var lengths: map<Name, nat> := map[];
      var names := channels.Keys;
      while names != {}
        invariant names <= channels.Keys && lengths.Keys == channels.Keys - names
        invariant forall c :: c in lengths ==> lengths[c] == |channels[c]|
        decreases names
      {
        var c :| c in names;
        lengths, names := lengths[c := |channels[c]|], names - {c};
      }
      m := BoardModel.Mark(clock, lengths);
    }

    method Since(m: BoardModel.Mark) returns (d: Delta)
      ensures d == BoardModel.Since(Contents(), m)
    {
      var written, removed := SinceVars(m);
      var appends, replaced := SinceChannels(m);
      d := Delta(written, removed, appends, replaced);
    }

    method SinceVars(m: BoardModel.Mark) returns (written: map<Name, Value>, removed: set<Name>)
      ensures written == BoardModel.Since(Contents(), m).vars
      ensures removed == BoardModel.Since(Contents(), m).removed
    {
      written, removed := map[], {};
      var keys := varSeq.Keys;
      while keys != {}
        invariant keys <= varSeq.Keys
        invariant written == map k | k in varSeq && k !in keys && varSeq[k] > m.clock && k in vars :: vars[k]
        invariant removed == set k | k in varSeq && k !in keys && varSeq[k] > m.clock && k !in vars
        decreases keys
      {
        var k :| k in keys;
        keys := keys - {k};
        if varSeq[k] <= m.clock {
          continue;
        }
        if k in vars {
          written := written[k := vars[k]];
        } else {
          removed := removed + {k};
        }
      }
    }

    method SinceChannels(m: BoardModel.Mark)
      returns (appends: Channels, replaced: map<Name, Option<seq<Message>>>)
      ensures appends == BoardModel.Since(Contents(), m).appends
      ensures replaced == BoardModel.Since(Contents(), m).replaced
    {
      ghost var s := Contents();
      ghost var want := BoardModel.Since(s, m);
      appends, replaced := map[], map[];
      var done: set<Name> := {};
      while done != channels.Keys
        invariant done <= channels.Keys
        invariant appends == Part(want.appends, done) && replaced == Part(want.replaced, done)
        decreases channels.Keys - done
      {
        var c :| c in channels && c !in done;
        SinceOne(s, m, done, c);
        done := done + {c};
        if StampOf(chanSeq, c) > m.clock {
          replaced := replaced[c := Some(channels[c])];
          continue;
        }
        var base := MarkedLength(m, c);
        if |channels[c]| > base {
          appends := appends[c := channels[c][base..]];
        }
      }
      done := {};
      assert channels.Keys + done == channels.Keys;
      while done != m.lengths.Keys
        invariant done <= m.lengths.Keys && appends == Part(want.appends, channels.Keys)
        invariant replaced == Part(want.replaced, channels.Keys + done)
        decreases m.lengths.Keys - done
      {
        var c :| c in m.lengths && c !in done;
        SinceGone(s, m, done, c);
        done := done + {c};
        if c !in channels {
          replaced := replaced[c := None];
        }
      }
      SinceCovered(s, m);
    }

    // --------------------------------------------------------- apply delta

    /** Writes a delta onto the board: the same contents as a replay on its snapshot, every key stamped. */
    method ApplyDelta(d: Delta)
      modifies this
      ensures Step(old(Contents()), Apply(d), Contents())
    {
      hide Bumped, Replaced, Appended, Step, Size;
      ghost var s := Contents();
      ApplyVars(d);
      ghost var mid := clock;
      ApplyReplacements(d.replaced);
      ApplyAppends(d.appends);
      AppliedIsStep(s, d, mid, Contents());
    }

    method ApplyVars(d: Delta)
      modifies this`vars, this`clock, this`varSeq
      ensures vars == (old(vars) - d.removed) + d.vars
      ensures clock == old(clock) + Size(d.removed) + Size(d.vars.Keys)
      ensures Bumped(old(varSeq), d.removed + d.vars.Keys, old(clock), clock, varSeq)
    {
      hide Bumped, Size;
      RemoveVars(d.removed);
      ghost var mid, midSeq := clock, varSeq;
      SetVars(d.vars);
      BumpThen(old(varSeq), d.removed, old(clock), mid, midSeq, d.vars.Keys, clock, varSeq);
    }

    method RemoveVars(removed: set<Name>)
      modifies this`vars, this`clock, this`varSeq
      ensures vars == old(vars) - removed
      ensures clock == old(clock) + Size(removed)
      ensures Bumped(old(varSeq), removed, old(clock), clock, varSeq)
    {
      hide Bumped, Size;
      NoneYet();
      BumpNone(varSeq, clock);
      var done := {};
      while done != removed
        invariant done <= removed && vars == old(vars) - done
        invariant clock == old(clock) + Size(done) && Bumped(old(varSeq), done, old(clock), clock, varSeq)
        decreases removed - done
      {
        var k :| k in removed && k !in done;
        OneMore(done, k);
        BumpOne(old(varSeq), done, old(clock), clock, varSeq, k);
        vars := vars - {k};
        NoteVarWrite(k);
        done := done + {k};
      }
    }

    method SetVars(values: map<Name, Value>)
      modifies this`vars, this`clock, this`varSeq
      ensures vars == old(vars) + values
      ensures clock == old(clock) + Size(values.Keys)
      ensures Bumped(old(varSeq), values.Keys, old(clock), clock, varSeq)
    {
      hide Bumped, Part, Size;
      NoneYet();
      BumpNone(varSeq, clock);
      PartNone(values);
      var done: set<Name> := {};
      while done != values.Keys
        invariant done <= values.Keys && vars == old(vars) + Part(values, done)
        invariant clock == old(clock) + Size(done) && Bumped(old(varSeq), done, old(clock), clock, varSeq)
        decreases values.Keys - done
      {
        var k :| k in values && k !in done;
        OneMore(done, k);
        BumpOne(old(varSeq), done, old(clock), clock, varSeq, k);
        PartOne(values, done, k);
        vars := vars[k := values[k]];
        NoteVarWrite(k);
        done := done + {k};
      }
      PartAll(values);
    }

    method ApplyReplacements(r: map<Name, Option<seq<Message>>>)
      modifies this`channels, this`clock, this`chanSeq
      ensures channels == Replaced(old(channels), r)
      ensures clock == old(clock) + Size(r.Keys)
      ensures Bumped(old(chanSeq), r.Keys, old(clock), clock, chanSeq)
    {
      hide Bumped, Part, Replaced, Size;
      NoneYet();
      var done: set<Name> := {};
      ReplaceNone(channels, r);
      BumpNone(chanSeq, clock);
      while done != r.Keys
        invariant done <= r.Keys && channels == Replaced(old(channels), Part(r, done))
        invariant clock == old(clock) + Size(done) && Bumped(old(chanSeq), done, old(clock), clock, chanSeq)
        decreases r.Keys - done
      {
        var c :| c in r && c !in done;
        ReplaceOne(old(channels), r, done, c);
        OneMore(done, c);
        BumpOne(old(chanSeq), done, old(clock), clock, chanSeq, c);
        channels := match r[c] case None => channels - {c} case Some(msgs) => channels[c := msgs];
        NoteChannelReplace(c);
        done := done + {c};
      }
      PartAll(r);
    }

    method ApplyAppends(a: Channels)
      modifies this`channels
      ensures channels == Appended(old(channels), a)
    {
      var done: set<Name> := {};
      AppendedNothing(channels, Part(a, done));
      while done != a.Keys
        invariant done <= a.Keys && channels == Appended(old(channels), Part(a, done))
        decreases a.Keys - done
      {
        var c :| c in a && c !in done;
        AppendOne(old(channels), a, done, c);
        done := done + {c};
        if |a[c]| == 0 {
          continue;
        }
        channels := channels[c := Msgs(channels, c) + a[c]];
      }
      PartAll(a);
    }
  }
}
