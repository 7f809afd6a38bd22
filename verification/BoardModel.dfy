/**
 The blackboard as a value: contents, write history, deltas, and what every
 board operation does to each of them.

 Contents and history are kept apart. `Effect` says what an operation does to
 the contents; `Stamped` says what it leaves in the write history. A board
 step is both at once.
 */
module BoardModel {
  import opened Wrappers

  type Name = string

  /** A board variable: a list can be appended to in place, anything else is opaque. */
  datatype Value = Atom(repr: string) | List(items: seq<Value>)

  datatype Message = Message(assistant: bool, text: string)

  type Channels = map<Name, seq<Message>>

  type Stamps = map<Name, nat>

  const MAIN_CHANNEL: Name := "__main_channel"

  /** The serialisable contents of a board. */
  datatype Snapshot = Snapshot(vars: map<Name, Value>, channels: Channels)

  /** The writes a board received after a mark. `None` in `replaced` means the channel is gone. */
  datatype Delta = Delta(
    vars: map<Name, Value>,
    removed: set<Name>,
    appends: Channels,
    replaced: map<Name, Option<seq<Message>>>)

  /** A position in a board's write history: the counter and every channel's length. */
  datatype Mark = Mark(clock: nat, lengths: map<Name, nat>)

  /** Contents plus write history: the last-write stamp per var and per replaced channel. */
  datatype State = State(
    vars: map<Name, Value>,
    channels: Channels,
    clock: nat,
    varSeq: Stamps,
    chanSeq: Stamps)

  function Snap(s: State): Snapshot {
    Snapshot(s.vars, s.channels)
  }

  /** A missing channel reads as an empty one. */
  function Msgs(channels: Channels, c: Name): seq<Message> {
    if c in channels then channels[c] else []
  }

  /** A key never written has stamp zero, below every write. */
  function StampOf(stamps: Stamps, k: Name): nat {
    if k in stamps then stamps[k] else 0
  }

  function Lookup(vars: map<Name, Value>, k: Name): Option<Value> {
    if k in vars then Some(vars[k]) else None
  }

  /** Two snapshots no accessor can tell apart: absent and empty channels coincide. */
  ghost predicate Same(a: Snapshot, b: Snapshot) {
    && a.vars == b.vars
    && forall c :: Msgs(a.channels, c) == Msgs(b.channels, c)
  }

  /** The canonical representative of a snapshot under `Same`. */
  function Seen(a: Snapshot): Snapshot {
    Snapshot(a.vars, map c | c in a.channels && a.channels[c] != [] :: a.channels[c])
  }

  lemma SameIffSeenEqual(a: Snapshot, b: Snapshot)
    ensures Same(a, b) <==> Seen(a) == Seen(b)
  {
    var x, y := Seen(a).channels, Seen(b).channels;
    if Same(a, b) {
      forall c
        ensures c in x <==> c in y
        ensures c in x ==> x[c] == y[c]
      {
        assert Msgs(a.channels, c) == Msgs(b.channels, c);
      }
      assert x == y;
    }
    if Seen(a) == Seen(b) {
      assert a.vars == b.vars;
      forall c
        ensures Msgs(a.channels, c) == Msgs(b.channels, c)
      {
        assert Msgs(a.channels, c) == Msgs(x, c);
        assert Msgs(b.channels, c) == Msgs(y, c);
      }
    }
  }

  // ---------------------------------------------------------------- deltas

  function Replaced(channels: Channels, r: map<Name, Option<seq<Message>>>): Channels {
    map c | c in channels.Keys + r.Keys && (c in r ==> r[c].Some?) ::
      if c in r then r[c].value else channels[c]
  }

  function Appended(channels: Channels, a: Channels): Channels {
    map c | c in channels.Keys + (set c' | c' in a && a[c'] != []) ::
      Msgs(channels, c) + Msgs(a, c)
  }

  /** A delta written onto a snapshot: removals, sets, replacements, then appends. */
  function Replay(a: Snapshot, d: Delta): Snapshot {
    Snapshot((a.vars - d.removed) + d.vars, Appended(Replaced(a.channels, d.replaced), d.appends))
  }

  /** The messages one channel holds after a replay. */
  lemma ReplayedMsgs(a: Snapshot, d: Delta, c: Name)
    ensures Msgs(Replay(a, d).channels, c)
            == (if c in d.replaced then (if d.replaced[c].Some? then d.replaced[c].value else [])
                else Msgs(a.channels, c))
               + Msgs(d.appends, c)
  {
  }

  function MarkOf(s: State): Mark {
    Mark(s.clock, map c | c in s.channels :: |s.channels[c]|)
  }

  function MarkedLength(m: Mark, c: Name): nat {
    if c in m.lengths then m.lengths[c] else 0
  }

  /** The channel was replaced or truncated after the mark, so its length says nothing. */
  predicate Rewritten(s: State, m: Mark, c: Name) {
    StampOf(s.chanSeq, c) > m.clock
  }

  function Since(s: State, m: Mark): Delta {
    Delta(
      map k | k in s.varSeq && s.varSeq[k] > m.clock && k in s.vars :: s.vars[k],
      set k | k in s.varSeq && s.varSeq[k] > m.clock && k !in s.vars,
      map c | c in s.channels && !Rewritten(s, m, c) && |s.channels[c]| > MarkedLength(m, c) ::
        s.channels[c][MarkedLength(m, c)..],
      map c | c in (set c' | c' in s.channels && Rewritten(s, m, c')) + (m.lengths.Keys - s.channels.Keys) ::
        if c in s.channels then Some(s.channels[c]) else None)
  }

  // ------------------------------------------------------------ operations

  datatype Op =
    | SetVar(key: Name, value: Value)
    | DeleteVar(key: Name)
    | AppendSlice(key: Name, value: Value)
    | SetChannel(name: Name, msgs: seq<Message>)
    | Append(name: Name, msgs: seq<Message>)
    | Pop(name: Name)
    | Restore(snap: Snapshot)
    | Apply(delta: Delta)

  /** Appending to a variable that is not a list is refused and writes nothing. */
  predicate Refused(vars: map<Name, Value>, key: Name) {
    key in vars && !vars[key].List?
  }

  function Extended(vars: map<Name, Value>, key: Name, value: Value): Value
    requires !Refused(vars, key)
  {
    if key in vars then List(vars[key].items + [value]) else List([value])
  }

  /** Every board exposes the main channel even when the snapshot carried none. */
  function RestoredChannels(snap: Snapshot): Channels {
    if |snap.channels| > 0 then snap.channels else map[MAIN_CHANNEL := []]
  }

  function Effect(a: Snapshot, op: Op): Snapshot {
    match op
    case SetVar(k, v) => a.(vars := a.vars[k := v])
    case DeleteVar(k) => a.(vars := a.vars - {k})
    case AppendSlice(k, v) =>
      if Refused(a.vars, k) then a else a.(vars := a.vars[k := Extended(a.vars, k, v)])
    case SetChannel(c, ms) => a.(channels := a.channels[c := ms])
    case Append(c, ms) => if ms == [] then a else a.(channels := a.channels[c := Msgs(a.channels, c) + ms])
    case Pop(c) =>
      var ms := Msgs(a.channels, c);
      if ms == [] then a else a.(channels := a.channels[c := ms[..|ms| - 1]])
    case Restore(snap) => Snapshot(snap.vars, RestoredChannels(snap))
    case Apply(d) => Replay(a, d)
  }

  /**
   What an operation does to one var, as a reader sees it: the written value, nothing, the
   list with the value last, the snapshot's value, the delta's, or what was there.
   */
  lemma EffectOnVar(a: Snapshot, op: Op, k: Name)
    ensures var was, now := Lookup(a.vars, k), Lookup(Effect(a, op).vars, k);
            match op
            case SetVar(key, v) => now == if k == key then Some(v) else was
            case DeleteVar(key) => now == if k == key then None else was
            case AppendSlice(key, v) =>
              if k != key || (was.Some? && !was.value.List?) then now == was
              else now == Some(List((if was.Some? then was.value.items else []) + [v]))
            case Restore(snap) => now == Lookup(snap.vars, k)
            case Apply(d) => now == if k in d.vars then Some(d.vars[k]) else if k in d.removed then None else was
            case _ => now == was
  {
    hide Appended, Replaced, RestoredChannels;
    if op.AppendSlice? && k == op.key && k !in a.vars {
      assert [] + [op.value] == [op.value];
    }
  }

  /** What it does to one channel: the messages set, appended or restored, all but the last, the delta's, or what was there. */
  lemma EffectOnChannel(a: Snapshot, op: Op, c: Name)
    ensures var was, now := Msgs(a.channels, c), Msgs(Effect(a, op).channels, c);
            match op
            case SetChannel(name, ms) => now == if c == name then ms else was
            case Append(name, ms) => now == if c == name then was + ms else was
            case Pop(name) => if c != name || was == [] then now == was else now + [was[|was| - 1]] == was
            case Restore(snap) => now == Msgs(snap.channels, c)
            case Apply(d) =>
              now == (if c !in d.replaced then was else if d.replaced[c].Some? then d.replaced[c].value else []) + Msgs(d.appends, c)
            case _ => now == was
  {
    match op
    case Apply(d) => ReplayedMsgs(a, d, c);
    case _ =>
  }

  /** The vars an operation stamps. */
  function TouchedVars(a: Snapshot, op: Op): set<Name> {
    match op
    case SetVar(k, _) => {k}
    case DeleteVar(k) => {k}
    case AppendSlice(k, _) => if Refused(a.vars, k) then {} else {k}
    case Restore(snap) => snap.vars.Keys + a.vars.Keys
    case Apply(d) => d.removed + d.vars.Keys
    case _ => {}
  }

  /** The channels an operation stamps: everything but a plain append, and a restore stamps only what it installs. */
  function TouchedChannels(a: Snapshot, op: Op): set<Name> {
    match op
    case SetChannel(c, _) => {c}
    case Pop(c) => if Msgs(a.channels, c) == [] then {} else {c}
    case Restore(snap) => RestoredChannels(snap).Keys
    case Apply(d) => d.replaced.Keys
    case _ => {}
  }

  /** `after` is `before` with every touched key stamped in (lo, hi] and nothing else changed. */
  ghost predicate Bumped(before: Stamps, touched: set<Name>, lo: nat, hi: nat, after: Stamps) {
    && after.Keys == before.Keys + touched
    && (forall k :: k in touched ==> lo < after[k] <= hi)
    && (forall k :: k in before && k !in touched ==> after[k] == before[k])
  }

  function Size(keys: set<Name>): nat {
    |keys|
  }

  function Ticks(d: Delta): nat {
    Size(d.removed) + Size(d.vars.Keys) + Size(d.replaced.Keys)
  }

  /** How far an operation moves the write counter. */
  function Elapsed(a: Snapshot, op: Op): nat {
    match op
    case Apply(d) => Ticks(d)
    case _ => if TouchedVars(a, op) + TouchedChannels(a, op) == {} then 0 else 1
  }

  /**
   The write history an operation leaves. One write takes one tick; an applied
   delta ticks once per removed, written or replaced key, in whatever order its
   maps are iterated.
   */
  ghost predicate Stamped(s: State, op: Op, t: State) {
    && t.clock == s.clock + Elapsed(Snap(s), op)
    && Bumped(s.varSeq, TouchedVars(Snap(s), op), s.clock, t.clock, t.varSeq)
    && Bumped(s.chanSeq, TouchedChannels(Snap(s), op), s.clock, t.clock, t.chanSeq)
  }

  ghost predicate Step(s: State, op: Op, t: State) {
    Snap(t) == Effect(Snap(s), op) && Stamped(s, op, t)
  }

  /** No stamp lies ahead of the counter. */
  ghost predicate WellStamped(s: State) {
    && (forall k :: StampOf(s.varSeq, k) <= s.clock)
    && (forall c :: StampOf(s.chanSeq, c) <= s.clock)
  }

  lemma StepKeepsWellStamped(s: State, op: Op, t: State)
    requires WellStamped(s) && Step(s, op, t)
    ensures WellStamped(t)
  {
    forall k
      ensures StampOf(t.varSeq, k) <= t.clock
    {
      assert StampOf(s.varSeq, k) <= s.clock;
    }
    forall c
      ensures StampOf(t.chanSeq, c) <= t.clock
    {
      assert StampOf(s.chanSeq, c) <= s.clock;
    }
  }

  /** Operations cannot tell an absent channel from an empty one. */
  lemma EffectRespectsSame(a: Snapshot, b: Snapshot, op: Op)
    requires Same(a, b)
    ensures Same(Effect(a, op), Effect(b, op))
  {
    var x, y := Effect(a, op), Effect(b, op);
    forall c
      ensures Msgs(x.channels, c) == Msgs(y.channels, c)
    {
      assert Msgs(a.channels, c) == Msgs(b.channels, c);
      match op {
        case Apply(d) =>
          ReplayedMsgs(a, d, c);
          ReplayedMsgs(b, d, c);
        case SetChannel(n, _) =>
        case Append(n, ms) => assert Msgs(a.channels, n) == Msgs(b.channels, n);
        case Pop(n) => assert Msgs(a.channels, n) == Msgs(b.channels, n);
        case _ =>
      }
    }
  }

  function Effects(a: Snapshot, ops: seq<Op>): Snapshot
    decreases |ops|
  {
    if ops == [] then a else Effects(Effect(a, ops[0]), ops[1..])
  }

  lemma {:induction false} EffectsRespectSame(a: Snapshot, b: Snapshot, ops: seq<Op>)
    requires Same(a, b)
    ensures Same(Effects(a, ops), Effects(b, ops))
    decreases |ops|
  {
    if ops == [] {
    } else {
      EffectRespectsSame(a, b, ops[0]);
      EffectsRespectSame(Effect(a, ops[0]), Effect(b, ops[0]), ops[1..]);
    }
  }
}
