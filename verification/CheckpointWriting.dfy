/**
 The checkpoint writer: base record or continuation at every boundary, and the
 chain invariant that ties what a load returns to the board that was stamped.
 */
module CheckpointWriting {
  import opened Wrappers
  import opened BoardModel
  import opened BoardHistory
  import opened BoardObject
  import opened SnapshotDeltas
  import opened Checkpoints

  const DEFAULT_WINDOW := 32

  datatype Writer = Writer(
    execID: string, enabled: bool, journal: bool, mark: Mark, hasBase: bool, appends: nat, window: nat)

  function NewWriter(execID: string, enabled: bool, journal: bool, window: nat): Writer {
    Writer(execID, enabled && execID != "", journal, Mark(0, map[]), false, 0,
           if window > 0 then window else DEFAULT_WINDOW)
  }

  datatype Stamping = Stamping(writer: Writer, store: Store, ok: bool)

  /** The boundary may extend the chain: there is one, it has room, and the store takes continuations. */
  predicate MayAppend(w: Writer) {
    w.journal && w.hasBase && w.appends < w.window
  }

  function WriteRecord(w: Writer, st: Store, s: State, meta: Meta, onSave: Reply): Stamping {
    if onSave != Accepted then Stamping(w, st, false)
    else Stamping(w.(mark := MarkOf(s), hasBase := true, appends := 0),
                  Store(Some(Record(w.execID, meta, Snap(s))), []), true)
  }

  /** `Stamp` as a value: the store's replies are the environment's choice. */
  function Stamp(w: Writer, st: Store, s: State, meta: Meta, onAppend: Reply, onSave: Reply): Stamping {
    if !w.enabled then Stamping(w, st, true)
    else if MayAppend(w) then
      match onAppend
      case Accepted =>
        Stamping(w.(mark := MarkOf(s), appends := w.appends + 1),
                 st.(chain := st.chain + [Increment(w.execID, meta, Since(s, w.mark))]), true)
      case NeedsBase => WriteRecord(w, st, s, meta, onSave)
      case Failed => Stamping(w, st, false)
    else WriteRecord(w, st, s, meta, onSave)
  }

  /**
   When a stamp succeeds: the continuation was possible and accepted, or the full record was
   accepted and no continuation failed outright. A writer that is not enabled does nothing.
   */
  lemma StampSucceedsIff(w: Writer, st: Store, s: State, meta: Meta, onAppend: Reply, onSave: Reply)
    ensures var r := Stamp(w, st, s, meta, onAppend, onSave);
            var possible := w.journal && w.hasBase && w.appends < w.window;
            if !w.enabled then r == Stamping(w, st, true)
            else && (r.ok <==> (possible && onAppend == Accepted) || (onSave == Accepted && !(possible && onAppend == Failed)))
                 && (!r.ok ==> r.writer == w && r.store == st)
                 && (r.ok ==> |r.store.chain| == if possible && onAppend == Accepted then |st.chain| + 1 else 0)
  {
  }

  /** `StampSnapshot` as a value: the same policy over two untracked states. */
  function StampStates(w: Writer, st: Store, meta: Meta, base: Option<Snapshot>, next: Snapshot,
                       onAppend: Reply, onSave: Reply): Stamping {
    var full := if onSave != Accepted then Stamping(w, st, false)
                else Stamping(w.(hasBase := true, appends := 0), Store(Some(Record(w.execID, meta, next)), []), true);
    if !w.enabled then Stamping(w, st, true)
    else if MayAppend(w) && base.Some? then
      match onAppend
      case Accepted =>
        Stamping(w.(appends := w.appends + 1),
                 st.(chain := st.chain + [Increment(w.execID, meta, Between(base.value, next))]), true)
      case NeedsBase => full
      case Failed => Stamping(w, st, false)
    else full
  }

  /** Stamping an untracked state succeeds under the same conditions, with a base in hand; the full record is then the state itself. */
  lemma StampStatesSucceedsIff(w: Writer, st: Store, meta: Meta, base: Option<Snapshot>, next: Snapshot, onAppend: Reply, onSave: Reply)
    ensures var r := StampStates(w, st, meta, base, next, onAppend, onSave);
            var possible := w.journal && w.hasBase && w.appends < w.window && base.Some?;
            if !w.enabled then r == Stamping(w, st, true)
            else && (r.ok <==> (possible && onAppend == Accepted) || (onSave == Accepted && !(possible && onAppend == Failed)))
                 && (!r.ok ==> r.writer == w && r.store == st)
                 && (r.ok && !(possible && onAppend == Accepted) ==>
                       r.store.chain == [] && Load(r.store) == Some(Record(w.execID, meta, next)) && r.writer.hasBase && r.writer.appends == 0)
  {
  }

  /** The writer and store after stamping these boards one after the other, every call accepted. */
  function StampAll(w: Writer, st: Store, boards: seq<State>, meta: Meta): Stamping {
    if boards == [] then Stamping(w, st, true)
    else
      var r := StampAll(w, st, boards[..|boards| - 1], meta);
      Stamp(r.writer, r.store, boards[|boards| - 1], meta, Accepted, Accepted)
  }

  /** Compaction: when every call is accepted, one full record is followed by exactly a window of continuations, and so on. */
  lemma {:induction false} CompactionCycle(execID: string, window: nat, st: Store, boards: seq<State>, meta: Meta)
    requires execID != "" && boards != []
    ensures var w := NewWriter(execID, true, true, window);
            var r, size := StampAll(w, st, boards, meta), (if window > 0 then window else DEFAULT_WINDOW);
            && r.ok && r.writer.enabled && r.writer.journal && r.writer.hasBase && r.writer.window == size
            && |r.store.chain| == r.writer.appends == Remainder(|boards| - 1, size + 1)
    decreases |boards|
  {
    var w, n := NewWriter(execID, true, true, window), |boards| - 1;
    var size := if window > 0 then window else DEFAULT_WINDOW;
    hide Since, MarkOf;
    if n == 0 {
      assert boards[..0] == [];
      assert StampAll(w, st, [], meta) == Stamping(w, st, true);
    } else {
      CompactionCycle(execID, window, st, boards[..n], meta);
      NextInCycle(n - 1, size + 1);
    }
  }

  /** The remainder of n by size, by taking size away. */
  function Remainder(n: nat, size: nat): (r: nat)
    requires size > 0
    ensures r < size
  {
    if n < size then n else Remainder(n - size, size)
  }

  lemma {:induction false} NextInCycle(m: nat, size: nat)
    requires size > 1
    ensures Remainder(m + 1, size) == if Remainder(m, size) == size - 1 then 0 else Remainder(m, size) + 1
  {
    if m >= size {
      NextInCycle(m - size, size);
    }
  }

  // ------------------------------------------------------- the writer object

  class CheckpointWriter {
    const execID: string
    const enabled: bool
    const journal: bool
    var mark: Mark
    var hasBase: bool
    var appends: nat
    var window: nat

    function Contents(): Writer
      reads this
    {
      Writer(execID, enabled, journal, mark, hasBase, appends, window)
    }

    constructor (execID: string, enabled: bool, journal: bool, window: nat)
      ensures Contents() == NewWriter(execID, enabled, journal, window)
    {
      this.execID, this.enabled, this.journal := execID, enabled && execID != "", journal;
      mark, hasBase, appends := Mark(0, map[]), false, 0;
      this.window := if window > 0 then window else DEFAULT_WINDOW;
    }

    method StampBoard(meta: Meta, board: Board?, store: CheckpointStore, onAppend: Reply, onSave: Reply) returns (ok: bool)
      modifies this, store
      ensures board == null ==> ok && Contents() == old(Contents()) && store.Contents() == old(store.Contents())
      ensures board != null ==>
                var reply := if onAppend == Accepted && old(store.base).None? then NeedsBase else onAppend;
                Stamping(Contents(), store.Contents(), ok)
                == Stamp(old(Contents()), old(store.Contents()), board.Contents(), meta, reply, onSave)
    {
      if !enabled || board == null {
        return true;
      }
      if journal && hasBase && appends < window {
        var writes := board.Since(mark);
        var next := board.Mark();
        var got := store.Append(Increment(execID, meta, writes), onAppend);
        match got {
          case Accepted =>
            mark, appends := next, appends + 1;
            return true;
          case NeedsBase =>
          case Failed => return false;
        }
      }
      var snap := board.Snapshot();
      var saved := store.WriteBase(Record(execID, meta, snap), onSave);
      if saved != Accepted {
        return false;
      }
      mark := board.Mark();
      hasBase, appends := true, 0;
      return true;
    }

    method StampSnapshot(meta: Meta, base: Option<Snapshot>, next: Option<Snapshot>,
                         store: CheckpointStore, onAppend: Reply, onSave: Reply) returns (ok: bool)
      modifies this, store
      ensures next.None? ==> ok && Contents() == old(Contents()) && store.Contents() == old(store.Contents())
      ensures next.Some? ==>
                var reply := if onAppend == Accepted && old(store.base).None? then NeedsBase else onAppend;
                Stamping(Contents(), store.Contents(), ok)
                == StampStates(old(Contents()), old(store.Contents()), meta, base, next.value, reply, onSave)
    {
      if !enabled || next.None? {
        return true;
      }
      if journal && base.Some? && hasBase && appends < window {
        var d := SnapshotDelta(base, next);
        var got := store.Append(Increment(execID, meta, d), onAppend);
        match got {
          case Accepted =>
            appends := appends + 1;
            return true;
          case NeedsBase =>
          case Failed => return false;
        }
      }
      var saved := store.WriteBase(Record(execID, meta, next.value), onSave);
      if saved != Accepted {
        return false;
      }
      hasBase, appends := true, 0;
      return true;
    }
  }

  // ------------------------------------------------------------- whole runs

  /** The last boundary that became durable: the board at that moment and the envelope a load must show. */
  datatype Boundary = Boundary(board: State, meta: Meta)

  /** A board being written, its writer, its store, and (as history) the last durable boundary. */
  datatype System = System(board: State, writer: Writer, store: Store, last: Option<Boundary>)

  datatype Event =
    | Write(op: Op)
    | AtBoundary(meta: Meta, onAppend: Reply, onSave: Reply)
    | Wipe

  predicate Appends(a: System, e: Event) {
    e.AtBoundary? && a.writer.enabled && MayAppend(a.writer) && e.onAppend == Accepted
  }

  ghost predicate Next(a: System, e: Event, b: System) {
    match e
    case Write(op) =>
      Step(a.board, op, b.board) && b == a.(board := b.board)
    case Wipe =>
      b == a.(store := Store(None, []), last := None)
    case AtBoundary(meta, onAppend, onSave) =>
      var r := Stamp(a.writer, a.store, a.board, meta, onAppend, onSave);
      && (Appends(a, e) ==> a.store.base.Some?)
      && b.board == a.board && b.writer == r.writer && b.store == r.store
      && b.last == (if !r.ok || !a.writer.enabled then a.last
                    else if Appends(a, e) && a.last.Some? then Some(Boundary(a.board, Merged(a.last.value.meta, meta)))
                    else Some(Boundary(a.board, meta)))
  }

  /** A load returns exactly the last durable boundary, whatever calls failed since. */
  ghost predicate Durable(w: Writer, st: Store, at: Boundary) {
    && w.hasBase && w.mark == MarkOf(at.board)
    && st.base.Some? && |st.chain| == w.appends <= w.window
    && var r := Load(st).value;
       r.execID == w.execID && r.meta == at.meta && Same(r.board, Snap(at.board))
  }

  ghost predicate ChainOk(origin: Store, a: System) {
    && WellStamped(a.board) && a.writer.window > 0
    && (if a.last.Some?
        then Durable(a.writer, a.store, a.last.value) && Tracks(a.last.value.board, a.board)
        else a.store.base.None? || (a.store == origin && !a.writer.hasBase))
  }

  lemma DurableRecord(w: Writer, st: Store, s: State, meta: Meta)
    ensures var r := WriteRecord(w, st, s, meta, Accepted);
            Durable(r.writer, r.store, Boundary(s, meta))
  {
  }

  /** One accepted continuation: the record is right afterwards if and only if no channel was misread. */
  lemma AppendDurableIff(w: Writer, st: Store, at: Boundary, s: State, meta: Meta)
    requires w.enabled && MayAppend(w) && Durable(w, st, at) && Tracks(at.board, s)
    ensures var r := Stamp(w, st, s, meta, Accepted, Failed);
            Durable(r.writer, r.store, Boundary(s, Merged(at.meta, meta))) <==> Continues(at.board, s)
  {
    var inc := Increment(w.execID, meta, Since(s, w.mark));
    LoadAppended(st, inc);
    var was := Load(st).value.board;
    var now := Replay(was, inc.board);
    ReplayRespectsSame(was, Snap(at.board), inc.board);
    DeltaExactIffContinues(at.board, s);
    assert Same(now, Snap(s)) <==> Exact(at.board, s);
  }

  lemma StampKeepsChain(origin: Store, a: System, e: Event, b: System)
    requires ChainOk(origin, a) && Next(a, e, b) && e.AtBoundary?
    requires Appends(a, e) && a.last.Some? ==> Continues(a.last.value.board, a.board)
    ensures ChainOk(origin, b)
  {
    hide Durable, Tracks, Continues, WellStamped;
    var r := Stamp(a.writer, a.store, a.board, e.meta, e.onAppend, e.onSave);
    TracksReflexive(a.board);
    if Appends(a, e) {
      if a.last.Some? {
        AppendDurableIff(a.writer, a.store, a.last.value, a.board, e.meta);
      }
    } else if r.ok && a.writer.enabled {
      DurableRecord(a.writer, a.store, a.board, e.meta);
    }
  }

  lemma EventKeepsChain(origin: Store, a: System, e: Event, b: System)
    requires ChainOk(origin, a) && Next(a, e, b)
    requires Appends(a, e) && a.last.Some? ==> Continues(a.last.value.board, a.board)
    ensures ChainOk(origin, b)
  {
    match e
    case Write(op) =>
      StepKeepsWellStamped(a.board, op, b.board);
      if a.last.Some? {
        StepTracks(a.last.value.board, a.board, op, b.board);
      }
    case Wipe =>
    case AtBoundary(_, _, _) => StampKeepsChain(origin, a, e, b);
  }

  ghost predicate NextAt(states: seq<System>, events: seq<Event>, i: int) {
    0 <= i < |events| && i + 1 < |states| && Next(states[i], events[i], states[i + 1])
  }

  ghost predicate History(origin: Store, states: seq<System>, events: seq<Event>) {
    && |states| == |events| + 1
    && states[0].store == origin && states[0].last.None? && !states[0].writer.hasBase && states[0].writer.window > 0
    && WellStamped(states[0].board)
    && forall i :: 0 <= i < |events| ==> NextAt(states, events, i)
  }

  lemma FreshChainOk(origin: Store, a: System)
    requires a.store == origin && a.last.None? && !a.writer.hasBase && a.writer.window > 0 && WellStamped(a.board)
    ensures ChainOk(origin, a)
  {
  }

  // ------------------------------------------- a condition on the events

  /**
   A write brings back, without stamping it, a channel of the last durable boundary that
   was gone: the plain append that recreates what a restore dropped.
   */
  ghost predicate Recreates(a: System, e: Event, b: System, c: Name) {
    && e.Write? && a.last.Some?
    && c in a.last.value.board.channels && c !in a.board.channels && c in b.board.channels
    && StampOf(b.board.chanSeq, c) <= a.last.value.board.clock
  }

  ghost predicate RecreatesNothing(a: System, e: Event, b: System) {
    forall c :: !Recreates(a, e, b, c)
  }

  ghost predicate RecreatesNothingAt(states: seq<System>, events: seq<Event>, i: int) {
    0 <= i < |events| && i + 1 < |states| && RecreatesNothing(states[i], events[i], states[i + 1])
  }

  /** No channel since the last durable boundary is misread. */
  ghost predicate NothingMisread(a: System) {
    a.last.Some? ==> Continues(a.last.value.board, a.board)
  }

  /** A write that recreates nothing leaves every channel reported by length an extension of what was durable. */
  lemma WriteContinues(s0: State, s: State, op: Op, t: State, c: Name)
    requires Tracks(s0, s) && Continues(s0, s) && Step(s, op, t) && ByLength(s0, t, c) && c in s.channels
    ensures s0.channels[c] <= t.channels[c]
  {
    hide Step;
    StepChannel(s, op, t, c);
    assert StampOf(s.chanSeq, c) <= StampOf(t.chanSeq, c) || StampOf(t.chanSeq, c) > s.clock;
    assert ByLength(s0, s, c);
  }

  lemma EventMisreadsNothing(origin: Store, a: System, e: Event, b: System)
    requires ChainOk(origin, a) && NothingMisread(a) && Next(a, e, b) && RecreatesNothing(a, e, b)
    ensures NothingMisread(b)
  {
    hide Durable, Tracks, WellStamped, Stamp, Step, Continues;
    if e.Write? && a.last.Some? {
      var s0 := a.last.value.board;
      assert Continues(s0, b.board) by {
        forall c | ByLength(s0, b.board, c)
          ensures s0.channels[c] <= b.board.channels[c]
        {
          assert !Recreates(a, e, b, c);
          WriteContinues(s0, a.board, e.op, b.board, c);
        }
        ContinuesIf(s0, b.board);
      }
    } else if e.AtBoundary? && b.last != a.last {
      ContinuesSelf(b.board);
    }
  }

  lemma ContinuesIf(s0: State, s: State)
    requires forall c :: ByLength(s0, s, c) ==> s0.channels[c] <= s.channels[c]
    ensures Continues(s0, s)
  {
  }

  lemma ContinuesSelf(s: State)
    ensures Continues(s, s)
  {
  }

  /**
   The chain invariant over whole runs: for every mix of board writes, restores, lost
   records and accepted, refused and failed store calls in which no write recreates,
   unstamped, a channel of the last durable boundary that was dropped, a load gives the
   board of the last successful stamp, and the chain is as long as the writer believes and
   never longer than its window.
   */
  lemma {:induction false} ChainInvariant(origin: Store, states: seq<System>, events: seq<Event>, n: nat)
    requires History(origin, states, events) && n <= |events|
    requires forall i :: 0 <= i < n ==> RecreatesNothingAt(states, events, i)
    ensures ChainOk(origin, states[n]) && NothingMisread(states[n])
    decreases n
  {
    hide ChainOk, Next, Continues, RecreatesNothing;
    if n == 0 {
      FreshChainOk(origin, states[0]);
    } else {
      ChainInvariant(origin, states, events, n - 1);
      assert NextAt(states, events, n - 1) && RecreatesNothingAt(states, events, n - 1);
      EventKeepsChain(origin, states[n - 1], events[n - 1], states[n]);
      EventMisreadsNothing(origin, states[n - 1], events[n - 1], states[n]);
    }
  }

  /**
   Recovery, over whole runs: whatever was refused, failed or lost before, a boundary whose
   full record the store accepts, and whose continuation it does not fail outright, is
   durable: a load then shows the board of that boundary.
   */
  lemma AcceptedBoundaryIsDurable(origin: Store, states: seq<System>, events: seq<Event>, n: nat)
    requires History(origin, states, events) && n < |events| && (forall i :: 0 <= i < n ==> RecreatesNothingAt(states, events, i))
    requires events[n].AtBoundary? && states[n].writer.enabled && events[n].onSave == Accepted && events[n].onAppend != Failed
    ensures var st := states[n + 1].store;
            && Load(st).Some? && Same(Load(st).value.board, Snap(states[n].board))
            && states[n + 1].last.Some? && states[n + 1].last.value.board == states[n].board
  {
    hide ChainOk, Continues;
    ChainInvariant(origin, states, events, n);
    assert NextAt(states, events, n);
    EventKeepsChain(origin, states[n], events[n], states[n + 1]);
    StampSucceedsIff(states[n].writer, states[n].store, states[n].board, events[n].meta, events[n].onAppend, events[n].onSave);
    hide Stamp;
    DurableInChain(origin, states[n + 1]);
  }

  lemma DurableInChain(origin: Store, a: System)
    requires ChainOk(origin, a) && a.last.Some?
    ensures Load(a.store).Some? && Same(Load(a.store).value.board, Snap(a.last.value.board))
  {
    hide Tracks, WellStamped, Same;
  }

  /**
   A failed boundary costs nothing: the durable record is still there, and the next
   boundary that succeeds, over whatever was written before and after the failure,
   makes the board of that moment durable.
   */
  lemma FailureLosesNothing(w: Writer, st: Store, at: Boundary, s: State, meta: Meta, onAppend: Reply, onSave: Reply,
                            later: State, meta': Meta, onAppend': Reply, onSave': Reply)
    requires w.enabled && Durable(w, st, at) && Tracks(at.board, later) && Continues(at.board, later)
    requires !Stamp(w, st, s, meta, onAppend, onSave).ok
    ensures var failed := Stamp(w, st, s, meta, onAppend, onSave);
            && Durable(failed.writer, failed.store, at)
            && var r := Stamp(failed.writer, failed.store, later, meta', onAppend', onSave');
               r.ok ==> Durable(r.writer, r.store,
                                Boundary(later, if MayAppend(w) && onAppend' == Accepted then Merged(at.meta, meta') else meta'))
  {
    hide Durable, Tracks, Continues;
    if MayAppend(w) && onAppend' == Accepted {
      AppendDurableIff(w, st, at, later, meta');
    } else {
      DurableRecord(w, st, later, meta');
    }
  }

  // ---------------------------------------------------------- stale records

  /** The channel's later delta does not depend on what the record holds: it is replaced whole. */
  predicate ReportedWhole(marked: State, s: State, c: Name) {
    if c in s.channels then StampOf(s.chanSeq, c) > marked.clock else c in marked.channels
  }

  /** The messages past the marked length, which is all a delta says about any other channel. */
  function Tail(marked: State, s: State, c: Name): seq<Message> {
    var before, now := Msgs(marked.channels, c), Msgs(s.channels, c);
    if |now| > |before| then now[|before|..] else []
  }

  /** One var of any record after replaying the delta since a mark. */
  lemma ReplayedOnVar(recorded: Snapshot, marked: State, s: State, k: Name)
    ensures Lookup(Replay(recorded, Since(s, MarkOf(marked))).vars, k)
            == if StampOf(s.varSeq, k) > marked.clock then Lookup(s.vars, k) else Lookup(recorded.vars, k)
  {
  }

  /** One channel of any record after replaying the delta since a mark. */
  lemma ReplayedOnChannel(recorded: Snapshot, marked: State, s: State, c: Name)
    ensures Msgs(Replay(recorded, Since(s, MarkOf(marked))).channels, c)
            == if ReportedWhole(marked, s, c) then Msgs(s.channels, c) else Msgs(recorded.channels, c) + Tail(marked, s, c)
  {
    ReplayedMsgs(recorded, Since(s, MarkOf(marked)), c);
  }

  /**
   `SinceMark` reads the delta and the next mark under two separate locks, and the base
   path marks after it wrote: the record holds `captured` while the mark is `marked`.
   For every later board the next continuation repairs the record if and only if every
   var not written since the mark is the same in both, and every channel not reported
   whole is what was captured plus the reported tail.
   */
  lemma LateMarkRepairedIff(recorded: Snapshot, captured: State, marked: State, s: State)
    requires Same(recorded, Snap(captured)) && Tracks(marked, s)
    ensures Same(Replay(recorded, Since(s, MarkOf(marked))), Snap(s)) <==>
            && (forall k :: StampOf(s.varSeq, k) <= marked.clock ==> Lookup(captured.vars, k) == Lookup(marked.vars, k))
            && (forall c :: !ReportedWhole(marked, s, c) ==> Msgs(captured.channels, c) + Tail(marked, s, c) == Msgs(s.channels, c))
  {
    var got := Replay(recorded, Since(s, MarkOf(marked)));
    SameVarsIff(got.vars, s.vars);
    forall k
      ensures Lookup(got.vars, k) == Lookup(s.vars, k) <==>
              (StampOf(s.varSeq, k) <= marked.clock ==> Lookup(captured.vars, k) == Lookup(marked.vars, k))
    {
      ReplayedOnVar(recorded, marked, s, k);
    }
    forall c
      ensures Msgs(got.channels, c) == Msgs(s.channels, c) <==>
              (!ReportedWhole(marked, s, c) ==> Msgs(captured.channels, c) + Tail(marked, s, c) == Msgs(s.channels, c))
    {
      ReplayedOnChannel(recorded, marked, s, c);
      assert Msgs(recorded.channels, c) == Msgs(Snap(captured).channels, c);
    }
    hide Replay, Since, Lookup, Msgs, Tail, ReportedWhole;
  }

  lemma SameVarsIff(a: map<Name, Value>, b: map<Name, Value>)
    ensures a == b <==> forall k :: Lookup(a, k) == Lookup(b, k)
  {
    if forall k :: Lookup(a, k) == Lookup(b, k) {
      forall k
        ensures k in a <==> k in b
        ensures k in a ==> a[k] == b[k]
      {
        assert Lookup(a, k) == Lookup(b, k);
      }
    }
  }

  /**
   What that costs a run in which no restore orphans a channel: the continuation loses
   exactly the writes of the window to vars and channels that were not written whole
   again since. A new base, which does not depend on the mark, never does.
   */
  lemma LateMarkLosesWritesIff(recorded: Snapshot, captured: State, marked: State, s: State)
    requires Same(recorded, Snap(captured)) && Follows(marked, s)
    ensures Same(Replay(recorded, Since(s, MarkOf(marked))), Snap(s)) <==>
            && (forall k :: StampOf(s.varSeq, k) <= marked.clock ==> Lookup(captured.vars, k) == Lookup(marked.vars, k))
            && (forall c :: !ReportedWhole(marked, s, c) ==> Msgs(captured.channels, c) == Msgs(marked.channels, c))
  {
    LateMarkRepairedIff(recorded, captured, marked, s);
    forall c | !ReportedWhole(marked, s, c)
      ensures Msgs(captured.channels, c) + Tail(marked, s, c) == Msgs(s.channels, c) <==>
              Msgs(captured.channels, c) == Msgs(marked.channels, c)
    {
      TailContinues(marked, s, c);
      SamePrefix(Msgs(captured.channels, c), Msgs(marked.channels, c), Tail(marked, s, c));
    }
    hide Tail, Msgs, Lookup, ReportedWhole, Follows, Replay, Since;
  }

  lemma TailContinues(marked: State, s: State, c: Name)
    requires Follows(marked, s) && !ReportedWhole(marked, s, c)
    ensures Msgs(marked.channels, c) + Tail(marked, s, c) == Msgs(s.channels, c)
  {
    if c in s.channels {
      assert Msgs(marked.channels, c) <= Msgs(s.channels, c);
    }
  }

  lemma SamePrefix<T>(a: seq<T>, b: seq<T>, tail: seq<T>)
    ensures a + tail == b + tail <==> a == b
  {
    if a + tail == b + tail {
      assert |a| == |b|;
      assert a == (a + tail)[..|a|] && b == (b + tail)[..|b|];
    }
  }

  ghost predicate TracksAt(marks: seq<State>, i: int) {
    0 < i < |marks| && Tracks(marks[i - 1], marks[i])
  }

  /** The boards at consecutive boundaries of one run. */
  ghost predicate Successive(marks: seq<State>) {
    |marks| > 0 && forall i :: 0 < i < |marks| ==> TracksAt(marks, i)
  }

  lemma EarlierSuccessive(marks: seq<State>)
    requires Successive(marks) && |marks| > 1
    ensures Successive(marks[..|marks| - 1]) && Tracks(marks[|marks| - 2], marks[|marks| - 1])
  {
    hide Tracks;
    var before := marks[..|marks| - 1];
    forall i | 0 < i < |before| ensures TracksAt(before, i) { assert TracksAt(marks, i); }
    assert TracksAt(marks, |marks| - 1);
  }

  lemma StampsGrow(a: State, b: State, k: Name)
    requires Tracks(a, b)
    ensures StampOf(a.varSeq, k) <= StampOf(b.varSeq, k) && a.clock <= b.clock
    ensures StampOf(b.varSeq, k) <= a.clock ==> Lookup(a.vars, k) == Lookup(b.vars, k)
  {
  }

  lemma LastDelta(recorded: Snapshot, marks: seq<State>)
    requires |marks| > 1
    ensures var n := |marks| - 1;
            ReplayAll(recorded, Deltas(marks)) == Replay(ReplayAll(recorded, Deltas(marks[..n])), Since(marks[n], MarkOf(marks[n - 1])))
  {
    hide Replay, Since, MarkOf;
    var n := |marks| - 1;
    var ds, before := Deltas(marks), Deltas(marks[..n]);
    assert |ds| == n && |before| == n - 1 && forall i :: 0 <= i < n - 1 ==> ds[i] == before[i];
    assert ds[..n - 1] == before;
  }

  /**
   A var the window changed stays wrong in the record through every later continuation,
   however many are accepted, until it is written again.
   */
  lemma {:induction false} WindowWriteStaysLost(recorded: Snapshot, marks: seq<State>, k: Name)
    requires |marks| > 0 && Successive(marks) && StampOf(marks[|marks| - 1].varSeq, k) <= marks[0].clock
    ensures Lookup(ReplayAll(recorded, Deltas(marks)).vars, k) == Lookup(recorded.vars, k)
    ensures Lookup(marks[|marks| - 1].vars, k) == Lookup(marks[0].vars, k)
    ensures marks[0].clock <= marks[|marks| - 1].clock
    decreases |marks|
  {
    hide Replay, Since, Tracks, Successive, Lookup, StampOf;
    if |marks| > 1 {
      var n := |marks| - 1;
      EarlierSuccessive(marks);
      StampsGrow(marks[n - 1], marks[n], k);
      WindowWriteStaysLost(recorded, marks[..n], k);
      LastDelta(recorded, marks);
      ReplayedOnVar(ReplayAll(recorded, Deltas(marks[..n])), marks[n - 1], marks[n], k);
    }
  }

  ghost predicate FollowsAt(marks: seq<State>, i: int) {
    0 < i < |marks| && Follows(marks[i - 1], marks[i])
  }

  /** Consecutive boundaries of a run in which no restore orphans a channel. */
  ghost predicate Unbroken(marks: seq<State>) {
    |marks| > 0 && forall i :: 0 < i < |marks| ==> FollowsAt(marks, i)
  }

  lemma EarlierUnbroken(marks: seq<State>)
    requires Unbroken(marks) && |marks| > 1
    ensures Unbroken(marks[..|marks| - 1]) && Follows(marks[|marks| - 2], marks[|marks| - 1])
  {
    hide Follows;
    var before := marks[..|marks| - 1];
    forall i | 0 < i < |before| ensures FollowsAt(before, i) { assert FollowsAt(marks, i); }
    assert FollowsAt(marks, |marks| - 1);
  }

  lemma UnstampedChannelGrows(a: State, b: State, c: Name)
    requires Follows(a, b) && StampOf(b.chanSeq, c) <= a.clock
    ensures StampOf(a.chanSeq, c) <= StampOf(b.chanSeq, c) && a.clock <= b.clock
    ensures Msgs(a.channels, c) <= Msgs(b.channels, c) && !ReportedWhole(a, b, c)
    ensures Tail(a, b, c) == Msgs(b.channels, c)[|Msgs(a.channels, c)|..]
  {
  }

  lemma ClockGrows(a: State, b: State, c: Name)
    requires Follows(a, b)
    ensures a.clock <= b.clock && StampOf(a.chanSeq, c) <= StampOf(b.chanSeq, c)
  {
  }

  /**
   The channel half: a channel that is not stamped again keeps, through every later
   continuation, the messages recorded before the window, followed only by what was
   appended after the mark; what the window did to it stays lost.
   */
  lemma {:induction false} WindowChannelStaysLost(recorded: Snapshot, marks: seq<State>, c: Name)
    requires |marks| > 0 && Unbroken(marks) && StampOf(marks[|marks| - 1].chanSeq, c) <= marks[0].clock
    ensures var first, last := Msgs(marks[0].channels, c), Msgs(marks[|marks| - 1].channels, c);
            first <= last && Msgs(ReplayAll(recorded, Deltas(marks)).channels, c) == Msgs(recorded.channels, c) + last[|first|..]
    ensures marks[0].clock <= marks[|marks| - 1].clock
    decreases |marks|
  {
    hide Replay, Since, Follows, Unbroken, Msgs, StampOf, Tail;
    if |marks| > 1 {
      var n := |marks| - 1;
      EarlierUnbroken(marks);
      ClockGrows(marks[n - 1], marks[n], c);
      WindowChannelStaysLost(recorded, marks[..n], c);
      UnstampedChannelGrows(marks[n - 1], marks[n], c);
      LastDelta(recorded, marks);
      ReplayedOnChannel(ReplayAll(recorded, Deltas(marks[..n])), marks[n - 1], marks[n], c);
      TwoTails(Msgs(recorded.channels, c), Msgs(marks[0].channels, c), Msgs(marks[n - 1].channels, c), Msgs(marks[n].channels, c));
    }
  }

  lemma TwoTails<T>(r: seq<T>, a: seq<T>, b: seq<T>, d: seq<T>)
    requires a <= b <= d
    ensures a <= d && r + b[|a|..] + d[|b|..] == r + d[|a|..]
  {
    assert b[|a|..] + d[|b|..] == d[|a|..];
  }

  /** Every `SetVar` that lands between the two locks and changes something is such a loss, whatever board it lands on. */
  lemma WriteBetweenLocksIsLost(captured: State, k: Name, v: Value, marks: seq<State>)
    requires WellStamped(captured) && Lookup(captured.vars, k) != Some(v)
    requires Successive(marks) && Step(captured, SetVar(k, v), marks[0])
    requires StampOf(marks[|marks| - 1].varSeq, k) <= marks[0].clock
    ensures Lookup(marks[|marks| - 1].vars, k) == Some(v)
    ensures Lookup(ReplayAll(Snap(captured), Deltas(marks)).vars, k) == Lookup(captured.vars, k)
  {
    WindowWriteStaysLost(Snap(captured), marks, k);
    assert marks[0].vars == Effect(Snap(captured), SetVar(k, v)).vars;
  }

  // -------------------------------------------------------- untracked states

  /** Stamping a state over the record the store handed back: exact under the honest-sample condition, and only then. */
  lemma StampStatesExactIff(w: Writer, st: Store, meta: Meta, base: Snapshot, next: Snapshot)
    requires w.enabled && MayAppend(w) && Load(st).Some? && Same(Load(st).value.board, base)
    ensures var r := StampStates(w, st, meta, Some(base), next, Accepted, Failed);
            r.ok && Load(r.store).Some? &&
            (Same(Load(r.store).value.board, next) <==>
             (forall c :: c in next.channels ==> SampleIsPrefix(Msgs(base.channels, c), next.channels[c])))
  {
    var inc := Increment(w.execID, meta, Between(base, next));
    LoadAppended(st, inc);
    ReplayRespectsSame(Load(st).value.board, base, inc.board);
    SnapshotDeltaExactIff(base, next);
  }
}
