/**
 The bus close always finishes: once it has marked the bus closed, publishes can
 only take boundedly many more steps, and until it is done some step towards the
 end is possible, parked Block publishes included.
 */
module BusProgress {
  import opened Wrappers
  import opened Sums
  import opened BusModel
  import opened BusSafety

  // ------------------------------------------------------- who gets woken

  /** Some subscription close has removed `id` and is about to signal it. */
  ghost predicate AboutToSignal(s: Bus, id: Id) {
    exists c :: c in s.closers && s.closers[c] == Closer(id, Signalling)
  }

  ghost predicate WillWake(s: Bus, id: Id)
    requires id in s.subs
  {
    s.subs[id].done || (s.shutdown.WakingUp? && id in s.shutdown.left) || AboutToSignal(s, id)
  }

  /** Every subscription that is no longer registered is signalled or about to be. */
  ghost predicate Wakeable(s: Bus) {
    forall id :: id in s.subs && id !in s.registered ==> WillWake(s, id)
  }

  lemma GoKeepsDone(cfg: Config, s: Bus, p: Pid, how: Choice, s': Bus)
    requires Inv(cfg, s) && DoGo(cfg, s, p, how) == Some(s') && !s.panicked && !s'.panicked
    ensures s'.subs.Keys == s.subs.Keys && s'.registered == s.registered && s'.closers == s.closers && s'.shutdown == s.shutdown
    ensures forall id :: id in s.subs ==> s'.subs[id].done == s.subs[id].done
  {
    hide PubMove, Moved, Shape, LocalOk, RouteOk, SenderOk, CacheOk, Locks, SubsOk, Stored, ClosersOk, ShutdownOk;
    var q := s.pubs[p];
    var m := PubMove(cfg, s, p, q, how).value;
    MovedIsApplied(s, p, m, s');
    MoveHasShape(cfg, s, p, q, how, m);
    if Target(q) in s.subs {
      ShapeKeepsTarget(cfg, s, p, q, m.q, m.sub);
    }
  }

  lemma GoKeepsWakeable(cfg: Config, s: Bus, p: Pid, how: Choice, s': Bus)
    requires Inv(cfg, s) && Wakeable(s) && DoGo(cfg, s, p, how) == Some(s') && !s.panicked
    ensures Wakeable(s')
  {
    hide Inv, PubMove, Moved, AboutToSignal;
    if s'.panicked {
      assert s' == s.(panicked := true) by { PanicChangesNothing(cfg, s, p, how, s'); }
    } else {
      GoKeepsDone(cfg, s, p, how, s');
      hide DoGo;
    }
    forall id | id in s'.subs && id !in s'.registered
      ensures WillWake(s', id)
    {
      SameClosers(s, s', id);
    }
  }

  lemma PanicChangesNothing(cfg: Config, s: Bus, p: Pid, how: Choice, s': Bus)
    requires DoGo(cfg, s, p, how) == Some(s') && !s.panicked && s'.panicked
    ensures s' == s.(panicked := true)
  {
    hide PubMove;
  }

  lemma SameClosers(s: Bus, s': Bus, id: Id)
    requires s'.closers == s.closers
    ensures AboutToSignal(s, id) == AboutToSignal(s', id)
  {
  }

  lemma RemoveKeepsWakeable(s: Bus, c: nat, id: Id, s': Bus)
    requires Wakeable(s) && c in s.closers && s.closers[c] == Closer(id, Removing) && DoRemove(s, c, id) == Some(s')
    ensures Wakeable(s')
  {
    forall x | x in s'.subs && x !in s'.registered
      ensures WillWake(s', x)
    {
      if x == id {
        assert s'.closers[c] == Closer(id, Signalling);
      } else if AboutToSignal(s, x) {
        var d :| d in s.closers && s.closers[d] == Closer(x, Signalling);
        assert s'.closers[d] == s.closers[d];
      }
    }
  }

  lemma CloserDidKeepsWakeable(s: Bus, c: nat, id: Id, t: Sub, pc: CloserPc, s': Bus)
    requires Wakeable(s) && c in s.closers && s.closers[c].sub == id && id in s.subs && s' == CloserDid(s, c, id, t, pc)
    requires (s.subs[id].done ==> t.done) && (s.closers[c].pc.Signalling? ==> t.done)
    ensures Wakeable(s')
  {
    forall x | x in s'.subs && x !in s'.registered
      ensures WillWake(s', x)
    {
      assert WillWake(s, x);
      if AboutToSignal(s, x) {
        var d :| d in s.closers && s.closers[d] == Closer(x, Signalling);
        assert d == c || s'.closers[d] == s.closers[d];
      }
    }
  }

  lemma CloserKeepsWakeable(s: Bus, c: nat, s': Bus)
    requires Wakeable(s) && DoCloser(s, c) == Some(s')
    ensures Wakeable(s')
  {
    hide Wakeable, DoRemove, CloserDid;
    var id := s.closers[c].sub;
    var t := s.subs[id];
    match s.closers[c].pc
    case Removing => RemoveKeepsWakeable(s, c, id, s');
    case Signalling => CloserDidKeepsWakeable(s, c, id, t.(done := true), Waiting, s');
    case Waiting => CloserDidKeepsWakeable(s, c, id, t.(swept := true), Closing, s');
    case Closing => CloserDidKeepsWakeable(s, c, id, t.(open := false), Finished, s');
  }

  lemma OtherKeepsWakeable(cfg: Config, s: Bus, a: Action, s': Bus)
    requires Wakeable(s) && SubsOk(s) && ShutdownOk(s) && Do(cfg, s, a) == Some(s') && !a.Go? && !a.CloserGo?
    ensures Wakeable(s')
  {
    hide SubOk, AboutToSignal;
    forall id | id in s'.subs && id !in s'.registered
      ensures WillWake(s', id)
    {
      if id in s.subs {
        assert s.subs[id].done ==> s'.subs[id].done;
        if AboutToSignal(s, id) {
          SignalSurvives(cfg, s, a, s', id);
        }
      }
    }
  }

  lemma SignalSurvives(cfg: Config, s: Bus, a: Action, s': Bus, id: Id)
    requires Do(cfg, s, a) == Some(s') && !a.Go? && !a.CloserGo? && AboutToSignal(s, id)
    ensures AboutToSignal(s', id)
  {
    var c :| c in s.closers && s.closers[c] == Closer(id, Signalling);
    assert c in s'.closers && s'.closers[c] == s.closers[c];
  }

  lemma StepKeepsWakeable(cfg: Config, s: Bus, a: Action, s': Bus)
    requires Inv(cfg, s) && Wakeable(s) && Do(cfg, s, a) == Some(s')
    ensures Wakeable(s')
  {
    hide Wakeable, Locks, PubsOk, SubsOk, ClosersOk, ShutdownOk, CacheOk;
    if a.Go? {
      hide DoGo;
      GoKeepsWakeable(cfg, s, a.p, a.how, s');
    } else if a.CloserGo? {
      hide DoCloser;
      CloserKeepsWakeable(s, a.c, s');
    } else {
      hide Do;
      OtherKeepsWakeable(cfg, s, a, s');
    }
  }

  lemma {:induction false} RunKeepsWakeable(cfg: Config, actions: seq<Action>)
    requires Run(cfg, INIT, actions).Some? && !Run(cfg, INIT, actions).value.panicked
    ensures Inv(cfg, Run(cfg, INIT, actions).value) && Wakeable(Run(cfg, INIT, actions).value)
    decreases |actions|
  {
    RunKeepsInv(cfg, actions);
    if actions != [] {
      var before := actions[..|actions| - 1];
      assert !Run(cfg, INIT, before).value.panicked;
      hide Do, Inv, Wakeable;
      RunKeepsWakeable(cfg, before);
      StepKeepsWakeable(cfg, Run(cfg, INIT, before).value, actions[|actions| - 1], Run(cfg, INIT, actions).value);
    }
  }

  // -------------------------------------------------------------- measure

  /** Steps a publish can still take on a closed bus. */
  function Rank(pc: Pc): nat {
    match pc
    case Parked => 4
    case Woken => 3
    case Relocking => 2
    case Registered => 2
    case Reporting => 1
    case _ => 5
  }

  ghost function Ranks(pubs: map<Pid, Pub>): map<nat, nat> {
    map p | p in pubs :: Rank(pubs[p].pc)
  }

  ghost function Undone(s: Bus): set<Id> {
    set id | id in s.subs && !s.subs[id].done
  }

  function ShutdownRank(d: Shutdown): nat {
    match d
    case Idle => 0
    case WakingUp(subs, left) => |left| + 2 * |subs| + 1
    case ClosingChannels(left, waited) => |left| + |left - waited|
  }

  ghost function Measure(s: Bus): nat {
    |Undone(s)| + Sum(Ranks(s.pubs)) + ShutdownRank(s.shutdown)
  }

  /** The bus close has returned. */
  predicate Closed(s: Bus) {
    s.shutdown.ClosingChannels? && s.shutdown.left == {}
  }

  lemma RankMoves(pubs: map<Pid, Pub>, p: Pid, q: Pub)
    requires p in pubs
    ensures Sum(Ranks(pubs[p := q])) == Sum(Ranks(pubs)) - Rank(pubs[p].pc) + Rank(q.pc)
  {
    var w := Ranks(pubs);
    SumUpdates(w, p, Rank(q.pc));
    assert Ranks(pubs[p := q]) == w[p := Rank(q.pc)];
  }

  lemma RankLeaves(pubs: map<Pid, Pub>, p: Pid)
    requires p in pubs
    ensures Sum(Ranks(pubs - {p})) == Sum(Ranks(pubs)) - Rank(pubs[p].pc)
  {
    var w := Ranks(pubs);
    SumUpdates(w, p, 0);
    assert Ranks(pubs - {p}) == w - {p};
  }

  /** On a closed bus every publish step brings the publish closer to its return. */
  lemma ClosedShapeDescends(cfg: Config, s: Bus, p: Pid, q: Pub, q': Pub, t': Sub)
    requires Shape(cfg, s, p, q, q', t') && s.closed && !Holding(q.pc)
    ensures Rank(q'.pc) < Rank(q.pc) && t'.done == SubOf(s, Target(q)).done
  {
    hide Enumerates, Matching;
  }

  lemma GoDescends(cfg: Config, s: Bus, p: Pid, how: Choice, s': Bus)
    requires Inv(cfg, s) && s.closed && DoGo(cfg, s, p, how) == Some(s') && !s.panicked && !s'.panicked
    ensures Measure(s') < Measure(s)
  {
    hide PubMove, Moved, Shape, LocalOk, RouteOk, SenderOk, CacheOk, SubsOk, Stored, ClosersOk, ShutdownOk, PubsOk, Sum, Rank, Ranks;
    var q := s.pubs[p];
    var m := PubMove(cfg, s, p, q, how).value;
    MovedIsApplied(s, p, m, s');
    MoveHasShape(cfg, s, p, q, how, m);
    assert p !in s.readers;
    ClosedShapeDescends(cfg, s, p, q, m.q, m.sub);
    RankMoves(s.pubs, p, m.q);
    assert Undone(s') == Undone(s);
  }

  lemma UndoneShrinks(s: Bus, id: Id, t: Sub, s': Bus)
    requires id in s.subs && s'.subs == s.subs[id := t] && (s.subs[id].done ==> t.done)
    ensures Undone(s') <= Undone(s) && |Undone(s')| <= |Undone(s)|
    ensures t.done && !s.subs[id].done ==> |Undone(s')| < |Undone(s)|
  {
    var u := Undone(s);
    assert Undone(s') == if t.done then u - {id} else u;
  }

  /** Steps that publishes and the bus close take themselves. */
  predicate Helps(a: Action) {
    a.Go? || a.Return? || a.WakeUp? || a.InflightDrained? || a.SendersDrained? || a.CloseChannel?
  }

  lemma WakeUpDescends(s: Bus, id: Id, s': Bus)
    requires ShutdownOk(s) && DoWakeUp(s, id) == Some(s')
    ensures Measure(s') < Measure(s) && s'.closed
  {
    hide Sum, Ranks;
    UndoneShrinks(s, id, s'.subs[id], s');
    hide Undone;
    assert |s.shutdown.left - {id}| < |s.shutdown.left|;
  }

  lemma InflightDrainedDescends(s: Bus, s': Bus)
    requires ShutdownOk(s) && DoInflightDrained(s) == Some(s')
    ensures Measure(s') < Measure(s) && s'.closed
  {
    hide Sum, Ranks;
    assert Undone(s') == Undone(s);
    assert s.shutdown.subs - {} == s.shutdown.subs;
  }

  lemma SendersDrainedDescends(s: Bus, id: Id, s': Bus)
    requires ShutdownOk(s) && DoSendersDrained(s, id) == Some(s')
    ensures Measure(s') < Measure(s) && s'.closed
  {
    hide Sum, Ranks;
    assert Undone(s') == Undone(s);
    var rest := s.shutdown.left - s.shutdown.waited;
    assert s.shutdown.left - (s.shutdown.waited + {id}) == rest - {id};
  }

  lemma CloseChannelDescends(s: Bus, id: Id, s': Bus)
    requires ShutdownOk(s) && DoCloseChannel(s, id) == Some(s')
    ensures Measure(s') < Measure(s) && s'.closed
  {
    hide Sum, Ranks;
    UndoneShrinks(s, id, s'.subs[id], s');
    hide Undone;
    assert |s.shutdown.left - {id}| < |s.shutdown.left|;
    assert (s.shutdown.left - {id}) - s.shutdown.waited == s.shutdown.left - s.shutdown.waited;
  }

  /** On a closed bus no step sets the close back, and its own steps and the publishes' bring it forward. */
  lemma NothingSetsCloseBack(cfg: Config, s: Bus, a: Action, s': Bus)
    requires Inv(cfg, s) && s.closed && Do(cfg, s, a) == Some(s') && !s'.panicked
    ensures s'.closed && Measure(s') <= Measure(s)
    ensures Helps(a) ==> Measure(s') < Measure(s)
  {
    hide Inv, Sum, Ranks, PubMove;
    InvShutdown(cfg, s);
    match a
    case Go(p, how) => GoDescends(cfg, s, p, how, s');
    case Return(p) => RankLeaves(s.pubs, p); assert Undone(s') == Undone(s);
    case Receive(id) => UndoneShrinks(s, id, s'.subs[id], s');
    case CloseSub(c, id) => assert Undone(s') == Undone(s);
    case CloserGo(c) => CloserSetsNothingBack(s, c, s');
    case WakeUp(id) => WakeUpDescends(s, id, s');
    case InflightDrained => InflightDrainedDescends(s, s');
    case SendersDrained(id) => SendersDrainedDescends(s, id, s');
    case CloseChannel(id) => CloseChannelDescends(s, id, s');
    case _ =>
  }

  lemma InvShutdown(cfg: Config, s: Bus)
    requires Inv(cfg, s)
    ensures ShutdownOk(s)
  {
  }

  lemma CloserSetsNothingBack(s: Bus, c: nat, s': Bus)
    requires DoCloser(s, c) == Some(s')
    ensures s'.closed == s.closed && Measure(s') <= Measure(s)
    ensures s.closers[c].pc.Signalling? && !s.subs[s.closers[c].sub].done ==> Measure(s') < Measure(s)
  {
    hide Sum, Ranks, Undone;
    var id := s.closers[c].sub;
    if s.closers[c].pc.Removing? {
      SameUndone(s, s');
    } else {
      UndoneShrinks(s, id, s'.subs[id], s');
    }
  }

  lemma SameUndone(s: Bus, s': Bus)
    requires s'.subs == s.subs
    ensures Undone(s') == Undone(s)
  {
  }

  // ------------------------------------------------------------- progress

  lemma Descends(cfg: Config, s: Bus, a: Action) returns (s': Bus)
    requires Inv(cfg, s) && s.closed && Do(cfg, s, a).Some? && !Do(cfg, s, a).value.panicked
    requires Helps(a)
    ensures Do(cfg, s, a) == Some(s') && Measure(s') < Measure(s) && !s'.panicked
  {
    hide Inv, Do, Measure;
    s' := Do(cfg, s, a).value;
    NothingSetsCloseBack(cfg, s, a, s');
  }

  /** A publish that is still running on a closed bus can go on, or its subscription is about to wake it. */
  lemma PublishCanGoOn(cfg: Config, s: Bus, p: Pid) returns (a: Action, s': Bus)
    requires Inv(cfg, s) && Wakeable(s) && s.closed && !s.panicked && p in s.pubs
    requires s.shutdown.WakingUp? && s.shutdown.left == {}
    ensures Do(cfg, s, a) == Some(s') && Measure(s') < Measure(s) && !s'.panicked
  {
    var q := s.pubs[p];
    hide Measure, MatchesSub, PassedBlock, Enumerates, Matching;
    assert !Holding(q.pc) && s.registered == {};
    if q.pc.Reporting? {
      a := Return(p);
      s' := Descends(cfg, s, a);
    } else if q.pc.Parked? {
      hide Locks, SubsOk, ClosersOk, ShutdownOk, CacheOk;
      a, s' := ParkedIsWoken(cfg, s, p);
    } else {
      a := Go(p, Plain);
      s' := Descends(cfg, s, a);
    }
  }

  lemma ParkedIsWoken(cfg: Config, s: Bus, p: Pid) returns (a: Action, s': Bus)
    requires Inv(cfg, s) && Wakeable(s) && s.closed && !s.panicked && p in s.pubs && s.pubs[p].pc.Parked?
    requires s.shutdown.WakingUp? && s.shutdown.left == {} && s.registered == {}
    ensures Do(cfg, s, a) == Some(s') && Measure(s') < Measure(s) && !s'.panicked
  {
    hide Measure, MatchesSub, PassedBlock, Enumerates, Matching, Locks, SubsOk, ClosersOk, ShutdownOk, CacheOk, Shape;
    var q := s.pubs[p];
    var id := Target(q);
    TargetIsKnown(cfg, s, q);
    assert WillWake(s, id);
    if s.subs[id].done {
      a := Go(p, Wake);
      s' := Descends(cfg, s, a);
    } else {
      var c :| c in s.closers && s.closers[c] == Closer(id, Signalling);
      a := CloserGo(c);
      s' := Do(cfg, s, a).value;
      CloserSetsNothingBack(s, c, s');
    }
  }

  /** Until the bus close has returned, some step towards its end is possible. */
  lemma CloseIsNeverStuck(cfg: Config, s: Bus) returns (a: Action, s': Bus)
    requires Inv(cfg, s) && Wakeable(s) && s.closed && !s.panicked && !Closed(s)
    ensures Do(cfg, s, a) == Some(s') && Measure(s') < Measure(s) && !s'.panicked
  {
    hide Measure, PubsOk, SubsOk, ClosersOk, CacheOk, Wakeable;
    match s.shutdown
    case WakingUp(subs, left) =>
      if left != {} {
        var id :| id in left;
        a := WakeUp(id);
        s' := Descends(cfg, s, a);
      } else if s.pubs == map[] {
        assert s.inflight == {};
        a := InflightDrained;
        s' := Descends(cfg, s, a);
      } else {
        var p :| p in s.pubs;
        a, s' := PublishCanGoOn(cfg, s, p);
      }
    case ClosingChannels(left, waited) =>
      var id :| id in left;
      if id in waited {
        a := CloseChannel(id);
      } else {
        NoSendersLeft(cfg, s, id);
        a := SendersDrained(id);
      }
      s' := Descends(cfg, s, a);
  }

  lemma NoSendersLeft(cfg: Config, s: Bus, id: Id)
    requires Inv(cfg, s) && s.pubs == map[] && id in s.subs
    ensures s.subs[id].senders == {}
  {
    hide PubsOk, Locks, CacheOk, ClosersOk, ShutdownOk;
    assert SubOk(s, id, s.subs[id]);
  }

  /** From every closed state that keeps the invariants the close can run to its end. */
  lemma {:induction false} CloseCanFinish(cfg: Config, s: Bus) returns (actions: seq<Action>)
    requires Inv(cfg, s) && Wakeable(s) && s.closed && !s.panicked
    ensures Run(cfg, s, actions).Some? && Closed(Run(cfg, s, actions).value) && |actions| <= Measure(s)
    decreases Measure(s)
  {
    hide Inv, Wakeable, Do, Measure;
    if Closed(s) {
      actions := [];
    } else {
      var a, s' := CloseIsNeverStuck(cfg, s);
      StepKeepsInv(cfg, s, a, s');
      StepKeepsWakeable(cfg, s, a, s');
      StaysClosed(cfg, s, a, s');
      var rest := CloseCanFinish(cfg, s');
      actions := [a] + rest;
      RunPrepends(cfg, s, a, s', rest);
    }
  }

  /** Whatever interleaving led to a closed bus that has not panicked, its close can still run to the end. */
  lemma CloseAlwaysFinishes(cfg: Config, actions: seq<Action>) returns (more: seq<Action>)
    requires Run(cfg, INIT, actions).Some? && Run(cfg, INIT, actions).value.closed && !Run(cfg, INIT, actions).value.panicked
    ensures var s := Run(cfg, INIT, actions).value; Run(cfg, s, more).Some? && Closed(Run(cfg, s, more).value)
  {
    hide Run, Inv, Wakeable, Measure;
    RunKeepsWakeable(cfg, actions);
    more := CloseCanFinish(cfg, Run(cfg, INIT, actions).value);
  }

  lemma StaysClosed(cfg: Config, s: Bus, a: Action, s': Bus)
    requires Inv(cfg, s) && s.closed && Do(cfg, s, a) == Some(s') && !s'.panicked
    ensures s'.closed
  {
    hide Inv, Do, Measure;
    NothingSetsCloseBack(cfg, s, a, s');
  }

  lemma {:induction false} RunPrepends(cfg: Config, s: Bus, a: Action, s': Bus, rest: seq<Action>)
    requires Do(cfg, s, a) == Some(s')
    ensures Run(cfg, s, [a] + rest) == Run(cfg, s', rest)
    decreases |rest|
  {
    hide Do;
    var all := [a] + rest;
    if rest == [] {
      assert all[..|all| - 1] == [];
      assert Run(cfg, s, []) == Some(s);
    } else {
      assert all[..|all| - 1] == [a] + rest[..|rest| - 1];
      RunPrepends(cfg, s, a, s', rest[..|rest| - 1]);
    }
  }

  /** How many steps of a run publishes and the bus close took themselves. */
  function HelpingSteps(actions: seq<Action>): nat {
    if actions == [] then 0
    else HelpingSteps(actions[..|actions| - 1]) + if Helps(actions[|actions| - 1]) then 1 else 0
  }

  /** No run of a closed bus, whatever consumers and other closers do, contains more such steps than the measure. */
  lemma {:induction false} CloseTakesBoundedSteps(cfg: Config, s: Bus, actions: seq<Action>)
    requires Inv(cfg, s) && s.closed && Run(cfg, s, actions).Some? && !Run(cfg, s, actions).value.panicked
    ensures var s' := Run(cfg, s, actions).value;
            Inv(cfg, s') && s'.closed && HelpingSteps(actions) + Measure(s') <= Measure(s)
    decreases |actions|
  {
    hide Inv, Do, Measure, Helps;
    if actions != [] {
      var before := actions[..|actions| - 1];
      var a := actions[|actions| - 1];
      var mid := Run(cfg, s, before).value;
      assert !mid.panicked by { NotPanickedBefore(cfg, mid, a); }
      CloseTakesBoundedSteps(cfg, s, before);
      StepKeepsInv(cfg, mid, a, Run(cfg, s, actions).value);
      NothingSetsCloseBack(cfg, mid, a, Run(cfg, s, actions).value);
    }
  }

  lemma NotPanickedBefore(cfg: Config, s: Bus, a: Action)
    requires Do(cfg, s, a).Some?
    ensures !s.panicked
  {
  }

  // ----------------------------------------------- before the bus is marked

  /** How far a lock holder is from letting go. */
  function ScanRank(q: Pub): int {
    4 * (|q.route| - q.i) + match q.pc
      case Missed => 4
      case Scanning => 3
      case Sending => 2
      case Evicting => 1
      case _ => 0
  }

  lemma {:induction false} SomeOrder(ids: set<Id>) returns (route: seq<Id>)
    ensures Enumerates(route, ids)
  {
    if ids == {} {
      route := [];
    } else {
      var id :| id in ids;
      var rest := SomeOrder(ids - {id});
      route := rest + [id];
    }
  }

  lemma ShapeScans(cfg: Config, s: Bus, p: Pid, q: Pub, q': Pub, t': Sub)
    requires Shape(cfg, s, p, q, q', t') && LocalOk(cfg, q) && Holding(q.pc) && Holding(q'.pc)
    ensures !q'.pc.Locked? && (q.pc.Locked? || 0 <= ScanRank(q') < ScanRank(q))
  {
    hide MatchesSub, PassedBlock, Enumerates, Matching, SubOf;
  }

  lemma HolderHasMove(cfg: Config, s: Bus, p: Pid, q: Pub) returns (how: Choice, m: Move)
    requires Holding(q.pc)
    ensures PubMove(cfg, s, p, q, how) == Some(m)
  {
    hide Enumerates, Matching, ScanMove, SendMove, EvictMove, TrySend, Stored;
    how := Plain;
    if q.pc.Locked? {
      var route := SomeOrder(Matching(cfg, s.registered, q.env.subject));
      how := Order(route);
    }
    m := PubMove(cfg, s, p, q, how).value;
  }

  /** A publish that holds the read lock never waits, and its scan comes to an end: it blocks no writer for ever. */
  lemma LockHolderNeverWaits(cfg: Config, s: Bus, p: Pid) returns (how: Choice, m: Move)
    requires Inv(cfg, s) && p in s.readers
    ensures p in s.pubs && PubMove(cfg, s, p, s.pubs[p], how) == Some(m)
    ensures m.Move? && Holding(m.q.pc) ==> !m.q.pc.Locked? && (s.pubs[p].pc.Locked? || 0 <= ScanRank(m.q) < ScanRank(s.pubs[p]))
  {
    hide PubMove, Shape, LocalOk, SubsOk, ClosersOk, ShutdownOk, CacheOk, RouteOk, SenderOk;
    var q := s.pubs[p];
    how, m := HolderHasMove(cfg, s, p, q);
    if m.Move? && Holding(m.q.pc) {
      MoveHasShape(cfg, s, p, q, how, m);
      ShapeScans(cfg, s, p, q, m.q, m.sub);
    }
  }
}
