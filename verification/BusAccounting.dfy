/** Where envelopes and drops go: every channel is first in, first out, and every counted drop is reported or pending. */
module BusAccounting {
  import opened Wrappers
  import opened Sums
  import opened BusModel
  import opened BusSafety

  // --------------------------------------------------------- one channel

  function Left(out: seq<Exit>): seq<Envelope> {
    if out == [] then [] else Left(out[..|out| - 1]) + [out[|out| - 1].env]
  }

  /** What was enqueued is what was consumed or evicted followed by what is buffered, in order and within the buffer size. */
  ghost predicate Conserves(size: nat, t: Sub) {
    t.accepted == Left(t.out) + t.buf && |t.buf| <= size
  }

  lemma EnqueueConserves(size: nat, t: Sub, env: Envelope)
    requires Conserves(size, t) && |t.buf| < size
    ensures Conserves(size, Enqueued(t, env))
  {
    assert Left(t.out) + (t.buf + [env]) == Left(t.out) + t.buf + [env];
  }

  lemma TakeConserves(size: nat, t: Sub, e: Exit)
    requires Conserves(size, t) && t.buf != [] && e.env == t.buf[0]
    ensures Conserves(size, t.(buf := t.buf[1..], out := t.out + [e]))
  {
    var out := t.out + [e];
    assert out[..|out| - 1] == t.out;
    assert Left(out) + t.buf[1..] == Left(t.out) + ([t.buf[0]] + t.buf[1..]);
    assert [t.buf[0]] + t.buf[1..] == t.buf;
  }

  // ---------------------------------------------------------------- drops

  /** The drops the bus-wide counter counts; a subscription found closed is reported but not counted. */
  function Counted(drops: seq<Drop>): nat {
    Tally(drops, IsCounted)
  }

  predicate IsCounted(d: Drop) {
    d.reason != Closed
  }

  ghost function Pending(pubs: map<Pid, Pub>): map<nat, nat> {
    map p | p in pubs :: Counted(pubs[p].drops)
  }

  /** The counter is what was reported plus what running publishes have yet to report. */
  ghost predicate DropsAddUp(s: Bus) {
    s.dropped == Counted(s.reports) + Sum(Pending(s.pubs))
  }

  ghost predicate Books(cfg: Config, s: Bus) {
    && DropsAddUp(s)
    && forall id :: id in s.subs ==> Conserves(cfg.spec(id).size, s.subs[id])
  }

  // ------------------------------------------------------ publish steps

  /** A step adds to the counter exactly the counted drops it notes, and its channel conserves. */
  ghost predicate Balanced(cfg: Config, q: Pub, t: Sub, m: Move)
    requires m.Move?
  {
    && Counted(m.q.drops) == Counted(q.drops) + m.lost
    && (Conserves(cfg.spec(Target(q)).size, t) ==> Conserves(cfg.spec(Target(q)).size, m.sub))
    && Delivered(q, t, m.q, m.sub)
  }

  /** The publish notes a delivery exactly when its envelope enters the channel. */
  predicate Delivered(q: Pub, t: Sub, q': Pub, t': Sub) {
    || (t'.accepted == t.accepted && q'.delivers == q.delivers)
    || (t'.accepted == t.accepted + [q.env] && q'.delivers == q.delivers + [Target(q)])
  }

  lemma DroppingBalances(cfg: Config, q: Pub, reason: Reason)
    ensures Counted(Dropping(q, reason).drops) == Counted(q.drops) + if reason == Closed then 0 else 1
  {
    TallyOne(q.drops, Drop(Target(q), reason, true), IsCounted);
  }

  lemma DisplacingBalances(q: Pub)
    ensures Counted(Displacing(q).drops) == Counted(q.drops) + 1
  {
    TallyOne(q.drops, Drop(Target(q), BufferFull, false), IsCounted);
  }

  lemma TrySendBalances(cfg: Config, s: Bus, q: Pub, m: Move)
    requires m.Move? && m == TrySend(cfg, s, q)
    ensures Balanced(cfg, q, SubOf(s, Target(q)), m)
  {
    hide Counted, Conserves;
    var t := SubOf(s, Target(q));
    DroppingBalances(cfg, q, BufferFull);
    if Conserves(cfg.spec(Target(q)).size, t) && |t.buf| < cfg.spec(Target(q)).size {
      EnqueueConserves(cfg.spec(Target(q)).size, t, q.env);
    }
  }

  lemma SenderChangeConserves(size: nat, t: Sub, senders: set<Pid>)
    ensures Conserves(size, t.(senders := senders)) == Conserves(size, t)
  {
  }

  lemma SendBalances(cfg: Config, s: Bus, p: Pid, q: Pub, keep: bool, m: Move)
    requires m.Move? && m == SendMove(cfg, s, p, q, keep)
    ensures Balanced(cfg, q, SubOf(s, Target(q)), m)
  {
    hide Counted, Conserves, TrySend, Balanced;
    var t := SubOf(s, Target(q));
    if m == TrySend(cfg, s, q) {
      TrySendBalances(cfg, s, q, m);
    } else {
      DroppingBalances(cfg, q, Sampled);
      SenderChangeConserves(cfg.spec(Target(q)).size, t, t.senders + {p});
      assert Balanced(cfg, q, t, m) by { BalancedMeans(cfg, q, t, m); }
    }
  }

  lemma BalancedMeans(cfg: Config, q: Pub, t: Sub, m: Move)
    requires m.Move? && Counted(m.q.drops) == Counted(q.drops) + m.lost
    requires Conserves(cfg.spec(Target(q)).size, t) ==> Conserves(cfg.spec(Target(q)).size, m.sub)
    requires Delivered(q, t, m.q, m.sub)
    ensures Balanced(cfg, q, t, m)
  {
  }

  lemma EvictBalances(cfg: Config, s: Bus, q: Pub, m: Move)
    requires m == EvictMove(s, q)
    ensures m.Move? && Balanced(cfg, q, SubOf(s, Target(q)), m)
  {
    hide Counted, Conserves;
    var t := SubOf(s, Target(q));
    DisplacingBalances(q);
    if Conserves(cfg.spec(Target(q)).size, t) && t.buf != [] {
      TakeConserves(cfg.spec(Target(q)).size, t, Evicted(t.buf[0]));
    }
  }

  lemma ParkedBalances(cfg: Config, s: Bus, p: Pid, q: Pub, how: Choice, m: Move)
    requires m.Move? && ParkedMove(cfg, s, p, q, how) == Some(m)
    ensures Balanced(cfg, q, SubOf(s, Target(q)), m)
  {
    hide Counted, Conserves;
    var t := SubOf(s, Target(q));
    DroppingBalances(cfg, q, Closed);
    SenderChangeConserves(cfg.spec(Target(q)).size, t, t.senders - {p});
    if Conserves(cfg.spec(Target(q)).size, t) && |t.buf| < cfg.spec(Target(q)).size {
      EnqueueConserves(cfg.spec(Target(q)).size, t, q.env);
    }
  }

  lemma ScanBalances(cfg: Config, s: Bus, q: Pub, m: Move)
    requires m == ScanMove(cfg, s, q)
    ensures m.Move? && Balanced(cfg, q, SubOf(s, Target(q)), m)
  {
    hide Counted, Conserves;
    DroppingBalances(cfg, q, Closed);
  }

  lemma MoveBalances(cfg: Config, s: Bus, p: Pid, q: Pub, how: Choice, m: Move)
    requires m.Move? && PubMove(cfg, s, p, q, how) == Some(m)
    ensures Balanced(cfg, q, SubOf(s, Target(q)), m)
  {
    hide Stored, Enumerates, Matching, ScanMove, SendMove, EvictMove, ParkedMove, TrySend, SubOf, Target, Counted, Conserves;
    var t := SubOf(s, Target(q));
    match q.pc
    case Scanning => ScanBalances(cfg, s, q, m);
    case Sending => SendBalances(cfg, s, p, q, how.Keep? && how.keep, m);
    case Evicting => EvictBalances(cfg, s, q, m);
    case Retrying => TrySendBalances(cfg, s, q, m);
    case Parked => ParkedBalances(cfg, s, p, q, how, m);
    case Woken => SenderChangeConserves(cfg.spec(Target(q)).size, t, t.senders - {p});
    case _ =>
  }

  // ------------------------------------------------------------ all steps

  lemma PendingMoves(pubs: map<Pid, Pub>, p: Pid, q: Pub)
    ensures Sum(Pending(pubs[p := q])) == Sum(Pending(pubs)) - (if p in pubs then Counted(pubs[p].drops) else 0) + Counted(q.drops)
  {
    hide Counted;
    var w := Pending(pubs);
    SumUpdates(w, p, Counted(q.drops));
    assert Pending(pubs[p := q]) == w[p := Counted(q.drops)];
  }

  lemma PendingLeaves(pubs: map<Pid, Pub>, p: Pid)
    requires p in pubs
    ensures Sum(Pending(pubs - {p})) == Sum(Pending(pubs)) - Counted(pubs[p].drops)
  {
    hide Counted;
    var w := Pending(pubs);
    SumUpdates(w, p, 0);
    assert Pending(pubs - {p}) == w - {p};
  }

  lemma GoKeepsBooks(cfg: Config, s: Bus, p: Pid, how: Choice, s': Bus)
    requires Books(cfg, s) && DoGo(cfg, s, p, how) == Some(s') && !s.panicked
    ensures Books(cfg, s')
  {
    hide PubMove, Counted, Pending, Sum, Conserves;
    if !s'.panicked {
      var q := s.pubs[p];
      var m := PubMove(cfg, s, p, q, how).value;
      MovedIsApplied(s, p, m, s');
      hide Moved;
      MoveBalances(cfg, s, p, q, how, m);
      PendingMoves(s.pubs, p, m.q);
    }
  }

  lemma ReturnKeepsBooks(cfg: Config, s: Bus, p: Pid, s': Bus)
    requires Books(cfg, s) && DoReturn(s, p) == Some(s')
    ensures Books(cfg, s')
  {
    hide Tally, Pending, Sum, Conserves;
    PendingLeaves(s.pubs, p);
    TallyJoin(s.reports, s.pubs[p].drops, IsCounted);
  }

  lemma PublishKeepsBooks(cfg: Config, s: Bus, p: Pid, env: Envelope, s': Bus)
    requires Books(cfg, s) && DoPublish(s, p, env) == Some(s')
    ensures Books(cfg, s')
  {
    hide Pending, Sum, Conserves;
    PendingMoves(s.pubs, p, s'.pubs[p]);
  }

  lemma ReceiveKeepsBooks(cfg: Config, s: Bus, id: Id, s': Bus)
    requires Books(cfg, s) && DoReceive(s, id) == Some(s')
    ensures Books(cfg, s')
  {
    hide Pending, Sum, Counted, Conserves;
    TakeConserves(cfg.spec(id).size, s.subs[id], Consumed(s.subs[id].buf[0]));
  }

  /** The channel's contents are the same; only its ends may have changed. */
  predicate SameContents(t: Sub, t': Sub) {
    t'.buf == t.buf && t'.accepted == t.accepted && t'.out == t.out
  }

  lemma SubscribeConserves(size: nat)
    ensures Conserves(size, CREATED)
  {
  }

  lemma SameConserves(size: nat, t: Sub, t': Sub)
    requires Conserves(size, t) && SameContents(t, t')
    ensures Conserves(size, t')
  {
  }

  /** Nothing enters or leaves a channel, and no publish moves. */
  ghost predicate Quiet(s: Bus, s': Bus) {
    && s'.pubs == s.pubs && s'.dropped == s.dropped && s'.reports == s.reports
    && (forall id :: id in s.subs ==> id in s'.subs && SameContents(s.subs[id], s'.subs[id]))
    && (forall id :: id in s'.subs && id !in s.subs ==> s'.subs[id] == CREATED)
  }

  lemma CloserIsQuiet(s: Bus, c: nat, s': Bus)
    requires DoCloser(s, c) == Some(s')
    ensures Quiet(s, s')
  {
    hide CloserDid, DoRemove;
    var id := s.closers[c].sub;
    var t := s.subs[id];
    match s.closers[c].pc
    case Removing => RemoveIsQuiet(s, c, id, s');
    case Signalling => CloserDidIsQuiet(s, c, id, t.(done := true), Waiting, s');
    case Waiting => CloserDidIsQuiet(s, c, id, t.(swept := true), Closing, s');
    case Closing => CloserDidIsQuiet(s, c, id, t.(open := false), Finished, s');
  }

  lemma RemoveIsQuiet(s: Bus, c: nat, id: Id, s': Bus)
    requires DoRemove(s, c, id) == Some(s')
    ensures Quiet(s, s')
  {
  }

  lemma CloserDidIsQuiet(s: Bus, c: nat, id: Id, t: Sub, pc: CloserPc, s': Bus)
    requires s' == CloserDid(s, c, id, t, pc) && id in s.subs && SameContents(s.subs[id], t)
    ensures Quiet(s, s')
  {
  }

  lemma QuietStep(cfg: Config, s: Bus, a: Action, s': Bus)
    requires Do(cfg, s, a) == Some(s') && !a.Go? && !a.Return? && !a.Publish? && !a.Receive?
    ensures Quiet(s, s')
  {
    if a.CloserGo? {
      hide Quiet, DoCloser;
      CloserIsQuiet(s, a.c, s');
    }
  }

  lemma StepKeepsBooks(cfg: Config, s: Bus, a: Action, s': Bus)
    requires Books(cfg, s) && Do(cfg, s, a) == Some(s')
    ensures Books(cfg, s')
  {
    hide Pending, Sum, Counted, Conserves, SameContents;
    match a
    case Go(p, how) => hide Books, DoGo; GoKeepsBooks(cfg, s, p, how, s');
    case Return(p) => hide Books, DoReturn; ReturnKeepsBooks(cfg, s, p, s');
    case Publish(p, env) => hide Books, DoPublish; PublishKeepsBooks(cfg, s, p, env, s');
    case Receive(id) => hide Books, DoReceive; ReceiveKeepsBooks(cfg, s, id, s');
    case _ =>
      hide Do;
      QuietStep(cfg, s, a, s');
      forall id | id in s'.subs
        ensures Conserves(cfg.spec(id).size, s'.subs[id])
      {
        if id in s.subs {
          SameConserves(cfg.spec(id).size, s.subs[id], s'.subs[id]);
        } else {
          SubscribeConserves(cfg.spec(id).size);
        }
      }
  }

  /** In every reachable state every channel is first in, first out, and the drop counter adds up. */
  lemma {:induction false} BooksBalance(cfg: Config, actions: seq<Action>)
    requires Run(cfg, INIT, actions).Some?
    ensures Books(cfg, Run(cfg, INIT, actions).value)
    decreases |actions|
  {
    if actions != [] {
      hide Do, Books;
      BooksBalance(cfg, actions[..|actions| - 1]);
      StepKeepsBooks(cfg, Run(cfg, INIT, actions[..|actions| - 1]).value, actions[|actions| - 1], Run(cfg, INIT, actions).value);
    } else {
      assert Pending(INIT.pubs) == map[];
    }
  }

  // -------------------------------------------- DropOldest, one publisher

  ghost predicate AtMostOne(s: Bus) {
    forall p, q :: p in s.pubs && q in s.pubs ==> p == q
  }

  /** At most one publish is running at any time of the run. */
  ghost predicate OnePublisher(cfg: Config, actions: seq<Action>) {
    forall k :: 0 <= k <= |actions| ==> Run(cfg, INIT, actions[..k]).Some? && AtMostOne(Run(cfg, INIT, actions[..k]).value)
  }

  ghost predicate HasRoom(cfg: Config, s: Bus, q: Pub) {
    q.pc.Retrying? ==> |SubOf(s, Target(q)).buf| < cfg.spec(Target(q)).size
  }

  /** After an eviction there is room for the newest envelope. */
  ghost predicate RoomAtRetry(cfg: Config, s: Bus) {
    forall p :: p in s.pubs ==> HasRoom(cfg, s, s.pubs[p])
  }

  lemma EvictMakesRoom(cfg: Config, s: Bus, p: Pid, q: Pub, how: Choice, m: Move)
    requires m.Move? && PubMove(cfg, s, p, q, how) == Some(m) && m.q.pc.Retrying?
    requires |SubOf(s, Target(q)).buf| <= cfg.spec(Target(q)).size
    ensures q.pc.Evicting? && Target(m.q) == Target(q) && |m.sub.buf| < cfg.spec(Target(q)).size
  {
    EvictIsFromEvicting(cfg, s, p, q, how, m);
    hide Stored, Enumerates, Matching, TrySend, SendMove, ScanMove, ParkedMove, LookupMove;
  }

  lemma EvictIsFromEvicting(cfg: Config, s: Bus, p: Pid, q: Pub, how: Choice, m: Move)
    requires m.Move? && PubMove(cfg, s, p, q, how) == Some(m) && m.q.pc.Retrying?
    ensures q.pc.Evicting?
  {
    hide PubMove, Enumerates, Matching, SubOf;
    MoveHasShape(cfg, s, p, q, how, m);
  }

  lemma GoKeepsRoom(cfg: Config, s: Bus, p: Pid, how: Choice, s': Bus)
    requires Inv(cfg, s) && Books(cfg, s) && AtMostOne(s) && DoGo(cfg, s, p, how) == Some(s') && !s.panicked && !s'.panicked
    ensures RoomAtRetry(cfg, s')
  {
    hide PubMove, Shape, SenderOk, CacheOk, Locks, SubsOk, Stored, ClosersOk, ShutdownOk, Enumerates, Matching, MatchesSub, PassedBlock, DropsAddUp;
    var q := s.pubs[p];
    var m := PubMove(cfg, s, p, q, how).value;
    MovedIsApplied(s, p, m, s');
    assert s'.pubs.Keys == s.pubs.Keys;
    if m.q.pc.Retrying? {
      assert |SubOf(s, Target(q)).buf| <= cfg.spec(Target(q)).size;
      EvictMakesRoom(cfg, s, p, q, how, m);
      TargetIsKnown(cfg, s, q);
    }
  }

  lemma OtherKeepsRoom(cfg: Config, s: Bus, a: Action, s': Bus)
    requires Inv(cfg, s) && RoomAtRetry(cfg, s) && !a.Go? && Do(cfg, s, a) == Some(s')
    ensures RoomAtRetry(cfg, s')
  {
    hide Inv, Do, Target, SubOf;
    forall p | p in s'.pubs
      ensures HasRoom(cfg, s', s'.pubs[p])
    {
      OtherMovesNone(cfg, s, a, s', p);
      if s'.pubs[p].pc.Retrying? {
        assert HasRoom(cfg, s, s.pubs[p]);
        OtherAddsNothing(cfg, s, a, s', p);
      }
    }
  }

  lemma OtherMovesNone(cfg: Config, s: Bus, a: Action, s': Bus, p: Pid)
    requires !a.Go? && Do(cfg, s, a) == Some(s') && p in s'.pubs
    ensures if p in s.pubs then s'.pubs[p] == s.pubs[p] else s'.pubs[p].pc.Registered?
  {
    if !a.Return? && !a.Publish? && !a.Receive? {
      QuietStep(cfg, s, a, s');
      hide Do;
    }
  }

  lemma OtherAddsNothing(cfg: Config, s: Bus, a: Action, s': Bus, p: Pid)
    requires Inv(cfg, s) && !a.Go? && Do(cfg, s, a) == Some(s') && p in s.pubs && s.pubs[p].pc.Retrying?
    ensures |SubOf(s', Target(s.pubs[p])).buf| <= |SubOf(s, Target(s.pubs[p])).buf|
  {
    hide Enumerates, Matching, MatchesSub, PassedBlock, SenderOk, SubsOk, ClosersOk, ShutdownOk, CacheOk;
    TargetIsKnown(cfg, s, s.pubs[p]);
    hide Inv;
    if !a.Return? && !a.Publish? && !a.Receive? {
      QuietStep(cfg, s, a, s');
      hide Do;
    }
  }

  lemma {:induction false} OnePublisherKeepsRoom(cfg: Config, actions: seq<Action>)
    requires Run(cfg, INIT, actions).Some? && !Run(cfg, INIT, actions).value.panicked && OnePublisher(cfg, actions)
    ensures RoomAtRetry(cfg, Run(cfg, INIT, actions).value)
    decreases |actions|
  {
    hide Do, Inv, Books, RoomAtRetry;
    assert actions[..|actions|] == actions;
    if actions != [] {
      var before := actions[..|actions| - 1];
      var s := Run(cfg, INIT, before).value;
      var a := actions[|actions| - 1];
      var s' := Run(cfg, INIT, actions).value;
      PrefixHasOnePublisher(cfg, actions);
      StillRunning(cfg, s, a);
      OnePublisherKeepsRoom(cfg, before);
      RunKeepsInv(cfg, before);
      BooksBalance(cfg, before);
      RoomStep(cfg, s, a, s');
    } else {
      NoPublishHasRoom(cfg);
    }
  }

  lemma NoPublishHasRoom(cfg: Config)
    ensures RoomAtRetry(cfg, INIT)
  {
  }

  lemma StillRunning(cfg: Config, s: Bus, a: Action)
    requires Do(cfg, s, a).Some?
    ensures !s.panicked
  {
  }

  lemma PrefixHasOnePublisher(cfg: Config, actions: seq<Action>)
    requires OnePublisher(cfg, actions) && actions != []
    ensures OnePublisher(cfg, actions[..|actions| - 1])
    ensures Run(cfg, INIT, actions[..|actions| - 1]).Some? && AtMostOne(Run(cfg, INIT, actions[..|actions| - 1]).value)
  {
    hide Run, AtMostOne;
    var before := actions[..|actions| - 1];
    forall k | 0 <= k <= |before|
      ensures Run(cfg, INIT, before[..k]).Some? && AtMostOne(Run(cfg, INIT, before[..k]).value)
    {
      assert before[..k] == actions[..k];
    }
  }

  lemma RoomStep(cfg: Config, s: Bus, a: Action, s': Bus)
    requires Inv(cfg, s) && Books(cfg, s) && AtMostOne(s) && RoomAtRetry(cfg, s)
    requires Do(cfg, s, a) == Some(s') && !s'.panicked
    ensures RoomAtRetry(cfg, s')
  {
    hide Inv, Books, AtMostOne, RoomAtRetry, DoGo;
    if a.Go? {
      GoKeepsRoom(cfg, s, a.p, a.how, s');
    } else {
      hide Do;
      OtherKeepsRoom(cfg, s, a, s');
    }
  }

  /** With one publisher, a DropOldest send always ends with the newest envelope in the channel. */
  lemma NewestIsNeverLost(cfg: Config, actions: seq<Action>, p: Pid, how: Choice, m: Move)
    requires Run(cfg, INIT, actions).Some? && !Run(cfg, INIT, actions).value.panicked && OnePublisher(cfg, actions)
    requires var s := Run(cfg, INIT, actions).value;
             p in s.pubs && s.pubs[p].pc.Retrying? && m.Move? && PubMove(cfg, s, p, s.pubs[p], how) == Some(m)
    ensures var s := Run(cfg, INIT, actions).value; var q := s.pubs[p];
            && m.sub.buf == SubOf(s, Target(q)).buf + [q.env] && m.lost == 0
            && m.q.delivers == q.delivers + [Target(q)] && m.q.drops == q.drops
  {
    hide Run, OnePublisher;
    OnePublisherKeepsRoom(cfg, actions);
    var s := Run(cfg, INIT, actions).value;
    assert HasRoom(cfg, s, s.pubs[p]);
  }
}
