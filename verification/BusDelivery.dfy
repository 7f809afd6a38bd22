/** What a publish owes its subscriptions: room means delivery, and every allowed subscription of the route is accounted for once. */
module BusDelivery {
  import opened Wrappers
  import opened BusModel
  import opened BusSafety

  // ------------------------------------------------------------- one step

  /** The policy sends this envelope rather than sampling it away. */
  predicate Sends(policy: Policy, how: Choice) {
    match policy
    case Block => false
    case Sample(rate) => rate >= 1.0 || (rate > 0.0 && how == Keep(true))
    case _ => true
  }

  /** The publish is about to try the target's channel. */
  predicate Tries(cfg: Config, q: Pub, how: Choice) {
    match q.pc
    case Sending => Sends(cfg.spec(Target(q)).policy, how)
    case Retrying => true
    case Parked => how.Send?
    case _ => false
  }

  /** A send to an open channel with room enqueues the envelope last and notes the delivery. */
  lemma RoomMeansDelivery(cfg: Config, s: Bus, p: Pid, q: Pub, how: Choice)
    requires Tries(cfg, q, how) && SubOf(s, Target(q)).open && |SubOf(s, Target(q)).buf| < cfg.spec(Target(q)).size
    ensures var t, move := SubOf(s, Target(q)), PubMove(cfg, s, p, q, how);
            && move.Some? && move.value.Move? && move.value.lost == 0
            && move.value.sub == t.(buf := t.buf + [q.env], accepted := t.accepted + [q.env])
            && move.value.q.delivers == q.delivers + [Target(q)] && move.value.q.drops == q.drops
  {
  }

  /** Against a full open channel DropOldest goes on to evict, a parked publish stays blocked, and any other send drops its own envelope. */
  lemma FullMeansDrop(cfg: Config, s: Bus, p: Pid, q: Pub, how: Choice)
    requires Tries(cfg, q, how) && SubOf(s, Target(q)).open && |SubOf(s, Target(q)).buf| >= cfg.spec(Target(q)).size
    ensures var t, move := SubOf(s, Target(q)), PubMove(cfg, s, p, q, how);
            if q.pc.Parked? then move.None?
            else if q.pc.Sending? && cfg.spec(Target(q)).policy.DropOldest? then move == Some(Move(q.(pc := Evicting), t, 0, s.cache))
            else && move.Some? && move.value.Move? && move.value.lost == 1 && move.value.sub == t
                 && move.value.q.delivers == q.delivers
                 && move.value.q.drops == q.drops + [Drop(Target(q), BufferFull, true)]
  {
  }

  // ---------------------------------------------------------- one publish

  /** How often the publish noted a delivery to the subscription, or a drop of its own envelope there. */
  function Noted(q: Pub, id: Id): nat {
    multiset(q.delivers)[id] + multiset(q.drops)[Drop(id, BufferFull, true)]
    + multiset(q.drops)[Drop(id, Sampled, true)] + multiset(q.drops)[Drop(id, Closed, true)]
  }

  /** How many subscriptions of the route are dealt with. */
  function Settled(q: Pub): nat {
    if q.pc.Woken? || q.pc.Relocking? || q.answer.BusGone? then q.i + 1 else q.i
  }

  function Due(cfg: Config, q: Pub, j: nat): nat
    requires j < |q.route|
  {
    if j < Settled(q) && cfg.spec(q.route[j]).allows(q.env) then 1 else 0
  }

  /** Exactly one note for every allowed subscription dealt with, and none for any other. */
  ghost predicate Fair(cfg: Config, q: Pub) {
    && (forall j :: 0 <= j < |q.route| ==> Noted(q, q.route[j]) == Due(cfg, q, j))
    && (forall id :: id !in q.route ==> Noted(q, id) == 0)
  }

  ghost predicate AnswerOk(s: Bus, q: Pub) {
    && (q.pc.Reporting? <==> !q.answer.Unanswered?)
    && (q.answer.Served? ==> q.i == |q.route|)
    && (q.answer.BusGone? ==> s.closed)
  }

  ghost predicate AllFair(cfg: Config, s: Bus) {
    forall p :: p in s.pubs ==> Fair(cfg, s.pubs[p]) && AnswerOk(s, s.pubs[p])
  }

  predicate NotesNothing(q: Pub, q': Pub) {
    q'.delivers == q.delivers && (q'.drops == q.drops || q'.drops == q.drops + [Drop(Target(q), BufferFull, false)])
  }

  predicate NotesOne(q: Pub, q': Pub) {
    || (q'.delivers == q.delivers + [Target(q)] && q'.drops == q.drops)
    || (q'.delivers == q.delivers && q'.drops == q.drops + [Drop(Target(q), BufferFull, true)])
    || (q'.delivers == q.delivers && q'.drops == q.drops + [Drop(Target(q), Sampled, true)])
    || (q'.delivers == q.delivers && q'.drops == q.drops + [Drop(Target(q), Closed, true)])
  }

  /** A step leaves the count where it is and notes nothing, or deals with the target and notes it once if it is allowed. */
  predicate Settles(cfg: Config, q: Pub, q': Pub) {
    || (Settled(q') == Settled(q) && NotesNothing(q, q'))
    || (Settled(q') == Settled(q) + 1 && Settled(q) == q.i < |q.route|
        && if cfg.spec(Target(q)).allows(q.env) then NotesOne(q, q') else NotesNothing(q, q'))
  }

  /** Why a drop of the published envelope itself was noted. */
  predicate HasReason(cfg: Config, t: Sub, q: Pub, how: Choice, reason: Reason) {
    match reason
    case BufferFull => Tries(cfg, q, how) && |t.buf| >= cfg.spec(Target(q)).size
    case Sampled => q.pc.Sending? && cfg.spec(Target(q)).policy.Sample? && !Sends(cfg.spec(Target(q)).policy, how)
    case Closed => t.done && (q.pc.Scanning? || (q.pc.Parked? && how.Wake?))
  }

  predicate Justifies(cfg: Config, t: Sub, q: Pub, how: Choice, q': Pub, reason: Reason) {
    q'.drops == q.drops + [Drop(Target(q), reason, true)] ==> HasReason(cfg, t, q, how, reason)
  }

  /** Why the publish is about to return what it returns. */
  predicate AnswerHasReason(closed: bool, q: Pub, how: Choice, answer: Answer) {
    match answer
    case Served => q.pc.Scanning? && q.i >= |q.route|
    case GaveUp => q.pc.Parked? && how.Cancel?
    case BusGone => closed && (q.pc.Registered? || q.pc.Relocking?)
    case Unanswered => false
  }

  /** The step settles what it should, drops only with a reason and answers only with a reason. */
  predicate Proper(cfg: Config, s: Bus, q: Pub, how: Choice, q': Pub) {
    && Settles(cfg, q, q')
    && (forall reason :: Justifies(cfg, SubOf(s, Target(q)), q, how, q', reason))
    && (if q'.pc.Reporting? then AnswerHasReason(s.closed, q, how, q'.answer) else q'.answer == q.answer)
  }

  lemma NoDropNeedsNoReason(cfg: Config, t: Sub, q: Pub, how: Choice, q': Pub)
    requires NotesNothing(q, q') || (q'.delivers == q.delivers + [Target(q)] && q'.drops == q.drops)
    ensures forall reason :: Justifies(cfg, t, q, how, q', reason)
  {
    hide HasReason;
    assert forall d :: q'.drops == q.drops + [d] ==> q'.drops[|q.drops|] == d;
  }

  lemma DropHasItsReason(cfg: Config, t: Sub, q: Pub, how: Choice, q': Pub, why: Reason)
    requires q'.drops == q.drops + [Drop(Target(q), why, true)] && HasReason(cfg, t, q, how, why)
    ensures forall reason :: Justifies(cfg, t, q, how, q', reason)
  {
    hide HasReason;
    assert q'.drops[|q.drops|] == Drop(Target(q), why, true);
  }

  lemma TrySendIsProper(cfg: Config, s: Bus, q: Pub, how: Choice, m: Move)
    requires m == TrySend(cfg, s, q) && m.Move? && LocalOk(cfg, q) && Tries(cfg, q, how) && !q.pc.Parked? && q.answer.Unanswered?
    ensures Proper(cfg, s, q, how, m.q)
  {
    hide MatchesSub, PassedBlock, Justifies;
    var t := SubOf(s, Target(q));
    if |t.buf| < cfg.spec(Target(q)).size {
      NoDropNeedsNoReason(cfg, t, q, how, m.q);
    } else {
      DropHasItsReason(cfg, t, q, how, m.q, BufferFull);
    }
  }

  lemma SendIsProper(cfg: Config, s: Bus, p: Pid, q: Pub, how: Choice, m: Move)
    requires q.pc.Sending? && m == SendMove(cfg, s, p, q, how.Keep? && how.keep) && m.Move? && LocalOk(cfg, q) && q.answer.Unanswered?
    ensures Proper(cfg, s, q, how, m.q)
  {
    hide LocalOk, Justifies, Proper, TrySend, Settles;
    var t := SubOf(s, Target(q));
    if m == TrySend(cfg, s, q) && Sends(cfg.spec(Target(q)).policy, how) {
      TrySendIsProper(cfg, s, q, how, m);
    } else if cfg.spec(Target(q)).policy.Sample? {
      DropHasItsReason(cfg, t, q, how, m.q, Sampled);
      SampledSettles(cfg, q, m.q);
      SettledIsProper(cfg, s, q, how, m.q);
    } else {
      NoDropNeedsNoReason(cfg, t, q, how, m.q);
      WaitingSettles(cfg, q, m.q);
      SettledIsProper(cfg, s, q, how, m.q);
    }
  }

  lemma SampledSettles(cfg: Config, q: Pub, q': Pub)
    requires q.pc.Sending? && LocalOk(cfg, q) && q.answer.Unanswered? && q' == NextSub(Dropping(q, Sampled))
    ensures Settles(cfg, q, q')
  {
    hide MatchesSub, PassedBlock;
  }

  lemma WaitingSettles(cfg: Config, q: Pub, q': Pub)
    requires q.pc.Sending? && q.answer.Unanswered? && (q' == q.(pc := Parked) || q' == q.(pc := Evicting))
    ensures Settles(cfg, q, q')
  {
  }

  lemma SettledIsProper(cfg: Config, s: Bus, q: Pub, how: Choice, q': Pub)
    requires Settles(cfg, q, q') && !q'.pc.Reporting? && q'.answer == q.answer
    requires forall reason :: Justifies(cfg, SubOf(s, Target(q)), q, how, q', reason)
    ensures Proper(cfg, s, q, how, q')
  {
  }

  lemma ScanIsProper(cfg: Config, s: Bus, q: Pub, how: Choice, m: Move)
    requires q.pc.Scanning? && m == ScanMove(cfg, s, q) && m.Move? && LocalOk(cfg, q) && q.answer.Unanswered?
    ensures Proper(cfg, s, q, how, m.q)
  {
    hide MatchesSub, PassedBlock, Justifies;
    var t := SubOf(s, Target(q));
    if q.i < |q.route| && cfg.spec(Target(q)).allows(q.env) && t.done {
      DropHasItsReason(cfg, t, q, how, m.q, Closed);
    } else {
      NoDropNeedsNoReason(cfg, t, q, how, m.q);
    }
  }

  lemma EvictIsProper(cfg: Config, s: Bus, q: Pub, how: Choice, m: Move)
    requires q.pc.Evicting? && m == EvictMove(s, q) && m.Move? && q.answer.Unanswered?
    ensures Proper(cfg, s, q, how, m.q)
  {
    hide Justifies;
    NoDropNeedsNoReason(cfg, SubOf(s, Target(q)), q, how, m.q);
  }

  lemma ParkedIsProper(cfg: Config, s: Bus, p: Pid, q: Pub, how: Choice, m: Move)
    requires q.pc.Parked? && ParkedMove(cfg, s, p, q, how) == Some(m) && m.Move? && LocalOk(cfg, q) && q.answer.Unanswered?
    ensures Proper(cfg, s, q, how, m.q)
  {
    hide MatchesSub, PassedBlock, Justifies;
    var t := SubOf(s, Target(q));
    if how.Wake? {
      DropHasItsReason(cfg, t, q, how, m.q, Closed);
    } else {
      NoDropNeedsNoReason(cfg, t, q, how, m.q);
    }
  }

  /** Every step of a publish past its lookup is proper. */
  lemma MoveIsProper(cfg: Config, s: Bus, p: Pid, q: Pub, how: Choice, m: Move)
    requires PubMove(cfg, s, p, q, how) == Some(m) && m.Move? && LocalOk(cfg, q) && q.answer.Unanswered?
    requires !q.pc.Registered? && !q.pc.Locked?
    ensures Proper(cfg, s, q, how, m.q) && m.q.route == q.route && m.q.env == q.env
  {
    MoveHasShape(cfg, s, p, q, how, m);
    hide LocalOk, Stored, ScanMove, SendMove, EvictMove, ParkedMove, TrySend, Proper, Enumerates, Matching;
    match q.pc
    case Scanning => ScanIsProper(cfg, s, q, how, m);
    case Sending => SendIsProper(cfg, s, p, q, how, m);
    case Evicting => EvictIsProper(cfg, s, q, how, m);
    case Retrying => TrySendIsProper(cfg, s, q, how, m);
    case Parked => ParkedIsProper(cfg, s, p, q, how, m);
    case _ => OtherIsProper(cfg, s, p, q, how, m);
  }

  lemma OtherIsProper(cfg: Config, s: Bus, p: Pid, q: Pub, how: Choice, m: Move)
    requires PubMove(cfg, s, p, q, how) == Some(m) && m.Move? && LocalOk(cfg, q) && q.answer.Unanswered?
    requires q.pc.Missed? || q.pc.Woken? || q.pc.Relocking?
    ensures Proper(cfg, s, q, how, m.q)
  {
    hide Stored, MatchesSub, PassedBlock, Justifies;
    NoDropNeedsNoReason(cfg, SubOf(s, Target(q)), q, how, m.q);
  }

  lemma NothingIsNoted(q: Pub, q': Pub, id: Id)
    requires NotesNothing(q, q')
    ensures Noted(q', id) == Noted(q, id)
  {
  }

  lemma OneIsNoted(q: Pub, q': Pub, id: Id)
    requires NotesOne(q, q')
    ensures Noted(q', id) == Noted(q, id) + if id == Target(q) then 1 else 0
  {
  }

  lemma SettlingIsFair(cfg: Config, q: Pub, q': Pub)
    requires Fair(cfg, q) && Settles(cfg, q, q') && q'.route == q.route && q'.env == q.env
    requires forall i, j :: 0 <= i < j < |q.route| ==> q.route[i] != q.route[j]
    ensures Fair(cfg, q')
  {
    hide Noted, Settled, NotesOne, NotesNothing;
    forall id
      ensures Noted(q', id) == Noted(q, id) + if Settled(q') > Settled(q) && id == Target(q) && cfg.spec(id).allows(q.env) then 1 else 0
    {
      if NotesNothing(q, q') { NothingIsNoted(q, q', id); }
      if NotesOne(q, q') { OneIsNoted(q, q', id); }
    }
  }

  // ------------------------------------------------------------- all runs

  lemma StartIsFair(cfg: Config, s: Bus, p: Pid, q: Pub, how: Choice, m: Move)
    requires PubMove(cfg, s, p, q, how) == Some(m) && m.Move? && LocalOk(cfg, q) && Fair(cfg, q) && q.answer.Unanswered?
    requires q.pc.Registered? || q.pc.Locked?
    ensures Fair(cfg, m.q) && AnswerOk(s, m.q)
  {
    hide Enumerates, Matching, MatchesSub, PassedBlock;
    assert m.q.delivers == q.delivers && m.q.drops == q.drops;
    forall id ensures Noted(m.q, id) == 0 { assert Noted(m.q, id) == Noted(q, id); }
    hide Noted;
  }

  lemma AnswerStaysOk(cfg: Config, s: Bus, p: Pid, q: Pub, how: Choice, q': Pub, t': Sub)
    requires Shape(cfg, s, p, q, q', t') && LocalOk(cfg, q) && q.answer.Unanswered?
    requires if q'.pc.Reporting? then AnswerHasReason(s.closed, q, how, q'.answer) else q'.answer == q.answer
    ensures AnswerOk(s, q')
  {
    hide Enumerates, Matching, MatchesSub, PassedBlock;
  }

  lemma MoveIsFair(cfg: Config, s: Bus, p: Pid, q: Pub, how: Choice, m: Move)
    requires PubMove(cfg, s, p, q, how) == Some(m) && m.Move? && LocalOk(cfg, q) && Fair(cfg, q) && AnswerOk(s, q)
    ensures Fair(cfg, m.q) && AnswerOk(s, m.q)
  {
    NotReporting(cfg, s, p, q, how);
    hide PubMove, Fair, Shape, Settles, Justifies, AnswerHasReason, MatchesSub, PassedBlock;
    if q.pc.Registered? || q.pc.Locked? {
      StartIsFair(cfg, s, p, q, how, m);
    } else {
      MoveIsProper(cfg, s, p, q, how, m);
      SettlingIsFair(cfg, q, m.q);
      MoveHasShape(cfg, s, p, q, how, m);
      AnswerStaysOk(cfg, s, p, q, how, m.q, m.sub);
    }
  }

  lemma NotReporting(cfg: Config, s: Bus, p: Pid, q: Pub, how: Choice)
    requires PubMove(cfg, s, p, q, how).Some?
    ensures !q.pc.Reporting?
  {
  }

  lemma GoKeepsFair(cfg: Config, s: Bus, p: Pid, how: Choice, s': Bus)
    requires Inv(cfg, s) && AllFair(cfg, s) && DoGo(cfg, s, p, how) == Some(s') && !s.panicked && !s'.panicked
    ensures AllFair(cfg, s')
  {
    hide PubMove, Moved, LocalOk, RouteOk, SenderOk, CacheOk, Locks, SubsOk, ClosersOk, ShutdownOk, Fair;
    var q := s.pubs[p];
    var m := PubMove(cfg, s, p, q, how).value;
    MovedIsApplied(s, p, m, s');
    MoveIsFair(cfg, s, p, q, how, m);
  }

  lemma NewPublishIsFair(cfg: Config, s: Bus, env: Envelope)
    ensures Fair(cfg, Pub(env, Registered, [], 0, false, [], [])) && AnswerOk(s, Pub(env, Registered, [], 0, false, [], []))
  {
  }

  lemma OtherKeepsFair(cfg: Config, s: Bus, a: Action, s': Bus)
    requires AllFair(cfg, s) && Do(cfg, s, a) == Some(s') && !a.Go?
    ensures AllFair(cfg, s')
  {
    hide Fair;
    if a.Publish? {
      NewPublishIsFair(cfg, s, a.env);
    }
    if a.CloserGo? {
      CloserLeavesPubs(s, a.c, s');
      hide DoCloser;
    }
  }

  lemma CloserLeavesPubs(s: Bus, c: nat, s': Bus)
    requires DoCloser(s, c) == Some(s')
    ensures s'.pubs == s.pubs && s'.closed == s.closed
  {
  }

  lemma StepKeepsFair(cfg: Config, s: Bus, a: Action, s': Bus)
    requires Inv(cfg, s) && AllFair(cfg, s) && Do(cfg, s, a) == Some(s') && !s'.panicked
    ensures AllFair(cfg, s')
  {
    hide Inv, AllFair, DoGo;
    if a.Go? {
      GoKeepsFair(cfg, s, a.p, a.how, s');
    } else {
      hide Do;
      OtherKeepsFair(cfg, s, a, s');
    }
  }

  /** From any state that is in order every run without a panic stays in order. */
  lemma {:induction false} RunKeepsFair(cfg: Config, s: Bus, actions: seq<Action>)
    requires Inv(cfg, s) && AllFair(cfg, s) && !s.panicked
    requires Run(cfg, s, actions).Some? && !Run(cfg, s, actions).value.panicked
    ensures Inv(cfg, Run(cfg, s, actions).value) && AllFair(cfg, Run(cfg, s, actions).value)
    decreases |actions|
  {
    if actions != [] {
      hide Inv, AllFair, DoGo;
      var before := Run(cfg, s, actions[..|actions| - 1]).value;
      assert !before.panicked;
      hide Do;
      RunKeepsFair(cfg, s, actions[..|actions| - 1]);
      StepKeepsInv(cfg, before, actions[|actions| - 1], Run(cfg, s, actions).value);
      StepKeepsFair(cfg, before, actions[|actions| - 1], Run(cfg, s, actions).value);
    }
  }

  /** In every reachable state every publish has noted each allowed subscription dealt with exactly once and no other. */
  lemma PublishIsFair(cfg: Config, actions: seq<Action>, p: Pid)
    requires Run(cfg, INIT, actions).Some? && !Run(cfg, INIT, actions).value.panicked && p in Run(cfg, INIT, actions).value.pubs
    ensures var s := Run(cfg, INIT, actions).value; Fair(cfg, s.pubs[p]) && AnswerOk(s, s.pubs[p])
  {
    hide Run, Fair;
    RunKeepsFair(cfg, INIT, actions);
  }

  // ----------------------------------------------------- one whole publish

  /** A publish past its lookup keeps its envelope and its route until it returns. */
  ghost predicate OnRoute(s: Bus, p: Pid, env: Envelope, route: seq<Id>) {
    p in s.pubs && s.pubs[p].env == env && s.pubs[p].route == route && !s.pubs[p].pc.Registered? && !s.pubs[p].pc.Locked?
  }

  lemma ShapeKeepsRouteOf(cfg: Config, s: Bus, p: Pid, q: Pub, q': Pub, t': Sub)
    requires Shape(cfg, s, p, q, q', t') && !q.pc.Registered? && !q.pc.Locked?
    ensures q'.env == q.env && q'.route == q.route && !q'.pc.Registered? && !q'.pc.Locked?
  {
  }

  lemma StepKeepsOnRoute(cfg: Config, s: Bus, a: Action, s': Bus, p: Pid, env: Envelope, route: seq<Id>)
    requires OnRoute(s, p, env, route) && Do(cfg, s, a) == Some(s') && !s'.panicked && a != Return(p)
    ensures OnRoute(s', p, env, route)
  {
    hide PubMove;
    if a.Go? {
      var m := PubMove(cfg, s, a.p, s.pubs[a.p], a.how).value;
      MovedIsApplied(s, a.p, m, s');
      hide Moved;
      MoveHasShape(cfg, s, a.p, s.pubs[a.p], a.how, m);
      hide Shape;
      if a.p == p {
        ShapeKeepsRouteOf(cfg, s, p, s.pubs[p], m.q, m.sub);
      }
    } else if a.CloserGo? {
      CloserLeavesPubs(s, a.c, s');
      hide DoCloser;
    }
  }

  lemma {:induction false} RunKeepsOnRoute(cfg: Config, s: Bus, actions: seq<Action>, p: Pid, env: Envelope, route: seq<Id>)
    requires OnRoute(s, p, env, route) && Run(cfg, s, actions).Some? && !Run(cfg, s, actions).value.panicked && Return(p) !in actions
    ensures OnRoute(Run(cfg, s, actions).value, p, env, route)
    decreases |actions|
  {
    if actions != [] {
      var before := Run(cfg, s, actions[..|actions| - 1]).value;
      assert !before.panicked by { hide DoGo; }
      hide Do, OnRoute;
      RunKeepsOnRoute(cfg, s, actions[..|actions| - 1], p, env, route);
      StepKeepsOnRoute(cfg, before, actions[|actions| - 1], Run(cfg, s, actions).value, p, env, route);
    }
  }

  /** The lookup selects exactly the registered subscriptions whose pattern matches, from the cache or by a scan. */
  lemma LookupFindsMatches(cfg: Config, s: Bus, p: Pid, how: Choice, m: Move)
    requires Inv(cfg, s) && p in s.pubs && s.pubs[p].pc.Locked? && m.Move? && PubMove(cfg, s, p, s.pubs[p], how) == Some(m)
    ensures Enumerates(m.q.route, Matching(cfg, s.registered, s.pubs[p].env.subject))
    ensures m.q.env == s.pubs[p].env && !m.q.pc.Registered? && !m.q.pc.Locked?
  {
    hide Enumerates, Matching, Locks, PubsOk, SubsOk, ClosersOk, ShutdownOk;
  }

  /**
   The delivery law. Take any run up to the lookup of a publish and any run on from there in which it has
   not returned yet. Once it is about to return success, every subscription that was registered at the
   lookup, matches and allows the envelope has exactly one delivery or drop of it noted, and no other has any.
   */
  lemma PublishReachesEveryMatch(cfg: Config, before: seq<Action>, p: Pid, how: Choice, after: seq<Action>, id: Id)
    requires var s := Run(cfg, INIT, before);
             && s.Some? && !s.value.panicked && p in s.value.pubs && s.value.pubs[p].pc.Locked?
             && Do(cfg, s.value, Go(p, how)).Some?
    requires var s1 := Do(cfg, Run(cfg, INIT, before).value, Go(p, how)).value; var s2 := Run(cfg, s1, after);
             && Return(p) !in after && s2.Some? && !s2.value.panicked && p in s2.value.pubs && s2.value.pubs[p].answer.Served?
    ensures var s := Run(cfg, INIT, before).value;
            var s2 := Run(cfg, Do(cfg, s, Go(p, how)).value, after).value;
            var env := s.pubs[p].env;
            Noted(s2.pubs[p], id) == if id in s.registered && MatchesSub(cfg, id, env.subject) && cfg.spec(id).allows(env) then 1 else 0
  {
    hide Run, Inv, AllFair, PubMove, Noted, MatchesSub, Reachable;
    var s := Run(cfg, INIT, before).value;
    var q := s.pubs[p];
    var m := PubMove(cfg, s, p, q, how).value;
    var s1 := Do(cfg, s, Go(p, how)).value;
    var s2 := Run(cfg, s1, after).value;
    RunStartsFair(cfg, before);
    StillMoving(cfg, s1, after);
    MovedIsApplied(s, p, m, s1);
    hide Moved;
    LookupFindsMatches(cfg, s, p, how, m);
    assert OnRoute(s1, p, q.env, m.q.route);
    hide Do, OnRoute;
    StepKeepsInv(cfg, s, Go(p, how), s1);
    StepKeepsFair(cfg, s, Go(p, how), s1);
    RunKeepsFair(cfg, s1, after);
    RunKeepsOnRoute(cfg, s1, after, p, q.env, m.q.route);
    ServedIsComplete(cfg, s2, p, q.env, m.q.route, id);
  }

  lemma RunStartsFair(cfg: Config, actions: seq<Action>)
    requires Run(cfg, INIT, actions).Some? && !Run(cfg, INIT, actions).value.panicked
    ensures Inv(cfg, Run(cfg, INIT, actions).value) && AllFair(cfg, Run(cfg, INIT, actions).value)
  {
    hide Run;
    RunKeepsFair(cfg, INIT, actions);
  }

  /** A run that ended without a panic started without one. */
  lemma {:induction false} StillMoving(cfg: Config, s: Bus, actions: seq<Action>)
    requires Run(cfg, s, actions).Some? && !Run(cfg, s, actions).value.panicked
    ensures !s.panicked
    decreases |actions|
  {
    if actions != [] {
      hide DoGo;
      StillMoving(cfg, s, actions[..|actions| - 1]);
    }
  }

  lemma ServedIsComplete(cfg: Config, s: Bus, p: Pid, env: Envelope, route: seq<Id>, id: Id)
    requires AllFair(cfg, s) && OnRoute(s, p, env, route) && s.pubs[p].answer.Served?
    ensures Noted(s.pubs[p], id) == if id in route && cfg.spec(id).allows(env) then 1 else 0
  {
    hide Noted;
    var q := s.pubs[p];
    if id in route {
      var j :| 0 <= j < |route| && route[j] == id;
      assert Noted(q, q.route[j]) == Due(cfg, q, j);
    }
  }
}
