/** What every step of the bus keeps, and the close-safety and routing guarantees that follow. */
module BusSafety {
  import opened Wrappers
  import opened Subjects
  import opened BusModel

  // ------------------------------------------------------------ invariant

  predicate AtTarget(pc: Pc) {
    pc.Sending? || pc.Evicting? || pc.Retrying? || pc.Parked? || pc.Woken? || pc.Relocking?
  }

  predicate InBlock(pc: Pc) {
    pc.Parked? || pc.Woken?
  }

  /** The publish let go of the lock at an earlier Block subscription of its route. */
  ghost predicate PassedBlock(cfg: Config, q: Pub) {
    exists k :: 0 <= k < q.i && k < |q.route| && cfg.spec(q.route[k]).policy.Block? && cfg.spec(q.route[k]).allows(q.env)
  }

  /** What holds of a publish on its own. */
  ghost predicate LocalOk(cfg: Config, q: Pub) {
    && (forall id :: id in q.route ==> MatchesSub(cfg, id, q.env.subject))
    && (forall i, j :: 0 <= i < j < |q.route| ==> q.route[i] != q.route[j])
    && q.i <= |q.route|
    && (AtTarget(q.pc) ==> q.i < |q.route| && cfg.spec(Target(q)).allows(q.env))
    && (InBlock(q.pc) || q.pc.Relocking? ==> cfg.spec(Target(q)).policy.Block?)
    && (q.pc.Evicting? || q.pc.Retrying? ==> cfg.spec(Target(q)).policy.DropOldest?)
    && (q.pc.Registered? || q.pc.Locked? ==> q.route == [])
    && (q.pc.Registered? || q.pc.Locked? || q.pc.Missed? ==> !q.stale && q.i == 0)
    && (q.stale ==> PassedBlock(cfg, q))
  }

  /** A publish that has not let go of the lock since resolving its route. */
  predicate Fresh(q: Pub) {
    Holding(q.pc) && !q.pc.Locked? && !q.stale
  }

  /** Its route is then exactly what a full scan would select now. */
  ghost predicate RouteOk(cfg: Config, s: Bus, q: Pub) {
    && (forall id :: id in q.route ==> id in s.subs)
    && (Fresh(q) ==> Enumerates(q.route, Matching(cfg, s.registered, q.env.subject)))
  }

  /** A publish counts as a sender exactly while its Block send is under way. */
  ghost predicate SenderOk(s: Bus, p: Pid, q: Pub) {
    forall id :: id in s.subs ==> (p in s.subs[id].senders <==> InBlock(q.pc) && Target(q) == id)
  }

  ghost predicate PubsOk(cfg: Config, s: Bus) {
    forall p :: p in s.pubs ==> LocalOk(cfg, s.pubs[p]) && RouteOk(cfg, s, s.pubs[p]) && SenderOk(s, p, s.pubs[p])
  }

  ghost predicate Locks(s: Bus) {
    && s.inflight == s.pubs.Keys
    && (forall p :: p in s.readers <==> p in s.pubs && Holding(s.pubs[p].pc))
    && (s.closed ==> s.registered == {} && s.readers == {})
  }

  ghost predicate SubOk(s: Bus, id: Id, t: Sub) {
    && t.senders <= s.pubs.Keys
    && (id in s.registered ==> t.open && !t.done && !t.swept)
    && (t.swept ==> forall p :: p in t.senders && p in s.pubs ==> s.pubs[p].stale)
    && (!t.open ==> t.swept || (s.closed && s.pubs == map[]))
  }

  ghost predicate SubsOk(s: Bus) {
    && s.registered <= s.subs.Keys
    && (forall id :: id in s.subs ==> SubOk(s, id, s.subs[id]))
  }

  ghost predicate ClosersOk(s: Bus) {
    forall c :: c in s.closers ==>
      && s.closers[c].sub in s.subs
      && (!s.closers[c].pc.Removing? ==> s.closers[c].sub !in s.registered)
      && (s.closers[c].pc.Closing? ==> s.subs[s.closers[c].sub].swept)
  }

  ghost predicate ShutdownOk(s: Bus) {
    match s.shutdown
    case Idle => !s.closed
    case WakingUp(subs, left) => s.closed && left <= subs <= s.subs.Keys
    case ClosingChannels(left, waited) => s.closed && left <= s.subs.Keys && s.pubs == map[]
  }

  /** Every cached route is what a full scan would select, and the cache stays within its cap. */
  ghost predicate CacheOk(cfg: Config, s: Bus) {
    && |s.cache| <= cfg.cacheCap
    && forall subject :: subject in s.cache ==> Enumerates(s.cache[subject], Matching(cfg, s.registered, subject))
  }

  ghost predicate Inv(cfg: Config, s: Bus) {
    Locks(s) && PubsOk(cfg, s) && SubsOk(s) && ClosersOk(s) && ShutdownOk(s) && CacheOk(cfg, s)
  }

  // ------------------------------------------- the control flow of a publish

  /** Same position in the route, new program counter. */
  predicate Stayed(q: Pub, q': Pub, pc: Pc) {
    q'.env == q.env && q'.route == q.route && q'.stale == q.stale && q'.i == q.i && q'.pc == pc
  }

  /** On to the next subscription of the route. */
  predicate Advanced(q: Pub, q': Pub, stale: bool) {
    q'.env == q.env && q'.route == q.route && q'.stale == stale && q'.i == q.i + 1 && q'.pc == Scanning
  }

  /** Only the contents of the channel changed. */
  predicate SameEnds(t: Sub, t': Sub) {
    t'.open == t.open && t'.done == t.done && t'.swept == t.swept && t'.senders == t.senders
  }

  predicate ScanShape(cfg: Config, q: Pub, t: Sub, q': Pub) {
    if q.i >= |q.route| then Stayed(q, q', Reporting)
    else if cfg.spec(Target(q)).allows(q.env) && !t.done then Stayed(q, q', Sending)
    else Advanced(q, q', q.stale)
  }

  predicate SendShape(cfg: Config, p: Pid, q: Pub, t: Sub, q': Pub, t': Sub) {
    if cfg.spec(Target(q)).policy.Block? then Stayed(q, q', Parked) && t' == t.(senders := t.senders + {p})
    else
      && (Advanced(q, q', q.stale) || (Stayed(q, q', Evicting) && cfg.spec(Target(q)).policy.DropOldest?))
      && SameEnds(t, t')
  }

  predicate ParkedShape(p: Pid, q: Pub, t: Sub, q': Pub, t': Sub) {
    || (Stayed(q, q', Woken) && SameEnds(t, t'))
    || (Stayed(q, q', Reporting) && t' == t.(senders := t.senders - {p}))
  }

  predicate LookupShape(cfg: Config, s: Bus, q: Pub, q': Pub) {
    && q' == q.(pc := q'.pc, route := q'.route) && (q'.pc.Missed? || q'.pc.Scanning?)
    && ((q.env.subject in s.cache && q'.route == s.cache[q.env.subject])
        || Enumerates(q'.route, Matching(cfg, s.registered, q.env.subject)))
  }

  /** What a step does to the publish and to the ends of its target, whatever it does to contents and counters. */
  predicate Shape(cfg: Config, s: Bus, p: Pid, q: Pub, q': Pub, t': Sub) {
    var t := SubOf(s, Target(q));
    match q.pc
    case Registered => Stayed(q, q', if s.closed then Reporting else Locked) && t' == t
    case Locked => LookupShape(cfg, s, q, q') && t' == t
    case Missed => Stayed(q, q', Scanning) && t' == t
    case Scanning => ScanShape(cfg, q, t, q') && t' == t
    case Sending => SendShape(cfg, p, q, t, q', t')
    case Evicting => Stayed(q, q', Retrying) && SameEnds(t, t')
    case Retrying => Advanced(q, q', q.stale) && SameEnds(t, t')
    case Parked => ParkedShape(p, q, t, q', t')
    case Woken => Stayed(q, q', Relocking) && t' == t.(senders := t.senders - {p})
    case Relocking => t' == t && if s.closed then Stayed(q, q', Reporting) else Advanced(q, q', true)
    case Reporting => false
  }

  lemma TrySendHasShape(cfg: Config, s: Bus, q: Pub, m: Move)
    requires m.Move? && m == TrySend(cfg, s, q)
    ensures Advanced(q, m.q, q.stale) && SameEnds(SubOf(s, Target(q)), m.sub) && m.cache == s.cache
  {
  }

  lemma SendHasShape(cfg: Config, s: Bus, p: Pid, q: Pub, keep: bool, m: Move)
    requires m.Move? && m == SendMove(cfg, s, p, q, keep)
    ensures SendShape(cfg, p, q, SubOf(s, Target(q)), m.q, m.sub) && m.cache == s.cache
  {
    hide TrySend, Advanced;
    if m == TrySend(cfg, s, q) {
      TrySendHasShape(cfg, s, q, m);
    } else if cfg.spec(Target(q)).policy.Sample? {
      assert Advanced(q, m.q, q.stale) by { AdvancedBy(q, Dropping(q, Sampled)); }
    }
  }

  lemma AdvancedBy(q: Pub, r: Pub)
    requires r == q.(drops := r.drops, delivers := r.delivers)
    ensures Advanced(q, NextSub(r), q.stale)
  {
  }

  lemma ScanHasShape(cfg: Config, s: Bus, q: Pub, m: Move)
    requires m == ScanMove(cfg, s, q)
    ensures m.Move? && ScanShape(cfg, q, SubOf(s, Target(q)), m.q) && m.sub == SubOf(s, Target(q)) && m.cache == s.cache
  {
  }

  lemma EvictHasShape(s: Bus, q: Pub, m: Move)
    requires m == EvictMove(s, q)
    ensures m.Move? && Stayed(q, m.q, Retrying) && SameEnds(SubOf(s, Target(q)), m.sub) && m.cache == s.cache
  {
  }

  lemma ParkedHasShape(cfg: Config, s: Bus, p: Pid, q: Pub, how: Choice, m: Move)
    requires m.Move? && ParkedMove(cfg, s, p, q, how) == Some(m)
    ensures ParkedShape(p, q, SubOf(s, Target(q)), m.q, m.sub) && m.cache == s.cache
  {
  }

  lemma MoveHasShape(cfg: Config, s: Bus, p: Pid, q: Pub, how: Choice, m: Move)
    requires m.Move? && PubMove(cfg, s, p, q, how) == Some(m)
    ensures Shape(cfg, s, p, q, m.q, m.sub)
    ensures m.cache == if q.pc.Missed? then Stored(cfg, s.cache, q.env.subject, q.route) else s.cache
  {
    hide Stored, Enumerates, Matching, ScanMove, SendMove, EvictMove, ParkedMove, TrySend, ScanShape, SendShape, ParkedShape, SubOf, Target;
    match q.pc
    case Scanning => ScanHasShape(cfg, s, q, m);
    case Sending => SendHasShape(cfg, s, p, q, how.Keep? && how.keep, m);
    case Evicting => EvictHasShape(s, q, m);
    case Retrying => TrySendHasShape(cfg, s, q, m);
    case Parked => ParkedHasShape(cfg, s, p, q, how, m);
    case _ =>
  }

  // ------------------------------------------------- what a publish step keeps

  lemma PassedBlockGrows(cfg: Config, q: Pub, q': Pub)
    requires PassedBlock(cfg, q) && q'.route == q.route && q'.env == q.env && q'.i >= q.i
    ensures PassedBlock(cfg, q')
  {
    var k :| 0 <= k < q.i && k < |q.route| && cfg.spec(q.route[k]).policy.Block? && cfg.spec(q.route[k]).allows(q.env);
    assert q'.route[k] == q.route[k];
  }

  lemma RelockPassesBlock(cfg: Config, q: Pub, q': Pub)
    requires LocalOk(cfg, q) && q.pc.Relocking? && Advanced(q, q', true)
    ensures PassedBlock(cfg, q')
  {
    assert q'.route[q.i] == Target(q);
  }

  lemma ResolvedIsLocalOk(cfg: Config, registered: set<Id>, q: Pub)
    requires Enumerates(q.route, Matching(cfg, registered, q.env.subject))
    requires q.i == 0 && !q.stale && (q.pc.Missed? || q.pc.Scanning?)
    ensures LocalOk(cfg, q)
  {
    hide MatchesSub;
  }

  lemma ShapeKeepsLocal(cfg: Config, s: Bus, p: Pid, q: Pub, q': Pub, t': Sub)
    requires Shape(cfg, s, p, q, q', t') && LocalOk(cfg, q) && CacheOk(cfg, s)
    ensures LocalOk(cfg, q') && (q.stale ==> q'.stale)
    ensures !Holding(q.pc) && s.closed ==> !Holding(q'.pc)
  {
    hide Matching, MatchesSub, Enumerates, SubOf;
    if q.pc.Locked? {
      ResolvedIsLocalOk(cfg, s.registered, q');
      hide LocalOk;
    } else {
      if q.stale {
        PassedBlockGrows(cfg, q, q');
      } else if q.pc.Relocking? && !s.closed {
        RelockPassesBlock(cfg, q, q');
      }
      hide PassedBlock;
    }
  }

  lemma ShapeKeepsRoute(cfg: Config, s: Bus, p: Pid, q: Pub, q': Pub, t': Sub)
    requires Shape(cfg, s, p, q, q', t') && RouteOk(cfg, s, q) && LocalOk(cfg, q) && CacheOk(cfg, s)
    requires s.registered <= s.subs.Keys
    ensures RouteOk(cfg, s, q')
  {
    hide MatchesSub, PassedBlock, SubOf;
    if q.pc.Locked? {
      assert forall id :: id in q'.route ==> id in s.registered;
    }
    hide Enumerates, Matching;
  }

  /** A publish about to send under a route it has not let go of aims at a registered subscription. */
  lemma FreshTargetIsRegistered(cfg: Config, s: Bus, q: Pub)
    requires LocalOk(cfg, q) && RouteOk(cfg, s, q) && Fresh(q) && AtTarget(q.pc)
    ensures Target(q) in s.registered
  {
    assert Target(q) in q.route;
  }

  /** The state after publish p moved to q' and its target to t'. */
  ghost predicate Applied(s: Bus, p: Pid, q: Pub, q': Pub, t': Sub, s': Bus) {
    && p in s.pubs && s.pubs[p] == q && s'.pubs == s.pubs[p := q']
    && s'.readers == (if Holding(q'.pc) then s.readers + {p} else s.readers - {p})
    && s'.subs == (if Target(q) in s.subs then s.subs[Target(q) := t'] else s.subs)
    && s'.inflight == s.inflight && s'.closed == s.closed && s'.registered == s.registered
    && s'.closers == s.closers && s'.shutdown == s.shutdown
  }

  lemma ShapeKeepsSenders(cfg: Config, s: Bus, p: Pid, q: Pub, q': Pub, t': Sub, s': Bus)
    requires Shape(cfg, s, p, q, q', t') && Applied(s, p, q, q', t', s') && LocalOk(cfg, q) && SenderOk(s, p, q)
    requires Target(q) in s.subs || !AtTarget(q.pc)
    ensures SenderOk(s', p, q')
  {
    ShapeKeepsOwnSender(cfg, s, p, q, q', t');
    hide Shape, LocalOk, Holding, AtTarget;
  }

  lemma ShapeKeepsOwnSender(cfg: Config, s: Bus, p: Pid, q: Pub, q': Pub, t': Sub)
    requires Shape(cfg, s, p, q, q', t') && LocalOk(cfg, q)
    requires p in SubOf(s, Target(q)).senders <==> InBlock(q.pc)
    ensures p in t'.senders <==> InBlock(q'.pc)
    ensures InBlock(q'.pc) ==> Target(q') == Target(q) && AtTarget(q.pc)
  {
    hide LocalOk, Enumerates, Matching, SubOf;
  }

  lemma TargetIsKnown(cfg: Config, s: Bus, q: Pub)
    requires LocalOk(cfg, q) && RouteOk(cfg, s, q) && AtTarget(q.pc)
    ensures Target(q) in s.subs && Target(q) in q.route
  {
    hide Enumerates, MatchesSub, PassedBlock;
  }

  /** Another publish is a sender of the same subscriptions as before. */
  lemma ShapeKeepsOtherSenders(cfg: Config, s: Bus, p: Pid, q: Pub, q': Pub, t': Sub, s': Bus, other: Pid, id: Id)
    requires Shape(cfg, s, p, q, q', t') && Applied(s, p, q, q', t', s') && other != p && id in s.subs
    ensures other in s'.subs[id].senders <==> other in s.subs[id].senders
  {
    hide MatchesSub, Enumerates, Matching;
  }

  lemma ShapeKeepsPubs(cfg: Config, s: Bus, p: Pid, q: Pub, q': Pub, t': Sub, s': Bus)
    requires Shape(cfg, s, p, q, q', t') && Applied(s, p, q, q', t', s')
    requires PubsOk(cfg, s) && CacheOk(cfg, s) && s.registered <= s.subs.Keys
    ensures PubsOk(cfg, s')
  {
    hide Shape, MatchesSub, Enumerates, Matching, LocalOk, CacheOk;
    ShapeKeepsLocal(cfg, s, p, q, q', t');
    ShapeKeepsRoute(cfg, s, p, q, q', t');
    if AtTarget(q.pc) {
      TargetIsKnown(cfg, s, q);
    }
    ShapeKeepsSenders(cfg, s, p, q, q', t', s');
    assert s'.subs.Keys == s.subs.Keys;
    forall other | other in s.pubs && other != p
      ensures RouteOk(cfg, s', s.pubs[other]) && SenderOk(s', other, s.pubs[other])
    {
      forall id | id in s.subs
        ensures other in s'.subs[id].senders <==> other in s.subs[id].senders
      {
        ShapeKeepsOtherSenders(cfg, s, p, q, q', t', s', other, id);
      }
    }
    hide RouteOk, SenderOk;
    RouteSees(cfg, s, q', s');
  }

  lemma RouteSees(cfg: Config, s: Bus, q: Pub, s': Bus)
    requires RouteOk(cfg, s, q) && s'.subs.Keys >= s.subs.Keys && s'.registered == s.registered
    ensures RouteOk(cfg, s', q)
  {
  }

  lemma ShapeKeepsLocks(cfg: Config, s: Bus, p: Pid, q: Pub, q': Pub, t': Sub, s': Bus)
    requires Shape(cfg, s, p, q, q', t') && Applied(s, p, q, q', t', s') && Locks(s)
    requires LocalOk(cfg, q) && CacheOk(cfg, s)
    ensures Locks(s')
  {
    hide Shape, MatchesSub, LocalOk, CacheOk;
    ShapeKeepsLocal(cfg, s, p, q, q', t');
    if s.closed {
      assert p !in s.readers;
    }
  }

  /** Only a publish on an outdated route still registers as a sender of a swept subscription. */
  lemma ShapeKeepsTarget(cfg: Config, s: Bus, p: Pid, q: Pub, q': Pub, t': Sub)
    requires Shape(cfg, s, p, q, q', t') && p in s.pubs && s.pubs[p] == q
    requires LocalOk(cfg, q) && RouteOk(cfg, s, q) && SubsOk(s)
    requires Target(q) in s.subs
    ensures var t := SubOf(s, Target(q));
            && t'.open == t.open && t'.done == t.done && t'.swept == t.swept
            && t'.senders <= t.senders + {p}
            && (p in t'.senders && p !in t.senders && t.swept ==> q.stale)
  {
    hide MatchesSub, PassedBlock, Enumerates, Matching;
    if q.pc.Sending? && !q.stale {
      FreshTargetIsRegistered(cfg, s, q);
    }
  }

  lemma ShapeKeepsSubs(cfg: Config, s: Bus, p: Pid, q: Pub, q': Pub, t': Sub, s': Bus)
    requires Shape(cfg, s, p, q, q', t') && Applied(s, p, q, q', t', s') && SubsOk(s)
    requires LocalOk(cfg, q) && RouteOk(cfg, s, q) && CacheOk(cfg, s)
    ensures SubsOk(s') && (forall id :: id in s.subs ==> s'.subs[id].swept == s.subs[id].swept)
  {
    hide Shape, LocalOk, CacheOk, RouteOk, Holding;
    ShapeKeepsLocal(cfg, s, p, q, q', t');
    if Target(q) in s.subs {
      ShapeKeepsTarget(cfg, s, p, q, q', t');
    }
    forall id | id in s'.subs
      ensures SubOk(s', id, s'.subs[id])
    {
      assert SubOk(s, id, s.subs[id]);
    }
  }

  lemma StoredFits(cfg: Config, cache: map<Subject, seq<Id>>, subject: Subject, route: seq<Id>)
    requires |cache| <= cfg.cacheCap
    ensures |Stored(cfg, cache, subject, route)| <= cfg.cacheCap
  {
    if cfg.cacheCap > 0 {
      var kept := if |cache| >= cfg.cacheCap then map[] else cache;
      assert kept[subject := route].Keys == kept.Keys + {subject};
    }
  }

  lemma StoredKeepsCache(cfg: Config, s: Bus, subject: Subject, route: seq<Id>, s': Bus)
    requires CacheOk(cfg, s) && Enumerates(route, Matching(cfg, s.registered, subject))
    requires s'.registered == s.registered && s'.cache == Stored(cfg, s.cache, subject, route)
    ensures CacheOk(cfg, s')
  {
    hide Enumerates, Matching;
    StoredFits(cfg, s.cache, subject, route);
  }

  lemma GoKeepsInv(cfg: Config, s: Bus, p: Pid, how: Choice, s': Bus)
    requires Inv(cfg, s) && DoGo(cfg, s, p, how) == Some(s') && !s.panicked && !s'.panicked
    ensures Inv(cfg, s')
  {
    hide PubMove, Moved, Shape, LocalOk, RouteOk, SenderOk, CacheOk, Locks, SubsOk, Stored, ClosersOk, ShutdownOk, Enumerates, Matching;
    var q := s.pubs[p];
    var m := PubMove(cfg, s, p, q, how).value;
    MovedIsApplied(s, p, m, s');
    hide Applied;
    MoveHasShape(cfg, s, p, q, how, m);
    SubsKnown(s);
    ShapeKeepsPubs(cfg, s, p, q, m.q, m.sub, s');
    ShapeKeepsLocks(cfg, s, p, q, m.q, m.sub, s');
    ShapeKeepsSubs(cfg, s, p, q, m.q, m.sub, s');
    ClosersStay(s, s');
    ShutdownStays(s, s');
    if q.pc.Missed? {
      MissedIsFresh(cfg, s, q);
      StoredKeepsCache(cfg, s, q.env.subject, q.route, s');
    } else {
      SameCache(cfg, s, s');
    }
  }

  lemma MovedIsApplied(s: Bus, p: Pid, m: Move, s': Bus)
    requires p in s.pubs && s' == Moved(s, p, s.pubs[p], m) && !s.panicked && !s'.panicked
    ensures m.Move? && Applied(s, p, s.pubs[p], m.q, m.sub, s') && s'.cache == m.cache && s'.dropped == s.dropped + m.lost
    ensures s'.registered == s.registered && s'.closers == s.closers && s'.shutdown == s.shutdown && s'.closed == s.closed
    ensures s'.subs.Keys == s.subs.Keys && s'.reports == s.reports
  {
  }

  lemma ClosersStay(s: Bus, s': Bus)
    requires ClosersOk(s) && s'.closers == s.closers && s'.registered == s.registered && s.subs.Keys <= s'.subs.Keys
    requires forall id :: id in s.subs ==> s'.subs[id].swept == s.subs[id].swept
    ensures ClosersOk(s')
  {
  }

  lemma ShutdownStays(s: Bus, s': Bus)
    requires ShutdownOk(s) && s'.shutdown == s.shutdown && s'.closed == s.closed && s.subs.Keys <= s'.subs.Keys
    requires s.pubs != map[]
    ensures ShutdownOk(s')
  {
  }

  lemma SubsKnown(s: Bus)
    requires SubsOk(s)
    ensures s.registered <= s.subs.Keys
  {
  }

  lemma MissedIsFresh(cfg: Config, s: Bus, q: Pub)
    requires LocalOk(cfg, q) && RouteOk(cfg, s, q) && q.pc.Missed?
    ensures Enumerates(q.route, Matching(cfg, s.registered, q.env.subject))
  {
  }

  lemma SameCache(cfg: Config, s: Bus, s': Bus)
    requires CacheOk(cfg, s) && s'.cache == s.cache && s'.registered == s.registered
    ensures CacheOk(cfg, s')
  {
  }

  // ------------------------------------------------------ sends and closing

  /** A send reaches a closed channel only on an outdated route, after a subscription close swept it. */
  lemma PanicNeedsStaleAndSwept(cfg: Config, s: Bus, p: Pid, how: Choice)
    requires Inv(cfg, s) && p in s.pubs && PubMove(cfg, s, p, s.pubs[p], how) == Some(Panic)
    ensures s.pubs[p].stale && SubOf(s, Target(s.pubs[p])).swept
    ensures AtTarget(s.pubs[p].pc) && Target(s.pubs[p]) in s.subs
  {
    var q := s.pubs[p];
    var t := SubOf(s, Target(q));
    assert AtTarget(q.pc) && !t.open by { PanicIsAtTarget(cfg, s, p, q, how); }
    hide PubMove, MatchesSub, PassedBlock, Enumerates, Matching;
    assert Target(q) in q.route;
    if !q.stale && Holding(q.pc) {
      FreshTargetIsRegistered(cfg, s, q);
    }
  }

  lemma PanicIsAtTarget(cfg: Config, s: Bus, p: Pid, q: Pub, how: Choice)
    requires PubMove(cfg, s, p, q, how) == Some(Panic)
    ensures AtTarget(q.pc) && !SubOf(s, Target(q)).open
    ensures q.pc.Sending? || q.pc.Retrying? || q.pc.Parked?
  {
    hide Stored, Enumerates, Matching;
  }

  // ------------------------------------------------------- the other steps

  /** Publishes untouched, the same senders everywhere, and no lock holder's route outdated. */
  lemma PubsStay(cfg: Config, s: Bus, s': Bus)
    requires PubsOk(cfg, s) && Locks(s) && s'.pubs == s.pubs && s'.subs.Keys == s.subs.Keys
    requires forall id :: id in s.subs ==> s'.subs[id].senders == s.subs[id].senders
    requires s'.registered == s.registered || s.readers == {}
    ensures PubsOk(cfg, s')
  {
    hide LocalOk, Enumerates, Matching;
    forall p | p in s.pubs
      ensures RouteOk(cfg, s', s.pubs[p]) && SenderOk(s', p, s.pubs[p])
    {
      assert RouteOk(cfg, s, s.pubs[p]) && SenderOk(s, p, s.pubs[p]);
    }
    hide RouteOk, SenderOk;
  }

  lemma SubscribeKeepsPubs(cfg: Config, s: Bus, id: Id, s': Bus)
    requires PubsOk(cfg, s) && Locks(s) && DoSubscribe(s, id) == Some(s')
    ensures PubsOk(cfg, s')
  {
    hide LocalOk, Enumerates, Matching;
    forall p | p in s.pubs
      ensures RouteOk(cfg, s', s.pubs[p]) && SenderOk(s', p, s.pubs[p])
    {
      assert RouteOk(cfg, s, s.pubs[p]) && SenderOk(s, p, s.pubs[p]);
      if AtTarget(s.pubs[p].pc) {
        TargetIsKnown(cfg, s, s.pubs[p]);
      }
    }
    hide RouteOk, SenderOk;
  }

  lemma SubscribeKeepsInv(cfg: Config, s: Bus, id: Id, s': Bus)
    requires Inv(cfg, s) && DoSubscribe(s, id) == Some(s')
    ensures Inv(cfg, s')
  {
    hide PubsOk, Enumerates, Matching;
    SubscribeKeepsPubs(cfg, s, id, s');
  }

  /** Publishes may come and go as long as the ones that stay see the same subscriptions. */
  lemma OthersStay(cfg: Config, s: Bus, s': Bus, other: Pid)
    requires PubsOk(cfg, s) && s'.subs == s.subs && s'.registered == s.registered && other in s.pubs
    ensures LocalOk(cfg, s.pubs[other]) && RouteOk(cfg, s', s.pubs[other]) && SenderOk(s', other, s.pubs[other])
  {
    hide LocalOk, Enumerates, Matching;
    assert RouteOk(cfg, s, s.pubs[other]) && SenderOk(s, other, s.pubs[other]);
  }

  lemma PublishKeepsPubs(cfg: Config, s: Bus, p: Pid, env: Envelope, s': Bus)
    requires PubsOk(cfg, s) && SubsOk(s) && DoPublish(s, p, env) == Some(s')
    ensures PubsOk(cfg, s')
  {
    var q := s'.pubs[p];
    assert LocalOk(cfg, q) && RouteOk(cfg, s', q) by { hide SubsOk, PubsOk; }
    assert SenderOk(s', p, q) by { hide PubsOk, LocalOk, RouteOk; }
    hide LocalOk, RouteOk, SenderOk;
    forall other | other in s.pubs
      ensures LocalOk(cfg, s.pubs[other]) && RouteOk(cfg, s', s.pubs[other]) && SenderOk(s', other, s.pubs[other])
    {
      OthersStay(cfg, s, s', other);
    }
  }

  lemma SubSees(s: Bus, id: Id, t: Sub, s': Bus)
    requires SubOk(s, id, t) && s'.pubs == s.pubs && s'.closed == s.closed && s'.registered <= s.registered
    ensures SubOk(s', id, t)
  {
  }

  /** One subscription changes, everything it is judged by stays. */
  lemma OneSubChanges(s: Bus, id: Id, t': Sub, s': Bus)
    requires SubsOk(s) && id in s.subs && s'.subs == s.subs[id := t'] && SubOk(s', id, t')
    requires s'.pubs == s.pubs && s'.closed == s.closed && s'.registered <= s.registered
    ensures SubsOk(s')
  {
    hide SubOk;
    forall x | x in s.subs && x != id ensures SubOk(s', x, s.subs[x]) { SubSees(s, x, s.subs[x], s'); }
  }

  lemma NoSubChanges(s: Bus, s': Bus)
    requires SubsOk(s) && s'.subs == s.subs && s'.pubs == s.pubs && s'.registered <= s.registered
    requires s'.closed == s.closed || (s'.closed && !s.closed)
    ensures SubsOk(s')
  {
    forall x | x in s.subs ensures SubOk(s', x, s.subs[x]) { assert SubOk(s, x, s.subs[x]); }
    hide SubOk;
  }

  lemma PublishKeepsSubs(s: Bus, p: Pid, env: Envelope, s': Bus)
    requires SubsOk(s) && DoPublish(s, p, env) == Some(s')
    ensures SubsOk(s')
  {
    forall x | x in s'.subs ensures SubOk(s', x, s'.subs[x]) { assert SubOk(s, x, s.subs[x]); }
    hide SubOk;
  }

  lemma PublishKeepsLocks(s: Bus, p: Pid, env: Envelope, s': Bus)
    requires Locks(s) && DoPublish(s, p, env) == Some(s')
    ensures Locks(s')
  {
  }

  lemma PublishKeepsInv(cfg: Config, s: Bus, p: Pid, env: Envelope, s': Bus)
    requires Inv(cfg, s) && DoPublish(s, p, env) == Some(s')
    ensures Inv(cfg, s')
  {
    hide PubsOk, SubsOk, ClosersOk, CacheOk, Locks;
    PublishKeepsPubs(cfg, s, p, env, s');
    PublishKeepsSubs(s, p, env, s');
    PublishKeepsLocks(s, p, env, s');
    ClosersStay(s, s');
    SameCache(cfg, s, s');
  }

  lemma ReturnKeepsPubs(cfg: Config, s: Bus, p: Pid, s': Bus)
    requires PubsOk(cfg, s) && DoReturn(s, p) == Some(s')
    ensures PubsOk(cfg, s') && forall id :: id in s.subs ==> p !in s.subs[id].senders
  {
    assert SenderOk(s, p, s.pubs[p]);
    assert forall id :: id in s.subs ==> p !in s.subs[id].senders;
    hide LocalOk, RouteOk, SenderOk;
    forall other | other in s'.pubs
      ensures LocalOk(cfg, s.pubs[other]) && RouteOk(cfg, s', s.pubs[other]) && SenderOk(s', other, s.pubs[other])
    {
      OthersStay(cfg, s, s', other);
    }
  }

  lemma ReturnKeepsSubs(s: Bus, p: Pid, s': Bus)
    requires SubsOk(s) && DoReturn(s, p) == Some(s') && (forall id :: id in s.subs ==> p !in s.subs[id].senders)
    ensures SubsOk(s')
  {
    forall x | x in s'.subs ensures SubOk(s', x, s'.subs[x]) { assert SubOk(s, x, s.subs[x]); }
    hide SubOk;
  }

  lemma ReturnKeepsInv(cfg: Config, s: Bus, p: Pid, s': Bus)
    requires Inv(cfg, s) && DoReturn(s, p) == Some(s')
    ensures Inv(cfg, s')
  {
    hide PubsOk, SubsOk, Enumerates, Matching;
    ReturnKeepsPubs(cfg, s, p, s');
    ReturnKeepsSubs(s, p, s');
  }

  lemma ReceiveKeepsInv(cfg: Config, s: Bus, id: Id, s': Bus)
    requires Inv(cfg, s) && DoReceive(s, id) == Some(s')
    ensures Inv(cfg, s')
  {
    hide PubsOk, SubsOk, Enumerates, Matching;
    PubsStay(cfg, s, s');
    SubIs(s, id);
    OneSubChanges(s, id, s'.subs[id], s');
  }

  lemma SubIs(s: Bus, id: Id)
    requires SubsOk(s) && id in s.subs
    ensures SubOk(s, id, s.subs[id])
  {
  }

  /** A closer's next program counter fits what it did to its subscription. */
  lemma ClosersMove(s: Bus, c: nat, k: Closer, s': Bus)
    requires ClosersOk(s) && s'.closers == s.closers[c := k] && s'.registered <= s.registered
    requires k.sub in s'.subs && k.sub !in s'.registered && (k.pc.Closing? ==> s'.subs[k.sub].swept)
    requires s'.subs.Keys == s.subs.Keys && forall x :: x in s.subs && s.subs[x].swept ==> s'.subs[x].swept
    ensures ClosersOk(s')
  {
  }

  lemma CloserIs(s: Bus, c: nat)
    requires ClosersOk(s) && c in s.closers
    ensures s.closers[c].sub in s.subs
    ensures !s.closers[c].pc.Removing? ==> s.closers[c].sub !in s.registered
    ensures s.closers[c].pc.Closing? ==> s.subs[s.closers[c].sub].swept
  {
  }

  lemma RemoveKeepsInv(cfg: Config, s: Bus, c: nat, id: Id, s': Bus)
    requires Inv(cfg, s) && id in s.subs && DoRemove(s, c, id) == Some(s')
    ensures Inv(cfg, s')
  {
    hide PubsOk, SubsOk, ClosersOk, Enumerates, Matching;
    PubsStay(cfg, s, s');
    NoSubChanges(s, s');
    ClosersMove(s, c, Closer(id, Signalling), s');
    if id !in s.registered {
      assert s.registered - {id} == s.registered;
    }
  }

  /** A closer past its removal touches only the ends of its own, unregistered, subscription. */
  lemma CloserDidKeepsInv(cfg: Config, s: Bus, c: nat, id: Id, t: Sub, pc: CloserPc, s': Bus)
    requires Inv(cfg, s) && s' == CloserDid(s, c, id, t, pc) && id in s.subs && id !in s.registered
    requires t.senders == s.subs[id].senders && (s.subs[id].swept ==> t.swept)
    requires (t.swept && !s.subs[id].swept ==> t.senders == {}) && (!t.open && s.subs[id].open ==> t.swept)
    requires pc.Closing? ==> t.swept
    ensures Inv(cfg, s')
  {
    hide PubsOk, SubsOk, ClosersOk, Enumerates, Matching;
    PubsStay(cfg, s, s');
    SubIs(s, id);
    OneSubChanges(s, id, t, s');
    ClosersMove(s, c, Closer(id, pc), s');
    SameCache(cfg, s, s');
  }

  lemma CloserKeepsInv(cfg: Config, s: Bus, c: nat, s': Bus)
    requires Inv(cfg, s) && DoCloser(s, c) == Some(s')
    ensures Inv(cfg, s')
  {
    hide Locks, SubsOk, ClosersOk, PubsOk, CacheOk, ShutdownOk, DoRemove, CloserDid;
    CloserIs(s, c);
    var id := s.closers[c].sub;
    var t := s.subs[id];
    match s.closers[c].pc
    case Removing => RemoveKeepsInv(cfg, s, c, id, s');
    case Signalling => CloserDidKeepsInv(cfg, s, c, id, t.(done := true), Waiting, s');
    case Waiting => CloserDidKeepsInv(cfg, s, c, id, t.(swept := true), Closing, s');
    case Closing => CloserDidKeepsInv(cfg, s, c, id, t.(open := false), Finished, s');
  }

  lemma CloseBusKeepsInv(cfg: Config, s: Bus, s': Bus)
    requires Inv(cfg, s) && DoCloseBus(s) == Some(s')
    ensures Inv(cfg, s')
  {
    hide PubsOk, SubsOk, Enumerates, Matching;
    PubsStay(cfg, s, s');
    SubsKnown(s);
    NoSubChanges(s, s');
  }

  lemma WakeUpKeepsInv(cfg: Config, s: Bus, id: Id, s': Bus)
    requires Inv(cfg, s) && DoWakeUp(s, id) == Some(s')
    ensures Inv(cfg, s')
  {
    hide SubsOk, PubsOk, Enumerates, Matching;
    SubIs(s, id);
    OneSubChanges(s, id, s'.subs[id], s');
    PubsStay(cfg, s, s');
  }

  /** The bus closes channels only once no publish is left. */
  lemma CloseChannelKeepsInv(cfg: Config, s: Bus, id: Id, s': Bus)
    requires Inv(cfg, s) && DoCloseChannel(s, id) == Some(s')
    ensures Inv(cfg, s')
  {
    hide SubsOk, PubsOk, Enumerates, Matching;
    SubIs(s, id);
    OneSubChanges(s, id, s'.subs[id], s');
    PubsStay(cfg, s, s');
  }

  lemma NoteKeepsInv(cfg: Config, s: Bus, a: Action, s': Bus)
    requires Inv(cfg, s) && Do(cfg, s, a) == Some(s')
    requires a.InflightDrained? || a.SendersDrained? || a.CloseSub?
    ensures Inv(cfg, s')
  {
    hide SubsOk, PubsOk, Enumerates, Matching;
    PubsStay(cfg, s, s');
    NoSubChanges(s, s');
    if s.pubs.Keys == {} {
      assert s.pubs == map[];
    }
  }

  /** Every step that does not panic keeps the invariant. */
  lemma StepKeepsInv(cfg: Config, s: Bus, a: Action, s': Bus)
    requires Inv(cfg, s) && Do(cfg, s, a) == Some(s') && !s'.panicked
    ensures Inv(cfg, s')
  {
    hide Inv;
    match a
    case Subscribe(id) => hide DoSubscribe; SubscribeKeepsInv(cfg, s, id, s');
    case Publish(p, env) => hide DoPublish; PublishKeepsInv(cfg, s, p, env, s');
    case Go(p, how) => hide DoGo; GoKeepsInv(cfg, s, p, how, s');
    case Return(p) => hide DoReturn; ReturnKeepsInv(cfg, s, p, s');
    case Receive(id) => hide DoReceive; ReceiveKeepsInv(cfg, s, id, s');
    case CloserGo(c) => hide DoCloser; CloserKeepsInv(cfg, s, c, s');
    case CloseBus => hide DoCloseBus; CloseBusKeepsInv(cfg, s, s');
    case WakeUp(id) => hide DoWakeUp; WakeUpKeepsInv(cfg, s, id, s');
    case CloseChannel(id) => hide DoCloseChannel; CloseChannelKeepsInv(cfg, s, id, s');
    case _ => hide Do; NoteKeepsInv(cfg, s, a, s');
  }

  /** Before a panic, every interleaving keeps the invariant. */
  lemma {:induction false} RunKeepsInv(cfg: Config, actions: seq<Action>)
    requires Run(cfg, INIT, actions).Some? && !Run(cfg, INIT, actions).value.panicked
    ensures Inv(cfg, Run(cfg, INIT, actions).value)
    decreases |actions|
  {
    if actions != [] {
      var before := actions[..|actions| - 1];
      assert !Run(cfg, INIT, before).value.panicked;
      RunKeepsInv(cfg, before);
      hide Do, Inv;
      StepKeepsInv(cfg, Run(cfg, INIT, before).value, actions[|actions| - 1], Run(cfg, INIT, actions).value);
    }
  }
}
