/** Whole-run guarantees of the bus: when a send can meet a closed channel, and that routes are what a scan selects. */
module BusClose {
  import opened Wrappers
  import opened Subjects
  import opened BusModel
  import opened BusSafety

  // ------------------------------------------------------------- routing

  /** In every reachable state a cached route is what a full scan would select, and the cache is within its cap. */
  lemma CachedRouteIsFullScan(cfg: Config, actions: seq<Action>, subject: Subject)
    requires Run(cfg, INIT, actions).Some? && !Run(cfg, INIT, actions).value.panicked
    ensures var s := Run(cfg, INIT, actions).value;
            && |s.cache| <= cfg.cacheCap
            && (subject in s.cache ==> Enumerates(s.cache[subject], Matching(cfg, s.registered, subject)))
  {
    hide Enumerates, Matching, Locks, PubsOk, SubsOk, ClosersOk, ShutdownOk, Run;
    RunKeepsInv(cfg, actions);
  }

  // ------------------------------------------------- safety of early sends

  /** Every send up to and including a publish's first Block send is safe, whoever closes what. */
  lemma FirstBlockIsSafe(cfg: Config, actions: seq<Action>, p: Pid, how: Choice)
    requires Run(cfg, INIT, actions).Some? && !Run(cfg, INIT, actions).value.panicked
    requires p in Run(cfg, INIT, actions).value.pubs && !Run(cfg, INIT, actions).value.pubs[p].stale
    ensures var s := Run(cfg, INIT, actions).value;
            PubMove(cfg, s, p, s.pubs[p], how) != Some(Panic)
  {
    hide Run, Inv, PubMove;
    RunKeepsInv(cfg, actions);
    var s := Run(cfg, INIT, actions).value;
    if PubMove(cfg, s, p, s.pubs[p], how) == Some(Panic) {
      PanicNeedsStaleAndSwept(cfg, s, p, how);
    }
  }

  // ------------------------------------------ the bus close as only closer

  ghost predicate NothingSwept(s: Bus) {
    s.closers == map[] && forall id :: id in s.subs ==> !s.subs[id].swept
  }

  lemma StepSweepsNothing(cfg: Config, s: Bus, a: Action, s': Bus)
    requires NothingSwept(s) && Do(cfg, s, a) == Some(s') && !a.CloseSub?
    requires a.Go? ==> forall id :: id in s.subs ==> id in s'.subs && s'.subs[id].swept == s.subs[id].swept
    ensures NothingSwept(s')
  {
    hide PubMove;
  }

  lemma GoSweepsNothing(cfg: Config, s: Bus, p: Pid, how: Choice, s': Bus)
    requires Inv(cfg, s) && DoGo(cfg, s, p, how) == Some(s') && !s.panicked
    ensures forall id :: id in s.subs ==> id in s'.subs && s'.subs[id].swept == s.subs[id].swept
  {
    if !s'.panicked {
      hide PubMove, Moved, Shape, LocalOk, RouteOk, SenderOk, CacheOk, Locks, SubsOk, Stored, ClosersOk, ShutdownOk;
      var q := s.pubs[p];
      var m := PubMove(cfg, s, p, q, how).value;
      MovedIsApplied(s, p, m, s');
      hide Applied;
      MoveHasShape(cfg, s, p, q, how, m);
      ShapeKeepsSubs(cfg, s, p, q, m.q, m.sub, s');
    }
  }

  lemma PanicIsAGo(cfg: Config, s: Bus, a: Action, s': Bus)
    requires Do(cfg, s, a) == Some(s') && s'.panicked
    ensures a.Go? && a.p in s.pubs && PubMove(cfg, s, a.p, s.pubs[a.p], a.how) == Some(Panic)
  {
    hide PubMove;
  }

  /** With the bus close as the only closer, no interleaving sends on a closed channel. */
  lemma {:induction false} BusCloseIsSafe(cfg: Config, actions: seq<Action>)
    requires forall a :: a in actions ==> !a.CloseSub?
    requires Run(cfg, INIT, actions).Some?
    ensures var s := Run(cfg, INIT, actions).value; !s.panicked && NothingSwept(s)
    decreases |actions|
  {
    if actions != [] {
      hide Do, Inv, PubMove, NothingSwept;
      var before := actions[..|actions| - 1];
      var a := actions[|actions| - 1];
      BusCloseIsSafe(cfg, before);
      RunKeepsInv(cfg, before);
      OnlyCloserStep(cfg, Run(cfg, INIT, before).value, a, Run(cfg, INIT, actions).value);
    }
  }

  lemma OnlyCloserStep(cfg: Config, s: Bus, a: Action, s': Bus)
    requires Inv(cfg, s) && NothingSwept(s) && !s.panicked && Do(cfg, s, a) == Some(s') && !a.CloseSub?
    ensures !s'.panicked && NothingSwept(s')
  {
    hide PubMove, Inv;
    if s'.panicked {
      PanicIsAGo(cfg, s, a, s');
      PanicNeedsStaleAndSwept(cfg, s, a.p, a.how);
    } else {
      if a.Go? {
        GoSweepsNothing(cfg, s, a.p, a.how, s');
      }
      hide Do;
      StepSweepsNothing(cfg, s, a, s');
    }
  }

  // ------------------------------------------------ exactly when it is safe

  predicate CanSend(policy: Policy) {
    policy.Sample? ==> policy.rate > 0.0
  }

  /** A Block subscription shares an envelope with another subscription that can be sent to. */
  ghost predicate Shares(cfg: Config, env: Envelope, a: Id, b: Id) {
    && a != b && cfg.spec(a).policy.Block? && CanSend(cfg.spec(b).policy)
    && MatchesSub(cfg, a, env.subject) && cfg.spec(a).allows(env)
    && MatchesSub(cfg, b, env.subject) && cfg.spec(b).allows(env)
  }

  ghost predicate Overlap(cfg: Config) {
    exists env, a, b :: Shares(cfg, env, a, b)
  }

  lemma PanicTargetCanSend(cfg: Config, s: Bus, p: Pid, q: Pub, how: Choice)
    requires LocalOk(cfg, q) && PubMove(cfg, s, p, q, how) == Some(Panic)
    ensures CanSend(cfg.spec(Target(q)).policy)
  {
    hide Stored, Enumerates, Matching, MatchesSub, PassedBlock;
  }

  lemma PanicNeedsOverlap(cfg: Config, s: Bus, p: Pid, how: Choice)
    requires Inv(cfg, s) && p in s.pubs && PubMove(cfg, s, p, s.pubs[p], how) == Some(Panic)
    ensures Overlap(cfg)
  {
    hide PubMove, RouteOk, SenderOk, Locks, SubsOk, ClosersOk, ShutdownOk, CacheOk, MatchesSub;
    PanicNeedsStaleAndSwept(cfg, s, p, how);
    var q := s.pubs[p];
    PanicTargetCanSend(cfg, s, p, q, how);
    var k :| 0 <= k < q.i && k < |q.route| && cfg.spec(q.route[k]).policy.Block? && cfg.spec(q.route[k]).allows(q.env);
    assert q.route[k] in q.route && q.route[q.i] in q.route;
    assert Shares(cfg, q.env, q.route[k], q.route[q.i]);
  }

  lemma {:induction false} NoOverlapIsSafe(cfg: Config, actions: seq<Action>)
    requires !Overlap(cfg) && Run(cfg, INIT, actions).Some?
    ensures !Run(cfg, INIT, actions).value.panicked
    decreases |actions|
  {
    if actions != [] {
      hide Do, Inv, PubMove;
      var before := actions[..|actions| - 1];
      var a := actions[|actions| - 1];
      NoOverlapIsSafe(cfg, before);
      RunKeepsInv(cfg, before);
      if Run(cfg, INIT, actions).value.panicked {
        PanicIsAGo(cfg, Run(cfg, INIT, before).value, a, Run(cfg, INIT, actions).value);
        PanicNeedsOverlap(cfg, Run(cfg, INIT, before).value, a.p, a.how);
      }
    }
  }

  // ---------------------------------------------- the failing interleaving

  lemma ReachStep(cfg: Config, s: Bus, a: Action, s': Bus)
    requires Reachable(cfg, s) && Do(cfg, s, a) == Some(s')
    ensures Reachable(cfg, s')
  {
    hide Do;
    var actions :| Run(cfg, INIT, actions) == Some(s);
    var longer := actions + [a];
    assert longer[..|longer| - 1] == actions;
    assert Run(cfg, INIT, longer) == Some(s');
  }

  lemma ReachGo(cfg: Config, s: Bus, how: Choice, m: Move)
    requires Reachable(cfg, s) && !s.panicked && 0 in s.pubs && PubMove(cfg, s, 0, s.pubs[0], how) == Some(m)
    ensures Reachable(cfg, Moved(s, 0, s.pubs[0], m))
  {
    hide PubMove, Moved, Reachable;
    ReachStep(cfg, s, Go(0, how), Moved(s, 0, s.pubs[0], m));
  }

  /** Two subscriptions, one publish in flight, and at most one call closing the second subscription. */
  function Scene(a: Id, b: Id, registered: set<Id>, cache: map<Subject, seq<Id>>, q: Pub, ta: Sub, tb: Sub, closers: map<nat, Closer>): Bus {
    Bus(false, registered, cache, if Holding(q.pc) then {0} else {}, {0}, map[0 := q], map[a := ta, b := tb], closers, Idle, 0, [], false)
  }

  lemma TwoSubscriptions(cfg: Config, a: Id, b: Id, env: Envelope)
    requires a != b
    ensures Reachable(cfg, Scene(a, b, {a, b}, map[], Pub(env, Registered, [], 0, false, [], []), CREATED, CREATED, map[]))
  {
    assert Run(cfg, INIT, []) == Some(INIT);
    hide Reachable;
    var s1 := DoSubscribe(INIT, a).value;
    assert Reachable(cfg, INIT) by { ReachInit(cfg); }
    ReachStep(cfg, INIT, Subscribe(a), s1);
    var s2 := DoSubscribe(s1, b).value;
    ReachStep(cfg, s1, Subscribe(b), s2);
    var s3 := DoPublish(s2, 0, env).value;
    ReachStep(cfg, s2, Publish(0, env), s3);
    assert s3 == Scene(a, b, {a, b}, map[], Pub(env, Registered, [], 0, false, [], []), CREATED, CREATED, map[]);
  }

  lemma ReachInit(cfg: Config)
    ensures Reachable(cfg, INIT)
  {
    assert Run(cfg, INIT, []) == Some(INIT);
  }

  /** The publish resolves its route while both are registered. */
  lemma RouteResolved(cfg: Config, a: Id, b: Id, env: Envelope) returns (cache: map<Subject, seq<Id>>)
    requires Shares(cfg, env, a, b)
    ensures Reachable(cfg, Scene(a, b, {a, b}, cache, Pub(env, Scanning, [a, b], 0, false, [], []), CREATED, CREATED, map[]))
  {
    hide MatchesSub, Reachable;
    TwoSubscriptions(cfg, a, b, env);
    var q := Pub(env, Registered, [], 0, false, [], []);
    var s := Scene(a, b, {a, b}, map[], q, CREATED, CREATED, map[]);
    var s1 := Scene(a, b, {a, b}, map[], q.(pc := Locked), CREATED, CREATED, map[]);
    ReachGo(cfg, s, Plain, Move(q.(pc := Locked), SubOf(s, 0), 0, map[]));
    assert s1 == Moved(s, 0, q, Move(q.(pc := Locked), SubOf(s, 0), 0, map[]));
    assert Enumerates([a, b], Matching(cfg, {a, b}, env.subject));
    hide Enumerates, Matching;
    var q2 := q.(pc := Missed, route := [a, b]);
    var s2 := Scene(a, b, {a, b}, map[], q2, CREATED, CREATED, map[]);
    ReachGo(cfg, s1, Order([a, b]), Move(q2, SubOf(s1, 0), 0, map[]));
    assert s2 == Moved(s1, 0, q.(pc := Locked), Move(q2, SubOf(s1, 0), 0, map[]));
    cache := Stored(cfg, map[], env.subject, [a, b]);
    hide Stored;
    var q3 := q2.(pc := Scanning);
    ReachGo(cfg, s2, Plain, Move(q3, CREATED, 0, cache));
    assert Scene(a, b, {a, b}, cache, q3, CREATED, CREATED, map[]) == Moved(s2, 0, q2, Move(q3, CREATED, 0, cache));
  }

  lemma SceneGoes(cfg: Config, a: Id, b: Id, registered: set<Id>, cache: map<Subject, seq<Id>>, q: Pub, ta: Sub, tb: Sub,
                  closers: map<nat, Closer>, how: Choice, q': Pub, t': Sub)
    requires a != b && q.i < |q.route| && q.route == [a, b]
    requires Reachable(cfg, Scene(a, b, registered, cache, q, ta, tb, closers))
    requires PubMove(cfg, Scene(a, b, registered, cache, q, ta, tb, closers), 0, q, how) == Some(Move(q', t', 0, cache))
    ensures Reachable(cfg, Scene(a, b, registered, cache, q', if q.i == 0 then t' else ta, if q.i == 1 then t' else tb, closers))
  {
    hide PubMove, Reachable;
    var s := Scene(a, b, registered, cache, q, ta, tb, closers);
    assert map[a := ta, b := tb][a := t'] == map[a := t', b := tb];
    assert map[a := ta, b := tb][b := t'] == map[a := ta, b := t'];
    ReachGo(cfg, s, how, Move(q', t', 0, cache));
    assert Moved(s, 0, q, Move(q', t', 0, cache))
        == Scene(a, b, registered, cache, q', if q.i == 0 then t' else ta, if q.i == 1 then t' else tb, closers);
  }

  /** It parks on the Block subscription. */
  lemma BlockParked(cfg: Config, a: Id, b: Id, env: Envelope) returns (cache: map<Subject, seq<Id>>)
    requires Shares(cfg, env, a, b)
    ensures Reachable(cfg, Scene(a, b, {a, b}, cache, Pub(env, Parked, [a, b], 0, false, [], []), CREATED.(senders := {0}), CREATED, map[]))
  {
    hide MatchesSub, Reachable;
    cache := RouteResolved(cfg, a, b, env);
    var q := Pub(env, Scanning, [a, b], 0, false, [], []);
    var none: set<Pid> := {};
    assert none + {0} == {0};
    SceneGoes(cfg, a, b, {a, b}, cache, q, CREATED, CREATED, map[], Plain, q.(pc := Sending), CREATED);
    SceneGoes(cfg, a, b, {a, b}, cache, q.(pc := Sending), CREATED, CREATED, map[], Plain, q.(pc := Parked), CREATED.(senders := {0}));
  }

  /** It delivers there and is about to take the lock again. */
  lemma BlockDelivered(cfg: Config, a: Id, b: Id, env: Envelope) returns (cache: map<Subject, seq<Id>>, ta: Sub)
    requires Shares(cfg, env, a, b)
    ensures Reachable(cfg, Scene(a, b, {a, b}, cache, Pub(env, Relocking, [a, b], 0, false, [a], []), ta, CREATED, map[]))
  {
    hide MatchesSub, Reachable;
    cache := BlockParked(cfg, a, b, env);
    var q := Pub(env, Parked, [a, b], 0, false, [], []);
    var t1 := CREATED.(senders := {0});
    var none: set<Pid> := {};
    var nobody: seq<Id> := [];
    assert {0} - {0} == none && nobody + [a] == [a];
    var t2 := Enqueued(t1, env);
    ta := t2.(senders := {});
    SceneGoes(cfg, a, b, {a, b}, cache, q, t1, CREATED, map[], Send, q.(pc := Woken, delivers := [a]), t2);
    SceneGoes(cfg, a, b, {a, b}, cache, q.(pc := Woken, delivers := [a]), t2, CREATED, map[], Plain, q.(pc := Relocking, delivers := [a]), ta);
  }

  /** Meanwhile the other subscription is closed; the publish goes on with the route it resolved before. */
  lemma ClosedUnderOutdatedRoute(cfg: Config, a: Id, b: Id, env: Envelope) returns (cache: map<Subject, seq<Id>>, ta: Sub)
    requires Shares(cfg, env, a, b)
    ensures Reachable(cfg, Scene(a, b, {a}, cache, Pub(env, Sending, [a, b], 1, true, [a], []), ta,
                                 Sub(false, true, true, {}, [], [], []), map[0 := Closer(b, Finished)]))
  {
    hide MatchesSub, Reachable;
    var before;
    before, ta := BlockDelivered(cfg, a, b, env);
    var q := Pub(env, Relocking, [a, b], 0, false, [a], []);
    var s := Scene(a, b, {a, b}, before, q, ta, CREATED, map[]);
    var s1 := Scene(a, b, {a, b}, before, q, ta, CREATED, map[0 := Closer(b, Removing)]);
    ReachStep(cfg, s, CloseSub(0, b), s1);
    cache := map[];
    assert {a, b} - {b} == {a};
    assert map[0 := Closer(b, Removing)][0 := Closer(b, Signalling)] == map[0 := Closer(b, Signalling)];
    assert map[][0 := Closer(b, Removing)] == map[0 := Closer(b, Removing)];
    ReachStep(cfg, s1, CloserGo(0), Scene(a, b, {a}, cache, q, ta, CREATED, map[0 := Closer(b, Signalling)]));
    var q1 := Pub(env, Scanning, [a, b], 1, true, [a], []);
    SceneGoes(cfg, a, b, {a}, cache, q, ta, CREATED, map[0 := Closer(b, Signalling)], Plain, q1, ta);
    var q2 := q1.(pc := Sending);
    SceneGoes(cfg, a, b, {a}, cache, q1, ta, CREATED, map[0 := Closer(b, Signalling)], Plain, q2, CREATED);
    SceneCloses(cfg, a, b, cache, q2, ta);
  }

  lemma SceneCloser(cfg: Config, a: Id, b: Id, cache: map<Subject, seq<Id>>, q: Pub, ta: Sub, tb: Sub, pc: CloserPc, tb': Sub, pc': CloserPc)
    requires a != b && Reachable(cfg, Scene(a, b, {a}, cache, q, ta, tb, map[0 := Closer(b, pc)]))
    requires var s := Scene(a, b, {a}, cache, q, ta, tb, map[0 := Closer(b, pc)]);
             DoCloser(s, 0) == Some(CloserDid(s, 0, b, tb', pc'))
    ensures Reachable(cfg, Scene(a, b, {a}, cache, q, ta, tb', map[0 := Closer(b, pc')]))
  {
    hide Reachable, DoCloser;
    var s := Scene(a, b, {a}, cache, q, ta, tb, map[0 := Closer(b, pc)]);
    assert map[a := ta, b := tb][b := tb'] == map[a := ta, b := tb'];
    assert map[0 := Closer(b, pc)][0 := Closer(b, pc')] == map[0 := Closer(b, pc')];
    ReachStep(cfg, s, CloserGo(0), CloserDid(s, 0, b, tb', pc'));
  }

  lemma SceneCloses(cfg: Config, a: Id, b: Id, cache: map<Subject, seq<Id>>, q: Pub, ta: Sub)
    requires a != b && Reachable(cfg, Scene(a, b, {a}, cache, q, ta, CREATED, map[0 := Closer(b, Signalling)]))
    ensures Reachable(cfg, Scene(a, b, {a}, cache, q, ta, Sub(false, true, true, {}, [], [], []), map[0 := Closer(b, Finished)]))
  {
    hide Reachable, CloserDid;
    var t1 := Sub(true, true, false, {}, [], [], []);
    var t2 := Sub(true, true, true, {}, [], [], []);
    SceneCloser(cfg, a, b, cache, q, ta, CREATED, Signalling, t1, Waiting);
    SceneCloser(cfg, a, b, cache, q, ta, t1, Waiting, t2, Closing);
    SceneCloser(cfg, a, b, cache, q, ta, t2, Closing, Sub(false, true, true, {}, [], [], []), Finished);
  }

  lemma OverlapCanPanic(cfg: Config, a: Id, b: Id, env: Envelope) returns (s: Bus)
    requires Shares(cfg, env, a, b)
    ensures Reachable(cfg, s) && s.panicked
  {
    hide MatchesSub, Reachable;
    var cache, ta := ClosedUnderOutdatedRoute(cfg, a, b, env);
    var q := Pub(env, Sending, [a, b], 1, true, [a], []);
    var tb := Sub(false, true, true, {}, [], [], []);
    var closers := map[0 := Closer(b, Finished)];
    s := Scene(a, b, {a}, cache, q, ta, tb, closers);
    if cfg.spec(b).policy.Block? {
      var none: set<Pid> := {};
      assert none + {0} == {0};
      var t' := tb.(senders := {0});
      SceneGoes(cfg, a, b, {a}, cache, q, ta, tb, closers, Plain, q.(pc := Parked), t');
      s := Scene(a, b, {a}, cache, q.(pc := Parked), ta, t', closers);
      ReachGo(cfg, s, Send, Panic);
    } else {
      ReachGo(cfg, s, Keep(true), Panic);
    }
    s := s.(panicked := true);
  }

  /** With subscription closes in play, every interleaving is safe exactly when no Block subscription shares an envelope with another. */
  lemma SafeIffNoOverlap(cfg: Config)
    ensures (forall s :: Reachable(cfg, s) ==> !s.panicked) <==> !Overlap(cfg)
  {
    if Overlap(cfg) {
      var env, a, b :| Shares(cfg, env, a, b);
      var s := OverlapCanPanic(cfg, a, b, env);
    } else {
      forall s | Reachable(cfg, s)
        ensures !s.panicked
      {
        var actions :| Run(cfg, INIT, actions) == Some(s);
        NoOverlapIsSafe(cfg, actions);
      }
    }
  }
}
