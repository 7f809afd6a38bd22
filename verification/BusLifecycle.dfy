/** From subscribing to the closed channel: a subscription stays registered until it is closed, and closes leave nothing open. */
module BusLifecycle {
  import opened Wrappers
  import opened BusModel
  import opened BusSafety
  import BusProgress

  /** A call of the subscription's Close took it off the bus. */
  ghost predicate TakenOff(s: Bus, id: Id) {
    exists c :: c in s.closers && s.closers[c].sub == id && !s.closers[c].pc.Removing?
  }

  /** Where a subscription nobody took off stands while the bus is open, while its close signals, and while it closes channels. */
  ghost predicate Placed(s: Bus, id: Id)
    requires id in s.subs
  {
    match s.shutdown
    case Idle => id in s.registered
    case WakingUp(subs, left) => id in subs && (id in left || s.subs[id].done)
    case ClosingChannels(left, waited) => s.subs[id].done && (id in left || !s.subs[id].open)
  }

  /** A close past its signal has signalled; one that returned has closed the channel. */
  ghost predicate HasActed(s: Bus, k: Closer) {
    && k.sub in s.subs
    && (k.pc.Waiting? || k.pc.Closing? || k.pc.Finished? ==> s.subs[k.sub].done)
    && (k.pc.Finished? ==> !s.subs[k.sub].open)
  }

  ghost predicate InOrder(s: Bus) {
    && (forall id :: id in s.subs ==> TakenOff(s, id) || Placed(s, id))
    && (forall c :: c in s.closers ==> HasActed(s, s.closers[c]))
  }

  /** Ends never reopen. */
  ghost predicate EndsStay(s: Bus, s': Bus) {
    forall id :: id in s.subs ==>
      id in s'.subs && (s.subs[id].done ==> s'.subs[id].done) && (s'.subs[id].open ==> s.subs[id].open)
  }

  lemma GoKeepsEnds(cfg: Config, s: Bus, p: Pid, how: Choice, s': Bus)
    requires Inv(cfg, s) && DoGo(cfg, s, p, how) == Some(s') && !s.panicked && !s'.panicked
    ensures EndsStay(s, s') && s'.subs.Keys == s.subs.Keys
    ensures s'.registered == s.registered && s'.closers == s.closers && s'.shutdown == s.shutdown
  {
    hide PubMove, Moved, Shape, LocalOk, RouteOk, SenderOk, CacheOk, Locks, SubsOk, Stored, ClosersOk, ShutdownOk;
    var q := s.pubs[p];
    var m := PubMove(cfg, s, p, q, how).value;
    MovedIsApplied(s, p, m, s');
    MoveHasShape(cfg, s, p, q, how, m);
    if Target(q) in s.subs {
      ShapeKeepsTarget(cfg, s, p, q, m.q, m.sub);
    }
  }

  /** Nothing about registration or closing moves. */
  lemma QuietKeepsOrder(s: Bus, s': Bus)
    requires InOrder(s) && EndsStay(s, s') && s'.subs.Keys == s.subs.Keys
    requires s'.registered == s.registered && s'.closers == s.closers && s'.shutdown == s.shutdown
    ensures InOrder(s')
  {
    forall id | id in s'.subs ensures TakenOff(s', id) || Placed(s', id) { assert TakenOff(s, id) || Placed(s, id); }
    hide TakenOff, Placed;
  }

  lemma RemoveKeepsOrder(s: Bus, c: nat, id: Id, s': Bus)
    requires InOrder(s) && c in s.closers && s.closers[c] == Closer(id, Removing) && DoRemove(s, c, id) == Some(s')
    ensures InOrder(s')
  {
    assert s'.closers[c] == Closer(id, Signalling);
    forall x | x in s'.subs
      ensures TakenOff(s', x) || Placed(s', x)
    {
      TakenOffStays(s, s', x);
      assert TakenOff(s, x) || Placed(s, x);
      assert x == id ==> TakenOff(s', x);
    }
    hide TakenOff, Placed;
  }

  /** Calls of Close only move on. */
  ghost predicate ClosersMoveOn(s: Bus, s': Bus) {
    forall c :: c in s.closers ==> c in s'.closers && s'.closers[c].sub == s.closers[c].sub && (s'.closers[c].pc.Removing? ==> s.closers[c].pc.Removing?)
  }

  lemma TakenOffStays(s: Bus, s': Bus, id: Id)
    requires ClosersMoveOn(s, s')
    ensures TakenOff(s, id) ==> TakenOff(s', id)
  {
    if TakenOff(s, id) {
      var c :| c in s.closers && s.closers[c].sub == id && !s.closers[c].pc.Removing?;
      assert c in s'.closers && s'.closers[c].sub == id && !s'.closers[c].pc.Removing?;
    }
  }

  lemma CloserDidKeepsOrder(s: Bus, c: nat, id: Id, t: Sub, pc: CloserPc, s': Bus)
    requires InOrder(s) && c in s.closers && s.closers[c].sub == id && id in s.subs && s' == CloserDid(s, c, id, t, pc)
    requires !pc.Removing? && (s.subs[id].done ==> t.done) && (t.open ==> s.subs[id].open) && HasActed(s', Closer(id, pc))
    ensures InOrder(s')
  {
    forall x | x in s'.subs
      ensures TakenOff(s', x) || Placed(s', x)
    {
      TakenOffStays(s, s', x);
      assert TakenOff(s, x) || Placed(s, x);
    }
    hide TakenOff, Placed;
  }

  lemma CloserKeepsOrder(s: Bus, c: nat, s': Bus)
    requires InOrder(s) && DoCloser(s, c) == Some(s')
    ensures InOrder(s')
  {
    hide TakenOff, Placed, DoRemove;
    var id := s.closers[c].sub;
    var t := s.subs[id];
    assert HasActed(s, s.closers[c]);
    hide InOrder;
    match s.closers[c].pc
    case Removing => RemoveKeepsOrder(s, c, id, s');
    case Signalling => CloserDidKeepsOrder(s, c, id, t.(done := true), Waiting, s');
    case Waiting => CloserDidKeepsOrder(s, c, id, t.(swept := true), Closing, s');
    case Closing => CloserDidKeepsOrder(s, c, id, t.(open := false), Finished, s');
  }

  lemma OtherKeepsOrder(cfg: Config, s: Bus, a: Action, s': Bus)
    requires InOrder(s) && ShutdownOk(s) && Do(cfg, s, a) == Some(s') && !a.Go? && !a.CloserGo?
    ensures InOrder(s')
  {
    hide TakenOff;
    forall id | id in s'.subs
      ensures TakenOff(s', id) || Placed(s', id)
    {
      TakenOffStays(s, s', id);
    }
    hide Placed;
  }

  lemma StepKeepsOrder(cfg: Config, s: Bus, a: Action, s': Bus)
    requires Inv(cfg, s) && InOrder(s) && Do(cfg, s, a) == Some(s') && !s'.panicked
    ensures InOrder(s')
  {
    hide InOrder, Locks, PubsOk, SubsOk, ClosersOk, ShutdownOk, CacheOk;
    if a.Go? {
      hide DoGo;
      GoKeepsEnds(cfg, s, a.p, a.how, s');
      QuietKeepsOrder(s, s');
    } else if a.CloserGo? {
      hide DoCloser;
      CloserKeepsOrder(s, a.c, s');
    } else {
      hide Do;
      OtherKeepsOrder(cfg, s, a, s');
    }
  }

  lemma {:induction false} RunKeepsOrder(cfg: Config, actions: seq<Action>)
    requires Run(cfg, INIT, actions).Some? && !Run(cfg, INIT, actions).value.panicked
    ensures Inv(cfg, Run(cfg, INIT, actions).value) && InOrder(Run(cfg, INIT, actions).value)
    decreases |actions|
  {
    RunKeepsInv(cfg, actions);
    if actions != [] {
      var before := actions[..|actions| - 1];
      assert !Run(cfg, INIT, before).value.panicked;
      hide Do, Inv, InOrder;
      RunKeepsOrder(cfg, before);
      StepKeepsOrder(cfg, Run(cfg, INIT, before).value, actions[|actions| - 1], Run(cfg, INIT, actions).value);
    }
  }

  // ----------------------------------------------------------- guarantees

  /** On a bus that is not closed a subscription is registered, open and unsignalled exactly as long as no call of Close took it off. */
  lemma RegisteredUntilTakenOff(cfg: Config, actions: seq<Action>, id: Id)
    requires Run(cfg, INIT, actions).Some? && !Run(cfg, INIT, actions).value.panicked
    requires !Run(cfg, INIT, actions).value.closed && id in Run(cfg, INIT, actions).value.subs
    ensures var s := Run(cfg, INIT, actions).value;
            && (id in s.registered <==> !TakenOff(s, id))
            && (id in s.registered ==> s.subs[id].open && !s.subs[id].done)
  {
    RunKeepsOrder(cfg, actions);
    hide Run, Locks, PubsOk, CacheOk;
    var s := Run(cfg, INIT, actions).value;
    assert SubOk(s, id, s.subs[id]);
  }

  /** A call of Close that returned leaves its channel closed and its senders signalled. */
  lemma ReturnedCloseHasClosed(cfg: Config, actions: seq<Action>, c: nat)
    requires Run(cfg, INIT, actions).Some? && !Run(cfg, INIT, actions).value.panicked
    requires c in Run(cfg, INIT, actions).value.closers && Run(cfg, INIT, actions).value.closers[c].pc.Finished?
    ensures var s := Run(cfg, INIT, actions).value; var id := s.closers[c].sub;
            id in s.subs && id !in s.registered && s.subs[id].done && !s.subs[id].open
  {
    RunKeepsOrder(cfg, actions);
    hide Run, Locks, PubsOk, SubsOk, CacheOk, TakenOff, Placed;
    var s := Run(cfg, INIT, actions).value;
    assert HasActed(s, s.closers[c]);
  }

  /** Once the bus close has returned, every channel is closed except those a call of Close took off and has yet to close. */
  lemma BusCloseClosesAll(cfg: Config, actions: seq<Action>, id: Id)
    requires Run(cfg, INIT, actions).Some? && !Run(cfg, INIT, actions).value.panicked
    requires BusProgress.Closed(Run(cfg, INIT, actions).value) && id in Run(cfg, INIT, actions).value.subs
    ensures var s := Run(cfg, INIT, actions).value;
            TakenOff(s, id) || (s.subs[id].done && !s.subs[id].open)
  {
    RunKeepsOrder(cfg, actions);
    hide Run, Inv, TakenOff, HasActed;
  }
}
