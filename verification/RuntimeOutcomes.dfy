/** What the craft's operations achieve: tabled runtimes run, and open, close and reload have the effect they promise. */
module RuntimeOutcomes {
  import opened Wrappers
  import opened RuntimeTables

  // ------------------------------------------------------ tabled runtimes

  /** A call will close this runtime: it was refused by a closed craft or taken out of the table. */
  ghost predicate WillClose(k: Call, rt: Rt) {
    match k
    case Discarding(r) => r == rt
    case Draining(r) => r == rt
    case ClosingAll(left) => rt in left
    case _ => false
  }

  /** A runtime that is to be closed was published and is in the table no more, or never can be. */
  ghost predicate Released(s: Craft, rt: Rt) {
    rt < |s.built| && !Holds(s, s.built[rt].key, rt) && (s.built[rt].published || s.closed)
  }

  ghost predicate AllReleased(s: Craft) {
    forall c, rt :: c in s.calls && WillClose(s.calls[c], rt) ==> Released(s, rt)
  }

  ghost predicate Withdrawn(s: Craft, key: Key, rt: Rt) {
    exists c :: c in s.calls && s.calls[c] == Withdrawing(key, rt)
  }

  ghost predicate Runs(s: Craft, key: Key)
    requires key in s.runtimes
  {
    s.runtimes[key] < |s.built| && (s.built[s.runtimes[key]].open || Withdrawn(s, key, s.runtimes[key]))
  }

  /** A runtime to be published runs, and one that is being bound was published. */
  ghost predicate Sound(s: Craft, k: Call) {
    && (k.Publishing? && !s.closed ==> k.rt < |s.built| && s.built[k.rt].open)
    && (k.Binding? ==> k.rt < |s.built| && s.built[k.rt].published)
  }

  ghost predicate Alive(s: Craft) {
    && AllReleased(s) && (forall c :: c in s.calls ==> Sound(s, s.calls[c]))
    && forall key :: key in s.runtimes ==> Runs(s, key)
  }

  /** Entries go, or come with a runtime never published; nothing is closed and no withdrawal ends. */
  lemma QuietKeepsAlive(s: Craft, c: CallId, s': Craft)
    requires Alive(s) && |s.built| <= |s'.built| && (s.closed ==> s'.closed)
    requires forall rt :: 0 <= rt < |s.built| ==>
      s'.built[rt].key == s.built[rt].key && s'.built[rt].open == s.built[rt].open && (s.built[rt].published ==> s'.built[rt].published)
    requires forall key :: key in s'.runtimes ==> key in s.runtimes && s'.runtimes[key] == s.runtimes[key]
    requires forall d :: d != c ==> (d in s'.calls <==> d in s.calls)
    requires forall d :: d != c && d in s.calls ==> s'.calls[d] == s.calls[d]
    requires c in s.calls ==> !s.calls[c].Withdrawing?
    requires c in s'.calls ==> Sound(s', s'.calls[c]) && forall rt :: WillClose(s'.calls[c], rt) ==> Released(s', rt)
    ensures Alive(s')
  {
    forall d | d in s'.calls ensures Sound(s', s'.calls[d]) { if d != c { assert Sound(s, s.calls[d]); } }
    hide Sound;
    forall d, rt | d in s'.calls && WillClose(s'.calls[d], rt)
      ensures Released(s', rt)
    {
      if d != c { assert Released(s, rt); }
    }
    forall key | key in s'.runtimes
      ensures Runs(s', key)
    {
      assert Runs(s, key);
      if Withdrawn(s, key, s.runtimes[key]) {
        var d :| d in s.calls && s.calls[d] == Withdrawing(key, s.runtimes[key]);
        assert s'.calls[d] == s.calls[d];
      }
    }
  }

  /** Only runtimes out of the table are closed, except by the bind failure that withdraws its own. */
  lemma StopKeepsAlive(s: Craft, c: CallId, rt: Rt, next: Option<Call>, s': Craft)
    requires Inv(s) && Alive(s) && c in s.calls && !s.calls[c].Withdrawing?
    requires s' == if next.Some? then Goes(Stops(s, rt), c, next.value) else Ends(Stops(s, rt), c)
    requires WillClose(s.calls[c], rt) || (s.calls[c].Binding? && s.calls[c].rt == rt && next == Some(Withdrawing(s.calls[c].key, rt)))
    requires next.Some? ==> !next.value.Publishing? && !next.value.Binding? && forall r :: WillClose(next.value, r) ==> WillClose(s.calls[c], r)
    ensures Alive(s')
  {
    hide OpeningOk, NoneLost, CallsOk, ServesOk;
    StopKeepsSound(s, c, rt, next, s');
    hide Sound;
    StopChangesOne(s, rt);
    forall d, r | d in s'.calls && WillClose(s'.calls[d], r)
      ensures Released(s', r)
    {
      assert WillClose(s.calls[d], r) && Released(s, r);
    }
    assert WillClose(s.calls[c], rt) ==> Released(s, rt);
    hide AllReleased, WillClose;
    forall key | key in s'.runtimes
      ensures Runs(s', key)
    {
      assert Runs(s, key) && EntryOk(s, key);
      if s.runtimes[key] == rt {
        BindingWithdraws(s, c, key, rt, s');
      } else if Withdrawn(s, key, s.runtimes[key]) {
        var d :| d in s.calls && s.calls[d] == Withdrawing(key, s.runtimes[key]);
        assert s'.calls[d] == s.calls[d];
      }
    }
  }

  lemma StopKeepsSound(s: Craft, c: CallId, rt: Rt, next: Option<Call>, s': Craft)
    requires Inv(s) && Alive(s) && c in s.calls
    requires s' == if next.Some? then Goes(Stops(s, rt), c, next.value) else Ends(Stops(s, rt), c)
    requires WillClose(s.calls[c], rt) || (s.calls[c].Binding? && s.calls[c].rt == rt)
    requires next.Some? ==> !next.value.Publishing? && !next.value.Binding?
    ensures forall d :: d in s'.calls ==> Sound(s', s'.calls[d])
  {
    assert s.closed || s.built[rt].published by {
      if WillClose(s.calls[c], rt) { assert Released(s, rt); } else { assert Sound(s, s.calls[c]); }
    }
    forall d | d in s'.calls
      ensures Sound(s', s'.calls[d])
    {
      if d in s.calls {
        assert Sound(s, s.calls[d]);
        CallIs(s, d);
      }
    }
  }

  lemma BindingWithdraws(s: Craft, c: CallId, key: Key, rt: Rt, s': Craft)
    requires Inv(s) && EntryOk(s, key) && s.runtimes[key] == rt && c in s.calls && s.calls[c].Binding? && s.calls[c].rt == rt
    requires s'.runtimes == s.runtimes && |s'.built| == |s.built| && c in s'.calls && s'.calls[c] == Withdrawing(s.calls[c].key, rt)
    ensures Runs(s', key)
  {
    CallIs(s, c);
    hide TablesOk, OpeningOk, NoneLost, ServesOk, CallsOk;
    assert s'.calls[c] == Withdrawing(key, rt);
  }

  /** The runtime that enters the table runs and is none of those to be closed. */
  lemma PublishKeepsAlive(s: Craft, c: CallId, s': Craft)
    requires Inv(s) && Alive(s) && DoPublish(s, c) == Some(s')
    ensures Alive(s')
  {
    CallIs(s, c);
    hide OpeningOk, NoneLost, CallsOk, ServesOk, EntryOk;
    if s.closed {
      QuietKeepsAlive(s, c, s');
    } else {
      hide Inv;
      var rt := s.calls[c].rt;
      assert Sound(s, s.calls[c]);
      forall d | d in s'.calls ensures Sound(s', s'.calls[d]) { assert d == c || Sound(s, s.calls[d]); }
      hide Sound;
      forall d, r | d in s'.calls && WillClose(s'.calls[d], r)
        ensures Released(s', r)
      {
        assert d != c && Released(s, r) && r != rt;
      }
      hide WillClose;
      forall key | key in s'.runtimes
        ensures Runs(s', key)
      {
        if s'.runtimes[key] != rt {
          assert key in s.runtimes && Runs(s, key);
          WithdrawalStays(s, c, s', key, s.runtimes[key]);
        }
      }
    }
  }

  lemma WithdrawalStays(s: Craft, c: CallId, s': Craft, key: Key, rt: Rt)
    requires forall d :: d != c && d in s.calls ==> d in s'.calls && s'.calls[d] == s.calls[d]
    requires c in s.calls ==> s.calls[c] != Withdrawing(key, rt)
    ensures Withdrawn(s, key, rt) ==> Withdrawn(s', key, rt)
  {
    if Withdrawn(s, key, rt) {
      var d :| d in s.calls && s.calls[d] == Withdrawing(key, rt);
      assert s'.calls[d] == s.calls[d];
    }
  }

  /** A withdrawal ends with its runtime out of the table. */
  lemma WithdrawKeepsAlive(s: Craft, c: CallId, s': Craft)
    requires Alive(s) && DoWithdraw(s, c) == Some(s')
    ensures Alive(s')
  {
    forall d | d in s'.calls ensures Sound(s', s'.calls[d]) { assert Sound(s, s.calls[d]); }
    hide Sound;
    forall d, r | d in s'.calls && WillClose(s'.calls[d], r) ensures Released(s', r) { assert Released(s, r); }
    hide WillClose, Released;
    forall key | key in s'.runtimes
      ensures Runs(s', key)
    {
      assert Runs(s, key);
      WithdrawalStays(s, c, s', key, s.runtimes[key]);
    }
  }

  /** What is taken out of the table is handed to the call that closes it. */
  lemma TakeKeepsAlive(s: Craft, a: Action, s': Craft)
    requires Inv(s) && Alive(s) && Do(s, a) == Some(s') && (a.CloseRuntime? || a.Close?)
    ensures Alive(s')
  {
    hide OpeningOk, NoneLost, CallsOk, ServesOk, Alive;
    assert forall key :: key in s.runtimes ==> EntryOk(s, key);
    forall rt | WillClose(s'.calls[a.c], rt)
      ensures Released(s', rt)
    {
    }
    QuietKeepsAlive(s, a.c, s');
  }

  lemma StepKeepsAlive(s: Craft, a: Action, s': Craft)
    requires Inv(s) && Alive(s) && Do(s, a) == Some(s')
    ensures Alive(s')
  {
    hide Inv, Alive, WillClose;
    match a
    case Publish(c) => hide DoPublish; PublishKeepsAlive(s, c, s');
    case Withdraw(c) => hide DoWithdraw; WithdrawKeepsAlive(s, c, s');
    case CloseRuntime(_, _) => TakeKeepsAlive(s, a, s');
    case Close(_) => TakeKeepsAlive(s, a, s');
    case BindFailed(c) => hide Do; StoppingKeepsAlive(s, a, s');
    case Discard(c) => hide Do; StoppingKeepsAlive(s, a, s');
    case CloseTaken(c) => hide Do; StoppingKeepsAlive(s, a, s');
    case CloseOne(c, rt) => hide Do; StoppingKeepsAlive(s, a, s');
    case Start => StartKeepsAlive(s);
    case Open(_, _) => hide DoOpening; OpeningKeepsAlive(s, a, s');
    case ComposeFailed(_) => hide DoOpening; OpeningKeepsAlive(s, a, s');
    case BuildDone(_, _) => hide DoOpening; OpeningKeepsAlive(s, a, s');
    case BindDone(_) => hide DoOpening; OpeningKeepsAlive(s, a, s');
    case _ => hide DoReloading; CallsAreOk(s); ReloadingKeepsAlive(s, a, s');
  }

  lemma CallsAreOk(s: Craft)
    requires Inv(s)
    ensures CallsOk(s)
  {
    hide CallsOk;
  }

  lemma StartKeepsAlive(s: Craft)
    requires Alive(s)
    ensures Alive(s.(started := true))
  {
    var s' := s.(started := true);
    forall key | key in s'.runtimes ensures Runs(s', key) { assert Runs(s, key); }
    forall c | c in s.calls ensures Sound(s', s.calls[c]) { assert Sound(s, s.calls[c]); }
    forall c, rt | c in s.calls && WillClose(s.calls[c], rt) ensures Released(s', rt) { assert Released(s, rt); }
    hide Runs, Sound, Released, WillClose;
  }

  lemma StoppingKeepsAlive(s: Craft, a: Action, s': Craft)
    requires Inv(s) && Alive(s) && Do(s, a) == Some(s') && (a.BindFailed? || a.Discard? || a.CloseTaken? || a.CloseOne?)
    ensures Alive(s')
  {
    hide Inv, Alive, Stops;
    match a
    case BindFailed(c) => StopKeepsAlive(s, c, s.calls[c].rt, Some(Withdrawing(s.calls[c].key, s.calls[c].rt)), s');
    case Discard(c) => StopKeepsAlive(s, c, s.calls[c].rt, None, s');
    case CloseTaken(c) => StopKeepsAlive(s, c, s.calls[c].rt, None, s');
    case CloseOne(c, rt) => StopKeepsAlive(s, c, rt, Some(ClosingAll(s.calls[c].left - {rt})), s');
  }

  lemma ReloadingKeepsAlive(s: Craft, a: Action, s': Craft)
    requires CallsOk(s) && Alive(s) && DoReloading(s, a) == Some(s')
    ensures Alive(s')
  {
    var c := a.c;
    hide CallsOk, Alive, DoReloading;
    ReloadIsReloadStep(s, a, s');
    QuietKeepsAlive(s, c, s');
  }

  lemma OpeningKeepsAlive(s: Craft, a: Action, s': Craft)
    requires Alive(s) && DoOpening(s, a) == Some(s') && (a.Open? || a.ComposeFailed? || a.BuildDone? || a.BindDone?)
    ensures Alive(s')
  {
    hide Alive;
    QuietKeepsAlive(s, a.c, s');
  }

  lemma {:induction false} RunKeepsAlive(actions: seq<Action>)
    requires Run(INIT, actions).Some?
    ensures Alive(Run(INIT, actions).value)
    decreases |actions|
  {
    if actions != [] {
      hide Inv, Do, Alive;
      RunKeepsInv(actions[..|actions| - 1]);
      RunKeepsAlive(actions[..|actions| - 1]);
      StepKeepsAlive(Run(INIT, actions[..|actions| - 1]).value, actions[|actions| - 1], Run(INIT, actions).value);
    }
  }

  /** A runtime in the table runs, unless its bind failed and that open is about to withdraw it; one to be closed is in no table. */
  lemma TabledRuntimeRuns(actions: seq<Action>, key: Key)
    requires Run(INIT, actions).Some? && key in Run(INIT, actions).value.runtimes
    ensures var s := Run(INIT, actions).value; var rt := s.runtimes[key];
            && rt < |s.built| && (s.built[rt].open || Withdrawn(s, key, rt))
            && forall c :: c in s.calls ==> !WillClose(s.calls[c], rt)
  {
    hide Run, Inv, Alive;
    RunKeepsAlive(actions);
    RunKeepsInv(actions);
    EntryIsAlive(Run(INIT, actions).value, key);
  }

  lemma EntryIsAlive(s: Craft, key: Key)
    requires Inv(s) && Alive(s) && key in s.runtimes
    ensures Runs(s, key) && forall c :: c in s.calls ==> !WillClose(s.calls[c], s.runtimes[key])
  {
    hide OpeningOk, NoneLost, CallsOk, ServesOk, WillClose, Withdrawn, Sound;
    assert Runs(s, key) && EntryOk(s, key);
    forall c | c in s.calls ensures !WillClose(s.calls[c], s.runtimes[key]) { assert !Released(s, s.runtimes[key]); }
  }

  // ------------------------------------------------------ whole operations

  function Then(s: Option<Craft>, a: Action): Option<Craft> {
    if s.None? then None else Do(s.value, a)
  }

  /** An open that nothing fails or disturbs tables a new running runtime under its key, with the record of what it serves, and changes no other entry. */
  lemma OpenTakesEffect(s: Craft, c: CallId, key: Key, inputs: Inputs)
    requires s.started && !s.closed && c !in s.calls && key !in s.runtimes && key !in s.opening
    ensures var rt := |s.built|;
            Then(Then(Then(Do(s, Open(c, key)), BuildDone(c, inputs)), Publish(c)), BindDone(c))
            == Some(s.(runtimes := s.runtimes[key := rt], records := s.records[key := Record(inputs, rt)],
                       built := s.built + [Built(key, true, inputs, true)]))
  {
    OpenPublishes(s, c, key, inputs);
    hide DoOpen, DoBuilt, DoPublish;
    assert s.calls[c := Binding(key, |s.built|)] - {c} == s.calls;
  }

  lemma OpenPublishes(s: Craft, c: CallId, key: Key, inputs: Inputs)
    requires s.started && !s.closed && c !in s.calls && key !in s.runtimes && key !in s.opening
    ensures var rt := |s.built|;
            Then(Then(Do(s, Open(c, key)), BuildDone(c, inputs)), Publish(c))
            == Some(s.(runtimes := s.runtimes[key := rt], records := s.records[key := Record(inputs, rt)],
                       built := s.built + [Built(key, true, inputs, true)], calls := s.calls[c := Binding(key, rt)]))
  {
    var s1 := Do(s, Open(c, key)).value;
    var s2 := Do(s1, BuildDone(c, inputs)).value;
    var s3 := Do(s2, Publish(c)).value;
    assert s3.built == s.built + [Built(key, true, inputs, true)];
    assert s.opening + {key} - {key} == s.opening;
    assert s3.calls == s.calls[c := Binding(key, |s.built|)];
  }

  /** A bind failure leaves the tables as they were before the open, and the runtime stopped. */
  lemma FailedBindUndoesOpen(s: Craft, c: CallId, key: Key, inputs: Inputs)
    requires s.started && !s.closed && c !in s.calls && key !in s.runtimes && key !in s.records && key !in s.opening
    ensures Then(Then(Then(Then(Do(s, Open(c, key)), BuildDone(c, inputs)), Publish(c)), BindFailed(c)), Withdraw(c))
            == Some(s.(built := s.built + [Built(key, false, inputs, true)]))
  {
    hide DoOpen, DoBuilt, DoPublish, DoClosing, DoReloading;
    OpenPublishes(s, c, key, inputs);
    var rt := |s.built|;
    var s3 := s.(runtimes := s.runtimes[key := rt], records := s.records[key := Record(inputs, rt)],
                 built := s.built + [Built(key, true, inputs, true)], calls := s.calls[c := Binding(key, rt)]);
    hide Then;
    var s4 := Do(s3, BindFailed(c)).value;
    assert s4.built == s.built + [Built(key, false, inputs, true)];
    assert s4.calls - {c} == s.calls;
    assert s4.runtimes - {key} == s.runtimes && s4.records - {key} == s.records;
    ThenDoes(s3, BindFailed(c));
    ThenDoes(s4, Withdraw(c));
  }

  lemma ThenDoes(s: Craft, a: Action)
    ensures Then(Some(s), a) == Do(s, a)
  {
  }

  /** Closing a runtime frees its key in both tables and stops exactly that runtime. */
  lemma CloseRuntimeTakesEffect(s: Craft, c: CallId, key: Key)
    requires Inv(s) && c !in s.calls && key in s.runtimes
    ensures s.runtimes[key] < |s.built|
    ensures var rt := s.runtimes[key];
            Then(Do(s, CloseRuntime(c, key)), CloseTaken(c))
            == Some(s.(runtimes := s.runtimes - {key}, records := s.records - {key}, built := s.built[rt := s.built[rt].(open := false)]))
  {
    assert EntryOk(s, key);
    hide Inv;
    var s1 := Do(s, CloseRuntime(c, key)).value;
    assert s1.calls - {c} == s.calls;
  }

  /** A reload under the lifecycle lock is refused when its key is not served; otherwise it reads the record, and keeps its options unless given new ones. */
  lemma ReloadReads(s: Craft, c: CallId, key: Key, opts: Option<string>)
    requires Inv(s) && c in s.calls && s.calls[c] == Locked(key, opts)
    ensures var s' := Do(s, ReadRecord(c)).value;
            if key !in s.runtimes then s' == s.(calls := s.calls - {c}, lifecycle := None)
            else && key in s.records
                 && s' == s.(calls := s.calls[c := Reloading(key, s.runtimes[key], s.records[key], if opts == None then s.records[key].inputs.options else opts.value)])
  {
    hide OpeningOk, NoneLost, CallsOk, ServesOk, EntryOk;
  }

  /** An undisturbed reload leaves the runtime serving the new inputs, and the record saying so. */
  lemma ReloadTakesEffect(s: Craft, c: CallId, doc: string, externals: string, resolver: string)
    requires Inv(s) && c in s.calls && s.calls[c].Reloading? && !s.closed && Holds(s, s.calls[c].key, s.calls[c].rt)
    ensures s.calls[c].rt < |s.built|
    ensures var k := s.calls[c]; var next := Inputs(doc, k.options, externals, resolver);
            Then(Then(Do(s, Swap(c, doc, externals, resolver)), ReloadBound(c)), WriteBack(c))
            == Some(s.(records := s.records[k.key := Record(next, k.rt)], built := s.built[k.rt := s.built[k.rt].(serving := next)],
                       adrift := s.adrift - {k.rt}, calls := s.calls - {c}, lifecycle := None))
  {
    CallIs(s, c);
    hide Inv, DoOpening, DoClosing, DoReadRecord, DoRollBack;
    var s1 := Do(s, Swap(c, doc, externals, resolver)).value;
    var s2 := Do(s1, ReloadBound(c)).value;
    assert s2.calls - {c} == s.calls - {c};
  }
}
