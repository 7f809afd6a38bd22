/**
 The craft's runtime tables as atomic steps between lock boundaries: open, reload,
 close of one runtime and close of everything, with composing, building, binding
 and closing done outside the lock.
 */
module RuntimeTables {
  import opened Wrappers

  type Key = string
  type Rt = nat
  type CallId = nat

  /** What one generation of a runtime is built from. */
  datatype Inputs = Inputs(doc: string, options: string, externals: string, resolver: string)

  /** A table record; `owner` notes the runtime it was written for. */
  datatype Record = Record(inputs: Inputs, owner: Rt)

  /** A built runtime: the key it was built for, whether it still runs, what its live generation was built from; `published` notes that it entered the table. */
  datatype Built = Built(key: Key, open: bool, serving: Inputs, published: bool)

  datatype Call =
    | Composing(key: Key)
    | Publishing(key: Key, rt: Rt)
    | Discarding(rt: Rt)
    | Binding(key: Key, rt: Rt)
    | Withdrawing(key: Key, rt: Rt)
    | Draining(rt: Rt)
    | ClosingAll(left: set<Rt>)
    | Locked(key: Key, opts: Option<string>)
    | Reloading(key: Key, rt: Rt, record: Record, options: string)
    | Swapped(key: Key, rt: Rt, record: Record, next: Inputs)
    | Bound(key: Key, rt: Rt, record: Record, next: Inputs)
    | RollingBack(key: Key, rt: Rt, record: Record)

  /** `built` numbers runtimes; `adrift` notes those whose last reload could not be rolled back. */
  datatype Craft = Craft(
    started: bool,
    closed: bool,
    runtimes: map<Key, Rt>,
    records: map<Key, Record>,
    opening: set<Key>,
    lifecycle: Option<CallId>,
    built: seq<Built>,
    calls: map<CallId, Call>,
    adrift: set<Rt>)

  const INIT: Craft := Craft(false, false, map[], map[], {}, None, [], map[], {})

  // -------------------------------------------------------------- actions

  datatype Action =
    | Start
    | Open(c: CallId, key: Key)
    | ComposeFailed(c: CallId)
    | BuildDone(c: CallId, inputs: Inputs)
    | Publish(c: CallId)
    | Discard(c: CallId)
    | BindDone(c: CallId)
    | BindFailed(c: CallId)
    | Withdraw(c: CallId)
    | CloseRuntime(c: CallId, key: Key)
    | CloseTaken(c: CallId)
    | Close(c: CallId)
    | CloseOne(c: CallId, rt: Rt)
    | Reload(c: CallId, key: Key, opts: Option<string>)
    | ReadRecord(c: CallId)
    | ReloadFailed(c: CallId)
    | Swap(c: CallId, doc: string, externals: string, resolver: string)
    | ReloadBound(c: CallId)
    | ReloadBindFailed(c: CallId)
    | WriteBack(c: CallId)
    | RollBack(c: CallId, swapped: bool)

  function Ends(s: Craft, c: CallId): Craft {
    s.(calls := s.calls - {c})
  }

  function Goes(s: Craft, c: CallId, k: Call): Craft {
    s.(calls := s.calls[c := k])
  }

  function Stops(s: Craft, rt: Rt): Craft {
    if rt < |s.built| then s.(built := s.built[rt := s.built[rt].(open := false)]) else s
  }

  function Serves(s: Craft, rt: Rt, inputs: Inputs): Craft {
    if rt < |s.built| then s.(built := s.built[rt := s.built[rt].(serving := inputs)]) else s
  }

  function DropKey(s: Craft, key: Key): Craft {
    s.(runtimes := s.runtimes - {key}, records := s.records - {key})
  }

  /** The end of a reload: its call is over and the lifecycle lock is free. */
  function Unlocks(s: Craft, c: CallId): Craft {
    Ends(s, c).(lifecycle := None)
  }

  predicate Holds(s: Craft, key: Key, rt: Rt) {
    key in s.runtimes && s.runtimes[key] == rt
  }

  function DoOpen(s: Craft, c: CallId, key: Key): Option<Craft> {
    if c !in s.calls && !s.closed && s.started && key !in s.runtimes && key !in s.opening
    then Some(Goes(s.(opening := s.opening + {key}), c, Composing(key)))
    else None
  }

  function DoBuilt(s: Craft, c: CallId, inputs: Inputs): Option<Craft> {
    if c in s.calls && s.calls[c].Composing? then
      var key := s.calls[c].key;
      Some(Goes(s.(built := s.built + [Built(key, true, inputs, false)]), c, Publishing(key, |s.built|)))
    else None
  }

  /** The runtime and its record enter the table together. */
  function Tabled(s: Craft, key: Key, rt: Rt): Craft
    requires rt < |s.built|
  {
    s.(runtimes := s.runtimes[key := rt], records := s.records[key := Record(s.built[rt].serving, rt)],
       built := s.built[rt := s.built[rt].(published := true)])
  }

  function DoPublish(s: Craft, c: CallId): Option<Craft> {
    if c in s.calls && s.calls[c].Publishing? && s.calls[c].rt < |s.built| then
      var key, rt := s.calls[c].key, s.calls[c].rt;
      var s1 := s.(opening := s.opening - {key});
      if s.closed then Some(Goes(s1, c, Discarding(rt)))
      else Some(Goes(Tabled(s1, key, rt), c, Binding(key, rt)))
    else None
  }

  /** A failed bind takes the key away only while it is still this call's runtime. */
  function DoWithdraw(s: Craft, c: CallId): Option<Craft> {
    if c in s.calls && s.calls[c].Withdrawing? then
      var key, rt := s.calls[c].key, s.calls[c].rt;
      Some(Ends(if Holds(s, key, rt) then DropKey(s, key) else s, c))
    else None
  }

  function DoOpening(s: Craft, a: Action): Option<Craft> {
    match a
    case Start => if s.closed then None else Some(s.(started := true))
    case Open(c, key) => DoOpen(s, c, key)
    case ComposeFailed(c) =>
      if c in s.calls && s.calls[c].Composing? then Some(Ends(s.(opening := s.opening - {s.calls[c].key}), c)) else None
    case BuildDone(c, inputs) => DoBuilt(s, c, inputs)
    case Publish(c) => DoPublish(s, c)
    case Discard(c) => if c in s.calls && s.calls[c].Discarding? then Some(Ends(Stops(s, s.calls[c].rt), c)) else None
    case BindDone(c) => if c in s.calls && s.calls[c].Binding? then Some(Ends(s, c)) else None
    case BindFailed(c) =>
      if c in s.calls && s.calls[c].Binding?
      then Some(Goes(Stops(s, s.calls[c].rt), c, Withdrawing(s.calls[c].key, s.calls[c].rt)))
      else None
    case Withdraw(c) => DoWithdraw(s, c)
    case _ => None
  }

  function DoClosing(s: Craft, a: Action): Option<Craft> {
    match a
    case CloseRuntime(c, key) =>
      if c !in s.calls && key in s.runtimes then Some(Goes(DropKey(s, key), c, Draining(s.runtimes[key]))) else None
    case CloseTaken(c) => if c in s.calls && s.calls[c].Draining? then Some(Ends(Stops(s, s.calls[c].rt), c)) else None
    case Close(c) =>
      if c !in s.calls && !s.closed
      then Some(Goes(s.(closed := true, started := false, runtimes := map[], records := map[]), c, ClosingAll(s.runtimes.Values)))
      else None
    case CloseOne(c, rt) =>
      if c in s.calls && s.calls[c].ClosingAll? && rt in s.calls[c].left
      then Some(Goes(Stops(s, rt), c, ClosingAll(s.calls[c].left - {rt})))
      else None
    case _ => None
  }

  function DoReadRecord(s: Craft, c: CallId): Option<Craft> {
    if c in s.calls && s.calls[c].Locked? then
      var key := s.calls[c].key;
      if s.closed || key !in s.runtimes || key !in s.records then Some(Unlocks(s, c))
      else
        var record := s.records[key];
        var opts := if s.calls[c].opts.Some? then s.calls[c].opts.value else record.inputs.options;
        Some(Goes(s, c, Reloading(key, s.runtimes[key], record, opts)))
    else None
  }

  /** The record is written only while the runtime is still the one this reload was for. */
  function DoWriteBack(s: Craft, c: CallId): Option<Craft> {
    if c in s.calls && s.calls[c].Bound? then
      var key, rt := s.calls[c].key, s.calls[c].rt;
      if !s.closed && Holds(s, key, rt)
      then Some(Unlocks(s.(records := s.records[key := Record(s.calls[c].next, rt)], adrift := s.adrift - {rt}), c))
      else Some(Unlocks(s, c))
    else None
  }

  function DoRollBack(s: Craft, c: CallId, swapped: bool): Option<Craft> {
    if c in s.calls && s.calls[c].RollingBack? then
      var rt := s.calls[c].rt;
      if swapped then Some(Unlocks(Serves(s, rt, s.calls[c].record.inputs).(adrift := s.adrift - {rt}), c))
      else Some(Unlocks(s.(adrift := s.adrift + {rt}), c))
    else None
  }

  /** A reload before it swaps may fail at composing, at its options or at the swap itself, which is all or nothing. */
  function DoReloading(s: Craft, a: Action): Option<Craft> {
    match a
    case Reload(c, key, opts) =>
      if c !in s.calls && s.lifecycle.None? then Some(Goes(s, c, Locked(key, opts)).(lifecycle := Some(c))) else None
    case ReadRecord(c) => DoReadRecord(s, c)
    case ReloadFailed(c) => if c in s.calls && s.calls[c].Reloading? then Some(Unlocks(s, c)) else None
    case Swap(c, doc, externals, resolver) =>
      if c in s.calls && s.calls[c].Reloading? then
        var k := s.calls[c];
        var next := Inputs(doc, k.options, externals, resolver);
        Some(Goes(Serves(s, k.rt, next), c, Swapped(k.key, k.rt, k.record, next)))
      else None
    case ReloadBound(c) =>
      if c in s.calls && s.calls[c].Swapped?
      then Some(Goes(s, c, Bound(s.calls[c].key, s.calls[c].rt, s.calls[c].record, s.calls[c].next)))
      else None
    case ReloadBindFailed(c) =>
      if c in s.calls && s.calls[c].Swapped?
      then Some(Goes(s, c, RollingBack(s.calls[c].key, s.calls[c].rt, s.calls[c].record)))
      else None
    case WriteBack(c) => DoWriteBack(s, c)
    case RollBack(c, swapped) => DoRollBack(s, c, swapped)
    case _ => None
  }

  function Do(s: Craft, a: Action): Option<Craft> {
    match a
    case Start => DoOpening(s, a)
    case Open(_, _) => DoOpening(s, a)
    case ComposeFailed(_) => DoOpening(s, a)
    case BuildDone(_, _) => DoOpening(s, a)
    case Publish(_) => DoOpening(s, a)
    case Discard(_) => DoOpening(s, a)
    case BindDone(_) => DoOpening(s, a)
    case BindFailed(_) => DoOpening(s, a)
    case Withdraw(_) => DoOpening(s, a)
    case CloseRuntime(_, _) => DoClosing(s, a)
    case CloseTaken(_) => DoClosing(s, a)
    case Close(_) => DoClosing(s, a)
    case CloseOne(_, _) => DoClosing(s, a)
    case _ => DoReloading(s, a)
  }

  function Run(s: Craft, actions: seq<Action>): Option<Craft> {
    if actions == [] then Some(s)
    else
      var before := Run(s, actions[..|actions| - 1]);
      if before.None? then None else Do(before.value, actions[|actions| - 1])
  }

  // ------------------------------------------------------------ invariant

  predicate IsOpening(k: Call) {
    k.Composing? || k.Publishing?
  }

  predicate IsReload(k: Call) {
    k.Locked? || k.Reloading? || Unsettled(k)
  }

  /** A reload that has changed what its runtime serves and not settled it yet. */
  predicate Unsettled(k: Call) {
    k.Swapped? || k.Bound? || k.RollingBack?
  }

  /** A table entry: its record is for the runtime beside it, which was built for this key. */
  ghost predicate EntryOk(s: Craft, key: Key) {
    && key in s.records && key in s.runtimes && s.records[key].owner == s.runtimes[key]
    && s.runtimes[key] < |s.built| && s.built[s.runtimes[key]].key == key && s.built[s.runtimes[key]].published
  }

  /** Runtimes and records have the same keys and belong together; a closed craft has none. */
  ghost predicate TablesOk(s: Craft) {
    && s.runtimes.Keys == s.records.Keys
    && (forall key :: key in s.runtimes ==> EntryOk(s, key))
    && (s.closed ==> s.runtimes == map[])
  }

  ghost predicate Opener(s: Craft, c: CallId, key: Key) {
    c in s.calls && IsOpening(s.calls[c]) && s.calls[c].key == key
  }

  /** Opening keys are in neither table, and each belongs to exactly one call. */
  ghost predicate OpeningOk(s: Craft) {
    && s.opening !! s.runtimes.Keys
    && (forall key :: key in s.opening ==> exists c :: Opener(s, c, key))
    && (forall c, key :: Opener(s, c, key) ==> key in s.opening)
    && (forall c, d, key :: Opener(s, c, key) && Opener(s, d, key) ==> c == d)
  }

  /** A call that will close the runtime, or publish it or close it. */
  ghost predicate Holder(s: Craft, c: CallId, rt: Rt) {
    c in s.calls && match s.calls[c]
      case Publishing(_, r) => r == rt
      case Discarding(r) => r == rt
      case Draining(r) => r == rt
      case ClosingAll(left) => rt in left
      case _ => false
  }

  ghost predicate Accounted(s: Craft, rt: Rt)
    requires rt < |s.built|
  {
    || Holds(s, s.built[rt].key, rt)
    || exists c :: Holder(s, c, rt)
  }

  ghost predicate NoneLost(s: Craft) {
    forall rt :: 0 <= rt < |s.built| && s.built[rt].open ==> Accounted(s, rt)
  }

  /** What a call remembers about its runtime. */
  ghost predicate CallOk(s: Craft, k: Call) {
    match k
    case Publishing(key, rt) => rt < |s.built| && s.built[rt].key == key && !s.built[rt].published
    case Withdrawing(key, rt) => rt < |s.built| && s.built[rt].key == key && !s.built[rt].open
    case Binding(key, rt) => rt < |s.built| && s.built[rt].key == key
    case Reloading(key, rt, record, _) => Remembers(s, key, rt, record)
    case Swapped(key, rt, record, next) => Remembers(s, key, rt, record) && s.built[rt].serving == next
    case Bound(key, rt, record, next) => Remembers(s, key, rt, record) && s.built[rt].serving == next
    case RollingBack(key, rt, record) => Remembers(s, key, rt, record)
    case _ => true
  }

  /** The record a reload read is still the key's as long as the key is still that runtime's. */
  ghost predicate Remembers(s: Craft, key: Key, rt: Rt, record: Record) {
    rt < |s.built| && s.built[rt].key == key && s.built[rt].published && (Holds(s, key, rt) ==> key in s.records && s.records[key] == record)
  }

  ghost predicate CallsOk(s: Craft) {
    && (forall c :: c in s.calls ==> CallOk(s, s.calls[c]))
    && (forall c :: c in s.calls && IsReload(s.calls[c]) ==> s.lifecycle == Some(c))
  }

  /** Some reload is between its swap and its end. */
  ghost predicate InReload(s: Craft, rt: Rt) {
    s.lifecycle.Some? && s.lifecycle.value in s.calls && Unsettled(s.calls[s.lifecycle.value]) && s.calls[s.lifecycle.value].rt == rt
  }

  ghost predicate ServesRecord(s: Craft, key: Key) {
    key in s.records && key in s.runtimes && s.runtimes[key] < |s.built| && s.built[s.runtimes[key]].serving == s.records[key].inputs
  }

  /** A runtime in the table serves what its record says, unless a reload of it is under way or could not be rolled back. */
  ghost predicate ServesOk(s: Craft) {
    && (forall rt :: rt in s.adrift ==> rt < |s.built| && s.built[rt].published)
    && (forall key :: key in s.runtimes && s.runtimes[key] !in s.adrift && !InReload(s, s.runtimes[key]) ==> ServesRecord(s, key))
  }

  ghost predicate Inv(s: Craft) {
    TablesOk(s) && OpeningOk(s) && NoneLost(s) && CallsOk(s) && ServesOk(s)
  }

  // --------------------------------------------------------------- frames

  /** Runtimes keep their key, stay published once they are, and never start again. */
  ghost predicate Grown(s: Craft, s': Craft) {
    && |s.built| <= |s'.built|
    && forall rt :: 0 <= rt < |s.built| ==>
      s'.built[rt].key == s.built[rt].key && (s.built[rt].published ==> s'.built[rt].published) && (s'.built[rt].open ==> s.built[rt].open)
  }

  ghost predicate SameEntry(s: Craft, s': Craft, key: Key) {
    && key in s.runtimes && key in s'.runtimes && s.runtimes[key] == s'.runtimes[key]
    && key in s.records && key in s'.records && s.records[key] == s'.records[key]
  }

  /** Every table entry is an old one, or a runtime that was never in the table. */
  ghost predicate TablesFrom(s: Craft, s': Craft) {
    forall key :: key in s'.runtimes ==>
      SameEntry(s, s', key) || (s'.runtimes[key] < |s.built| && !s.built[s'.runtimes[key]].published)
  }

  /** What opening and closing steps leave alone: reloads, what runtimes serve, and which are adrift. */
  ghost predicate NoReload(s: Craft, c: CallId, s': Craft) {
    && s'.lifecycle == s.lifecycle && s'.adrift == s.adrift
    && (forall rt :: 0 <= rt < |s.built| ==> rt < |s'.built| && s'.built[rt].serving == s.built[rt].serving)
    && (forall d :: d != c ==> (d in s'.calls <==> d in s.calls))
    && (forall d :: d != c && d in s.calls ==> s'.calls[d] == s.calls[d])
    && (c in s.calls ==> !IsReload(s.calls[c])) && (c in s'.calls ==> !IsReload(s'.calls[c]))
  }

  lemma CallStays(s: Craft, s': Craft, k: Call)
    requires CallOk(s, k) && Grown(s, s') && TablesFrom(s, s')
    requires k.Publishing? ==> s'.built[k.rt].published == s.built[k.rt].published
    requires k.Swapped? || k.Bound? ==> s'.built[k.rt].serving == s.built[k.rt].serving
    ensures CallOk(s', k)
  {
  }

  lemma SameReloads(s: Craft, c: CallId, s': Craft, rt: Rt)
    requires NoReload(s, c, s')
    ensures InReload(s, rt) <==> InReload(s', rt)
  {
    if s.lifecycle.Some? {
      var d := s.lifecycle.value;
      if d == c {
        if c in s.calls { NotReloadIsSettled(s.calls[c]); }
        if c in s'.calls { NotReloadIsSettled(s'.calls[c]); }
      } else if d in s.calls {
        assert s'.calls[d] == s.calls[d];
      }
    }
  }

  lemma NotReloadIsSettled(k: Call)
    requires !IsReload(k)
    ensures !Unsettled(k)
  {
  }

  lemma ServingStays(s: Craft, c: CallId, s': Craft)
    requires ServesOk(s) && NoReload(s, c, s') && Grown(s, s')
    requires forall key :: key in s'.runtimes && !SameEntry(s, s', key) ==> ServesRecord(s', key)
    ensures ServesOk(s')
  {
    forall key | key in s'.runtimes && s'.runtimes[key] !in s'.adrift && !InReload(s', s'.runtimes[key])
      ensures ServesRecord(s', key)
    {
      if SameEntry(s, s', key) {
        SameReloads(s, c, s', s'.runtimes[key]);
        assert ServesRecord(s, key);
      }
    }
  }

  lemma CallsStay(s: Craft, c: CallId, s': Craft)
    requires CallsOk(s) && NoReload(s, c, s') && Grown(s, s') && TablesFrom(s, s')
    requires c in s'.calls ==> CallOk(s', s'.calls[c])
    requires forall d :: d in s.calls && d != c && s.calls[d].Publishing? && s.calls[d].rt < |s.built| ==>
      s'.built[s.calls[d].rt].published == s.built[s.calls[d].rt].published
    ensures CallsOk(s')
  {
    hide TablesFrom, Grown;
    forall d | d in s'.calls && d != c
      ensures CallOk(s', s'.calls[d])
    {
      assert CallOk(s, s.calls[d]);
      CallStays(s, s', s.calls[d]);
    }
    hide CallOk;
  }

  lemma TablesStay(s: Craft, s': Craft)
    requires TablesOk(s) && Grown(s, s') && s'.runtimes.Keys == s'.records.Keys
    requires forall key :: key in s'.runtimes ==> SameEntry(s, s', key) || EntryOk(s', key)
    requires s'.closed ==> s'.runtimes == map[]
    ensures TablesOk(s')
  {
    forall key | key in s'.runtimes
      ensures EntryOk(s', key)
    {
      if SameEntry(s, s', key) {
        assert EntryOk(s, key);
      }
    }
  }

  /** Openers are the same calls for the same keys. */
  lemma OpenersStay(s: Craft, s': Craft)
    requires OpeningOk(s) && s'.opening == s.opening && s'.runtimes.Keys <= s.runtimes.Keys
    requires forall c, key :: Opener(s, c, key) <==> Opener(s', c, key)
    ensures OpeningOk(s')
  {
    forall key | key in s'.opening
      ensures exists c :: Opener(s', c, key)
    {
      var c :| Opener(s, c, key);
      assert Opener(s', c, key);
    }
    hide Opener;
  }

  /** Every runtime that still runs is in the table or held, if each that leaves the table or its holder is. */
  lemma HoldersStay(s: Craft, s': Craft)
    requires NoneLost(s) && Grown(s, s') && |s'.built| == |s.built|
    requires forall rt :: 0 <= rt < |s.built| && s'.built[rt].open && Holds(s, s.built[rt].key, rt) ==> Accounted(s', rt)
    requires forall c, rt :: 0 <= rt < |s.built| && s'.built[rt].open && Holder(s, c, rt) ==> Accounted(s', rt)
    ensures NoneLost(s')
  {
    hide Holder, Holds;
    forall rt | 0 <= rt < |s'.built| && s'.built[rt].open
      ensures Accounted(s', rt)
    {
      assert Accounted(s, rt);
    }
  }

  /** A step that only moves call c, keeps the tables, and changes neither its opening key nor its hold on a runtime. */
  ghost predicate Steady(s: Craft, c: CallId, s': Craft) {
    && NoReload(s, c, s') && Grown(s, s') && |s'.built| == |s.built|
    && s'.runtimes == s.runtimes && s'.records == s.records && s'.closed == s.closed && s'.opening == s.opening
    && (forall rt :: 0 <= rt < |s.built| ==> s'.built[rt].published == s.built[rt].published)
    && (forall key :: Opener(s, c, key) <==> Opener(s', c, key))
    && (forall rt :: 0 <= rt < |s.built| && s'.built[rt].open && Holder(s, c, rt) ==> Holder(s', c, rt))
  }

  lemma SteadyKeepsInv(s: Craft, c: CallId, s': Craft)
    requires Inv(s) && Steady(s, c, s') && (c in s'.calls ==> CallOk(s', s'.calls[c]))
    ensures Inv(s')
  {
    assert forall key :: key in s'.runtimes ==> SameEntry(s, s', key) by { assert forall key :: key in s.runtimes ==> EntryOk(s, key); }
    TablesStay(s, s');
    hide EntryOk, SameEntry;
    forall d, key ensures Opener(s, d, key) <==> Opener(s', d, key) { }
    OpenersStay(s, s');
    CallsStay(s, c, s');
    ServingStays(s, c, s');
    hide Opener, ServesOk, CallsOk, TablesOk, OpeningOk;
    SteadyHolders(s, c, s');
  }

  lemma SteadyHolders(s: Craft, c: CallId, s': Craft)
    requires NoneLost(s) && Steady(s, c, s')
    ensures NoneLost(s')
  {
    forall d, rt | 0 <= rt < |s.built| && s'.built[rt].open && Holder(s, d, rt)
      ensures Accounted(s', rt)
    {
      assert Holder(s', d, rt);
    }
    HoldersStay(s, s');
  }

  // ---------------------------------------------------- opening and closing

  lemma StopIsSteady(s: Craft, c: CallId, rt: Rt, next: Option<Call>, s': Craft)
    requires c in s.calls && !IsReload(s.calls[c]) && !IsOpening(s.calls[c])
    requires s' == if next.None? then Ends(Stops(s, rt), c) else Goes(Stops(s, rt), c, next.value)
    requires next.Some? ==> !IsReload(next.value) && !IsOpening(next.value)
    requires forall r :: Holder(s, c, r) && r != rt ==> Holder(s', c, r)
    ensures Steady(s, c, s')
  {
    hide Holder, IsReload, IsOpening, Stops;
    StopChangesOne(s, rt);
    var s1 := Stops(s, rt);
    assert s'.built == s1.built;
    assert NoReload(s, c, s');
    hide NoReload, Grown;
  }

  lemma StopChangesOne(s: Craft, rt: Rt)
    ensures var s' := Stops(s, rt);
            && s' == s.(built := s'.built) && Grown(s, s') && |s'.built| == |s.built|
            && (forall r :: 0 <= r < |s.built| ==> s'.built[r].serving == s.built[r].serving && s'.built[r].published == s.built[r].published)
            && (rt < |s.built| ==> !s'.built[rt].open)
  {
  }

  lemma SteadyStepKeepsInv(s: Craft, a: Action, s': Craft)
    requires Inv(s) && Do(s, a) == Some(s')
    requires a.BindDone? || a.BindFailed? || a.Discard? || a.CloseTaken? || a.CloseOne?
    ensures Inv(s')
  {
    hide Inv, Steady;
    CallIs(s, a.c);
    match a {
      case BindDone(c) => BindDoneIsSteady(s, c, s');
      case BindFailed(c) => StopIsSteady(s, c, s.calls[c].rt, Some(Withdrawing(s.calls[c].key, s.calls[c].rt)), s');
      case Discard(c) => StopIsSteady(s, c, s.calls[c].rt, None, s');
      case CloseTaken(c) => StopIsSteady(s, c, s.calls[c].rt, None, s');
      case CloseOne(c, rt) => StopIsSteady(s, c, rt, Some(ClosingAll(s.calls[c].left - {rt})), s');
    }
    SteadyKeepsInv(s, a.c, s');
  }

  lemma CallIs(s: Craft, c: CallId)
    requires Inv(s) && c in s.calls
    ensures CallOk(s, s.calls[c])
  {
    hide TablesOk, OpeningOk, NoneLost, ServesOk, CallOk;
  }

  lemma BindDoneIsSteady(s: Craft, c: CallId, s': Craft)
    requires c in s.calls && s.calls[c].Binding? && s' == Ends(s, c)
    ensures Steady(s, c, s')
  {
  }

  lemma SameEntries(s: Craft, s': Craft)
    requires TablesOk(s) && s'.runtimes == s.runtimes && s'.records == s.records
    ensures TablesFrom(s, s') && forall key :: key in s'.runtimes ==> SameEntry(s, s', key)
  {
    assert forall key :: key in s.runtimes ==> EntryOk(s, key);
  }

  lemma OpenKeepsInv(s: Craft, c: CallId, key: Key, s': Craft)
    requires Inv(s) && DoOpen(s, c, key) == Some(s')
    ensures Inv(s')
  {
    SameEntries(s, s');
    TablesStay(s, s');
    CallsStay(s, c, s');
    ServingStays(s, c, s');
    hide TablesOk, CallsOk, ServesOk, TablesFrom;
    OpenKeepsOpeners(s, c, key, s');
    forall d, rt | 0 <= rt < |s.built| && Holder(s, d, rt) ensures Accounted(s', rt) { assert Holder(s', d, rt); }
    HoldersStay(s, s');
  }

  lemma OpenKeepsOpeners(s: Craft, c: CallId, key: Key, s': Craft)
    requires OpeningOk(s) && DoOpen(s, c, key) == Some(s')
    ensures OpeningOk(s')
  {
    forall d, k ensures Opener(s', d, k) <==> Opener(s, d, k) || (d == c && k == key) { }
    hide Opener;
    forall k | k in s'.opening
      ensures exists d :: Opener(s', d, k)
    {
      if k != key {
        var d :| Opener(s, d, k);
        assert Opener(s', d, k);
      } else {
        assert Opener(s', c, key);
      }
    }
  }

  /** The opening of a key ends. */
  lemma OpenersEnd(s: Craft, c: CallId, s': Craft)
    requires OpeningOk(s) && c in s.calls && IsOpening(s.calls[c]) && s'.opening == s.opening - {s.calls[c].key}
    requires s'.runtimes.Keys <= s.runtimes.Keys + {s.calls[c].key}
    requires forall d, k :: Opener(s', d, k) <==> Opener(s, d, k) && d != c
    ensures OpeningOk(s')
  {
    assert Opener(s, c, s.calls[c].key);
    forall k | k in s'.opening
      ensures exists d :: Opener(s', d, k)
    {
      var d :| Opener(s, d, k);
      assert d != c by { if d == c { OpenerKey(s, c, k); } }
      assert Opener(s', d, k);
    }
    hide Opener;
  }

  lemma OpenerKey(s: Craft, c: CallId, k: Key)
    requires Opener(s, c, k)
    ensures k == s.calls[c].key
  {
  }

  lemma ComposeFailedKeepsInv(s: Craft, c: CallId, s': Craft)
    requires Inv(s) && DoOpening(s, ComposeFailed(c)) == Some(s')
    ensures Inv(s')
  {
    SameEntries(s, s');
    TablesStay(s, s');
    CallsStay(s, c, s');
    ServingStays(s, c, s');
    hide TablesOk, CallsOk, ServesOk, TablesFrom;
    OpenersEnd(s, c, s');
    forall d, rt | 0 <= rt < |s.built| && Holder(s, d, rt) ensures Accounted(s', rt) { assert Holder(s', d, rt); }
    HoldersStay(s, s');
  }

  lemma BuildKeepsInv(s: Craft, c: CallId, inputs: Inputs, s': Craft)
    requires Inv(s) && DoBuilt(s, c, inputs) == Some(s')
    ensures Inv(s')
  {
    assert forall rt :: 0 <= rt < |s.built| ==> s'.built[rt] == s.built[rt];
    SameEntries(s, s');
    TablesStay(s, s');
    CallsStay(s, c, s');
    ServingStays(s, c, s');
    hide TablesOk, CallsOk, ServesOk, TablesFrom;
    OpenersStay(s, s');
    hide OpeningOk;
    BuildKeepsHolders(s, c, inputs, s');
  }

  lemma BuildKeepsHolders(s: Craft, c: CallId, inputs: Inputs, s': Craft)
    requires NoneLost(s) && DoBuilt(s, c, inputs) == Some(s')
    ensures NoneLost(s')
  {
    forall rt | 0 <= rt < |s'.built| && s'.built[rt].open
      ensures Accounted(s', rt)
    {
      if rt < |s.built| {
        assert Accounted(s, rt);
        if !Holds(s, s.built[rt].key, rt) {
          var d :| Holder(s, d, rt);
          assert Holder(s', d, rt);
        }
      } else {
        assert Holder(s', c, rt);
      }
    }
  }

  /** A published runtime leaves its call's hands for the table, its key free until then. */
  lemma PublishKeepsInv(s: Craft, c: CallId, s': Craft)
    requires Inv(s) && DoPublish(s, c) == Some(s')
    ensures Inv(s')
  {
    CallIs(s, c);
    var key, rt := s.calls[c].key, s.calls[c].rt;
    assert Opener(s, c, key);
    hide ServesRecord;
    PublishKeepsTables(s, c, s');
    PublishKeepsCalls(s, c, s');
    hide TablesOk, CallsOk, ServesOk, CallOk;
    OpenersEnd(s, c, s');
    PublishKeepsHolders(s, c, s');
  }

  lemma PublishGrows(s: Craft, c: CallId, s': Craft)
    requires DoPublish(s, c) == Some(s')
    ensures Grown(s, s') && NoReload(s, c, s')
  {
  }

  lemma TabledEntries(s: Craft, key: Key, rt: Rt, s': Craft)
    requires TablesOk(s) && rt < |s.built| && s.built[rt].key == key && !s.built[rt].published
    requires s'.runtimes == s.runtimes[key := rt] && s'.records == s.records[key := Record(s.built[rt].serving, rt)]
    requires s'.built == s.built[rt := s.built[rt].(published := true)]
    ensures TablesFrom(s, s') && s'.runtimes.Keys == s'.records.Keys
    ensures forall k :: k in s'.runtimes && !SameEntry(s, s', k) ==> EntryOk(s', k) && ServesRecord(s', k)
  {
    assert forall k :: k in s.runtimes ==> EntryOk(s, k);
    assert forall k :: k in s'.runtimes && k != key ==> SameEntry(s, s', k);
    assert EntryOk(s', key) && ServesRecord(s', key);
  }

  lemma PublishFrame(s: Craft, c: CallId, s': Craft)
    requires TablesOk(s) && DoPublish(s, c) == Some(s') && CallOk(s, s.calls[c])
    ensures TablesFrom(s, s') && Grown(s, s') && NoReload(s, c, s')
    ensures s'.runtimes.Keys == s'.records.Keys && (s'.closed ==> s'.runtimes == map[])
    ensures forall k :: k in s'.runtimes && !SameEntry(s, s', k) ==> EntryOk(s', k) && ServesRecord(s', k)
  {
    hide Grown, NoReload, TablesFrom, SameEntry, EntryOk, ServesRecord;
    PublishGrows(s, c, s');
    if s.closed {
      SameEntries(s, s');
    } else {
      TabledEntries(s, s.calls[c].key, s.calls[c].rt, s');
    }
  }

  lemma PublishKeepsTables(s: Craft, c: CallId, s': Craft)
    requires TablesOk(s) && ServesOk(s) && CallsOk(s) && DoPublish(s, c) == Some(s')
    ensures TablesOk(s') && ServesOk(s') && TablesFrom(s, s') && Grown(s, s') && NoReload(s, c, s')
  {
    assert CallOk(s, s.calls[c]);
    hide TablesOk, ServesOk, CallsOk, CallOk, EntryOk, SameEntry, ServesRecord, TablesFrom, NoReload;
    PublishFrame(s, c, s');
    TablesStay(s, s');
    ServingStays(s, c, s');
  }

  lemma PublishKeepsCalls(s: Craft, c: CallId, s': Craft)
    requires CallsOk(s) && OpeningOk(s) && DoPublish(s, c) == Some(s') && TablesFrom(s, s') && Grown(s, s') && NoReload(s, c, s')
    ensures CallsOk(s')
  {
    var key, rt := s.calls[c].key, s.calls[c].rt;
    assert CallOk(s, s.calls[c]);
    forall d | d in s.calls && d != c && s.calls[d].Publishing? && s.calls[d].rt < |s.built|
      ensures s'.built[s.calls[d].rt].published == s.built[s.calls[d].rt].published
    {
      assert CallOk(s, s.calls[d]);
      assert Opener(s, c, key) && Opener(s, d, s.calls[d].key);
    }
    hide TablesFrom, NoReload, OpeningOk;
    CallsStay(s, c, s');
  }

  lemma PublishKeepsHolders(s: Craft, c: CallId, s': Craft)
    requires NoneLost(s) && DoPublish(s, c) == Some(s') && CallOk(s, s.calls[c]) && Grown(s, s') && s.calls[c].key !in s.runtimes
    ensures NoneLost(s')
  {
    var key, rt := s.calls[c].key, s.calls[c].rt;
    forall d, r | 0 <= r < |s.built| && Holder(s, d, r)
      ensures Accounted(s', r)
    {
      if d == c {
        assert s.closed ==> Holder(s', c, r);
      } else {
        assert Holder(s', d, r);
      }
    }
    HoldersStay(s, s');
  }

  // ------------------------------------------------------- keys leaving

  /** Call c takes keys out of the tables; nothing else changes. */
  ghost predicate Takes(s: Craft, c: CallId, s': Craft) {
    && NoReload(s, c, s') && s'.built == s.built && s'.opening == s.opening
    && s'.runtimes.Keys <= s.runtimes.Keys && s'.records.Keys == s'.runtimes.Keys
    && (forall key :: key in s'.runtimes ==> s'.runtimes[key] == s.runtimes[key])
    && (forall key :: key in s'.records ==> key in s.records && s'.records[key] == s.records[key])
    && (s'.closed ==> s'.runtimes == map[])
    && (forall d, key :: Opener(s, d, key) <==> Opener(s', d, key))
  }

  lemma TakesKeepsInv(s: Craft, c: CallId, s': Craft)
    requires Inv(s) && Takes(s, c, s') && NoneLost(s') && (c in s'.calls ==> CallOk(s', s'.calls[c]))
    ensures Inv(s')
  {
    hide NoneLost, Opener, CallOk, NoReload;
    DroppedEntries(s, s');
    hide SameEntry, EntryOk, TablesFrom;
    TablesStay(s, s');
    CallsStay(s, c, s');
    ServingStays(s, c, s');
    OpenersStay(s, s');
  }

  lemma WithdrawTakes(s: Craft, c: CallId, s': Craft)
    requires TablesOk(s) && DoWithdraw(s, c) == Some(s')
    ensures Takes(s, c, s')
  {
    hide EntryOk;
  }

  lemma WithdrawKeepsHolders(s: Craft, c: CallId, s': Craft)
    requires NoneLost(s) && DoWithdraw(s, c) == Some(s') && CallOk(s, s.calls[c])
    ensures NoneLost(s')
  {
    forall d, r | 0 <= r < |s.built| && Holder(s, d, r) ensures Accounted(s', r) { assert Holder(s', d, r); }
    HoldersStay(s, s');
  }

  lemma WithdrawKeepsInv(s: Craft, c: CallId, s': Craft)
    requires Inv(s) && DoWithdraw(s, c) == Some(s')
    ensures Inv(s')
  {
    hide TablesOk, CallsOk, ServesOk, OpeningOk, NoneLost, CallOk, Takes;
    CallIs(s, c);
    WithdrawTakes(s, c, s');
    WithdrawKeepsHolders(s, c, s');
    TakesKeepsInv(s, c, s');
  }

  lemma DroppedEntries(s: Craft, s': Craft)
    requires TablesOk(s) && s'.runtimes.Keys <= s.runtimes.Keys && s'.records.Keys == s'.runtimes.Keys
    requires forall key :: key in s'.runtimes ==> s'.runtimes[key] == s.runtimes[key]
    requires forall key :: key in s'.records ==> key in s.records && s'.records[key] == s.records[key]
    ensures TablesFrom(s, s') && forall key :: key in s'.runtimes ==> SameEntry(s, s', key)
  {
    assert forall key :: key in s.runtimes ==> EntryOk(s, key);
  }

  lemma TakeTakes(s: Craft, a: Action, s': Craft)
    requires TablesOk(s) && Do(s, a) == Some(s') && (a.CloseRuntime? || a.Close?)
    ensures Takes(s, a.c, s') && (a.c in s'.calls ==> CallOk(s', s'.calls[a.c]))
  {
    hide EntryOk;
  }

  lemma TakeKeepsInv(s: Craft, a: Action, s': Craft)
    requires Inv(s) && Do(s, a) == Some(s') && (a.CloseRuntime? || a.Close?)
    ensures Inv(s')
  {
    hide TablesOk, CallsOk, ServesOk, OpeningOk, NoneLost, CallOk, Takes, Do;
    TakeTakes(s, a, s');
    TakeKeepsHolders(s, a, s');
    TakesKeepsInv(s, a.c, s');
  }

  lemma TakeKeepsHolders(s: Craft, a: Action, s': Craft)
    requires TablesOk(s) && NoneLost(s) && Do(s, a) == Some(s') && (a.CloseRuntime? || a.Close?)
    ensures NoneLost(s')
  {
    forall d, r | 0 <= r < |s.built| && Holder(s, d, r) ensures Accounted(s', r) { assert Holder(s', d, r); }
    forall r | 0 <= r < |s.built| && Holds(s, s.built[r].key, r)
      ensures Accounted(s', r)
    {
      if !Holds(s', s.built[r].key, r) {
        assert Holder(s', a.c, r);
      }
    }
    HoldersStay(s, s');
  }

  // -------------------------------------------------------------- reloads

  ghost predicate SameBuilt(s: Craft, s': Craft) {
    && |s'.built| == |s.built|
    && forall rt :: 0 <= rt < |s.built| ==>
      s'.built[rt].key == s.built[rt].key && s'.built[rt].open == s.built[rt].open && s'.built[rt].published == s.built[rt].published
  }

  /** A step of the one reload that holds the lifecycle lock. */
  ghost predicate ReloadStep(s: Craft, c: CallId, s': Craft) {
    && s'.runtimes == s.runtimes && s'.opening == s.opening && s'.closed == s.closed && SameBuilt(s, s')
    && (s.lifecycle == None || s.lifecycle == Some(c)) && s'.lifecycle == (if c in s'.calls then Some(c) else None)
    && (forall d :: d != c ==> (d in s'.calls <==> d in s.calls))
    && (forall d :: d != c && d in s.calls ==> s'.calls[d] == s.calls[d])
    && (c in s.calls ==> IsReload(s.calls[c])) && (c in s'.calls ==> IsReload(s'.calls[c]))
  }

  lemma ServeChangesOne(s: Craft, rt: Rt, inputs: Inputs)
    ensures var s' := Serves(s, rt, inputs);
            && s' == s.(built := s'.built) && SameBuilt(s, s')
            && (forall r :: 0 <= r < |s.built| && r != rt ==> s'.built[r] == s.built[r])
            && (rt < |s.built| ==> s'.built[rt].serving == inputs)
  {
  }

  lemma ReloadGoesOn(s: Craft, c: CallId, s1: Craft, next: Call, s': Craft)
    requires s1 == s.(built := s1.built) && SameBuilt(s, s1) && s' == Goes(s1, c, next)
    requires c in s.calls && s.lifecycle == Some(c) && IsReload(s.calls[c]) && IsReload(next)
    ensures ReloadStep(s, c, s')
  {
    hide SameBuilt, IsReload;
    assert SameBuilt(s, s') by { BuiltSame(s, s1, s'); }
  }

  lemma ReloadEnds(s: Craft, c: CallId, s1: Craft, s': Craft)
    requires s1 == s.(built := s1.built, records := s1.records, adrift := s1.adrift) && SameBuilt(s, s1) && s' == Unlocks(s1, c)
    requires c in s.calls && s.lifecycle == Some(c) && IsReload(s.calls[c])
    ensures ReloadStep(s, c, s')
  {
    hide SameBuilt, IsReload;
    assert SameBuilt(s, s') by { BuiltSame(s, s1, s'); }
  }

  lemma BuiltSame(s: Craft, s1: Craft, s': Craft)
    requires SameBuilt(s, s1) && s'.built == s1.built
    ensures SameBuilt(s, s')
  {
  }

  lemma ReloadIsReloadStep(s: Craft, a: Action, s': Craft)
    requires CallsOk(s) && DoReloading(s, a) == Some(s')
    ensures ReloadStep(s, a.c, s')
    ensures a.WriteBack? || s'.records == s.records
    ensures a.Swap? || a.RollBack? || s'.built == s.built
    ensures a.WriteBack? || a.RollBack? || s'.adrift == s.adrift
  {
    hide CallOk, Serves, ReloadStep, SameBuilt;
    var c := a.c;
    BuiltSelf(s);
    if a.Reload? {
      ReloadBegins(s, c, a.key, a.opts, s');
    } else {
      assert s.lifecycle == Some(c);
      ReloadMoves(s, a, s');
    }
  }

  lemma BuiltSelf(s: Craft)
    ensures SameBuilt(s, s)
  {
  }

  lemma ReloadBegins(s: Craft, c: CallId, key: Key, opts: Option<string>, s': Craft)
    requires DoReloading(s, Reload(c, key, opts)) == Some(s')
    ensures ReloadStep(s, c, s') && s'.records == s.records && s'.built == s.built && s'.adrift == s.adrift
  {
  }

  lemma ReloadMoves(s: Craft, a: Action, s': Craft)
    requires !a.Reload? && DoReloading(s, a) == Some(s') && s.lifecycle == Some(a.c)
    ensures ReloadStep(s, a.c, s')
    ensures a.WriteBack? || s'.records == s.records
    ensures a.Swap? || a.RollBack? || s'.built == s.built
    ensures a.WriteBack? || a.RollBack? || s'.adrift == s.adrift
  {
    hide Serves, ReloadStep, SameBuilt;
    var c := a.c;
    BuiltSelf(s);
    match a
    case ReadRecord(_) => if c in s'.calls { ReloadGoesOn(s, c, s, s'.calls[c], s'); } else { ReloadEnds(s, c, s, s'); }
    case ReloadFailed(_) => ReloadEnds(s, c, s, s');
    case Swap(_, doc, externals, resolver) =>
      var k := s.calls[c];
      var next := Inputs(doc, k.options, externals, resolver);
      ServeChangesOne(s, k.rt, next);
      ReloadGoesOn(s, c, Serves(s, k.rt, next), s'.calls[c], s');
    case ReloadBound(_) => ReloadGoesOn(s, c, s, s'.calls[c], s');
    case ReloadBindFailed(_) => ReloadGoesOn(s, c, s, s'.calls[c], s');
    case WriteBack(_) => WriteBackEnds(s, c, s');
    case RollBack(_, swapped) => RollBackEnds(s, c, swapped, s');
  }

  lemma WriteBackEnds(s: Craft, c: CallId, s': Craft)
    requires DoWriteBack(s, c) == Some(s') && s.lifecycle == Some(c)
    ensures ReloadStep(s, c, s') && s'.built == s.built
  {
    hide ReloadStep, SameBuilt;
    var key, rt := s.calls[c].key, s.calls[c].rt;
    BuiltSelf(s);
    var s1 := if !s.closed && Holds(s, key, rt)
              then s.(records := s.records[key := Record(s.calls[c].next, rt)], adrift := s.adrift - {rt}) else s;
    assert SameBuilt(s, s1) by { BuiltSame(s, s, s1); }
    ReloadEnds(s, c, s1, s');
  }

  lemma RollBackEnds(s: Craft, c: CallId, swapped: bool, s': Craft)
    requires DoRollBack(s, c, swapped) == Some(s') && s.lifecycle == Some(c)
    ensures ReloadStep(s, c, s') && s'.records == s.records
  {
    hide ReloadStep, SameBuilt, Serves;
    var rt := s.calls[c].rt;
    BuiltSelf(s);
    ServeChangesOne(s, rt, s.calls[c].record.inputs);
    var s1 := if swapped then Serves(s, rt, s.calls[c].record.inputs).(adrift := s.adrift - {rt}) else s.(adrift := s.adrift + {rt});
    assert SameBuilt(s, s1) by { BuiltSame(s, if swapped then Serves(s, rt, s.calls[c].record.inputs) else s, s1); }
    ReloadEnds(s, c, s1, s');
  }

  lemma ReloadKeepsHolders(s: Craft, c: CallId, s': Craft)
    requires NoneLost(s) && OpeningOk(s) && ReloadStep(s, c, s')
    ensures NoneLost(s') && OpeningOk(s')
  {
    forall d, r | Holder(s, d, r) ensures Holder(s', d, r) { assert d != c; }
    forall d, key ensures Opener(s, d, key) <==> Opener(s', d, key) { }
    hide Opener, Holder;
    OpenersStay(s, s');
    HoldersStay(s, s');
  }

  lemma OtherCallStays(s: Craft, s': Craft, k: Call)
    requires CallOk(s, k) && !IsReload(k) && SameBuilt(s, s')
    ensures CallOk(s', k)
  {
  }

  lemma ReloadKeepsCalls(s: Craft, c: CallId, s': Craft)
    requires CallsOk(s) && ReloadStep(s, c, s') && (c in s'.calls ==> CallOk(s', s'.calls[c]))
    ensures CallsOk(s')
  {
    hide CallOk, SameBuilt;
    forall d | d in s'.calls && d != c
      ensures CallOk(s', s'.calls[d]) && !IsReload(s'.calls[d])
    {
      OtherCallStays(s, s', s.calls[d]);
    }
  }

  /** A reload's own memory stays true: nobody else writes its key's record or changes what its runtime serves. */
  lemma ReloadRemembers(s: Craft, a: Action, s': Craft)
    requires TablesOk(s) && CallsOk(s) && DoReloading(s, a) == Some(s')
    ensures a.c in s'.calls ==> CallOk(s', s'.calls[a.c])
  {
    if a.c in s.calls {
      assert CallOk(s, s.calls[a.c]);
    }
    hide CallsOk;
    if a.ReadRecord? && s.calls[a.c].key in s.runtimes {
      assert EntryOk(s, s.calls[a.c].key);
    }
  }

  lemma ReloadKeepsTables(s: Craft, a: Action, s': Craft)
    requires TablesOk(s) && DoReloading(s, a) == Some(s') && ReloadStep(s, a.c, s') && (a.WriteBack? || s'.records == s.records)
    ensures TablesOk(s')
  {
    forall key | key in s'.runtimes
      ensures EntryOk(s', key) && key in s'.records
    {
      assert EntryOk(s, key);
      if a.WriteBack? { WriteBackWrites(s, a.c, s', key); }
    }
    if a.WriteBack? { assert s'.records.Keys == s.records.Keys by { WriteBackKeys(s, a.c, s'); } }
    hide EntryOk, DoReloading;
  }

  lemma WriteBackKeys(s: Craft, c: CallId, s': Craft)
    requires TablesOk(s) && DoWriteBack(s, c) == Some(s')
    ensures s'.records.Keys == s.records.Keys
  {
    hide EntryOk;
  }

  /** A reload writes its record only beside the runtime it reloaded. */
  lemma WriteBackWrites(s: Craft, c: CallId, s': Craft, key: Key)
    requires DoWriteBack(s, c) == Some(s') && EntryOk(s, key)
    ensures key in s'.records
    ensures s'.records[key] == s.records[key] || (s.runtimes[key] == s.calls[c].rt && s'.records[key] == Record(s.calls[c].next, s.runtimes[key]))
  {
  }

  // ------------------------------------------- what runtimes serve

  /** A runtime is in the table under at most one key. */
  lemma OneKeyPerRuntime(s: Craft, key: Key, rt: Rt)
    requires TablesOk(s) && key in s.runtimes && s.runtimes[key] == rt
    ensures rt < |s.built| && s.built[rt].key == key && EntryOk(s, key)
  {
  }

  /** No reload is unsettled before and after: nothing that is served or recorded changed. */
  lemma QuietReloadServes(s: Craft, c: CallId, s': Craft)
    requires ServesOk(s) && ReloadStep(s, c, s') && s'.built == s.built && s'.records == s.records && s'.adrift == s.adrift
    requires forall rt :: InReload(s, rt) ==> InReload(s', rt)
    ensures ServesOk(s')
  {
    hide InReload;
    forall key | key in s'.runtimes && s'.runtimes[key] !in s'.adrift && !InReload(s', s'.runtimes[key])
      ensures ServesRecord(s', key)
    {
      assert ServesRecord(s, key);
    }
  }

  lemma SwapServes(s: Craft, a: Action, s': Craft)
    requires TablesOk(s) && ServesOk(s) && a.Swap? && DoReloading(s, a) == Some(s') && ReloadStep(s, a.c, s')
    ensures ServesOk(s')
  {
    var k := s.calls[a.c];
    ServeChangesOne(s, k.rt, Inputs(a.doc, k.options, a.externals, a.resolver));
    hide Serves;
    assert forall r :: r != k.rt && InReload(s, r) ==> InReload(s', r);
    assert InReload(s', k.rt);
    forall key | key in s'.runtimes && s'.runtimes[key] !in s'.adrift && !InReload(s', s'.runtimes[key])
      ensures ServesRecord(s', key)
    {
      assert ServesRecord(s, key);
    }
  }

  /** The reload of rt is settled: rt serves its record again if it is in the table and not adrift, all others as before. */
  lemma SettledServes(s: Craft, c: CallId, rt: Rt, s': Craft)
    requires TablesOk(s) && ServesOk(s) && ReloadStep(s, c, s') && c !in s'.calls
    requires forall r :: InReload(s, r) ==> r == rt
    requires forall r :: r in s'.adrift ==> r in s.adrift || (r == rt && rt < |s.built| && s.built[rt].published)
    requires forall r :: r in s.adrift && r != rt ==> r in s'.adrift
    requires forall key :: key in s.runtimes && s.runtimes[key] != rt ==>
      key in s'.records && s'.records[key] == s.records[key] && s'.built[s.runtimes[key]] == s.built[s.runtimes[key]]
    requires forall key :: key in s.runtimes && s.runtimes[key] == rt && rt !in s'.adrift ==> ServesRecord(s', key)
    ensures ServesOk(s')
  {
    forall key | key in s'.runtimes && s'.runtimes[key] !in s'.adrift
      ensures ServesRecord(s', key)
    {
      OneKeyPerRuntime(s, key, s.runtimes[key]);
      if s.runtimes[key] != rt {
        assert ServesRecord(s, key);
      }
    }
  }

  lemma OnlyItsReload(s: Craft, c: CallId)
    requires CallsOk(s) && c in s.calls && Unsettled(s.calls[c])
    ensures forall r :: InReload(s, r) <==> r == s.calls[c].rt
  {
    hide CallOk;
    assert IsReload(s.calls[c]);
  }

  lemma WriteBackEntry(s: Craft, c: CallId, s': Craft, key: Key)
    requires DoWriteBack(s, c) == Some(s') && CallOk(s, s.calls[c]) && EntryOk(s, key) && !s.closed
    ensures s'.built == s.built && s'.runtimes == s.runtimes
    ensures s.runtimes[key] != s.calls[c].rt ==> key in s'.records && s'.records[key] == s.records[key]
    ensures s.runtimes[key] == s.calls[c].rt ==> ServesRecord(s', key)
  {
  }

  lemma WriteBackServes(s: Craft, c: CallId, s': Craft)
    requires TablesOk(s) && ServesOk(s) && CallsOk(s) && DoWriteBack(s, c) == Some(s') && ReloadStep(s, c, s')
    ensures ServesOk(s')
  {
    var rt := s.calls[c].rt;
    OnlyItsReload(s, c);
    assert CallOk(s, s.calls[c]);
    hide CallsOk, InReload, ServesOk, ServesRecord, CallOk, Remembers, SameBuilt;
    forall key | key in s.runtimes
      ensures s.runtimes[key] != rt ==> key in s'.records && s'.records[key] == s.records[key] && s.runtimes[key] < |s.built| && s'.built[s.runtimes[key]] == s.built[s.runtimes[key]]
      ensures s.runtimes[key] == rt ==> ServesRecord(s', key)
    {
      OneKeyPerRuntime(s, key, s.runtimes[key]);
      WriteBackEntry(s, c, s', key);
    }
    SettledServes(s, c, rt, s');
  }

  lemma RollBackServes(s: Craft, c: CallId, swapped: bool, s': Craft)
    requires TablesOk(s) && ServesOk(s) && CallsOk(s) && DoRollBack(s, c, swapped) == Some(s') && ReloadStep(s, c, s')
    ensures ServesOk(s')
  {
    var rt := s.calls[c].rt;
    OnlyItsReload(s, c);
    assert CallOk(s, s.calls[c]);
    hide CallsOk, InReload, Serves;
    ServeChangesOne(s, rt, s.calls[c].record.inputs);
    forall key | key in s.runtimes
      ensures s.runtimes[key] != rt ==> key in s'.records && s'.records[key] == s.records[key] && s.runtimes[key] < |s.built| && s'.built[s.runtimes[key]] == s.built[s.runtimes[key]]
      ensures s.runtimes[key] == rt && swapped ==> ServesRecord(s', key)
    {
      OneKeyPerRuntime(s, key, s.runtimes[key]);
    }
    hide ServesRecord;
    SettledServes(s, c, rt, s');
  }

  lemma ReloadKeepsServing(s: Craft, a: Action, s': Craft)
    requires TablesOk(s) && ServesOk(s) && CallsOk(s) && DoReloading(s, a) == Some(s') && ReloadStep(s, a.c, s')
    requires a.WriteBack? || s'.records == s.records
    requires a.Swap? || a.RollBack? || s'.built == s.built
    requires a.WriteBack? || a.RollBack? || s'.adrift == s.adrift
    ensures ServesOk(s')
  {
    if a.WriteBack? {
      hide TablesOk, ServesOk, CallsOk, ReloadStep, DoWriteBack;
      WriteBackServes(s, a.c, s');
    } else if a.RollBack? {
      hide TablesOk, ServesOk, CallsOk, ReloadStep, DoRollBack;
      RollBackServes(s, a.c, a.swapped, s');
    } else if a.Swap? {
      hide TablesOk, ServesOk, CallsOk, ReloadStep;
      SwapServes(s, a, s');
    } else {
      QuietReload(s, a, s');
      hide TablesOk, ServesOk, CallsOk, ReloadStep;
      QuietReloadServes(s, a.c, s');
    }
  }

  lemma QuietReload(s: Craft, a: Action, s': Craft)
    requires DoReloading(s, a) == Some(s') && ReloadStep(s, a.c, s') && !a.WriteBack? && !a.RollBack? && !a.Swap?
    ensures forall rt :: InReload(s, rt) ==> InReload(s', rt)
  {
    hide SameBuilt;
  }

  lemma ReloadingKeepsInv(s: Craft, a: Action, s': Craft)
    requires Inv(s) && DoReloading(s, a) == Some(s')
    ensures Inv(s')
  {
    var c := a.c;
    hide TablesOk, OpeningOk, NoneLost, CallsOk, ServesOk, DoReloading, ReloadStep, CallOk;
    ReloadIsReloadStep(s, a, s');
    ReloadRemembers(s, a, s');
    ReloadKeepsTables(s, a, s');
    ReloadKeepsHolders(s, c, s');
    ReloadKeepsCalls(s, c, s');
    ReloadKeepsServing(s, a, s');
  }

  lemma StartKeepsInv(s: Craft)
    requires Inv(s)
    ensures Inv(s.(started := true))
  {
    var s' := s.(started := true);
    assert forall key :: key in s.runtimes ==> EntryOk(s, key) && EntryOk(s', key);
    assert TablesOk(s');
    forall d, key ensures Opener(s, d, key) <==> Opener(s', d, key) { }
    OpenersStay(s, s');
    forall d, r | 0 <= r < |s.built| && Holder(s, d, r) ensures Accounted(s', r) { assert Holder(s', d, r); }
    HoldersStay(s, s');
    forall c | c in s.calls ensures CallOk(s', s.calls[c]) { assert CallOk(s, s.calls[c]); }
    forall rt ensures InReload(s, rt) <==> InReload(s', rt) { }
    forall key | ServesRecord(s, key) ensures ServesRecord(s', key) { }
    hide EntryOk, Opener, Holder, CallOk, InReload, ServesRecord;
  }

  /** Every step keeps the invariant. */
  lemma StepKeepsInv(s: Craft, a: Action, s': Craft)
    requires Inv(s) && Do(s, a) == Some(s')
    ensures Inv(s')
  {
    hide Inv;
    match a
    case Start => StartKeepsInv(s);
    case Open(c, key) => hide DoOpen; OpenKeepsInv(s, c, key, s');
    case ComposeFailed(c) => hide DoOpening; ComposeFailedKeepsInv(s, c, s');
    case BuildDone(c, inputs) => hide DoBuilt; BuildKeepsInv(s, c, inputs, s');
    case Publish(c) => hide DoPublish; PublishKeepsInv(s, c, s');
    case Withdraw(c) => hide DoWithdraw; WithdrawKeepsInv(s, c, s');
    case Discard(_) => hide Do; SteadyStepKeepsInv(s, a, s');
    case BindDone(_) => hide Do; SteadyStepKeepsInv(s, a, s');
    case BindFailed(_) => hide Do; SteadyStepKeepsInv(s, a, s');
    case CloseTaken(_) => hide Do; SteadyStepKeepsInv(s, a, s');
    case CloseOne(_, _) => hide Do; SteadyStepKeepsInv(s, a, s');
    case CloseRuntime(_, _) => hide Do; TakeKeepsInv(s, a, s');
    case Close(_) => hide Do; TakeKeepsInv(s, a, s');
    case _ => hide DoReloading; ReloadingKeepsInv(s, a, s');
  }

  lemma {:induction false} RunKeepsInv(actions: seq<Action>)
    requires Run(INIT, actions).Some?
    ensures Inv(Run(INIT, actions).value)
    decreases |actions|
  {
    if actions != [] {
      hide Inv, Do;
      RunKeepsInv(actions[..|actions| - 1]);
      StepKeepsInv(Run(INIT, actions[..|actions| - 1]).value, actions[|actions| - 1], Run(INIT, actions).value);
    } else {
      hide Opener, Holder;
      assert forall c, key :: !Opener(INIT, c, key) by { NoCalls(); }
    }
  }

  lemma NoCalls()
    ensures forall c, key :: !Opener(INIT, c, key)
  {
  }

  // ----------------------------------------------------------- guarantees

  /** In every interleaving the two tables have the same keys, opening keys are in neither, and a closed craft stays empty. */
  lemma TablesAgree(actions: seq<Action>)
    requires Run(INIT, actions).Some?
    ensures var s := Run(INIT, actions).value;
            && s.runtimes.Keys == s.records.Keys && s.opening !! s.runtimes.Keys
            && (s.closed ==> s.runtimes == map[] && s.records == map[])
  {
    RunKeepsInv(actions);
    hide Run, NoneLost, CallsOk, ServesOk, EntryOk;
    var s := Run(INIT, actions).value;
    assert s.records.Keys == {} ==> s.records == map[];
  }

  /** Every runtime that still runs is in the table under its key, or held by a call that publishes or closes it. */
  lemma NoRuntimeIsLost(actions: seq<Action>, rt: Rt)
    requires Run(INIT, actions).Some? && rt < |Run(INIT, actions).value.built| && Run(INIT, actions).value.built[rt].open
    ensures Accounted(Run(INIT, actions).value, rt)
  {
    RunKeepsInv(actions);
    hide Run, TablesOk, OpeningOk, CallsOk, ServesOk, Accounted;
  }

  /** A record always describes the runtime it stands beside: no reload writes onto a reopened key. */
  lemma RecordMatchesRuntime(actions: seq<Action>, key: Key)
    requires Run(INIT, actions).Some? && key in Run(INIT, actions).value.runtimes
    ensures var s := Run(INIT, actions).value;
            && key in s.records && s.records[key].owner == s.runtimes[key]
            && (s.runtimes[key] !in s.adrift && !InReload(s, s.runtimes[key]) ==> ServesRecord(s, key))
  {
    RunKeepsInv(actions);
    hide Run, OpeningOk, NoneLost, CallsOk, ServesRecord, InReload;
    assert EntryOk(Run(INIT, actions).value, key);
  }

  /** A reload that fails before its swap changes nothing; one that ends later, by success or by rolling back, leaves its runtime serving the record. */
  lemma ReloadLeavesRecordServed(actions: seq<Action>, a: Action, s': Craft)
    requires Run(INIT, actions).Some? && Do(Run(INIT, actions).value, a) == Some(s')
    requires a.ReloadFailed? || a.WriteBack? || (a.RollBack? && a.swapped)
    ensures var s := Run(INIT, actions).value; var k := s.calls[a.c];
            if a.ReloadFailed? then s'.built == s.built && s'.records == s.records && s'.adrift == s.adrift
            else (Holds(s', k.key, k.rt) ==> ServesRecord(s', k.key) && (a.RollBack? ==> s'.records == s.records))
  {
    RunKeepsInv(actions);
    var s := Run(INIT, actions).value;
    hide Run, Inv, ServesRecord, Holder, Opener;
    if !a.ReloadFailed? {
      StepKeepsInv(s, a, s');
      ReloadIsOver(s, a, s');
      if Holds(s', s.calls[a.c].key, s.calls[a.c].rt) {
        ServedWhenSettled(s', s.calls[a.c].key);
      }
    }
  }

  lemma ServedWhenSettled(s: Craft, key: Key)
    requires Inv(s) && key in s.runtimes && s.runtimes[key] !in s.adrift && !InReload(s, s.runtimes[key])
    ensures ServesRecord(s, key)
  {
    hide TablesOk, OpeningOk, NoneLost, CallsOk, ServesRecord, InReload;
  }

  lemma ReloadIsOver(s: Craft, a: Action, s': Craft)
    requires Inv(s) && Do(s, a) == Some(s') && (a.WriteBack? || (a.RollBack? && a.swapped))
    ensures a.c in s.calls && (s.calls[a.c].Bound? || s.calls[a.c].RollingBack?)
    ensures s'.lifecycle == None && (a.RollBack? ==> s'.records == s.records)
    ensures Holds(s', s.calls[a.c].key, s.calls[a.c].rt) ==> s.calls[a.c].rt !in s'.adrift
  {
    hide OpeningOk, NoneLost, CallsOk, ServesOk, EntryOk, Serves;
    if a.RollBack? {
      ServeChangesOne(s, s.calls[a.c].rt, s.calls[a.c].record.inputs);
    }
  }
}
