/**
 Single-flight idempotency: calls that carry a key, as atomic steps between lock
 boundaries. One call under a key executes; the others wait for it, replay its
 success until that expires, or are refused for asking something else.
 */
module SingleFlight {
  import opened Wrappers

  type Key = string
  type CallId = nat
  type Caller = nat

  datatype Mode = Sync | Async

  datatype Request = Request(mode: Mode, target: string, input: string, key: Key,
                             metadata: map<string, string>, attributes: map<string, string>)

  datatype Response = Response(id: string, status: string, output: string, error: string, metadata: map<string, string>)

  /** How one execution ended. */
  datatype Outcome = Success(response: Response) | Failure(error: string)

  datatype Config = Config(retention: nat, asyncRetention: nat)

  function Retention(cfg: Config, mode: Mode): nat {
    if mode.Async? then cfg.asyncRetention else cfg.retention
  }

  predicate SameRequest(a: Request, b: Request) {
    && a.mode == b.mode && a.target == b.target && a.input == b.input && a.key == b.key
    && a.metadata == b.metadata && a.attributes == b.attributes
  }

  datatype Cached = Cached(request: Request, response: Response, expires: nat)

  /** One execution, kept after it ended so that runs can be compared. */
  datatype Flight = Flight(request: Request, start: nat, ended: Option<Outcome>, expires: nat)

  datatype Answer = Answered(outcome: Outcome) | Conflict | Cancelled

  /** Where a call stands; `from` is the execution whose outcome it returned, if it took part in one. */
  datatype Standing =
    | Executing(request: Request, call: CallId)
    | Waiting(request: Request, call: CallId)
    | Returned(request: Request, answer: Answer, from: Option<CallId>)

  /** `flights` numbers executions in the order they started. */
  datatype State = State(
    now: nat,
    cache: map<Key, Cached>,
    calls: map<Key, CallId>,
    flights: seq<Flight>,
    callers: map<Caller, Standing>)

  const INIT: State := State(0, map[], map[], [], map[])

  /** Drops every result that is due at time t. */
  function Unexpired(cache: map<Key, Cached>, t: nat): map<Key, Cached> {
    map k | k in cache && t < cache[k].expires :: cache[k]
  }

  datatype Action =
    | Tick
    | Enter(p: Caller, request: Request)
    | Finish(p: Caller, outcome: Outcome)
    | Wake(p: Caller)
    | Cancel(p: Caller)
    | Janitor(tick: nat)

  /** The locked section at the start of a call. */
  function DoEnter(s: State, p: Caller, r: Request): State {
    var cache := Unexpired(s.cache, s.now);
    var s1 := s.(cache := cache);
    if r.key in cache then
      var answer := if SameRequest(cache[r.key].request, r) then Answered(Success(cache[r.key].response)) else Conflict;
      s1.(callers := s.callers[p := Returned(r, answer, None)])
    else if r.key in s.calls && s.calls[r.key] < |s.flights| then
      var call := s.calls[r.key];
      if SameRequest(s.flights[call].request, r) then s1.(callers := s.callers[p := Waiting(r, call)])
      else s1.(callers := s.callers[p := Returned(r, Conflict, None)])
    else
      s1.(calls := s.calls[r.key := |s.flights|],
          flights := s.flights + [Flight(r, s.now, None, 0)],
          callers := s.callers[p := Executing(r, |s.flights|)])
  }

  /** The locked section in which the executing call publishes its outcome. */
  function DoFinish(cfg: Config, s: State, p: Caller, r: Request, call: CallId, outcome: Outcome): State
    requires call < |s.flights|
  {
    var expires := s.now + Retention(cfg, r.mode);
    s.(calls := s.calls - {r.key},
       cache := if outcome.Success? then s.cache[r.key := Cached(r, outcome.response, expires)] else s.cache,
       flights := s.flights[call := s.flights[call].(ended := Some(outcome), expires := expires)],
       callers := s.callers[p := Returned(r, Answered(outcome), Some(call))])
  }

  function Do(cfg: Config, s: State, a: Action): Option<State> {
    match a
    case Tick => Some(s.(now := s.now + 1))
    case Enter(p, r) => if p in s.callers then None else Some(DoEnter(s, p, r))
    case Finish(p, outcome) =>
      if p in s.callers && s.callers[p].Executing? && s.callers[p].call < |s.flights|
      then Some(DoFinish(cfg, s, p, s.callers[p].request, s.callers[p].call, outcome))
      else None
    case Wake(p) =>
      if p in s.callers && s.callers[p].Waiting? && s.callers[p].call < |s.flights| && s.flights[s.callers[p].call].ended.Some?
      then Some(s.(callers := s.callers[p := Returned(s.callers[p].request, Answered(s.flights[s.callers[p].call].ended.value), Some(s.callers[p].call))]))
      else None
    case Cancel(p) =>
      if p in s.callers && s.callers[p].Waiting?
      then Some(s.(callers := s.callers[p := Returned(s.callers[p].request, Cancelled, None)]))
      else None
    case Janitor(tick) => if tick <= s.now then Some(s.(cache := Unexpired(s.cache, tick))) else None
  }

  function Run(cfg: Config, s: State, actions: seq<Action>): Option<State> {
    if actions == [] then Some(s)
    else
      var before := Run(cfg, s, actions[..|actions| - 1]);
      if before.None? then None else Do(cfg, before.value, actions[|actions| - 1])
  }

  // ------------------------------------------------------------ invariant

  ghost predicate InFlight(s: State, k: Key, c: CallId) {
    k !in s.cache && c < |s.flights| && s.flights[c].request.key == k && s.flights[c].ended.None?
  }

  /** A key is in flight exactly while the execution it names has not ended, and then not cached. */
  ghost predicate CallsOk(s: State) {
    && (forall k :: k in s.calls ==> InFlight(s, k, s.calls[k]))
    && (forall c :: 0 <= c < |s.flights| && s.flights[c].ended.None? ==>
      s.flights[c].request.key in s.calls && s.calls[s.flights[c].request.key] == c)
  }

  /** A success that has not expired is cached. */
  ghost predicate CacheOk(s: State) {
    forall c :: 0 <= c < |s.flights| && s.flights[c].ended.Some? && s.flights[c].ended.value.Success? && s.now < s.flights[c].expires ==>
      var f := s.flights[c];
      f.request.key in s.cache && s.cache[f.request.key] == Cached(f.request, f.ended.value.response, f.expires)
  }

  /** Each unfinished execution has exactly one call carrying it out; waiters and answers name an execution of the same request. */
  ghost predicate CallersOk(s: State) {
    && (forall p :: p in s.callers ==> CallerOk(s, s.callers[p]))
    && (forall p, q :: Executes(s, p) && Executes(s, q) && s.callers[p].call == s.callers[q].call ==> p == q)
    && (forall c :: 0 <= c < |s.flights| && s.flights[c].ended.None? ==> HasOwner(s, c))
  }

  predicate Executes(s: State, p: Caller) {
    p in s.callers && s.callers[p].Executing?
  }

  ghost predicate CallerOk(s: State, w: Standing) {
    match w
    case Executing(r, c) => c < |s.flights| && s.flights[c].request == r && s.flights[c].ended.None?
    case Waiting(r, c) => c < |s.flights| && s.flights[c].request == r
    case Returned(r, answer, None) => true
    case Returned(r, answer, Some(c)) =>
      c < |s.flights| && s.flights[c].request == r && s.flights[c].ended.Some? && answer == Answered(s.flights[c].ended.value)
  }

  ghost predicate HasOwner(s: State, c: CallId) {
    exists p :: Executes(s, p) && s.callers[p].call == c
  }

  /** Executions under one key never overlap, and one starts after a success only once that has expired. */
  ghost predicate Spaced(s: State) {
    forall c, d :: 0 <= c < d < |s.flights| && s.flights[c].request.key == s.flights[d].request.key ==>
      s.flights[c].ended.Some? && (s.flights[c].ended.value.Success? ==> s.flights[c].expires <= s.flights[d].start)
  }

  ghost predicate Inv(s: State) {
    && CallsOk(s) && CacheOk(s) && CallersOk(s) && Spaced(s)
    && forall c :: 0 <= c < |s.flights| ==> s.flights[c].start <= s.now
  }

  // ---------------------------------------------------------------- steps

  /** Callers are judged by themselves and the executions alone. */
  lemma CallersStay(s: State, s': State)
    requires CallersOk(s) && s'.callers == s.callers && s'.flights == s.flights
    ensures CallersOk(s')
  {
    forall c | 0 <= c < |s.flights| && s.flights[c].ended.None? ensures HasOwner(s', c) { assert HasOwner(s, c); OwnerStays(s, s', c); }
    forall p | p in s.callers ensures CallerOk(s', s.callers[p]) { assert CallerOk(s, s.callers[p]); }
    hide HasOwner, CallerOk;
  }

  lemma ExpireKeepsBooks(s: State, t: nat)
    requires CallsOk(s) && CacheOk(s) && t <= s.now
    ensures CallsOk(s.(cache := Unexpired(s.cache, t))) && CacheOk(s.(cache := Unexpired(s.cache, t)))
  {
    var s' := s.(cache := Unexpired(s.cache, t));
    forall k | k in s.calls ensures InFlight(s', k, s.calls[k]) { assert InFlight(s, k, s.calls[k]); }
    hide InFlight;
  }

  lemma ExpireKeepsInv(s: State, t: nat)
    requires Inv(s) && t <= s.now
    ensures Inv(s.(cache := Unexpired(s.cache, t)))
  {
    hide CallsOk, CacheOk, CallersOk;
    ExpireKeepsBooks(s, t);
    CallersStay(s, s.(cache := Unexpired(s.cache, t)));
  }

  lemma OwnerStays(s: State, s': State, c: CallId)
    requires HasOwner(s, c)
    requires forall p :: p in s.callers && s.callers[p].Executing? && s.callers[p].call == c ==> p in s'.callers && s'.callers[p] == s.callers[p]
    ensures HasOwner(s', c)
  {
    var p :| Executes(s, p) && s.callers[p].call == c;
    assert Executes(s', p) && s'.callers[p].call == c;
  }

  lemma StandingKeepsCallers(s: State, p: Caller, w: Standing)
    requires CallersOk(s) && CallerOk(s, w) && !w.Executing? && (p in s.callers ==> !s.callers[p].Executing?)
    ensures CallersOk(s.(callers := s.callers[p := w]))
  {
    var s' := s.(callers := s.callers[p := w]);
    forall c | 0 <= c < |s.flights| && s.flights[c].ended.None? ensures HasOwner(s', c) { assert HasOwner(s, c); OwnerStays(s, s', c); }
    forall q | q in s'.callers ensures CallerOk(s', s'.callers[q]) { assert CallerOk(s, s'.callers[q]); }
    hide CallerOk, HasOwner;
  }

  lemma BooksStay(s: State, s': State)
    requires CallsOk(s) && CacheOk(s) && Spaced(s)
    requires s'.now == s.now && s'.cache == s.cache && s'.calls == s.calls && s'.flights == s.flights
    ensures CallsOk(s') && CacheOk(s') && Spaced(s')
  {
    forall k | k in s.calls ensures InFlight(s', k, s.calls[k]) { assert InFlight(s, k, s.calls[k]); }
    hide InFlight;
  }

  /** A call that executes nothing changes only its own standing. */
  lemma StandingKeepsInv(s: State, p: Caller, w: Standing)
    requires Inv(s) && CallerOk(s, w) && !w.Executing? && (p in s.callers ==> !s.callers[p].Executing?)
    ensures Inv(s.(callers := s.callers[p := w]))
  {
    hide CallsOk, CacheOk, Spaced, CallersOk, CallerOk;
    StandingKeepsCallers(s, p, w);
    BooksStay(s, s.(callers := s.callers[p := w]));
  }

  function Started(s: State, p: Caller, r: Request): State {
    s.(calls := s.calls[r.key := |s.flights|],
       flights := s.flights + [Flight(r, s.now, None, 0)],
       callers := s.callers[p := Executing(r, |s.flights|)])
  }

  lemma StartKeepsCallers(s: State, p: Caller, r: Request)
    requires CallersOk(s) && p !in s.callers
    ensures CallersOk(Started(s, p, r))
  {
    var s' := Started(s, p, r);
    forall c | 0 <= c < |s'.flights| && s'.flights[c].ended.None?
      ensures HasOwner(s', c)
    {
      if c < |s.flights| {
        assert s'.flights[c] == s.flights[c];
        assert HasOwner(s, c);
        OwnerStays(s, s', c);
      } else {
        assert Executes(s', p) && s'.callers[p].call == c;
      }
    }
    forall q | q in s'.callers
      ensures CallerOk(s', s'.callers[q])
    {
      if q != p { assert CallerOk(s, s.callers[q]); }
    }
    assert forall q :: q in s.callers && s.callers[q].Executing? ==> CallerOk(s, s.callers[q]);
    hide HasOwner;
  }

  lemma StartKeepsCalls(s: State, p: Caller, r: Request)
    requires CallsOk(s) && r.key !in s.cache && r.key !in s.calls
    ensures CallsOk(Started(s, p, r))
  {
    var s' := Started(s, p, r);
    assert forall c :: 0 <= c < |s.flights| ==> s'.flights[c] == s.flights[c];
    forall k | k in s'.calls
      ensures InFlight(s', k, s'.calls[k])
    {
      if k != r.key { assert InFlight(s, k, s.calls[k]); }
    }
    hide InFlight;
  }

  lemma StartKeepsCache(s: State, p: Caller, r: Request)
    requires CacheOk(s)
    ensures CacheOk(Started(s, p, r))
  {
    var s' := Started(s, p, r);
    assert forall c :: 0 <= c < |s.flights| ==> s'.flights[c] == s.flights[c];
  }

  /** No earlier execution under the key is still running, and none that succeeded is unexpired: it would be cached. */
  lemma StartKeepsSpaced(s: State, p: Caller, r: Request)
    requires CallsOk(s) && CacheOk(s) && Spaced(s) && r.key !in s.cache && r.key !in s.calls
    ensures Spaced(Started(s, p, r))
  {
    var s' := Started(s, p, r);
    forall c, d | 0 <= c < d < |s'.flights| && s'.flights[c].request.key == s'.flights[d].request.key
      ensures s'.flights[c].ended.Some? && (s'.flights[c].ended.value.Success? ==> s'.flights[c].expires <= s'.flights[d].start)
    {
      assert s'.flights[c] == s.flights[c];
      if d < |s.flights| { assert s'.flights[d] == s.flights[d]; }
    }
  }

  lemma StartKeepsInv(s: State, p: Caller, r: Request)
    requires Inv(s) && p !in s.callers && r.key !in s.cache && r.key !in s.calls
    ensures Inv(Started(s, p, r))
  {
    hide CallsOk, CacheOk, Spaced, CallersOk;
    StartKeepsCallers(s, p, r);
    StartKeepsCalls(s, p, r);
    StartKeepsCache(s, p, r);
    StartKeepsSpaced(s, p, r);
  }

  lemma FinishKeepsCallers(cfg: Config, s: State, p: Caller, r: Request, c: CallId, outcome: Outcome)
    requires CallersOk(s) && p in s.callers && s.callers[p] == Executing(r, c) && c < |s.flights|
    ensures CallersOk(DoFinish(cfg, s, p, r, c, outcome))
  {
    var s' := DoFinish(cfg, s, p, r, c, outcome);
    forall d | 0 <= d < |s'.flights| && s'.flights[d].ended.None?
      ensures HasOwner(s', d)
    {
      assert d != c && HasOwner(s, d);
      OwnerStays(s, s', d);
    }
    assert CallerOk(s, s.callers[p]);
    forall q | q in s'.callers
      ensures CallerOk(s', s'.callers[q])
    {
      if q != p { assert CallerOk(s, s.callers[q]); }
    }
    hide HasOwner, CallerOk;
  }

  lemma FinishKeepsCalls(cfg: Config, s: State, p: Caller, r: Request, c: CallId, outcome: Outcome)
    requires CallsOk(s) && c < |s.flights| && s.flights[c].request == r && s.flights[c].ended.None?
    ensures CallsOk(DoFinish(cfg, s, p, r, c, outcome))
  {
    var s' := DoFinish(cfg, s, p, r, c, outcome);
    assert forall d :: 0 <= d < |s.flights| && d != c ==> s'.flights[d] == s.flights[d];
    assert s.calls[r.key] == c;
    forall k | k in s'.calls
      ensures InFlight(s', k, s'.calls[k])
    {
      assert InFlight(s, k, s.calls[k]);
    }
  }

  lemma FinishKeepsCache(cfg: Config, s: State, p: Caller, r: Request, c: CallId, outcome: Outcome)
    requires CallsOk(s) && CacheOk(s) && Spaced(s)
    requires c < |s.flights| && s.flights[c].request == r && s.flights[c].ended.None?
    ensures CacheOk(DoFinish(cfg, s, p, r, c, outcome)) && Spaced(DoFinish(cfg, s, p, r, c, outcome))
  {
    var s' := DoFinish(cfg, s, p, r, c, outcome);
    assert forall d :: 0 <= d < |s.flights| && d != c ==> s'.flights[d] == s.flights[d];
    assert InFlight(s, r.key, c);
    assert CacheOk(s') by { hide CallsOk, Spaced; }
    hide CacheOk, CallsOk;
  }

  lemma FinishKeepsInv(cfg: Config, s: State, p: Caller, r: Request, c: CallId, outcome: Outcome)
    requires Inv(s) && p in s.callers && s.callers[p] == Executing(r, c) && c < |s.flights|
    ensures Inv(DoFinish(cfg, s, p, r, c, outcome))
  {
    assert CallerOk(s, s.callers[p]) by { hide CallsOk, CacheOk, Spaced; }
    hide CallersOk, CallsOk, CacheOk, Spaced;
    FinishKeepsCallers(cfg, s, p, r, c, outcome);
    FinishKeepsCalls(cfg, s, p, r, c, outcome);
    FinishKeepsCache(cfg, s, p, r, c, outcome);
  }

  lemma StepKeepsInv(cfg: Config, s: State, a: Action, s': State)
    requires Inv(s) && Do(cfg, s, a) == Some(s')
    ensures Inv(s')
  {
    hide Inv, DoEnter, DoFinish, Unexpired;
    match a
    case Tick => TickKeepsInv(s);
    case Enter(p, r) => EnterKeepsInv(s, p, r);
    case Finish(p, outcome) => FinishKeepsInv(cfg, s, p, s.callers[p].request, s.callers[p].call, outcome);
    case Wake(p) => CallerIs(s, p); StandingKeepsInv(s, p, s'.callers[p]);
    case Cancel(p) => StandingKeepsInv(s, p, s'.callers[p]);
    case Janitor(tick) => ExpireKeepsInv(s, tick);
  }

  lemma CallerIs(s: State, p: Caller)
    requires Inv(s) && p in s.callers
    ensures CallerOk(s, s.callers[p])
  {
    hide CallsOk, CacheOk, Spaced, HasOwner, CallerOk;
  }

  lemma TickKeepsInv(s: State)
    requires Inv(s)
    ensures Inv(s.(now := s.now + 1))
  {
    var s' := s.(now := s.now + 1);
    forall c | 0 <= c < |s.flights| && s.flights[c].ended.None? ensures HasOwner(s', c) { assert HasOwner(s, c); OwnerStays(s, s', c); }
    forall p | p in s.callers ensures CallerOk(s', s.callers[p]) { assert CallerOk(s, s.callers[p]); }
    hide HasOwner, CallerOk;
  }

  lemma EnterKeepsInv(s: State, p: Caller, r: Request)
    requires Inv(s) && p !in s.callers
    ensures Inv(DoEnter(s, p, r))
  {
    var s1 := s.(cache := Unexpired(s.cache, s.now));
    ExpireKeepsInv(s, s.now);
    if r.key in s1.cache || (r.key in s.calls && s.calls[r.key] < |s.flights|) {
      StandingKeepsInv(s1, p, DoEnter(s, p, r).callers[p]);
    } else {
      StartKeepsInv(s1, p, r);
    }
  }

  lemma {:induction false} RunKeepsInv(cfg: Config, actions: seq<Action>)
    requires Run(cfg, INIT, actions).Some?
    ensures Inv(Run(cfg, INIT, actions).value)
    decreases |actions|
  {
    if actions != [] {
      hide Inv, Do;
      RunKeepsInv(cfg, actions[..|actions| - 1]);
      StepKeepsInv(cfg, Run(cfg, INIT, actions[..|actions| - 1]).value, actions[|actions| - 1], Run(cfg, INIT, actions).value);
    }
  }

  // ----------------------------------------------------------- guarantees

  /** Two calls never execute under one key at the same time, and a key in flight is not cached. */
  lemma OneExecutionPerKey(cfg: Config, actions: seq<Action>, p: Caller, q: Caller)
    requires Run(cfg, INIT, actions).Some?
    requires Executes(Run(cfg, INIT, actions).value, p)
    ensures var s := Run(cfg, INIT, actions).value;
            && s.callers[p].request.key in s.calls && s.callers[p].request.key !in s.cache
            && (Executes(s, q) && s.callers[p].request.key == s.callers[q].request.key ==> p == q)
  {
    RunKeepsInv(cfg, actions);
    var s := Run(cfg, INIT, actions).value;
    hide Run, HasOwner, CacheOk, Spaced;
    assert CallerOk(s, s.callers[p]);
    if Executes(s, q) {
      assert CallerOk(s, s.callers[q]);
    }
  }

  /** Over a whole run, a second execution under a key starts only after the first ended, and after a success only once it expired. */
  lemma ExecutionsAreSpaced(cfg: Config, actions: seq<Action>, c: CallId, d: CallId)
    requires Run(cfg, INIT, actions).Some?
    requires var s := Run(cfg, INIT, actions).value;
             c < d < |s.flights| && s.flights[c].request.key == s.flights[d].request.key
    ensures var s := Run(cfg, INIT, actions).value;
            s.flights[c].ended.Some? && (s.flights[c].ended.value.Success? ==> s.flights[c].expires <= s.flights[d].start)
  {
    RunKeepsInv(cfg, actions);
    hide Run, CallsOk, CallersOk, CacheOk;
  }

  /** From a success until its expiry the same request gets that response, any other request under the key is refused, and nothing executes. */
  lemma SuccessIsReplayed(cfg: Config, actions: seq<Action>, c: CallId, p: Caller, r: Request)
    requires Run(cfg, INIT, actions).Some?
    requires var s := Run(cfg, INIT, actions).value;
             && p !in s.callers && c < |s.flights| && s.flights[c].ended.Some? && s.flights[c].ended.value.Success?
             && s.now < s.flights[c].expires && r.key == s.flights[c].request.key
    ensures var s := Run(cfg, INIT, actions).value;
            var s' := Do(cfg, s, Enter(p, r)).value;
            && s'.flights == s.flights
            && s'.callers[p] == Returned(r, if r == s.flights[c].request then Answered(s.flights[c].ended.value) else Conflict, None)
  {
    RunKeepsInv(cfg, actions);
    hide Run, CallsOk, CallersOk, Spaced;
  }

  /** The calls that took part in one execution made the same request and return the same outcome. */
  lemma OutcomeIsShared(cfg: Config, actions: seq<Action>, p: Caller, q: Caller)
    requires Run(cfg, INIT, actions).Some?
    requires var s := Run(cfg, INIT, actions).value;
             p in s.callers && q in s.callers && s.callers[p].Returned? && s.callers[q].Returned?
             && s.callers[p].from.Some? && s.callers[p].from == s.callers[q].from
    ensures var s := Run(cfg, INIT, actions).value; s.callers[p] == s.callers[q] && s.callers[p].answer.Answered?
  {
    RunKeepsInv(cfg, actions);
    var s := Run(cfg, INIT, actions).value;
    hide Run, CallsOk, CacheOk, Spaced, HasOwner;
    assert CallerOk(s, s.callers[p]) && CallerOk(s, s.callers[q]);
  }

  /** A waiter is never abandoned: its execution is still being carried out, or it can return that execution's outcome now. */
  lemma WaiterIsServed(cfg: Config, actions: seq<Action>, p: Caller)
    requires Run(cfg, INIT, actions).Some?
    requires p in Run(cfg, INIT, actions).value.callers && Run(cfg, INIT, actions).value.callers[p].Waiting?
    ensures var s := Run(cfg, INIT, actions).value; var w := s.callers[p];
            && w.call < |s.flights| && s.flights[w.call].request == w.request
            && if s.flights[w.call].ended.None? then HasOwner(s, w.call)
               else Do(cfg, s, Wake(p)).Some?
                    && Do(cfg, s, Wake(p)).value.callers[p] == Returned(w.request, Answered(s.flights[w.call].ended.value), Some(w.call))
  {
    RunKeepsInv(cfg, actions);
    var s := Run(cfg, INIT, actions).value;
    hide Run, CallsOk, CacheOk, Spaced, HasOwner;
    assert CallerOk(s, s.callers[p]);
  }

  // ------------------------------------------------ what entering and finishing do

  /** The execution is a success under the key, with this expiry. */
  ghost predicate Yielded(s: State, k: Key, c: CallId, expires: nat) {
    c < |s.flights| && s.flights[c].request.key == k && s.flights[c].expires == expires
    && s.flights[c].ended.Some? && s.flights[c].ended.value.Success?
  }

  /** Nothing is cached that an execution did not yield. */
  ghost predicate Backed(s: State) {
    forall k :: k in s.cache ==> exists c :: Yielded(s, k, c, s.cache[k].expires)
  }

  lemma LaterBacked(s: State, s': State, k: Key)
    requires Backed(s) && k in s.cache && k in s'.cache && s'.cache[k] == s.cache[k] && |s.flights| <= |s'.flights|
    requires forall c :: 0 <= c < |s.flights| && s.flights[c].ended.Some? ==> s'.flights[c] == s.flights[c]
    ensures exists c :: Yielded(s', k, c, s'.cache[k].expires)
  {
    var c :| Yielded(s, k, c, s.cache[k].expires);
    assert Yielded(s', k, c, s'.cache[k].expires);
  }

  lemma EndedStays(cfg: Config, s: State, a: Action, s': State)
    requires Do(cfg, s, a) == Some(s') && (a.Finish? ==> CallerOk(s, s.callers[a.p]))
    ensures |s.flights| <= |s'.flights|
    ensures forall c :: 0 <= c < |s.flights| && s.flights[c].ended.Some? ==> s'.flights[c] == s.flights[c]
  {
    hide Unexpired, SameRequest;
  }

  lemma CacheGrowsByFinish(cfg: Config, s: State, a: Action, s': State, k: Key)
    requires Do(cfg, s, a) == Some(s') && k in s'.cache && !(k in s.cache && s'.cache[k] == s.cache[k])
    ensures a.Finish? && a.outcome.Success? && s.callers[a.p].request.key == k
  {
    hide SameRequest;
  }

  lemma StepKeepsBacked(cfg: Config, s: State, a: Action, s': State)
    requires Inv(s) && Backed(s) && Do(cfg, s, a) == Some(s')
    ensures Backed(s')
  {
    hide Inv, Backed, Yielded, CallerOk, DoEnter, DoFinish, Unexpired;
    if a.Finish? {
      CallerIs(s, a.p);
    }
    EndedStays(cfg, s, a, s');
    forall k | k in s'.cache
      ensures exists c :: Yielded(s', k, c, s'.cache[k].expires)
    {
      if k in s.cache && s'.cache[k] == s.cache[k] {
        LaterBacked(s, s', k);
      } else {
        CacheGrowsByFinish(cfg, s, a, s', k);
        YieldedNow(cfg, s, a.p, a.outcome, s');
      }
    }
    BackedIf(s');
  }

  lemma YieldedNow(cfg: Config, s: State, p: Caller, outcome: Outcome, s': State)
    requires Do(cfg, s, Finish(p, outcome)) == Some(s') && CallerOk(s, s.callers[p]) && outcome.Success?
    ensures var k := s.callers[p].request.key;
            k in s'.cache && Yielded(s', k, s.callers[p].call, s'.cache[k].expires)
  {
  }

  lemma BackedIf(s: State)
    requires forall k :: k in s.cache ==> exists c :: Yielded(s, k, c, s.cache[k].expires)
    ensures Backed(s)
  {
  }

  lemma {:induction false} RunKeepsBacked(cfg: Config, actions: seq<Action>)
    requires Run(cfg, INIT, actions).Some?
    ensures Inv(Run(cfg, INIT, actions).value) && Backed(Run(cfg, INIT, actions).value)
    decreases |actions|
  {
    RunKeepsInv(cfg, actions);
    if actions != [] {
      hide Inv, Do, Backed;
      RunKeepsBacked(cfg, actions[..|actions| - 1]);
      StepKeepsBacked(cfg, Run(cfg, INIT, actions[..|actions| - 1]).value, actions[|actions| - 1], Run(cfg, INIT, actions).value);
    }
  }

  /** A call under a key in flight joins the execution if it asks the same and is refused otherwise; it starts nothing. */
  lemma EnterJoins(cfg: Config, actions: seq<Action>, p: Caller, r: Request, c: CallId)
    requires Run(cfg, INIT, actions).Some?
    requires var s := Run(cfg, INIT, actions).value;
             p !in s.callers && c < |s.flights| && s.flights[c].request.key == r.key && s.flights[c].ended.None?
    ensures var s := Run(cfg, INIT, actions).value;
            var s' := Do(cfg, s, Enter(p, r)).value;
            && s'.flights == s.flights
            && s'.callers == s.callers[p := if r == s.flights[c].request then Waiting(r, c) else Returned(r, Conflict, None)]
  {
    RunKeepsInv(cfg, actions);
    hide Run, CallersOk, CacheOk, Spaced;
    var s := Run(cfg, INIT, actions).value;
    assert InFlight(s, r.key, c);
  }

  /** Every earlier execution under the key has ended, and those that succeeded have expired. */
  ghost predicate Spent(s: State, k: Key) {
    forall c :: 0 <= c < |s.flights| && s.flights[c].request.key == k ==>
      s.flights[c].ended.Some? && (s.flights[c].ended.value.Success? ==> s.flights[c].expires <= s.now)
  }

  /** A call executes if and only if its key is spent; its execution is then the newest, of its own request. */
  lemma EnterExecutesIff(cfg: Config, actions: seq<Action>, p: Caller, r: Request)
    requires Run(cfg, INIT, actions).Some? && p !in Run(cfg, INIT, actions).value.callers
    ensures var s := Run(cfg, INIT, actions).value;
            var s' := Do(cfg, s, Enter(p, r)).value;
            && (s'.callers[p].Executing? <==> Spent(s, r.key))
            && (Spent(s, r.key) ==>
                  && s'.callers == s.callers[p := Executing(r, |s.flights|)]
                  && s'.flights == s.flights + [Flight(r, s.now, None, 0)]
                  && s'.calls == s.calls[r.key := |s.flights|])
  {
    RunKeepsBacked(cfg, actions);
    hide Run;
    var s := Run(cfg, INIT, actions).value;
    if Spent(s, r.key) {
      SpentIsFree(s, r.key);
    } else {
      assert Do(cfg, s, Enter(p, r)).value == DoEnter(s, p, r);
      hide Do;
      HeldIsNotExecuted(s, p, r);
    }
  }

  lemma SpentIsFree(s: State, k: Key)
    requires Inv(s) && Backed(s) && Spent(s, k)
    ensures k !in Unexpired(s.cache, s.now) && k !in s.calls
  {
    hide CallersOk, CacheOk, Spaced;
    if k in s.cache {
      var c :| Yielded(s, k, c, s.cache[k].expires);
    }
    assert k in s.calls ==> InFlight(s, k, s.calls[k]);
  }

  lemma HeldIsNotExecuted(s: State, p: Caller, r: Request)
    requires Inv(s) && !Spent(s, r.key)
    ensures !DoEnter(s, p, r).callers[p].Executing?
  {
    hide CallersOk, Spaced;
    var c :| 0 <= c < |s.flights| && s.flights[c].request.key == r.key
          && !(s.flights[c].ended.Some? && (s.flights[c].ended.value.Success? ==> s.flights[c].expires <= s.now));
    if s.flights[c].ended.None? {
      assert InFlight(s, r.key, s.calls[r.key]);
    }
  }

  /** The executing call publishes its outcome: its execution ends with it, held for the mode's retention, and the key is free again. */
  lemma FinishEndsExecution(cfg: Config, actions: seq<Action>, p: Caller, outcome: Outcome)
    requires Run(cfg, INIT, actions).Some? && Executes(Run(cfg, INIT, actions).value, p)
    ensures var s := Run(cfg, INIT, actions).value; var r, c := s.callers[p].request, s.callers[p].call;
            && c < |s.flights| && Do(cfg, s, Finish(p, outcome)).Some?
            && var s' := Do(cfg, s, Finish(p, outcome)).value;
               && s'.callers == s.callers[p := Returned(r, Answered(outcome), Some(c))]
               && |s'.flights| == |s.flights| && (forall d :: 0 <= d < |s.flights| && d != c ==> s'.flights[d] == s.flights[d])
               && s'.flights[c] == Flight(r, s.flights[c].start, Some(outcome), s.now + (match r.mode case Sync => cfg.retention case Async => cfg.asyncRetention))
               && (forall d :: 0 <= d < |s'.flights| && s'.flights[d].request.key == r.key ==> s'.flights[d].ended.Some?)
  {
    RunKeepsInv(cfg, actions);
    hide Run;
    var s := Run(cfg, INIT, actions).value;
    CallerIs(s, p);
    hide CallersOk, CacheOk, Spaced;
    assert InFlight(s, s.callers[p].request.key, s.callers[p].call);
  }
}
