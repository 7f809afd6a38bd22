/**
 One agent run: attempts under a revise budget, the referees' decision, and the
 commit at the end, with the observer calls it makes. Engine, referees,
 committers and cancellation are arbitrary.
 */
module RunTrace {
  import opened Wrappers
  import opened Sums

  /** A structured interrupt reaches the observers, a foreign one only classifies the run. */
  datatype EngineError = Interruption(structured: bool) | ContextError | Abort | Other

  datatype Status = Completed | Interrupted | Canceled | Aborted | Failed

  datatype Decision = Decision(accept: bool, discard: bool, revise: bool, reason: string)

  const NO_OPINION: Decision := Decision(false, false, false, "")

  datatype Verdict = Says(decision: Decision) | Refuses

  /** How everything around the run behaves, attempt by attempt (attempts count from 1). */
  datatype Env = Env(
    seeds: nat -> bool,
    engine: nat -> Option<EngineError>,
    cancelled: nat -> bool,
    referees: nat -> seq<Verdict>,
    cancelledAtEnd: bool,
    historyFails: bool,
    view: Option<bool>,
    committers: seq<bool>)

  /** The observer's calls, and the committers' between them. */
  datatype Event = Start | Revise | Interrupt | Commit | End

  datatype Result = Result(status: Status, committed: bool, attempts: nat, reason: string)

  // ------------------------------------------------------------- referees

  predicate SaysSo(v: Verdict, wants: Decision -> bool) {
    v.Says? && wants(v.decision)
  }

  /** Some referee wants it. */
  predicate Anyone(vs: seq<Verdict>, wants: Decision -> bool) {
    exists i :: 0 <= i < |vs| && SaysSo(vs[i], wants)
  }

  predicate AnyRefusal(vs: seq<Verdict>) {
    exists i :: 0 <= i < |vs| && vs[i].Refuses?
  }

  /** The reason is the first one given. */
  ghost predicate FirstReason(vs: seq<Verdict>, reason: string) {
    if reason == "" then !Anyone(vs, (d: Decision) => d.reason != "")
    else exists i :: 0 <= i < |vs| && vs[i].Says? && vs[i].decision.reason == reason && !Anyone(vs[..i], (d: Decision) => d.reason != "")
  }

  const ACCEPTS := (d: Decision) => d.accept
  const DISCARDS := (d: Decision) => d.discard
  const REVISES := (d: Decision) => d.revise

  ghost predicate Merges(vs: seq<Verdict>, d: Decision) {
    && (d.accept <==> Anyone(vs, ACCEPTS)) && (d.discard <==> Anyone(vs, DISCARDS)) && (d.revise <==> Anyone(vs, REVISES))
    && FirstReason(vs, d.reason)
  }

  lemma MergeOne(vs: seq<Verdict>, d: Decision, next: Decision)
    requires Merges(vs, d)
    ensures var merged := Decision(d.accept || next.accept, d.discard || next.discard, d.revise || next.revise,
                                   if d.reason == "" then next.reason else d.reason);
            Merges(vs + [Says(next)], merged)
  {
    var all := vs + [Says(next)];
    AnyoneGrows(vs, next, ACCEPTS);
    AnyoneGrows(vs, next, DISCARDS);
    AnyoneGrows(vs, next, REVISES);
    var given := (e: Decision) => e.reason != "";
    AnyoneGrows(vs, next, given);
    if d.reason != "" {
      var i :| 0 <= i < |vs| && vs[i].Says? && vs[i].decision.reason == d.reason && !Anyone(vs[..i], given);
      assert all[i] == vs[i] && all[..i] == vs[..i];
    } else if next.reason != "" {
      assert all[|vs|] == Says(next) && all[..|vs|] == vs;
    }
  }

  lemma AnyoneGrows(vs: seq<Verdict>, next: Decision, wants: Decision -> bool)
    ensures Anyone(vs + [Says(next)], wants) <==> Anyone(vs, wants) || wants(next)
  {
    var all := vs + [Says(next)];
    if Anyone(vs, wants) {
      var i :| 0 <= i < |vs| && SaysSo(vs[i], wants);
      assert all[i] == vs[i];
    }
    if wants(next) {
      assert SaysSo(all[|vs|], wants);
    }
  }

  /** Merges the referees in order; the first refusal ends the chain. */
  method ComposeReferees(vs: seq<Verdict>) returns (d: Option<Decision>)
    ensures d.None? <==> AnyRefusal(vs)
    ensures d.Some? ==> Merges(vs, d.value)
  {
    var merged := NO_OPINION;
    for i := 0 to |vs|
      invariant !AnyRefusal(vs[..i]) && Merges(vs[..i], merged)
    {
      assert vs[..i + 1] == vs[..i] + [vs[i]];
      if vs[i].Refuses? {
        return None;
      }
      var next := vs[i].decision;
      MergeOne(vs[..i], merged, next);
      merged := Decision(merged.accept || next.accept, merged.discard || next.discard, merged.revise || next.revise,
                         if merged.reason == "" then next.reason else merged.reason);
    }
    assert vs[..|vs|] == vs;
    d := Some(merged);
  }

  // ------------------------------------------------------------- attempts

  /** The status of attempt n: a cancelled context overrides every engine outcome but an interrupt. */
  function StatusAt(env: Env, n: nat): Status {
    var e: Option<EngineError> := if env.cancelled(n) && !(env.engine(n).Some? && env.engine(n).value.Interruption?) then Some(ContextError) else env.engine(n);
    match e
    case None => Completed
    case Some(Interruption(_)) => Interrupted
    case Some(ContextError) => Canceled
    case Some(Abort) => Aborted
    case Some(Other) => Failed
  }

  /**
   The status a caller sees: interrupted exactly when the engine was; else cancelled exactly
   when the context was or the engine says so; else completed exactly when it returned no
   error, and aborted or failed by its error.
   */
  lemma StatusIff(env: Env, n: nat)
    ensures var e := env.engine(n);
            var interrupted := e.Some? && e.value.Interruption?;
            var cancelled := !interrupted && (env.cancelled(n) || e == Some(ContextError));
            && (StatusAt(env, n).Interrupted? <==> interrupted)
            && (StatusAt(env, n).Canceled? <==> cancelled)
            && (StatusAt(env, n).Completed? <==> !cancelled && e.None?)
            && (StatusAt(env, n).Aborted? <==> !cancelled && e == Some(Abort))
            && (StatusAt(env, n).Failed? <==> !cancelled && e == Some(Other))
  {
  }

  predicate Announced(env: Env, n: nat) {
    env.engine(n).Some? && env.engine(n).value.Interruption? && env.engine(n).value.structured
  }

  /** The log of one attempt whose board could be seeded. */
  function AttemptLog(env: Env, n: nat): seq<Event> {
    [Start] + if Announced(env, n) then [Interrupt] else []
  }

  /** Attempt n completed and its referees asked for another one. */
  ghost predicate WantsMore(env: Env, n: nat) {
    StatusAt(env, n).Completed? && !AnyRefusal(env.referees(n)) && Anyone(env.referees(n), REVISES)
  }

  /** The result's output counts after the referees: completed or accepted, and not discarded. */
  ghost predicate Upheld(env: Env, n: nat) {
    && (StatusAt(env, n).Completed? || Anyone(env.referees(n), ACCEPTS))
    && !Anyone(env.referees(n), DISCARDS)
  }

  method Attempt(env: Env, n: nat) returns (res: Option<Result>, decision: Option<Decision>, log: seq<Event>)
    ensures res.Some? <==> env.seeds(n)
    ensures res.None? ==> log == [] && decision.None?
    ensures res.Some? ==> log == AttemptLog(env, n) && res.value.attempts == n && res.value.status == StatusAt(env, n)
    ensures res.Some? ==> (decision.None? <==> AnyRefusal(env.referees(n)))
    ensures decision.Some? ==> Merges(env.referees(n), decision.value)
    ensures decision.Some? && res.Some? ==> (res.value.committed <==> Upheld(env, n)) && res.value.reason == decision.value.reason
  {
    if !env.seeds(n) {
      return None, None, [];
    }
    log := [Start];
    var err := env.engine(n);
    if env.cancelled(n) && !(err.Some? && err.value.Interruption?) {
      err := Some(ContextError);
    }
    var status := Completed;
    if err.Some? {
      match err.value
      case Interruption(structured) =>
        status := Interrupted;
        if structured { log := log + [Interrupt]; }
      case ContextError => status := Canceled;
      case Abort => status := Aborted;
      case Other => status := Failed;
    }
    var committed := status.Completed?;
    decision := ComposeReferees(env.referees(n));
    if decision.None? {
      return Some(Result(status, committed, n, "")), None, log;
    }
    if decision.value.accept { committed := true; }
    if decision.value.discard { committed := false; }
    res := Some(Result(status, committed, n, decision.value.reason));
  }

  // -------------------------------------------------------------- the end

  function Repeat(e: Event, n: nat): seq<Event> {
    if n == 0 then [] else Repeat(e, n - 1) + [e]
  }

  /** How many committers run: up to and including the first that fails. */
  ghost predicate RanCommitters(committers: seq<bool>, k: nat) {
    && k <= |committers| && (forall i :: 0 <= i < k - 1 ==> committers[i])
    && (k < |committers| ==> k > 0 && !committers[k - 1])
  }

  method CommitResult(committers: seq<bool>) returns (ok: bool, k: nat)
    ensures RanCommitters(committers, k)
    ensures ok <==> forall i :: 0 <= i < |committers| ==> committers[i]
    ensures ok ==> k == |committers|
  {
    for i := 0 to |committers|
      invariant forall j :: 0 <= j < i ==> committers[j]
    {
      if !committers[i] {
        return false, i + 1;
      }
    }
    return true, |committers|;
  }

  /** What it takes, after an upheld last attempt, for the result to be committed. */
  predicate CommitHolds(env: Env, status: Status) {
    && (env.cancelledAtEnd ==> status.Interrupted?)
    && !env.historyFails
    && (env.committers != [] ==> env.view != Some(false) && forall i :: 0 <= i < |env.committers| ==> env.committers[i])
  }

  method Finalize(env: Env, res: Result) returns (final: Result, failed: bool, k: nat)
    ensures final.attempts == res.attempts
    ensures final.committed <==> res.committed && CommitHolds(env, res.status)
    ensures final.status == if env.cancelledAtEnd && !res.status.Interrupted? then Canceled else res.status
    ensures k > 0 ==> res.committed && RanCommitters(env.committers, k)
    ensures final.committed ==> !failed && k == |env.committers|
    ensures failed ==> res.committed && !CommitHolds(env, res.status)
  {
    final, failed, k := res, false, 0;
    if env.cancelledAtEnd && !res.status.Interrupted? {
      final := res.(status := Canceled, committed := false);
    }
    if !final.committed {
      return;
    }
    if env.historyFails {
      final, failed := final.(committed := false, reason := "history_materialize_failed"), true;
      return;
    }
    if env.committers == [] {
      return;
    }
    if env.view == Some(false) {
      final, failed := final.(committed := false, reason := "commit_view_failed"), true;
      return;
    }
    var ok;
    ok, k := CommitResult(env.committers);
    if !ok {
      final, failed := final.(committed := false, reason := "commit_failed"), true;
    }
  }

  // -------------------------------------------------------------- the run

  /** m attempts that were revised away. */
  function Rounds(m: nat): seq<Event> {
    if m == 0 then [] else Rounds(m - 1) + [Start, Revise]
  }

  /** The whole log of a run that has a result. */
  function FullLog(env: Env, attempts: nat, k: nat): seq<Event>
    requires attempts > 0
  {
    Rounds(attempts - 1) + AttemptLog(env, attempts) + Repeat(Commit, k) + [End]
  }

  function Budget(maxRevise: int): nat {
    if maxRevise < 1 then 1 else maxRevise
  }

  /** Attempts 1 to m were all seeded and revised away. */
  ghost predicate Revised(env: Env, m: nat) {
    forall i :: 1 <= i <= m ==> env.seeds(i) && WantsMore(env, i)
  }

  /** After m attempts that were revised away the board cannot be seeded again. */
  ghost predicate SeedFailsAfter(env: Env, maxRevise: int, m: nat) {
    m < Budget(maxRevise) && Revised(env, m) && !env.seeds(m + 1)
  }

  /** A run that has a result, with exactly the log of its attempts, commits and end; attempts stop where revising stops. */
  ghost predicate Ended(env: Env, maxRevise: int, res: Result, failed: bool, k: nat, log: seq<Event>) {
    var n := res.attempts;
    && 1 <= n <= Budget(maxRevise) && env.seeds(n) && Revised(env, n - 1)
    && log == FullLog(env, n, k)
    && (n < Budget(maxRevise) ==> !WantsMore(env, n))
    && (res.committed ==> !failed && k == |env.committers|)
    && (res.committed <==> !AnyRefusal(env.referees(n)) && Upheld(env, n) && CommitHolds(env, StatusAt(env, n)))
    && (k > 0 ==> Upheld(env, n) && RanCommitters(env.committers, k))
  }

  /** A run without a result stopped at a board that could not be seeded, with no end in its log. */
  ghost predicate Abandoned(env: Env, maxRevise: int, failed: bool, log: seq<Event>) {
    failed && exists m :: SeedFailsAfter(env, maxRevise, m) && log == Rounds(m)
  }

  /**
   The revise loop and the finalize steps: the run ended, committed without error exactly
   when its last attempt is upheld and everything at the end holds, or it was abandoned.
   */
  method Execute(env: Env, maxRevise: int) returns (res: Option<Result>, failed: bool, k: nat, log: seq<Event>)
    ensures res.Some? ==> Ended(env, maxRevise, res.value, failed, k, log)
    ensures res.None? ==> Abandoned(env, maxRevise, failed, log)
  {
    var max := if maxRevise < 1 then 1 else maxRevise;
    log, k, failed := [], 0, false;
    var n := 1;
    while true
      invariant 1 <= n <= max && log == Rounds(n - 1) && Revised(env, n - 1)
      decreases max - n
    {
      var attempt, decision, events := Attempt(env, n);
      res := attempt;
      if attempt.None? {
        assert SeedFailsAfter(env, maxRevise, n - 1);
        return None, true, 0, log;
      }
      log := log + events;
      if decision.None? {
        res := Some(attempt.value.(committed := false, reason := "referee_failed"));
        log := log + [End];
        assert log == FullLog(env, n, 0);
        return res, true, 0, log;
      }
      if !decision.value.revise || !attempt.value.status.Completed? || n >= max {
        break;
      }
      assert !Announced(env, n);
      log := log + [Revise];
      assert log == Rounds(n);
      n := n + 1;
    }
    var final;
    final, failed, k := Finalize(env, res.value);
    log := log + Repeat(Commit, k);
    log := log + [End];
    res := Some(final);
  }

  // ----------------------------------------------------------- guarantees

  function Is(e: Event): Event -> bool {
    (x: Event) => x == e
  }

  function Count(log: seq<Event>, e: Event): nat {
    Tally(log, Is(e))
  }

  lemma {:induction false} CountRounds(m: nat, e: Event)
    ensures Count(Rounds(m), e) == if e.Start? || e.Revise? then m else 0
    decreases m
  {
    if m > 0 {
      CountRounds(m - 1, e);
      TallyJoin(Rounds(m - 1), [Start, Revise], Is(e));
      assert [Start, Revise][..1] == [Start] && [Start][..0] == [];
    }
  }

  lemma {:induction false} CountRepeat(x: Event, n: nat, e: Event)
    ensures Count(Repeat(x, n), e) == if e == x then n else 0
    decreases n
  {
    if n > 0 {
      CountRepeat(x, n - 1, e);
      TallyJoin(Repeat(x, n - 1), [x], Is(e));
      assert [x][..0] == [];
    }
  }

  lemma CountOne(x: Event, e: Event)
    ensures Count([x], e) == if x == e then 1 else 0
  {
    TallyOne([], x, Is(e));
    assert [] + [x] == [x];
  }

  /** Starts count the attempts, revises the attempts given up, an interrupt is told at most once, the end exactly once. */
  lemma FullLogCounts(env: Env, attempts: nat, k: nat)
    requires attempts > 0
    ensures Count(FullLog(env, attempts, k), Start) == attempts && Count(FullLog(env, attempts, k), Revise) == attempts - 1
    ensures Count(FullLog(env, attempts, k), Interrupt) == (if Announced(env, attempts) then 1 else 0)
    ensures Count(FullLog(env, attempts, k), Commit) == k && Count(FullLog(env, attempts, k), End) == 1
  {
    forall e: Event
      ensures Count(FullLog(env, attempts, k), e)
           == Count(Rounds(attempts - 1), e) + Count(AttemptLog(env, attempts), e) + Count(Repeat(Commit, k), e) + Count([End], e)
    {
      TallyJoin(Rounds(attempts - 1), AttemptLog(env, attempts), Is(e));
      TallyJoin(Rounds(attempts - 1) + AttemptLog(env, attempts), Repeat(Commit, k), Is(e));
      TallyJoin(Rounds(attempts - 1) + AttemptLog(env, attempts) + Repeat(Commit, k), [End], Is(e));
    }
    forall e: Event
      ensures Count(AttemptLog(env, attempts), e) == (if e.Start? then 1 else if e.Interrupt? && Announced(env, attempts) then 1 else 0)
      ensures Count([End], e) == if e.End? then 1 else 0
      ensures Count(Rounds(attempts - 1), e) == if e.Start? || e.Revise? then attempts - 1 else 0
      ensures Count(Repeat(Commit, k), e) == if e.Commit? then k else 0
    {
      CountRounds(attempts - 1, e);
      CountRepeat(Commit, k, e);
      CountOne(Start, e);
      CountOne(End, e);
      TallyOne([Start], Interrupt, Is(e));
      assert [Start] + [Interrupt] == [Start, Interrupt] && [Start] + [] == [Start];
      hide Tally;
    }
  }

  /** The attempts of a run are determined: two ways of stopping cannot both fit the environment. */
  lemma EndedOrSeedFails(env: Env, maxRevise: int, res: Result, failed: bool, k: nat, log: seq<Event>, m: nat)
    requires Ended(env, maxRevise, res, failed, k, log)
    ensures !SeedFailsAfter(env, maxRevise, m)
  {
    var n := res.attempts;
    assert Revised(env, m) && m >= n ==> WantsMore(env, n);
  }

  /** A run has no result exactly when some attempt it gets to cannot be seeded. */
  lemma ResultIff(env: Env, maxRevise: int, res: Option<Result>, failed: bool, k: nat, log: seq<Event>)
    requires res.Some? ==> Ended(env, maxRevise, res.value, failed, k, log)
    requires res.None? ==> Abandoned(env, maxRevise, failed, log)
    ensures res.None? <==> exists m :: SeedFailsAfter(env, maxRevise, m)
  {
    if res.Some? {
      forall m ensures !SeedFailsAfter(env, maxRevise, m) { EndedOrSeedFails(env, maxRevise, res.value, failed, k, log, m); }
    }
  }

  /**
   When observers who saw a run start also see it end: exactly once, unless the board
   cannot be seeded again after a revise, and then never.
   */
  lemma StartedRunEndsIff(env: Env, maxRevise: int, res: Option<Result>, failed: bool, k: nat, log: seq<Event>)
    requires res.Some? ==> Ended(env, maxRevise, res.value, failed, k, log)
    requires res.None? ==> Abandoned(env, maxRevise, failed, log)
    ensures Count(log, Start) > 0 <==> env.seeds(1)
    ensures Count(log, Start) > 0 ==> (Count(log, End) == 1 <==> !exists m :: m >= 1 && SeedFailsAfter(env, maxRevise, m))
    ensures Count(log, End) <= 1
  {
    hide Count, FullLog;
    ResultIff(env, maxRevise, res, failed, k, log);
    if res.Some? {
      FullLogCounts(env, res.value.attempts, k);
      assert res.value.attempts > 1 ==> env.seeds(1);
    } else {
      var m :| SeedFailsAfter(env, maxRevise, m) && log == Rounds(m);
      CountRounds(m, Start);
      CountRounds(m, End);
      assert m >= 1 ==> env.seeds(1);
    }
  }
}
