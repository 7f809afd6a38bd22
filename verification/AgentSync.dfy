/** Reconciling a runtime's dynamic agents with a declaration set, one pass at a time. */
module AgentSync {
  import opened Wrappers

  type Name = string
  type Rev = string
  type Def = string

  datatype Decl = Decl(name: Name, def: Def, rev: Rev)

  // --------------------------------------------------------- declarations

  predicate IsSpace(c: char) {
    c in [' ', '\t', '\n', '\r', '\U{000B}', '\U{000C}', '\U{0085}', '\U{00A0}', '\U{1680}', '\U{2028}', '\U{2029}', '\U{202F}', '\U{205F}', '\U{3000}']
    || '\U{2000}' <= c <= '\U{200A}'
  }

  predicate Blank(s: string) {
    forall c :: c in s ==> IsSpace(c)
  }

  /** Names and revisions are given, and no name twice. */
  ghost predicate WellFormed(decls: seq<Decl>) {
    && (forall i :: 0 <= i < |decls| ==> !Blank(decls[i].name) && !Blank(decls[i].rev))
    && (forall i, j :: 0 <= i < j < |decls| ==> decls[i].name != decls[j].name)
  }

  /** Accepts exactly the well-formed sets, indexed by name. */
  method CheckDecls(decls: seq<Decl>) returns (declared: Option<map<Name, Decl>>)
    ensures declared.Some? <==> WellFormed(decls)
    ensures declared.Some? ==> forall d :: d in decls <==> d.name in declared.value && declared.value[d.name] == d
    ensures declared.Some? ==> forall n :: n in declared.value ==> declared.value[n].name == n
  {
    var m: map<Name, Decl> := map[];
    for i := 0 to |decls|
      invariant WellFormed(decls[..i])
      invariant forall d :: d in decls[..i] <==> d.name in m && m[d.name] == d
      invariant forall n :: n in m ==> m[n].name == n
    {
      var d := decls[i];
      assert decls[..i + 1] == decls[..i] + [d];
      if Blank(d.name) || Blank(d.rev) {
        return None;
      }
      if d.name in m {
        var k :| 0 <= k < i && decls[..i][k] == m[d.name];
        assert decls[k].name == decls[i].name;
        return None;
      }
      m := m[d.name := d];
    }
    assert decls[..|decls|] == decls;
    declared := Some(m);
  }

  // ------------------------------------------------- one name, one pass

  /** One name before or after a pass: the agent live under it and the revision recorded for it. */
  datatype Entry = Entry(agent: Option<Def>, record: Option<Rev>)

  datatype Result = Untouched | Forgotten | Removed | Registered | Updated | Failed

  /** What the runtime would answer for this name. */
  datatype Answers = Answers(removeFails: bool, registerFails: bool)

  function Dropped(e: Entry, ans: Answers): (Entry, Result) {
    if e.agent.None? then (e.(record := None), Forgotten)
    else if ans.removeFails then (e, Failed)
    else (Entry(None, None), Removed)
  }

  function Upserted(e: Entry, d: Decl, ans: Answers): (Entry, Result) {
    if e.record == Some(d.rev) && e.agent.Some? then (e, Untouched)
    else if e.agent.Some? && ans.removeFails then (e, Failed)
    else
      var cleared := if e.agent.Some? then Entry(None, None) else e;
      if ans.registerFails then (cleared, Failed)
      else (Entry(Some(d.def), Some(d.rev)), if e.agent.Some? then Updated else Registered)
  }

  /** Names that are neither recorded nor declared are left alone. */
  function Passed(e: Entry, d: Option<Decl>, ans: Answers): (Entry, Result) {
    if d.Some? then Upserted(e, d.value, ans)
    else if e.record.Some? then Dropped(e, ans)
    else (e, Untouched)
  }

  predicate Calls(r: Result) {
    !r.Untouched? && !r.Forgotten?
  }

  /** After a pass a declared name is live with its revision recorded, or it is reported as an error. */
  lemma DeclaredIsAppliedOrFailed(e: Entry, d: Decl, ans: Answers)
    ensures var (e', r) := Passed(e, Some(d), ans);
            && (!r.Failed? ==> e'.agent.Some? && e'.record == Some(d.rev))
            && (r.Registered? || r.Updated? ==> e'.agent == Some(d.def))
            && (r.Updated? ==> e.agent.Some?) && (r.Registered? ==> e.agent.None?)
  {
  }

  /** A name the set dropped is gone from runtime and records, or reported and kept for the next pass. */
  lemma DroppedIsGoneOrFailed(e: Entry, ans: Answers)
    requires e.record.Some?
    ensures var (e', r) := Passed(e, None, ans);
            if r.Failed? then e' == e && e.agent.Some? else e' == Entry(None, None)
  {
  }

  /** A name without error needs nothing in the next pass over the same declarations, whatever the runtime would answer. */
  lemma SecondPassIsQuiet(e: Entry, d: Option<Decl>, ans: Answers, again: Answers)
    requires !Passed(e, d, ans).1.Failed?
    ensures var e' := Passed(e, d, ans).0; Passed(e', d, again) == (e', Untouched)
  {
  }

  // --------------------------------------------------------------- a pass

  datatype Report = Report(registered: seq<Name>, updated: seq<Name>, removed: seq<Name>, errors: seq<Name>)

  /** The name appears in the list for its result and in no other. */
  predicate Listed(report: Report, n: Name, r: Result) {
    && (n in report.registered <==> r.Registered?)
    && (n in report.updated <==> r.Updated?)
    && (n in report.removed <==> r.Removed?)
    && (n in report.errors <==> r.Failed?)
  }

  function Noted(report: Report, n: Name, r: Result): Report {
    match r
    case Registered => report.(registered := report.registered + [n])
    case Updated => report.(updated := report.updated + [n])
    case Removed => report.(removed := report.removed + [n])
    case Failed => report.(errors := report.errors + [n])
    case _ => report
  }

  lemma NotedIsListed(report: Report, n: Name, r: Result, m: Name, rm: Result)
    requires if m == n then Listed(report, n, Untouched) else Listed(report, m, rm)
    ensures Listed(Noted(report, n, r), m, if m == n then r else rm)
  {
  }

  function DeclOf(declared: map<Name, Decl>, n: Name): Option<Decl> {
    if n in declared then Some(declared[n]) else None
  }

  /** Agents, records and the number of runtime calls at one moment. */
  datatype Book = Book(live: map<Name, Def>, records: map<Name, Rev>, calls: nat)

  function EntryIn(b: Book, n: Name): Entry {
    Entry(if n in b.live then Some(b.live[n]) else None, if n in b.records then Some(b.records[n]) else None)
  }

  /** One name went through its step; every other is as it was. */
  ghost predicate OneName(b: Book, b': Book, n: Name, out: (Entry, Result), report: Report, report': Report) {
    && EntryIn(b', n) == out.0 && report' == Noted(report, n, out.1)
    && (forall m :: m != n ==> EntryIn(b', m) == EntryIn(b, m))
    && (if Calls(out.1) then b'.calls > b.calls else b'.calls == b.calls)
  }

  /** How far a pass got with a name: recorded names are dropped first, then declared names applied. */
  function Reached(b0: Book, declared: map<Name, Decl>, answers: Name -> Answers, done: set<Name>, n: Name): (Entry, Result) {
    if n in done then Passed(EntryIn(b0, n), DeclOf(declared, n), answers(n)) else (EntryIn(b0, n), Untouched)
  }

  ghost predicate Midway(b0: Book, b: Book, declared: map<Name, Decl>, answers: Name -> Answers, done: set<Name>, report: Report) {
    && (forall n :: EntryIn(b, n) == Reached(b0, declared, answers, done, n).0)
    && (forall n :: Listed(report, n, Reached(b0, declared, answers, done, n).1))
    && b.calls >= b0.calls
    && (b.calls == b0.calls <==> forall n :: n in done ==> !Calls(Reached(b0, declared, answers, done, n).1))
  }

  lemma MidwayStep(b0: Book, b: Book, declared: map<Name, Decl>, answers: Name -> Answers, done: set<Name>, report: Report,
                   n: Name, b': Book, report': Report)
    requires Midway(b0, b, declared, answers, done, report) && n !in done
    requires OneName(b, b', n, Passed(EntryIn(b0, n), DeclOf(declared, n), answers(n)), report, report')
    ensures Midway(b0, b', declared, answers, done + {n}, report')
  {
    hide Passed, EntryIn, Noted, Listed, Calls;
    var done' := done + {n};
    forall m
      ensures EntryIn(b', m) == Reached(b0, declared, answers, done', m).0
      ensures Listed(report', m, Reached(b0, declared, answers, done', m).1)
    {
      var rm := Reached(b0, declared, answers, done, m);
      assert Listed(report, m, rm.1) && EntryIn(b, m) == rm.0;
      NotedIsListed(report, n, Reached(b0, declared, answers, done', n).1, m, rm.1);
    }
    assert forall m :: m in done ==> Reached(b0, declared, answers, done', m) == Reached(b0, declared, answers, done, m);
  }

  /** What a finished pass did to every name. */
  ghost predicate PassDone(b0: Book, b: Book, declared: map<Name, Decl>, answers: Name -> Answers, report: Report) {
    && (forall n :: EntryIn(b, n) == Passed(EntryIn(b0, n), DeclOf(declared, n), answers(n)).0)
    && (forall n :: Listed(report, n, Passed(EntryIn(b0, n), DeclOf(declared, n), answers(n)).1))
    && (b.calls == b0.calls <==> forall n :: !Calls(Passed(EntryIn(b0, n), DeclOf(declared, n), answers(n)).1))
  }

  lemma MidwayEnds(b0: Book, b: Book, declared: map<Name, Decl>, answers: Name -> Answers, done: set<Name>, report: Report)
    requires Midway(b0, b, declared, answers, done, report) && done == b0.records.Keys + declared.Keys
    ensures PassDone(b0, b, declared, answers, report)
  {
    forall n
      ensures Reached(b0, declared, answers, done, n) == Passed(EntryIn(b0, n), DeclOf(declared, n), answers(n))
      ensures n !in done ==> !Calls(Passed(EntryIn(b0, n), DeclOf(declared, n), answers(n)).1)
    {
    }
    hide Passed, EntryIn, Listed, Calls, Reached;
  }

  /** The runtime's dynamic agents, the coordinator's records of what it applied, and how often the runtime was called. */
  class Coordinator {
    var live: map<Name, Def>
    var records: map<Name, Rev>
    var calls: nat

    constructor ()
      ensures live == map[] && records == map[] && calls == 0
    {
      live, records, calls := map[], map[], 0;
    }

    function Now(): Book
      reads this
    {
      Book(live, records, calls)
    }

    function At(n: Name): Entry
      reads this
    {
      EntryIn(Now(), n)
    }

    method Unregister(n: Name, fails: bool) returns (ok: bool)
      requires n in live
      modifies this`live, this`calls
      ensures ok == !fails && calls == old(calls) + 1
      ensures live == if ok then old(live) - {n} else old(live)
    {
      calls := calls + 1;
      ok := !fails;
      if ok {
        live := live - {n};
      }
    }

    method Register(n: Name, def: Def, fails: bool) returns (ok: bool)
      requires n !in live
      modifies this`live, this`calls
      ensures ok == !fails && calls == old(calls) + 1
      ensures live == if ok then old(live)[n := def] else old(live)
    {
      calls := calls + 1;
      ok := !fails;
      if ok {
        live := live[n := def];
      }
    }

    /** The removal of one recorded name the set dropped. */
    method Drop(n: Name, ans: Answers, report: Report) returns (report': Report)
      requires n in records
      modifies this
      ensures OneName(old(Now()), Now(), n, Dropped(old(At(n)), ans), report, report')
    {
      report' := report;
      if n !in live {
        records := records - {n};
        return;
      }
      var ok := Unregister(n, ans.removeFails);
      if !ok {
        report' := report.(errors := report.errors + [n]);
        return;
      }
      records := records - {n};
      report' := report.(removed := report.removed + [n]);
    }

    /** One declaration: unchanged, replaced or registered. */
    method Upsert(n: Name, d: Decl, ans: Answers, report: Report) returns (report': Report)
      modifies this
      ensures OneName(old(Now()), Now(), n, Upserted(old(At(n)), d, ans), report, report')
    {
      report' := report;
      if n in records && records[n] == d.rev && n in live {
        return;
      }
      var replaced := false;
      if n in live {
        var ok := Unregister(n, ans.removeFails);
        if !ok {
          report' := report.(errors := report.errors + [n]);
          return;
        }
        records := records - {n};
        replaced := true;
      }
      var ok := Register(n, d.def, ans.registerFails);
      if !ok {
        report' := report.(errors := report.errors + [n]);
        return;
      }
      records := records[n := d.rev];
      if replaced {
        report' := report.(updated := report.updated + [n]);
      } else {
        report' := report.(registered := report.registered + [n]);
      }
    }

    /** One pass: removals first, then the declarations, a failure stopping only its own name. */
    method Sync(declared: map<Name, Decl>, answers: Name -> Answers) returns (report: Report)
      modifies this
      ensures PassDone(old(Now()), Now(), declared, answers, report)
    {
      hide Midway, OneName, PassDone;
      ghost var b0 := Now();
      report := Report([], [], [], []);
      var removed := records.Keys - declared.Keys;
      MidwayBegins(b0, declared, answers);
      var done: set<Name> := {};
      while done != removed
        invariant done <= removed && Midway(b0, Now(), declared, answers, done, report)
        decreases removed - done
      {
        var n :| n in removed && n !in done;
        ghost var b, r := Now(), report;
        MidwayUntouched(b0, b, declared, answers, done, report, n);
        report := Drop(n, answers(n), report);
        MidwayStep(b0, b, declared, answers, done, r, n, Now(), report);
        done := done + {n};
      }
      var names: set<Name> := {};
      assert removed + names == removed;
      while names != declared.Keys
        invariant names <= declared.Keys && Midway(b0, Now(), declared, answers, removed + names, report)
        decreases declared.Keys - names
      {
        var n :| n in declared.Keys && n !in names;
        ghost var b, r := Now(), report;
        MidwayUntouched(b0, b, declared, answers, removed + names, report, n);
        report := Upsert(n, declared[n], answers(n), report);
        MidwayStep(b0, b, declared, answers, removed + names, r, n, Now(), report);
        names := names + {n};
        assert removed + names == removed + (names - {n}) + {n};
      }
      assert removed + names == b0.records.Keys + declared.Keys;
      MidwayEnds(b0, Now(), declared, answers, removed + names, report);
    }
  }

  lemma MidwayBegins(b0: Book, declared: map<Name, Decl>, answers: Name -> Answers)
    ensures Midway(b0, b0, declared, answers, {}, Report([], [], [], []))
  {
  }

  lemma MidwayUntouched(b0: Book, b: Book, declared: map<Name, Decl>, answers: Name -> Answers, done: set<Name>, report: Report, n: Name)
    requires Midway(b0, b, declared, answers, done, report) && n !in done
    ensures EntryIn(b, n) == EntryIn(b0, n)
  {
    assert EntryIn(b, n) == Reached(b0, declared, answers, done, n).0;
  }

  // ----------------------------------------------------------- guarantees

  /** A pass leaves agents it neither declares nor recorded alone. */
  lemma StrangersAreUntouched(b0: Book, b: Book, declared: map<Name, Decl>, answers: Name -> Answers, report: Report, n: Name)
    requires PassDone(b0, b, declared, answers, report) && n !in declared && n !in b0.records
    ensures EntryIn(b, n) == EntryIn(b0, n) && n !in report.errors + report.registered + report.updated + report.removed
  {
    assert EntryIn(b, n) == Passed(EntryIn(b0, n), DeclOf(declared, n), answers(n)).0;
    assert Listed(report, n, Passed(EntryIn(b0, n), DeclOf(declared, n), answers(n)).1);
  }

  /** Every declared name is live with its revision recorded, or in the error list. */
  lemma DeclaredIsLiveOrReported(b0: Book, b: Book, declared: map<Name, Decl>, answers: Name -> Answers, report: Report, n: Name)
    requires PassDone(b0, b, declared, answers, report) && n in declared
    ensures n in report.errors || (n in b.live && n in b.records && b.records[n] == declared[n].rev)
    ensures n in report.registered || n in report.updated ==> n in b.live && b.live[n] == declared[n].def
  {
    assert EntryIn(b, n) == Passed(EntryIn(b0, n), DeclOf(declared, n), answers(n)).0;
    assert Listed(report, n, Passed(EntryIn(b0, n), DeclOf(declared, n), answers(n)).1);
    DeclaredIsAppliedOrFailed(EntryIn(b0, n), declared[n], answers(n));
  }

  /** A recorded name the set dropped is gone from runtime and records, or reported and left as it was for the next pass. */
  lemma DroppedIsGoneOrReported(b0: Book, b: Book, declared: map<Name, Decl>, answers: Name -> Answers, report: Report, n: Name)
    requires PassDone(b0, b, declared, answers, report) && n !in declared && n in b0.records
    ensures if n in report.errors then EntryIn(b, n) == EntryIn(b0, n) && n in b.live else n !in b.live && n !in b.records
  {
    assert EntryIn(b, n) == Passed(EntryIn(b0, n), DeclOf(declared, n), answers(n)).0;
    assert Listed(report, n, Passed(EntryIn(b0, n), DeclOf(declared, n), answers(n)).1);
    DroppedIsGoneOrFailed(EntryIn(b0, n), answers(n));
  }

  /** Exactly when a name is reported under each heading, by what was live and recorded before the pass and what the runtime answered. */
  lemma ReportedIff(b0: Book, b: Book, declared: map<Name, Decl>, answers: Name -> Answers, report: Report, n: Name)
    requires PassDone(b0, b, declared, answers, report)
    ensures var live, recorded := n in b0.live, n in b0.records;
            var current := n in declared && live && recorded && b0.records[n] == declared[n].rev;
            var stale := n in declared && !current;
            var gone := n !in declared && recorded;
            var stuck := live && answers(n).removeFails;
            && (n in report.registered <==> stale && !live && !answers(n).registerFails)
            && (n in report.updated <==> stale && live && !stuck && !answers(n).registerFails)
            && (n in report.removed <==> gone && live && !stuck)
            && (n in report.errors <==> (stale && (stuck || answers(n).registerFails)) || (gone && stuck))
            && (current || (n !in declared && !recorded) || stuck ==> EntryIn(b, n) == EntryIn(b0, n))
            && (stale && live && !stuck && answers(n).registerFails ==> EntryIn(b, n) == Entry(None, None))
  {
    assert EntryIn(b, n) == Passed(EntryIn(b0, n), DeclOf(declared, n), answers(n)).0;
    assert Listed(report, n, Passed(EntryIn(b0, n), DeclOf(declared, n), answers(n)).1);
  }

  function Revs(declared: map<Name, Decl>): map<Name, Rev> {
    map n | n in declared :: declared[n].rev
  }

  /** A pass without errors leaves the records equal to the declarations. */
  lemma CleanPassRecordsDeclarations(b0: Book, b: Book, declared: map<Name, Decl>, answers: Name -> Answers, report: Report)
    requires PassDone(b0, b, declared, answers, report) && report.errors == []
    ensures b.records == Revs(declared) && declared.Keys <= b.live.Keys
  {
    forall n
      ensures n in b.records <==> n in declared
      ensures n in declared ==> n in b.live && n in b.records && b.records[n] == declared[n].rev
    {
      assert EntryIn(b, n) == Passed(EntryIn(b0, n), DeclOf(declared, n), answers(n)).0;
      assert Listed(report, n, Passed(EntryIn(b0, n), DeclOf(declared, n), answers(n)).1);
      assert n !in report.errors;
    }
    hide PassDone;
    assert b.records.Keys == declared.Keys;
  }

  /** A repeated pass after one without errors makes no call and changes nothing, whatever the runtime would answer. */
  lemma RepeatPassMakesNoCalls(b0: Book, b: Book, b': Book, declared: map<Name, Decl>, answers: Name -> Answers, again: Name -> Answers,
                               report: Report, report': Report)
    requires PassDone(b0, b, declared, answers, report) && report.errors == []
    requires PassDone(b, b', declared, again, report')
    ensures b'.calls == b.calls && b'.records == b.records && report' == Report([], [], [], [])
  {
    forall n
      ensures Passed(EntryIn(b, n), DeclOf(declared, n), again(n)) == (EntryIn(b, n), Untouched)
      ensures Listed(report', n, Untouched) && EntryIn(b', n) == EntryIn(b, n)
    {
      assert EntryIn(b, n) == Passed(EntryIn(b0, n), DeclOf(declared, n), answers(n)).0;
      assert Listed(report, n, Passed(EntryIn(b0, n), DeclOf(declared, n), answers(n)).1);
      assert n !in report.errors;
      SecondPassIsQuiet(EntryIn(b0, n), DeclOf(declared, n), answers(n), again(n));
      assert EntryIn(b', n) == Passed(EntryIn(b, n), DeclOf(declared, n), again(n)).0;
      assert Listed(report', n, Passed(EntryIn(b, n), DeclOf(declared, n), again(n)).1);
    }
    hide PassDone, Passed;
    EmptyLists(report');
    SameRecords(b, b');
  }

  lemma EmptyLists(report: Report)
    requires forall n :: Listed(report, n, Untouched)
    ensures report == Report([], [], [], [])
  {
    assert report.registered != [] ==> Listed(report, report.registered[0], Untouched);
    assert report.updated != [] ==> Listed(report, report.updated[0], Untouched);
    assert report.removed != [] ==> Listed(report, report.removed[0], Untouched);
    assert report.errors != [] ==> Listed(report, report.errors[0], Untouched);
  }

  lemma SameRecords(b: Book, b': Book)
    requires forall n :: EntryIn(b', n) == EntryIn(b, n)
    ensures b'.records == b.records
  {
    forall n
      ensures n in b'.records <==> n in b.records
      ensures n in b.records ==> b'.records[n] == b.records[n]
    {
      assert EntryIn(b', n) == EntryIn(b, n);
    }
  }
}
