/** The job ledger and the payout reconciler that compares it with the chain. */
module Reconciler {
  import opened Wrappers
  import opened Registry
  import opened Recovery
  import opened RecoveryProof
  import opened JobQueue

  /** What one `getJob` gives: an error, no such job, or the job. */
  datatype Lookup = RpcError(message: string) | Missing | Found(job: Job)

  datatype Outcome = Clean | Discrepancy | NotFound

  datatype SeenStatus = Absent | Unknown | Is(status: Status)

  datatype Result = Result(
    jobId: string,
    outcome: Outcome,
    expectedFee: int,
    onChainFee: Option<int>,
    onChainStatus: SeenStatus,
    submittedTx: string)

  datatype Range = Range(fromMs: int, toMs: int)

  datatype Report = Report(
    runAt: int,
    coveredRange: Option<Range>,
    totalChecked: nat,
    cleanCount: nat,
    discrepancyCount: nat,
    notFoundCount: nat,
    summaryClean: bool,
    discrepancies: seq<Result>)

  type Ledger = map<JobId, LedgerEntry>

  /** Entries are kept under their lower-cased id. */
  predicate Keyed(ledger: Ledger) {
    forall j :: j in ledger ==> Lower(ledger[j].jobId) == j
  }

  // ---- One entry --------------------------------------------------------------------------

  /** The comparison of one entry with its lookup. */
  function Judge(e: LedgerEntry, seen: Lookup): (r: Result)
    ensures r.outcome.Clean? <==> seen.Found? && seen.job.fee == e.expectedFee && seen.job.status.Submitted?
    ensures r.outcome.NotFound? <==> seen.Missing?
    ensures r.jobId == e.jobId
  {
    match seen
    case RpcError(_) => Result(e.jobId, Discrepancy, e.expectedFee, None, Unknown, e.submittedTx)
    case Missing => Result(e.jobId, NotFound, e.expectedFee, None, Absent, e.submittedTx)
    case Found(job) =>
      Result(e.jobId, if job.fee == e.expectedFee && job.status.Submitted? then Clean else Discrepancy,
             e.expectedFee, Some(job.fee), Is(job.status), e.submittedTx)
  }

  function OutcomeOf(ledger: Ledger, answers: string -> Lookup, j: JobId): Outcome
    requires j in ledger
  {
    Judge(ledger[j], answers(ledger[j].jobId)).outcome
  }

  // ---- One pass ---------------------------------------------------------------------------

  function With(ledger: Ledger, answers: string -> Lookup, js: set<JobId>, o: Outcome): set<JobId>
    requires js <= ledger.Keys
  {
    set j | j in js && OutcomeOf(ledger, answers, j) == o
  }

  function Select(rs: seq<Result>, o: Outcome): seq<Result> {
    if rs == [] then []
    else Select(rs[..|rs| - 1], o) + (if rs[|rs| - 1].outcome == o then [rs[|rs| - 1]] else [])
  }

  function Unclean(rs: seq<Result>): seq<Result> {
    if rs == [] then []
    else Unclean(rs[..|rs| - 1]) + (if rs[|rs| - 1].outcome != Clean then [rs[|rs| - 1]] else [])
  }

  lemma {:induction false} SelectSnoc(rs: seq<Result>, r: Result, o: Outcome)
    ensures Select(rs + [r], o) == Select(rs, o) + if r.outcome == o then [r] else []
    ensures Unclean(rs + [r]) == Unclean(rs) + if r.outcome != Clean then [r] else []
  {
    assert (rs + [r])[..|rs|] == rs;
  }

  lemma {:induction false} UncleanIsRest(rs: seq<Result>)
    ensures |Unclean(rs)| == |Select(rs, Discrepancy)| + |Select(rs, NotFound)|
    ensures |rs| == |Select(rs, Clean)| + |Unclean(rs)|
    decreases |rs|
  {
    if rs != [] {
      UncleanIsRest(rs[..|rs| - 1]);
    }
  }

  /** The results of the jobs `js`, one each, and nothing else. */
  ghost predicate Covers(ledger: Ledger, answers: string -> Lookup, js: set<JobId>, rs: seq<Result>)
    requires js <= ledger.Keys
  {
    && |rs| == |js|
    && (forall o :: |Select(rs, o)| == |With(ledger, answers, js, o)|)
    && (forall r :: r in Unclean(rs) ==> exists j :: j in js && r == Judge(ledger[j], answers(ledger[j].jobId)))
    && (forall j :: j in js && OutcomeOf(ledger, answers, j) != Clean ==>
          Judge(ledger[j], answers(ledger[j].jobId)) in Unclean(rs))
  }

  lemma {:induction false} CountMore(
    ledger: Ledger, answers: string -> Lookup, js: set<JobId>, rs: seq<Result>, k: JobId, o: Outcome)
    requires js <= ledger.Keys && k in ledger && k !in js && |Select(rs, o)| == |With(ledger, answers, js, o)|
    ensures |Select(rs + [Judge(ledger[k], answers(ledger[k].jobId))], o)| == |With(ledger, answers, js + {k}, o)|
  {
    SelectSnoc(rs, Judge(ledger[k], answers(ledger[k].jobId)), o);
    WithMore(ledger, answers, js, k, o);
  }

  lemma WithMore(ledger: Ledger, answers: string -> Lookup, js: set<JobId>, k: JobId, o: Outcome)
    requires js <= ledger.Keys && k in ledger && k !in js
    ensures |With(ledger, answers, js + {k}, o)|
         == |With(ledger, answers, js, o)| + if OutcomeOf(ledger, answers, k) == o then 1 else 0
  {
    var w := With(ledger, answers, js, o);
    var one := if OutcomeOf(ledger, answers, k) == o then {k} else {};
    WithSplits(ledger, answers, js, k, o, one);
    assert |w + one| == |w| + |one|;
  }

  lemma WithSplits(ledger: Ledger, answers: string -> Lookup, js: set<JobId>, k: JobId, o: Outcome, one: set<JobId>)
    requires js <= ledger.Keys && k in ledger
    requires one == if OutcomeOf(ledger, answers, k) == o then {k} else {}
    ensures With(ledger, answers, js + {k}, o) == With(ledger, answers, js, o) + one
  {
  }

  lemma {:induction false} ListMore(
    ledger: Ledger, answers: string -> Lookup, js: set<JobId>, rs: seq<Result>, k: JobId, x: Result)
    requires js <= ledger.Keys && Covers(ledger, answers, js, rs) && k in ledger
    requires x in Unclean(rs + [Judge(ledger[k], answers(ledger[k].jobId))])
    ensures exists j :: j in js + {k} && x == Judge(ledger[j], answers(ledger[j].jobId))
  {
    var r := Judge(ledger[k], answers(ledger[k].jobId));
    SelectSnoc(rs, r, Clean);
    if x == r {
      assert k in js + {k};
    } else {
      var j :| j in js && x == Judge(ledger[j], answers(ledger[j].jobId));
      assert j in js + {k};
    }
  }

  lemma {:induction false} CoversMore(
    ledger: Ledger, answers: string -> Lookup, js: set<JobId>, rs: seq<Result>, k: JobId)
    requires js <= ledger.Keys && Covers(ledger, answers, js, rs) && k in ledger && k !in js
    ensures Covers(ledger, answers, js + {k}, rs + [Judge(ledger[k], answers(ledger[k].jobId))])
  {
    var r := Judge(ledger[k], answers(ledger[k].jobId));
    forall o
      ensures |Select(rs + [r], o)| == |With(ledger, answers, js + {k}, o)|
    {
      CountMore(ledger, answers, js, rs, k, o);
    }
    forall x | x in Unclean(rs + [r])
      ensures exists j :: j in js + {k} && x == Judge(ledger[j], answers(ledger[j].jobId))
    {
      ListMore(ledger, answers, js, rs, k, x);
    }
    SelectSnoc(rs, r, Clean);
  }

  /** A report on a whole ledger: it counts every entry once, lists exactly the entries that are
      not clean, each once, and spans the submit times. */
  ghost predicate Reports(ledger: Ledger, answers: string -> Lookup, r: Report) {
    && r.totalChecked == |ledger| == r.cleanCount + r.discrepancyCount + r.notFoundCount
    && r.cleanCount == |With(ledger, answers, ledger.Keys, Clean)|
    && r.discrepancyCount == |With(ledger, answers, ledger.Keys, Discrepancy)|
    && r.notFoundCount == |With(ledger, answers, ledger.Keys, NotFound)|
    && |r.discrepancies| == r.discrepancyCount + r.notFoundCount
    && (forall d :: d in r.discrepancies ==>
          exists j :: j in ledger && d == Judge(ledger[j], answers(ledger[j].jobId)) && d.outcome != Clean)
    && (forall j :: j in ledger && OutcomeOf(ledger, answers, j) != Clean ==>
          Judge(ledger[j], answers(ledger[j].jobId)) in r.discrepancies)
    && (r.summaryClean <==> forall j :: j in ledger ==> OutcomeOf(ledger, answers, j) == Clean)
    && (r.coveredRange.None? <==> ledger == map[])
    && (r.coveredRange.Some? ==> Spans(ledger, ledger.Keys, r.coveredRange.value))
  }

  ghost predicate Spans(ledger: Ledger, js: set<JobId>, range: Range)
    requires js <= ledger.Keys
  {
    && (forall j :: j in js ==> range.fromMs <= ledger[j].submittedAt <= range.toMs)
    && (exists j :: j in js && ledger[j].submittedAt == range.fromMs)
    && (exists j :: j in js && ledger[j].submittedAt == range.toMs)
  }

  lemma {:induction false} UncleanOutcomes(rs: seq<Result>)
    ensures forall r :: r in Unclean(rs) ==> r.outcome != Clean
    decreases |rs|
  {
    if rs != [] {
      UncleanOutcomes(rs[..|rs| - 1]);
    }
  }

  lemma {:induction false} CoveredReports(ledger: Ledger, answers: string -> Lookup, rs: seq<Result>, r: Report)
    requires Covers(ledger, answers, ledger.Keys, rs)
    requires r.coveredRange.None? <==> ledger == map[]
    requires r.coveredRange.Some? ==> Spans(ledger, ledger.Keys, r.coveredRange.value)
    requires r == Report(r.runAt, r.coveredRange, |rs|, |Select(rs, Clean)|, |Select(rs, Discrepancy)|,
                         |Select(rs, NotFound)|, |Unclean(rs)| == 0, Unclean(rs))
    ensures Reports(ledger, answers, r)
  {
    UncleanIsRest(rs);
    UncleanOutcomes(rs);
    assert |ledger| == |ledger.Keys|;
    if Unclean(rs) != [] {
      var d := Unclean(rs)[0];
      assert d in Unclean(rs);
    }
  }

  lemma CoversNone(ledger: Ledger, answers: string -> Lookup)
    ensures Covers(ledger, answers, {}, [])
  {
    forall o
      ensures |Select([], o)| == |With(ledger, answers, {}, o)|
    {
      assert With(ledger, answers, {}, o) == {};
    }
  }

  /** The loop of `reconcile`. */
  method CheckAll(ledger: Ledger, answers: string -> Lookup) returns (results: seq<Result>)
    ensures Covers(ledger, answers, ledger.Keys, results)
  {
    results := [];
    var todo := ledger.Keys;
    ghost var done: set<JobId> := {};
    CoversNone(ledger, answers);
    while todo != {}
      invariant done + todo == ledger.Keys && done !! todo
      invariant Covers(ledger, answers, done, results)
    {
      var k :| k in todo;
      CoversMore(ledger, answers, done, results, k);
      results := results + [Judge(ledger[k], answers(ledger[k].jobId))];
      todo, done := todo - {k}, done + {k};
    }
    assert done == ledger.Keys;
  }

  /** The earliest and the latest submit time. */
  method CoveredRange(ledger: Ledger) returns (range: Option<Range>)
    ensures range.None? <==> ledger == map[]
    ensures range.Some? ==> Spans(ledger, ledger.Keys, range.value)
  {
    range := None;
    var todo := ledger.Keys;
    ghost var done: set<JobId> := {};
    while todo != {}
      invariant done + todo == ledger.Keys && done !! todo
      invariant range.None? <==> done == {}
      invariant range.Some? ==> Spans(ledger, done, range.value)
    {
      var k :| k in todo;
      WidenSpans(ledger, done, range, k);
      range := Some(Widen(range, ledger[k].submittedAt));
      todo, done := todo - {k}, done + {k};
    }
    assert done == ledger.Keys;
  }

  class JobLedger {
    var entries: Ledger
    var stored: Ledger
    var loaded: bool

    constructor (saved: Ledger)
      requires Keyed(saved)
      ensures entries == map[] && stored == saved && !loaded
    {
      entries, stored, loaded := map[], saved, false;
    }

    /** `record`: the last entry under an id wins. */
    method Record(e: LedgerEntry)
      modifies this
      ensures entries == old(entries)[Lower(e.jobId) := e] && stored == entries && loaded == old(loaded)
      ensures old(Keyed(entries)) ==> Keyed(entries)
    {
      entries := entries[Lower(e.jobId) := e];
      stored := entries;
    }

    /** `remove`. */
    method Remove(jobId: string)
      modifies this
      ensures entries == old(entries) - {Lower(jobId)} && stored == entries && loaded == old(loaded)
    {
      entries := entries - {Lower(jobId)};
      stored := entries;
    }

    /** `hydrate`. */
    method Hydrate()
      modifies this
      ensures loaded && stored == old(stored)
      ensures entries == if old(loaded) then old(entries) else old(entries) + stored
    {
      if loaded {
        return;
      }
      loaded := true;
      entries := entries + stored;
    }
  }

  class PayoutReconciler {
    const ledger: JobLedger
    var lastReport: Option<Report>
    var runCount: nat

    constructor (l: JobLedger)
      ensures ledger == l && lastReport == None && runCount == 0
    {
      ledger, lastReport, runCount := l, None, 0;
    }

    /** `reconcile`: `answers` is what the lookups of this pass return. */
    method Reconcile(answers: string -> Lookup, now: int) returns (report: Report)
      modifies this
      ensures Reports(ledger.entries, answers, report) && report.runAt == now
      ensures lastReport == Some(report) && runCount == old(runCount) + 1
    {
      var results := CheckAll(ledger.entries, answers);
      var range := CoveredRange(ledger.entries);
      report := Report(now, range, |results|, |Select(results, Clean)|, |Select(results, Discrepancy)|,
                       |Select(results, NotFound)|, |Unclean(results)| == 0, Unclean(results));
      CoveredReports(ledger.entries, answers, results, report);
      lastReport := Some(report);
      runCount := runCount + 1;
    }

    /** `verifyOnBoot`, hydrated before or not: the ledger keeps every entry but those confirmed
        not found, and saves exactly if it lost one; a failed lookup removes nothing. */
    method VerifyOnBoot(answers: string -> Lookup, now: int) returns (report: Report)
      requires Keyed(ledger.entries) && Keyed(ledger.stored)
      modifies this, ledger
      ensures ledger.loaded
      ensures var all := if old(ledger.loaded) then old(ledger.entries) else old(ledger.entries) + old(ledger.stored);
              && Reports(all, answers, report)
              && ledger.entries == StillFound(all, answers)
              && ledger.stored == if ledger.entries == all then old(ledger.stored) else ledger.entries
    {
      ledger.Hydrate();
      report := VerifyLoaded(answers, now);
    }

    method VerifyLoaded(answers: string -> Lookup, now: int) returns (report: Report)
      requires Keyed(ledger.entries)
      modifies this, ledger
      ensures Reports(old(ledger.entries), answers, report) && ledger.loaded == old(ledger.loaded)
      ensures ledger.entries == StillFound(old(ledger.entries), answers)
      ensures ledger.stored == if ledger.entries == old(ledger.entries) then old(ledger.stored) else ledger.entries
    {
      report := Reconcile(answers, now);
      RemoveStale(report.discrepancies);
      BootKeeps(old(ledger.entries), answers, report, old(ledger.stored));
    }

    /** Every removal saves. */
    method RemoveStale(ds: seq<Result>)
      modifies ledger
      ensures ledger.entries == Kept(old(ledger.entries), ds) && ledger.loaded == old(ledger.loaded)
      ensures ledger.stored == if AnyStale(ds) then ledger.entries else old(ledger.stored)
    {
      assert ledger.entries == Kept(ledger.entries, []);
      for i := 0 to |ds|
        invariant ledger.entries == Kept(old(ledger.entries), ds[..i]) && ledger.loaded == old(ledger.loaded)
        invariant ledger.stored == if AnyStale(ds[..i]) then ledger.entries else old(ledger.stored)
      {
        KeptMore(old(ledger.entries), ds[..i], ds[i]);
        AnyStaleMore(ds[..i], ds[i]);
        assert ds[..i + 1] == ds[..i] + [ds[i]];
        if Stale(ds[i]) {
          ledger.Remove(ds[i].jobId);
        }
      }
      assert ds[..|ds|] == ds;
    }
  }

  predicate AnyStale(ds: seq<Result>) {
    exists k :: 0 <= k < |ds| && Stale(ds[k])
  }

  lemma {:induction false} AnyStaleMore(ds: seq<Result>, d: Result)
    ensures AnyStale(ds + [d]) <==> AnyStale(ds) || Stale(d)
  {
    var all := ds + [d];
    if AnyStale(ds) {
      var k :| 0 <= k < |ds| && Stale(ds[k]);
      assert Stale(all[k]);
    }
    if Stale(d) {
      assert Stale(all[|ds|]);
    }
  }

  /** The entries whose job was not confirmed absent. */
  function StillFound(ledger: Ledger, answers: string -> Lookup): Ledger {
    map j | j in ledger && !answers(ledger[j].jobId).Missing? :: ledger[j]
  }

  lemma {:induction false} BootKeeps(ledger: Ledger, answers: string -> Lookup, r: Report, stored: Ledger)
    requires Keyed(ledger) && Reports(ledger, answers, r)
    ensures var kept := Kept(ledger, r.discrepancies);
            && kept == StillFound(ledger, answers)
            && (if AnyStale(r.discrepancies) then kept else stored) == if kept == ledger then stored else kept
  {
    KeptIsFound(ledger, answers, r);
    StaleMeansRemoved(ledger, answers, r);
  }

  /** A discrepancy is stale exactly if some entry is to go. */
  lemma {:induction false} StaleMeansRemoved(ledger: Ledger, answers: string -> Lookup, r: Report)
    requires Reports(ledger, answers, r)
    ensures AnyStale(r.discrepancies) <==> StillFound(ledger, answers) != ledger
  {
    if AnyStale(r.discrepancies) {
      var k :| 0 <= k < |r.discrepancies| && Stale(r.discrepancies[k]);
      assert r.discrepancies[k] in r.discrepancies;
      var j :| j in ledger && r.discrepancies[k] == Judge(ledger[j], answers(ledger[j].jobId));
      assert j !in StillFound(ledger, answers);
    }
    if StillFound(ledger, answers) != ledger {
      var j :| j in ledger && answers(ledger[j].jobId).Missing?;
      assert OutcomeOf(ledger, answers, j) != Clean;
      var d := Judge(ledger[j], answers(ledger[j].jobId));
      var k :| 0 <= k < |r.discrepancies| && r.discrepancies[k] == d;
      assert Stale(r.discrepancies[k]);
    }
  }

  predicate Stale(d: Result) {
    d.outcome.NotFound? && d.onChainStatus.Absent?
  }

  lemma {:induction false} KeptMore(ledger: Ledger, ds: seq<Result>, d: Result)
    ensures Kept(ledger, ds + [d]) == if Stale(d) then Kept(ledger, ds) - {Lower(d.jobId)} else Kept(ledger, ds)
  {
  }

  function Widen(range: Option<Range>, t: int): Range {
    match range
    case None => Range(t, t)
    case Some(r) => Range(if t < r.fromMs then t else r.fromMs, if t > r.toMs then t else r.toMs)
  }

  lemma WidenSpans(ledger: Ledger, js: set<JobId>, range: Option<Range>, k: JobId)
    requires js <= ledger.Keys && k in ledger && (range.None? <==> js == {})
    requires range.Some? ==> Spans(ledger, js, range.value)
    ensures Spans(ledger, js + {k}, Widen(range, ledger[k].submittedAt))
  {
    assert k in js + {k};
    if range.Some? {
      var a :| a in js && ledger[a].submittedAt == range.value.fromMs;
      var b :| b in js && ledger[b].submittedAt == range.value.toMs;
      assert a in js + {k} && b in js + {k};
    }
  }

  /** The entries no listed discrepancy removes. */
  ghost function Kept(ledger: Ledger, ds: seq<Result>): Ledger {
    map j | j in ledger && (forall d :: d in ds && Lower(d.jobId) == j ==> !Stale(d)) :: ledger[j]
  }

  lemma {:induction false} KeptIsFound(ledger: Ledger, answers: string -> Lookup, r: Report)
    requires Keyed(ledger) && Reports(ledger, answers, r)
    ensures Kept(ledger, r.discrepancies) == StillFound(ledger, answers)
  {
    forall j | j in ledger
      ensures j in Kept(ledger, r.discrepancies) <==> !answers(ledger[j].jobId).Missing?
    {
      var d := Judge(ledger[j], answers(ledger[j].jobId));
      if answers(ledger[j].jobId).Missing? {
        assert OutcomeOf(ledger, answers, j) != Clean;
        assert d in r.discrepancies && Lower(d.jobId) == j;
      }
    }
  }

  // ---- The ledger of a run reconciles -----------------------------------------------------

  lemma EventEvolves(cfg: Config, s: State, e: Event)
    requires ConfigOk(cfg) && Inv(cfg, s) && Enabled(cfg, s, e)
    ensures Evolves(s.chain, Apply(cfg, s, e).chain)
  {
    match e
    case TxLands(n) => LandingTxsOk(cfg, s, n);
    case TaskStep(id, reply) => TaskEventGood(cfg, s, id, reply);
    case AdvanceHead(_) => OtherEventEvolves(cfg, s, e);
    case CreateJob(_, _) => OtherEventEvolves(cfg, s, e);
    case OtherAccepts(_, _) => OtherEventEvolves(cfg, s, e);
    case OtherSubmits(_, _) => OtherEventEvolves(cfg, s, e);
    case SlashJob(_) => OtherEventEvolves(cfg, s, e);
    case CancelJob(_) => OtherEventEvolves(cfg, s, e);
    case _ =>
  }

  lemma StepKeepsSubmitted(cfg: Config, s: State, e: Event, j: JobId)
    requires ConfigOk(cfg) && Inv(cfg, s) && Enabled(cfg, s, e)
    requires j in s.chain.jobs && s.chain.jobs[j].status.Submitted?
    ensures j in Apply(cfg, s, e).chain.jobs && Apply(cfg, s, e).chain.jobs[j] == s.chain.jobs[j]
  {
    EventEvolves(cfg, s, e);
    assert JobEvolves(s.chain.jobs[j], Apply(cfg, s, e).chain.jobs[j]);
  }

  lemma RunStepKeepsSubmitted(cfg: Config, run: seq<State>, events: seq<Event>, k: nat, j: JobId)
    requires ConfigOk(cfg) && Run(cfg, run, events) && k < |events|
    requires j in run[k].chain.jobs && run[k].chain.jobs[j].status.Submitted?
    ensures j in run[k + 1].chain.jobs && run[k + 1].chain.jobs[j] == run[k].chain.jobs[j]
  {
    assert Follows(cfg, run, events, k);
    RunKeeps(cfg, run, events, k);
    StepKeepsSubmitted(cfg, run[k], events[k], j);
  }

  lemma {:induction false} StaysSubmitted(
    cfg: Config, run: seq<State>, events: seq<Event>, i: nat, k: nat, j: JobId)
    requires ConfigOk(cfg) && Run(cfg, run, events) && i <= k < |run|
    requires j in run[i].chain.jobs && run[i].chain.jobs[j].status.Submitted?
    ensures j in run[k].chain.jobs && run[k].chain.jobs[j] == run[i].chain.jobs[j]
  {
    if i < k {
      StaysSubmitted(cfg, run, events, i, k - 1, j);
      RunStepKeepsSubmitted(cfg, run, events, k - 1, j);
    }
  }

  function LookupAt(c: Chain, j: JobId): Lookup {
    if j in c.jobs then Found(c.jobs[j]) else Missing
  }

  lemma BackedIsClean(cfg: Config, run: seq<State>, events: seq<Event>, i: nat, k: nat, j: JobId)
    requires ConfigOk(cfg) && Run(cfg, run, events) && i <= k < |run| && j in run[i].ledger
    ensures Judge(run[i].ledger[j], LookupAt(run[k].chain, j)).outcome == Clean
  {
    LedgerIsBacked(cfg, run, events, i, j);
    StaysSubmitted(cfg, run, events, i, k, j);
  }

  /** The lookup of entry `j` was answered by the chain, at moment `i` of the run or later. */
  ghost predicate AnsweredFrom(run: seq<State>, i: nat, answers: string -> Lookup, j: JobId)
    requires i < |run| && j in run[i].ledger
  {
    exists k :: i <= k < |run| && answers(run[i].ledger[j].jobId) == LookupAt(run[k].chain, j)
  }

  lemma EntryIsClean(cfg: Config, run: seq<State>, events: seq<Event>, i: nat, answers: string -> Lookup, j: JobId)
    requires ConfigOk(cfg) && Run(cfg, run, events) && i < |run| && j in run[i].ledger
    requires AnsweredFrom(run, i, answers, j)
    ensures OutcomeOf(run[i].ledger, answers, j) == Clean
  {
    var k :| i <= k < |run| && answers(run[i].ledger[j].jobId) == LookupAt(run[k].chain, j);
    BackedIsClean(cfg, run, events, i, k, j);
  }

  lemma AllCleanReport(ledger: Ledger, answers: string -> Lookup, r: Report)
    requires Reports(ledger, answers, r) && forall j :: j in ledger ==> OutcomeOf(ledger, answers, j) == Clean
    ensures r.summaryClean && r.discrepancies == [] && r.cleanCount == |ledger|
    ensures StillFound(ledger, answers) == ledger
  {
  }

  /** Whatever run the relayer had, reconciling its ledger against the chain, each lookup answered
      at that moment or any time later, finds every entry clean: the report says so, and a boot
      check removes nothing. */
  lemma RunReconcilesClean(
    cfg: Config, run: seq<State>, events: seq<Event>, i: nat, answers: string -> Lookup, r: Report)
    requires ConfigOk(cfg) && Run(cfg, run, events) && i < |run|
    requires forall j :: j in run[i].ledger ==> AnsweredFrom(run, i, answers, j)
    requires Reports(run[i].ledger, answers, r)
    ensures r.summaryClean && r.discrepancies == [] && r.cleanCount == |run[i].ledger|
    ensures StillFound(run[i].ledger, answers) == run[i].ledger
  {
    forall j | j in run[i].ledger
      ensures OutcomeOf(run[i].ledger, answers, j) == Clean
    {
      EntryIsClean(cfg, run, events, i, answers, j);
    }
    AllCleanReport(run[i].ledger, answers, r);
  }
}
