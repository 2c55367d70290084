/** Runs of the service in which what it does not promise fails to hold: a rule with two drafts, and a version created for data that
    has changed since its analysis. */
module ServiceWitnesses {
  import opened Ordering
  import opened Behaviours
  import opened Validation
  import opened DatasetSupport
  import opened Jobs
  import opened Refinement
  import opened Lifecycle
  import opened Interleavings
  import opened ServiceRuns
  import opened Drafts

  lemma {:induction false} Reached(w: World, s: Step, unreliable: set<string>)
    requires Reachable(w, unreliable) && Enabled(w, s, unreliable)
    ensures Reachable(Do(w, s, unreliable), unreliable)
  {
    var trace :| IsRun(trace, unreliable) && trace[|trace| - 1] == w;
    var longer := trace + [Do(w, s, unreliable)];
    forall i | 0 < i < |longer| ensures Next(longer[i - 1], longer[i], unreliable) {
      if i < |trace| { assert Next(trace[i - 1], trace[i], unreliable); }
    }
    assert IsRun(longer, unreliable);
  }

  // ------------------------------------------------------------------ one analysis on an otherwise empty service

  const QUEUED: Job := Job(AnalyzeJob, 0, Queued, [Queued])
  const EXTRACTING: Job := Job(AnalyzeJob, 0, Extracting, [Queued, Extracting])
  const VALIDATING: Job := Job(AnalyzeJob, 0, Validating, [Queued, Extracting, Validating])

  /** Registered datasets and nothing else. */
  function Idle(datasets: map<string, Dataset>): World {
    World(Tables([], [], [], [], datasets, []), [], map[], [], map[], {}, {}, true)
  }

  /** One analysis and the worker on it. */
  function Desk(datasets: map<string, Dataset>, a: Analysis, findings: map<nat, Finding>, job: Job, g: Stage): World {
    World(Tables([], [], [], [], datasets, []), [a], findings, [job], map[0 := g], {}, {}, true)
  }

  lemma {:induction false} Started(unreliable: set<string>)
    ensures Reachable(Idle(map[]), unreliable)
  {
    assert IsRun([FRESH], unreliable);
    assert Reachable(FRESH, unreliable);
    Reached(FRESH, Recover, unreliable);
    assert Recovered([]) == [];
    assert Do(FRESH, Recover, unreliable) == Idle(map[]);
  }

  lemma {:induction false} WithDataset(d: string, p: Profile, unreliable: set<string>)
    ensures Reachable(Idle(map[d := Dataset(1, map[1 := p])]), unreliable)
  {
    Started(unreliable);
    Reached(Idle(map[]), Register(d, p), unreliable);
    assert Do(Idle(map[]), Register(d, p), unreliable) == Idle(map[d := Dataset(1, map[1 := p])]);
  }

  lemma {:induction false} Requested(datasets: map<string, Dataset>, report: nat, data: Option<Source>, unreliable: set<string>)
    requires Reachable(Idle(datasets), unreliable) && (data.Some? ==> Registered(datasets, data.value))
    ensures Reachable(Desk(datasets, Analysis(report, data, Queued, None), map[], QUEUED, AnalysisStart), unreliable)
  {
    var a := Analysis(report, data, Queued, None);
    Reached(Idle(datasets), InsertAnalysis(report, data), unreliable);
    var w := Idle(datasets).(analyses := [a], pending := {AnalysisTask(0)});
    assert [] + [a] == [a] && {} + {AnalysisTask(0)} == {AnalysisTask(0)};
    assert Do(Idle(datasets), InsertAnalysis(report, data), unreliable) == w;
    Reached(w, Submit(AnalysisTask(0)), unreliable);
    assert {AnalysisTask(0)} - {AnalysisTask(0)} == {};
    assert Submitted([], AnalyzeJob, 0) == [QUEUED];
    assert Do(w, Submit(AnalysisTask(0)), unreliable) == Desk(datasets, a, map[], QUEUED, AnalysisStart);
  }

  lemma {:induction false} DeskMoves(datasets: map<string, Dataset>, a: Analysis, findings: map<nat, Finding>, job: Job, g: Stage, m: Move,
                                      unreliable: set<string>)
    requires Reachable(Desk(datasets, a, findings, job, g), unreliable) && job.kind.AnalyzeJob? && job.ref == 0 && !Terminal(job.state)
    requires MayMove(g, m, a.report) && NextStage(m).Some? && DataAllows(datasets, a.data, m, unreliable)
    ensures Reachable(Desk(datasets, SavedAnalysis(a, m), if m.Conclude? && m.finding.Some? then findings[0 := m.finding.value] else findings,
                           if Announced(g, m).Some? then Entered(job, Announced(g, m).value) else job, NextStage(m).value), unreliable)
  {
    var w := Desk(datasets, a, findings, job, g);
    var after := if Announced(g, m).Some? then Entered(job, Announced(g, m).value) else job;
    Reached(w, Work(0, m), unreliable);
    assert MovedJobs([job], 0, g, m) == [after];
    assert MovedWorkers(map[0 := g], 0, m) == map[0 := NextStage(m).value];
    assert [a][0 := SavedAnalysis(a, m)] == [SavedAnalysis(a, m)];
  }

  /** Where the analysis stands when it has found `f`. */
  function Found(datasets: map<string, Dataset>, f: Finding, data: Option<Source>): World {
    Desk(datasets, Analysis(f.report, data, Ready, Some(f)), map[0 := f], VALIDATING, AnalysisSaved(Ready))
  }

  lemma {:induction false} CanExtract(datasets: map<string, Dataset>, report: nat, data: Option<Source>, unreliable: set<string>)
    requires Reachable(Idle(datasets), unreliable) && (data.Some? ==> Registered(datasets, data.value))
    ensures Reachable(Desk(datasets, Analysis(report, data, Extracting, None), map[], EXTRACTING, AnalysisExtracting(true)), unreliable)
  {
    var a := Analysis(report, data, Queued, None);
    Requested(datasets, report, data, unreliable);
    DeskMoves(datasets, a, map[], QUEUED, AnalysisStart, Extract, unreliable);
    assert Entered(QUEUED, Extracting) == EXTRACTING;
    DeskMoves(datasets, a, map[], EXTRACTING, AnalysisExtracting(false), SaveExtracting, unreliable);
  }

  lemma {:induction false} CanValidate(datasets: map<string, Dataset>, report: nat, data: Option<Source>, unreliable: set<string>)
    requires Reachable(Idle(datasets), unreliable) && (data.Some? ==> Registered(datasets, data.value))
    ensures Reachable(Desk(datasets, Analysis(report, data, Validating, None), map[], VALIDATING, AnalysisValidating(true)), unreliable)
  {
    var a := Analysis(report, data, Extracting, None);
    CanExtract(datasets, report, data, unreliable);
    DeskMoves(datasets, a, map[], EXTRACTING, AnalysisExtracting(true), Validate, unreliable);
    assert Entered(EXTRACTING, Validating) == VALIDATING;
    DeskMoves(datasets, a, map[], VALIDATING, AnalysisValidating(false), SaveValidating, unreliable);
  }

  /** An analysis of supporting data, or of none, can find any rule its spec compiles to. */
  lemma {:induction false} CanFind(datasets: map<string, Dataset>, f: Finding, data: Option<Source>, unreliable: set<string>)
    requires Reachable(Idle(datasets), unreliable) && CompilesTo(f.spec, f.compiled)
    requires data.Some? ==> SupportedBy(datasets, data.value, unreliable, f.compiled.behaviour)
    ensures Reachable(Found(datasets, f, data), unreliable)
  {
    CanValidate(datasets, f.report, data, unreliable);
    var m := Conclude(Ready, Some(f));
    DeskMoves(datasets, Analysis(f.report, data, Validating, None), map[], VALIDATING, AnalysisValidating(true), m, unreliable);
  }

  // ------------------------------------------------------------------ two drafts of one rule

  /** A reading of an analyst's recompiled rule, committed twice (a double click, two browser tabs), leaves two drafts. */
  lemma {:induction false} CommittedTwice(w: World, l: Local, unreliable: set<string>)
    requires LocalsOk(w.locals, w.t, w.findings, unreliable) && w.up && l in w.locals && l.Recompiled?
    ensures Enabled(w, Commit(l), unreliable)
    ensures var once := Do(w, Commit(l), unreliable);
            Enabled(once, Commit(l), unreliable) && !OneDraft(Do(once, Commit(l), unreliable).t.versions, l.rule)
  {
    assert LocalOk(l, w.t, w.findings, unreliable);
    RefinedTwice(w.t, l.version, l.rule, l.analysis, l.spec, l.compiled);
  }

  /** The rule of a finding, created and read for refinement. */
  lemma {:induction false} ReadForRefinement(w: World, f: Finding, spec: Spec, compiled: Compiled, unreliable: set<string>)
    returns (after: World, l: Local)
    requires Reachable(w, unreliable) && w.up && w.t.rules == [] && w.t.versions == [] && MayRecompile(f, spec, compiled)
    requires CompilesTo(f.spec, f.compiled) && 0 < |w.analyses| && w.analyses[0].status.Ready? && w.analyses[0].found == Some(f)
    ensures Reachable(after, unreliable) && after.up && l in after.locals && l == Recompiled(0, 0, 0, spec, compiled)
  {
    Reached(w, Read(SawReady(0, f)), unreliable);
    var read := Learned(w, SawReady(0, f));
    Reached(read, Commit(SawReady(0, f)), unreliable);
    var created := Do(read, Commit(SawReady(0, f)), unreliable);
    assert created.t.versions[0].state.Draft? && created.t.versions[0].rule == 0 && created.t.versions[0].analysis == 0;
    Reached(created, Read(SawRefinable(0, 0, 0)), unreliable);
    var refining := Learned(created, SawRefinable(0, 0, 0));
    l := Recompiled(0, 0, 0, spec, compiled);
    Reached(refining, Read(l), unreliable);
    after := Learned(refining, l);
  }

  /** A reachable state in which a rule has two drafts, for whatever an analysis finds and an analyst makes of it. */
  lemma {:induction false} TwoDraftsReachable(f: Finding, spec: Spec, compiled: Compiled, unreliable: set<string>) returns (w: World)
    requires CompilesTo(f.spec, f.compiled) && MayRecompile(f, spec, compiled)
    ensures Reachable(w, unreliable) && !OneDraft(w.t.versions, 0)
  {
    Started(unreliable);
    CanFind(map[], f, None, unreliable);
    var before, l := ReadForRefinement(Found(map[], f, None), f, spec, compiled, unreliable);
    ReachableOk(before, unreliable);
    CommittedTwice(before, l, unreliable);
    Reached(before, Commit(l), unreliable);
    var once := Do(before, Commit(l), unreliable);
    Reached(once, Commit(l), unreliable);
    w := Do(once, Commit(l), unreliable);
  }

  // ------------------------------------------------------------------ a version for data that has changed

  lemma {:induction false} HeldReady(f: Finding, d: string, p: Profile, unreliable: set<string>) returns (w: World)
    requires CompilesTo(f.spec, f.compiled) && Fits(p, unreliable, f.compiled.behaviour)
    ensures var datasets := map[d := Dataset(1, map[1 := p])];
            w == Learned(Found(datasets, f, Some((d, 1))), SawReady(0, f)) && Reachable(w, unreliable)
  {
    WithDataset(d, p, unreliable);
    var datasets := map[d := Dataset(1, map[1 := p])];
    CanFind(datasets, f, Some((d, 1)), unreliable);
    Reached(Found(datasets, f, Some((d, 1))), Read(SawReady(0, f)), unreliable);
    w := Learned(Found(datasets, f, Some((d, 1))), SawReady(0, f));
  }

  /** Another caller derives the dataset's second version. */
  lemma {:induction false} SecondVersion(w: World, d: string, p: Profile, q: Profile, unreliable: set<string>) returns (after: World)
    requires Reachable(w, unreliable) && w.up && w.t.datasets == map[d := Dataset(1, map[1 := p])]
    ensures Reachable(after, unreliable) && after.up && w.locals <= after.locals && Derived(d, 1) in after.locals
    ensures after.t == w.t.(datasets := map[d := Dataset(2, map[1 := p, 2 := q])]) && after.analyses == w.analyses && after.findings == w.findings
  {
    var l := SawCurrent(d, 1, 1, q);
    Reached(w, Read(SawBefore(d, 1)), unreliable);
    var before := Learned(w, SawBefore(d, 1));
    Reached(before, Read(l), unreliable);
    var current := Learned(before, l);
    Reached(current, Derive(l), unreliable);
    after := Do(current, Derive(l), unreliable);
    assert after.t.datasets == map[d := Dataset(2, map[1 := p, 2 := q])];
    assert 2 in after.t.datasets[d].profiles && 2 !in w.t.datasets[d].profiles;
  }

  /** While a caller holds a ready analysis, the dataset gets a version, and the schema event judges the rules there are: none. */
  lemma {:induction false} ChangedMeanwhile(f: Finding, d: string, p: Profile, q: Profile, unreliable: set<string>) returns (w: World)
    requires CompilesTo(f.spec, f.compiled) && Fits(p, unreliable, f.compiled.behaviour)
    ensures Reachable(w, unreliable) && w.up && SawReady(0, f) in w.locals && w.t.rules == [] && w.t.versions == []
    ensures |w.analyses| == 1 && w.analyses[0].data == Some((d, 1)) && w.t.datasets == map[d := Dataset(2, map[1 := p, 2 := q])]
    ensures |w.t.events| == 1
  {
    var held := HeldReady(f, d, p, unreliable);
    var derived := SecondVersion(held, d, p, q, unreliable);
    w := Judged(derived, d, unreliable);
  }

  lemma {:induction false} Judged(w: World, d: string, unreliable: set<string>) returns (after: World)
    requires Reachable(w, unreliable) && w.up && Derived(d, 1) in w.locals && d in w.t.datasets && w.t.datasets[d].current == 2
    requires 2 in w.t.datasets[d].profiles && w.t.versions == [] && w.t.events == []
    ensures Reachable(after, unreliable) && after.up && w.locals <= after.locals && after.analyses == w.analyses
    ensures after.t == w.t.(events := after.t.events) && |after.t.events| == 1
  {
    var l := SawAfter(d, 1, 2);
    Reached(w, Read(l), unreliable);
    var read := Learned(w, l);
    Reached(read, Commit(l), unreliable);
    after := Do(read, Commit(l), unreliable);
  }

  /** The first version is a draft for dataset `d` that the dataset's current version cannot evaluate, and the event of the change is
      recorded. */
  ghost predicate OutgrownDraft(w: World, d: string, unreliable: set<string>) {
    && 0 < |w.t.versions| && 0 < |w.analyses| && |w.t.events| == 1
    && var v := w.t.versions[0];
    && v.state.Draft? && v.analysis == 0 && w.analyses[0].data == Some((d, 1))
    && d in w.t.datasets && w.t.datasets[d].current == 2 && 2 in w.t.datasets[d].profiles
    && !Fits(w.t.datasets[d].profiles[2], unreliable, v.compiled.behaviour)
  }

  lemma {:induction false} StaleDraftReachable(f: Finding, d: string, p: Profile, q: Profile, unreliable: set<string>) returns (w: World)
    requires CompilesTo(f.spec, f.compiled) && Fits(p, unreliable, f.compiled.behaviour) && !Fits(q, unreliable, f.compiled.behaviour)
    ensures Reachable(w, unreliable) && OutgrownDraft(w, d, unreliable)
  {
    var before := ChangedMeanwhile(f, d, p, q, unreliable);
    Reached(before, Commit(SawReady(0, f)), unreliable);
    w := Do(before, Commit(SawReady(0, f)), unreliable);
  }

  // ------------------------------------------------------------------ such rules and profiles exist

  /** "Five failed logins within 600 seconds, then a success". */
  const FIVE_IN_TEN_MINUTES: Finding := Finding(0,
    Spec(Text(IdText(RepeatedFailure)), Names([]), Names([]), Absent,
         Present(Conditions(Present(CountBlock(Number(Finite(5.0)), SemanticsJson(Some(EventCount)), None)),
                            Present(WindowBlock(Number(Finite(600.0)), Text("seconds"))))), Absent),
    Compiled(RepeatedFailure, RecipeOf(RepeatedFailure), TemplateOf(RepeatedFailure), Some(5), None, Some(600)))

  lemma {:induction false} ExampleCompiles()
    ensures CompilesTo(FIVE_IN_TEN_MINUTES.spec, FIVE_IN_TEN_MINUTES.compiled)
  {
    var spec := FIVE_IN_TEN_MINUTES.spec;
    FindText(RepeatedFailure);
    assert StatesCount(RepeatedFailure, spec, 5);
    assert ComesTo(Number(Finite(600.0)), Text("seconds"), 600);
    assert StatesWindow(spec, 600);
  }

  /** The same with the analyst's count of six. */
  lemma {:induction false} ExampleRefined() returns (spec: Spec, compiled: Compiled)
    ensures MayRecompile(FIVE_IN_TEN_MINUTES, spec, compiled) && compiled.countThreshold == Some(6)
  {
    var o := Overrides(Some(Number(Finite(6.0))), None);
    ExampleCompiles();
    spec := Overridden(FIVE_IN_TEN_MINUTES.spec, RepeatedFailure, o);
    compiled := FIVE_IN_TEN_MINUTES.compiled.(countThreshold := Some(6));
    FindText(RepeatedFailure);
    CountedStates(FIVE_IN_TEN_MINUTES.spec, RepeatedFailure, Number(Finite(6.0)), 6);
    assert StatesWindow(FIVE_IN_TEN_MINUTES.spec, 600);
    assert StatesCount(RepeatedFailure, spec, 6);
    assert StatesWindow(spec, 600);
  }

  /** So both states are reached. */
  lemma {:induction false} BothReached(d: string, unreliable: set<string>)
    requires unreliable !! ALL_COLUMNS.columns.Keys
    ensures exists w :: Reachable(w, unreliable) && !OneDraft(w.t.versions, 0)
    ensures exists w :: Reachable(w, unreliable) && OutgrownDraft(w, d, unreliable)
  {
    ExampleCompiles();
    ExampleProfiles(unreliable);
    var spec, compiled := ExampleRefined();
    var two := TwoDraftsReachable(FIVE_IN_TEN_MINUTES, spec, compiled, unreliable);
    var stale := StaleDraftReachable(FIVE_IN_TEN_MINUTES, d, ALL_COLUMNS, NO_COLUMNS, unreliable);
  }

  const ALL_COLUMNS: Profile :=
    Profile(map["event_id" := "string", "timestamp" := "string", "event_type" := "string", "account_id" := "string"], map[])

  const NO_COLUMNS: Profile := Profile(map[], map[])

  lemma {:induction false} ExampleProfiles(unreliable: set<string>)
    requires unreliable !! ALL_COLUMNS.columns.Keys
    ensures Fits(ALL_COLUMNS, unreliable, RepeatedFailure) && !Fits(NO_COLUMNS, unreliable, RepeatedFailure)
  {
    assert Lower("string") == "string";
    assert Dependencies(RepeatedFailure)[0] == EventId && !Provides(NO_COLUMNS, Limits({}, unreliable), EventId);
  }
}
