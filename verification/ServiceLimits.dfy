/** What the service does and does not promise about drafts and about the data a rule was made for: the exact steps that leave a rule
    with two drafts, and runs in which it happens. */
module ServiceLimits {
  import opened Ordering
  import opened Lifecycle
  import opened LifecycleLaws
  import opened Interleavings
  import opened ServiceRuns
  import opened Drafts

  // ------------------------------------------------------------------ every rule was made for data that supports it

  /** Analyses name dataset versions that exist, and what they found is supported by them. */
  ghost predicate SupportOk(w: World, unreliable: set<string>) {
    && (forall a | 0 <= a < |w.analyses| && w.analyses[a].data.Some? :: Registered(w.t.datasets, w.analyses[a].data.value))
    && (forall a | a in w.findings :: FindingSupported(w, a, unreliable))
  }

  predicate FindingSupported(w: World, a: nat, unreliable: set<string>)
    requires a in w.findings
  {
    && a < |w.analyses|
    && (w.analyses[a].data.Some? ==> SupportedBy(w.t.datasets, w.analyses[a].data.value, unreliable, w.findings[a].compiled.behaviour))
  }

  lemma {:induction false} SupportStays(w: World, b: World, unreliable: set<string>)
    requires SupportOk(w, unreliable) && DatasetsGrow(w.t.datasets, b.t.datasets) && b.analyses == w.analyses && b.findings == w.findings
    ensures SupportOk(b, unreliable)
  {
    forall a | a in b.findings ensures FindingSupported(b, a, unreliable) { assert FindingSupported(w, a, unreliable); }
  }

  lemma {:induction false} InsertSupported(w: World, report: nat, data: Option<Source>, unreliable: set<string>)
    requires SupportOk(w, unreliable) && (data.Some? ==> Registered(w.t.datasets, data.value))
    ensures SupportOk(AnalysisInserted(w, report, data), unreliable)
  {
    var b := AnalysisInserted(w, report, data);
    forall a | a in b.findings ensures FindingSupported(b, a, unreliable) { assert FindingSupported(w, a, unreliable); }
  }

  /** A worker's move keeps which data its analysis was asked about, and concludes only with what that data supports. */
  lemma {:induction false} MoveSupported(w: World, j: nat, m: Move, unreliable: set<string>)
    requires SupportOk(w, unreliable) && j in w.workers && j < |w.jobs| && w.jobs[j].kind.AnalyzeJob? && w.jobs[j].ref < |w.analyses|
    requires DataAllows(w.t.datasets, w.analyses[w.jobs[j].ref].data, m, unreliable)
    ensures SupportOk(Moved(w, j, m), unreliable)
  {
    var b, r := Moved(w, j, m), w.jobs[j].ref;
    assert forall a | 0 <= a < |w.analyses| :: b.analyses[a].data == w.analyses[a].data;
    forall a | a in b.findings ensures FindingSupported(b, a, unreliable) {
      if a in w.findings { assert FindingSupported(w, a, unreliable); }
    }
  }

  lemma {:induction false} DatasetsStep(w: World, s: Step, unreliable: set<string>)
    requires WorldOk(w, unreliable) && Enabled(w, s, unreliable)
    ensures DatasetsGrow(w.t.datasets, Do(w, s, unreliable).t.datasets) && RefsOk(w.jobs, w.t.runs, w.analyses)
  {
    StepKeeps(w, s, unreliable);
  }

  lemma {:induction false} WorkSupported(w: World, j: nat, m: Move, unreliable: set<string>)
    requires SupportOk(w, unreliable) && Enabled(w, Work(j, m), unreliable) && RefsOk(w.jobs, w.t.runs, w.analyses)
    requires DatasetsGrow(w.t.datasets, Moved(w, j, m).t.datasets)
    ensures SupportOk(Moved(w, j, m), unreliable)
  {
    if w.jobs[j].kind.AnalyzeJob? { MoveSupported(w, j, m, unreliable); } else { SupportStays(w, Moved(w, j, m), unreliable); }
  }

  lemma {:induction false} SupportStep(w: World, s: Step, unreliable: set<string>)
    requires SupportOk(w, unreliable) && Enabled(w, s, unreliable) && RefsOk(w.jobs, w.t.runs, w.analyses)
    requires DatasetsGrow(w.t.datasets, Do(w, s, unreliable).t.datasets)
    ensures SupportOk(Do(w, s, unreliable), unreliable)
  {
    match s
    case InsertAnalysis(report, data) => InsertSupported(w, report, data, unreliable);
    case Work(j, m) => WorkSupported(w, j, m, unreliable);
    case _ => SupportStays(w, Do(w, s, unreliable), unreliable);
  }

  lemma {:induction false} NextSupported(a: World, b: World, unreliable: set<string>)
    requires WorldOk(a, unreliable) && SupportOk(a, unreliable) && Next(a, b, unreliable)
    ensures SupportOk(b, unreliable)
  {
    var s :| Enabled(a, s, unreliable) && b == Do(a, s, unreliable);
    DatasetsStep(a, s, unreliable);
    SupportStep(a, s, unreliable);
  }

  lemma {:induction false} EveryStateSupported(trace: seq<World>, unreliable: set<string>)
    requires IsRun(trace, unreliable)
    ensures SupportOk(trace[|trace| - 1], unreliable)
  {
    var n := |trace| - 1;
    if n > 0 {
      var before := trace[..n];
      EarlierRun(trace, unreliable);
      EveryStateSupported(before, unreliable);
      EveryState(before, unreliable);
      assert before[n - 1] == trace[n - 1] && WorldOk(before[n - 1], unreliable);
      NextSupported(trace[n - 1], trace[n], unreliable);
    }
  }

  /** In every reachable state each version's behaviour is supported by the dataset version its analysis was asked about, if any. */
  lemma {:induction false} MadeForItsData(w: World, unreliable: set<string>, i: nat)
    requires Reachable(w, unreliable) && i < |w.t.versions|
    ensures var v := w.t.versions[i];
            && v.analysis < |w.analyses|
            && (w.analyses[v.analysis].data.Some? ==>
                  SupportedBy(w.t.datasets, w.analyses[v.analysis].data.value, unreliable, v.compiled.behaviour))
  {
    ReachableOk(w, unreliable);
    var trace :| IsRun(trace, unreliable) && trace[|trace| - 1] == w;
    EveryStateSupported(trace, unreliable);
    assert Originates(w.t.versions[i], w.t.rules, w.findings);
    assert FindingSupported(w, w.t.versions[i].analysis, unreliable);
  }

  /** So what is created from an analysis fits current data as long as the dataset version it was asked about is still current. */
  lemma {:induction false} FitsWhileCurrent(w: World, unreliable: set<string>, a: nat)
    requires Reachable(w, unreliable) && a in w.findings
    ensures a < |w.analyses|
    ensures w.analyses[a].data.Some? ==>
              var d := w.analyses[a].data.value;
              && Registered(w.t.datasets, d)
              && (w.t.datasets[d.0].current == d.1 ==> SupportedBy(w.t.datasets, (d.0, w.t.datasets[d.0].current), unreliable, w.findings[a].compiled.behaviour))
  {
    var trace :| IsRun(trace, unreliable) && trace[|trace| - 1] == w;
    EveryStateSupported(trace, unreliable);
    assert FindingSupported(w, a, unreliable);
  }

  // ------------------------------------------------------------------ exactly which steps leave two drafts

  /** A refinement beside another draft, or a resumption of a draft beside another one. */
  ghost predicate Duplicates(w: World, s: Step, rule: nat) {
    match s
    case Commit(l) => l.Recompiled? && l.rule == rule && !OnlyDraft(w.t.versions, rule, l.version)
    case Work(j, m) => j < |w.jobs| && w.jobs[j].kind.RunJob? && m.Finish? && ResumesBeside(w.t, w.jobs[j].ref, m.ok, rule)
    case _ => false
  }

  ghost predicate ResumesBeside(t: Tables, r: nat, ok: bool, rule: nat) {
    && Resumes(t, r, ok) && t.versions[t.runs[r].version].rule == rule && Resumed(t.versions[t.runs[r].version]).state.Draft?
    && !NoDraft(t.versions, rule)
  }

  lemma {:induction false} CommitDrafts(w: World, l: Local, rule: nat, unreliable: set<string>)
    requires LocalsOk(w.locals, w.t, w.findings, unreliable) && l in w.locals && Commits(l) && OneDraft(w.t.versions, rule)
    ensures OneDraft(Committed(w.t, l, unreliable).versions, rule) <==> !Duplicates(w, Commit(l), rule)
  {
    assert LocalOk(l, w.t, w.findings, unreliable);
    match l
    case SawReady(a, f) => CreateDrafts(w.t, a, f, rule);
    case Recompiled(v, other, a, spec, compiled) => RefineDrafts(w.t, v, a, spec, compiled, rule);
    case SawReviewed(v, run) => OthersDrafts(w.t, v, Some(run), rule);
    case SawVersion(v, reviewed) => OthersDrafts(w.t, v, reviewed, rule);
    case SawAfter(dataset, before, to) => EventDrafts(w.t, dataset, before, to, w.t.datasets[dataset].profiles[to], unreliable, rule);
  }

  lemma {:induction false} DraftStep(w: World, s: Step, rule: nat, unreliable: set<string>)
    requires LocalsOk(w.locals, w.t, w.findings, unreliable) && Enabled(w, s, unreliable) && OneDraft(w.t.versions, rule)
    ensures OneDraft(Do(w, s, unreliable).t.versions, rule) <==> !Duplicates(w, s, rule)
  {
    match s
    case Commit(l) => CommitDrafts(w, l, rule, unreliable);
    case Work(j, m) => WorkDrafts(w, j, m, rule);
    case _ => assert Do(w, s, unreliable).t.versions == w.t.versions;
  }

  lemma {:induction false} WorkDrafts(w: World, j: nat, m: Move, rule: nat)
    requires j in w.workers && j < |w.jobs| && OneDraft(w.t.versions, rule)
    ensures OneDraft(Moved(w, j, m).t.versions, rule) <==> !Duplicates(w, Work(j, m), rule)
  {
    if w.jobs[j].kind.RunJob? && m.Finish? { FinishDrafts(w.t, w.jobs[j].ref, m.ok, rule); }
  }

  /** From a reachable state with at most one draft of a rule, a step leaves two exactly if it is such a refinement or resumption. */
  lemma {:induction false} TwoDraftsIff(w: World, s: Step, rule: nat, unreliable: set<string>)
    requires Reachable(w, unreliable) && Enabled(w, s, unreliable) && OneDraft(w.t.versions, rule)
    ensures OneDraft(Do(w, s, unreliable).t.versions, rule) <==> !Duplicates(w, s, rule)
  {
    ReachableOk(w, unreliable);
    DraftStep(w, s, rule, unreliable);
  }
}
