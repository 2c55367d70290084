/** The service as a transition system: every client call is a few reads followed by write transactions, with anything in between;
    background jobs move one step at a time; and the process may die at any moment (sentinelforge/service/workflow.py, jobs.py, store.py). */
module Interleavings {
  import opened Ordering
  import opened Behaviours
  import opened Validation
  import opened DatasetSupport
  import opened Jobs
  import opened Refinement
  import opened Lifecycle
  import opened LifecycleLaws

  /** A dataset and the version of it that was current when the request for an analysis read it. */
  type Source = (string, nat)

  datatype Analysis = Analysis(report: nat, data: Option<Source>, status: JobState, found: Option<Finding>)

  /** What a call has read and still relies on, with the caller's own inputs: true when read, stale by the time it writes. */
  datatype Local =
    | SawReady(analysis: nat, finding: Finding)
    | SawRefinable(version: nat, rule: nat, analysis: nat)
    | Recompiled(version: nat, rule: nat, analysis: nat, spec: Spec, compiled: Compiled)
    | SawReviewed(version: nat, run: nat)
    | SawVersion(version: nat, reviewed: Option<nat>)
    | SawRunnable(version: nat, purpose: Purpose)
    | Preflighted(version: nat, purpose: Purpose, dataset: string, datasetVersion: nat)
    | SawBefore(dataset: string, before: nat)
    | SawCurrent(dataset: string, before: nat, current: nat, derived: Profile)
    | Derived(dataset: string, before: nat)
    | SawAfter(dataset: string, before: nat, to: nat)

  /** Rows inserted by a call whose job it has not submitted yet. */
  datatype Task = RunTask(run: nat) | AnalysisTask(analysis: nat)

  /** Where a worker stands. `saved` tells whether the analysis row has caught up with the job. */
  datatype Stage = RunStart | RunAnnounced | RunMarked | RunDone(ok: bool)
    | AnalysisStart | AnalysisExtracting(saved: bool) | AnalysisRefused | AnalysisValidating(saved: bool) | AnalysisSaved(status: JobState)
    | AnalysisBroken(saved: bool) | Raised

  datatype World = World(t: Tables, analyses: seq<Analysis>, findings: map<nat, Finding>, jobs: seq<Job>, workers: map<nat, Stage>,
                         pending: set<Task>, locals: set<Local>, up: bool)

  /** The empty store of a service that has not started. */
  const FRESH: World := World(Tables([], [], [], [], map[], []), [], map[], [], map[], {}, {}, false)

  // ------------------------------------------------------------------ steps of a worker

  datatype Move = Announce | Mark | Finish(ok: bool) | CloseRun
    | Extract | SaveExtracting | Refuse | SaveRefused | Validate | SaveValidating | Conclude(status: JobState, finding: Option<Finding>) | CloseAnalysis
    | Break | SaveBroken | CloseBroken | Raise | Fail

  predicate IsAnalysis(g: Stage) { g.AnalysisStart? || g.AnalysisExtracting? || g.AnalysisRefused? || g.AnalysisValidating? || g.AnalysisSaved? }

  /** Can a worker at stage `g` make the move; the last case is an exception that no handler of the job function catches. */
  ghost predicate MayMove(g: Stage, m: Move, report: nat) {
    match m
    case Announce => g.RunStart?
    case Mark => g.RunAnnounced?
    case Finish(ok) => g.RunMarked?
    case CloseRun => g.RunDone?
    case Extract => g.AnalysisStart?
    case SaveExtracting => g == AnalysisExtracting(false)
    case Refuse => g == AnalysisExtracting(true)
    case SaveRefused => g.AnalysisRefused?
    case Validate => g == AnalysisExtracting(true)
    case SaveValidating => g == AnalysisValidating(false)
    case Conclude(status, finding) =>
      && g == AnalysisValidating(true) && (status.Ready? || status.NeedsReview? || status.Rejected?)
      && (finding.Some? <==> status.Ready?)
      && (finding.Some? ==> finding.value.report == report && CompilesTo(finding.value.spec, finding.value.compiled))
    case CloseAnalysis => g.AnalysisSaved?
    case Break => IsAnalysis(g)
    case SaveBroken => g == AnalysisBroken(false)
    case CloseBroken => g == AnalysisBroken(true)
    case Raise => true
    case Fail => g.Raised?
  }

  /** The stage after a move; none when the worker is done. */
  function NextStage(m: Move): Option<Stage> {
    match m
    case Announce => Some(RunAnnounced)
    case Mark => Some(RunMarked)
    case Finish(ok) => Some(RunDone(ok))
    case Extract => Some(AnalysisExtracting(false))
    case SaveExtracting => Some(AnalysisExtracting(true))
    case Refuse => Some(AnalysisRefused)
    case Validate => Some(AnalysisValidating(false))
    case SaveValidating => Some(AnalysisValidating(true))
    case Conclude(status, finding) => Some(AnalysisSaved(status))
    case Break => Some(AnalysisBroken(false))
    case SaveBroken => Some(AnalysisBroken(true))
    case Raise => Some(Raised)
    case CloseRun => None
    case SaveRefused => None
    case CloseAnalysis => None
    case CloseBroken => None
    case Fail => None
  }

  /** The state the move announces for the job, if it is one of the announcing moves. */
  function Announced(g: Stage, m: Move): Option<JobState> {
    match m
    case Announce => Some(Running)
    case CloseRun => Some(if g.RunDone? && g.ok then Completed else Failed)
    case Extract => Some(Extracting)
    case Refuse => Some(Rejected)
    case Validate => Some(Validating)
    case CloseAnalysis => Some(if g.AnalysisSaved? then g.status else Failed)
    case CloseBroken => Some(Failed)
    case Fail => Some(Failed)
    case _ => None
  }

  function RunTables(t: Tables, m: Move, run: nat): Tables {
    match m
    case Mark => MarkRunningTx(t, run)
    case Finish(ok) => FinishRunTx(t, run, ok)
    case _ => t
  }

  /** The analysis row after the move. */
  function SavedAnalysis(a: Analysis, m: Move): Analysis {
    match m
    case SaveExtracting => a.(status := Extracting)
    case SaveValidating => a.(status := Validating)
    case SaveRefused => a.(status := Rejected, found := None)
    case Conclude(status, finding) => a.(status := status, found := finding)
    case SaveBroken => a.(status := Failed, found := None)
    case _ => a
  }

  function MovedJobs(jobs: seq<Job>, j: nat, g: Stage, m: Move): seq<Job> {
    if Announced(g, m).Some? then Transitioned(jobs, j, Announced(g, m).value) else jobs
  }

  function MovedWorkers(workers: map<nat, Stage>, j: nat, m: Move): map<nat, Stage> {
    if NextStage(m).Some? then workers[j := NextStage(m).value] else workers - {j}
  }

  function Moved(w: World, j: nat, m: Move): World
    requires j in w.workers && j < |w.jobs|
  {
    var ref := w.jobs[j].ref;
    var w1 := w.(jobs := MovedJobs(w.jobs, j, w.workers[j], m), workers := MovedWorkers(w.workers, j, m));
    if w.jobs[j].kind.RunJob? then w1.(t := RunTables(w.t, m, ref))
    else if ref < |w.analyses| then
      w1.(analyses := w.analyses[ref := SavedAnalysis(w.analyses[ref], m)],
          findings := if m.Conclude? && m.finding.Some? then w.findings[ref := m.finding.value] else w.findings)
    else w1
  }

  // ------------------------------------------------------------------ steps

  /** One atomic step: a call reads, a call writes (from what it read), a worker moves, or the process dies or starts. */
  datatype Step = Read(l: Local) | Commit(l: Local) | InsertRun(l: Local) | Derive(l: Local)
    | Register(dataset: string, p: Profile) | InsertAnalysis(report: nat, data: Option<Source>) | Submit(task: Task)
    | Work(j: nat, m: Move) | Crash | Recover

  /** The rule of an analysis rebuilt with an analyst's numbers, which strict validation accepted. */
  ghost predicate MayRecompile(f: Finding, spec: Spec, compiled: Compiled) {
    && Windowed(f.compiled.behaviour) && CompilesTo(spec, compiled)
    && exists o :: spec == Overridden(f.spec, f.compiled.behaviour, o) && (o.count.Some? || o.windowSeconds.Some?)
  }

  /** What a call can read now, given what it read before: the checks it makes before it goes on. */
  ghost predicate CanRead(w: World, l: Local, unreliable: set<string>) {
    match l
    case SawReady(a, f) => a < |w.analyses| && w.analyses[a].status.Ready? && w.analyses[a].found == Some(f)
    case SawRefinable(v, rule, a) =>
      v < |w.t.versions| && Refinable(w.t.versions[v].state) && w.t.versions[v].rule == rule && w.t.versions[v].analysis == a
    case Recompiled(v, rule, a, spec, compiled) =>
      && SawRefinable(v, rule, a) in w.locals && a < |w.analyses| && w.analyses[a].found.Some?
      && MayRecompile(w.analyses[a].found.value, spec, compiled)
    case SawReviewed(v, run) =>
      && v < |w.t.versions| && run < |w.t.runs| && w.t.runs[run].version == v
      && w.t.runs[run].state.RunCompleted? && w.t.runs[run].purpose.Execute?
    case SawVersion(v, reviewed) => v < |w.t.versions|
    case SawRunnable(v, purpose) =>
      && v < |w.t.versions|
      && if purpose.Execute? then w.t.versions[v].state.Draft? || w.t.versions[v].state.Approved? else w.t.versions[v].state.Paused?
    case Preflighted(v, purpose, dataset, n) =>
      && SawRunnable(v, purpose) in w.locals && v < |w.t.versions| && dataset in w.t.datasets
      && n == w.t.datasets[dataset].current && n in w.t.datasets[dataset].profiles
      && Fits(w.t.datasets[dataset].profiles[n], unreliable, w.t.versions[v].compiled.behaviour)
    case SawBefore(dataset, before) => dataset in w.t.datasets && before == w.t.datasets[dataset].current
    case SawCurrent(dataset, before, current, derived) =>
      SawBefore(dataset, before) in w.locals && dataset in w.t.datasets && current == w.t.datasets[dataset].current
    case Derived(dataset, before) => false
    case SawAfter(dataset, before, to) => Derived(dataset, before) in w.locals && dataset in w.t.datasets && to == w.t.datasets[dataset].current
  }

  /** The readings from which a call writes tables and nothing else. */
  predicate Commits(l: Local) { l.SawReady? || l.Recompiled? || l.SawReviewed? || l.SawVersion? || l.SawAfter? }

  predicate Registered(datasets: map<string, Dataset>, d: Source) { d.0 in datasets && d.1 in datasets[d.0].profiles }

  /** The dataset version exists and has what behaviour `id` needs. */
  predicate SupportedBy(datasets: map<string, Dataset>, d: Source, unreliable: set<string>, id: Id) {
    Registered(datasets, d) && Fits(datasets[d.0].profiles[d.1], unreliable, id)
  }

  /** An analysis finds a rule only if the dataset version it was asked about, if any, supports it. */
  predicate DataAllows(datasets: map<string, Dataset>, data: Option<Source>, m: Move, unreliable: set<string>) {
    m.Conclude? && m.finding.Some? && data.Some? ==> SupportedBy(datasets, data.value, unreliable, m.finding.value.compiled.behaviour)
  }

  ghost predicate Enabled(w: World, s: Step, unreliable: set<string>) {
    match s
    case Read(l) => w.up && CanRead(w, l, unreliable)
    case Commit(l) => w.up && l in w.locals && Commits(l)
    case InsertRun(l) => w.up && l in w.locals && l.Preflighted?
    case Derive(l) => w.up && l in w.locals && l.SawCurrent?
    case Register(dataset, p) => w.up
    case InsertAnalysis(report, data) => w.up && (data.Some? ==> Registered(w.t.datasets, data.value))
    case Submit(task) => w.up && task in w.pending
    case Work(j, m) =>
      && w.up && j in w.workers && j < |w.jobs|
      && MayMove(w.workers[j], m, if w.jobs[j].ref < |w.analyses| then w.analyses[w.jobs[j].ref].report else 0)
      && (w.jobs[j].kind.AnalyzeJob? && w.jobs[j].ref < |w.analyses| ==> DataAllows(w.t.datasets, w.analyses[w.jobs[j].ref].data, m, unreliable))
    case Crash => w.up
    case Recover => !w.up
  }

  function Learned(w: World, l: Local): World { w.(locals := w.locals + {l}) }

  /** The write transaction that rests on a reading. */
  function Committed(t: Tables, l: Local, unreliable: set<string>): Tables {
    match l
    case SawReady(a, f) => CreateTx(t, a, f)
    case Recompiled(v, rule, a, spec, compiled) => RefineTx(t, v, rule, a, spec, compiled)
    case SawReviewed(v, run) => ApproveTx(t, v, run)
    case SawVersion(v, reviewed) => RejectTx(t, v, reviewed)
    case SawAfter(dataset, before, to) =>
      if dataset in t.datasets && to in t.datasets[dataset].profiles
      then SchemaEventTx(t, dataset, before, to, t.datasets[dataset].profiles[to], unreliable) else t
    case _ => t
  }

  function RunInserted(w: World, v: nat, purpose: Purpose, dataset: string, n: nat): World {
    w.(t := InsertRunTx(w.t, v, dataset, n, purpose), pending := w.pending + {RunTask(|w.t.runs|)})
  }

  function AnalysisInserted(w: World, report: nat, data: Option<Source>): World {
    w.(analyses := w.analyses + [Analysis(report, data, Queued, None)], pending := w.pending + {AnalysisTask(|w.analyses|)})
  }

  /** The new dataset version, unless another caller was faster. */
  function DerivedWorld(w: World, dataset: string, before: nat, current: nat, p: Profile): World {
    var after := w.(t := DeriveTx(w.t, dataset, current + 1, p));
    if after.t == w.t then w else Learned(after, Derived(dataset, before))
  }

  function TaskKind(task: Task): Kind { if task.RunTask? then RunJob else AnalyzeJob }

  function TaskRef(task: Task): nat { if task.RunTask? then task.run else task.analysis }

  function SubmittedWorld(w: World, task: Task): World {
    w.(jobs := Submitted(w.jobs, TaskKind(task), TaskRef(task)), pending := w.pending - {task},
       workers := w.workers[|w.jobs| := if task.RunTask? then RunStart else AnalysisStart])
  }

  function Crashed(w: World): World { w.(workers := map[], pending := {}, locals := {}, up := false) }

  function Restarted(w: World): World { w.(jobs := Recovered(w.jobs), up := true) }

  function Do(w: World, s: Step, unreliable: set<string>): World
    requires Enabled(w, s, unreliable)
  {
    match s
    case Read(l) => Learned(w, l)
    case Commit(l) => w.(t := Committed(w.t, l, unreliable))
    case InsertRun(l) => RunInserted(w, l.version, l.purpose, l.dataset, l.datasetVersion)
    case Derive(l) => DerivedWorld(w, l.dataset, l.before, l.current, l.derived)
    case Register(dataset, p) => w.(t := RegisterTx(w.t, dataset, p))
    case InsertAnalysis(report, data) => AnalysisInserted(w, report, data)
    case Submit(task) => SubmittedWorld(w, task)
    case Work(j, m) => Moved(w, j, m)
    case Crash => Crashed(w)
    case Recover => Restarted(w)
  }

  ghost predicate Next(a: World, b: World, unreliable: set<string>) { exists s :: Enabled(a, s, unreliable) && b == Do(a, s, unreliable) }

  /** A run of the service from an empty store. */
  ghost predicate IsRun(trace: seq<World>, unreliable: set<string>) {
    |trace| > 0 && trace[0] == FRESH && forall i | 0 < i < |trace| :: Next(trace[i - 1], trace[i], unreliable)
  }

  // ------------------------------------------------------------------ the invariant

  /** What was read stays usable: only facts that later writes cannot undo. */
  ghost predicate LocalOk(l: Local, t: Tables, findings: map<nat, Finding>, unreliable: set<string>) {
    match l
    case SawReady(a, f) => a in findings && findings[a] == f
    case SawRefinable(v, rule, a) => v < |t.versions| && t.versions[v].rule == rule && t.versions[v].analysis == a
    case Recompiled(v, rule, a, spec, compiled) =>
      && v < |t.versions| && t.versions[v].rule == rule && t.versions[v].analysis == a
      && a in findings && RefinedFrom(findings[a], spec) && CompilesTo(spec, compiled) && compiled.behaviour == findings[a].compiled.behaviour
    case SawReviewed(v, run) =>
      && v < |t.versions| && run < |t.runs| && t.runs[run].version == v && t.runs[run].state.RunCompleted? && t.runs[run].purpose.Execute?
    case SawVersion(v, reviewed) => v < |t.versions|
    case SawRunnable(v, purpose) => v < |t.versions|
    case Preflighted(v, purpose, dataset, dv) => RunOk(Run(v, dataset, dv, purpose, RunQueued), t.versions, t.datasets, unreliable)
    case SawBefore(dataset, before) => dataset in t.datasets
    case SawCurrent(dataset, before, current, derived) => dataset in t.datasets && current in t.datasets[dataset].profiles
    case Derived(dataset, before) => dataset in t.datasets
    case SawAfter(dataset, before, to) => dataset in t.datasets && to in t.datasets[dataset].profiles
  }

  ghost predicate LocalsOk(locals: set<Local>, t: Tables, findings: map<nat, Finding>, unreliable: set<string>) {
    forall l | l in locals :: LocalOk(l, t, findings, unreliable)
  }

  /** A finding belongs to its analysis, and the row never shows another one. */
  ghost predicate AnalysesOk(analyses: seq<Analysis>, findings: map<nat, Finding>) {
    && FindingsOk(findings)
    && (forall a | a in findings :: a < |analyses| && findings[a].report == analyses[a].report)
    && (forall a: nat | a < |analyses| && analyses[a].found.Some? :: a in findings && findings[a] == analyses[a].found.value)
  }

  predicate OpenRun(runs: seq<Run>, r: nat) { r < |runs| && !Finished(runs[r]) }

  /** What a worker's stage says about its job and about what it works on. */
  predicate StageOk(g: Stage, job: Job, runs: seq<Run>, analyses: seq<Analysis>, findings: map<nat, Finding>) {
    match g
    case RunStart => job.kind.RunJob? && job.state.Queued? && OpenRun(runs, job.ref)
    case RunAnnounced => job.kind.RunJob? && job.state.Running? && OpenRun(runs, job.ref)
    case RunMarked => job.kind.RunJob? && job.state.Running? && OpenRun(runs, job.ref)
    case RunDone(ok) => job.kind.RunJob? && job.state.Running?
    case AnalysisStart => job.kind.AnalyzeJob? && job.state.Queued? && job.ref < |analyses| && job.ref !in findings
    case AnalysisExtracting(saved) => job.kind.AnalyzeJob? && job.state.Extracting? && job.ref < |analyses| && job.ref !in findings
    case AnalysisRefused => job.kind.AnalyzeJob? && job.state.Rejected?
    case AnalysisValidating(saved) => job.kind.AnalyzeJob? && job.state.Validating? && job.ref < |analyses| && job.ref !in findings
    case AnalysisSaved(status) => job.kind.AnalyzeJob? && job.state.Validating? && (status.Ready? || status.NeedsReview? || status.Rejected?)
    case AnalysisBroken(saved) => job.kind.AnalyzeJob?
    case Raised => true
  }

  /** Each run and analysis has at most one job. */
  predicate OneJobEach(jobs: seq<Job>) { forall i, j | 0 <= i < j < |jobs| :: jobs[i].kind != jobs[j].kind || jobs[i].ref != jobs[j].ref }

  predicate WorkersOk(workers: map<nat, Stage>, jobs: seq<Job>, runs: seq<Run>, analyses: seq<Analysis>, findings: map<nat, Finding>) {
    forall j | j in workers :: j < |jobs| && StageOk(workers[j], jobs[j], runs, analyses, findings)
  }

  predicate Unsubmitted(task: Task, jobs: seq<Job>) { forall i | 0 <= i < |jobs| :: jobs[i].kind != TaskKind(task) || jobs[i].ref != TaskRef(task) }

  predicate TaskOk(task: Task, jobs: seq<Job>, runs: seq<Run>, analyses: seq<Analysis>, findings: map<nat, Finding>) {
    && Unsubmitted(task, jobs)
    && if task.RunTask? then OpenRun(runs, task.run) else task.analysis < |analyses| && task.analysis !in findings
  }

  predicate TasksOk(pending: set<Task>, jobs: seq<Job>, runs: seq<Run>, analyses: seq<Analysis>, findings: map<nat, Finding>) {
    forall task | task in pending :: TaskOk(task, jobs, runs, analyses, findings)
  }

  predicate RefsOk(jobs: seq<Job>, runs: seq<Run>, analyses: seq<Analysis>) {
    forall j | 0 <= j < |jobs| :: if jobs[j].kind.RunJob? then jobs[j].ref < |runs| else jobs[j].ref < |analyses|
  }

  /** While the service is up, every job in flight has a worker; while it is down there are none. */
  predicate Tended(jobs: seq<Job>, workers: map<nat, Stage>, up: bool) { up ==> forall j: nat | j < |jobs| && InFlight(jobs[j].state) :: j in workers }

  predicate DownIsQuiet(w: World) { !w.up ==> w.workers == map[] && w.pending == {} && w.locals == {} }

  ghost predicate JobsOk(w: World) {
    && AllOnPath(w.jobs) && OneJobEach(w.jobs) && RefsOk(w.jobs, w.t.runs, w.analyses)
    && WorkersOk(w.workers, w.jobs, w.t.runs, w.analyses, w.findings)
    && TasksOk(w.pending, w.jobs, w.t.runs, w.analyses, w.findings)
    && Tended(w.jobs, w.workers, w.up) && DownIsQuiet(w)
  }

  ghost predicate WorldOk(w: World, unreliable: set<string>) {
    && TablesOk(w.t, w.findings, unreliable) && AnalysesOk(w.analyses, w.findings)
    && LocalsOk(w.locals, w.t, w.findings, unreliable) && JobsOk(w)
  }
}
