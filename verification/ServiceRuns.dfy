/** What holds in every state of every run of the service, whatever is interleaved and whenever it dies. */
module ServiceRuns {
  import opened Ordering
  import opened Behaviours
  import opened Validation
  import opened DatasetSupport
  import opened Jobs
  import opened Refinement
  import opened Lifecycle
  import opened LifecycleLaws
  import opened LifecycleKeeps
  import opened Interleavings

  // ------------------------------------------------------------------ stale reads stay true

  predicate FindingsGrow(a: map<nat, Finding>, b: map<nat, Finding>) { forall k | k in a :: k in b && b[k] == a[k] }

  lemma {:induction false} LocalStays(l: Local, t: Tables, b: Tables, f: map<nat, Finding>, g: map<nat, Finding>, unreliable: set<string>)
    requires LocalOk(l, t, f, unreliable) && TablesGrow(t, b) && FindingsGrow(f, g)
    ensures LocalOk(l, b, g, unreliable)
  {
    if l.Preflighted? {
      RunsStay([Run(l.version, l.dataset, l.datasetVersion, l.purpose, RunQueued)], t.versions, b.versions, t.datasets, b.datasets, unreliable);
      assert RunOk([Run(l.version, l.dataset, l.datasetVersion, l.purpose, RunQueued)][0], b.versions, b.datasets, unreliable);
    }
  }

  lemma {:induction false} LocalsStay(locals: set<Local>, t: Tables, b: Tables, f: map<nat, Finding>, g: map<nat, Finding>, unreliable: set<string>)
    requires LocalsOk(locals, t, f, unreliable) && TablesGrow(t, b) && FindingsGrow(f, g)
    ensures LocalsOk(locals, b, g, unreliable)
  {
    forall l | l in locals ensures LocalOk(l, b, g, unreliable) { LocalStays(l, t, b, f, g, unreliable); }
  }

  lemma {:induction false} Unchanged(t: Tables)
    ensures TablesGrow(t, t)
  {}

  /** Nothing is deleted or rewritten: rows, decisions, events, findings and job histories only grow. */
  predicate WorldGrows(a: World, b: World) { TablesGrow(a.t, b.t) && HistoriesGrow(a.jobs, b.jobs) && FindingsGrow(a.findings, b.findings) }

  lemma {:induction false} JobsUnchanged(jobs: seq<Job>)
    ensures HistoriesGrow(jobs, jobs)
  {}

  lemma {:induction false} OnlyTablesGrow(w: World, b: World)
    requires TablesGrow(w.t, b.t) && b.jobs == w.jobs && b.findings == w.findings
    ensures WorldGrows(w, b)
  {
    JobsUnchanged(w.jobs);
  }

  // ------------------------------------------------------------------ a call reads

  lemma {:induction false} LearnedKeeps(w: World, l: Local, unreliable: set<string>)
    requires WorldOk(w, unreliable) && w.up && LocalOk(l, w.t, w.findings, unreliable)
    ensures WorldOk(Learned(w, l), unreliable)
  {
    assert LocalsOk(w.locals + {l}, w.t, w.findings, unreliable);
  }

  lemma {:induction false} ReadStep(w: World, l: Local, unreliable: set<string>)
    requires WorldOk(w, unreliable) && w.up && CanRead(w, l, unreliable)
    ensures WorldOk(Learned(w, l), unreliable) && WorldGrows(w, Learned(w, l))
  {
    ReadingsOk(w, l, unreliable);
    LearnedKeeps(w, l, unreliable);
    Unchanged(w.t);
    OnlyTablesGrow(w, Learned(w, l));
  }

  /** Whatever a call can read is a fact that later writes cannot undo. */
  lemma {:induction false} ReadingsOk(w: World, l: Local, unreliable: set<string>)
    requires WorldOk(w, unreliable) && CanRead(w, l, unreliable)
    ensures LocalOk(l, w.t, w.findings, unreliable)
  {
    if l.Recompiled? {
      assert LocalOk(SawRefinable(l.version, l.rule, l.analysis), w.t, w.findings, unreliable);
      var f := w.findings[l.analysis];
      var o :| l.spec == Overridden(f.spec, f.compiled.behaviour, o);
      RefinementOnly(f.spec, o, f.compiled, l.compiled);
    } else if l.SawCurrent? || l.SawAfter? {
      assert DatasetOk(w.t.datasets[l.dataset]);
    }
  }

  // ------------------------------------------------------------------ a call writes

  /** Writing tables, without closing any run, keeps jobs, workers and stale reads in order. */
  lemma {:induction false} TablesWritten(w: World, b: Tables, unreliable: set<string>)
    requires WorldOk(w, unreliable) && TablesOk(b, w.findings, unreliable) && TablesGrow(w.t, b)
    requires forall r: nat | OpenRun(w.t.runs, r) :: OpenRun(b.runs, r)
    ensures WorldOk(w.(t := b), unreliable)
  {
    LocalsStay(w.locals, w.t, b, w.findings, w.findings, unreliable);
    forall j | j in w.workers ensures j < |w.jobs| && StageOk(w.workers[j], w.jobs[j], b.runs, w.analyses, w.findings) {
      assert StageOk(w.workers[j], w.jobs[j], w.t.runs, w.analyses, w.findings);
    }
    forall task | task in w.pending ensures TaskOk(task, w.jobs, b.runs, w.analyses, w.findings) {
      assert TaskOk(task, w.jobs, w.t.runs, w.analyses, w.findings);
    }
  }

  /** Every write transaction keeps the tables in order, from a stale reading that was once true. */
  lemma {:induction false} CommitsKeep(t: Tables, l: Local, findings: map<nat, Finding>, unreliable: set<string>)
    requires TablesOk(t, findings, unreliable) && FindingsOk(findings) && LocalOk(l, t, findings, unreliable) && Commits(l)
    ensures TablesOk(Committed(t, l, unreliable), findings, unreliable) && TablesGrow(t, Committed(t, l, unreliable))
    ensures Committed(t, l, unreliable).runs == t.runs
  {
    match l
    case SawReady(a, f) => CreateKeeps(t, a, f, findings, unreliable);
    case Recompiled(v, rule, a, spec, compiled) => RefineKeeps(t, v, rule, a, spec, compiled, findings, unreliable);
    case SawReviewed(v, run) => ApproveKeeps(t, v, run, findings, unreliable);
    case SawVersion(v, reviewed) => RejectKeeps(t, v, reviewed, findings, unreliable);
    case SawAfter(dataset, before, to) => SchemaEventKeeps(t, dataset, before, to, t.datasets[dataset].profiles[to], findings, unreliable);
  }

  lemma {:induction false} CommitStep(w: World, l: Local, unreliable: set<string>)
    requires WorldOk(w, unreliable) && l in w.locals && Commits(l)
    ensures var b := w.(t := Committed(w.t, l, unreliable)); WorldOk(b, unreliable) && WorldGrows(w, b)
  {
    CommitsKeep(w.t, l, w.findings, unreliable);
    TablesWritten(w, Committed(w.t, l, unreliable), unreliable);
    OnlyTablesGrow(w, w.(t := Committed(w.t, l, unreliable)));
  }

  lemma {:induction false} RegisterStep(w: World, dataset: string, p: Profile, unreliable: set<string>)
    requires WorldOk(w, unreliable)
    ensures var b := w.(t := RegisterTx(w.t, dataset, p)); WorldOk(b, unreliable) && WorldGrows(w, b)
  {
    RegisterKeeps(w.t, dataset, p, w.findings, unreliable);
    TablesWritten(w, RegisterTx(w.t, dataset, p), unreliable);
    OnlyTablesGrow(w, w.(t := RegisterTx(w.t, dataset, p)));
  }

  lemma {:induction false} DeriveWritten(w: World, dataset: string, current: nat, p: Profile, unreliable: set<string>)
    requires WorldOk(w, unreliable) && dataset in w.t.datasets && current in w.t.datasets[dataset].profiles
    ensures var b := DeriveTx(w.t, dataset, current + 1, p);
            WorldOk(w.(t := b), unreliable) && TablesGrow(w.t, b) && dataset in b.datasets
  {
    DeriveKeeps(w.t, dataset, current, p, w.findings, unreliable);
    TablesWritten(w, DeriveTx(w.t, dataset, current + 1, p), unreliable);
  }

  lemma {:induction false} DerivedGrows(w: World, dataset: string, before: nat, current: nat, p: Profile)
    requires TablesGrow(w.t, DeriveTx(w.t, dataset, current + 1, p))
    ensures WorldGrows(w, DerivedWorld(w, dataset, before, current, p))
  {
    OnlyTablesGrow(w, DerivedWorld(w, dataset, before, current, p));
  }

  lemma {:induction false} DeriveStep(w: World, dataset: string, before: nat, current: nat, p: Profile, unreliable: set<string>)
    requires WorldOk(w, unreliable) && w.up && dataset in w.t.datasets && current in w.t.datasets[dataset].profiles
    ensures var b := DerivedWorld(w, dataset, before, current, p); WorldOk(b, unreliable) && WorldGrows(w, b)
  {
    DeriveWritten(w, dataset, current, p, unreliable);
    Unchanged(w.t);
    var after := w.(t := DeriveTx(w.t, dataset, current + 1, p));
    if after.t != w.t { LearnedKeeps(after, Derived(dataset, before), unreliable); }
    DerivedGrows(w, dataset, before, current, p);
  }

  /** A run's row is inserted; its job is still to be submitted. */
  lemma {:induction false} InsertRunStep(w: World, v: nat, purpose: Purpose, dataset: string, n: nat, unreliable: set<string>)
    requires WorldOk(w, unreliable) && w.up && RunOk(Run(v, dataset, n, purpose, RunQueued), w.t.versions, w.t.datasets, unreliable)
    ensures var b := RunInserted(w, v, purpose, dataset, n); WorldOk(b, unreliable) && WorldGrows(w, b)
  {
    InsertRunKeeps(w.t, v, dataset, n, purpose, w.findings, unreliable);
    OnlyTablesGrow(w, RunInserted(w, v, purpose, dataset, n));
    var b := InsertRunTx(w.t, v, dataset, n, purpose);
    TablesWritten(w, b, unreliable);
    var task := RunTask(|w.t.runs|);
    assert TaskOk(task, w.jobs, b.runs, w.analyses, w.findings);
    assert TasksOk(w.pending + {task}, w.jobs, b.runs, w.analyses, w.findings);
  }

  lemma {:induction false} InsertAnalysisStep(w: World, report: nat, data: Option<Source>, unreliable: set<string>)
    requires WorldOk(w, unreliable) && w.up
    ensures WorldOk(AnalysisInserted(w, report, data), unreliable) && WorldGrows(w, AnalysisInserted(w, report, data))
  {
    Unchanged(w.t);
    OnlyTablesGrow(w, AnalysisInserted(w, report, data));
    var analyses := w.analyses + [Analysis(report, data, Queued, None)];
    var task := AnalysisTask(|w.analyses|);
    forall j | j in w.workers ensures j < |w.jobs| && StageOk(w.workers[j], w.jobs[j], w.t.runs, analyses, w.findings) {
      assert StageOk(w.workers[j], w.jobs[j], w.t.runs, w.analyses, w.findings);
    }
    forall other | other in w.pending + {task} ensures TaskOk(other, w.jobs, w.t.runs, analyses, w.findings) {
      if other != task { assert TaskOk(other, w.jobs, w.t.runs, w.analyses, w.findings); }
    }
    assert AnalysesOk(analyses, w.findings);
  }

  lemma {:induction false} SubmittedJobs(w: World, task: Task)
    requires AllOnPath(w.jobs) && OneJobEach(w.jobs) && RefsOk(w.jobs, w.t.runs, w.analyses)
    requires TaskOk(task, w.jobs, w.t.runs, w.analyses, w.findings)
    ensures var jobs := Submitted(w.jobs, TaskKind(task), TaskRef(task));
            AllOnPath(jobs) && OneJobEach(jobs) && RefsOk(jobs, w.t.runs, w.analyses)
  {}

  lemma {:induction false} SubmittedWorkers(w: World, task: Task)
    requires WorkersOk(w.workers, w.jobs, w.t.runs, w.analyses, w.findings) && TaskOk(task, w.jobs, w.t.runs, w.analyses, w.findings)
    ensures var jobs := Submitted(w.jobs, TaskKind(task), TaskRef(task));
            var workers := w.workers[|w.jobs| := if task.RunTask? then RunStart else AnalysisStart];
            WorkersOk(workers, jobs, w.t.runs, w.analyses, w.findings) && (Tended(w.jobs, w.workers, w.up) ==> Tended(jobs, workers, w.up))
  {
    var jobs, workers := Submitted(w.jobs, TaskKind(task), TaskRef(task)), w.workers[|w.jobs| := if task.RunTask? then RunStart else AnalysisStart];
    forall j | j in workers ensures j < |jobs| && StageOk(workers[j], jobs[j], w.t.runs, w.analyses, w.findings) {
      if j != |w.jobs| { assert StageOk(w.workers[j], w.jobs[j], w.t.runs, w.analyses, w.findings); }
    }
  }

  lemma {:induction false} SubmittedTasks(w: World, task: Task)
    requires TasksOk(w.pending, w.jobs, w.t.runs, w.analyses, w.findings)
    ensures TasksOk(w.pending - {task}, Submitted(w.jobs, TaskKind(task), TaskRef(task)), w.t.runs, w.analyses, w.findings)
  {
    var jobs := Submitted(w.jobs, TaskKind(task), TaskRef(task));
    forall other | other in w.pending - {task} ensures TaskOk(other, jobs, w.t.runs, w.analyses, w.findings) {
      assert TaskOk(other, w.jobs, w.t.runs, w.analyses, w.findings);
    }
  }

  /** The job of a pending row is submitted, and a worker takes it. */
  lemma {:induction false} SubmitStep(w: World, task: Task, unreliable: set<string>)
    requires WorldOk(w, unreliable) && w.up && task in w.pending
    ensures WorldOk(SubmittedWorld(w, task), unreliable) && WorldGrows(w, SubmittedWorld(w, task))
  {
    Unchanged(w.t);
    JobStepsGrow(w.jobs, TaskKind(task), TaskRef(task), 0, Failed);
    assert TaskOk(task, w.jobs, w.t.runs, w.analyses, w.findings);
    SubmittedJobs(w, task);
    SubmittedWorkers(w, task);
    SubmittedTasks(w, task);
  }

  // ------------------------------------------------------------------ a worker moves

  /** Only job `j` changes, and it stays the job it was. */
  predicate OnlyJob(a: seq<Job>, b: seq<Job>, j: nat) {
    && |a| == |b| && j < |a| && a[j].kind == b[j].kind && a[j].ref == b[j].ref
    && forall i | 0 <= i < |a| && i != j :: b[i] == a[i]
  }

  lemma {:induction false} MovedJobOnly(jobs: seq<Job>, j: nat, g: Stage, m: Move)
    requires j < |jobs|
    ensures OnlyJob(jobs, MovedJobs(jobs, j, g, m), j)
  {}

  /** A legal move is a legal step of the job's machine. */
  lemma {:induction false} MoveOnPath(w: World, j: nat, m: Move, report: nat)
    requires AllOnPath(w.jobs) && j in w.workers && j < |w.jobs|
    requires StageOk(w.workers[j], w.jobs[j], w.t.runs, w.analyses, w.findings) && MayMove(w.workers[j], m, report)
    ensures AllOnPath(MovedJobs(w.jobs, j, w.workers[j], m))
  {
    var s := Announced(w.workers[j], m);
    if s.Some? { TransitionKeepsPaths(w.jobs, j, s.value); }
  }

  /** The runs after a worker of job `job` moves: only its own can close, and only by finishing. */
  ghost predicate OnlyRun(a: seq<Run>, b: seq<Run>, job: Job, m: Move) {
    && |a| == |b| && forall r: nat | OpenRun(a, r) && !(job.kind.RunJob? && job.ref == r && m.Finish?) :: OpenRun(b, r)
  }

  /** The findings after it: only its own analysis can be concluded. */
  ghost predicate OnlyFinding(a: map<nat, Finding>, b: map<nat, Finding>, job: Job, m: Move) {
    forall k: nat | k !in a && !(job.kind.AnalyzeJob? && job.ref == k && m.Conclude?) :: k !in b
  }

  lemma {:induction false} OtherWorker(i: nat, j: nat, m: Move, w: World, runs: seq<Run>, analyses: seq<Analysis>, findings: map<nat, Finding>)
    requires OneJobEach(w.jobs) && i < |w.jobs| && j < |w.jobs| && i != j && i in w.workers
    requires StageOk(w.workers[i], w.jobs[i], w.t.runs, w.analyses, w.findings)
    requires OnlyRun(w.t.runs, runs, w.jobs[j], m) && |analyses| == |w.analyses| && OnlyFinding(w.findings, findings, w.jobs[j], m)
    ensures StageOk(w.workers[i], w.jobs[i], runs, analyses, findings)
  {
    if i < j { assert w.jobs[i].kind != w.jobs[j].kind || w.jobs[i].ref != w.jobs[j].ref; }
    else { assert w.jobs[j].kind != w.jobs[i].kind || w.jobs[j].ref != w.jobs[i].ref; }
  }

  /** The mover's own next stage fits its job, or the job is over. */
  lemma {:induction false} OwnStage(w: World, j: nat, m: Move, report: nat, runs: seq<Run>, analyses: seq<Analysis>, findings: map<nat, Finding>)
    requires j in w.workers && j < |w.jobs| && StageOk(w.workers[j], w.jobs[j], w.t.runs, w.analyses, w.findings) && MayMove(w.workers[j], m, report)
    requires OnlyRun(w.t.runs, runs, w.jobs[j], m) && |analyses| == |w.analyses| && OnlyFinding(w.findings, findings, w.jobs[j], m)
    ensures var job := MovedJobs(w.jobs, j, w.workers[j], m)[j];
            if NextStage(m).Some? then StageOk(NextStage(m).value, job, runs, analyses, findings) else !InFlight(job.state)
  {
    EitherOr(w.jobs[j].state);
  }

  lemma {:induction false} TasksStay(w: World, j: nat, m: Move, jobs: seq<Job>, runs: seq<Run>, analyses: seq<Analysis>, findings: map<nat, Finding>)
    requires TasksOk(w.pending, w.jobs, w.t.runs, w.analyses, w.findings) && OnlyJob(w.jobs, jobs, j)
    requires OnlyRun(w.t.runs, runs, w.jobs[j], m) && |analyses| == |w.analyses| && OnlyFinding(w.findings, findings, w.jobs[j], m)
    ensures TasksOk(w.pending, jobs, runs, analyses, findings)
  {
    forall task | task in w.pending ensures TaskOk(task, jobs, runs, analyses, findings) {
      assert TaskOk(task, w.jobs, w.t.runs, w.analyses, w.findings);
      assert w.jobs[j].kind != TaskKind(task) || w.jobs[j].ref != TaskRef(task);
    }
  }

  lemma {:induction false} MovedWorkersOk(w: World, j: nat, m: Move, report: nat, runs: seq<Run>, analyses: seq<Analysis>, findings: map<nat, Finding>)
    requires j in w.workers && j < |w.jobs| && MayMove(w.workers[j], m, report) && OneJobEach(w.jobs)
    requires WorkersOk(w.workers, w.jobs, w.t.runs, w.analyses, w.findings)
    requires OnlyRun(w.t.runs, runs, w.jobs[j], m) && |analyses| == |w.analyses| && OnlyFinding(w.findings, findings, w.jobs[j], m)
    ensures WorkersOk(MovedWorkers(w.workers, j, m), MovedJobs(w.jobs, j, w.workers[j], m), runs, analyses, findings)
    ensures Tended(w.jobs, w.workers, w.up) ==> Tended(MovedJobs(w.jobs, j, w.workers[j], m), MovedWorkers(w.workers, j, m), w.up)
  {
    var jobs, workers := MovedJobs(w.jobs, j, w.workers[j], m), MovedWorkers(w.workers, j, m);
    MovedJobOnly(w.jobs, j, w.workers[j], m);
    OwnStage(w, j, m, report, runs, analyses, findings);
    forall i | i in workers ensures i < |jobs| && StageOk(workers[i], jobs[i], runs, analyses, findings) {
      if i != j { OtherWorker(i, j, m, w, runs, analyses, findings); }
    }
  }

  lemma {:induction false} FinishedOnly(t: Tables, r: nat, ok: bool, job: Job)
    requires job.kind.RunJob? && job.ref == r
    ensures OnlyRun(t.runs, FinishRunTx(t, r, ok).runs, job, Finish(ok))
  {}

  /** The rows a worker's move writes. */
  lemma {:induction false} RunMoveTables(t: Tables, findings: map<nat, Finding>, analyses: seq<Analysis>, g: Stage, job: Job, m: Move, report: nat,
                                          unreliable: set<string>)
    requires TablesOk(t, findings, unreliable) && job.kind.RunJob? && StageOk(g, job, t.runs, analyses, findings) && MayMove(g, m, report)
    ensures var b := RunTables(t, m, job.ref);
            TablesOk(b, findings, unreliable) && TablesGrow(t, b) && OnlyRun(t.runs, b.runs, job, m)
  {
    if m.Mark? {
      MarkRunningKeeps(t, job.ref, findings, unreliable);
    } else if m.Finish? {
      FinishRunKeeps(t, job.ref, m.ok, findings, unreliable);
      FinishedOnly(t, job.ref, m.ok, job);
    } else {
      Unchanged(t);
    }
  }

  /** A move leaves jobs, workers and pending submissions in order, whatever of its own it writes. */
  lemma {:induction false} MovedInOrder(w: World, j: nat, m: Move, report: nat, b: World)
    requires JobsOk(w) && w.up && j in w.workers && j < |w.jobs| && MayMove(w.workers[j], m, report)
    requires b.jobs == MovedJobs(w.jobs, j, w.workers[j], m) && b.workers == MovedWorkers(w.workers, j, m)
    requires b.pending == w.pending && b.up == w.up && |b.analyses| == |w.analyses|
    requires OnlyRun(w.t.runs, b.t.runs, w.jobs[j], m) && OnlyFinding(w.findings, b.findings, w.jobs[j], m)
    ensures JobsOk(b)
  {
    MoveOnPath(w, j, m, report);
    MovedJobOnly(w.jobs, j, w.workers[j], m);
    MovedWorkersOk(w, j, m, report, b.t.runs, b.analyses, b.findings);
    TasksStay(w, j, m, b.jobs, b.t.runs, b.analyses, b.findings);
  }

  lemma {:induction false} RunMoveKeeps(w: World, j: nat, m: Move, report: nat, unreliable: set<string>)
    requires WorldOk(w, unreliable) && w.up && j in w.workers && j < |w.jobs| && w.jobs[j].kind.RunJob? && MayMove(w.workers[j], m, report)
    ensures WorldOk(Moved(w, j, m), unreliable)
    ensures TablesGrow(w.t, Moved(w, j, m).t) && FindingsGrow(w.findings, Moved(w, j, m).findings)
  {
    RunMoveTables(w.t, w.findings, w.analyses, w.workers[j], w.jobs[j], m, report, unreliable);
    MovedInOrder(w, j, m, report, Moved(w, j, m));
    LocalsStay(w.locals, w.t, RunTables(w.t, m, w.jobs[j].ref), w.findings, w.findings, unreliable);
  }

  lemma {:induction false} ConcludedOnce(w: World, j: nat, m: Move, unreliable: set<string>)
    requires TablesOk(w.t, w.findings, unreliable) && j in w.workers && j < |w.jobs| && w.jobs[j].kind.AnalyzeJob?
    requires StageOk(w.workers[j], w.jobs[j], w.t.runs, w.analyses, w.findings)
    requires w.jobs[j].ref < |w.analyses| && MayMove(w.workers[j], m, w.analyses[w.jobs[j].ref].report)
    ensures var b := Moved(w, j, m);
            TablesOk(w.t, b.findings, unreliable) && FindingsGrow(w.findings, b.findings) && OnlyFinding(w.findings, b.findings, w.jobs[j], m)
  {
    if m.Conclude? && m.finding.Some? { FindingKeeps(w.t, w.findings, w.jobs[j].ref, m.finding.value, unreliable); }
  }

  /** An analysis is saved, and concluded at most once. */
  lemma {:induction false} AnalysisSavedOk(w: World, j: nat, m: Move)
    requires AnalysesOk(w.analyses, w.findings) && j in w.workers && j < |w.jobs| && w.jobs[j].kind.AnalyzeJob?
    requires StageOk(w.workers[j], w.jobs[j], w.t.runs, w.analyses, w.findings)
    requires w.jobs[j].ref < |w.analyses| && MayMove(w.workers[j], m, w.analyses[w.jobs[j].ref].report)
    ensures var b := Moved(w, j, m); AnalysesOk(b.analyses, b.findings) && |b.analyses| == |w.analyses|
  {
    var a, b := w.jobs[j].ref, Moved(w, j, m);
    forall k: nat | k < |b.analyses| && b.analyses[k].found.Some? ensures k in b.findings && b.findings[k] == b.analyses[k].found.value {
      if k != a { assert w.analyses[k].found.Some?; }
    }
  }

  lemma {:induction false} AnalysisMoveKeeps(w: World, j: nat, m: Move, unreliable: set<string>)
    requires WorldOk(w, unreliable) && w.up && j in w.workers && j < |w.jobs| && w.jobs[j].kind.AnalyzeJob?
    requires w.jobs[j].ref < |w.analyses| && MayMove(w.workers[j], m, w.analyses[w.jobs[j].ref].report)
    ensures WorldOk(Moved(w, j, m), unreliable)
    ensures TablesGrow(w.t, Moved(w, j, m).t) && FindingsGrow(w.findings, Moved(w, j, m).findings)
  {
    var report, b := w.analyses[w.jobs[j].ref].report, Moved(w, j, m);
    assert StageOk(w.workers[j], w.jobs[j], w.t.runs, w.analyses, w.findings);
    ConcludedOnce(w, j, m, unreliable);
    AnalysisSavedOk(w, j, m);
    Unchanged(w.t);
    MovedInOrder(w, j, m, report, b);
    LocalsStay(w.locals, w.t, w.t, w.findings, b.findings, unreliable);
  }

  // ------------------------------------------------------------------ crashing and restarting

  /** A crash loses the workers, the requests and what was read, and nothing else. */
  lemma {:induction false} CrashStep(w: World, unreliable: set<string>)
    requires WorldOk(w, unreliable) && w.up
    ensures WorldOk(Crashed(w), unreliable) && WorldGrows(w, Crashed(w))
  {
    Unchanged(w.t);
    OnlyTablesGrow(w, Crashed(w));
  }

  /** After a restart no earlier job is in flight. */
  lemma {:induction false} RecoverStep(w: World, unreliable: set<string>)
    requires WorldOk(w, unreliable) && !w.up
    ensures WorldOk(Restarted(w), unreliable) && WorldGrows(w, Restarted(w))
    ensures forall j | j in Restarted(w).jobs :: !InFlight(j.state)
  {
    Unchanged(w.t);
    JobStepsGrow(w.jobs, RunJob, 0, 0, Failed);
    RecoverKeepsPaths(w.jobs);
    var jobs := Recovered(w.jobs);
    forall j | j in jobs ensures !InFlight(j.state) { EitherOr(j.state); }
    forall j: nat | j < |jobs| ensures !InFlight(jobs[j].state) { assert jobs[j] in jobs; }
  }

  // ------------------------------------------------------------------ every run

  lemma {:induction false} MovedHistories(jobs: seq<Job>, j: nat, g: Stage, m: Move)
    requires j < |jobs|
    ensures HistoriesGrow(jobs, MovedJobs(jobs, j, g, m))
  {
    JobsUnchanged(jobs);
    if Announced(g, m).Some? { JobStepsGrow(jobs, jobs[j].kind, 0, j, Announced(g, m).value); }
  }

  lemma {:induction false} WorkKeeps(w: World, j: nat, m: Move, unreliable: set<string>)
    requires WorldOk(w, unreliable) && w.up && j in w.workers && j < |w.jobs|
    requires MayMove(w.workers[j], m, if w.jobs[j].ref < |w.analyses| then w.analyses[w.jobs[j].ref].report else 0)
    ensures WorldOk(Moved(w, j, m), unreliable) && WorldGrows(w, Moved(w, j, m))
  {
    assert RefsOk(w.jobs, w.t.runs, w.analyses);
    MovedHistories(w.jobs, j, w.workers[j], m);
    if w.jobs[j].kind.RunJob? {
      RunMoveKeeps(w, j, m, if w.jobs[j].ref < |w.analyses| then w.analyses[w.jobs[j].ref].report else 0, unreliable);
    } else {
      AnalysisMoveKeeps(w, j, m, unreliable);
    }
  }

  /** Every step keeps the invariant and only adds to the record. */
  lemma {:induction false} StepKeeps(w: World, s: Step, unreliable: set<string>)
    requires WorldOk(w, unreliable) && Enabled(w, s, unreliable)
    ensures WorldOk(Do(w, s, unreliable), unreliable) && WorldGrows(w, Do(w, s, unreliable))
  {
    match s
    case Read(l) => ReadStep(w, l, unreliable);
    case Commit(l) => CommitStep(w, l, unreliable);
    case InsertRun(l) =>
      assert LocalOk(l, w.t, w.findings, unreliable);
      InsertRunStep(w, l.version, l.purpose, l.dataset, l.datasetVersion, unreliable);
    case Derive(l) =>
      assert LocalOk(l, w.t, w.findings, unreliable);
      DeriveStep(w, l.dataset, l.before, l.current, l.derived, unreliable);
    case Register(dataset, p) => RegisterStep(w, dataset, p, unreliable);
    case InsertAnalysis(report, data) => InsertAnalysisStep(w, report, data, unreliable);
    case Submit(task) => SubmitStep(w, task, unreliable);
    case Work(j, m) => WorkKeeps(w, j, m, unreliable);
    case Crash => CrashStep(w, unreliable);
    case Recover => RecoverStep(w, unreliable);
  }

  lemma {:induction false} FreshOk(unreliable: set<string>)
    ensures WorldOk(FRESH, unreliable)
  {}

  lemma {:induction false} NextKeeps(a: World, b: World, unreliable: set<string>)
    requires WorldOk(a, unreliable) && Next(a, b, unreliable)
    ensures WorldOk(b, unreliable) && WorldGrows(a, b)
  {
    var s :| Enabled(a, s, unreliable) && b == Do(a, s, unreliable);
    StepKeeps(a, s, unreliable);
  }

  /** All but the last state of a run are a run. */
  lemma {:induction false} EarlierRun(trace: seq<World>, unreliable: set<string>)
    requires IsRun(trace, unreliable) && |trace| > 1
    ensures IsRun(trace[..|trace| - 1], unreliable) && Next(trace[|trace| - 2], trace[|trace| - 1], unreliable)
  {
    var before := trace[..|trace| - 1];
    forall i | 0 < i < |before| ensures Next(before[i - 1], before[i], unreliable) { assert Next(trace[i - 1], trace[i], unreliable); }
    var n := |trace| - 1;
    assert Next(trace[n - 1], trace[n], unreliable);
  }

  ghost predicate AllOk(trace: seq<World>, unreliable: set<string>) { forall i | 0 <= i < |trace| :: WorldOk(trace[i], unreliable) }

  ghost predicate AllGrow(trace: seq<World>) { forall i | 0 < i < |trace| :: WorldGrows(trace[i - 1], trace[i]) }

  lemma {:induction false} AllOkLater(trace: seq<World>, unreliable: set<string>)
    requires |trace| > 0 && AllOk(trace[..|trace| - 1], unreliable) && WorldOk(trace[|trace| - 1], unreliable)
    ensures AllOk(trace, unreliable)
  {
    var before := trace[..|trace| - 1];
    forall i | 0 <= i < |trace| ensures WorldOk(trace[i], unreliable) {
      if i < |before| { assert before[i] == trace[i]; }
    }
  }

  lemma {:induction false} AllGrowLater(trace: seq<World>)
    requires |trace| > 1 && AllGrow(trace[..|trace| - 1]) && WorldGrows(trace[|trace| - 2], trace[|trace| - 1])
    ensures AllGrow(trace)
  {
    var before := trace[..|trace| - 1];
    forall i | 0 < i < |trace| ensures WorldGrows(trace[i - 1], trace[i]) {
      if i < |before| { assert before[i - 1] == trace[i - 1] && before[i] == trace[i]; }
    }
  }

  /** The invariant holds in every state of every run, and the record only grows from each state to the next. */
  lemma {:induction false} EveryState(trace: seq<World>, unreliable: set<string>)
    requires IsRun(trace, unreliable)
    ensures forall i | 0 <= i < |trace| :: WorldOk(trace[i], unreliable)
    ensures forall i | 0 < i < |trace| :: WorldGrows(trace[i - 1], trace[i])
  {
    AllStates(trace, unreliable);
  }

  lemma {:induction false} AllStates(trace: seq<World>, unreliable: set<string>)
    requires IsRun(trace, unreliable)
    ensures AllOk(trace, unreliable) && AllGrow(trace)
  {
    var n := |trace| - 1;
    if n == 0 {
      FreshOk(unreliable);
    } else {
      EarlierRun(trace, unreliable);
      AllStates(trace[..n], unreliable);
      assert trace[..n][n - 1] == trace[n - 1];
      NextKeeps(trace[n - 1], trace[n], unreliable);
      AllOkLater(trace, unreliable);
      AllGrowLater(trace);
    }
  }

  /** A state some run of the service reaches. */
  ghost predicate Reachable(w: World, unreliable: set<string>) { exists trace :: IsRun(trace, unreliable) && trace[|trace| - 1] == w }

  lemma {:induction false} ReachableOk(w: World, unreliable: set<string>)
    requires Reachable(w, unreliable)
    ensures WorldOk(w, unreliable)
  {
    var trace :| IsRun(trace, unreliable) && trace[|trace| - 1] == w;
    EveryState(trace, unreliable);
  }

  // ------------------------------------------------------------------ what a reader of the tables can rely on

  predicate DecisionAt(decisions: seq<Decision>, v: nat, k: DecisionKind, i: nat) {
    i < |decisions| && decisions[i].version == v && decisions[i].kind == k
  }

  lemma {:induction false} HasAt(decisions: seq<Decision>, v: nat, k: DecisionKind)
    ensures Has(decisions, v, k) <==> exists i: nat :: DecisionAt(decisions, v, k, i)
  {
    if Has(decisions, v, k) {
      var d :| d in decisions && d.version == v && d.kind == k;
      var i: nat :| i < |decisions| && decisions[i] == d;
      assert DecisionAt(decisions, v, k, i);
    }
    if i: nat :| DecisionAt(decisions, v, k, i) { assert decisions[i] in decisions; }
  }

  lemma {:induction false} OnlyOnce(decisions: seq<Decision>, v: nat, k: DecisionKind, i: nat, j: nat)
    requires NoClash(decisions) && (k.Approve? || k.Reject?) && DecisionAt(decisions, v, k, i) && DecisionAt(decisions, v, k, j)
    ensures i == j
  {
    if i < j { assert Clash(decisions[i], decisions[j]); } else if j < i { assert Clash(decisions[j], decisions[i]); }
  }

  /** Approval safety: an approved version, or one paused from approval, has exactly one approval, and every approval names a completed
      execution run of that very version. */
  lemma {:induction false} ApprovalSafety(w: World, unreliable: set<string>, v: nat)
    requires Reachable(w, unreliable) && v < |w.t.versions|
    ensures Stands(w.t.versions[v], Approved) ==> exists i: nat :: DecisionAt(w.t.decisions, v, Approve, i)
    ensures forall i: nat, j: nat :: DecisionAt(w.t.decisions, v, Approve, i) && DecisionAt(w.t.decisions, v, Approve, j) ==> i == j
    ensures forall i: nat :: DecisionAt(w.t.decisions, v, Approve, i) ==> ReviewedRun(w.t, v, w.t.decisions[i].run)
  {
    ReachableOk(w, unreliable);
    var decisions := w.t.decisions;
    assert Decided(w.t.versions[v], v, decisions);
    HasAt(decisions, v, Approve);
    forall i: nat | DecisionAt(decisions, v, Approve, i) ensures ReviewedRun(w.t, v, decisions[i].run) {
      assert Backed(decisions[i], w.t.versions, w.t.runs);
    }
    forall i: nat, j: nat | DecisionAt(decisions, v, Approve, i) && DecisionAt(decisions, v, Approve, j) ensures i == j {
      OnlyOnce(decisions, v, Approve, i, j);
    }
  }

  lemma {:induction false} AfterRejection(decisions: seq<Decision>, v: nat)
    requires NoClash(decisions)
    ensures forall i: nat, j: nat, k :: DecisionAt(decisions, v, Reject, i) && i < j && DecisionAt(decisions, v, k, j) ==> k == Refine
  {
    forall i: nat, j: nat, k | DecisionAt(decisions, v, Reject, i) && i < j && DecisionAt(decisions, v, k, j) ensures k == Refine {
      assert !Clash(decisions[i], decisions[j]);
    }
  }

  /** A version is retired exactly when it was rejected, it is rejected at most once, and afterwards nothing but a refinement made from a
      stale reading is recorded about it. */
  lemma {:induction false} RejectionFinal(w: World, unreliable: set<string>, v: nat)
    requires Reachable(w, unreliable) && v < |w.t.versions|
    ensures w.t.versions[v].state.Retired? <==> exists i: nat :: DecisionAt(w.t.decisions, v, Reject, i)
    ensures forall i: nat, j: nat, k :: DecisionAt(w.t.decisions, v, Reject, i) && i < j && DecisionAt(w.t.decisions, v, k, j) ==> k == Refine
  {
    ReachableOk(w, unreliable);
    assert Decided(w.t.versions[v], v, w.t.decisions);
    HasAt(w.t.decisions, v, Reject);
    AfterRejection(w.t.decisions, v);
  }

  /** A completed execution run of the version. */
  predicate ReviewedRun(t: Tables, v: nat, run: Option<nat>) {
    run.Some? && run.value < |t.runs| && t.runs[run.value].version == v && t.runs[run.value].state.RunCompleted? && t.runs[run.value].purpose.Execute?
  }

  /** Pause and resume: a paused version was a draft or approved and has a blocked condition in the dataset version its reason names;
      every resumption names a completed revalidation run of that version, at most one per run; and every run ever created is on a
      dataset version whose profile supports the rule. */
  lemma {:induction false} PauseSoundness(w: World, unreliable: set<string>)
    requires Reachable(w, unreliable)
    ensures forall i | 0 <= i < |w.t.versions| && w.t.versions[i].state.Paused? :: PauseOk(w.t.versions[i], w.t.datasets, unreliable)
    ensures forall k: nat | k < |w.t.decisions| && w.t.decisions[k].kind.Resume? :: RevalidatedRun(w.t, w.t.decisions[k])
    ensures forall i, j | 0 <= i < j < |w.t.decisions| && w.t.decisions[i].kind.Resume? && w.t.decisions[j].kind.Resume? ::
              w.t.decisions[i].run != w.t.decisions[j].run
    ensures forall i | 0 <= i < |w.t.runs| :: RunOk(w.t.runs[i], w.t.versions, w.t.datasets, unreliable)
  {
    ReachableOk(w, unreliable);
    forall k: nat | k < |w.t.decisions| && w.t.decisions[k].kind.Resume? ensures RevalidatedRun(w.t, w.t.decisions[k]) {
      assert Backed(w.t.decisions[k], w.t.versions, w.t.runs);
    }
    forall i, j | 0 <= i < j < |w.t.decisions| && w.t.decisions[i].kind.Resume? && w.t.decisions[j].kind.Resume?
      ensures w.t.decisions[i].run != w.t.decisions[j].run
    {
      assert !Clash(w.t.decisions[i], w.t.decisions[j]);
    }
  }

  predicate RevalidatedRun(t: Tables, d: Decision) {
    && d.run.Some? && d.run.value < |t.runs| && t.runs[d.run.value].version == d.version
    && t.runs[d.run.value].state.RunCompleted? && t.runs[d.run.value].purpose.Revalidate?
  }

  /** A rule has exactly the versions 1..k, numbered in the order they were created, and there is one rule per report and behaviour. */
  lemma {:induction false} VersionNumbers(w: World, unreliable: set<string>, rule: nat)
    requires Reachable(w, unreliable)
    ensures forall k | 1 <= k <= CountOf(w.t.versions, rule) :: HasNumber(w.t.versions, rule, k)
    ensures forall i | 0 <= i < |w.t.versions| && w.t.versions[i].rule == rule :: 1 <= w.t.versions[i].number <= CountOf(w.t.versions, rule)
    ensures forall i, j | 0 <= i < j < |w.t.versions| && w.t.versions[i].rule == w.t.versions[j].rule :: w.t.versions[i].number < w.t.versions[j].number
    ensures forall i, j | 0 <= i < j < |w.t.rules| :: w.t.rules[i] != w.t.rules[j]
  {
    ReachableOk(w, unreliable);
    NumbersInOrder(w.t.versions, rule);
  }

  lemma {:induction false} NumbersInOrder(versions: seq<Version>, rule: nat)
    requires Numbered(versions)
    ensures forall k | 1 <= k <= CountOf(versions, rule) :: HasNumber(versions, rule, k)
    ensures forall i | 0 <= i < |versions| && versions[i].rule == rule :: 1 <= versions[i].number <= CountOf(versions, rule)
    ensures forall i, j | 0 <= i < j < |versions| && versions[i].rule == versions[j].rule :: versions[i].number < versions[j].number
  {
    forall k | 1 <= k <= CountOf(versions, rule) ensures HasNumber(versions, rule, k) { NumbersExact(versions, rule, k); }
    forall i, j | 0 <= i < j < |versions| && versions[i].rule == versions[j].rule ensures versions[i].number < versions[j].number {
      CountGrows(versions, i, j, versions[i].rule);
    }
    forall i | 0 <= i < |versions| && versions[i].rule == rule ensures 1 <= versions[i].number <= CountOf(versions, rule) {
      CountGrows(versions, i, |versions|, rule);
      assert versions[..|versions|] == versions;
    }
  }

  /** Every version's rule is the one its analysis found, up to an analyst's count or window, and its numbers are in range. */
  lemma {:induction false} VersionRules(w: World, unreliable: set<string>, i: nat)
    requires Reachable(w, unreliable) && i < |w.t.versions|
    ensures var v := w.t.versions[i];
            && v.analysis in w.findings && v.rule < |w.t.rules| && w.t.rules[v.rule] == Rule(w.findings[v.analysis].report, v.compiled.behaviour)
            && var found := w.findings[v.analysis].compiled;
               && v.compiled.recipe == found.recipe && v.compiled.template == found.template
               && (v.compiled == found || (Windowed(found.behaviour) && exists o :: RefinedNumbers(found, o, v.compiled)))
               && (Windowed(v.compiled.behaviour) ==>
                     ThresholdOf(v.compiled).Some? && v.compiled.timeWindowSeconds.Some?
                     && 1 <= ThresholdOf(v.compiled).value <= MAX_COUNT && 1 <= v.compiled.timeWindowSeconds.value <= MAX_WINDOW_SECONDS)
  {
    ReachableOk(w, unreliable);
    var v := w.t.versions[i];
    assert Originates(v, w.t.rules, w.findings);
    var f := w.findings[v.analysis];
    CompiledNumbers(v.spec, v.compiled, v.compiled);
    if v.spec == f.spec {
      CompiledNumbers(f.spec, v.compiled, f.compiled);
    } else {
      var o :| v.spec == Overridden(f.spec, f.compiled.behaviour, o);
      RefinementOnly(f.spec, o, f.compiled, v.compiled);
      assert RefinedNumbers(f.compiled, o, v.compiled);
    }
  }

  /** `d` has the overridden numbers and otherwise those of `c`. */
  predicate RefinedNumbers(c: Compiled, o: Overrides, d: Compiled) {
    && ThresholdOf(c).Some? && ThresholdOf(d).Some? && c.timeWindowSeconds.Some? && d.timeWindowSeconds.Some?
    && CountFits(c.behaviour, o, ThresholdOf(d).value, ThresholdOf(c).value)
    && WindowFits(o, d.timeWindowSeconds.value, c.timeWindowSeconds.value)
  }

  /** Every job's history is a path of its machine ending in its state, at most one entry is terminal and then it is the last, and while
      the service is up every job in flight has a worker. */
  lemma {:induction false} JobHistories(w: World, unreliable: set<string>, j: nat)
    requires Reachable(w, unreliable) && j < |w.jobs|
    ensures OnPath(w.jobs[j])
    ensures forall i: nat | i < |w.jobs[j].history| && Terminal(w.jobs[j].history[i]) :: i == |w.jobs[j].history| - 1
    ensures w.up && InFlight(w.jobs[j].state) ==> j in w.workers
  {
    ReachableOk(w, unreliable);
    forall i: nat | i < |w.jobs[j].history| && Terminal(w.jobs[j].history[i]) ensures i == |w.jobs[j].history| - 1 { TerminalIsLast(w.jobs[j], i); }
  }

  /** Dataset versions are numbered 1..current, whichever callers derive them at the same time. */
  lemma {:induction false} DatasetVersions(w: World, unreliable: set<string>, dataset: string)
    requires Reachable(w, unreliable) && dataset in w.t.datasets
    ensures forall k: nat :: k in w.t.datasets[dataset].profiles <==> 1 <= k <= w.t.datasets[dataset].current
  {
    ReachableOk(w, unreliable);
    assert DatasetOk(w.t.datasets[dataset]);
  }

  /** From any state of a run to any later one the record only grows: superseded and retired versions and finished runs and jobs never
      change again, decisions and histories are only appended to. */
  lemma {:induction false} RecordGrows(trace: seq<World>, unreliable: set<string>, i: nat, j: nat)
    requires IsRun(trace, unreliable) && i <= j < |trace|
    ensures WorldGrows(trace[i], trace[j])
    decreases j - i
  {
    if i == j {
      Unchanged(trace[i].t);
      JobsUnchanged(trace[i].jobs);
    } else {
      RecordGrows(trace, unreliable, i, j - 1);
      EveryState(trace, unreliable);
      GrowsThrough(trace[i], trace[j - 1], trace[j]);
    }
  }

  lemma {:induction false} GrowsThrough(a: World, b: World, c: World)
    requires WorldGrows(a, b) && WorldGrows(b, c)
    ensures WorldGrows(a, c)
  {
    VersionsThrough(a.t.versions, b.t.versions, c.t.versions);
    JobsThrough(a.jobs, b.jobs, c.jobs);
  }

  lemma {:induction false} VersionsThrough(a: seq<Version>, b: seq<Version>, c: seq<Version>)
    requires VersionsGrow(a, b) && VersionsGrow(b, c)
    ensures VersionsGrow(a, c)
  {
    forall i | 0 <= i < |a| ensures SameIdentity(a[i], c[i]) && (a[i].state.Superseded? || a[i].state.Retired? ==> c[i] == a[i]) {
      assert SameIdentity(a[i], b[i]) && SameIdentity(b[i], c[i]);
    }
  }

  lemma {:induction false} JobsThrough(a: seq<Job>, b: seq<Job>, c: seq<Job>)
    requires HistoriesGrow(a, b) && HistoriesGrow(b, c)
    ensures HistoriesGrow(a, c)
  {
    forall i | 0 <= i < |a| ensures a[i].history <= c[i].history { assert a[i].history <= b[i].history && b[i].history <= c[i].history; }
  }
}
