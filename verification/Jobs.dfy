/** Background jobs with persisted states (sentinelforge/service/jobs.py). */
module Jobs {

  datatype Kind = AnalyzeJob | RunJob

  datatype JobState = Queued | Extracting | Validating | Running | Ready | NeedsReview | Rejected | Completed | Failed

  predicate Terminal(s: JobState) { s.Ready? || s.NeedsReview? || s.Rejected? || s.Completed? || s.Failed? }

  /** The states in which a restart finds a job in flight. */
  predicate InFlight(s: JobState) { s.Queued? || s.Extracting? || s.Validating? || s.Running? }

  /** A job's row; `ref` is the analysis or run it works on. */
  datatype Job = Job(kind: Kind, ref: nat, state: JobState, history: seq<JobState>)

  /** Appending a state to the history, which the row's state follows. */
  function Entered(j: Job, s: JobState): Job { j.(state := s, history := j.history + [s]) }

  function Submitted(jobs: seq<Job>, kind: Kind, ref: nat): seq<Job> { jobs + [Job(kind, ref, Queued, [Queued])] }

  /** Terminal states are final, and an unknown job is left alone. */
  function Transitioned(jobs: seq<Job>, id: nat, s: JobState): seq<Job> {
    if id >= |jobs| || Terminal(jobs[id].state) then jobs else jobs[id := Entered(jobs[id], s)]
  }

  /** The jobs in flight among the first `n`. */
  function Stuck(jobs: seq<Job>, n: nat): set<nat>
    requires n <= |jobs|
  {
    set i: nat | i < n && InFlight(jobs[i].state)
  }

  lemma {:induction false} StuckNext(jobs: seq<Job>, i: nat)
    requires i < |jobs|
    ensures |Stuck(jobs, i + 1)| == |Stuck(jobs, i)| + if InFlight(jobs[i].state) then 1 else 0
  {
    assert Stuck(jobs, i + 1) == Stuck(jobs, i) + if InFlight(jobs[i].state) then {i} else {};
  }

  function RecoveredJob(j: Job): Job { if InFlight(j.state) then Entered(j, Failed) else j }

  /** Everything in flight becomes failed. */
  function Recovered(jobs: seq<Job>): seq<Job> { seq(|jobs|, i requires 0 <= i < |jobs| => RecoveredJob(jobs[i])) }

  /** The job table. */
  class JobRunner {
    var rows: seq<Job>

    constructor ()
      ensures rows == []
    {
      rows := [];
    }

    method Submit(kind: Kind, ref: nat) returns (id: nat)
      modifies this
      ensures id == old(|rows|) && rows == Submitted(old(rows), kind, ref)
    {
      id := |rows|;
      rows := rows + [Job(kind, ref, Queued, [Queued])];
    }

    method Transition(id: nat, s: JobState)
      modifies this
      ensures rows == Transitioned(old(rows), id, s)
    {
      if id >= |rows| || Terminal(rows[id].state) { return; }
      var row := rows[id];
      rows := rows[id := Job(row.kind, row.ref, s, row.history + [s])];
    }

    /** Marks what a previous process left in flight, and counts it. */
    method Recover() returns (n: nat)
      modifies this
      ensures rows == Recovered(old(rows))
      ensures n == |Stuck(old(rows), |old(rows)|)|
    {
      n := 0;
      for i := 0 to |rows|
        invariant |rows| == |old(rows)|
        invariant forall k | 0 <= k < i :: rows[k] == RecoveredJob(old(rows)[k])
        invariant forall k | i <= k < |rows| :: rows[k] == old(rows)[k]
        invariant n == |Stuck(old(rows), i)|
      {
        StuckNext(old(rows), i);
        var row := rows[i];
        if InFlight(row.state) {
          rows := rows[i := Job(row.kind, row.ref, Failed, row.history + [Failed])];
          n := n + 1;
        }
      }
    }
  }

  // ------------------------------------------------------------------ histories

  /** One step of the machine: forwards along the job's kind, or to failure from anywhere in flight. */
  predicate MayFollow(kind: Kind, a: JobState, b: JobState) {
    match a
    case Queued => b.Failed? || (if kind.RunJob? then b.Running? else b.Extracting?)
    case Running => kind.RunJob? && (b.Failed? || b.Completed?)
    case Extracting => kind.AnalyzeJob? && (b.Failed? || b.Validating? || b.Rejected?)
    case Validating => kind.AnalyzeJob? && (b.Failed? || b.Ready? || b.NeedsReview? || b.Rejected?)
    case _ => false
  }

  /** The history is a path of the machine from `queued` to the row's state. */
  predicate OnPath(j: Job) {
    && |j.history| > 0 && j.history[0] == Queued && j.history[|j.history| - 1] == j.state
    && forall i | 0 < i < |j.history| :: MayFollow(j.kind, j.history[i - 1], j.history[i])
  }

  predicate AllOnPath(jobs: seq<Job>) { forall i | 0 <= i < |jobs| :: OnPath(jobs[i]) }

  /** Every state is either terminal or in flight. */
  lemma {:induction false} EitherOr(s: JobState)
    ensures Terminal(s) <==> !InFlight(s)
  {}

  /** On a path a terminal state is the last entry, so there is at most one. */
  lemma {:induction false} TerminalIsLast(j: Job, i: nat)
    requires OnPath(j) && i < |j.history| && Terminal(j.history[i])
    ensures i == |j.history| - 1 && j.history[i] == j.state
  {
    forall k | 0 <= k < |j.history| - 1 ensures !Terminal(j.history[k]) { assert MayFollow(j.kind, j.history[k + 1 - 1], j.history[k + 1]); }
  }

  lemma {:induction false} EnteredOnPath(j: Job, s: JobState)
    requires OnPath(j) && MayFollow(j.kind, j.state, s)
    ensures OnPath(Entered(j, s))
  {
    var after := Entered(j, s);
    forall i | 0 < i < |after.history| ensures MayFollow(j.kind, after.history[i - 1], after.history[i]) {
      if i < |j.history| { assert MayFollow(j.kind, j.history[i - 1], j.history[i]); }
    }
  }

  /** In-flight states a job of its kind can be in: what keeps failure a legal step. */
  lemma {:induction false} FailureAllowed(j: Job)
    requires OnPath(j) && InFlight(j.state)
    ensures MayFollow(j.kind, j.state, Failed)
  {
    if |j.history| > 1 { assert MayFollow(j.kind, j.history[|j.history| - 2], j.history[|j.history| - 1]); }
  }

  /** A worker's transition keeps every history a path, if it is a step of the machine or the job is already over. */
  lemma {:induction false} TransitionKeepsPaths(jobs: seq<Job>, id: nat, s: JobState)
    requires AllOnPath(jobs)
    requires id < |jobs| && InFlight(jobs[id].state) ==> s == Failed || MayFollow(jobs[id].kind, jobs[id].state, s)
    ensures AllOnPath(Transitioned(jobs, id, s))
  {
    if id < |jobs| && !Terminal(jobs[id].state) {
      EitherOr(jobs[id].state);
      if s == Failed { FailureAllowed(jobs[id]); }
      EnteredOnPath(jobs[id], s);
    }
  }

  lemma {:induction false} RecoverKeepsPaths(jobs: seq<Job>)
    requires AllOnPath(jobs)
    ensures AllOnPath(Recovered(jobs))
    ensures forall j | j in Recovered(jobs) :: Terminal(j.state)
  {
    forall i | 0 <= i < |jobs| ensures OnPath(Recovered(jobs)[i]) && Terminal(Recovered(jobs)[i].state) {
      EitherOr(jobs[i].state);
      if InFlight(jobs[i].state) {
        FailureAllowed(jobs[i]);
        EnteredOnPath(jobs[i], Failed);
      }
    }
  }

  /** Histories only grow, and a finished job never changes again. */
  predicate HistoriesGrow(before: seq<Job>, after: seq<Job>) {
    && |before| <= |after|
    && forall i | 0 <= i < |before| ::
         && after[i].kind == before[i].kind && after[i].ref == before[i].ref
         && before[i].history <= after[i].history
         && (Terminal(before[i].state) ==> after[i] == before[i])
  }

  lemma {:induction false} JobStepsGrow(jobs: seq<Job>, kind: Kind, ref: nat, id: nat, s: JobState)
    ensures HistoriesGrow(jobs, Submitted(jobs, kind, ref))
    ensures HistoriesGrow(jobs, Transitioned(jobs, id, s))
    ensures HistoriesGrow(jobs, Recovered(jobs))
  {
    forall i | 0 <= i < |jobs| ensures Terminal(jobs[i].state) ==> Recovered(jobs)[i] == jobs[i] { EitherOr(jobs[i].state); }
  }
}
