/** Rule versions, runs, decisions and dataset versions: the rows, and what each write transaction of
    sentinelforge/service/workflow.py does to them. */
module Lifecycle {
  import opened Ordering
  import opened Behaviours
  import opened Validation
  import opened DatasetSupport

  datatype VersionState = Draft | Approved | Paused | Retired | Superseded

  /** Why a version was paused: the conditions a dataset version cannot evaluate. */
  datatype PauseReason = PauseReason(dataset: string, from: nat, to: nat, blocked: seq<seq<Field>>)

  /** A rule version; its id is its place in the table. `spec` is what it was compiled from. */
  datatype Version = Version(rule: nat, number: nat, analysis: nat, spec: Spec, compiled: Compiled,
                             state: VersionState, previous: Option<VersionState>, reason: Option<PauseReason>)

  datatype Rule = Rule(report: nat, behaviour: Id)

  datatype Purpose = Execute | Revalidate

  datatype RunState = RunQueued | RunRunning | RunCompleted | RunFailed

  datatype Run = Run(version: nat, dataset: string, datasetVersion: nat, purpose: Purpose, state: RunState)

  datatype DecisionKind = Approve | Reject | Refine | Resume

  datatype Decision = Decision(version: nat, run: Option<nat>, kind: DecisionKind)

  datatype Dataset = Dataset(current: nat, profiles: map<nat, Profile>)

  datatype Impacts = Impacts(affected: seq<nat>, unaffected: seq<nat>, resumable: seq<nat>)

  datatype SchemaEvent = SchemaEvent(dataset: string, from: nat, to: nat, impacts: Impacts)

  /** The evidence-backed spec of a ready analysis and what it compiles to. */
  datatype Finding = Finding(report: nat, spec: Spec, compiled: Compiled)

  /** The tables the rule lifecycle writes. */
  datatype Tables = Tables(rules: seq<Rule>, versions: seq<Version>, runs: seq<Run>, decisions: seq<Decision>,
                           datasets: map<string, Dataset>, events: seq<SchemaEvent>)

  // ------------------------------------------------------------------ versions of a rule

  function FindRule(rules: seq<Rule>, r: Rule): Option<nat> {
    if rules == [] then None
    else
      var earlier := FindRule(rules[..|rules| - 1], r);
      if earlier.Some? then earlier else if rules[|rules| - 1] == r then Some(|rules| - 1) else None
  }

  function MaxNumber(versions: seq<Version>, rule: nat): nat {
    if versions == [] then 0
    else
      var rest, last := MaxNumber(versions[..|versions| - 1], rule), versions[|versions| - 1];
      if last.rule == rule && last.number > rest then last.number else rest
  }

  function Superseding(v: Version): Version { v.(state := Superseded, previous := Some(v.state)) }

  /** `UPDATE ... SET state='superseded' WHERE rule_id = ? AND state = 'draft'`. */
  function SupersedeDrafts(versions: seq<Version>, rule: nat): seq<Version> {
    seq(|versions|, i requires 0 <= i < |versions| =>
      if versions[i].rule == rule && versions[i].state.Draft? then Superseding(versions[i]) else versions[i])
  }

  predicate Refinable(s: VersionState) { s.Draft? || s.Approved? || s.Paused? }

  function SupersedeOne(versions: seq<Version>, v: nat): seq<Version> {
    if v < |versions| && Refinable(versions[v].state) then versions[v := Superseding(versions[v])] else versions
  }

  /** A ready analysis becomes the next version of its rule; earlier drafts are superseded. */
  function CreateTx(t: Tables, analysis: nat, f: Finding): Tables {
    var key := Rule(f.report, f.compiled.behaviour);
    var found := FindRule(t.rules, key);
    var rule := if found.Some? then found.value else |t.rules|;
    var number := MaxNumber(t.versions, rule) + 1;
    t.(rules := if found.Some? then t.rules else t.rules + [key],
       versions := SupersedeDrafts(t.versions, rule) + [Version(rule, number, analysis, f.spec, f.compiled, Draft, None, None)])
  }

  /** A refined rule becomes the next version; the refined one is superseded if it still can be. */
  function RefineTx(t: Tables, v: nat, rule: nat, analysis: nat, spec: Spec, compiled: Compiled): Tables {
    var number := MaxNumber(t.versions, rule) + 1;
    t.(versions := SupersedeOne(t.versions, v) + [Version(rule, number, analysis, spec, compiled, Draft, None, None)],
       decisions := t.decisions + [Decision(v, None, Refine)])
  }

  // ------------------------------------------------------------------ decisions

  /** Compare-and-set on a version's state. */
  predicate CasWins(versions: seq<Version>, v: nat, allowed: set<VersionState>) { v < |versions| && versions[v].state in allowed }

  const APPROVABLE: set<VersionState> := {Draft}
  const RETIRABLE: set<VersionState> := {Draft, Approved, Paused}

  function ApproveTx(t: Tables, v: nat, run: nat): Tables {
    if !CasWins(t.versions, v, APPROVABLE) then t
    else t.(versions := t.versions[v := t.versions[v].(state := Approved)], decisions := t.decisions + [Decision(v, Some(run), Approve)])
  }

  function RejectTx(t: Tables, v: nat, run: Option<nat>): Tables {
    if !CasWins(t.versions, v, RETIRABLE) then t
    else t.(versions := t.versions[v := t.versions[v].(state := Retired)], decisions := t.decisions + [Decision(v, run, Reject)])
  }

  // ------------------------------------------------------------------ runs

  function InsertRunTx(t: Tables, v: nat, dataset: string, datasetVersion: nat, purpose: Purpose): Tables {
    t.(runs := t.runs + [Run(v, dataset, datasetVersion, purpose, RunQueued)])
  }

  function MarkRunningTx(t: Tables, r: nat): Tables {
    if r >= |t.runs| then t else t.(runs := t.runs[r := t.runs[r].(state := RunRunning)])
  }

  /** Back to what it was, or to a draft if that was not recorded. */
  function Resumed(v: Version): Version {
    v.(state := if v.previous.Some? then v.previous.value else Draft, previous := None, reason := None)
  }

  predicate Resumes(t: Tables, r: nat, ok: bool) {
    r < |t.runs| && ok && t.runs[r].purpose.Revalidate? && t.runs[r].version < |t.versions| && t.versions[t.runs[r].version].state.Paused?
  }

  /** The run's outcome; a completed revalidation of a paused version resumes it. */
  function FinishRunTx(t: Tables, r: nat, ok: bool): Tables {
    if r >= |t.runs| then t
    else
      var v := t.runs[r].version;
      var finished := t.(runs := t.runs[r := t.runs[r].(state := if ok then RunCompleted else RunFailed)]);
      if Resumes(t, r, ok) then
        finished.(versions := t.versions[v := Resumed(t.versions[v])], decisions := t.decisions + [Decision(v, Some(r), Resume)])
      else finished
  }

  // ------------------------------------------------------------------ dataset versions

  function RegisterTx(t: Tables, dataset: string, p: Profile): Tables {
    if dataset in t.datasets then t else t.(datasets := t.datasets[dataset := Dataset(1, map[1 := p])])
  }

  /** The primary key (dataset, version) makes a second insert of the same version abort. */
  function DeriveTx(t: Tables, dataset: string, version: nat, p: Profile): Tables {
    if dataset !in t.datasets || version in t.datasets[dataset].profiles then t
    else t.(datasets := t.datasets[dataset := Dataset(version, t.datasets[dataset].profiles[version := p])])
  }

  /** What the lifecycle asks of a profile: the schema's unreliable fields count against it, nothing is treated as removed. */
  predicate Fits(p: Profile, unreliable: set<string>, id: Id) { Supports(id, p, Limits({}, unreliable)) }

  function Blocked(p: Profile, unreliable: set<string>, id: Id): seq<seq<Field>> {
    BlockedAmong(ConditionMap(id), p, Limits({}, unreliable), true)
  }

  function PausedBy(v: Version, reason: PauseReason): Version { v.(state := Paused, previous := Some(v.state), reason := Some(reason)) }

  /** One version under a new profile: paused if it was live and is no longer supported. */
  function Impacted(v: Version, dataset: string, from: nat, to: nat, p: Profile, unreliable: set<string>): Version {
    if (v.state.Draft? || v.state.Approved?) && !Fits(p, unreliable, v.compiled.behaviour) then
      PausedBy(v, PauseReason(dataset, from, to, Blocked(p, unreliable, v.compiled.behaviour)))
    else v
  }

  function ImpactedAll(versions: seq<Version>, dataset: string, from: nat, to: nat, p: Profile, unreliable: set<string>): seq<Version> {
    seq(|versions|, i requires 0 <= i < |versions| => Impacted(versions[i], dataset, from, to, p, unreliable))
  }

  datatype Fate = IsAffected | IsUnaffected | IsResumable | NotConsidered

  /** In which list of the event a version appears. */
  function FateOf(v: Version, p: Profile, unreliable: set<string>): Fate {
    if !Refinable(v.state) then NotConsidered
    else if !Fits(p, unreliable, v.compiled.behaviour) then IsAffected
    else if v.state.Paused? then IsResumable else IsUnaffected
  }

  function WithFate(versions: seq<Version>, p: Profile, unreliable: set<string>, f: Fate): seq<nat> {
    if versions == [] then []
    else
      var n := |versions| - 1;
      WithFate(versions[..n], p, unreliable, f) + (if FateOf(versions[n], p, unreliable) == f then [n] else [])
  }

  function ImpactsOf(versions: seq<Version>, p: Profile, unreliable: set<string>): Impacts {
    Impacts(WithFate(versions, p, unreliable, IsAffected), WithFate(versions, p, unreliable, IsUnaffected),
            WithFate(versions, p, unreliable, IsResumable))
  }

  /** A schema event: every live version is judged against the profile, the broken ones are paused. */
  function SchemaEventTx(t: Tables, dataset: string, from: nat, to: nat, p: Profile, unreliable: set<string>): Tables {
    t.(versions := ImpactedAll(t.versions, dataset, from, to, p, unreliable),
       events := t.events + [SchemaEvent(dataset, from, to, ImpactsOf(t.versions, p, unreliable))])
  }

  // ------------------------------------------------------------------ a schema event pauses exactly what it breaks

  lemma {:induction false} AboutWithFate(versions: seq<Version>, p: Profile, unreliable: set<string>, f: Fate)
    ensures forall i :: i in WithFate(versions, p, unreliable, f) <==> 0 <= i < |versions| && FateOf(versions[i], p, unreliable) == f
    ensures forall i, j | 0 <= i < j < |WithFate(versions, p, unreliable, f)| ::
              WithFate(versions, p, unreliable, f)[i] < WithFate(versions, p, unreliable, f)[j]
  {
    if versions != [] {
      var n := |versions| - 1;
      AboutWithFate(versions[..n], p, unreliable, f);
      var rest := WithFate(versions[..n], p, unreliable, f);
      forall i | 0 <= i < |rest| ensures rest[i] < n { assert rest[i] in rest; }
    }
  }

  predicate Disjoint(a: seq<nat>, b: seq<nat>) { forall i | i in a :: i !in b }

  /** Affected, unaffected and resumable partition the live versions; afterwards every draft or approved version is supported by the
      profile, and the affected ones are exactly those with a blocked condition, paused with it. */
  lemma {:induction false} SchemaEventExact(t: Tables, dataset: string, from: nat, to: nat, p: Profile, unreliable: set<string>)
    ensures var after := SchemaEventTx(t, dataset, from, to, p, unreliable);
            var impacts := after.events[|t.events|].impacts;
            && Disjoint(impacts.affected, impacts.unaffected) && Disjoint(impacts.affected, impacts.resumable)
            && Disjoint(impacts.unaffected, impacts.resumable)
            && (forall i | 0 <= i < |t.versions| :: Refinable(t.versions[i].state) <==>
                  i in impacts.affected || i in impacts.unaffected || i in impacts.resumable)
            && (forall i | i in impacts.affected :: i < |t.versions| && after.versions[i].state.Paused?
                  && Blocked(p, unreliable, t.versions[i].compiled.behaviour) != []
                  && (!t.versions[i].state.Paused? ==>
                        after.versions[i].previous == Some(t.versions[i].state)
                        && after.versions[i].reason == Some(PauseReason(dataset, from, to, Blocked(p, unreliable, t.versions[i].compiled.behaviour)))))
            && (forall i | 0 <= i < |t.versions| :: i in impacts.affected <==>
                  Refinable(t.versions[i].state) && Blocked(p, unreliable, t.versions[i].compiled.behaviour) != [])
            && (forall i | 0 <= i < |t.versions| && i !in impacts.affected :: after.versions[i] == t.versions[i])
            && (forall v | v in after.versions && (v.state.Draft? || v.state.Approved?) :: Fits(p, unreliable, v.compiled.behaviour))
  {
    AboutWithFate(t.versions, p, unreliable, IsAffected);
    AboutWithFate(t.versions, p, unreliable, IsUnaffected);
    AboutWithFate(t.versions, p, unreliable, IsResumable);
    forall id ensures Fits(p, unreliable, id) <==> Blocked(p, unreliable, id) == [] { FitsIffUnblocked(p, unreliable, id); }
  }

  lemma {:induction false} FitsIffUnblocked(p: Profile, unreliable: set<string>, id: Id)
    ensures Fits(p, unreliable, id) <==> Blocked(p, unreliable, id) == []
  {
    var l := Limits({}, unreliable);
    forall c ensures c in Blocked(p, unreliable, id) <==> c in ConditionMap(id) && Blocks(c, p, l) { InBlocked(ConditionMap(id), p, l, true, c); }
    AffectedIff(id, p, l, Blocked(p, unreliable, id));
  }
}
