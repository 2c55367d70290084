/** Each write transaction keeps the invariants of the rule lifecycle, from any stale reads that were true when they were made. */
module LifecycleKeeps {
  import opened Ordering
  import opened Validation
  import opened DatasetSupport
  import opened Lifecycle
  import opened LifecycleLaws

  // ------------------------------------------------------------------ dataset versions

  lemma {:induction false} DatasetsKeep(t: Tables, after: Tables, findings: map<nat, Finding>, unreliable: set<string>)
    requires TablesOk(t, findings, unreliable)
    requires after == t.(datasets := after.datasets) && DatasetsOk(after.datasets) && DatasetsGrow(t.datasets, after.datasets)
    ensures TablesOk(after, findings, unreliable) && TablesGrow(t, after)
  {
    PausesGrow(t.versions, t.datasets, after.datasets, unreliable);
    RunsStay(t.runs, t.versions, t.versions, t.datasets, after.datasets, unreliable);
  }

  lemma {:induction false} RegisterKeeps(t: Tables, dataset: string, p: Profile, findings: map<nat, Finding>, unreliable: set<string>)
    requires TablesOk(t, findings, unreliable)
    ensures TablesOk(RegisterTx(t, dataset, p), findings, unreliable) && TablesGrow(t, RegisterTx(t, dataset, p))
  {
    DatasetsKeep(t, RegisterTx(t, dataset, p), findings, unreliable);
  }

  /** Two callers deriving from the same current version: the second insert aborts, and the numbering stays without a gap. */
  lemma {:induction false} DeriveKeeps(t: Tables, dataset: string, cur: nat, p: Profile, findings: map<nat, Finding>, unreliable: set<string>)
    requires TablesOk(t, findings, unreliable)
    requires dataset in t.datasets && cur in t.datasets[dataset].profiles
    ensures TablesOk(DeriveTx(t, dataset, cur + 1, p), findings, unreliable) && TablesGrow(t, DeriveTx(t, dataset, cur + 1, p))
  {
    assert DatasetOk(t.datasets[dataset]);
    var after := DeriveTx(t, dataset, cur + 1, p);
    if cur + 1 !in t.datasets[dataset].profiles { assert t.datasets[dataset].current == cur; }
    DatasetsKeep(t, after, findings, unreliable);
  }

  // ------------------------------------------------------------------ runs

  lemma {:induction false} InsertRunKeeps(t: Tables, v: nat, dataset: string, dv: nat, purpose: Purpose, findings: map<nat, Finding>, unreliable: set<string>)
    requires TablesOk(t, findings, unreliable)
    requires RunOk(Run(v, dataset, dv, purpose, RunQueued), t.versions, t.datasets, unreliable)
    ensures TablesOk(InsertRunTx(t, v, dataset, dv, purpose), findings, unreliable) && TablesGrow(t, InsertRunTx(t, v, dataset, dv, purpose))
  {
    BackedGrow(t.decisions, t.versions, t.versions, t.runs, InsertRunTx(t, v, dataset, dv, purpose).runs);
  }

  lemma {:induction false} MarkRunningKeeps(t: Tables, r: nat, findings: map<nat, Finding>, unreliable: set<string>)
    requires TablesOk(t, findings, unreliable) && (r < |t.runs| ==> !Finished(t.runs[r]))
    ensures TablesOk(MarkRunningTx(t, r), findings, unreliable) && TablesGrow(t, MarkRunningTx(t, r))
  {
    RunsSameRows(t.runs, MarkRunningTx(t, r).runs, t.versions, t.datasets, unreliable);
    BackedGrow(t.decisions, t.versions, t.versions, t.runs, MarkRunningTx(t, r).runs);
  }

  lemma {:induction false} NumbersAndOrigins(t: Tables, versions: seq<Version>, findings: map<nat, Finding>)
    requires Numbered(t.versions) && OriginsOk(t.rules, t.versions, findings) && |versions| == |t.versions| && VersionsGrow(t.versions, versions)
    ensures Numbered(versions) && OriginsOk(t.rules, versions, findings)
  {
    NumberedKept(t.versions, versions);
    forall i | 0 <= i < |versions| ensures Originates(versions[i], t.rules, findings) { assert Originates(t.versions[i], t.rules, findings); }
  }

  /** One version's state changes and a decision about it is recorded. */
  lemma {:induction false} DecidedByOne(versions: seq<Version>, decisions: seq<Decision>, i: nat, v: Version, d: Decision)
    requires AllDecided(versions, decisions) && i < |versions| && d.version == i && Decided(v, i, decisions + [d])
    ensures AllDecided(versions[i := v], decisions + [d])
  {
    var b := versions[i := v];
    forall j | 0 <= j < |b| ensures Decided(b[j], j, decisions + [d]) {
      assert Decided(versions[j], j, decisions);
      HasSnoc(decisions, d, j, Reject);
      HasSnoc(decisions, d, j, Approve);
    }
  }

  lemma {:induction false} PausesOne(versions: seq<Version>, i: nat, v: Version, datasets: map<string, Dataset>, unreliable: set<string>)
    requires PausesOk(versions, datasets, unreliable) && i < |versions| && PauseOk(v, datasets, unreliable)
    ensures PausesOk(versions[i := v], datasets, unreliable)
  {}

  /** The resumption of version `v` by run `r` clashes with nothing recorded. */
  lemma {:induction false} ResumeFresh(t: Tables, r: nat)
    requires AllDecided(t.versions, t.decisions) && AllBacked(t.decisions, t.versions, t.runs)
    requires r < |t.runs| && !Finished(t.runs[r]) && t.runs[r].version < |t.versions| && t.versions[t.runs[r].version].state.Paused?
    ensures forall e | e in t.decisions :: !Clash(e, Decision(t.runs[r].version, Some(r), Resume))
  {
    var v := t.runs[r].version;
    forall e | e in t.decisions ensures !Clash(e, Decision(v, Some(r), Resume)) {
      assert Decided(t.versions[v], v, t.decisions);
      var i :| 0 <= i < |t.decisions| && t.decisions[i] == e;
      assert Backed(t.decisions[i], t.versions, t.runs);
    }
  }

  lemma {:induction false} ResumedDecided(v: Version, i: nat, decisions: seq<Decision>, d: Decision, datasets: map<string, Dataset>, unreliable: set<string>)
    requires Decided(v, i, decisions) && v.state.Paused? && PauseOk(v, datasets, unreliable) && d.version == i && d.kind.Resume?
    ensures Decided(Resumed(v), i, decisions + [d]) && PauseOk(Resumed(v), datasets, unreliable)
  {
    HasSnoc(decisions, d, i, Reject);
    HasSnoc(decisions, d, i, Approve);
  }

  /** Changing one version's state, with the decision about it, keeps everything that is not about decisions. */
  lemma {:induction false} OneVersionChanged(t: Tables, v: nat, changed: Version, runs: seq<Run>, d: Decision, findings: map<nat, Finding>, unreliable: set<string>)
    requires TablesOk(t, findings, unreliable) && v < |t.versions| && SameIdentity(t.versions[v], changed)
    requires !t.versions[v].state.Superseded? && !t.versions[v].state.Retired?
    requires RunsOk(runs, t.versions, t.datasets, unreliable) && AllBacked(t.decisions, t.versions, runs) && Backed(d, t.versions, runs)
    ensures var versions := t.versions[v := changed];
            Numbered(versions) && OriginsOk(t.rules, versions, findings) && RunsOk(runs, versions, t.datasets, unreliable)
            && AllBacked(t.decisions + [d], versions, runs) && VersionsGrow(t.versions, versions)
  {
    var versions := t.versions[v := changed];
    NumbersAndOrigins(t, versions, findings);
    RunsStay(runs, t.versions, versions, t.datasets, t.datasets, unreliable);
    BackedSnoc(t.decisions, d, t.versions, runs);
    BackedGrow(t.decisions + [d], t.versions, versions, runs, runs);
  }

  /** A revalidation that completes resumes its paused version. */
  lemma {:induction false} ResumptionKeeps(t: Tables, r: nat, runs: seq<Run>, findings: map<nat, Finding>, unreliable: set<string>)
    requires TablesOk(t, findings, unreliable) && Resumes(t, r, true) && !Finished(t.runs[r]) && RunsGrow(t.runs, runs)
    requires RunsOk(runs, t.versions, t.datasets, unreliable) && AllBacked(t.decisions, t.versions, runs)
    requires Backed(Decision(t.runs[r].version, Some(r), Resume), t.versions, runs)
    ensures var v := t.runs[r].version;
            var after := t.(runs := runs, versions := t.versions[v := Resumed(t.versions[v])],
                            decisions := t.decisions + [Decision(v, Some(r), Resume)]);
            TablesOk(after, findings, unreliable) && TablesGrow(t, after)
  {
    var v := t.runs[r].version;
    var d := Decision(v, Some(r), Resume);
    ResumedDecided(t.versions[v], v, t.decisions, d, t.datasets, unreliable);
    DecidedByOne(t.versions, t.decisions, v, Resumed(t.versions[v]), d);
    PausesOne(t.versions, v, Resumed(t.versions[v]), t.datasets, unreliable);
    ResumeFresh(t, r);
    NoClashSnoc(t.decisions, d);
    OneVersionChanged(t, v, Resumed(t.versions[v]), runs, d, findings, unreliable);
  }

  lemma {:induction false} FinishRunKeeps(t: Tables, r: nat, ok: bool, findings: map<nat, Finding>, unreliable: set<string>)
    requires TablesOk(t, findings, unreliable) && r < |t.runs| && !Finished(t.runs[r])
    ensures TablesOk(FinishRunTx(t, r, ok), findings, unreliable) && TablesGrow(t, FinishRunTx(t, r, ok))
  {
    var runs := t.runs[r := t.runs[r].(state := if ok then RunCompleted else RunFailed)];
    RunsSameRows(t.runs, runs, t.versions, t.datasets, unreliable);
    BackedGrow(t.decisions, t.versions, t.versions, t.runs, runs);
    if Resumes(t, r, ok) { ResumptionKeeps(t, r, runs, findings, unreliable); }
  }

  // ------------------------------------------------------------------ approvals and rejections

  /** A decision about version `v` and the state it leads to. */
  lemma {:induction false} DecisionKeeps(t: Tables, v: nat, changed: Version, d: Decision, findings: map<nat, Finding>, unreliable: set<string>)
    requires TablesOk(t, findings, unreliable) && v < |t.versions| && SameIdentity(t.versions[v], changed) && d.version == v
    requires !t.versions[v].state.Superseded? && !t.versions[v].state.Retired?
    requires Backed(d, t.versions, t.runs) && PauseOk(changed, t.datasets, unreliable)
    requires Decided(changed, v, t.decisions + [d]) && forall e | e in t.decisions :: !Clash(e, d)
    ensures var after := t.(versions := t.versions[v := changed], decisions := t.decisions + [d]);
            TablesOk(after, findings, unreliable) && TablesGrow(t, after)
  {
    OneVersionChanged(t, v, changed, t.runs, d, findings, unreliable);
    DecidedByOne(t.versions, t.decisions, v, changed, d);
    PausesOne(t.versions, v, changed, t.datasets, unreliable);
    NoClashSnoc(t.decisions, d);
  }

  lemma {:induction false} ApproveKeeps(t: Tables, v: nat, run: nat, findings: map<nat, Finding>, unreliable: set<string>)
    requires TablesOk(t, findings, unreliable) && v < |t.versions| && Backed(Decision(v, Some(run), Approve), t.versions, t.runs)
    ensures TablesOk(ApproveTx(t, v, run), findings, unreliable) && TablesGrow(t, ApproveTx(t, v, run))
  {
    if CasWins(t.versions, v, APPROVABLE) {
      var d := Decision(v, Some(run), Approve);
      assert Decided(t.versions[v], v, t.decisions);
      HasSnoc(t.decisions, d, v, Reject);
      HasSnoc(t.decisions, d, v, Approve);
      DecisionKeeps(t, v, t.versions[v].(state := Approved), d, findings, unreliable);
    }
  }

  lemma {:induction false} RetiredDecided(t: Tables, v: nat, d: Decision)
    requires AllDecided(t.versions, t.decisions) && v < |t.versions| && t.versions[v].state in RETIRABLE && d.version == v && d.kind.Reject?
    ensures Decided(t.versions[v].(state := Retired), v, t.decisions + [d]) && forall e | e in t.decisions :: !Clash(e, d)
  {
    assert Decided(t.versions[v], v, t.decisions);
    HasSnoc(t.decisions, d, v, Reject);
    HasSnoc(t.decisions, d, v, Approve);
  }

  lemma {:induction false} RejectKeeps(t: Tables, v: nat, run: Option<nat>, findings: map<nat, Finding>, unreliable: set<string>)
    requires TablesOk(t, findings, unreliable) && v < |t.versions|
    ensures TablesOk(RejectTx(t, v, run), findings, unreliable) && TablesGrow(t, RejectTx(t, v, run))
  {
    if CasWins(t.versions, v, RETIRABLE) {
      var d := Decision(v, run, Reject);
      RetiredDecided(t, v, d);
      DecisionKeeps(t, v, t.versions[v].(state := Retired), d, findings, unreliable);
    }
  }

  // ------------------------------------------------------------------ new versions

  /** Superseding any live versions keeps what was recorded. */
  lemma {:induction false} SupersedingKeeps(versions: seq<Version>, b: seq<Version>, decisions: seq<Decision>, datasets: map<string, Dataset>, unreliable: set<string>)
    requires AllDecided(versions, decisions) && PausesOk(versions, datasets, unreliable) && |b| == |versions|
    requires forall i | 0 <= i < |b| :: b[i] == versions[i] || (Refinable(versions[i].state) && b[i] == Superseding(versions[i]))
    ensures AllDecided(b, decisions) && PausesOk(b, datasets, unreliable) && VersionsGrow(versions, b)
  {
    forall i | 0 <= i < |b| ensures Decided(b[i], i, decisions) { assert Decided(versions[i], i, decisions); }
  }

  /** Nothing is decided yet about a version that does not exist yet. */
  lemma {:induction false} NotYetDecided(t: Tables, k: DecisionKind)
    requires AllBacked(t.decisions, t.versions, t.runs)
    ensures !Has(t.decisions, |t.versions|, k)
  {
    forall d | d in t.decisions ensures d.version != |t.versions| {
      var i :| 0 <= i < |t.decisions| && t.decisions[i] == d;
      assert Backed(t.decisions[i], t.versions, t.runs);
    }
  }

  lemma {:induction false} NewOrigins(t: Tables, rules: seq<Rule>, b: seq<Version>, v: Version, findings: map<nat, Finding>)
    requires Numbered(t.versions) && OriginsOk(t.rules, t.versions, findings) && t.rules <= rules
    requires |b| == |t.versions| && VersionsGrow(t.versions, b)
    requires v.number == MaxNumber(t.versions, v.rule) + 1 && Originates(v, rules, findings)
    ensures Numbered(b + [v]) && OriginsOk(rules, b + [v], findings)
  {
    NumberedKept(t.versions, b);
    NumberedSnoc(b, v);
    forall i | 0 <= i < |b| ensures Originates(b[i], rules, findings) { assert Originates(t.versions[i], t.rules, findings); }
  }

  lemma {:induction false} NewDecided(t: Tables, b: seq<Version>, v: Version, unreliable: set<string>)
    requires AllDecided(b, t.decisions) && PausesOk(b, t.datasets, unreliable) && |b| == |t.versions|
    requires AllBacked(t.decisions, t.versions, t.runs) && v.state.Draft? && v.previous.None?
    ensures AllDecided(b + [v], t.decisions) && PausesOk(b + [v], t.datasets, unreliable)
  {
    NotYetDecided(t, Approve);
    NotYetDecided(t, Reject);
    var versions := b + [v];
    forall i | 0 <= i < |versions| ensures Decided(versions[i], i, t.decisions) {
      if i < |b| { assert Decided(b[i], i, t.decisions); }
    }
  }

  lemma {:induction false} GrowsSnoc(a: seq<Version>, b: seq<Version>, v: Version)
    requires VersionsGrow(a, b) && |a| == |b|
    ensures VersionsGrow(a, b + [v])
  {}

  /** A new draft with the next number, after superseding some live versions. */
  lemma {:induction false} NewVersionKeeps(t: Tables, rules: seq<Rule>, b: seq<Version>, v: Version, findings: map<nat, Finding>, unreliable: set<string>)
    requires TablesOk(t, findings, unreliable) && t.rules <= rules && RulesOk(rules) && |b| == |t.versions|
    requires forall i | 0 <= i < |b| :: b[i] == t.versions[i] || (Refinable(t.versions[i].state) && b[i] == Superseding(t.versions[i]))
    requires v.state.Draft? && v.previous.None? && v.number == MaxNumber(t.versions, v.rule) + 1 && Originates(v, rules, findings)
    ensures var after := t.(rules := rules, versions := b + [v]);
            TablesOk(after, findings, unreliable) && TablesGrow(t, after)
  {
    SupersedingKeeps(t.versions, b, t.decisions, t.datasets, unreliable);
    NewOrigins(t, rules, b, v, findings);
    NewDecided(t, b, v, unreliable);
    GrowsSnoc(t.versions, b, v);
    RunsStay(t.runs, t.versions, b + [v], t.datasets, t.datasets, unreliable);
    BackedGrow(t.decisions, t.versions, b + [v], t.runs, t.runs);
  }

  /** The rule of a report and behaviour, found or added. */
  lemma {:induction false} RuleFor(rules: seq<Rule>, key: Rule) returns (rule: nat, after: seq<Rule>)
    requires RulesOk(rules)
    ensures rule == (if FindRule(rules, key).Some? then FindRule(rules, key).value else |rules|)
    ensures after == (if FindRule(rules, key).Some? then rules else rules + [key])
    ensures RulesOk(after) && rules <= after && rule < |after| && after[rule] == key
  {
    AboutFindRule(rules, key);
    rule := if FindRule(rules, key).Some? then FindRule(rules, key).value else |rules|;
    after := if FindRule(rules, key).Some? then rules else rules + [key];
  }

  lemma {:induction false} Created(t: Tables, analysis: nat, f: Finding, rule: nat, rules: seq<Rule>, v: Version)
    requires var found := FindRule(t.rules, Rule(f.report, f.compiled.behaviour));
             && rule == (if found.Some? then found.value else |t.rules|)
             && rules == (if found.Some? then t.rules else t.rules + [Rule(f.report, f.compiled.behaviour)])
    requires v == Version(rule, MaxNumber(t.versions, rule) + 1, analysis, f.spec, f.compiled, Draft, None, None)
    ensures CreateTx(t, analysis, f) == t.(rules := rules, versions := SupersedeDrafts(t.versions, rule) + [v])
  {}

  lemma {:induction false} DraftsSuperseded(versions: seq<Version>, rule: nat)
    ensures |SupersedeDrafts(versions, rule)| == |versions|
    ensures forall i | 0 <= i < |versions| ::
              var b := SupersedeDrafts(versions, rule)[i]; b == versions[i] || (Refinable(versions[i].state) && b == Superseding(versions[i]))
  {}

  lemma {:induction false} CreateKeeps(t: Tables, analysis: nat, f: Finding, findings: map<nat, Finding>, unreliable: set<string>)
    requires TablesOk(t, findings, unreliable) && FindingsOk(findings) && analysis in findings && findings[analysis] == f
    ensures TablesOk(CreateTx(t, analysis, f), findings, unreliable) && TablesGrow(t, CreateTx(t, analysis, f))
  {
    var rule, rules := RuleFor(t.rules, Rule(f.report, f.compiled.behaviour));
    var v := Version(rule, MaxNumber(t.versions, rule) + 1, analysis, f.spec, f.compiled, Draft, None, None);
    Created(t, analysis, f, rule, rules, v);
    DraftsSuperseded(t.versions, rule);
    assert CompilesTo(f.spec, f.compiled);
    NewVersionKeeps(t, rules, SupersedeDrafts(t.versions, rule), v, findings, unreliable);
  }

  lemma {:induction false} RefineDecisionKeeps(t: Tables, v: nat, findings: map<nat, Finding>, unreliable: set<string>)
    requires TablesOk(t, findings, unreliable) && v < |t.versions|
    ensures var after := t.(decisions := t.decisions + [Decision(v, None, Refine)]);
            TablesOk(after, findings, unreliable) && TablesGrow(t, after)
  {
    var d := Decision(v, None, Refine);
    BackedSnoc(t.decisions, d, t.versions, t.runs);
    NoClashSnoc(t.decisions, d);
    forall j | 0 <= j < |t.versions| ensures Decided(t.versions[j], j, t.decisions + [d]) {
      assert Decided(t.versions[j], j, t.decisions);
      HasSnoc(t.decisions, d, j, Reject);
      HasSnoc(t.decisions, d, j, Approve);
    }
  }

  lemma {:induction false} RefineKeeps(t: Tables, v: nat, rule: nat, analysis: nat, spec: Spec, compiled: Compiled,
                                       findings: map<nat, Finding>, unreliable: set<string>)
    requires TablesOk(t, findings, unreliable) && v < |t.versions|
    requires t.versions[v].rule == rule && t.versions[v].analysis == analysis && analysis in findings
    requires RefinedFrom(findings[analysis], spec) && CompilesTo(spec, compiled) && compiled.behaviour == findings[analysis].compiled.behaviour
    ensures TablesOk(RefineTx(t, v, rule, analysis, spec, compiled), findings, unreliable)
    ensures TablesGrow(t, RefineTx(t, v, rule, analysis, spec, compiled))
  {
    var b, new_ := SupersedeOne(t.versions, v), Version(rule, MaxNumber(t.versions, rule) + 1, analysis, spec, compiled, Draft, None, None);
    assert Originates(t.versions[v], t.rules, findings);
    NewVersionKeeps(t, t.rules, b, new_, findings, unreliable);
    var created := t.(rules := t.rules, versions := b + [new_]);
    RefineDecisionKeeps(created, v, findings, unreliable);
    assert RefineTx(t, v, rule, analysis, spec, compiled) == created.(decisions := created.decisions + [Decision(v, None, Refine)]);
  }

  // ------------------------------------------------------------------ schema events

  lemma {:induction false} ImpactedKeeps(v: Version, i: nat, dataset: string, from: nat, to: nat, p: Profile, t: Tables, unreliable: set<string>)
    requires Decided(v, i, t.decisions) && PauseOk(v, t.datasets, unreliable)
    requires dataset in t.datasets && to in t.datasets[dataset].profiles && t.datasets[dataset].profiles[to] == p
    ensures var b := Impacted(v, dataset, from, to, p, unreliable);
            Decided(b, i, t.decisions) && PauseOk(b, t.datasets, unreliable) && SameIdentity(v, b)
            && (v.state.Superseded? || v.state.Retired? ==> b == v)
  {
    FitsIffUnblocked(p, unreliable, v.compiled.behaviour);
  }

  lemma {:induction false} SchemaEventKeeps(t: Tables, dataset: string, from: nat, to: nat, p: Profile, findings: map<nat, Finding>, unreliable: set<string>)
    requires TablesOk(t, findings, unreliable)
    requires dataset in t.datasets && to in t.datasets[dataset].profiles && t.datasets[dataset].profiles[to] == p
    ensures TablesOk(SchemaEventTx(t, dataset, from, to, p, unreliable), findings, unreliable)
    ensures TablesGrow(t, SchemaEventTx(t, dataset, from, to, p, unreliable))
  {
    var b := ImpactedAll(t.versions, dataset, from, to, p, unreliable);
    forall i | 0 <= i < |b|
      ensures Decided(b[i], i, t.decisions) && PauseOk(b[i], t.datasets, unreliable) && SameIdentity(t.versions[i], b[i])
      ensures t.versions[i].state.Superseded? || t.versions[i].state.Retired? ==> b[i] == t.versions[i]
    {
      ImpactedKeeps(t.versions[i], i, dataset, from, to, p, t, unreliable);
    }
    NumbersAndOrigins(t, b, findings);
    RunsStay(t.runs, t.versions, b, t.datasets, t.datasets, unreliable);
    BackedGrow(t.decisions, t.versions, b, t.runs, t.runs);
  }

  /** New findings do not disturb the versions made from earlier ones. */
  lemma {:induction false} FindingKeeps(t: Tables, findings: map<nat, Finding>, a: nat, f: Finding, unreliable: set<string>)
    requires TablesOk(t, findings, unreliable) && a !in findings
    ensures TablesOk(t, findings[a := f], unreliable)
  {
    forall i | 0 <= i < |t.versions| ensures Originates(t.versions[i], t.rules, findings[a := f]) { assert Originates(t.versions[i], t.rules, findings); }
  }
}
