/** What every write transaction of the rule lifecycle keeps. */
module LifecycleLaws {
  import opened Ordering
  import opened Behaviours
  import opened Validation
  import opened Refinement
  import opened Lifecycle

  // ------------------------------------------------------------------ rows only grow

  predicate SameIdentity(a: Version, b: Version) {
    a.rule == b.rule && a.number == b.number && a.analysis == b.analysis && a.spec == b.spec && a.compiled == b.compiled
  }

  /** Versions are never deleted, keep what they are, and stay superseded or retired. */
  predicate VersionsGrow(a: seq<Version>, b: seq<Version>) {
    && |a| <= |b|
    && forall i | 0 <= i < |a| :: SameIdentity(a[i], b[i]) && (a[i].state.Superseded? || a[i].state.Retired? ==> b[i] == a[i])
  }

  predicate Finished(r: Run) { r.state.RunCompleted? || r.state.RunFailed? }

  predicate RunsGrow(a: seq<Run>, b: seq<Run>) {
    && |a| <= |b|
    && forall i | 0 <= i < |a| ::
         && a[i].version == b[i].version && a[i].dataset == b[i].dataset && a[i].datasetVersion == b[i].datasetVersion
         && a[i].purpose == b[i].purpose && (Finished(a[i]) ==> b[i] == a[i])
  }

  /** Dataset versions are immutable. */
  predicate DatasetsGrow(a: map<string, Dataset>, b: map<string, Dataset>) {
    forall d | d in a ::
      && d in b && a[d].current <= b[d].current
      && forall k | k in a[d].profiles :: k in b[d].profiles && b[d].profiles[k] == a[d].profiles[k]
  }

  predicate TablesGrow(a: Tables, b: Tables) {
    && a.rules <= b.rules && VersionsGrow(a.versions, b.versions) && RunsGrow(a.runs, b.runs)
    && a.decisions <= b.decisions && DatasetsGrow(a.datasets, b.datasets) && a.events <= b.events
  }

  // ------------------------------------------------------------------ version numbers

  function CountOf(versions: seq<Version>, rule: nat): nat {
    if versions == [] then 0
    else CountOf(versions[..|versions| - 1], rule) + if versions[|versions| - 1].rule == rule then 1 else 0
  }

  /** Each version's number is one more than the number of earlier versions of its rule: 1, 2, 3, ... in creation order. */
  predicate Numbered(versions: seq<Version>) {
    forall i | 0 <= i < |versions| :: versions[i].number == 1 + CountOf(versions[..i], versions[i].rule)
  }

  lemma {:induction false} NumberedPrefix(versions: seq<Version>, n: nat)
    requires Numbered(versions) && n <= |versions|
    ensures Numbered(versions[..n])
  {
    forall i | 0 <= i < n ensures versions[..n][i].number == 1 + CountOf(versions[..n][..i], versions[..n][i].rule) {
      assert versions[..n][..i] == versions[..i];
    }
  }

  lemma {:induction false} MaxIsCount(versions: seq<Version>, rule: nat)
    requires Numbered(versions)
    ensures MaxNumber(versions, rule) == CountOf(versions, rule)
  {
    if versions != [] {
      var n := |versions| - 1;
      NumberedPrefix(versions, n);
      MaxIsCount(versions[..n], rule);
    }
  }

  lemma {:induction false} SameCounts(a: seq<Version>, b: seq<Version>, rule: nat)
    requires |a| == |b| && forall i | 0 <= i < |a| :: a[i].rule == b[i].rule
    ensures CountOf(a, rule) == CountOf(b, rule)
  {
    if a != [] { SameCounts(a[..|a| - 1], b[..|b| - 1], rule); }
  }

  /** Updating states leaves the numbering alone. */
  lemma {:induction false} NumberedKept(a: seq<Version>, b: seq<Version>)
    requires Numbered(a) && |a| == |b| && VersionsGrow(a, b)
    ensures Numbered(b) && forall rule: nat :: MaxNumber(b, rule) == MaxNumber(a, rule)
  {
    forall i | 0 <= i < |b| ensures b[i].number == 1 + CountOf(b[..i], b[i].rule) { SameCounts(a[..i], b[..i], a[i].rule); }
    forall rule: nat ensures MaxNumber(b, rule) == MaxNumber(a, rule) {
      MaxIsCount(a, rule);
      MaxIsCount(b, rule);
      SameCounts(a, b, rule);
    }
  }

  lemma {:induction false} NumberedSnoc(versions: seq<Version>, v: Version)
    requires Numbered(versions) && v.number == MaxNumber(versions, v.rule) + 1
    ensures Numbered(versions + [v])
  {
    MaxIsCount(versions, v.rule);
    forall i | 0 <= i <= |versions| ensures (versions + [v])[i].number == 1 + CountOf((versions + [v])[..i], (versions + [v])[i].rule) {
      assert (versions + [v])[..i] == versions[..i];
      if i == |versions| { assert versions[..i] == versions; }
    }
  }

  predicate HasNumber(versions: seq<Version>, rule: nat, k: nat) { exists v | v in versions :: v.rule == rule && v.number == k }

  /** A rule with k versions has exactly the numbers 1..k, each once. */
  lemma {:induction false} NumbersExact(versions: seq<Version>, rule: nat, k: nat)
    requires Numbered(versions) && 1 <= k <= CountOf(versions, rule)
    ensures HasNumber(versions, rule, k)
    ensures forall i, j | 0 <= i < j < |versions| && versions[i].rule == versions[j].rule :: versions[i].number < versions[j].number
  {
    var n := |versions| - 1;
    NumberedPrefix(versions, n);
    forall i, j | 0 <= i < j < |versions| && versions[i].rule == versions[j].rule ensures versions[i].number < versions[j].number {
      CountGrows(versions, i, j, versions[i].rule);
    }
    if k <= CountOf(versions[..n], rule) {
      NumbersExact(versions[..n], rule, k);
      var v :| v in versions[..n] && v.rule == rule && v.number == k;
      assert v in versions;
    } else {
      assert versions[n].rule == rule && versions[n].number == k;
      assert versions[n] in versions;
    }
  }

  lemma {:induction false} CountGrows(versions: seq<Version>, i: nat, j: nat, rule: nat)
    requires i < j <= |versions| && versions[i].rule == rule
    ensures CountOf(versions[..i], rule) < CountOf(versions[..j], rule)
  {
    assert versions[..j][..j - 1] == versions[..j - 1];
    if i < j - 1 { CountGrows(versions, i, j - 1, rule); }
  }

  // ------------------------------------------------------------------ where versions come from

  /** The spec is the analysis's own, or the analysis's own with the analyst's numbers in it. */
  ghost predicate RefinedFrom(f: Finding, spec: Spec) {
    spec == f.spec || (Windowed(f.compiled.behaviour) && exists o :: spec == Overridden(f.spec, f.compiled.behaviour, o))
  }

  ghost predicate FindingsOk(findings: map<nat, Finding>) { forall a | a in findings :: CompilesTo(findings[a].spec, findings[a].compiled) }

  ghost predicate Originates(v: Version, rules: seq<Rule>, findings: map<nat, Finding>) {
    && v.analysis in findings && v.rule < |rules|
    && rules[v.rule] == Rule(findings[v.analysis].report, findings[v.analysis].compiled.behaviour)
    && v.compiled.behaviour == findings[v.analysis].compiled.behaviour
    && RefinedFrom(findings[v.analysis], v.spec) && CompilesTo(v.spec, v.compiled)
  }

  ghost predicate OriginsOk(rules: seq<Rule>, versions: seq<Version>, findings: map<nat, Finding>) {
    forall i | 0 <= i < |versions| :: Originates(versions[i], rules, findings)
  }

  /** One rule per report and behaviour. */
  predicate RulesOk(rules: seq<Rule>) { forall i, j | 0 <= i < j < |rules| :: rules[i] != rules[j] }

  lemma {:induction false} AboutFindRule(rules: seq<Rule>, r: Rule)
    ensures FindRule(rules, r).Some? ==> FindRule(rules, r).value < |rules| && rules[FindRule(rules, r).value] == r
    ensures FindRule(rules, r).None? <==> forall i | 0 <= i < |rules| :: rules[i] != r
  {
    if rules != [] { AboutFindRule(rules[..|rules| - 1], r); }
  }

  // ------------------------------------------------------------------ pauses, runs, datasets

  /** A paused version was a draft or approved, and some condition of it is blocked in the dataset version named. */
  predicate PauseOk(v: Version, datasets: map<string, Dataset>, unreliable: set<string>) {
    && (v.state.Draft? || v.state.Approved? ==> v.previous.None?)
    && (v.state.Paused? ==>
          && (v.previous == Some(Draft) || v.previous == Some(Approved))
          && v.reason.Some? && v.reason.value.blocked != []
          && var r := v.reason.value;
             r.dataset in datasets && r.to in datasets[r.dataset].profiles
             && r.blocked == Blocked(datasets[r.dataset].profiles[r.to], unreliable, v.compiled.behaviour))
  }

  predicate PausesOk(versions: seq<Version>, datasets: map<string, Dataset>, unreliable: set<string>) {
    forall i | 0 <= i < |versions| :: PauseOk(versions[i], datasets, unreliable)
  }

  /** A run is of a version, on a dataset version that supports it. */
  predicate RunOk(r: Run, versions: seq<Version>, datasets: map<string, Dataset>, unreliable: set<string>) {
    && r.version < |versions| && r.dataset in datasets && r.datasetVersion in datasets[r.dataset].profiles
    && Fits(datasets[r.dataset].profiles[r.datasetVersion], unreliable, versions[r.version].compiled.behaviour)
  }

  predicate RunsOk(runs: seq<Run>, versions: seq<Version>, datasets: map<string, Dataset>, unreliable: set<string>) {
    forall i | 0 <= i < |runs| :: RunOk(runs[i], versions, datasets, unreliable)
  }

  /** Dataset versions are numbered 1..current without a gap. */
  ghost predicate DatasetOk(d: Dataset) { 1 <= d.current && forall k: nat :: k in d.profiles <==> 1 <= k <= d.current }

  ghost predicate DatasetsOk(datasets: map<string, Dataset>) { forall d | d in datasets :: DatasetOk(datasets[d]) }

  lemma {:induction false} PausesGrow(versions: seq<Version>, a: map<string, Dataset>, b: map<string, Dataset>, unreliable: set<string>)
    requires PausesOk(versions, a, unreliable) && DatasetsGrow(a, b)
    ensures PausesOk(versions, b, unreliable)
  {}

  lemma {:induction false} RunsStay(runs: seq<Run>, a: seq<Version>, b: seq<Version>, x: map<string, Dataset>, y: map<string, Dataset>, unreliable: set<string>)
    requires RunsOk(runs, a, x, unreliable) && VersionsGrow(a, b) && DatasetsGrow(x, y)
    ensures RunsOk(runs, b, y, unreliable)
  {
    forall i | 0 <= i < |runs| ensures RunOk(runs[i], b, y, unreliable) { assert RunOk(runs[i], a, x, unreliable); }
  }

  lemma {:induction false} RunsSameRows(a: seq<Run>, b: seq<Run>, versions: seq<Version>, datasets: map<string, Dataset>, unreliable: set<string>)
    requires RunsOk(a, versions, datasets, unreliable) && RunsGrow(a, b) && |a| == |b|
    ensures RunsOk(b, versions, datasets, unreliable)
  {
    forall i | 0 <= i < |b| ensures RunOk(b[i], versions, datasets, unreliable) { assert RunOk(a[i], versions, datasets, unreliable); }
  }

  // ------------------------------------------------------------------ decisions

  predicate Has(decisions: seq<Decision>, v: nat, k: DecisionKind) { exists d | d in decisions :: d.version == v && d.kind == k }

  lemma {:induction false} HasSnoc(decisions: seq<Decision>, d: Decision, v: nat, k: DecisionKind)
    ensures Has(decisions + [d], v, k) <==> Has(decisions, v, k) || (d.version == v && d.kind == k)
  {
    if Has(decisions, v, k) {
      var e :| e in decisions && e.version == v && e.kind == k;
      assert e in decisions + [d];
    }
    assert d in decisions + [d];
  }

  /** The version is in this state, or paused from it. */
  predicate Stands(v: Version, s: VersionState) { v.state == s || (v.state.Paused? && v.previous == Some(s)) }

  /** The decisions recorded about a version tell its state. */
  predicate Decided(v: Version, i: nat, decisions: seq<Decision>) {
    && (v.state.Retired? <==> Has(decisions, i, Reject))
    && (Stands(v, Draft) ==> !Has(decisions, i, Approve))
    && (Stands(v, Approved) ==> Has(decisions, i, Approve))
  }

  predicate AllDecided(versions: seq<Version>, decisions: seq<Decision>) { forall i | 0 <= i < |versions| :: Decided(versions[i], i, decisions) }

  /** An approval names a completed execution of the version, a resumption a completed revalidation of it. */
  predicate Backed(d: Decision, versions: seq<Version>, runs: seq<Run>) {
    && d.version < |versions|
    && (d.kind.Approve? || d.kind.Resume? ==>
          && d.run.Some? && d.run.value < |runs|
          && runs[d.run.value].version == d.version && runs[d.run.value].state.RunCompleted?
          && (runs[d.run.value].purpose.Execute? <==> d.kind.Approve?))
  }

  predicate AllBacked(decisions: seq<Decision>, versions: seq<Version>, runs: seq<Run>) {
    forall i | 0 <= i < |decisions| :: Backed(decisions[i], versions, runs)
  }

  /** Two decisions that cannot both be taken, in this order. */
  predicate Clash(a: Decision, b: Decision) {
    || (a.version == b.version && a.kind == b.kind && (a.kind.Approve? || a.kind.Reject?))
    || (a.version == b.version && a.kind.Reject? && (b.kind.Approve? || b.kind.Resume?))
    || (a.kind.Resume? && b.kind.Resume? && a.run == b.run)
  }

  predicate NoClash(decisions: seq<Decision>) { forall i, j | 0 <= i < j < |decisions| :: !Clash(decisions[i], decisions[j]) }

  lemma {:induction false} NoClashSnoc(decisions: seq<Decision>, d: Decision)
    requires NoClash(decisions) && forall e | e in decisions :: !Clash(e, d)
    ensures NoClash(decisions + [d])
  {
    var after := decisions + [d];
    forall i, j | 0 <= i < j < |after| ensures !Clash(after[i], after[j]) {
      if j == |decisions| { assert after[i] in decisions; }
    }
  }

  lemma {:induction false} BackedSnoc(decisions: seq<Decision>, d: Decision, versions: seq<Version>, runs: seq<Run>)
    requires AllBacked(decisions, versions, runs) && Backed(d, versions, runs)
    ensures AllBacked(decisions + [d], versions, runs)
  {}

  lemma {:induction false} BackedGrow(decisions: seq<Decision>, a: seq<Version>, b: seq<Version>, x: seq<Run>, y: seq<Run>)
    requires AllBacked(decisions, a, x) && |a| <= |b| && RunsGrow(x, y)
    ensures AllBacked(decisions, b, y)
  {
    forall i | 0 <= i < |decisions| ensures Backed(decisions[i], b, y) { assert Backed(decisions[i], a, x); }
  }

  // ------------------------------------------------------------------ everything together

  ghost predicate TablesOk(t: Tables, findings: map<nat, Finding>, unreliable: set<string>) {
    && RulesOk(t.rules) && Numbered(t.versions) && OriginsOk(t.rules, t.versions, findings)
    && DatasetsOk(t.datasets) && PausesOk(t.versions, t.datasets, unreliable) && RunsOk(t.runs, t.versions, t.datasets, unreliable)
    && AllDecided(t.versions, t.decisions) && AllBacked(t.decisions, t.versions, t.runs) && NoClash(t.decisions)
  }
}
