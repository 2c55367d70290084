/** The rule tables as they are updated in place, one write transaction a method (sentinelforge/service/workflow.py, store.py). */
module RuleStore {
  import opened Ordering
  import opened Validation
  import opened DatasetSupport
  import opened Lifecycle

  lemma {:induction false} FindRuleNext(rules: seq<Rule>, r: Rule, i: nat)
    requires i < |rules|
    ensures FindRule(rules[..i + 1], r) == if FindRule(rules[..i], r).Some? then FindRule(rules[..i], r) else if rules[i] == r then Some(i) else None
  {
    assert rules[..i + 1][..i] == rules[..i];
  }

  lemma {:induction false} MaxNumberNext(versions: seq<Version>, rule: nat, i: nat)
    requires i < |versions|
    ensures MaxNumber(versions[..i + 1], rule)
            == if versions[i].rule == rule && versions[i].number > MaxNumber(versions[..i], rule) then versions[i].number
               else MaxNumber(versions[..i], rule)
  {
    assert versions[..i + 1][..i] == versions[..i];
  }

  lemma {:induction false} WithFateNext(versions: seq<Version>, p: Profile, unreliable: set<string>, f: Fate, i: nat)
    requires i < |versions|
    ensures WithFate(versions[..i + 1], p, unreliable, f)
            == WithFate(versions[..i], p, unreliable, f) + if FateOf(versions[i], p, unreliable) == f then [i] else []
  {
    assert versions[..i + 1][..i] == versions[..i];
  }

  /** The lists grow by one entry at most. */
  function Listed(impacts: Impacts, fate: Fate, i: nat): Impacts {
    match fate
    case IsAffected => impacts.(affected := impacts.affected + [i])
    case IsResumable => impacts.(resumable := impacts.resumable + [i])
    case IsUnaffected => impacts.(unaffected := impacts.unaffected + [i])
    case NotConsidered => impacts
  }

  lemma {:induction false} ImpactsNext(versions: seq<Version>, p: Profile, unreliable: set<string>, i: nat)
    requires i < |versions|
    ensures ImpactsOf(versions[..i + 1], p, unreliable) == Listed(ImpactsOf(versions[..i], p, unreliable), FateOf(versions[i], p, unreliable), i)
  {
    WithFateNext(versions, p, unreliable, IsAffected, i);
    WithFateNext(versions, p, unreliable, IsUnaffected, i);
    WithFateNext(versions, p, unreliable, IsResumable, i);
  }

  /** One version under the new profile: paused with its blocked conditions, or left alone. */
  method Judge(v: Version, dataset: string, from: nat, to: nat, p: Profile, unreliable: set<string>) returns (after: Version, fate: Fate)
    ensures after == Impacted(v, dataset, from, to, p, unreliable) && fate == FateOf(v, p, unreliable)
  {
    after := v;
    if !Refinable(v.state) { return v, NotConsidered; }
    var a := AnalyseRule(v.compiled.behaviour, p, Limits({}, unreliable));
    if a.affected {
      if !v.state.Paused? { after := v.(state := Paused, previous := Some(v.state), reason := Some(PauseReason(dataset, from, to, a.blocked))); }
      return after, IsAffected;
    }
    return after, if v.state.Paused? then IsResumable else IsUnaffected;
  }

  class Store {
    var rules: seq<Rule>
    var versions: seq<Version>
    var runs: seq<Run>
    var decisions: seq<Decision>
    var datasets: map<string, Dataset>
    var events: seq<SchemaEvent>

    constructor ()
      ensures T() == Tables([], [], [], [], map[], [])
    {
      rules, versions, runs, decisions, datasets, events := [], [], [], [], map[], [];
    }

    /** The tables as one value. */
    function T(): Tables
      reads this
    {
      Tables(rules, versions, runs, decisions, datasets, events)
    }

    /** The rule of a report and behaviour, if there is one. */
    method SelectRule(key: Rule) returns (found: Option<nat>)
      ensures found == FindRule(rules, key)
    {
      found := None;
      for i := 0 to |rules|
        invariant found == FindRule(rules[..i], key)
      {
        FindRuleNext(rules, key, i);
        if found.None? && rules[i] == key { found := Some(i); }
      }
      assert rules[..|rules|] == rules;
    }

    method SelectMaxNumber(rule: nat) returns (n: nat)
      ensures n == MaxNumber(versions, rule)
    {
      n := 0;
      for i := 0 to |versions|
        invariant n == MaxNumber(versions[..i], rule)
      {
        MaxNumberNext(versions, rule, i);
        if versions[i].rule == rule && versions[i].number > n { n := versions[i].number; }
      }
      assert versions[..|versions|] == versions;
    }

    /** state -> superseded for every draft of the rule. */
    method UpdateDrafts(rule: nat)
      modifies this`versions
      ensures versions == SupersedeDrafts(old(versions), rule)
    {
      for i := 0 to |versions|
        invariant |versions| == |old(versions)|
        invariant forall k | 0 <= k < i :: versions[k] == SupersedeDrafts(old(versions), rule)[k]
        invariant forall k | i <= k < |versions| :: versions[k] == old(versions)[k]
      {
        var v := versions[i];
        if v.rule == rule && v.state.Draft? { versions := versions[i := v.(state := Superseded, previous := Some(v.state))]; }
      }
    }

    /** The write of `create_rule_version`. */
    method CreateRuleVersion(analysis: nat, f: Finding) returns (v: nat)
      modifies this
      ensures T() == CreateTx(old(T()), analysis, f) && v == |old(versions)|
    {
      var key := Rule(f.report, f.compiled.behaviour);
      var found := SelectRule(key);
      var rule := |rules|;
      if found.Some? {
        rule := found.value;
      } else {
        rules := rules + [key];
      }
      var number := SelectMaxNumber(rule);
      v := |versions|;
      UpdateDrafts(rule);
      versions := versions + [Version(rule, number + 1, analysis, f.spec, f.compiled, Draft, None, None)];
    }

    /** The write of `refine_rule_version`. */
    method RefineRuleVersion(v: nat, rule: nat, analysis: nat, spec: Spec, compiled: Compiled) returns (created: nat)
      modifies this
      ensures T() == RefineTx(old(T()), v, rule, analysis, spec, compiled) && created == |old(versions)|
    {
      var number := SelectMaxNumber(rule);
      created := |versions|;
      if v < |versions| && Refinable(versions[v].state) {
        versions := versions[v := versions[v].(state := Superseded, previous := Some(versions[v].state))];
      }
      versions := versions + [Version(rule, number + 1, analysis, spec, compiled, Draft, None, None)];
      decisions := decisions + [Decision(v, None, Refine)];
    }

    /** Compare-and-set: the new state only from an allowed one; nothing changes otherwise. */
    method Cas(v: nat, to: VersionState, allowed: set<VersionState>) returns (won: bool)
      modifies this`versions
      ensures won <==> CasWins(old(versions), v, allowed)
      ensures versions == if won then old(versions)[v := old(versions)[v].(state := to)] else old(versions)
    {
      won := v < |versions| && versions[v].state in allowed;
      if won { versions := versions[v := versions[v].(state := to)]; }
    }

    /** The write of `decide`; false is the conflict, which rolls back. */
    method Decide(v: nat, decision: DecisionKind, run: Option<nat>) returns (won: bool)
      requires (decision.Approve? && run.Some?) || decision.Reject?
      modifies this
      ensures won <==> CasWins(old(versions), v, if decision.Approve? then APPROVABLE else RETIRABLE)
      ensures T() == if decision.Approve? then ApproveTx(old(T()), v, run.value) else RejectTx(old(T()), v, run)
    {
      won := Cas(v, if decision.Approve? then Approved else Retired, if decision.Approve? then APPROVABLE else RETIRABLE);
      if won { decisions := decisions + [Decision(v, run, decision)]; }
    }

    /** The row a submitted run starts with. */
    method SubmitRun(v: nat, dataset: string, datasetVersion: nat, purpose: Purpose) returns (r: nat)
      modifies this
      ensures T() == InsertRunTx(old(T()), v, dataset, datasetVersion, purpose) && r == |old(runs)|
    {
      r := |runs|;
      runs := runs + [Run(v, dataset, datasetVersion, purpose, RunQueued)];
    }

    method MarkRunning(r: nat)
      modifies this
      ensures T() == MarkRunningTx(old(T()), r)
    {
      if r < |runs| { runs := runs[r := runs[r].(state := RunRunning)]; }
    }

    /** The last write of `_do_run`. */
    method FinishRun(r: nat, ok: bool)
      requires r < |runs| && runs[r].version < |versions|
      modifies this
      ensures T() == FinishRunTx(old(T()), r, ok)
    {
      var run := runs[r];
      runs := runs[r := run.(state := if ok then RunCompleted else RunFailed)];
      if ok && run.purpose.Revalidate? {
        var cur := versions[run.version];
        if cur.state.Paused? {
          var state := if cur.previous.Some? then cur.previous.value else Draft;
          versions := versions[run.version := cur.(state := state, previous := None, reason := None)];
          decisions := decisions + [Decision(run.version, Some(r), Resume)];
        }
      }
    }

    /** The write of `derive_version`; false is the primary key refusing a second row. */
    method DeriveVersion(dataset: string, version: nat, p: Profile) returns (inserted: bool)
      requires dataset in datasets
      modifies this
      ensures inserted <==> version !in old(datasets)[dataset].profiles
      ensures T() == DeriveTx(old(T()), dataset, version, p)
    {
      var d := datasets[dataset];
      inserted := version !in d.profiles;
      if inserted { datasets := datasets[dataset := Dataset(version, d.profiles[version := p])]; }
    }

    /** The write of `_record_schema_event`: each live version is analysed, listed, and paused if it broke. */
    method RecordSchemaEvent(dataset: string, from: nat, to: nat, p: Profile, unreliable: set<string>) returns (impacts: Impacts)
      modifies this
      ensures T() == SchemaEventTx(old(T()), dataset, from, to, p, unreliable) && impacts == ImpactsOf(old(versions), p, unreliable)
    {
      ghost var was := versions;
      impacts := Impacts([], [], []);
      for i := 0 to |versions|
        invariant |versions| == |was| && unchanged(`rules, `runs, `decisions, `datasets, `events)
        invariant forall k | 0 <= k < i :: versions[k] == Impacted(was[k], dataset, from, to, p, unreliable)
        invariant forall k | i <= k < |was| :: versions[k] == was[k]
        invariant impacts == ImpactsOf(was[..i], p, unreliable)
      {
        ImpactsNext(was, p, unreliable, i);
        var after, fate := Judge(versions[i], dataset, from, to, p, unreliable);
        versions := versions[i := after];
        match fate {
          case IsAffected => impacts := impacts.(affected := impacts.affected + [i]);
          case IsResumable => impacts := impacts.(resumable := impacts.resumable + [i]);
          case IsUnaffected => impacts := impacts.(unaffected := impacts.unaffected + [i]);
          case NotConsidered =>
        }
      }
      assert was[..|was|] == was;
      assert versions == ImpactedAll(was, dataset, from, to, p, unreliable);
      events := events + [SchemaEvent(dataset, from, to, impacts)];
    }
  }
}
