/** How many drafts of one rule a write leaves: at most one, except after a refinement or a resumption beside another draft. */
module Drafts {
  import opened Ordering
  import opened Validation
  import opened DatasetSupport
  import opened Lifecycle

  predicate DraftOf(versions: seq<Version>, rule: nat, i: nat) { i < |versions| && versions[i].rule == rule && versions[i].state.Draft? }

  ghost predicate OneDraft(versions: seq<Version>, rule: nat) {
    forall i: nat, j: nat | DraftOf(versions, rule, i) && DraftOf(versions, rule, j) :: i == j
  }

  ghost predicate NoDraft(versions: seq<Version>, rule: nat) { forall i: nat :: !DraftOf(versions, rule, i) }

  /** No draft but perhaps version `v`. */
  ghost predicate OnlyDraft(versions: seq<Version>, rule: nat, v: nat) { forall i: nat | DraftOf(versions, rule, i) :: i == v }

  /** If both sequences have their drafts in the same places, they have as many. */
  lemma {:induction false} SameDrafts(a: seq<Version>, b: seq<Version>, rule: nat)
    requires forall i: nat :: DraftOf(a, rule, i) <==> DraftOf(b, rule, i)
    ensures OneDraft(a, rule) <==> OneDraft(b, rule)
  {}

  lemma {:induction false} FewerDrafts(a: seq<Version>, b: seq<Version>, rule: nat)
    requires OneDraft(a, rule) && forall i: nat | DraftOf(b, rule, i) :: DraftOf(a, rule, i)
    ensures OneDraft(b, rule)
  {}

  /** A new draft is the only one exactly if there was none before it. */
  lemma {:induction false} DraftAppended(b: seq<Version>, v: Version)
    requires v.state.Draft?
    ensures forall rule: nat :: OneDraft(b + [v], rule) <==> if rule == v.rule then NoDraft(b, rule) else OneDraft(b, rule)
  {
    var after := b + [v];
    forall rule: nat ensures OneDraft(after, rule) <==> if rule == v.rule then NoDraft(b, rule) else OneDraft(b, rule) {
      forall i: nat ensures DraftOf(after, rule, i) <==> DraftOf(b, rule, i) || (i == |b| && rule == v.rule) {}
      if rule != v.rule { SameDrafts(after, b, rule); }
      else if OneDraft(after, rule) {
        assert DraftOf(after, rule, |b|);
      }
    }
  }

  /** Creating a version leaves one draft of its rule, whatever there was. */
  lemma {:induction false} CreateDrafts(t: Tables, analysis: nat, f: Finding, rule: nat)
    ensures var after := CreateTx(t, analysis, f).versions;
            |after| == |t.versions| + 1 && (OneDraft(after, rule) <==> rule == after[|t.versions|].rule || OneDraft(t.versions, rule))
  {
    var after := CreateTx(t, analysis, f).versions;
    var v := after[|t.versions|];
    var b := SupersedeDrafts(t.versions, v.rule);
    assert after == b + [v];
    DraftAppended(b, v);
    if rule != v.rule { SameDrafts(b, t.versions, rule); }
  }

  /** Refining a version leaves one draft of its rule exactly if no version but the refined one was a draft. */
  lemma {:induction false} RefineDrafts(t: Tables, v: nat, analysis: nat, spec: Spec, compiled: Compiled, rule: nat)
    requires v < |t.versions|
    ensures OneDraft(RefineTx(t, v, t.versions[v].rule, analysis, spec, compiled).versions, rule) <==>
              if rule == t.versions[v].rule then OnlyDraft(t.versions, rule, v) else OneDraft(t.versions, rule)
  {
    var after := RefineTx(t, v, t.versions[v].rule, analysis, spec, compiled).versions;
    var b := SupersedeOne(t.versions, v);
    assert after == b + [after[|b|]];
    DraftAppended(b, after[|b|]);
    forall i: nat ensures DraftOf(b, rule, i) <==> DraftOf(t.versions, rule, i) && i != v {}
    if rule != t.versions[v].rule { SameDrafts(b, t.versions, rule); }
  }

  /** Refining the same version twice leaves two. */
  lemma {:induction false} RefinedTwice(t: Tables, v: nat, rule: nat, analysis: nat, spec: Spec, compiled: Compiled)
    requires v < |t.versions|
    ensures var once := RefineTx(t, v, rule, analysis, spec, compiled);
            !OneDraft(RefineTx(once, v, rule, analysis, spec, compiled).versions, rule)
  {
    var once := RefineTx(t, v, rule, analysis, spec, compiled);
    var n, versions := |t.versions|, RefineTx(once, v, rule, analysis, spec, compiled).versions;
    assert DraftOf(versions, rule, n) && DraftOf(versions, rule, n + 1);
  }

  /** Finishing a run leaves one draft of a rule as it was, unless it resumes a paused draft of it: then there must be no other. */
  lemma {:induction false} FinishDrafts(t: Tables, r: nat, ok: bool, rule: nat)
    ensures OneDraft(FinishRunTx(t, r, ok).versions, rule) <==>
              if Resumes(t, r, ok) && t.versions[t.runs[r].version].rule == rule && Resumed(t.versions[t.runs[r].version]).state.Draft?
              then NoDraft(t.versions, rule) else OneDraft(t.versions, rule)
  {
    var after := FinishRunTx(t, r, ok).versions;
    if Resumes(t, r, ok) {
      var v := t.runs[r].version;
      var back := t.versions[v].rule == rule && Resumed(t.versions[v]).state.Draft?;
      forall i: nat ensures DraftOf(after, rule, i) <==> DraftOf(t.versions, rule, i) || (i == v && back) {}
      if back { assert DraftOf(after, rule, v) && !DraftOf(t.versions, rule, v); } else { SameDrafts(after, t.versions, rule); }
    }
  }

  /** Approving, rejecting and pausing make no drafts. */
  lemma {:induction false} OthersDrafts(t: Tables, v: nat, run: Option<nat>, rule: nat)
    requires OneDraft(t.versions, rule)
    ensures run.Some? ==> OneDraft(ApproveTx(t, v, run.value).versions, rule)
    ensures OneDraft(RejectTx(t, v, run).versions, rule)
  {
    if run.Some? { FewerDrafts(t.versions, ApproveTx(t, v, run.value).versions, rule); }
    FewerDrafts(t.versions, RejectTx(t, v, run).versions, rule);
  }

  lemma {:induction false} EventDrafts(t: Tables, dataset: string, from: nat, to: nat, p: Profile, unreliable: set<string>, rule: nat)
    requires OneDraft(t.versions, rule)
    ensures OneDraft(SchemaEventTx(t, dataset, from, to, p, unreliable).versions, rule)
  {
    FewerDrafts(t.versions, SchemaEventTx(t, dataset, from, to, p, unreliable).versions, rule);
  }
}
