/** The only path from a report to a compiled rule (sentinelforge/pipeline.py). */
module Pipeline {
  import opened Ordering
  import opened Behaviours
  import opened Validation
  import opened DatasetSupport
  import opened Evidence
  import opened Reconcile
  import opened Gate
  import opened Reconciler

  datatype Outcome = RuleCompiled | Refused | ForReview | DataUnsupported

  datatype Analysis = Analysis(outcome: Outcome, reconciliation: Reconciliation, supported: Option<bool>, rule: Option<Compiled>)

  /** An analysis, or the KeyError that reconciliation lets through. */
  datatype AnalysisResult = Analysed(value: Analysis) | AnalysisKeyError

  /** The dataset a caller asks about; without a profile the documented schema stands in. */
  datatype Data = Data(profile: Option<Profile>, documented: Profile, limits: Limits)

  predicate AsksForData(d: Data) { d.profile.Some? || d.limits.unavailable != {} }

  function ProfileOf(d: Data): Profile { if d.profile.Some? then d.profile.value else d.documented }

  predicate DataFits(d: Data, id: Id) { AsksForData(d) ==> Supports(id, ProfileOf(d), d.limits) }

  /** `analyze`: a rule exactly for an accepted passage whose data is there and whose numbers are in range, and then the passage's rule. */
  method Analyze(rep: ConditionReport, revises: Revises, extraction: Option<Extraction>, d: Data) returns (r: AnalysisResult)
    requires SignalsInOrder(rep.signals)
    ensures r.AnalysisKeyError? <==> Decide(rep, revises, extraction).RaisedKeyError?
    ensures r.AnalysisKeyError? <==> NumberMissing(rep, extraction)
    ensures r.Analysed? ==> Decide(rep, revises, extraction) == Decided(r.value.reconciliation)
    ensures r.Analysed? ==>
              var rec := r.value.reconciliation;
              var accepted := rec.verdict == Verdict.Accepted && rec.behaviour.Some?;
              && (r.value.outcome == ForReview <==> rec.verdict == NeedsReview)
              && (r.value.outcome == DataUnsupported <==> accepted && !DataFits(d, rec.behaviour.value))
              && (r.value.outcome == RuleCompiled <==>
                    accepted && DataFits(d, rec.behaviour.value) && InRange(rep, rec.behaviour.value, revises))
              && (r.value.rule.Some? <==> r.value.outcome == RuleCompiled)
    ensures r.Analysed? && r.value.rule.Some? ==>
              && CompilesTo(r.value.reconciliation.spec.value, r.value.rule.value)
              && Faithful(rep, r.value.rule.value)
              && Decide(rep, revises, None).Decided? && Decide(rep, revises, None).value.spec == r.value.reconciliation.spec
  {
    var result := ReconcileReport(rep, revises, extraction);
    RaisesIff(rep, revises, extraction);
    if result.RaisedKeyError? { return AnalysisKeyError; }
    var rec := result.value;
    if rec.verdict == Rejected { return Analysed(Analysis(Refused, rec, None, None)); }
    if rec.verdict == NeedsReview { return Analysed(Analysis(ForReview, rec, None, None)); }
    AcceptedSpec(rep, revises, extraction);
    var id := rec.behaviour.value;
    ghost var settled := AcceptedSettled(rep, revises, extraction);
    SpecNamed(rep, id, revises);
    SpecValid(rep, id, revises);
    var supported := None;
    if AsksForData(d) {
      var ok, deps := CheckDataset(id, ProfileOf(d), d.limits);
      supported := Some(ok);
      if !ok { return Analysed(Analysis(DataUnsupported, rec, supported, None)); }
    }
    var built := CompileSpec(rec.spec);
    if built.BuildError? { return Analysed(Analysis(Refused, rec, supported, None)); }
    NoSilentWrongRule(rep, revises, extraction, built.rule);
    SpecUnchanged(rep, revises, extraction);
    return Analysed(Analysis(RuleCompiled, rec, supported, Some(built.rule)));
  }
}
