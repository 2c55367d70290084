/** Reconciliation as it runs: one growing list of reasons, filled in place (sentinelforge/reconcile.py). */
module Reconciler {
  import opened Ordering
  import opened Behaviours
  import opened Validation
  import opened Evidence
  import opened Reconcile
  import opened ReconcileLaws

  // ------------------------------------------------------------------ one more candidate

  lemma {:induction false} InBucketNext(counts: seq<CountCandidate>, id: Id, b: Bucket, i: nat)
    requires i < |counts|
    ensures InBucket(counts[..i + 1], id, b)
            == InBucket(counts[..i], id, b) + if counts[i].ruleSentence && BucketOf(counts[i], id) == b then [counts[i]] else []
  {
    assert counts[..i + 1][..i] == counts[..i];
  }

  lemma {:induction false} CountQuotesNext(counts: seq<CountCandidate>, i: nat)
    requires i < |counts|
    ensures CountQuotes(counts[..i + 1]) == CountQuotes(counts[..i]) + [counts[i].evidence]
  {
    assert counts[..i + 1][..i] == counts[..i];
  }

  lemma {:induction false} WindowQuotesNext(windows: seq<WindowCandidate>, i: nat)
    requires i < |windows|
    ensures WindowQuotes(windows[..i + 1]) == WindowQuotes(windows[..i]) + [windows[i].evidence]
  {
    assert windows[..i + 1][..i] == windows[..i];
  }

  lemma {:induction false} WindowsNext(windows: seq<WindowCandidate>, k: WindowKind, chosen: real, revises: Revises, i: nat)
    requires i < |windows|
    ensures Windows(windows[..i + 1], k, chosen, revises)
            == Windows(windows[..i], k, chosen, revises) + if OfKind(windows[i], k, chosen, revises) then [windows[i]] else []
  {
    assert windows[..i + 1][..i] == windows[..i];
  }

  method QuotesOfCounts(counts: seq<CountCandidate>) returns (quotes: seq<Quote>)
    ensures quotes == CountQuotes(counts)
  {
    quotes := [];
    for i := 0 to |counts|
      invariant quotes == CountQuotes(counts[..i])
    {
      CountQuotesNext(counts, i);
      quotes := quotes + [counts[i].evidence];
    }
    assert counts[..|counts|] == counts;
  }

  method QuotesOfWindows(windows: seq<WindowCandidate>) returns (quotes: seq<Quote>)
    ensures quotes == WindowQuotes(windows)
  {
    quotes := [];
    for i := 0 to |windows|
      invariant quotes == WindowQuotes(windows[..i])
    {
      WindowQuotesNext(windows, i);
      quotes := quotes + [windows[i].evidence];
    }
    assert windows[..|windows|] == windows;
  }

  /** The candidates of a kind: those marked in a rule sentence, the loose ones, the corrected ones, the unmarked alternatives. */
  method PickWindows(windows: seq<WindowCandidate>, k: WindowKind, chosen: real, revises: Revises) returns (picked: seq<WindowCandidate>)
    ensures picked == Windows(windows, k, chosen, revises)
  {
    picked := [];
    for i := 0 to |windows|
      invariant picked == Windows(windows[..i], k, chosen, revises)
    {
      WindowsNext(windows, k, chosen, revises, i);
      if OfKind(windows[i], k, chosen, revises) { picked := picked + [windows[i]]; }
    }
    assert windows[..|windows|] == windows;
  }

  /** The first number in a correcting sentence that differs from the chosen one. */
  method FindCorrection(counts: seq<CountCandidate>, id: Id, chosen: real, revises: Revises) returns (found: Option<CountCandidate>)
    ensures found == FirstCorrection(counts, id, chosen, revises)
  {
    found := None;
    for i := 0 to |counts|
      invariant found == FirstCorrection(counts[..i], id, chosen, revises)
    {
      assert counts[..i + 1][..i] == counts[..i];
      if found.None? && Correction(counts[i], id, chosen, revises) { found := Some(counts[i]); }
    }
    assert counts[..|counts|] == counts;
  }

  method OtherValues(counts: seq<CountCandidate>, v: real) returns (others: seq<CountCandidate>)
    ensures others == OtherThan(counts, v)
  {
    others := [];
    for i := 0 to |counts|
      invariant others == OtherThan(counts[..i], v)
    {
      assert counts[..i + 1][..i] == counts[..i];
      if counts[i].value != v { others := others + [counts[i]]; }
    }
    assert counts[..|counts|] == counts;
  }

  /** The rule-sentence candidates, sorted into what can be done with them. */
  datatype Sorted = Sorted(ok: seq<CountCandidate>, wrong: seq<CountCandidate>, unknown: seq<CountCandidate>, upper: seq<CountCandidate>,
                           unresolved: seq<CountCandidate>, invalid: seq<CountCandidate>, unspecified: seq<CountCandidate>)

  function SortedOf(counts: seq<CountCandidate>, id: Id): Sorted {
    Sorted(InBucket(counts, id, Usable), InBucket(counts, id, WrongSemantics), InBucket(counts, id, UnknownThing),
           InBucket(counts, id, UpperBound), InBucket(counts, id, Unresolved), InBucket(counts, id, InvalidNumber),
           InBucket(counts, id, NoComparator))
  }

  /** One candidate into its bucket, by the order of tests. */
  function Place(s: Sorted, c: CountCandidate, id: Id): Sorted {
    if !c.ruleSentence then s
    else match BucketOf(c, id)
      case InvalidNumber => s.(invalid := s.invalid + [c])
      case UpperBound => s.(upper := s.upper + [c])
      case NoComparator => s.(unspecified := s.unspecified + [c])
      case UnknownThing => s.(unknown := s.unknown + [c])
      case Unresolved => s.(unresolved := s.unresolved + [c])
      case WrongSemantics => s.(wrong := s.wrong + [c])
      case Usable => s.(ok := s.ok + [c])
  }

  lemma {:induction false} SortedNext(counts: seq<CountCandidate>, id: Id, i: nat)
    requires i < |counts|
    ensures SortedOf(counts[..i + 1], id) == Place(SortedOf(counts[..i], id), counts[i], id)
  {
    InBucketNext(counts, id, Usable, i);
    InBucketNext(counts, id, WrongSemantics, i);
    InBucketNext(counts, id, UnknownThing, i);
    InBucketNext(counts, id, UpperBound, i);
    InBucketNext(counts, id, Unresolved, i);
    InBucketNext(counts, id, InvalidNumber, i);
    InBucketNext(counts, id, NoComparator, i);
  }

  method SortCounts(counts: seq<CountCandidate>, id: Id) returns (s: Sorted)
    ensures s == SortedOf(counts, id)
  {
    s := Sorted([], [], [], [], [], [], []);
    for i := 0 to |counts|
      invariant s == SortedOf(counts[..i], id)
    {
      SortedNext(counts, id, i);
      s := Place(s, counts[i], id);
    }
    assert counts[..|counts|] == counts;
  }

  method CompleteBehaviours(signals: seq<Signal>) returns (complete: seq<Id>)
    ensures complete == Complete(signals)
  {
    complete := [];
    for i := 0 to |signals|
      invariant complete == Complete(signals[..i])
    {
      assert signals[..i + 1][..i] == signals[..i];
      if signals[i].missing == [] { complete := complete + [signals[i].behaviour]; }
    }
    assert signals[..|signals|] == signals;
  }

  method PartialSignals(signals: seq<Signal>) returns (partial: seq<Signal>)
    ensures partial == Partial(signals)
  {
    partial := [];
    for i := 0 to |signals|
      invariant partial == Partial(signals[..i])
    {
      assert signals[..i + 1][..i] == signals[..i];
      if signals[i].cues != [] { partial := partial + [signals[i]]; }
    }
    assert signals[..|signals|] == signals;
  }

  /** The one signal of a behaviour. */
  method SignalOf(signals: seq<Signal>, id: Id) returns (s: Signal)
    requires SignalsInOrder(signals)
    ensures s in signals && s.behaviour == id
    ensures s.missing == [] <==> id in Complete(signals)
  {
    var i := match id case RepeatedFailure => 0 case Spray => 1 case MultiHost => 2 case MethodViolation => 3 case MfaMissing => 4;
    assert ALL[i] == id;
    s := signals[i];
    InOrderOneEach(signals, id);
    AboutComplete(signals);
    if id in Complete(signals) {
      var t :| t in signals && t.behaviour == id && t.missing == [];
      SameSignal(signals, s, t);
    }
  }

  lemma {:induction false} Appended2(o: seq<Reason>, a: seq<Reason>, b: seq<Reason>)
    ensures o + a + b == o + (a + b)
  {}

  lemma {:induction false} Appended4(o: seq<Reason>, a: seq<Reason>, b: seq<Reason>, c: seq<Reason>, d: seq<Reason>)
    ensures o + a + b + c + d == o + (a + b + c + d)
  {}

  /** One usable value: a correction of it, then the other numbers that could be meant. */
  lemma {:induction false} Doubts(counts: seq<CountCandidate>, id: Id, revises: Revises)
    requires InBucket(counts, id, Usable) != [] && |Values(InBucket(counts, id, Usable))| <= 1
    ensures
      var chosen := InBucket(counts, id, Usable)[0];
      CountRemarks(counts, id, revises)
      == RevisedRemark(chosen, FirstCorrection(counts, id, chosen.value, revises))
         + StrayRemark(OtherThan(InBucket(counts, id, Unresolved), chosen.value))
  {}

  /** The list of reasons that reconciliation appends to. */
  class Ledger {
    var reasons: seq<Reason>

    constructor ()
      ensures reasons == []
    {
      reasons := [];
    }

    method Add(r: Reason)
      modifies this
      ensures reasons == old(reasons) + [r]
    {
      reasons := reasons + [r];
    }

    method Extend(more: seq<Reason>)
      modifies this
      ensures reasons == old(reasons) + more
    {
      reasons := reasons + more;
    }

    method AddQuotes(quotes: seq<Quote>, code: ReasonCode, severity: Severity)
      modifies this
      ensures reasons == old(reasons) + QuoteReasons(quotes, code, severity)
    {
      for i := 0 to |quotes|
        invariant reasons == old(reasons) + QuoteReasons(quotes[..i], code, severity)
      {
        assert quotes[..i + 1][..i] == quotes[..i];
        reasons := reasons + [Reason(code, severity, [quotes[i]])];
      }
      assert quotes[..|quotes|] == quotes;
    }

    method AddFields(fields: seq<FieldMention>, form: Form, code: ReasonCode, severity: Severity)
      modifies this
      ensures reasons == old(reasons) + FieldReasons(fields, form, code, severity)
    {
      for i := 0 to |fields|
        invariant reasons == old(reasons) + FieldReasons(fields[..i], form, code, severity)
      {
        assert fields[..i + 1][..i] == fields[..i];
        var f := fields[i];
        if !f.known && f.form == form && !f.incidental { reasons := reasons + [Reason(code, severity, [f.evidence])]; }
      }
      assert fields[..|fields|] == fields;
    }

    method AddEach(counts: seq<CountCandidate>, code: ReasonCode)
      modifies this
      ensures reasons == old(reasons) + OneEach(counts, code)
    {
      for i := 0 to |counts|
        invariant reasons == old(reasons) + OneEach(counts[..i], code)
      {
        assert counts[..i + 1][..i] == counts[..i];
        reasons := reasons + [Reason(code, Reject, [counts[i].evidence])];
      }
      assert counts[..|counts|] == counts;
    }

    /** One reason for all the candidates of a bucket, if there are any. */
    method AddAll(counts: seq<CountCandidate>, code: ReasonCode, severity: Severity)
      modifies this
      ensures reasons == old(reasons) + if counts != [] then [Reason(code, severity, CountQuotes(counts))] else []
    {
      if counts != [] {
        var quotes := QuotesOfCounts(counts);
        Add(Reason(code, severity, quotes));
      }
    }

    method RejectCounts(counts: seq<CountCandidate>, id: Id, s: Sorted)
      requires s == SortedOf(counts, id)
      modifies this
      ensures reasons == old(reasons) + CountRejections(counts, id)
    {
      AddAll(s.invalid, CountInvalidNumber, Reject);
      AddAll(s.upper, CountUpperBound, Reject);
      AddEach(s.unknown, CountUnknownObject);
      AddEach(s.wrong, CountSemanticsMismatch);
      Appended4(old(reasons), if s.invalid != [] then [Reason(CountInvalidNumber, Reject, CountQuotes(s.invalid))] else [],
                if s.upper != [] then [Reason(CountUpperBound, Reject, CountQuotes(s.upper))] else [],
                OneEach(s.unknown, CountUnknownObject), OneEach(s.wrong, CountSemanticsMismatch));
    }

    /** Nothing usable: say why, unless a rejection already does. */
    method RemarkMissing(counts: seq<CountCandidate>, id: Id, revises: Revises, s: Sorted)
      requires s == SortedOf(counts, id) && s.ok == []
      modifies this
      ensures reasons == old(reasons) + CountRemarks(counts, id, revises)
    {
      assert Values([]) == {};
      if s.upper == [] && s.unknown == [] && s.wrong == [] && s.invalid == [] {
        if s.unspecified != [] {
          AddAll(s.unspecified, CountComparatorUnspecified, Review);
        } else {
          var quotes := QuotesOfCounts(s.unresolved);
          Add(Reason(CountMissing, Review, quotes));
        }
      }
    }

    method AddRevised(chosen: CountCandidate, correction: Option<CountCandidate>)
      modifies this
      ensures reasons == old(reasons) + RevisedRemark(chosen, correction)
    {
      if correction.Some? { Add(Reason(CountRevised, Review, [chosen.evidence, correction.value.evidence])); }
    }

    method AddStray(stray: seq<CountCandidate>)
      modifies this
      ensures reasons == old(reasons) + StrayRemark(stray)
    {
      AddAll(stray, CountUnresolvedNumber, Review);
    }

    /** A usable value: other numbers that could be meant instead. */
    method RemarkDoubts(counts: seq<CountCandidate>, id: Id, revises: Revises, s: Sorted)
      requires s == SortedOf(counts, id) && s.ok != [] && |Values(s.ok)| <= 1
      modifies this
      ensures reasons == old(reasons) + CountRemarks(counts, id, revises)
    {
      var correction := FindCorrection(counts, id, s.ok[0].value, revises);
      var stray := OtherValues(s.unresolved, s.ok[0].value);
      AddRevised(s.ok[0], correction);
      AddStray(stray);
      Doubts(counts, id, revises);
      Appended2(old(reasons), RevisedRemark(s.ok[0], correction), StrayRemark(stray));
    }

    method RemarkConflict(counts: seq<CountCandidate>, id: Id, revises: Revises, s: Sorted)
      requires s == SortedOf(counts, id) && |Values(s.ok)| > 1
      modifies this
      ensures reasons == old(reasons) + CountRemarks(counts, id, revises)
    {
      assert s.ok != [];
      AddAll(s.ok, CountConflict, Reject);
    }

    method Remark(counts: seq<CountCandidate>, id: Id, revises: Revises, s: Sorted) returns (chosen: Option<CountCandidate>)
      requires s == SortedOf(counts, id)
      modifies this
      ensures reasons == old(reasons) + CountRemarks(counts, id, revises)
      ensures chosen == CountChoice(counts, id)
    {
      chosen := None;
      if |Values(s.ok)| > 1 {
        RemarkConflict(counts, id, revises, s);
      } else if s.ok == [] {
        RemarkMissing(counts, id, revises, s);
      } else {
        RemarkDoubts(counts, id, revises, s);
        chosen := Some(s.ok[0]);
      }
    }

    /** `_select_count`: the passage's minimum, with everything that speaks against it recorded. */
    method SelectCount(counts: seq<CountCandidate>, id: Id, revises: Revises) returns (chosen: Option<CountCandidate>)
      modifies this
      ensures reasons == old(reasons) + CountReasons(counts, id, revises)
      ensures chosen == CountChoice(counts, id)
    {
      var s := SortCounts(counts, id);
      RejectCounts(counts, id, s);
      chosen := Remark(counts, id, revises, s);
      Appended2(old(reasons), CountRejections(counts, id), CountRemarks(counts, id, revises));
    }

    /** `_select_window`: the passage's window and whether it stands outside the rule's sentences. */
    method SelectWindow(windows: seq<WindowCandidate>, revises: Revises) returns (chosen: Option<(WindowCandidate, bool)>)
      modifies this
      ensures reasons == old(reasons) + WindowReasons(windows, revises)
      ensures chosen == WindowChoice(windows, revises)
    {
      var rule := PickWindows(windows, InRule, 0.0, revises);
      SecondsOne(rule);
      if |SecondsIn(rule)| > 1 {
        var quotes := QuotesOfWindows(rule);
        Add(Reason(WindowConflict, Reject, quotes));
        return None;
      }
      if rule != [] {
        var secs := CandidateSeconds(rule[0]);
        var revised := PickWindows(windows, Revising, secs, revises);
        if revised != [] { Add(Reason(WindowRevised, Review, [rule[0].evidence, revised[0].evidence])); }
        var alt := PickWindows(windows, Alternative, secs, revises);
        if alt != [] { Add(Reason(WindowUnresolvedAlternative, Review, [rule[0].evidence, alt[0].evidence])); }
        return Some((rule[0], false));
      }
      var loose := PickWindows(windows, Loose, 0.0, revises);
      SecondsOne(loose);
      if |SecondsIn(loose)| == 1 { return Some((loose[0], true)); }
      if |SecondsIn(loose)| > 1 {
        var quotes := QuotesOfWindows(loose);
        Add(Reason(WindowAmbiguous, Review, quotes));
        return None;
      }
      Add(Reason(WindowMissing, Review, []));
      return None;
    }

    /** The extractor's threshold against the passage's; false if the disagreement cannot be reported. */
    method CompareThreshold(threshold: map<string, Json>, id: Id, count: CountCandidate) returns (ok: bool)
      modifies this
      ensures ok <==> !NoNumber(threshold)
      ensures ok ==> reasons == old(reasons) + ThresholdReasons(threshold, id, count)
    {
      ok := true;
      if threshold != map[] {
        var nums := Numbers(threshold);
        if |nums| > 1 {
          Add(Reason(ConflictingCountKeys, Reject, []));
        } else if |nums| == 1 {
          var key := NumberKey(nums);
          if Alias(id, key).None? {
            Add(Reason(AmbiguousCountAlias, Review, [count.evidence]));
          } else if nums[key] != Finite(count.value) {
            Add(Reason(CountModelDisagrees, Review, [count.evidence]));
          }
        } else {
          ok := false;
        }
      }
    }

    method CompareWindow(e: Extraction, window: WindowCandidate, outside: bool)
      modifies this
      ensures reasons == old(reasons) + ClaimPart(e, Some((window, outside)))
    {
      if e.timeWindow.Some? {
        var secs := ClaimSeconds(e.timeWindow.value);
        if secs.None? {
          Add(Reason(WindowModelMalformed, Review, [window.evidence]));
        } else if secs.value != Finite(CandidateSeconds(window)) {
          Add(Reason(WindowModelDisagrees, Review, [window.evidence]));
        }
      }
      if outside && !SpanAgrees(e.spanStart, window) {
        Add(Reason(WindowOutsideRuleSentence, Review, [window.evidence]));
      }
    }

    /** Does the passage contain what the behaviour requires? */
    method JudgeSignal(rep: ConditionReport, id: Id, complete: seq<Id>, hard: seq<Reason>)
      requires SignalsInOrder(rep.signals) && complete == Complete(rep.signals) && hard == HardReasons(rep)
      modifies this
      ensures reasons == old(reasons) + SignalReasons(rep, id)
    {
      var sig := SignalOf(rep.signals, id);
      if sig.missing != [] {
        if complete != [] {
          Add(Reason(BehaviourConflict, Review, []));
        } else if hard == [] {
          Add(Reason(RecipeConditionsNotFound, if PositivelyIncompatible(rep) then Reject else Review, []));
        }
      } else if |complete| > 1 {
        Add(Reason(BehaviourAmbiguous, Review, []));
      }
    }
  }

  // ------------------------------------------------------------------ `reconcile`

  method Finish(reasons: seq<Reason>, id: Id, spec: Spec) returns (r: Result)
    ensures r == Decided(Reconciliation(VerdictOf(reasons), Some(id), Some(spec), reasons))
  {
    if exists x | x in reasons :: x.severity == Reject {
      return Decided(Reconciliation(Rejected, Some(id), Some(spec), reasons));
    }
    if exists x | x in reasons :: x.severity == Review {
      return Decided(Reconciliation(NeedsReview, Some(id), Some(spec), reasons));
    }
    return Decided(Reconciliation(Verdict.Accepted, Some(id), Some(spec), reasons));
  }

  method HardList(rep: ConditionReport) returns (hard: seq<Reason>)
    ensures hard == HardReasons(rep)
  {
    var list := new Ledger();
    list.AddQuotes(rep.qualifiers, UnsupportedQualifier, Reject);
    list.AddFields(rep.fields, Code, UnknownField, Reject);
    return list.reasons;
  }

  method WeighCount(ledger: Ledger, rep: ConditionReport, id: Id, revises: Revises, e: Extraction) returns (ok: bool, count: Option<CountCandidate>)
    modifies ledger
    ensures ok <==> !(CountChoice(rep.counts, id).Some? && NoNumber(e.threshold))
    ensures ok ==> ledger.reasons == old(ledger.reasons) + CountPart(rep, id, revises, e)
    ensures count == CountChoice(rep.counts, id)
  {
    count := ledger.SelectCount(rep.counts, id, revises);
    ok := true;
    if count.Some? { ok := ledger.CompareThreshold(e.threshold, id, count.value); }
    Appended2(old(ledger.reasons), CountReasons(rep.counts, id, revises), ThresholdPart(e, id, count));
  }

  method WeighWindow(ledger: Ledger, rep: ConditionReport, revises: Revises, e: Extraction) returns (window: Option<(WindowCandidate, bool)>)
    modifies ledger
    ensures ledger.reasons == old(ledger.reasons) + WindowPart(rep, revises, e)
    ensures window == WindowChoice(rep.windows, revises)
  {
    window := ledger.SelectWindow(rep.windows, revises);
    if window.Some? { ledger.CompareWindow(e, window.value.0, window.value.1); }
    Appended2(old(ledger.reasons), WindowReasons(rep.windows, revises), ClaimPart(e, window));
  }

  /** The windowed part: passage and proposal, count then window; `None` if the threshold cannot be reported. */
  method WeighNumbers(ledger: Ledger, rep: ConditionReport, id: Id, revises: Revises, e: Extraction) returns (chosen: Option<(Option<CountCandidate>, Option<WindowCandidate>)>)
    requires Windowed(id)
    modifies ledger
    ensures chosen.None? <==> CountChoice(rep.counts, id).Some? && NoNumber(e.threshold)
    ensures chosen.Some? ==> ledger.reasons == old(ledger.reasons) + NumberReasons(rep, id, revises, e)
    ensures chosen.Some? ==> chosen.value == (CountFor(rep, id), WindowFor(rep, id, revises))
  {
    var ok, count := WeighCount(ledger, rep, id, revises, e);
    if !ok { return None; }
    var window := WeighWindow(ledger, rep, revises, e);
    Appended2(old(ledger.reasons), CountPart(rep, id, revises, e), WindowPart(rep, revises, e));
    return Some((count, if window.Some? then Some(window.value.0) else None));
  }

  /** A policy rule that names one method would over-alert. */
  method JudgeMethods(ledger: Ledger, rep: ConditionReport, id: Id)
    modifies ledger
    ensures ledger.reasons == old(ledger.reasons) + MethodReasons(rep, id)
  {
    if id.MethodViolation? && rep.methodLiterals != [] {
      ledger.Add(Reason(DirectionSpecificMethod, Review, Take2(rep.methodLiterals)));
    }
  }

  /** With a behaviour under consideration, after hedges and hard rejections. */
  method ConsiderBehaviour(ledger: Ledger, rep: ConditionReport, id: Id, revises: Revises, e: Extraction, complete: seq<Id>, hard: seq<Reason>) returns (r: Result)
    requires SignalsInOrder(rep.signals) && complete == Complete(rep.signals) && hard == HardReasons(rep)
    requires ledger.reasons == QuoteReasons(rep.hedges, ValueNotSettled, Review)
    modifies ledger
    ensures r == Consider(rep, id, revises, e)
  {
    ledger.Extend(hard);
    ledger.JudgeSignal(rep, id, complete, hard);
    var chosen := Some((None, None));
    if Windowed(id) {
      chosen := WeighNumbers(ledger, rep, id, revises, e);
      if chosen.None? { return RaisedKeyError; }
    } else {
      JudgeMethods(ledger, rep, id);
    }
    ledger.AddFields(rep.fields, Phrase, UnmappedFieldPhrase, Review);
    r := Finish(ledger.reasons, id, BuildSpec(id, chosen.value.0, chosen.value.1));
  }

  /** `reconcile`, after the finder has run. */
  method ReconcileReport(rep: ConditionReport, revises: Revises, extraction: Option<Extraction>) returns (r: Result)
    requires SignalsInOrder(rep.signals)
    ensures r == Decide(rep, revises, extraction)
  {
    var complete := CompleteBehaviours(rep.signals);
    var ledger := new Ledger();
    var claimed := None;
    if extraction.Some? && extraction.value.behaviourId.Some? {
      claimed := Find(extraction.value.behaviourId.value);
      if claimed.None? {
        ledger.Add(Reason(UnknownBehaviourClaimed, Reject, []));
        return Stop(Rejected, ledger.reasons);
      }
    }
    var hard := HardList(rep);
    ledger.AddQuotes(rep.hedges, ValueNotSettled, Review);
    if claimed.None? && extraction.Some? {
      if |complete| == 1 && hard == [] {
        ledger.Add(Reason(AbstentionContradicted, Review, []));
        return Stop(NeedsReview, ledger.reasons);
      }
      ledger.Extend(hard);
      ledger.Add(Reason(UnsupportedBehaviour, Reject, []));
      return Stop(Rejected, ledger.reasons);
    }
    if claimed.None? {
      if |complete| == 1 {
        claimed := Some(complete[0]);
      } else if |complete| > 1 {
        ledger.Add(Reason(BehaviourAmbiguous, Review, []));
        return Stop(NeedsReview, ledger.reasons);
      } else {
        var partial := PartialSignals(rep.signals);
        if hard == [] && |partial| == 1 {
          ledger.Add(Reason(UnderspecifiedBehaviour, Review, Take2(partial[0].cues)));
          return Stop(NeedsReview, ledger.reasons);
        }
        ledger.Extend(hard);
        ledger.Add(Reason(UnsupportedBehaviour, Reject, []));
        return Stop(Rejected, ledger.reasons);
      }
    }
    r := ConsiderBehaviour(ledger, rep, claimed.value, revises, if extraction.Some? then extraction.value else NO_PROPOSAL, complete, hard);
  }
}
