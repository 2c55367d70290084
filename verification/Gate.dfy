/** The evidence gate's guarantees: no proposal supplies a number, and no compiled number differs from what the rule sentences say. */
module Gate {
  import opened Ordering
  import opened Behaviours
  import opened Validation
  import opened Evidence
  import opened Reconcile
  import opened ReconcileLaws
  import TextSpans

  // ------------------------------------------------------------------ non-interference

  /** The passage's window, if it has one, stands in a rule sentence. */
  predicate NotOutside(rep: ConditionReport, id: Id, revises: Revises) {
    Windowed(id) && WindowChoice(rep.windows, revises).Some? ==> !WindowChoice(rep.windows, revises).value.1
  }

  /** Without a proposal a behaviour is considered exactly when it alone is complete. */
  lemma {:induction false} AloneConsiders(rep: ConditionReport, revises: Revises, id: Id)
    ensures Decide(rep, revises, None).Decided? && Decide(rep, revises, None).value.behaviour == Some(id) <==> Complete(rep.signals) == [id]
    ensures Complete(rep.signals) == [id] ==> Decide(rep, revises, None) == Consider(rep, id, revises, NO_PROPOSAL)
  {
    var complete := Complete(rep.signals);
    if |complete| == 1 { assert complete == [complete[0]]; }
  }

  lemma {:induction false} ConcursAlone(rep: ConditionReport, id: Id, revises: Revises)
    requires Settled(rep, id, revises)
    ensures Concurs(rep, id, revises, NO_PROPOSAL) <==> NotOutside(rep, id, revises)
  {
    if Windowed(id) {
      CountDecided(rep.counts, id, revises);
      WindowDecided(rep.windows, revises);
    }
  }

  /** The passage alone is accepted exactly when it is settled and its window stands in a rule sentence. */
  lemma {:induction false} PassageAccepts(rep: ConditionReport, revises: Revises, id: Id)
    requires SignalsInOrder(rep.signals)
    ensures IsAccepted(Decide(rep, revises, None), id) <==> Settled(rep, id, revises) && NotOutside(rep, id, revises)
  {
    OnlyCompleteIff(rep.signals, id);
    AloneConsiders(rep, revises, id);
    ConsiderAccepts(rep, id, revises, NO_PROPOSAL);
    if Settled(rep, id, revises) { ConcursAlone(rep, id, revises); }
  }

  predicate Names(e: Extraction, id: Id) { e.behaviourId.Some? && Find(e.behaviourId.value) == Some(id) }

  /** A proposal has the behaviour it names considered, and no other. */
  lemma {:induction false} ProposalConsiders(rep: ConditionReport, revises: Revises, e: Extraction, id: Id)
    ensures IsAccepted(Decide(rep, revises, Some(e)), id) <==> Names(e, id) && IsAccepted(Consider(rep, id, revises, e), id)
  {}

  /** A proposal is accepted exactly when it names the one behaviour the passage settles and repeats its numbers. */
  lemma {:induction false} ProposalAccepts(rep: ConditionReport, revises: Revises, e: Extraction, id: Id)
    requires SignalsInOrder(rep.signals)
    ensures IsAccepted(Decide(rep, revises, Some(e)), id) <==>
              Names(e, id) && Settled(rep, id, revises) && Concurs(rep, id, revises, e)
  {
    ProposalConsiders(rep, revises, e, id);
    ConsiderAccepts(rep, id, revises, e);
  }

  predicate OnlyOutside(reasons: seq<Reason>) { forall r | r in reasons :: r.code == WindowOutsideRuleSentence }

  /** If the sequence has a first reason, it is about something else. */
  predicate HeadOther(s: seq<Reason>) { s == [] || s[0].code != WindowOutsideRuleSentence }

  lemma {:induction false} HeadJoin(a: seq<Reason>, b: seq<Reason>)
    requires HeadOther(a) && HeadOther(b)
    ensures HeadOther(a + b)
  {}

  lemma {:induction false} QuoteHead(quotes: seq<Quote>, code: ReasonCode, severity: Severity)
    requires code != WindowOutsideRuleSentence
    ensures HeadOther(QuoteReasons(quotes, code, severity))
  {
    if quotes != [] {
      QuoteHead(quotes[..|quotes| - 1], code, severity);
      HeadJoin(QuoteReasons(quotes[..|quotes| - 1], code, severity), [Reason(code, severity, [quotes[|quotes| - 1]])]);
    }
  }

  lemma {:induction false} FieldHead(fields: seq<FieldMention>, form: Form, code: ReasonCode, severity: Severity)
    requires code != WindowOutsideRuleSentence
    ensures HeadOther(FieldReasons(fields, form, code, severity))
  {
    if fields != [] { FieldHead(fields[..|fields| - 1], form, code, severity); }
  }

  lemma {:induction false} OneEachHead(counts: seq<CountCandidate>, code: ReasonCode)
    requires code != WindowOutsideRuleSentence
    ensures HeadOther(OneEach(counts, code))
  {
    if counts != [] { OneEachHead(counts[..|counts| - 1], code); }
  }

  lemma {:induction false} RemarksHead(counts: seq<CountCandidate>, id: Id, revises: Revises)
    ensures HeadOther(CountRemarks(counts, id, revises))
  {}

  lemma {:induction false} CountHead(counts: seq<CountCandidate>, id: Id, revises: Revises)
    ensures HeadOther(CountReasons(counts, id, revises))
  {
    OneEachHead(InBucket(counts, id, UnknownThing), CountUnknownObject);
    OneEachHead(InBucket(counts, id, WrongSemantics), CountSemanticsMismatch);
    RemarksHead(counts, id, revises);
    HeadJoin(CountRejections(counts, id), CountRemarks(counts, id, revises));
  }

  lemma {:induction false} WindowHead(windows: seq<WindowCandidate>, revises: Revises)
    ensures HeadOther(WindowReasons(windows, revises))
  {}

  lemma {:induction false} OnlyOutsideNone(a: seq<Reason>)
    requires HeadOther(a)
    ensures OnlyOutside(a) <==> a == []
  {
    if a != [] { assert a[0] in a; }
  }

  lemma {:induction false} OnlyOutsideJoin(a: seq<Reason>, b: seq<Reason>)
    ensures OnlyOutside(a + b) <==> OnlyOutside(a) && OnlyOutside(b)
  {
    if OnlyOutside(a + b) {
      forall r | r in a ensures r.code == WindowOutsideRuleSentence { assert r in a + b; }
      forall r | r in b ensures r.code == WindowOutsideRuleSentence { assert r in a + b; }
    }
  }

  lemma {:induction false} FiveOnlyOutside(a: seq<Reason>, b: seq<Reason>, c: seq<Reason>, d: seq<Reason>, e: seq<Reason>)
    ensures OnlyOutside(a + b + c + d + e) <==> OnlyOutside(a) && OnlyOutside(b) && OnlyOutside(c) && OnlyOutside(d) && OnlyOutside(e)
  {
    OnlyOutsideJoin(a, b);
    OnlyOutsideJoin(a + b, c);
    OnlyOutsideJoin(a + b + c, d);
    OnlyOutsideJoin(a + b + c + d, e);
  }

  lemma {:induction false} PlaceOnly(window: Option<(WindowCandidate, bool)>)
    ensures OnlyOutside(ClaimPart(NO_PROPOSAL, window))
  {}

  lemma {:induction false} NothingOnCount(id: Id, count: Option<CountCandidate>)
    ensures ThresholdPart(NO_PROPOSAL, id, count) == []
  {}

  /** The passage's numbers draw no reason but the place of the window exactly when they are settled. */
  lemma {:induction false} NumbersOutside(rep: ConditionReport, id: Id, revises: Revises)
    requires Windowed(id)
    ensures OnlyOutside(NumberReasons(rep, id, revises, NO_PROPOSAL)) <==> NumbersSettled(rep, id, revises)
  {
    var counts, windows, place := CountReasons(rep.counts, id, revises), WindowReasons(rep.windows, revises),
                                  ClaimPart(NO_PROPOSAL, WindowChoice(rep.windows, revises));
    NothingOnCount(id, CountChoice(rep.counts, id));
    PlaceOnly(WindowChoice(rep.windows, revises));
    OnlyOutsideJoin(counts, []);
    OnlyOutsideJoin(windows, place);
    OnlyOutsideJoin(counts + [], windows + place);
    CountHead(rep.counts, id, revises);
    WindowHead(rep.windows, revises);
    OnlyOutsideNone(counts);
    OnlyOutsideNone(windows);
    CountDecided(rep.counts, id, revises);
    WindowDecided(rep.windows, revises);
  }

  lemma {:induction false} FourOther(a: seq<Reason>, b: seq<Reason>, c: seq<Reason>, d: seq<Reason>, e: seq<Reason>)
    requires HeadOther(a) && HeadOther(b) && HeadOther(c) && HeadOther(e)
    ensures OnlyOutside(a + b + c + d + e) <==> a == [] && b == [] && c == [] && OnlyOutside(d) && e == []
  {
    FiveOnlyOutside(a, b, c, d, e);
    OnlyOutsideNone(a);
    OnlyOutsideNone(b);
    OnlyOutsideNone(c);
    OnlyOutsideNone(e);
  }

  lemma {:induction false} SignalHeads(rep: ConditionReport, id: Id)
    ensures HeadOther(SignalReasons(rep, id)) && HeadOther(MethodReasons(rep, id))
  {}

  lemma {:induction false} PartHeads(rep: ConditionReport, id: Id)
    ensures HeadOther(QuoteReasons(rep.hedges, ValueNotSettled, Review)) && HeadOther(HardReasons(rep)) && HeadOther(SignalReasons(rep, id))
    ensures HeadOther(MethodReasons(rep, id)) && HeadOther(FieldReasons(rep.fields, Phrase, UnmappedFieldPhrase, Review))
  {
    SignalHeads(rep, id);
    QuoteHead(rep.hedges, ValueNotSettled, Review);
    QuoteHead(rep.qualifiers, UnsupportedQualifier, Reject);
    FieldHead(rep.fields, Code, UnknownField, Reject);
    FieldHead(rep.fields, Phrase, UnmappedFieldPhrase, Review);
    HeadJoin(QuoteReasons(rep.qualifiers, UnsupportedQualifier, Reject), FieldReasons(rep.fields, Code, UnknownField, Reject));
  }

  /** The five parts of the reasons, none but the numbers' mentioning the window's place. */
  lemma {:induction false} PartsOutside(rep: ConditionReport, id: Id, revises: Revises)
    ensures OnlyOutside(ReasonsFor(rep, id, revises, NO_PROPOSAL)) <==>
              Unhedged(rep) && SignalReasons(rep, id) == []
              && if Windowed(id) then OnlyOutside(NumberReasons(rep, id, revises, NO_PROPOSAL)) else MethodReasons(rep, id) == []
  {
    PartHeads(rep, id);
    FourOther(QuoteReasons(rep.hedges, ValueNotSettled, Review), HardReasons(rep), SignalReasons(rep, id),
              if Windowed(id) then NumberReasons(rep, id, revises, NO_PROPOSAL) else MethodReasons(rep, id),
              FieldReasons(rep.fields, Phrase, UnmappedFieldPhrase, Review));
    if !Windowed(id) { OnlyOutsideNone(MethodReasons(rep, id)); }
  }

  /** The passage alone reaches behaviour `id` with no reason but the place of its window. */
  predicate ReachedAlone(rep: ConditionReport, revises: Revises, id: Id) {
    var alone := Decide(rep, revises, None);
    alone.Decided? && alone.value.behaviour == Some(id) && OnlyOutside(alone.value.reasons)
  }

  lemma {:induction false} ReachedIff(rep: ConditionReport, revises: Revises, id: Id)
    ensures ReachedAlone(rep, revises, id) <==> Complete(rep.signals) == [id] && OnlyOutside(ReasonsFor(rep, id, revises, NO_PROPOSAL))
  {
    AloneConsiders(rep, revises, id);
  }

  lemma {:induction false} WindowedOutside(rep: ConditionReport, revises: Revises, id: Id)
    requires SignalsInOrder(rep.signals) && Windowed(id)
    ensures OnlyOutside(ReasonsFor(rep, id, revises, NO_PROPOSAL)) <==> Settled(rep, id, revises)
  {
    PartsOutside(rep, id, revises);
    PlainIff(rep, id);
    NumbersOutside(rep, id, revises);
  }

  lemma {:induction false} PolicyOutside(rep: ConditionReport, revises: Revises, id: Id)
    requires SignalsInOrder(rep.signals) && !Windowed(id)
    ensures OnlyOutside(ReasonsFor(rep, id, revises, NO_PROPOSAL)) <==> Settled(rep, id, revises)
  {
    PartsOutside(rep, id, revises);
    PlainIff(rep, id);
  }

  lemma {:induction false} SettledComplete(rep: ConditionReport, revises: Revises, id: Id)
    requires SignalsInOrder(rep.signals) && Settled(rep, id, revises)
    ensures Complete(rep.signals) == [id]
  {
    OnlyCompleteIff(rep.signals, id);
  }

  lemma {:induction false} SettledAlone(rep: ConditionReport, revises: Revises, id: Id)
    requires SignalsInOrder(rep.signals)
    ensures Settled(rep, id, revises) <==> ReachedAlone(rep, revises, id)
  {
    ReachedIff(rep, revises, id);
    if Windowed(id) { WindowedOutside(rep, revises, id); } else { PolicyOutside(rep, revises, id); }
    if Settled(rep, id, revises) { SettledComplete(rep, revises, id); }
  }

  /** No proposal supplies a number or a behaviour: it is accepted exactly when the passage alone reaches the behaviour it names, with
      no reason but the place of its window, and it repeats the passage's numbers. */
  lemma {:induction false} NonInterference(rep: ConditionReport, revises: Revises, e: Extraction, id: Id)
    requires SignalsInOrder(rep.signals)
    ensures IsAccepted(Decide(rep, revises, Some(e)), id) <==> ReachedAlone(rep, revises, id) && Names(e, id) && Concurs(rep, id, revises, e)
  {
    ProposalAccepts(rep, revises, e, id);
    SettledAlone(rep, revises, id);
  }

  predicate Accepts(rep: ConditionReport, revises: Revises, extraction: Option<Extraction>) {
    Decide(rep, revises, extraction).Decided? && Decide(rep, revises, extraction).value.verdict == Verdict.Accepted
  }

  /** A verdict of acceptance always names a behaviour and carries the passage's own spec. */
  lemma {:induction false} AcceptedSpec(rep: ConditionReport, revises: Revises, extraction: Option<Extraction>)
    requires Accepts(rep, revises, extraction)
    ensures var r := Decide(rep, revises, extraction).value;
            r.behaviour.Some? && IsAccepted(Decide(rep, revises, extraction), r.behaviour.value)
            && r.spec == Some(SpecFor(rep, r.behaviour.value, revises))
  {}

  lemma {:induction false} AcceptedSettled(rep: ConditionReport, revises: Revises, extraction: Option<Extraction>) returns (id: Id)
    requires SignalsInOrder(rep.signals)
    requires Accepts(rep, revises, extraction)
    ensures Decide(rep, revises, extraction).value.behaviour == Some(id) && Settled(rep, id, revises)
    ensures Decide(rep, revises, extraction).value.spec == Some(SpecFor(rep, id, revises))
  {
    AcceptedSpec(rep, revises, extraction);
    id := Decide(rep, revises, extraction).value.behaviour.value;
    PassageAccepts(rep, revises, id);
    if extraction.Some? { ProposalAccepts(rep, revises, extraction.value, id); }
  }

  /** The spec of an acceptance is the one the passage alone yields. */
  lemma {:induction false} SpecUnchanged(rep: ConditionReport, revises: Revises, extraction: Option<Extraction>)
    requires SignalsInOrder(rep.signals)
    requires Accepts(rep, revises, extraction)
    ensures Decide(rep, revises, None).Decided?
    ensures Decide(rep, revises, extraction).value.behaviour == Decide(rep, revises, None).value.behaviour
    ensures Decide(rep, revises, extraction).value.spec == Decide(rep, revises, None).value.spec
  {
    var id := AcceptedSettled(rep, revises, extraction);
    OnlyCompleteIff(rep.signals, id);
    AloneConsiders(rep, revises, id);
  }

  /** Any two accepted proposals agree on behaviour and spec. */
  lemma {:induction false} AcceptedAgree(rep: ConditionReport, revises: Revises, a: Option<Extraction>, b: Option<Extraction>)
    requires SignalsInOrder(rep.signals)
    requires Accepts(rep, revises, a)
    requires Accepts(rep, revises, b)
    ensures Decide(rep, revises, a).value.behaviour == Decide(rep, revises, b).value.behaviour
    ensures Decide(rep, revises, a).value.spec == Decide(rep, revises, b).value.spec
  {
    SpecUnchanged(rep, revises, a);
    SpecUnchanged(rep, revises, b);
  }

  // ------------------------------------------------------------------ proposals that make reconciliation raise

  /** The proposal names a windowed behaviour whose minimum the passage states, and its own threshold has entries but no number. */
  predicate NumberMissing(rep: ConditionReport, extraction: Option<Extraction>) {
    && extraction.Some? && extraction.value.behaviourId.Some?
    && var id, threshold := Find(extraction.value.behaviourId.value), extraction.value.threshold;
    && id.Some? && Windowed(id.value) && CountChoice(rep.counts, id.value).Some?
    && threshold != map[] && forall k | k in threshold :: !threshold[k].Number?
  }

  lemma {:induction false} NoNumberIff(threshold: map<string, Json>)
    ensures NoNumber(threshold) <==> threshold != map[] && forall k | k in threshold :: !threshold[k].Number?
  {
    var nums := Numbers(threshold);
    if k :| k in threshold && threshold[k].Number? { assert k in nums; }
    if nums != map[] {
      var k :| k in nums;
      assert k in threshold && threshold[k].Number?;
    }
    assert |nums| == 0 <==> nums == map[];
  }

  /** Deciding raises KeyError for exactly these proposals. */
  lemma {:induction false} RaisesIff(rep: ConditionReport, revises: Revises, extraction: Option<Extraction>)
    ensures Decide(rep, revises, extraction).RaisedKeyError? <==> NumberMissing(rep, extraction)
  {
    if extraction.Some? { NoNumberIff(extraction.value.threshold); }
  }

  /** One of them: "five or more failed logins" and a proposal that repeats the minimum as text. */
  lemma {:induction false} RaisesForText(quote: Quote, signals: seq<Signal>, revises: Revises)
    ensures var five := CountCandidate(5.0, Gte, Some(EventCount), Some(LoginFailure), "", quote, true);
            var proposal := Extraction(Some(IdText(RepeatedFailure)), map["minimum" := Text("five")], None, None);
            Decide(ConditionReport([five], [], [], [], signals, [], []), revises, Some(proposal)).RaisedKeyError?
  {
    var five := CountCandidate(5.0, Gte, Some(EventCount), Some(LoginFailure), "", quote, true);
    FindText(RepeatedFailure);
    assert [five][..0] == [];
    assert InBucket([five], RepeatedFailure, Usable) == [five];
    assert Values([five]) == {5.0};
    var threshold := map["minimum" := Text("five")];
    assert "minimum" in threshold;
    NoNumberIff(threshold);
  }

  // ------------------------------------------------------------------ no silent wrong rule

  /** The duration is the whole number of seconds, up to float noise. */
  predicate Near(s: real, secs: int) { Round(s) == secs && Distance(s) <= TOLERANCE }

  lemma {:induction false} CountStatedBy(id: Id, s: Spec, v: real, n: int)
    requires Windowed(id) && s.threshold == Present(map[AliasKey(id) := Number(Finite(v))])
    requires ConditionsCount(s.conditions) == Present(CountBlock(Number(Finite(v)), SemanticsJson(Counts(id)), Some(Text("gte"))))
    ensures StatesCount(id, s, n) <==> v == n as real && 1 <= n <= MAX_COUNT && (RecipeOf(id).DistinctCountWithinWindow? ==> n >= 2)
  {
    assert s.threshold.value.Keys == {AliasKey(id)};
  }

  lemma {:induction false} WindowStatedBy(s: Spec, w: WindowCandidate, secs: int)
    requires s.timeWindow == Present(TimeWindow(Some(Number(Finite(w.amount))), Text(UnitText(w.unit)), false))
    requires ConditionsWindow(s.conditions) == Present(WindowBlock(Number(Finite(w.amount)), Text(UnitText(w.unit))))
    ensures StatesWindow(s, secs) <==> w.amount > 0.0 && Near(CandidateSeconds(w), secs) && 1 <= secs <= MAX_WINDOW_SECONDS
  {
    UnitTextUnit(w.unit);
  }

  lemma {:induction false} WindowBlocks(rep: ConditionReport, id: Id, revises: Revises, s: Spec, w: WindowCandidate)
    requires Windowed(id) && s == SpecFor(rep, id, revises)
    requires WindowChoice(rep.windows, revises).Some? && w == WindowChoice(rep.windows, revises).value.0
    ensures s.timeWindow == Present(TimeWindow(Some(Number(Finite(w.amount))), Text(UnitText(w.unit)), false))
    ensures ConditionsWindow(s.conditions) == Present(WindowBlock(Number(Finite(w.amount)), Text(UnitText(w.unit))))
  {}

  /** The numbers of the passage's spec, when it states both. */
  lemma {:induction false} SpecCount(rep: ConditionReport, id: Id, revises: Revises, n: int)
    requires Windowed(id) && CountChoice(rep.counts, id).Some?
    ensures StatesCount(id, SpecFor(rep, id, revises), n) <==>
              CountChoice(rep.counts, id).value.value == n as real && 1 <= n <= MAX_COUNT && (RecipeOf(id).DistinctCountWithinWindow? ==> n >= 2)
  {
    CountStatedBy(id, SpecFor(rep, id, revises), CountChoice(rep.counts, id).value.value, n);
  }

  lemma {:induction false} SpecWindow(rep: ConditionReport, id: Id, revises: Revises, s: Spec, w: WindowCandidate, secs: int)
    requires Windowed(id) && s == SpecFor(rep, id, revises)
    requires WindowChoice(rep.windows, revises).Some? && w == WindowChoice(rep.windows, revises).value.0
    ensures StatesWindow(s, secs) <==> w.amount > 0.0 && Near(CandidateSeconds(w), secs) && 1 <= secs <= MAX_WINDOW_SECONDS
  {
    WindowBlocks(rep, id, revises, s, w);
    WindowStatedBy(s, w, secs);
  }

  /** The rule's threshold is what every minimum in a rule sentence says, and its window is what every exact window marked in a rule
      sentence says, or, without one, every strongly marked duration. */
  predicate Faithful(rep: ConditionReport, c: Compiled) {
    && OnlyComplete(rep.signals, c.behaviour)
    && (Windowed(c.behaviour) ==>
          && ThresholdOf(c).Some? && c.timeWindowSeconds.Some?
          && (forall x | x in rep.counts && x.ruleSentence && x.comparator.Gte? :: x.value == ThresholdOf(c).value as real)
          && (forall w | w in rep.windows && MarkedInRule(w) :: Near(CandidateSeconds(w), c.timeWindowSeconds.value))
          && ((forall w | w in rep.windows :: !MarkedInRule(w)) ==>
                forall w | w in rep.windows && MarkedLoosely(w) :: Near(CandidateSeconds(w), c.timeWindowSeconds.value)))
  }

  /** Deciding accepts, and the accepted spec compiles to `c`. */
  ghost predicate Yields(rep: ConditionReport, revises: Revises, extraction: Option<Extraction>, c: Compiled) {
    var r := Decide(rep, revises, extraction);
    r.Decided? && r.value.verdict == Verdict.Accepted && r.value.spec.Some? && CompilesTo(r.value.spec.value, c)
  }

  /** No silent wrong rule: whatever an accepted passage compiles to is what the passage says. */
  lemma {:induction false} NoSilentWrongRule(rep: ConditionReport, revises: Revises, extraction: Option<Extraction>, c: Compiled)
    requires SignalsInOrder(rep.signals)
    requires Yields(rep, revises, extraction, c)
    ensures Decide(rep, revises, extraction).value.behaviour == Some(c.behaviour) && Faithful(rep, c)
  {
    var id := AcceptedSettled(rep, revises, extraction);
    FindText(id);
    assert c.behaviour == id;
    if Windowed(id) {
      CountDecided(rep.counts, id, revises);
      WindowDecided(rep.windows, revises);
      SpecCount(rep, id, revises, ThresholdOf(c).value);
      SpecWindow(rep, id, revises, SpecFor(rep, id, revises), WindowChoice(rep.windows, revises).value.0, c.timeWindowSeconds.value);
    }
  }

  /** A passage compiles to at most one rule, whatever is proposed about it. */
  lemma {:induction false} OneRulePerPassage(rep: ConditionReport, revises: Revises, a: Option<Extraction>, b: Option<Extraction>, c: Compiled, d: Compiled)
    requires SignalsInOrder(rep.signals)
    requires Yields(rep, revises, a, c) && Yields(rep, revises, b, d)
    ensures c == d
  {
    AcceptedAgree(rep, revises, a, b);
    CompiledNumbers(Decide(rep, revises, a).value.spec.value, c, d);
  }

  /** The numbers of an accepted rule are candidates of the passage, whose quotes verify against the report. */
  lemma {:induction false} EvidenceVerifies(report: string, sentences: seq<TextSpans.Span>, rep: ConditionReport, revises: Revises, extraction: Option<Extraction>)
    requires SignalsInOrder(rep.signals) && FoundIn(report, sentences, rep)
    requires Accepts(rep, revises, extraction)
    requires Windowed(Decide(rep, revises, extraction).value.behaviour.value)
    ensures exists c, w | c in rep.counts && w in rep.windows ::
              VerifyQuote(report, c.evidence) && VerifyQuote(report, w.evidence)
              && Decide(rep, revises, extraction).value.spec
                 == Some(BuildSpec(Decide(rep, revises, extraction).value.behaviour.value, Some(c), Some(w)))
  {
    var id := AcceptedSettled(rep, revises, extraction);
    CountDecided(rep.counts, id, revises);
    WindowDecided(rep.windows, revises);
    var c, w := CountChoice(rep.counts, id).value, WindowChoice(rep.windows, revises).value.0;
    assert c in rep.counts && w in rep.windows;
    CutVerifies(report, sentences, c.evidence.start, c.evidence.end);
    CutVerifies(report, sentences, w.evidence.start, w.evidence.end);
  }

  /** The chosen numbers are within the ranges a rule may have. */
  predicate InRange(rep: ConditionReport, id: Id, revises: Revises) {
    Windowed(id) && CountChoice(rep.counts, id).Some? && WindowChoice(rep.windows, revises).Some? ==>
      var v, w := CountChoice(rep.counts, id).value.value, WindowChoice(rep.windows, revises).value.0;
      && IsWhole(v) && (if RecipeOf(id).DistinctCountWithinWindow? then 2.0 else 1.0) <= v <= MAX_COUNT as real
      && w.amount > 0.0 && Distance(CandidateSeconds(w)) <= TOLERANCE && 1 <= Round(CandidateSeconds(w)) <= MAX_WINDOW_SECONDS
  }

  lemma {:induction false} CountValid(rep: ConditionReport, id: Id, revises: Revises, v: real)
    requires Windowed(id) && CountChoice(rep.counts, id).Some?
    requires v == CountChoice(rep.counts, id).value.value
    ensures (exists n :: StatesCount(id, SpecFor(rep, id, revises), n)) <==>
              IsWhole(v) && (if RecipeOf(id).DistinctCountWithinWindow? then 2.0 else 1.0) <= v <= MAX_COUNT as real
  {
    SpecCount(rep, id, revises, v.Floor);
    if n :| StatesCount(id, SpecFor(rep, id, revises), n) { SpecCount(rep, id, revises, n); }
  }

  lemma {:induction false} WindowValid(rep: ConditionReport, id: Id, revises: Revises, w: WindowCandidate)
    requires Windowed(id) && WindowChoice(rep.windows, revises).Some?
    requires w == WindowChoice(rep.windows, revises).value.0
    ensures (exists secs :: StatesWindow(SpecFor(rep, id, revises), secs)) <==>
              w.amount > 0.0 && Distance(CandidateSeconds(w)) <= TOLERANCE && 1 <= Round(CandidateSeconds(w)) <= MAX_WINDOW_SECONDS
  {
    SpecWindow(rep, id, revises, SpecFor(rep, id, revises), w, Round(CandidateSeconds(w)));
    if secs :| StatesWindow(SpecFor(rep, id, revises), secs) { SpecWindow(rep, id, revises, SpecFor(rep, id, revises), w, secs); }
  }

  lemma {:induction false} SpecNamed(rep: ConditionReport, id: Id, revises: Revises)
    ensures Named(SpecFor(rep, id, revises)) == Some(id)
  {
    FindText(id);
  }

  lemma {:induction false} WindowedAcceptable(id: Id, s: Spec)
    requires Windowed(id) && NoneMalformed(s)
    ensures Acceptable(id, s) <==> (exists n :: StatesCount(id, s, n)) && (exists secs :: StatesWindow(s, secs))
  {}

  lemma {:induction false} SpecShape(rep: ConditionReport, id: Id, revises: Revises)
    ensures NoneMalformed(SpecFor(rep, id, revises))
    ensures !Windowed(id) ==> Acceptable(id, SpecFor(rep, id, revises))
  {}

  lemma {:induction false} WindowedValid(rep: ConditionReport, id: Id, revises: Revises)
    requires Windowed(id) && CountChoice(rep.counts, id).Some? && WindowChoice(rep.windows, revises).Some?
    ensures Acceptable(id, SpecFor(rep, id, revises)) <==> InRange(rep, id, revises)
  {
    SpecShape(rep, id, revises);
    CountValid(rep, id, revises, CountChoice(rep.counts, id).value.value);
    WindowValid(rep, id, revises, WindowChoice(rep.windows, revises).value.0);
    WindowedAcceptable(id, SpecFor(rep, id, revises));
  }

  /** A settled passage's spec passes strict validation exactly when its numbers are in range. */
  lemma {:induction false} SpecValid(rep: ConditionReport, id: Id, revises: Revises)
    requires Settled(rep, id, revises)
    ensures Acceptable(id, SpecFor(rep, id, revises)) <==> InRange(rep, id, revises)
  {
    if Windowed(id) {
      CountDecided(rep.counts, id, revises);
      WindowDecided(rep.windows, revises);
      WindowedValid(rep, id, revises);
    } else {
      SpecShape(rep, id, revises);
    }
  }
}
