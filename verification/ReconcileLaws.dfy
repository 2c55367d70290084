/** When reconciliation accepts: exactly for settled passages whose numbers the proposal repeats. */
module ReconcileLaws {
  import opened Ordering
  import opened Behaviours
  import opened Validation
  import opened Evidence
  import opened Reconcile

  // ------------------------------------------------------------------ a settled count

  /** A minimum count of what the behaviour counts. */
  predicate Countable(c: CountCandidate, id: Id) {
    && c.comparator.Gte? && c.unknownObject == "" && c.semantics == Counts(id)
    && (WantedKind(id).None? || c.eventKind.None? || c.eventKind == WantedKind(id))
  }

  /** The rule sentences state the minimum `v` of the right thing, nothing else that is a threshold, and no correction of it. */
  ghost predicate CountSettled(counts: seq<CountCandidate>, id: Id, revises: Revises, v: real) {
    && (exists c | c in counts :: c.ruleSentence && Countable(c, id) && c.value == v)
    && (forall c | c in counts && c.ruleSentence ::
          c.comparator.Unspecified?
          || (c.comparator.Gte? && c.unknownObject == "" && c.value == v && (c.semantics.None? || Countable(c, id))))
    && (forall c | c in counts :: !Correction(c, id, v, revises))
  }

  lemma {:induction false} AboutInBucket(counts: seq<CountCandidate>, id: Id, b: Bucket)
    ensures forall c :: c in InBucket(counts, id, b) <==> c in counts && c.ruleSentence && BucketOf(c, id) == b
  {
    if counts != [] {
      var rest, last := counts[..|counts| - 1], counts[|counts| - 1];
      AboutInBucket(rest, id, b);
      assert forall c :: c in counts <==> c in rest || c == last;
    }
  }

  /** An empty bucket means no rule-sentence candidate fell into it. */
  lemma {:induction false} BucketEmpty(counts: seq<CountCandidate>, id: Id, b: Bucket)
    ensures InBucket(counts, id, b) == [] <==> forall c | c in counts && c.ruleSentence :: BucketOf(c, id) != b
  {
    AboutInBucket(counts, id, b);
    if InBucket(counts, id, b) != [] { assert InBucket(counts, id, b)[0] in InBucket(counts, id, b); }
  }

  lemma {:induction false} AboutFirstCorrection(counts: seq<CountCandidate>, id: Id, v: real, revises: Revises)
    ensures FirstCorrection(counts, id, v, revises).None? <==> forall c | c in counts :: !Correction(c, id, v, revises)
  {
    if counts != [] {
      var rest, last := counts[..|counts| - 1], counts[|counts| - 1];
      AboutFirstCorrection(rest, id, v, revises);
      assert forall c :: c in counts <==> c in rest || c == last;
    }
  }

  lemma {:induction false} AboutOtherThan(counts: seq<CountCandidate>, v: real)
    ensures OtherThan(counts, v) == [] <==> forall c | c in counts :: c.value == v
  {
    if counts != [] {
      var rest, last := counts[..|counts| - 1], counts[|counts| - 1];
      AboutOtherThan(rest, v);
      assert forall c :: c in counts <==> c in rest || c == last;
    }
  }

  lemma {:induction false} ValuesOne(counts: seq<CountCandidate>)
    ensures |Values(counts)| <= 1 <==> forall a, b | a in counts && b in counts :: a.value == b.value
  {
    AtMostOne(Values(counts));
    if |Values(counts)| <= 1 {
      forall a, b | a in counts && b in counts ensures a.value == b.value { assert a.value in Values(counts) && b.value in Values(counts); }
    }
  }

  lemma {:induction false} RejectionsEmpty(counts: seq<CountCandidate>, id: Id)
    ensures CountRejections(counts, id) == [] <==> NothingWrong(counts, id)
  {}

  /** With nothing to reject, the remarks are empty exactly when the usable values agree with everything else. */
  lemma {:induction false} RemarksEmpty(counts: seq<CountCandidate>, id: Id, revises: Revises)
    requires NothingWrong(counts, id)
    ensures CountRemarks(counts, id, revises) == [] <==>
              var ok := InBucket(counts, id, Usable);
              ok != [] && |Values(ok)| <= 1 && FirstCorrection(counts, id, ok[0].value, revises).None?
              && OtherThan(InBucket(counts, id, Unresolved), ok[0].value) == []
  {}

  lemma {:induction false} BucketMeaning(c: CountCandidate, id: Id)
    requires Windowed(id)
    ensures BucketOf(c, id).Usable? <==> Countable(c, id)
    ensures BucketOf(c, id).NoComparator? <==> c.comparator.Unspecified?
    ensures BucketOf(c, id).Unresolved? <==> c.comparator.Gte? && c.unknownObject == "" && c.semantics.None?
  {}

  predicate RightBucket(c: CountCandidate, id: Id) { BucketOf(c, id).Usable? || BucketOf(c, id).NoComparator? || BucketOf(c, id).Unresolved? }

  lemma {:induction false} NothingWrongMeans(counts: seq<CountCandidate>, id: Id)
    ensures NothingWrong(counts, id) <==> forall c | c in counts && c.ruleSentence :: RightBucket(c, id)
  {
    BucketEmpty(counts, id, UpperBound);
    BucketEmpty(counts, id, UnknownThing);
    BucketEmpty(counts, id, WrongSemantics);
    BucketEmpty(counts, id, InvalidNumber);
  }

  /** No reason is given about the count exactly when the passage settles it; then the chosen candidate states that value. */
  lemma {:induction false} CountDecided(counts: seq<CountCandidate>, id: Id, revises: Revises)
    requires Windowed(id)
    ensures CountReasons(counts, id, revises) == [] <==> exists v :: CountSettled(counts, id, revises, v)
    ensures CountReasons(counts, id, revises) == [] ==>
              CountChoice(counts, id).Some? && CountChoice(counts, id).value in counts
              && CountSettled(counts, id, revises, CountChoice(counts, id).value.value)
  {
    if CountReasons(counts, id, revises) == [] {
      CountSettledIf(counts, id, revises);
    }
    if v :| CountSettled(counts, id, revises, v) {
      CountSettledOnlyIf(counts, id, revises, v);
    }
  }

  lemma {:induction false} CountSettledIf(counts: seq<CountCandidate>, id: Id, revises: Revises)
    requires Windowed(id) && CountReasons(counts, id, revises) == []
    ensures CountChoice(counts, id).Some? && CountChoice(counts, id).value in counts
    ensures CountSettled(counts, id, revises, CountChoice(counts, id).value.value)
  {
    JoinEmpty(CountRejections(counts, id), CountRemarks(counts, id, revises));
    RejectionsEmpty(counts, id);
    RemarksEmpty(counts, id, revises);
    var ok := InBucket(counts, id, Usable);
    var v := ok[0].value;
    AboutInBucket(counts, id, Usable);
    AboutInBucket(counts, id, Unresolved);
    ValuesOne(ok);
    AboutFirstCorrection(counts, id, v, revises);
    AboutOtherThan(InBucket(counts, id, Unresolved), v);
    NothingWrongMeans(counts, id);
    assert ok[0] in ok;
    BucketMeaning(ok[0], id);
    forall c | c in counts && c.ruleSentence
      ensures c.comparator.Unspecified?
              || (c.comparator.Gte? && c.unknownObject == "" && c.value == v && (c.semantics.None? || Countable(c, id)))
    {
      assert RightBucket(c, id);
      BucketMeaning(c, id);
      if BucketOf(c, id).Usable? { assert c in ok; }
      if BucketOf(c, id).Unresolved? { assert c in InBucket(counts, id, Unresolved); }
    }
  }

  lemma {:induction false} CountSettledOnlyIf(counts: seq<CountCandidate>, id: Id, revises: Revises, v: real)
    requires Windowed(id) && CountSettled(counts, id, revises, v)
    ensures CountReasons(counts, id, revises) == [] && CountChoice(counts, id).Some? && CountChoice(counts, id).value.value == v
  {
    forall c ensures BucketOf(c, id).Usable? <==> Countable(c, id) { BucketMeaning(c, id); }
    forall c | c in counts && c.ruleSentence ensures RightBucket(c, id) { BucketMeaning(c, id); }
    NothingWrongMeans(counts, id);
    var ok := InBucket(counts, id, Usable);
    AboutInBucket(counts, id, Usable);
    AboutInBucket(counts, id, Unresolved);
    var c :| c in counts && c.ruleSentence && Countable(c, id) && c.value == v;
    assert c in ok && ok[0] in ok;
    ValuesOne(ok);
    AboutFirstCorrection(counts, id, v, revises);
    forall u | u in InBucket(counts, id, Unresolved) ensures u.value == v { BucketMeaning(u, id); }
    AboutOtherThan(InBucket(counts, id, Unresolved), v);
    RejectionsEmpty(counts, id);
    RemarksEmpty(counts, id, revises);
  }

  // ------------------------------------------------------------------ a settled window

  /** An exact duration marked as a window inside a sentence that states the rule. */
  predicate MarkedInRule(w: WindowCandidate) { !w.approximate && w.ruleSentence && w.cue != NoCue }

  predicate MarkedLoosely(w: WindowCandidate) { !w.approximate && w.cue == StrongCue }

  /** Some rule sentence marks a window of `secs`, and no exact duration there, and no corrected one anywhere, says otherwise. */
  ghost predicate WindowInRule(windows: seq<WindowCandidate>, revises: Revises, secs: real) {
    && (exists w | w in windows :: MarkedInRule(w))
    && (forall w | w in windows && !w.approximate && w.ruleSentence :: CandidateSeconds(w) == secs)
    && (forall w | w in windows && !w.approximate && CandidateSeconds(w) != secs :: !revises(w.evidence.sentenceStart, w.evidence.sentenceEnd))
  }

  /** No rule sentence marks a window; all strongly marked durations elsewhere are `secs`. */
  ghost predicate WindowOutside(windows: seq<WindowCandidate>, secs: real) {
    && (forall w | w in windows :: !MarkedInRule(w))
    && (exists w | w in windows :: MarkedLoosely(w))
    && (forall w | w in windows && MarkedLoosely(w) :: CandidateSeconds(w) == secs)
  }

  ghost predicate WindowSettled(windows: seq<WindowCandidate>, revises: Revises, secs: real, outside: bool) {
    if outside then WindowOutside(windows, secs) else WindowInRule(windows, revises, secs)
  }

  lemma {:induction false} AboutWindows(windows: seq<WindowCandidate>, k: WindowKind, chosen: real, revises: Revises)
    ensures forall w :: w in Windows(windows, k, chosen, revises) <==> w in windows && OfKind(w, k, chosen, revises)
  {
    if windows != [] {
      var rest, last := windows[..|windows| - 1], windows[|windows| - 1];
      AboutWindows(rest, k, chosen, revises);
      assert forall w :: w in windows <==> w in rest || w == last;
    }
  }

  lemma {:induction false} WindowsEmpty(windows: seq<WindowCandidate>, k: WindowKind, chosen: real, revises: Revises)
    ensures Windows(windows, k, chosen, revises) == [] <==> forall w | w in windows :: !OfKind(w, k, chosen, revises)
  {
    AboutWindows(windows, k, chosen, revises);
    var found := Windows(windows, k, chosen, revises);
    if found != [] { assert found[0] in found; }
  }

  lemma {:induction false} SecondsOne(windows: seq<WindowCandidate>)
    ensures |SecondsIn(windows)| <= 1 <==> forall a, b | a in windows && b in windows :: CandidateSeconds(a) == CandidateSeconds(b)
    ensures SecondsIn(windows) == {} <==> windows == []
  {
    AtMostOne(SecondsIn(windows));
    if windows != [] { assert CandidateSeconds(windows[0]) in SecondsIn(windows); }
    if |SecondsIn(windows)| <= 1 {
      forall a, b | a in windows && b in windows ensures CandidateSeconds(a) == CandidateSeconds(b) {
        assert CandidateSeconds(a) in SecondsIn(windows) && CandidateSeconds(b) in SecondsIn(windows);
      }
    }
  }

  /** The case in which some rule sentence marks a window. */
  lemma {:induction false} InRuleDecided(windows: seq<WindowCandidate>, revises: Revises)
    requires exists w | w in windows :: MarkedInRule(w)
    ensures WindowReasons(windows, revises) == [] <==> exists secs :: WindowInRule(windows, revises, secs)
    ensures WindowReasons(windows, revises) == [] ==>
              WindowChoice(windows, revises).Some? && WindowChoice(windows, revises).value.0 in windows && !WindowChoice(windows, revises).value.1
              && WindowInRule(windows, revises, CandidateSeconds(WindowChoice(windows, revises).value.0))
  {
    var rule := Windows(windows, InRule, 0.0, revises);
    AboutWindows(windows, InRule, 0.0, revises);
    var some :| some in windows && MarkedInRule(some);
    assert some in rule && rule[0] in rule;
    var secs := CandidateSeconds(rule[0]);
    SecondsOne(rule);
    WindowsEmpty(windows, Revising, secs, revises);
    WindowsEmpty(windows, Alternative, secs, revises);
    if WindowReasons(windows, revises) == [] {
      forall w | w in windows && !w.approximate && w.ruleSentence ensures CandidateSeconds(w) == secs {
        if w.cue != NoCue { assert w in rule; } else { assert !OfKind(w, Alternative, secs, revises); }
      }
      forall w | w in windows && !w.approximate && CandidateSeconds(w) != secs ensures !revises(w.evidence.sentenceStart, w.evidence.sentenceEnd) {
        assert !OfKind(w, Revising, secs, revises);
      }
      assert WindowInRule(windows, revises, secs);
    }
    if s :| WindowInRule(windows, revises, s) {
      assert s == secs;
    }
  }

  /** The case in which none does. */
  lemma {:induction false} OutsideDecided(windows: seq<WindowCandidate>, revises: Revises)
    requires forall w | w in windows :: !MarkedInRule(w)
    ensures WindowReasons(windows, revises) == [] <==> exists secs :: WindowOutside(windows, secs)
    ensures WindowReasons(windows, revises) == [] ==>
              WindowChoice(windows, revises).Some? && WindowChoice(windows, revises).value.0 in windows && WindowChoice(windows, revises).value.1
              && WindowOutside(windows, CandidateSeconds(WindowChoice(windows, revises).value.0))
  {
    WindowsEmpty(windows, InRule, 0.0, revises);
    SecondsOne([]);
    assert SecondsIn(Windows(windows, InRule, 0.0, revises)) == {};
    var loose := Windows(windows, Loose, 0.0, revises);
    AboutWindows(windows, Loose, 0.0, revises);
    SecondsOne(loose);
    if WindowReasons(windows, revises) == [] {
      assert |SecondsIn(loose)| == 1 && loose != [];
      assert loose[0] in loose;
      assert MarkedLoosely(loose[0]);
      assert WindowOutside(windows, CandidateSeconds(loose[0]));
    }
    if secs :| WindowOutside(windows, secs) {
      var w :| w in windows && MarkedLoosely(w);
      assert w in loose;
      assert |SecondsIn(loose)| <= 1 && SecondsIn(loose) != {};
      NotEmptyNotMany(SecondsIn(loose));
    }
  }

  lemma {:induction false} NotEmptyNotMany<T>(s: set<T>)
    requires s != {} && |s| <= 1
    ensures |s| == 1
  {
    var x :| x in s;
    assert |s - {x}| == |s| - 1;
  }

  /** No reason is given about the window exactly when the passage settles it; then the chosen candidate states it. */
  lemma {:induction false} WindowDecided(windows: seq<WindowCandidate>, revises: Revises)
    ensures WindowReasons(windows, revises) == [] <==> exists secs, outside :: WindowSettled(windows, revises, secs, outside)
    ensures WindowReasons(windows, revises) == [] ==>
              WindowChoice(windows, revises).Some? && WindowChoice(windows, revises).value.0 in windows
              && WindowSettled(windows, revises, CandidateSeconds(WindowChoice(windows, revises).value.0), WindowChoice(windows, revises).value.1)
  {
    if exists w | w in windows :: MarkedInRule(w) {
      InRuleDecided(windows, revises);
      if WindowReasons(windows, revises) == [] {
        assert WindowSettled(windows, revises, CandidateSeconds(WindowChoice(windows, revises).value.0), false);
      }
      if secs, outside :| WindowSettled(windows, revises, secs, outside) { assert WindowInRule(windows, revises, secs); }
    } else {
      OutsideDecided(windows, revises);
      if WindowReasons(windows, revises) == [] {
        assert WindowSettled(windows, revises, CandidateSeconds(WindowChoice(windows, revises).value.0), true);
      }
      if secs, outside :| WindowSettled(windows, revises, secs, outside) { assert WindowOutside(windows, secs); }
    }
  }

  // ------------------------------------------------------------------ a settled passage

  /** One signal per behaviour, so at most one can name a given behaviour. */
  predicate OneEachBehaviour(signals: seq<Signal>) { forall i, j | 0 <= i < j < |signals| :: signals[i].behaviour != signals[j].behaviour }

  lemma {:induction false} InOrderOneEach(signals: seq<Signal>, id: Id)
    requires SignalsInOrder(signals)
    ensures OneEachBehaviour(signals)
    ensures exists s | s in signals :: s.behaviour == id
  {
    forall i, j | 0 <= i < j < |signals| ensures signals[i].behaviour != signals[j].behaviour { assert ALL[i] != ALL[j]; }
    var k := match id case RepeatedFailure => 0 case Spray => 1 case MultiHost => 2 case MethodViolation => 3 case MfaMissing => 4;
    assert ALL[k] == id;
    assert signals[k] in signals;
  }

  /** Two signals of one behaviour are one signal. */
  lemma {:induction false} SameSignal(signals: seq<Signal>, s: Signal, t: Signal)
    requires OneEachBehaviour(signals) && s in signals && t in signals
    ensures s.behaviour == t.behaviour ==> s == t
  {
    var i :| 0 <= i < |signals| && signals[i] == s;
    var j :| 0 <= j < |signals| && signals[j] == t;
    if i < j { assert s.behaviour != t.behaviour; } else if j < i { assert s.behaviour != t.behaviour; }
  }

  lemma {:induction false} AboutComplete(signals: seq<Signal>)
    ensures forall id :: id in Complete(signals) <==> exists s | s in signals :: s.behaviour == id && s.missing == []
  {
    if signals != [] {
      var rest, last := signals[..|signals| - 1], signals[|signals| - 1];
      AboutComplete(rest);
      assert forall s :: s in signals <==> s in rest || s == last;
    }
  }

  lemma {:induction false} CompleteAtMost(signals: seq<Signal>, id: Id)
    requires OneEachBehaviour(signals) && forall s | s in signals && s.missing == [] :: s.behaviour == id
    ensures Complete(signals) == [] || Complete(signals) == [id]
  {
    if signals != [] {
      var rest, last := signals[..|signals| - 1], signals[|signals| - 1];
      assert forall s | s in rest :: s in signals;
      CompleteAtMost(rest, id);
      if last.missing == [] {
        assert last in signals;
        AboutComplete(rest);
        forall i | 0 <= i < |rest| ensures rest[i].behaviour != id { assert signals[i].behaviour != signals[|signals| - 1].behaviour; }
        forall s | s in rest ensures s.behaviour != id { var i :| 0 <= i < |rest| && rest[i] == s; }
        assert id !in Complete(rest);
        assert Complete(rest) != [id] by { assert id in [id]; }
      }
    }
  }

  /** Exactly behaviour `id` is complete in the passage. */
  predicate OnlyComplete(signals: seq<Signal>, id: Id) { forall s | s in signals :: s.missing == [] <==> s.behaviour == id }

  lemma {:induction false} OnlyCompleteIff(signals: seq<Signal>, id: Id)
    requires SignalsInOrder(signals)
    ensures Complete(signals) == [id] <==> OnlyComplete(signals, id)
  {
    InOrderOneEach(signals, id);
    AboutComplete(signals);
    if OnlyComplete(signals, id) {
      CompleteAtMost(signals, id);
      var s :| s in signals && s.behaviour == id;
      assert id in Complete(signals);
    }
    if Complete(signals) == [id] {
      assert id in Complete(signals);
      var t :| t in signals && t.behaviour == id && t.missing == [];
      forall s | s in signals ensures s.missing == [] <==> s.behaviour == id {
        if s.missing == [] { assert s.behaviour in Complete(signals); }
        SameSignal(signals, s, t);
      }
    }
  }

  /** A field the report asks for that the log does not have. */
  predicate Unmapped(f: FieldMention) { !f.known && !f.incidental }

  /** The numbers of a windowed behaviour are settled in the passage. */
  ghost predicate NumbersSettled(rep: ConditionReport, id: Id, revises: Revises) {
    && (exists v :: CountSettled(rep.counts, id, revises, v))
    && (exists secs, outside :: WindowSettled(rep.windows, revises, secs, outside))
  }

  /** One complete behaviour, no hedge, no qualifier and no field the log lacks. */
  predicate Plain(rep: ConditionReport, id: Id) {
    && OnlyComplete(rep.signals, id)
    && rep.hedges == [] && rep.qualifiers == [] && (forall f | f in rep.fields :: !Unmapped(f))
  }

  /** The passage alone states one complete rule of behaviour `id`, up to where its window stands. */
  ghost predicate Settled(rep: ConditionReport, id: Id, revises: Revises) {
    && Plain(rep, id)
    && (Windowed(id) ==> NumbersSettled(rep, id, revises))
    && (id.MethodViolation? ==> rep.methodLiterals == [])
  }

  lemma {:induction false} QuoteReasonsEmpty(quotes: seq<Quote>, code: ReasonCode, severity: Severity)
    ensures QuoteReasons(quotes, code, severity) == [] <==> quotes == []
  {}

  lemma {:induction false} FieldReasonsEmpty(fields: seq<FieldMention>, form: Form, code: ReasonCode, severity: Severity)
    ensures FieldReasons(fields, form, code, severity) == [] <==> forall f | f in fields && f.form == form :: !Unmapped(f)
  {
    if fields != [] {
      var rest, last := fields[..|fields| - 1], fields[|fields| - 1];
      FieldReasonsEmpty(rest, form, code, severity);
      assert forall f :: f in fields <==> f in rest || f == last;
    }
  }

  /** What the passage itself provides against `id`, leaving out count and window. */
  predicate Unhedged(rep: ConditionReport) {
    && QuoteReasons(rep.hedges, ValueNotSettled, Review) == [] && HardReasons(rep) == []
    && FieldReasons(rep.fields, Phrase, UnmappedFieldPhrase, Review) == []
  }

  lemma {:induction false} UnhedgedIff(rep: ConditionReport)
    ensures Unhedged(rep) <==> rep.hedges == [] && rep.qualifiers == [] && forall f | f in rep.fields :: !Unmapped(f)
  {
    QuoteReasonsEmpty(rep.hedges, ValueNotSettled, Review);
    QuoteReasonsEmpty(rep.qualifiers, UnsupportedQualifier, Reject);
    FieldReasonsEmpty(rep.fields, Code, UnknownField, Reject);
    FieldReasonsEmpty(rep.fields, Phrase, UnmappedFieldPhrase, Review);
    JoinEmpty(QuoteReasons(rep.qualifiers, UnsupportedQualifier, Reject), FieldReasons(rep.fields, Code, UnknownField, Reject));
    if Unhedged(rep) {
      forall f | f in rep.fields ensures !Unmapped(f) { assert f.form == Code || f.form == Phrase; }
    }
  }

  lemma {:induction false} SingletonOf(complete: seq<Id>, id: Id)
    ensures id in complete && |complete| <= 1 <==> complete == [id]
  {}

  /** Behaviour `id` draws no signal reason exactly when it alone is complete. */
  lemma {:induction false} SignalEmpty(rep: ConditionReport, id: Id)
    requires SignalsInOrder(rep.signals) && HardReasons(rep) == []
    ensures SignalReasons(rep, id) == [] <==> OnlyComplete(rep.signals, id)
  {
    SingletonOf(Complete(rep.signals), id);
    OnlyCompleteIff(rep.signals, id);
  }

  lemma {:induction false} PlainIff(rep: ConditionReport, id: Id)
    requires SignalsInOrder(rep.signals)
    ensures Unhedged(rep) && SignalReasons(rep, id) == [] <==> Plain(rep, id)
  {
    UnhedgedIff(rep);
    if Unhedged(rep) { SignalEmpty(rep, id); }
  }

  // ------------------------------------------------------------------ when a proposal concurs

  /** The extractor's threshold, if any, is one number under an unambiguous name, and it is the passage's. */
  predicate ThresholdConcurs(threshold: map<string, Json>, id: Id, v: real) {
    threshold == map[] || (|Numbers(threshold)| == 1 && Alias(id, NumberKey(Numbers(threshold))).Some?
                           && Numbers(threshold)[NumberKey(Numbers(threshold))] == Finite(v))
  }

  predicate ClaimConcurs(claim: Option<Claim>, secs: real) { claim.None? || ClaimSeconds(claim.value) == Some(Finite(secs)) }

  /** The proposal repeats the passage's numbers, and points at the window if that stands outside the rule's sentences. */
  predicate Concurs(rep: ConditionReport, id: Id, revises: Revises, e: Extraction) {
    Windowed(id) && CountChoice(rep.counts, id).Some? && WindowChoice(rep.windows, revises).Some? ==>
      var w := WindowChoice(rep.windows, revises).value;
      && ThresholdConcurs(e.threshold, id, CountChoice(rep.counts, id).value.value) && ClaimConcurs(e.timeWindow, CandidateSeconds(w.0))
      && (w.1 ==> SpanAgrees(e.spanStart, w.0))
  }

  lemma {:induction false} ThresholdEmpty(threshold: map<string, Json>, id: Id, c: CountCandidate)
    ensures ThresholdReasons(threshold, id, c) == [] && !NoNumber(threshold) <==> ThresholdConcurs(threshold, id, c.value)
  {}

  lemma {:induction false} ClaimEmpty(claim: Option<Claim>, w: WindowCandidate)
    ensures ClaimReasons(claim, w) == [] <==> ClaimConcurs(claim, CandidateSeconds(w))
  {}

  /** Accepted means: no reason at all. */
  lemma {:induction false} AcceptedMeansNone(reasons: seq<Reason>)
    ensures VerdictOf(reasons) == Verdict.Accepted <==> reasons == []
  {
    if reasons != [] { assert reasons[0] in reasons && (reasons[0].severity == Reject || reasons[0].severity == Review); }
  }

  lemma {:induction false} FiveEmpty(a: seq<Reason>, b: seq<Reason>, c: seq<Reason>, d: seq<Reason>, e: seq<Reason>)
    ensures a + b + c + d + e == [] <==> a == [] && b == [] && c == [] && d == [] && e == []
  {
    JoinEmpty(a, b);
    JoinEmpty(a + b, c);
    JoinEmpty(a + b + c, d);
    JoinEmpty(a + b + c + d, e);
  }

  lemma {:induction false} CountPartEmpty(rep: ConditionReport, id: Id, revises: Revises, e: Extraction)
    requires Windowed(id)
    ensures CountPart(rep, id, revises, e) == [] && !(CountChoice(rep.counts, id).Some? && NoNumber(e.threshold)) <==>
              CountReasons(rep.counts, id, revises) == [] && CountChoice(rep.counts, id).Some?
              && ThresholdConcurs(e.threshold, id, CountChoice(rep.counts, id).value.value)
  {
    var count := CountChoice(rep.counts, id);
    CountDecided(rep.counts, id, revises);
    JoinEmpty(CountReasons(rep.counts, id, revises), ThresholdPart(e, id, count));
    if count.Some? { ThresholdEmpty(e.threshold, id, count.value); }
  }

  lemma {:induction false} WindowPartEmpty(rep: ConditionReport, revises: Revises, e: Extraction)
    ensures WindowPart(rep, revises, e) == [] <==>
              WindowReasons(rep.windows, revises) == [] && WindowChoice(rep.windows, revises).Some?
              && var w := WindowChoice(rep.windows, revises).value;
                 ClaimConcurs(e.timeWindow, CandidateSeconds(w.0)) && (w.1 ==> SpanAgrees(e.spanStart, w.0))
  {
    var window := WindowChoice(rep.windows, revises);
    WindowDecided(rep.windows, revises);
    JoinEmpty(WindowReasons(rep.windows, revises), ClaimPart(e, window));
    if window.Some? {
      JoinEmpty(ClaimReasons(e.timeWindow, window.value.0), OutsideReasons(e.spanStart, window.value.0, window.value.1));
      ClaimEmpty(e.timeWindow, window.value.0);
    }
  }

  /** No reason about the numbers: the passage settles them and the proposal repeats them. */
  lemma {:induction false} NumbersEmpty(rep: ConditionReport, id: Id, revises: Revises, e: Extraction)
    requires Windowed(id)
    ensures NumberReasons(rep, id, revises, e) == [] && !(CountChoice(rep.counts, id).Some? && NoNumber(e.threshold)) <==>
              CountReasons(rep.counts, id, revises) == [] && WindowReasons(rep.windows, revises) == [] && Concurs(rep, id, revises, e)
  {
    CountDecided(rep.counts, id, revises);
    WindowDecided(rep.windows, revises);
    CountPartEmpty(rep, id, revises, e);
    WindowPartEmpty(rep, revises, e);
    JoinEmpty(CountPart(rep, id, revises, e), WindowPart(rep, revises, e));
  }

  lemma {:induction false} ReasonsEmpty(rep: ConditionReport, id: Id, revises: Revises, e: Extraction)
    ensures ReasonsFor(rep, id, revises, e) == [] <==>
              Unhedged(rep) && SignalReasons(rep, id) == []
              && (if Windowed(id) then NumberReasons(rep, id, revises, e) == [] else MethodReasons(rep, id) == [])
  {
    FiveEmpty(QuoteReasons(rep.hedges, ValueNotSettled, Review), HardReasons(rep), SignalReasons(rep, id),
              if Windowed(id) then NumberReasons(rep, id, revises, e) else MethodReasons(rep, id),
              FieldReasons(rep.fields, Phrase, UnmappedFieldPhrase, Review));
  }

  lemma {:induction false} NumbersDecided(rep: ConditionReport, id: Id, revises: Revises, e: Extraction)
    requires Windowed(id)
    ensures NumberReasons(rep, id, revises, e) == [] && !(CountChoice(rep.counts, id).Some? && NoNumber(e.threshold)) <==>
              NumbersSettled(rep, id, revises) && Concurs(rep, id, revises, e)
  {
    NumbersEmpty(rep, id, revises, e);
    CountDecided(rep.counts, id, revises);
    WindowDecided(rep.windows, revises);
  }

  predicate IsAccepted(r: Result, id: Id) { r.Decided? && r.value.verdict == Verdict.Accepted && r.value.behaviour == Some(id) }

  lemma {:induction false} ConsiderVerdict(rep: ConditionReport, id: Id, revises: Revises, e: Extraction)
    ensures IsAccepted(Consider(rep, id, revises, e), id) <==>
              ReasonsFor(rep, id, revises, e) == [] && !(Windowed(id) && CountChoice(rep.counts, id).Some? && NoNumber(e.threshold))
  {
    AcceptedMeansNone(ReasonsFor(rep, id, revises, e));
  }

  lemma {:induction false} ConsiderWindowed(rep: ConditionReport, id: Id, revises: Revises, e: Extraction)
    requires Windowed(id)
    ensures IsAccepted(Consider(rep, id, revises, e), id) <==>
              Unhedged(rep) && SignalReasons(rep, id) == [] && NumbersSettled(rep, id, revises) && Concurs(rep, id, revises, e)
  {
    ConsiderVerdict(rep, id, revises, e);
    ReasonsEmpty(rep, id, revises, e);
    NumbersDecided(rep, id, revises, e);
  }

  lemma {:induction false} ConsiderPolicy(rep: ConditionReport, id: Id, revises: Revises, e: Extraction)
    requires !Windowed(id)
    ensures IsAccepted(Consider(rep, id, revises, e), id) <==>
              Unhedged(rep) && SignalReasons(rep, id) == [] && (id.MethodViolation? ==> rep.methodLiterals == [])
  {
    ConsiderVerdict(rep, id, revises, e);
    ReasonsEmpty(rep, id, revises, e);
  }

  /** Considering `id` ends in acceptance exactly when the passage is settled and the proposal concurs. */
  lemma {:induction false} ConsiderAccepts(rep: ConditionReport, id: Id, revises: Revises, e: Extraction)
    requires SignalsInOrder(rep.signals)
    ensures IsAccepted(Consider(rep, id, revises, e), id) <==> Settled(rep, id, revises) && Concurs(rep, id, revises, e)
  {
    PlainIff(rep, id);
    if Windowed(id) { ConsiderWindowed(rep, id, revises, e); } else { ConsiderPolicy(rep, id, revises, e); }
  }
}
