/** Reconciling an extractor's proposal with the report's evidence (sentinelforge/reconcile.py): what is decided, and why no
    proposal can supply a number. */
module Reconcile {
  import opened Ordering
  import opened Behaviours
  import opened Validation
  import opened Evidence

  datatype Severity = Reject | Review

  datatype ReasonCode = UnknownBehaviourClaimed | UnsupportedQualifier | UnknownField | ValueNotSettled | AbstentionContradicted
    | UnsupportedBehaviour | BehaviourAmbiguous | UnderspecifiedBehaviour | BehaviourConflict | RecipeConditionsNotFound
    | CountInvalidNumber | CountUpperBound | CountUnknownObject | CountSemanticsMismatch | CountConflict | CountComparatorUnspecified
    | CountMissing | CountRevised | CountUnresolvedNumber | ConflictingCountKeys | AmbiguousCountAlias | CountModelDisagrees
    | WindowConflict | WindowRevised | WindowUnresolvedAlternative | WindowAmbiguous | WindowMissing | WindowModelMalformed
    | WindowModelDisagrees | WindowOutsideRuleSentence | DirectionSpecificMethod | UnmappedFieldPhrase

  datatype Reason = Reason(code: ReasonCode, severity: Severity, evidence: seq<Quote>)

  datatype Verdict = Accepted | Rejected | NeedsReview

  // ------------------------------------------------------------------ proposals

  datatype Claim = Claim(amount: Json, unit: Json)

  /** An extractor's output; an empty `threshold` stands for none. */
  datatype Extraction = Extraction(behaviourId: Option<string>, threshold: map<string, Json>, timeWindow: Option<Claim>, spanStart: Option<int>)

  function Numbers(threshold: map<string, Json>): map<string, Num> { map k | k in threshold && threshold[k].Number? :: threshold[k].n }

  lemma {:induction false} SomeNumber(m: map<string, Num>)
    requires |m| == 1
    ensures exists k :: k in m && m.Keys == {k}
  {
    var k :| k in m;
    var rest := m - {k};
    assert m.Keys == rest.Keys + {k};
    assert |rest.Keys| == 0;
  }

  function NumberKey(m: map<string, Num>): (k: string)
    requires |m| == 1
    ensures m.Keys == {k}
  {
    SomeNumber(m);
    var k :| k in m && m.Keys == {k};
    k
  }

  // ------------------------------------------------------------------ counts

  /** The event type the counted thing must be. */
  function WantedKind(id: Id): Option<EventKind> {
    match id
    case RepeatedFailure => Some(LoginFailure)
    case Spray => Some(LoginFailure)
    case MultiHost => Some(LoginSuccess)
    case _ => None
  }

  datatype Bucket = InvalidNumber | UpperBound | NoComparator | UnknownThing | Unresolved | WrongSemantics | Usable

  function BucketOf(c: CountCandidate, id: Id): Bucket {
    if c.comparator.Invalid? then InvalidNumber
    else if c.comparator.Lt? then UpperBound
    else if c.comparator.Unspecified? then NoComparator
    else if c.unknownObject != "" then UnknownThing
    else if c.semantics.None? then Unresolved
    else if c.semantics != Counts(id) then WrongSemantics
    else if WantedKind(id).Some? && c.eventKind != WantedKind(id) && c.eventKind.Some? then WrongSemantics
    else Usable
  }

  /** The rule-sentence candidates of one bucket, in order. */
  function InBucket(counts: seq<CountCandidate>, id: Id, b: Bucket): seq<CountCandidate> {
    if counts == [] then []
    else
      var c := counts[|counts| - 1];
      InBucket(counts[..|counts| - 1], id, b) + (if c.ruleSentence && BucketOf(c, id) == b then [c] else [])
  }

  function CountQuotes(counts: seq<CountCandidate>): seq<Quote> {
    if counts == [] then [] else CountQuotes(counts[..|counts| - 1]) + [counts[|counts| - 1].evidence]
  }

  function OneEach(counts: seq<CountCandidate>, code: ReasonCode): seq<Reason> {
    if counts == [] then [] else OneEach(counts[..|counts| - 1], code) + [Reason(code, Reject, [counts[|counts| - 1].evidence])]
  }

  /** Which sentences revise or correct something: the wording table, taken as a parameter. */
  type Revises = (int, int) -> bool

  predicate Correction(c: CountCandidate, id: Id, chosen: real, revises: Revises) {
    && (c.comparator.Unspecified? || c.comparator.Gte?) && c.unknownObject == "" && (c.semantics.None? || c.semantics == Counts(id))
    && c.value != chosen && revises(c.evidence.sentenceStart, c.evidence.sentenceEnd)
  }

  function FirstCorrection(counts: seq<CountCandidate>, id: Id, chosen: real, revises: Revises): Option<CountCandidate> {
    if counts == [] then None
    else
      var earlier := FirstCorrection(counts[..|counts| - 1], id, chosen, revises);
      var c := counts[|counts| - 1];
      if earlier.Some? then earlier else if Correction(c, id, chosen, revises) then Some(c) else None
  }

  function Values(counts: seq<CountCandidate>): set<real> { set c | c in counts :: c.value }

  function OtherThan(counts: seq<CountCandidate>, v: real): seq<CountCandidate> {
    if counts == [] then []
    else OtherThan(counts[..|counts| - 1], v) + (if counts[|counts| - 1].value != v then [counts[|counts| - 1]] else [])
  }

  predicate NothingWrong(counts: seq<CountCandidate>, id: Id) {
    && InBucket(counts, id, UpperBound) == [] && InBucket(counts, id, UnknownThing) == []
    && InBucket(counts, id, WrongSemantics) == [] && InBucket(counts, id, InvalidNumber) == []
  }

  /** Rejections for candidates the rule cannot honour. */
  function CountRejections(counts: seq<CountCandidate>, id: Id): seq<Reason> {
    var invalid, upper := InBucket(counts, id, InvalidNumber), InBucket(counts, id, UpperBound);
    (if invalid != [] then [Reason(CountInvalidNumber, Reject, CountQuotes(invalid))] else [])
    + (if upper != [] then [Reason(CountUpperBound, Reject, CountQuotes(upper))] else [])
    + OneEach(InBucket(counts, id, UnknownThing), CountUnknownObject)
    + OneEach(InBucket(counts, id, WrongSemantics), CountSemanticsMismatch)
  }

  function RevisedRemark(chosen: CountCandidate, correction: Option<CountCandidate>): seq<Reason> {
    if correction.Some? then [Reason(CountRevised, Review, [chosen.evidence, correction.value.evidence])] else []
  }

  function StrayRemark(stray: seq<CountCandidate>): seq<Reason> {
    if stray != [] then [Reason(CountUnresolvedNumber, Review, CountQuotes(stray))] else []
  }

  /** What is said about the usable candidates, or about there being none. */
  function CountRemarks(counts: seq<CountCandidate>, id: Id, revises: Revises): seq<Reason> {
    var ok := InBucket(counts, id, Usable);
    if |Values(ok)| > 1 then [Reason(CountConflict, Reject, CountQuotes(ok))]
    else if ok == [] then
      if !NothingWrong(counts, id) then []
      else if InBucket(counts, id, NoComparator) != [] then
        [Reason(CountComparatorUnspecified, Review, CountQuotes(InBucket(counts, id, NoComparator)))]
      else [Reason(CountMissing, Review, CountQuotes(InBucket(counts, id, Unresolved)))]
    else
      RevisedRemark(ok[0], FirstCorrection(counts, id, ok[0].value, revises))
      + StrayRemark(OtherThan(InBucket(counts, id, Unresolved), ok[0].value))
  }

  function CountReasons(counts: seq<CountCandidate>, id: Id, revises: Revises): seq<Reason> {
    CountRejections(counts, id) + CountRemarks(counts, id, revises)
  }

  function CountChoice(counts: seq<CountCandidate>, id: Id): Option<CountCandidate> {
    var ok := InBucket(counts, id, Usable);
    if ok != [] && |Values(ok)| <= 1 then Some(ok[0]) else None
  }

  // ------------------------------------------------------------------ windows

  datatype WindowKind = InRule | Loose | Revising | Alternative

  predicate OfKind(w: WindowCandidate, k: WindowKind, chosen: real, revises: Revises) {
    && !w.approximate
    && match k
       case InRule => w.ruleSentence && w.cue != NoCue
       case Loose => w.cue == StrongCue
       case Revising => CandidateSeconds(w) != chosen && revises(w.evidence.sentenceStart, w.evidence.sentenceEnd)
       case Alternative => w.ruleSentence && w.cue == NoCue && CandidateSeconds(w) != chosen
  }

  function Windows(windows: seq<WindowCandidate>, k: WindowKind, chosen: real, revises: Revises): seq<WindowCandidate> {
    if windows == [] then []
    else
      var w := windows[|windows| - 1];
      Windows(windows[..|windows| - 1], k, chosen, revises) + (if OfKind(w, k, chosen, revises) then [w] else [])
  }

  function SecondsIn(windows: seq<WindowCandidate>): set<real> { set w | w in windows :: CandidateSeconds(w) }

  function WindowQuotes(windows: seq<WindowCandidate>): seq<Quote> {
    if windows == [] then [] else WindowQuotes(windows[..|windows| - 1]) + [windows[|windows| - 1].evidence]
  }

  /** The window in the passage and whether it stands outside the rule's sentences. */
  function WindowChoice(windows: seq<WindowCandidate>, revises: Revises): Option<(WindowCandidate, bool)> {
    var rule, loose := Windows(windows, InRule, 0.0, revises), Windows(windows, Loose, 0.0, revises);
    if rule != [] then (if |SecondsIn(rule)| > 1 then None else Some((rule[0], false)))
    else if loose != [] && |SecondsIn(loose)| == 1 then Some((loose[0], true)) else None
  }

  function WindowReasons(windows: seq<WindowCandidate>, revises: Revises): seq<Reason> {
    var rule, loose := Windows(windows, InRule, 0.0, revises), Windows(windows, Loose, 0.0, revises);
    if |SecondsIn(rule)| > 1 then [Reason(WindowConflict, Reject, WindowQuotes(rule))]
    else if rule != [] then
      var revised := Windows(windows, Revising, CandidateSeconds(rule[0]), revises);
      var alt := Windows(windows, Alternative, CandidateSeconds(rule[0]), revises);
      (if revised != [] then [Reason(WindowRevised, Review, [rule[0].evidence, revised[0].evidence])] else [])
      + (if alt != [] then [Reason(WindowUnresolvedAlternative, Review, [rule[0].evidence, alt[0].evidence])] else [])
    else if |SecondsIn(loose)| == 1 then []
    else if |SecondsIn(loose)| > 1 then [Reason(WindowAmbiguous, Review, WindowQuotes(loose))]
    else [Reason(WindowMissing, Review, [])]
  }

  // ------------------------------------------------------------------ the passage's own case

  function QuoteReasons(quotes: seq<Quote>, code: ReasonCode, severity: Severity): seq<Reason> {
    if quotes == [] then [] else QuoteReasons(quotes[..|quotes| - 1], code, severity) + [Reason(code, severity, [quotes[|quotes| - 1]])]
  }

  function FieldReasons(fields: seq<FieldMention>, form: Form, code: ReasonCode, severity: Severity): seq<Reason> {
    if fields == [] then []
    else
      var f := fields[|fields| - 1];
      FieldReasons(fields[..|fields| - 1], form, code, severity)
      + (if !f.known && f.form == form && !f.incidental then [Reason(code, severity, [f.evidence])] else [])
  }

  /** Rejections that hold whichever behaviour is chosen. */
  function HardReasons(rep: ConditionReport): seq<Reason> {
    QuoteReasons(rep.qualifiers, UnsupportedQualifier, Reject) + FieldReasons(rep.fields, Code, UnknownField, Reject)
  }

  function Complete(signals: seq<Signal>): seq<Id> {
    if signals == [] then []
    else Complete(signals[..|signals| - 1]) + (if signals[|signals| - 1].missing == [] then [signals[|signals| - 1].behaviour] else [])
  }

  function Partial(signals: seq<Signal>): seq<Signal> {
    if signals == [] then []
    else Partial(signals[..|signals| - 1]) + (if signals[|signals| - 1].cues != [] then [signals[|signals| - 1]] else [])
  }

  predicate PositivelyIncompatible(rep: ConditionReport) {
    exists c | c in rep.counts :: c.ruleSentence && (c.unknownObject != "" || c.comparator.Lt?)
  }

  /** Does the passage itself support behaviour `id`? */
  function SignalReasons(rep: ConditionReport, id: Id): seq<Reason> {
    var complete := Complete(rep.signals);
    if id !in complete then
      if complete != [] then [Reason(BehaviourConflict, Review, [])]
      else if HardReasons(rep) == [] then
        [Reason(RecipeConditionsNotFound, if PositivelyIncompatible(rep) then Reject else Review, [])]
      else []
    else if |complete| > 1 then [Reason(BehaviourAmbiguous, Review, [])] else []
  }

  function Take2(q: seq<Quote>): seq<Quote> { if |q| <= 2 then q else q[..2] }

  function MethodReasons(rep: ConditionReport, id: Id): seq<Reason> {
    if id.MethodViolation? && rep.methodLiterals != [] then [Reason(DirectionSpecificMethod, Review, Take2(rep.methodLiterals))] else []
  }

  // ------------------------------------------------------------------ what a proposal adds

  /** The extractor's threshold against the passage's count. */
  function ThresholdReasons(threshold: map<string, Json>, id: Id, count: CountCandidate): seq<Reason> {
    var nums := Numbers(threshold);
    if threshold == map[] then []
    else if |nums| > 1 then [Reason(ConflictingCountKeys, Reject, [])]
    else if |nums| == 1 && Alias(id, NumberKey(nums)).None? then [Reason(AmbiguousCountAlias, Review, [count.evidence])]
    else if |nums| == 1 && nums[NumberKey(nums)] == Finite(count.value) then []
    else [Reason(CountModelDisagrees, Review, [count.evidence])]
  }

  /** A threshold without any number: the message of the disagreement cannot be built, and a KeyError escapes. */
  predicate NoNumber(threshold: map<string, Json>) { threshold != map[] && |Numbers(threshold)| == 0 }

  /** The extractor's window in seconds, when it is a number with a known unit. */
  function ClaimSeconds(c: Claim): Option<Num> {
    if !c.amount.Number? || !c.unit.Text? || ExactUnit(c.unit.s).None? then None
    else if c.amount.n.NonFinite? then Some(NonFinite)
    else Some(Finite(c.amount.n.v * UnitSeconds(ExactUnit(c.unit.s).value)))
  }

  function ClaimReasons(claim: Option<Claim>, window: WindowCandidate): seq<Reason> {
    if claim.None? then []
    else match ClaimSeconds(claim.value)
      case None => [Reason(WindowModelMalformed, Review, [window.evidence])]
      case Some(s) => if s == Finite(CandidateSeconds(window)) then [] else [Reason(WindowModelDisagrees, Review, [window.evidence])]
  }

  /** The extractor's own span points at the window. */
  predicate SpanAgrees(span: Option<int>, window: WindowCandidate) {
    span.Some? && window.evidence.start <= span.value < window.evidence.end + 1
  }

  function OutsideReasons(span: Option<int>, window: WindowCandidate, outside: bool): seq<Reason> {
    if outside && !SpanAgrees(span, window) then [Reason(WindowOutsideRuleSentence, Review, [window.evidence])] else []
  }

  const NO_PROPOSAL: Extraction := Extraction(None, map[], None, None)

  /** What the proposal adds about the passage's count. */
  function ThresholdPart(e: Extraction, id: Id, count: Option<CountCandidate>): seq<Reason> {
    if count.Some? then ThresholdReasons(e.threshold, id, count.value) else []
  }

  /** What it adds about the passage's window. */
  function ClaimPart(e: Extraction, window: Option<(WindowCandidate, bool)>): seq<Reason> {
    if window.Some? then ClaimReasons(e.timeWindow, window.value.0) + OutsideReasons(e.spanStart, window.value.0, window.value.1) else []
  }

  function CountPart(rep: ConditionReport, id: Id, revises: Revises, e: Extraction): seq<Reason> {
    CountReasons(rep.counts, id, revises) + ThresholdPart(e, id, CountChoice(rep.counts, id))
  }

  function WindowPart(rep: ConditionReport, revises: Revises, e: Extraction): seq<Reason> {
    WindowReasons(rep.windows, revises) + ClaimPart(e, WindowChoice(rep.windows, revises))
  }

  /** The reasons about count and window, the passage's and the proposal's in the order they are found. */
  function NumberReasons(rep: ConditionReport, id: Id, revises: Revises, e: Extraction): seq<Reason> {
    CountPart(rep, id, revises, e) + WindowPart(rep, revises, e)
  }

  /** Every reason once behaviour `id` is under consideration. */
  function ReasonsFor(rep: ConditionReport, id: Id, revises: Revises, e: Extraction): seq<Reason> {
    QuoteReasons(rep.hedges, ValueNotSettled, Review) + HardReasons(rep) + SignalReasons(rep, id)
    + (if Windowed(id) then NumberReasons(rep, id, revises, e) else MethodReasons(rep, id))
    + FieldReasons(rep.fields, Phrase, UnmappedFieldPhrase, Review)
  }

  // ------------------------------------------------------------------ the spec

  function CountSpec(id: Id, count: Option<CountCandidate>): Block<CountBlock> {
    if count.None? then Absent
    else Present(CountBlock(Number(Finite(count.value.value)), SemanticsJson(Counts(id)), Some(Text("gte"))))
  }

  function WindowSpec(window: Option<WindowCandidate>): Block<WindowBlock> {
    if window.None? then Absent else Present(WindowBlock(Number(Finite(window.value.amount)), Text(UnitText(window.value.unit))))
  }

  /** `_build_spec`: every number comes from a candidate of the passage. */
  function BuildSpec(id: Id, count: Option<CountCandidate>, window: Option<WindowCandidate>): Spec {
    Spec(Text(IdText(id)), Names([]), Names([]),
         if count.None? then Absent else Present(map[AliasKey(id) := Number(Finite(count.value.value))]),
         Present(Conditions(CountSpec(id, count), WindowSpec(window))),
         if window.None? then Absent
         else Present(TimeWindow(Some(Number(Finite(window.value.amount))), Text(UnitText(window.value.unit)), false)))
  }

  function CountFor(rep: ConditionReport, id: Id): Option<CountCandidate> { if Windowed(id) then CountChoice(rep.counts, id) else None }

  function WindowFor(rep: ConditionReport, id: Id, revises: Revises): Option<WindowCandidate> {
    if !Windowed(id) then None
    else match WindowChoice(rep.windows, revises)
      case None => None
      case Some(w) => Some(w.0)
  }

  function SpecFor(rep: ConditionReport, id: Id, revises: Revises): Spec {
    BuildSpec(id, CountFor(rep, id), WindowFor(rep, id, revises))
  }

  // ------------------------------------------------------------------ the decision

  datatype Reconciliation = Reconciliation(verdict: Verdict, behaviour: Option<Id>, spec: Option<Spec>, reasons: seq<Reason>)

  /** A decision, or the KeyError a threshold without numbers provokes. */
  datatype Result = Decided(value: Reconciliation) | RaisedKeyError

  predicate Any(reasons: seq<Reason>, s: Severity) { exists r | r in reasons :: r.severity == s }

  function VerdictOf(reasons: seq<Reason>): Verdict {
    if Any(reasons, Reject) then Rejected else if Any(reasons, Review) then NeedsReview else Accepted
  }

  /** Deciding once a behaviour is under consideration. */
  function Consider(rep: ConditionReport, id: Id, revises: Revises, e: Extraction): Result {
    if Windowed(id) && CountChoice(rep.counts, id).Some? && NoNumber(e.threshold) then RaisedKeyError
    else
      var reasons := ReasonsFor(rep, id, revises, e);
      Decided(Reconciliation(VerdictOf(reasons), Some(id), Some(SpecFor(rep, id, revises)), reasons))
  }

  function Stop(v: Verdict, reasons: seq<Reason>): Result { Decided(Reconciliation(v, None, None, reasons)) }

  /** An extractor that ran but named no behaviour. */
  function Abstained(rep: ConditionReport): Result {
    var hedges := QuoteReasons(rep.hedges, ValueNotSettled, Review);
    if |Complete(rep.signals)| == 1 && HardReasons(rep) == [] then Stop(NeedsReview, hedges + [Reason(AbstentionContradicted, Review, [])])
    else Stop(Rejected, hedges + HardReasons(rep) + [Reason(UnsupportedBehaviour, Reject, [])])
  }

  /** No extractor: the passage alone decides. */
  function EvidenceOnly(rep: ConditionReport, revises: Revises): Result {
    var hedges, complete := QuoteReasons(rep.hedges, ValueNotSettled, Review), Complete(rep.signals);
    if |complete| == 1 then Consider(rep, complete[0], revises, NO_PROPOSAL)
    else if |complete| > 1 then Stop(NeedsReview, hedges + [Reason(BehaviourAmbiguous, Review, [])])
    else if HardReasons(rep) == [] && |Partial(rep.signals)| == 1 then
      Stop(NeedsReview, hedges + [Reason(UnderspecifiedBehaviour, Review, Take2(Partial(rep.signals)[0].cues))])
    else Stop(Rejected, hedges + HardReasons(rep) + [Reason(UnsupportedBehaviour, Reject, [])])
  }

  /** `reconcile`, after the finder has run; `None` is the evidence-only mode. */
  function Decide(rep: ConditionReport, revises: Revises, extraction: Option<Extraction>): Result {
    if extraction.None? then EvidenceOnly(rep, revises)
    else
      var e := extraction.value;
      if e.behaviourId.None? then Abstained(rep)
      else match Find(e.behaviourId.value)
        case None => Stop(Rejected, [Reason(UnknownBehaviourClaimed, Reject, [])])
        case Some(id) => Consider(rep, id, revises, e)
  }
}
