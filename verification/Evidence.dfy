/** What the deterministic finder hands to reconciliation (the records of sentinelforge/conditions.py), taken as an arbitrary value. */
module Evidence {
  import opened Ordering
  import opened Behaviours
  import opened Validation
  import TextSpans

  /** A span of the report. */
  datatype Quote = Quote(start: int, end: int, text: string, sentenceStart: int, sentenceEnd: int)

  datatype Comparator = Gte | Lt | Unspecified | Invalid

  datatype EventKind = LoginFailure | LoginSuccess

  /** `unknownObject` is empty unless the counted thing is outside every supported behaviour. */
  datatype CountCandidate = CountCandidate(value: real, comparator: Comparator, semantics: Option<Semantics>, eventKind: Option<EventKind>,
                                           unknownObject: string, evidence: Quote, ruleSentence: bool)

  /** How strongly a word marks a duration as a window. */
  datatype Cue = NoCue | OtherCue | StrongCue

  datatype WindowCandidate = WindowCandidate(amount: real, unit: Unit, cue: Cue, approximate: bool, evidence: Quote, ruleSentence: bool)

  function CandidateSeconds(w: WindowCandidate): real { w.amount * UnitSeconds(w.unit) }

  datatype Form = Code | Phrase

  datatype FieldMention = FieldMention(known: bool, form: Form, incidental: bool, evidence: Quote)

  datatype Signal = Signal(behaviour: Id, cues: seq<Quote>, missing: seq<string>)

  datatype ConditionReport = ConditionReport(counts: seq<CountCandidate>, windows: seq<WindowCandidate>, fields: seq<FieldMention>, qualifiers: seq<Quote>,
                                   signals: seq<Signal>, methodLiterals: seq<Quote>, hedges: seq<Quote>)

  /** The finder emits one signal per behaviour, in registry order. */
  predicate SignalsInOrder(signals: seq<Signal>) {
    |signals| == |ALL| && forall i | 0 <= i < |signals| :: signals[i].behaviour == ALL[i]
  }

  // ------------------------------------------------------------------ quotes

  /** A slice bound as Python reads it: from the end if negative, and never outside the text. */
  function Bound(n: nat, i: int): (k: nat)
    ensures k <= n
  {
    if i >= n then n else if i >= 0 then i else if n + i >= 0 then n + i else 0
  }

  /** `s[i:j]`. */
  function Slice(s: string, i: int, j: int): string {
    if Bound(|s|, i) < Bound(|s|, j) then s[Bound(|s|, i)..Bound(|s|, j)] else ""
  }

  /** `verify_quote`: the offsets reproduce the quote in this report. */
  predicate VerifyQuote(report: string, q: Quote) { Slice(report, q.start, q.end) == q.text && q.end > q.start }

  /** A verified quote is the report's own text from its offset on; it is empty exactly when it starts behind the report's end. */
  lemma {:induction false} QuoteInReport(report: string, q: Quote)
    requires VerifyQuote(report, q) && q.start >= 0
    ensures q.text != "" <==> q.start < |report|
    ensures q.text != "" ==> q.start + |q.text| <= |report| && q.text == report[q.start..q.start + |q.text|] && |q.text| <= q.end - q.start
  {}

  /** `_evidence`: the report's text between the offsets, and the sentence around the first of them. */
  function Cut(report: string, sentences: seq<TextSpans.Span>, start: nat, end: nat): Quote {
    var around := TextSpans.SpanAround(sentences, start);
    Quote(start, end, Slice(report, start, end), around.s, around.e)
  }

  /** The quote was cut at a match, and no pattern of the finder matches the empty text. */
  predicate CutAtMatch(report: string, sentences: seq<TextSpans.Span>, q: Quote) {
    0 <= q.start < q.end && q == Cut(report, sentences, q.start, q.end)
  }

  /** The candidates were found in this report. */
  predicate FoundIn(report: string, sentences: seq<TextSpans.Span>, rep: ConditionReport) {
    && (forall c | c in rep.counts :: CutAtMatch(report, sentences, c.evidence))
    && (forall w | w in rep.windows :: CutAtMatch(report, sentences, w.evidence))
  }

  /** What the finder cuts verifies, in the report it was cut from. */
  lemma {:induction false} CutVerifies(report: string, sentences: seq<TextSpans.Span>, start: nat, end: nat)
    ensures VerifyQuote(report, Cut(report, sentences, start, end)) <==> start < end
  {}
}
