/** Sentence spans and the choice among overlapping matches (sentinelforge/textutil.py, sentinelforge/conditions.py). Offsets always refer
    to the report as pasted. */
module TextSpans {

  datatype Span = Span(s: nat, e: nat)

  predicate IsSpace(c: char) { c == ' ' || '\t' <= c <= '\r' || '\U{1C}' <= c <= '\U{1F}' }

  /** Quotes and brackets that may trail the end of a sentence. */
  predicate IsCloser(c: char) { c == '"' || c == '\'' || c == ')' || c == ']' || c == '*' }

  predicate Blank(text: string, a: nat, b: nat)
    requires b <= |text|
  {
    forall k | a <= k < b :: IsSpace(text[k])
  }

  /** Where the closers that start at `a` end, at most at `b`. */
  function ClosersEnd(text: string, a: nat, b: nat): (k: nat)
    requires a <= b <= |text|
    ensures a <= k <= b && forall i | a <= i < k :: IsCloser(text[i])
    ensures k == b || !IsCloser(text[k])
    decreases b - a
  {
    if a < b && IsCloser(text[a]) then ClosersEnd(text, a + 1, b) else a
  }

  /** A sentence break: closers, then white space up to its end. */
  predicate IsBreak(text: string, m: Span) { m.s < m.e <= |text| && Blank(text, ClosersEnd(text, m.s, m.e), m.e) }

  /** The matches of the sentence-end pattern: in order, apart, each a break. */
  predicate AreBreaks(text: string, breaks: seq<Span>) {
    && (forall i | 0 <= i < |breaks| :: IsBreak(text, breaks[i]))
    && (forall i, j | 0 <= i < j < |breaks| :: breaks[i].e <= breaks[j].s)
  }

  // ------------------------------------------------------------------ segments

  /** A segment, unless it is blank. */
  function Keep(text: string, a: nat, b: nat): seq<Span>
    requires a <= b <= |text|
  {
    if Blank(text, a, b) then [] else [Span(a, b)]
  }

  function CursorAfter(breaks: seq<Span>): nat { if breaks == [] then 0 else breaks[|breaks| - 1].e }

  /** The text between the breaks, each piece with the closers that follow it. */
  function Segments(text: string, breaks: seq<Span>): seq<Span>
    requires AreBreaks(text, breaks)
  {
    if breaks == [] then []
    else
      var n := |breaks| - 1;
      Segments(text, breaks[..n]) + Keep(text, CursorAfter(breaks[..n]), ClosersEnd(text, breaks[n].s, breaks[n].e))
  }

  /** Spans in order, apart, not blank, and inside the text. */
  predicate InOrder(text: string, spans: seq<Span>) {
    && (forall i | 0 <= i < |spans| :: spans[i].s < spans[i].e <= |text| && !Blank(text, spans[i].s, spans[i].e))
    && (forall i, j | 0 <= i < j < |spans| :: spans[i].e <= spans[j].s)
  }

  predicate Inside(spans: seq<Span>, p: nat) { exists x | x in spans :: x.s <= p < x.e }

  /** Every character before `upto` that is not white space lies in a span. */
  predicate Covers(text: string, spans: seq<Span>, upto: nat)
    requires upto <= |text|
  {
    forall p: nat | p < upto && !IsSpace(text[p]) :: Inside(spans, p)
  }

  predicate EndsBy(spans: seq<Span>, end: nat) { forall x | x in spans :: x.e <= end }

  lemma {:induction false} InOrderSnoc(text: string, spans: seq<Span>, a: nat, x: Span)
    requires InOrder(text, spans) && EndsBy(spans, a) && a <= x.s < x.e <= |text| && !Blank(text, x.s, x.e)
    ensures InOrder(text, spans + [x]) && EndsBy(spans + [x], x.e)
  {
    forall i | 0 <= i < |spans| ensures spans[i].e <= a { assert spans[i] in spans; }
  }

  lemma {:induction false} InsideMore(spans: seq<Span>, more: seq<Span>, p: nat)
    ensures Inside(spans + more, p) <==> Inside(spans, p) || Inside(more, p)
  {
    if Inside(spans, p) {
      var x :| x in spans && x.s <= p < x.e;
      assert x in spans + more;
    }
    if Inside(more, p) {
      var x :| x in more && x.s <= p < x.e;
      assert x in spans + more;
    }
  }

  lemma {:induction false} KeepInside(text: string, a: nat, k: nat, p: nat)
    requires a <= p < k <= |text| && !IsSpace(text[p])
    ensures Inside(Keep(text, a, k), p)
  {
    assert Span(a, k) in [Span(a, k)];
  }

  lemma {:induction false} KeepCovers(text: string, spans: seq<Span>, a: nat, k: nat, b: nat)
    requires InOrder(text, spans) && EndsBy(spans, a) && a <= k <= b <= |text| && Covers(text, spans, a) && Blank(text, k, b)
    ensures InOrder(text, spans + Keep(text, a, k)) && EndsBy(spans + Keep(text, a, k), b) && Covers(text, spans + Keep(text, a, k), b)
  {
    var after := spans + Keep(text, a, k);
    if Blank(text, a, k) { assert after == spans; } else { InOrderSnoc(text, spans, a, Span(a, k)); }
    forall p: nat | p < b && !IsSpace(text[p]) ensures Inside(after, p) {
      InsideMore(spans, Keep(text, a, k), p);
      if p >= a {
        assert p < k;
        KeepInside(text, a, k, p);
      }
    }
  }

  lemma {:induction false} SegmentsCover(text: string, breaks: seq<Span>)
    requires AreBreaks(text, breaks)
    ensures CursorAfter(breaks) <= |text|
    ensures InOrder(text, Segments(text, breaks)) && EndsBy(Segments(text, breaks), CursorAfter(breaks))
    ensures Covers(text, Segments(text, breaks), CursorAfter(breaks))
  {
    if breaks != [] {
      var n := |breaks| - 1;
      SegmentsCover(text, breaks[..n]);
      KeepCovers(text, Segments(text, breaks[..n]), CursorAfter(breaks[..n]), ClosersEnd(text, breaks[n].s, breaks[n].e), breaks[n].e);
    }
  }

  // ------------------------------------------------------------------ trimming

  /** The span without white space at its ends. */
  predicate IsTrimmed(text: string, x: Span, y: Span) {
    && x.s <= y.s < y.e <= x.e <= |text| && Blank(text, x.s, y.s) && Blank(text, y.e, x.e)
    && !IsSpace(text[y.s]) && !IsSpace(text[y.e - 1])
  }

  /** `_trim`: white space at the ends goes; a blank span shrinks to nothing at its end. */
  method Trim(text: string, x: Span) returns (y: Span)
    requires x.s <= x.e <= |text|
    ensures if Blank(text, x.s, x.e) then y == Span(x.e, x.e) else IsTrimmed(text, x, y)
  {
    var s, e := x.s, x.e;
    while s < e && IsSpace(text[s])
      invariant x.s <= s <= e == x.e && Blank(text, x.s, s)
    {
      s := s + 1;
    }
    while e > s && IsSpace(text[e - 1])
      invariant s <= e <= x.e && Blank(text, e, x.e) && (s < x.e ==> !IsSpace(text[s]) && s < e)
    {
      e := e - 1;
    }
    y := Span(s, e);
  }

  predicate AllTrimmed(text: string, spans: seq<Span>, trimmed: seq<Span>) {
    |spans| == |trimmed| && forall i | 0 <= i < |spans| :: IsTrimmed(text, spans[i], trimmed[i])
  }

  lemma {:induction false} TrimmedInside(text: string, x: Span, y: Span, p: nat)
    requires IsTrimmed(text, x, y) && x.s <= p < x.e && !IsSpace(text[p])
    ensures y.s <= p < y.e
  {}

  lemma {:induction false} TrimmedOrder(text: string, spans: seq<Span>, trimmed: seq<Span>)
    requires InOrder(text, spans) && AllTrimmed(text, spans, trimmed)
    ensures InOrder(text, trimmed)
  {
    forall i | 0 <= i < |trimmed| ensures trimmed[i].s < trimmed[i].e <= |text| && !Blank(text, trimmed[i].s, trimmed[i].e) {
      assert IsTrimmed(text, spans[i], trimmed[i]);
    }
    forall i, j | 0 <= i < j < |trimmed| ensures trimmed[i].e <= trimmed[j].s {
      assert IsTrimmed(text, spans[i], trimmed[i]) && IsTrimmed(text, spans[j], trimmed[j]);
      assert spans[i].e <= spans[j].s;
    }
  }

  lemma {:induction false} TrimmedCover(text: string, spans: seq<Span>, trimmed: seq<Span>)
    requires Covers(text, spans, |text|) && AllTrimmed(text, spans, trimmed)
    ensures Covers(text, trimmed, |text|)
  {
    forall p: nat | p < |text| && !IsSpace(text[p]) ensures Inside(trimmed, p) {
      var x :| x in spans && x.s <= p < x.e;
      var i: nat :| i < |spans| && spans[i] == x;
      TrimmedInside(text, x, trimmed[i], p);
      assert trimmed[i] in trimmed;
    }
  }

  // ------------------------------------------------------------------ merging structured lines

  /** Do two lines belong to one table or one block of key-value lines? Decided by wording, so taken as a parameter. */
  type SameBlock = (string, string) -> bool

  function Newlines(text: string, a: nat, b: nat): nat
    requires a <= b <= |text|
    decreases b - a
  {
    if a == b then 0 else Newlines(text, a, b - 1) + if text[b - 1] == '\n' then 1 else 0
  }

  /** Where the last line of the text between `a` and `b` begins. */
  function LastLine(text: string, a: nat, b: nat): (k: nat)
    requires a <= b <= |text|
    ensures a <= k <= b
    decreases b - a
  {
    if a == b || text[b - 1] == '\n' then b else LastLine(text, a, b - 1)
  }

  /** A span continues the previous one: one line break between them, and both lines of one block. */
  predicate Continues(text: string, prev: Span, x: Span, same: SameBlock) {
    && prev.s <= prev.e <= x.s <= x.e <= |text| && Blank(text, prev.e, x.s) && Newlines(text, prev.e, x.s) == 1
    && same(text[LastLine(text, prev.s, prev.e)..prev.e], text[x.s..x.e])
  }

  function Append(text: string, out: seq<Span>, x: Span, same: SameBlock): seq<Span> {
    if out != [] && Continues(text, out[|out| - 1], x, same) then out[..|out| - 1] + [Span(out[|out| - 1].s, x.e)] else out + [x]
  }

  function Merged(text: string, spans: seq<Span>, same: SameBlock): seq<Span> {
    if spans == [] then [] else Append(text, Merged(text, spans[..|spans| - 1], same), spans[|spans| - 1], same)
  }

  lemma {:induction false} ExtendLast(text: string, out: seq<Span>, e: nat)
    requires InOrder(text, out) && out != [] && out[|out| - 1].e <= e <= |text|
    ensures var after := out[..|out| - 1] + [Span(out[|out| - 1].s, e)];
            InOrder(text, after) && EndsBy(after, e)
    ensures forall p: nat | Inside(out, p) || out[|out| - 1].e <= p < e :: Inside(out[..|out| - 1] + [Span(out[|out| - 1].s, e)], p)
  {
    var n := |out| - 1;
    var after := out[..n] + [Span(out[n].s, e)];
    var k :| out[n].s <= k < out[n].e && !IsSpace(text[k]);
    forall i | 0 <= i < n ensures out[i].e <= e { assert out[i].e <= out[n].s; }
    forall p: nat | Inside(out, p) || out[n].e <= p < e ensures Inside(after, p) {
      assert after[n] in after;
      if Inside(out, p) {
        var y :| y in out && y.s <= p < y.e;
        var i: nat :| i < |out| && out[i] == y;
        assert after[i] in after && after[i].s <= p < after[i].e;
      }
    }
  }

  lemma {:induction false} AppendCovers(text: string, out: seq<Span>, x: Span, same: SameBlock)
    requires InOrder(text, out) && EndsBy(out, x.s) && x.s < x.e <= |text| && !Blank(text, x.s, x.e)
    ensures InOrder(text, Append(text, out, x, same)) && EndsBy(Append(text, out, x, same), x.e)
    ensures forall p: nat | Inside(out, p) || x.s <= p < x.e :: Inside(Append(text, out, x, same), p)
  {
    if out != [] && Continues(text, out[|out| - 1], x, same) {
      ExtendLast(text, out, x.e);
    } else {
      InOrderSnoc(text, out, x.s, x);
      forall p: nat | Inside(out, p) || x.s <= p < x.e ensures Inside(out + [x], p) {
        assert x in [x];
        InsideMore(out, [x], p);
      }
    }
  }

  lemma {:induction false} InsideLast(spans: seq<Span>, p: nat)
    requires spans != [] && Inside(spans, p)
    ensures Inside(spans[..|spans| - 1], p) || spans[|spans| - 1].s <= p < spans[|spans| - 1].e
  {
    var x :| x in spans && x.s <= p < x.e;
    if x != spans[|spans| - 1] { assert x in spans[..|spans| - 1]; }
  }

  /** Merging loses no character and keeps the spans in order. */
  lemma {:induction false} MergedCovers(text: string, spans: seq<Span>, same: SameBlock)
    requires InOrder(text, spans)
    ensures InOrder(text, Merged(text, spans, same)) && (spans != [] ==> EndsBy(Merged(text, spans, same), spans[|spans| - 1].e))
    ensures forall p: nat | Inside(spans, p) :: Inside(Merged(text, spans, same), p)
  {
    if spans != [] {
      var n := |spans| - 1;
      MergedCovers(text, spans[..n], same);
      var out := Merged(text, spans[..n], same);
      assert EndsBy(out, spans[n].s) by { if n > 0 { assert spans[n - 1].e <= spans[n].s; } }
      AppendCovers(text, out, spans[n], same);
      forall p: nat | Inside(spans, p) ensures Inside(spans[..n], p) || spans[n].s <= p < spans[n].e { InsideLast(spans, p); }
    }
  }

  /** The sentence spans of a text: what the pattern leaves between its matches, trimmed and merged. */
  ghost predicate AreSentences(text: string, breaks: seq<Span>, same: SameBlock, spans: seq<Span>)
    requires AreBreaks(text, breaks) && CursorAfter(breaks) <= |text|
  {
    exists trimmed :: AllTrimmed(text, Segments(text, breaks) + Keep(text, CursorAfter(breaks), |text|), trimmed)
                      && spans == Merged(text, trimmed, same)
  }

  /** `sentences`: the spans are in order and apart, and every character that is not white space lies in exactly one. */
  method Sentences(text: string, breaks: seq<Span>, same: SameBlock) returns (spans: seq<Span>)
    requires AreBreaks(text, breaks)
    ensures CursorAfter(breaks) <= |text| && AreSentences(text, breaks, same, spans)
    ensures InOrder(text, spans)
    ensures forall p: nat | p < |text| && !IsSpace(text[p]) :: exists i: nat :: i < |spans| && spans[i].s <= p < spans[i].e && forall j: nat | j < |spans| && spans[j].s <= p < spans[j].e :: j == i
  {
    SegmentsCover(text, breaks);
    var pieces := FindSegments(text, breaks);
    KeepCovers(text, Segments(text, breaks), CursorAfter(breaks), |text|, |text|);
    var trimmed := TrimAll(text, pieces);
    TrimmedOrder(text, pieces, trimmed);
    TrimmedCover(text, pieces, trimmed);
    spans := Merge(text, trimmed, same);
    MergedCovers(text, trimmed, same);
    forall p: nat | p < |text| && !IsSpace(text[p])
      ensures exists i: nat :: i < |spans| && spans[i].s <= p < spans[i].e && forall j: nat | j < |spans| && spans[j].s <= p < spans[j].e :: j == i
    {
      assert Inside(trimmed, p);
      ExactlyOne(text, spans, p);
    }
  }

  lemma {:induction false} ExactlyOne(text: string, spans: seq<Span>, p: nat)
    requires InOrder(text, spans) && Inside(spans, p)
    ensures exists i: nat :: i < |spans| && spans[i].s <= p < spans[i].e && forall j: nat | j < |spans| && spans[j].s <= p < spans[j].e :: j == i
  {
    var x :| x in spans && x.s <= p < x.e;
    var i: nat :| i < |spans| && spans[i] == x;
    forall j: nat | j < |spans| && j != i ensures !(spans[j].s <= p < spans[j].e) {
      if i < j { assert spans[i].e <= spans[j].s; } else { assert spans[j].e <= spans[i].s; }
    }
  }

  /** The scan over closers stops where they end. */
  method SkipClosers(text: string, m: Span) returns (end: nat)
    requires m.s < m.e <= |text|
    ensures end == ClosersEnd(text, m.s, m.e)
  {
    end := m.s;
    while end < |text| && IsCloser(text[end]) && end < m.e
      invariant m.s <= end <= m.e && ClosersEnd(text, m.s, m.e) == ClosersEnd(text, end, m.e)
    {
      end := end + 1;
    }
  }

  lemma {:induction false} SegmentsNext(text: string, breaks: seq<Span>, i: nat)
    requires AreBreaks(text, breaks) && i < |breaks|
    ensures AreBreaks(text, breaks[..i]) && AreBreaks(text, breaks[..i + 1]) && CursorAfter(breaks[..i]) <= breaks[i].s
    ensures Segments(text, breaks[..i + 1])
            == Segments(text, breaks[..i]) + Keep(text, CursorAfter(breaks[..i]), ClosersEnd(text, breaks[i].s, breaks[i].e))
    ensures CursorAfter(breaks[..i + 1]) == breaks[i].e
  {
    assert breaks[..i + 1][..i] == breaks[..i];
    if i > 0 { assert breaks[i - 1].e <= breaks[i].s; }
  }

  method FindSegments(text: string, breaks: seq<Span>) returns (pieces: seq<Span>)
    requires AreBreaks(text, breaks) && CursorAfter(breaks) <= |text|
    ensures pieces == Segments(text, breaks) + Keep(text, CursorAfter(breaks), |text|)
  {
    pieces := [];
    var cursor := 0;
    for i := 0 to |breaks|
      invariant AreBreaks(text, breaks[..i]) && cursor == CursorAfter(breaks[..i]) && pieces == Segments(text, breaks[..i])
    {
      SegmentsNext(text, breaks, i);
      var end := SkipClosers(text, breaks[i]);
      if !Blank(text, cursor, end) { pieces := pieces + [Span(cursor, end)]; }
      cursor := breaks[i].e;
    }
    assert breaks[..|breaks|] == breaks;
    if !Blank(text, cursor, |text|) { pieces := pieces + [Span(cursor, |text|)]; }
  }

  method TrimAll(text: string, spans: seq<Span>) returns (trimmed: seq<Span>)
    requires InOrder(text, spans)
    ensures AllTrimmed(text, spans, trimmed)
  {
    trimmed := [];
    for i := 0 to |spans|
      invariant AllTrimmed(text, spans[..i], trimmed)
    {
      var y := Trim(text, spans[i]);
      trimmed := trimmed + [y];
    }
  }

  /** `_merge_structured`: the last span is replaced when the next one continues it. */
  method Merge(text: string, spans: seq<Span>, same: SameBlock) returns (out: seq<Span>)
    ensures out == Merged(text, spans, same)
  {
    out := [];
    for i := 0 to |spans|
      invariant out == Merged(text, spans[..i], same)
    {
      assert spans[..i + 1][..i] == spans[..i];
      var x := spans[i];
      if out != [] && Continues(text, out[|out| - 1], x, same) {
        out := out[..|out| - 1] + [Span(out[|out| - 1].s, x.e)];
      } else {
        out := out + [x];
      }
    }
    assert spans[..|spans|] == spans;
  }

  /** The first span around a position, or an empty one if there is none. */
  function SpanAround(spans: seq<Span>, p: nat): (x: Span)
    ensures Inside(spans, p) ==> x in spans && x.s <= p < x.e
    ensures !Inside(spans, p) ==> x == Span(p, p)
  {
    if spans == [] then Span(p, p)
    else if spans[0].s <= p < spans[0].e then spans[0]
    else
      assert forall x :: x in spans <==> x == spans[0] || x in spans[1..];
      SpanAround(spans[1..], p)
  }

  /** `sentence_of`. */
  method SentenceOf(spans: seq<Span>, p: nat) returns (x: Span)
    ensures x == SpanAround(spans, p)
    ensures Inside(spans, p) ==> x in spans && x.s <= p < x.e
    ensures !Inside(spans, p) ==> x == Span(p, p)
  {
    for i := 0 to |spans|
      invariant SpanAround(spans[i..], p) == SpanAround(spans, p)
    {
      if spans[i].s <= p < spans[i].e { return spans[i]; }
    }
    return Span(p, p);
  }

  // ------------------------------------------------------------------ overlapping matches

  /** A match of a count pattern; `usable` is what the filters leave. */
  datatype Match = Match(span: Span, usable: bool)

  predicate Overlaps(a: Span, b: Span) { a.s < b.e && b.s < a.e }

  predicate Clear(taken: seq<Span>, x: Span) { forall t | t in taken :: !Overlaps(x, t) }

  /** Matches are taken in order, each unless an earlier one holds part of its text. */
  function Taken(matches: seq<Match>): seq<Span> {
    if matches == [] then []
    else
      var rest, m := Taken(matches[..|matches| - 1]), matches[|matches| - 1];
      if m.usable && Clear(rest, m.span) then rest + [m.span] else rest
  }

  predicate Apart(spans: seq<Span>) { forall i, j | 0 <= i < j < |spans| :: !Overlaps(spans[i], spans[j]) }

  /** What is taken does not overlap, was usable, and blocks every usable match that was not. */
  lemma {:induction false} TakenGreedy(matches: seq<Match>, k: nat)
    requires k < |matches|
    ensures Apart(Taken(matches))
    ensures forall x | x in Taken(matches) :: Match(x, true) in matches
    ensures matches[k].usable ==>
              matches[k].span in Taken(matches) || exists x | x in Taken(matches[..k]) :: Overlaps(matches[k].span, x)
    ensures Taken(matches[..k]) <= Taken(matches)
  {
    var n := |matches| - 1;
    var rest := matches[..n];
    if k < n {
      assert rest[..k] == matches[..k];
      TakenGreedy(rest, k);
    } else if n > 0 {
      TakenGreedy(rest, 0);
    }
    assert forall x :: x in rest ==> x in matches;
    assert matches[n] in matches;
    var before := Taken(rest);
    forall i | 0 <= i < |before| && Clear(before, matches[n].span) ensures !Overlaps(before[i], matches[n].span) {
      assert before[i] in before;
    }
  }

  /** The greedy loop of `_find_counts`, over all the forms' matches in order of the forms. */
  method TakeMatches(matches: seq<Match>) returns (taken: seq<Span>)
    ensures taken == Taken(matches) && Apart(taken)
  {
    taken := [];
    for i := 0 to |matches|
      invariant taken == Taken(matches[..i])
    {
      assert matches[..i + 1][..i] == matches[..i];
      var m := matches[i];
      if exists t | t in taken :: Overlaps(m.span, t) { continue; }
      if !m.usable { continue; }
      taken := taken + [m.span];
    }
    assert matches[..|matches|] == matches;
    if matches != [] { TakenGreedy(matches, 0); }
  }
}
