/** Strict validation of a specification (sentinelforge/validation.py) and its compilation (sentinelforge/compile.py). */
module Validation {
  import opened Ordering
  import opened Behaviours

  /** A finite number, kept exact, or one of infinity and NaN. */
  datatype Num = Finite(v: real) | NonFinite

  /** A JSON value where a scalar is expected; `Other` is a list or an object. */
  datatype Json = Nothing | Boolean(b: bool) | Number(n: Num) | Text(s: string) | Other

  /** A block that is missing or null, is not an object, or is one. */
  datatype Block<T> = Absent | Malformed | Present(value: T)

  datatype CountBlock = CountBlock(value: Json, semantics: Json, comparator: Option<Json>)

  datatype WindowBlock = WindowBlock(amount: Json, unit: Json)

  datatype Conditions = Conditions(count: Block<CountBlock>, window: Block<WindowBlock>)

  datatype TimeWindow = TimeWindow(amount: Option<Json>, unit: Json, extraKeys: bool)

  /** `spec.get(key, [])`: a list of names, or anything else. */
  datatype FieldList = Names(names: seq<string>) | NotNames

  datatype Spec = Spec(behaviourId: Json, requiredFields: FieldList, policyFields: FieldList, threshold: Block<map<string, Json>>,
                       conditions: Block<Conditions>, timeWindow: Block<TimeWindow>)

  datatype Unit = Seconds | Minutes | Hours | Days

  function UnitSeconds(u: Unit): real {
    match u
    case Seconds => 1.0
    case Minutes => 60.0
    case Hours => 3600.0
    case Days => 86400.0
  }

  /** A key of `UNIT_SECONDS`. */
  function ExactUnit(s: string): Option<Unit> {
    if s == "seconds" then Some(Seconds) else if s == "minutes" then Some(Minutes)
    else if s == "hours" then Some(Hours) else if s == "days" then Some(Days) else None
  }

  /** A unit word, singular or plural. */
  function UnitOf(j: Json): Option<Unit> {
    if !j.Text? then None
    else if j.s == "second" then Some(Seconds) else if j.s == "minute" then Some(Minutes)
    else if j.s == "hour" then Some(Hours) else if j.s == "day" then Some(Days)
    else ExactUnit(j.s)
  }

  function UnitText(u: Unit): string {
    match u
    case Seconds => "seconds"
    case Minutes => "minutes"
    case Hours => "hours"
    case Days => "days"
  }

  lemma {:induction false} UnitTextUnit(u: Unit)
    ensures ExactUnit(UnitText(u)) == Some(u) && UnitOf(Text(UnitText(u))) == Some(u)
  {
    assert |UnitText(Seconds)| == 7 && |UnitText(Minutes)| == 7 && |UnitText(Hours)| == 5 && |UnitText(Days)| == 4;
    assert UnitText(Minutes)[0] != UnitText(Seconds)[0];
    assert UnitText(Days) != "hour" by { assert UnitText(Days)[0] != "hour"[0]; }
  }

  const MAX_COUNT: int := 1_000_000
  const MAX_WINDOW_SECONDS: int := 604_800

  /** Float noise the window check forgives. */
  const TOLERANCE: real := 0.000000001

  function SemanticsText(s: Semantics): string {
    match s
    case EventCount => "event_count"
    case DistinctAccounts => "distinct_accounts"
    case DistinctHosts => "distinct_hosts"
  }

  function SemanticsJson(s: Option<Semantics>): Json { if s.Some? then Text(SemanticsText(s.value)) else Nothing }

  predicate KnownSemantics(j: Json) { j == Text("event_count") || j == Text("distinct_accounts") || j == Text("distinct_hosts") }

  // ------------------------------------------------------------------ issues

  datatype Code = MalformedSpec | UnknownBehaviour | MalformedBlock | ConflictingKeys | NotANumber | AmbiguousAlias | AmbiguousSemantics
    | UnsupportedComparator | NotApplicable | MissingCount | FractionalCount | NonPositiveCount | CountOutOfRange | CountTooSmall
    | SemanticsMismatch | UnexpectedKey | UnknownUnit | MissingWindow | NonPositiveWindow | UnsupportedPrecision | WindowOutOfRange

  /** Where an issue was found, as far as the missing-count and missing-window checks look at it. */
  datatype Path = Elsewhere | AtThreshold | AtCount | AtTimeWindow | AtWindow

  datatype Issue = Issue(code: Code, path: Path)

  datatype Count = Count(at: Path, value: real, semantics: Json)

  datatype Window = Window(at: Path, amount: real, unit: Unit)

  function FieldIssues(f: FieldList): seq<Issue> { if f.NotNames? then [Issue(MalformedBlock, Elsewhere)] else [] }

  predicate IsFinite(j: Json) { j.Number? && j.n.Finite? }

  /** The legacy `threshold` block: issues, and the count it states. */
  function ThresholdIssues(id: Id, b: Block<map<string, Json>>): seq<Issue> {
    if b.Absent? then []
    else if b.Malformed? || |b.value| != 1 then
      [Issue(if b.Present? && |b.value| > 1 then ConflictingKeys else MalformedBlock, AtThreshold)]
    else
      var key := OnlyKey(b.value);
      if !IsFinite(b.value[key]) then [Issue(NotANumber, AtThreshold)]
      else if Alias(id, key).None? then [Issue(AmbiguousAlias, AtThreshold)] else []
  }

  lemma {:induction false} SingleKey(m: map<string, Json>)
    requires |m| == 1
    ensures exists k :: k in m
    ensures forall a, b | a in m && b in m :: a == b
  {
    var k :| k in m;
    var rest := m - {k};
    assert m.Keys == rest.Keys + {k};
    assert |m.Keys| == 1;
    assert |rest.Keys| == 0;
  }

  function OnlyKey(m: map<string, Json>): (key: string)
    requires |m| == 1
    ensures key in m
  {
    SingleKey(m);
    var k :| k in m;
    k
  }

  function ThresholdCounts(id: Id, b: Block<map<string, Json>>): seq<Count> {
    if b.Present? && |b.value| == 1 && IsFinite(b.value[OnlyKey(b.value)]) then
      [Count(AtThreshold, b.value[OnlyKey(b.value)].n.v, SemanticsJson(Alias(id, OnlyKey(b.value))))]
    else []
  }

  /** The `conditions.count` block. */
  function CountIssues(b: Block<CountBlock>): seq<Issue> {
    if b.Absent? then []
    else if b.Malformed? then [Issue(MalformedBlock, AtCount)]
    else if !IsFinite(b.value.value) then [Issue(NotANumber, AtCount)]
    else
      (if !KnownSemantics(b.value.semantics) then [Issue(AmbiguousSemantics, AtCount)] else [])
      + (if b.value.comparator.Some? && b.value.comparator.value != Text("gte") then [Issue(UnsupportedComparator, AtCount)] else [])
  }

  function BlockCounts(b: Block<CountBlock>): seq<Count> {
    if b.Present? && IsFinite(b.value.value) then [Count(AtCount, b.value.value.n.v, b.value.semantics)] else []
  }

  function ConditionsCount(b: Block<Conditions>): Block<CountBlock> { if b.Present? then b.value.count else Absent }

  function ConditionsWindow(b: Block<Conditions>): Block<WindowBlock> { if b.Present? then b.value.window else Absent }

  predicate IsWhole(v: real) { v == v.Floor as real }

  /** What is wrong with one stated count. */
  function CountProblems(id: Id, c: Count): seq<Issue> {
    (if !IsWhole(c.value) then [Issue(FractionalCount, c.at)]
     else if c.value < 1.0 then [Issue(NonPositiveCount, c.at)]
     else if c.value > MAX_COUNT as real then [Issue(CountOutOfRange, c.at)] else [])
    + (if RecipeOf(id).DistinctCountWithinWindow? && IsWhole(c.value) && 1.0 <= c.value < 2.0 then [Issue(CountTooSmall, c.at)] else [])
    + (if c.semantics != Nothing && Counts(id).Some? && c.semantics != SemanticsJson(Counts(id)) then [Issue(SemanticsMismatch, c.at)] else [])
  }

  function AllCountProblems(id: Id, counts: seq<Count>): seq<Issue> {
    if counts == [] then [] else AllCountProblems(id, counts[..|counts| - 1]) + CountProblems(id, counts[|counts| - 1])
  }

  predicate AnyAt(issues: seq<Issue>, p: Path, q: Path) { exists i | i in issues :: i.path == p || i.path == q }

  /** The checks on the counts a spec states, after `earlier` issues. */
  function CountRules(id: Id, counts: seq<Count>, earlier: seq<Issue>): seq<Issue> {
    if RecipeOf(id).PolicyCompare? then (if counts != [] then [Issue(NotApplicable, counts[0].at)] else [])
    else
      (if counts == [] && !AnyAt(earlier, AtThreshold, AtCount) then [Issue(MissingCount, AtThreshold)] else [])
      + (if |set c | c in counts :: c.value| > 1 then [Issue(ConflictingKeys, AtThreshold)] else [])
      + (if |(set c | c in counts :: c.semantics) - {Nothing}| > 1 then [Issue(ConflictingKeys, AtThreshold)] else [])
      + AllCountProblems(id, counts)
  }

  function AmountIssues(amount: Json, unit: Json, at: Path): seq<Issue> {
    if !IsFinite(amount) then [Issue(NotANumber, at)]
    else if UnitOf(unit).None? then [Issue(UnknownUnit, at)] else []
  }

  function AmountWindows(amount: Json, unit: Json, at: Path): seq<Window> {
    if IsFinite(amount) && UnitOf(unit).Some? then [Window(at, amount.n.v, UnitOf(unit).value)] else []
  }

  function TimeWindowIssues(b: Block<TimeWindow>): seq<Issue> {
    if b.Absent? then []
    else if b.Malformed? then [Issue(MalformedBlock, AtTimeWindow)]
    else
      (if b.value.extraKeys then [Issue(UnexpectedKey, AtTimeWindow)] else [])
      + (if b.value.amount.None? then [Issue(MalformedBlock, AtTimeWindow)] else AmountIssues(b.value.amount.value, b.value.unit, AtTimeWindow))
  }

  function TimeWindows(b: Block<TimeWindow>): seq<Window> {
    if b.Present? && b.value.amount.Some? then AmountWindows(b.value.amount.value, b.value.unit, AtTimeWindow) else []
  }

  function WindowBlockIssues(b: Block<WindowBlock>): seq<Issue> {
    if b.Absent? then [] else if b.Malformed? then [Issue(MalformedBlock, AtWindow)] else AmountIssues(b.value.amount, b.value.unit, AtWindow)
  }

  function BlockWindows(b: Block<WindowBlock>): seq<Window> {
    if b.Present? then AmountWindows(b.value.amount, b.value.unit, AtWindow) else []
  }

  /** Python's `round`, away from ties, which the precision check refuses anyway. */
  function Round(s: real): int { (s + 0.5).Floor }

  function SecondsOf(w: Window): real { w.amount * UnitSeconds(w.unit) }

  function Distance(s: real): real { if s - Round(s) as real >= 0.0 then s - Round(s) as real else Round(s) as real - s }

  function WindowProblem(w: Window): Option<Code> {
    if w.amount <= 0.0 then Some(NonPositiveWindow)
    else if Distance(SecondsOf(w)) > TOLERANCE then Some(UnsupportedPrecision)
    else if !(1 <= Round(SecondsOf(w)) <= MAX_WINDOW_SECONDS) then Some(WindowOutOfRange) else None
  }

  function WindowProblems(windows: seq<Window>): seq<Issue> {
    if windows == [] then []
    else
      var w := windows[|windows| - 1];
      WindowProblems(windows[..|windows| - 1]) + (if WindowProblem(w).Some? then [Issue(WindowProblem(w).value, w.at)] else [])
  }

  function GoodSeconds(windows: seq<Window>): set<int> { set w | w in windows && WindowProblem(w).None? :: Round(SecondsOf(w)) }

  function WindowRules(id: Id, windows: seq<Window>, earlier: seq<Issue>): seq<Issue> {
    if RecipeOf(id).PolicyCompare? then (if windows != [] then [Issue(NotApplicable, windows[0].at)] else [])
    else
      (if windows == [] && !AnyAt(earlier, AtTimeWindow, AtWindow) then [Issue(MissingWindow, AtTimeWindow)] else [])
      + WindowProblems(windows)
      + (if |GoodSeconds(windows)| > 1 then [Issue(ConflictingKeys, AtTimeWindow)] else [])
  }

  function CountsOf(id: Id, s: Spec): seq<Count> { ThresholdCounts(id, s.threshold) + BlockCounts(ConditionsCount(s.conditions)) }

  function WindowsOf(s: Spec): seq<Window> { TimeWindows(s.timeWindow) + BlockWindows(ConditionsWindow(s.conditions)) }

  function BeforeCounts(id: Id, s: Spec): seq<Issue> {
    FieldIssues(s.requiredFields) + FieldIssues(s.policyFields) + ThresholdIssues(id, s.threshold)
    + (if s.conditions.Malformed? then [Issue(MalformedBlock, Elsewhere)] else []) + CountIssues(ConditionsCount(s.conditions))
  }

  function BeforeWindows(id: Id, s: Spec): seq<Issue> {
    BeforeCounts(id, s) + CountRules(id, CountsOf(id, s), BeforeCounts(id, s))
    + TimeWindowIssues(s.timeWindow) + WindowBlockIssues(ConditionsWindow(s.conditions))
  }

  /** Every issue of a spec for a known behaviour, in the order the validator finds them. */
  function IssuesOf(id: Id, s: Spec): seq<Issue> {
    BeforeWindows(id, s) + WindowRules(id, WindowsOf(s), BeforeWindows(id, s))
  }

  // ------------------------------------------------------------------ what an acceptable spec is

  predicate NumberIn(j: Json, v: real) { j == Number(Finite(v)) }

  /** Every count the spec states is `n`, of what the behaviour counts. */
  ghost predicate StatesCount(id: Id, s: Spec, n: int) {
    && (s.threshold.Present? ==> exists key :: s.threshold.value.Keys == {key} && NumberIn(s.threshold.value[key], n as real) && Alias(id, key).Some?)
    && (ConditionsCount(s.conditions).Present? ==>
          var c := ConditionsCount(s.conditions).value;
          NumberIn(c.value, n as real) && c.semantics == SemanticsJson(Counts(id)) && (c.comparator == None || c.comparator == Some(Text("gte"))))
    && (s.threshold.Present? || ConditionsCount(s.conditions).Present?)
    && 1 <= n <= MAX_COUNT && (RecipeOf(id).DistinctCountWithinWindow? ==> n >= 2)
  }

  /** The stated amount and unit come to `secs` whole seconds, up to the tolerance. */
  predicate ComesTo(amount: Json, unit: Json, secs: int) {
    && IsFinite(amount) && UnitOf(unit).Some? && amount.n.v > 0.0
    && var s := amount.n.v * UnitSeconds(UnitOf(unit).value);
       Round(s) == secs && Distance(s) <= TOLERANCE
  }

  ghost predicate StatesWindow(s: Spec, secs: int) {
    && (s.timeWindow.Present? ==>
          s.timeWindow.value.amount.Some? && !s.timeWindow.value.extraKeys && ComesTo(s.timeWindow.value.amount.value, s.timeWindow.value.unit, secs))
    && (ConditionsWindow(s.conditions).Present? ==>
          ComesTo(ConditionsWindow(s.conditions).value.amount, ConditionsWindow(s.conditions).value.unit, secs))
    && (s.timeWindow.Present? || ConditionsWindow(s.conditions).Present?)
    && 1 <= secs <= MAX_WINDOW_SECONDS
  }

  predicate NoneMalformed(s: Spec) {
    && s.requiredFields.Names? && s.policyFields.Names? && !s.threshold.Malformed? && !s.conditions.Malformed?
    && !ConditionsCount(s.conditions).Malformed? && !s.timeWindow.Malformed? && !ConditionsWindow(s.conditions).Malformed?
  }

  /** The spec is well-formed for its behaviour: it states exactly one count and one window, or neither for a policy rule. */
  ghost predicate Acceptable(id: Id, s: Spec) {
    && NoneMalformed(s)
    && if Windowed(id) then (exists n :: StatesCount(id, s, n)) && (exists secs :: StatesWindow(s, secs))
       else s.threshold.Absent? && ConditionsCount(s.conditions).Absent? && s.timeWindow.Absent? && ConditionsWindow(s.conditions).Absent?
  }

  // ------------------------------------------------------------------ no issue means acceptable

  lemma {:induction false} JoinEmpty<T>(a: seq<T>, b: seq<T>)
    ensures a + b == [] <==> a == [] && b == []
  {}

  lemma {:induction false} BeforeCountsEmpty(id: Id, s: Spec)
    ensures BeforeCounts(id, s) == [] <==>
              FieldIssues(s.requiredFields) == [] && FieldIssues(s.policyFields) == [] && ThresholdIssues(id, s.threshold) == []
              && !s.conditions.Malformed? && CountIssues(ConditionsCount(s.conditions)) == []
  {}

  lemma {:induction false} IssuesEmpty(id: Id, s: Spec)
    ensures IssuesOf(id, s) == [] <==>
              BeforeCounts(id, s) == [] && CountRules(id, CountsOf(id, s), []) == [] && TimeWindowIssues(s.timeWindow) == []
              && WindowBlockIssues(ConditionsWindow(s.conditions)) == [] && WindowRules(id, WindowsOf(s), []) == []
  {
    if IssuesOf(id, s) == [] {
      JoinEmpty(BeforeWindows(id, s), WindowRules(id, WindowsOf(s), BeforeWindows(id, s)));
      assert BeforeWindows(id, s) == [] && BeforeCounts(id, s) == [];
    }
  }

  lemma {:induction false} AllCountProblemsEmpty(id: Id, counts: seq<Count>)
    ensures AllCountProblems(id, counts) == [] <==> forall c | c in counts :: CountProblems(id, c) == []
  {
    if counts != [] {
      var rest, last := counts[..|counts| - 1], counts[|counts| - 1];
      AllCountProblemsEmpty(id, rest);
      JoinEmpty(AllCountProblems(id, rest), CountProblems(id, last));
      assert forall c :: c in counts <==> c in rest || c == last;
    }
  }

  lemma {:induction false} WindowProblemsEmpty(windows: seq<Window>)
    ensures WindowProblems(windows) == [] <==> forall w | w in windows :: WindowProblem(w).None?
  {
    if windows != [] {
      var rest, last := windows[..|windows| - 1], windows[|windows| - 1];
      WindowProblemsEmpty(rest);
      assert forall w :: w in windows <==> w in rest || w == last;
    }
  }

  lemma {:induction false} AtMostOne<T>(s: set<T>)
    ensures |s| <= 1 <==> forall a, b | a in s && b in s :: a == b
  {
    if |s| <= 1 {
      if x :| x in s { assert |s - {x}| == 0; }
    } else {
      var x :| x in s;
      assert |s - {x}| >= 1;
      var y :| y in s - {x};
    }
  }

  predicate GoodCount(id: Id, v: real) {
    IsWhole(v) && 1.0 <= v <= MAX_COUNT as real && (RecipeOf(id).DistinctCountWithinWindow? ==> v >= 2.0)
  }

  predicate RightSemantics(id: Id, j: Json) { j == Nothing || j == SemanticsJson(Counts(id)) }

  lemma {:induction false} CountProblemsNone(id: Id, c: Count)
    requires Windowed(id)
    ensures CountProblems(id, c) == [] <==> GoodCount(id, c.value) && RightSemantics(id, c.semantics)
  {}

  lemma {:induction false} ValuesAgree(counts: seq<Count>)
    ensures |set c | c in counts :: c.value| <= 1 <==> forall a, b | a in counts && b in counts :: a.value == b.value
  {
    var values := set c | c in counts :: c.value;
    AtMostOne(values);
    if |values| <= 1 {
      forall a, b | a in counts && b in counts ensures a.value == b.value { assert a.value in values && b.value in values; }
    }
  }

  lemma {:induction false} SemanticsAgree(id: Id, counts: seq<Count>)
    requires forall c | c in counts :: RightSemantics(id, c.semantics)
    ensures |(set c | c in counts :: c.semantics) - {Nothing}| <= 1
  {
    AtMostOne((set c | c in counts :: c.semantics) - {Nothing});
  }

  predicate GoodCounts(id: Id, counts: seq<Count>) {
    && counts != [] && (forall a, b | a in counts && b in counts :: a.value == b.value)
    && forall c | c in counts :: GoodCount(id, c.value) && RightSemantics(id, c.semantics)
  }

  lemma {:induction false} CountRulesNone(id: Id, counts: seq<Count>)
    requires Windowed(id)
    ensures CountRules(id, counts, []) == [] <==> GoodCounts(id, counts)
  {
    AllCountProblemsEmpty(id, counts);
    forall c ensures CountProblems(id, c) == [] <==> GoodCount(id, c.value) && RightSemantics(id, c.semantics) { CountProblemsNone(id, c); }
    ValuesAgree(counts);
    if forall c | c in counts :: RightSemantics(id, c.semantics) { SemanticsAgree(id, counts); }
  }

  /** The count the threshold block states, when it is in order. */
  predicate ThresholdOk(id: Id, b: Block<map<string, Json>>) {
    b.Present? ==> |b.value| == 1 && IsFinite(b.value[OnlyKey(b.value)]) && Alias(id, OnlyKey(b.value)).Some?
  }

  predicate CountBlockOk(b: Block<CountBlock>) {
    b.Present? ==> IsFinite(b.value.value) && KnownSemantics(b.value.semantics) && (b.value.comparator == None || b.value.comparator == Some(Text("gte")))
  }

  lemma {:induction false} BlocksNone(id: Id, s: Spec)
    ensures ThresholdIssues(id, s.threshold) == [] <==> !s.threshold.Malformed? && ThresholdOk(id, s.threshold)
    ensures CountIssues(ConditionsCount(s.conditions)) == [] <==>
              !ConditionsCount(s.conditions).Malformed? && CountBlockOk(ConditionsCount(s.conditions))
  {}

  lemma {:induction false} KnownForSure(id: Id)
    requires Windowed(id)
    ensures KnownSemantics(SemanticsJson(Counts(id))) && SemanticsJson(Counts(id)) != Nothing
  {}

  lemma {:induction false} AliasMeans(id: Id, key: string)
    ensures Alias(id, key).Some? ==> Alias(id, key) == Counts(id)
  {}

  /** The stated number, in whole form. */
  lemma {:induction false} CountStated(id: Id, s: Spec) returns (n: int)
    requires Windowed(id) && !s.threshold.Malformed? && !ConditionsCount(s.conditions).Malformed?
    requires ThresholdOk(id, s.threshold) && CountBlockOk(ConditionsCount(s.conditions)) && CountRules(id, CountsOf(id, s), []) == []
    ensures StatesCount(id, s, n) && CountsOf(id, s) != [] && CountsOf(id, s)[0].value == n as real
  {
    var counts := CountsOf(id, s);
    CountRulesNone(id, counts);
    n := counts[0].value.Floor;
    assert counts[0] in counts;
    if s.threshold.Present? {
      var key := OnlyKey(s.threshold.value);
      SingleKey(s.threshold.value);
      assert s.threshold.value.Keys == {key};
      assert counts[0] == ThresholdCounts(id, s.threshold)[0];
    }
    if ConditionsCount(s.conditions).Present? {
      var c := BlockCounts(ConditionsCount(s.conditions))[0];
      assert c in counts;
      assert c.semantics != Nothing;
    }
  }

  /** Both stated counts, if present, are `n`. */
  lemma {:induction false} ThresholdStated(id: Id, b: Block<map<string, Json>>, key: string, n: int)
    requires b.Present? && b.value.Keys == {key} && NumberIn(b.value[key], n as real) && Alias(id, key).Some?
    ensures ThresholdOk(id, b) && ThresholdCounts(id, b) == [Count(AtThreshold, n as real, SemanticsJson(Counts(id)))]
  {
    AliasMeans(id, key);
    assert |b.value| == |b.value.Keys| == 1;
    assert OnlyKey(b.value) in b.value.Keys;
  }

  lemma {:induction false} SameCounts(id: Id, counts: seq<Count>, n: int)
    requires counts != [] && forall c | c in counts :: c.value == n as real && c.semantics == SemanticsJson(Counts(id))
    requires Windowed(id) && 1 <= n <= MAX_COUNT && (RecipeOf(id).DistinctCountWithinWindow? ==> n >= 2)
    ensures CountRules(id, counts, []) == [] && counts[0].value == n as real
  {
    assert GoodCount(id, n as real);
    assert counts[0] in counts;
    CountRulesNone(id, counts);
  }

  lemma {:induction false} StatedCountPasses(id: Id, s: Spec, n: int)
    requires Windowed(id) && !s.threshold.Malformed? && !ConditionsCount(s.conditions).Malformed? && StatesCount(id, s, n)
    ensures ThresholdOk(id, s.threshold) && CountBlockOk(ConditionsCount(s.conditions)) && CountRules(id, CountsOf(id, s), []) == []
    ensures CountsOf(id, s) != [] && CountsOf(id, s)[0].value == n as real
  {
    KnownForSure(id);
    if s.threshold.Present? {
      var key :| s.threshold.value.Keys == {key} && NumberIn(s.threshold.value[key], n as real) && Alias(id, key).Some?;
      ThresholdStated(id, s.threshold, key, n);
    }
    SameCounts(id, CountsOf(id, s), n);
  }

  // ------------------------------------------------------------------ windows

  lemma {:induction false} WindowRulesNone(id: Id, windows: seq<Window>)
    requires Windowed(id)
    ensures WindowRules(id, windows, []) == [] <==>
              windows != [] && (forall w | w in windows :: WindowProblem(w).None?)
              && forall a, b | a in windows && b in windows :: Round(SecondsOf(a)) == Round(SecondsOf(b))
  {
    WindowProblemsEmpty(windows);
    AtMostOne(GoodSeconds(windows));
    if (forall w | w in windows :: WindowProblem(w).None?) && WindowRules(id, windows, []) == [] {
      forall a, b | a in windows && b in windows ensures Round(SecondsOf(a)) == Round(SecondsOf(b)) {
        assert Round(SecondsOf(a)) in GoodSeconds(windows) && Round(SecondsOf(b)) in GoodSeconds(windows);
      }
    }
  }

  predicate AmountOk(amount: Json, unit: Json) { IsFinite(amount) && UnitOf(unit).Some? }

  predicate TimeWindowOk(b: Block<TimeWindow>) {
    b.Present? ==> !b.value.extraKeys && b.value.amount.Some? && AmountOk(b.value.amount.value, b.value.unit)
  }

  predicate WindowBlockOk(b: Block<WindowBlock>) { b.Present? ==> AmountOk(b.value.amount, b.value.unit) }

  lemma {:induction false} WindowBlocksNone(s: Spec)
    ensures TimeWindowIssues(s.timeWindow) == [] <==> !s.timeWindow.Malformed? && TimeWindowOk(s.timeWindow)
    ensures WindowBlockIssues(ConditionsWindow(s.conditions)) == [] <==>
              !ConditionsWindow(s.conditions).Malformed? && WindowBlockOk(ConditionsWindow(s.conditions))
  {}

  lemma {:induction false} ComesToIs(w: Window, amount: Json, unit: Json, secs: int)
    requires AmountOk(amount, unit) && w.amount == amount.n.v && w.unit == UnitOf(unit).value
    ensures (WindowProblem(w).None? && Round(SecondsOf(w)) == secs) <==> ComesTo(amount, unit, secs) && 1 <= secs <= MAX_WINDOW_SECONDS
  {}

  lemma {:induction false} WindowStated(id: Id, s: Spec) returns (secs: int)
    requires Windowed(id) && !s.timeWindow.Malformed? && !ConditionsWindow(s.conditions).Malformed?
    requires TimeWindowOk(s.timeWindow) && WindowBlockOk(ConditionsWindow(s.conditions)) && WindowRules(id, WindowsOf(s), []) == []
    ensures StatesWindow(s, secs) && WindowsOf(s) != [] && Round(SecondsOf(WindowsOf(s)[0])) == secs
  {
    var windows := WindowsOf(s);
    WindowRulesNone(id, windows);
    secs := Round(SecondsOf(windows[0]));
    assert windows[0] in windows;
    if s.timeWindow.Present? {
      ComesToIs(TimeWindows(s.timeWindow)[0], s.timeWindow.value.amount.value, s.timeWindow.value.unit, secs);
      assert TimeWindows(s.timeWindow)[0] in windows;
    }
    if ConditionsWindow(s.conditions).Present? {
      var w := BlockWindows(ConditionsWindow(s.conditions))[0];
      assert w in windows;
      ComesToIs(w, ConditionsWindow(s.conditions).value.amount, ConditionsWindow(s.conditions).value.unit, secs);
    }
  }

  lemma {:induction false} StatedWindowPasses(id: Id, s: Spec, secs: int)
    requires Windowed(id) && !s.timeWindow.Malformed? && !ConditionsWindow(s.conditions).Malformed? && StatesWindow(s, secs)
    ensures TimeWindowOk(s.timeWindow) && WindowBlockOk(ConditionsWindow(s.conditions)) && WindowRules(id, WindowsOf(s), []) == []
    ensures WindowsOf(s) != [] && Round(SecondsOf(WindowsOf(s)[0])) == secs
  {
    var windows := WindowsOf(s);
    forall w | w in windows ensures WindowProblem(w).None? && Round(SecondsOf(w)) == secs {
      var i :| 0 <= i < |windows| && windows[i] == w;
      if w in TimeWindows(s.timeWindow) {
        ComesToIs(w, s.timeWindow.value.amount.value, s.timeWindow.value.unit, secs);
      } else {
        assert w in BlockWindows(ConditionsWindow(s.conditions));
        ComesToIs(w, ConditionsWindow(s.conditions).value.amount, ConditionsWindow(s.conditions).value.unit, secs);
      }
    }
    WindowRulesNone(id, windows);
  }

  // ------------------------------------------------------------------ the validator accepts exactly the acceptable specs

  predicate CountsPass(id: Id, s: Spec) {
    && !s.threshold.Malformed? && !ConditionsCount(s.conditions).Malformed?
    && ThresholdOk(id, s.threshold) && CountBlockOk(ConditionsCount(s.conditions)) && CountRules(id, CountsOf(id, s), []) == []
  }

  predicate WindowsPass(id: Id, s: Spec) {
    && !s.timeWindow.Malformed? && !ConditionsWindow(s.conditions).Malformed?
    && TimeWindowOk(s.timeWindow) && WindowBlockOk(ConditionsWindow(s.conditions)) && WindowRules(id, WindowsOf(s), []) == []
  }

  lemma {:induction false} IssuesSplit(id: Id, s: Spec)
    ensures IssuesOf(id, s) == [] <==>
              s.requiredFields.Names? && s.policyFields.Names? && !s.conditions.Malformed? && CountsPass(id, s) && WindowsPass(id, s)
  {
    IssuesEmpty(id, s);
    BeforeCountsEmpty(id, s);
    BlocksNone(id, s);
    WindowBlocksNone(s);
  }

  lemma {:induction false} CountsPassIff(id: Id, s: Spec)
    requires Windowed(id)
    ensures CountsPass(id, s) <==> !s.threshold.Malformed? && !ConditionsCount(s.conditions).Malformed? && exists n :: StatesCount(id, s, n)
  {
    if CountsPass(id, s) { var n := CountStated(id, s); }
    if !s.threshold.Malformed? && !ConditionsCount(s.conditions).Malformed? {
      if n :| StatesCount(id, s, n) { StatedCountPasses(id, s, n); }
    }
  }

  lemma {:induction false} WindowsPassIff(id: Id, s: Spec)
    requires Windowed(id)
    ensures WindowsPass(id, s) <==> !s.timeWindow.Malformed? && !ConditionsWindow(s.conditions).Malformed? && exists secs :: StatesWindow(s, secs)
  {
    if WindowsPass(id, s) { var secs := WindowStated(id, s); }
    if !s.timeWindow.Malformed? && !ConditionsWindow(s.conditions).Malformed? {
      if secs :| StatesWindow(s, secs) { StatedWindowPasses(id, s, secs); }
    }
  }

  lemma {:induction false} WindowedAccepted(id: Id, s: Spec)
    requires Windowed(id)
    ensures IssuesOf(id, s) == [] <==> Acceptable(id, s)
  {
    IssuesSplit(id, s);
    CountsPassIff(id, s);
    WindowsPassIff(id, s);
  }

  lemma {:induction false} PolicyAccepted(id: Id, s: Spec)
    requires !Windowed(id)
    ensures IssuesOf(id, s) == [] <==> Acceptable(id, s)
  {
    IssuesEmpty(id, s);
    BeforeCountsEmpty(id, s);
    BlocksNone(id, s);
    WindowBlocksNone(s);
    JoinEmpty(ThresholdCounts(id, s.threshold), BlockCounts(ConditionsCount(s.conditions)));
    JoinEmpty(TimeWindows(s.timeWindow), BlockWindows(ConditionsWindow(s.conditions)));
  }

  lemma {:induction false} Accepted(id: Id, s: Spec)
    ensures IssuesOf(id, s) == [] <==> Acceptable(id, s)
  {
    if Windowed(id) { WindowedAccepted(id, s); } else { PolicyAccepted(id, s); }
  }

  // ------------------------------------------------------------------ `validate_spec`

  datatype SpecValidation = SpecValidation(ok: bool, issues: seq<Issue>, behaviour: Option<Id>, count: Option<int>, windowSeconds: Option<int>)

  /** The behaviour a spec names. */
  function Named(s: Spec): Option<Id> { if s.behaviourId.Text? then Find(s.behaviourId.s) else None }

  lemma {:induction false} CountProblemsNext(id: Id, counts: seq<Count>, i: nat)
    requires i < |counts|
    ensures AllCountProblems(id, counts[..i + 1]) == AllCountProblems(id, counts[..i]) + CountProblems(id, counts[i])
  {
    assert counts[..i + 1][..i] == counts[..i];
  }

  lemma {:induction false} WindowProblemsNext(windows: seq<Window>, i: nat)
    requires i < |windows|
    ensures WindowProblems(windows[..i + 1])
            == WindowProblems(windows[..i]) + if WindowProblem(windows[i]).Some? then [Issue(WindowProblem(windows[i]).value, windows[i].at)] else []
    ensures GoodSeconds(windows[..i + 1])
            == GoodSeconds(windows[..i]) + if WindowProblem(windows[i]).None? then {Round(SecondsOf(windows[i]))} else {}
  {
    assert windows[..i + 1][..i] == windows[..i];
    assert forall w :: w in windows[..i + 1] <==> w in windows[..i] || w == windows[i];
  }

  method CheckEachCount(id: Id, counts: seq<Count>) returns (issues: seq<Issue>)
    ensures issues == AllCountProblems(id, counts)
  {
    issues := [];
    for i := 0 to |counts|
      invariant issues == AllCountProblems(id, counts[..i])
    {
      CountProblemsNext(id, counts, i);
      issues := issues + CountProblems(id, counts[i]);
    }
    assert counts[..|counts|] == counts;
  }

  /** The checks on the stated counts together. */
  method CheckCounts(id: Id, counts: seq<Count>, earlier: seq<Issue>) returns (issues: seq<Issue>)
    ensures issues == CountRules(id, counts, earlier)
  {
    if RecipeOf(id).PolicyCompare? { return if counts != [] then [Issue(NotApplicable, counts[0].at)] else []; }
    var each := CheckEachCount(id, counts);
    issues := if counts == [] && !AnyAt(earlier, AtThreshold, AtCount) then [Issue(MissingCount, AtThreshold)] else [];
    issues := issues + if |set c | c in counts :: c.value| > 1 then [Issue(ConflictingKeys, AtThreshold)] else [];
    issues := issues + if |(set c | c in counts :: c.semantics) - {Nothing}| > 1 then [Issue(ConflictingKeys, AtThreshold)] else [];
    issues := issues + each;
  }

  method CheckEachWindow(windows: seq<Window>) returns (issues: seq<Issue>, secs: set<int>)
    ensures issues == WindowProblems(windows) && secs == GoodSeconds(windows)
  {
    issues, secs := [], {};
    for i := 0 to |windows|
      invariant issues == WindowProblems(windows[..i]) && secs == GoodSeconds(windows[..i])
    {
      WindowProblemsNext(windows, i);
      var w := windows[i];
      if WindowProblem(w).Some? {
        issues := issues + [Issue(WindowProblem(w).value, w.at)];
      } else {
        secs := secs + {Round(SecondsOf(w))};
      }
    }
    assert windows[..|windows|] == windows;
  }

  /** The checks on the stated windows together, and the seconds they agree on. */
  method CheckWindows(id: Id, windows: seq<Window>, earlier: seq<Issue>) returns (issues: seq<Issue>, seconds: Option<int>)
    ensures issues == WindowRules(id, windows, earlier)
    ensures Windowed(id) && |GoodSeconds(windows)| == 1 ==> seconds.Some? && GoodSeconds(windows) == {seconds.value}
    ensures !Windowed(id) ==> seconds == None
  {
    if RecipeOf(id).PolicyCompare? { return if windows != [] then [Issue(NotApplicable, windows[0].at)] else [], None; }
    var each, secs := CheckEachWindow(windows);
    issues := if windows == [] && !AnyAt(earlier, AtTimeWindow, AtWindow) then [Issue(MissingWindow, AtTimeWindow)] else [];
    issues := issues + each;
    issues := issues + if |secs| > 1 then [Issue(ConflictingKeys, AtTimeWindow)] else [];
    seconds := None;
    if |secs| == 1 {
      var x :| x in secs;
      AtMostOne(secs);
      assert secs == {x};
      seconds := Some(x);
    }
  }

  /** Accepts exactly the acceptable specs, and hands on their own count and window. */
  method ValidateSpec(doc: Option<Spec>) returns (v: SpecValidation)
    ensures v.ok <==> doc.Some? && Named(doc.value).Some? && Acceptable(Named(doc.value).value, doc.value)
    ensures v.ok ==> v.behaviour == Named(doc.value)
    ensures v.ok && Windowed(v.behaviour.value) ==> v.count.Some? && StatesCount(v.behaviour.value, doc.value, v.count.value)
    ensures v.ok && Windowed(v.behaviour.value) ==> v.windowSeconds.Some? && StatesWindow(doc.value, v.windowSeconds.value)
    ensures v.ok && !Windowed(v.behaviour.value) ==> v.count == None && v.windowSeconds == None
    ensures !v.ok ==> v.issues != [] && v.count == None && v.windowSeconds == None
  {
    if doc.None? { return SpecValidation(false, [Issue(MalformedSpec, Elsewhere)], None, None, None); }
    var s := doc.value;
    if Named(s).None? { return SpecValidation(false, [Issue(UnknownBehaviour, Elsewhere)], None, None, None); }
    var id := Named(s).value;
    var issues := FieldIssues(s.requiredFields) + FieldIssues(s.policyFields);
    var counts := ThresholdCounts(id, s.threshold);
    issues := issues + ThresholdIssues(id, s.threshold);
    issues := issues + if s.conditions.Malformed? then [Issue(MalformedBlock, Elsewhere)] else [];
    issues := issues + CountIssues(ConditionsCount(s.conditions));
    counts := counts + BlockCounts(ConditionsCount(s.conditions));
    var about := CheckCounts(id, counts, issues);
    issues := issues + about;
    issues := issues + TimeWindowIssues(s.timeWindow);
    issues := issues + WindowBlockIssues(ConditionsWindow(s.conditions));
    var windows := TimeWindows(s.timeWindow) + BlockWindows(ConditionsWindow(s.conditions));
    var last, seconds := CheckWindows(id, windows, issues);
    v := Conclude(id, s, counts, issues + last, seconds);
  }

  method Conclude(id: Id, s: Spec, counts: seq<Count>, issues: seq<Issue>, seconds: Option<int>) returns (v: SpecValidation)
    requires Named(s) == Some(id) && issues == IssuesOf(id, s) && counts == CountsOf(id, s)
    requires Windowed(id) && |GoodSeconds(WindowsOf(s))| == 1 ==> seconds.Some? && GoodSeconds(WindowsOf(s)) == {seconds.value}
    requires !Windowed(id) ==> seconds == None
    ensures v.ok <==> Acceptable(id, s)
    ensures v.ok ==> v.behaviour == Some(id)
    ensures v.ok && Windowed(id) ==> v.count.Some? && StatesCount(id, s, v.count.value)
    ensures v.ok && Windowed(id) ==> v.windowSeconds.Some? && StatesWindow(s, v.windowSeconds.value)
    ensures v.ok && !Windowed(id) ==> v.count == None && v.windowSeconds == None
    ensures !v.ok ==> v.issues != [] && v.count == None && v.windowSeconds == None
  {
    Accepted(id, s);
    if issues != [] { return SpecValidation(false, issues, Some(id), None, None); }
    NumbersHandedOn(id, s);
    if Windowed(id) { SameElement(GoodSeconds(WindowsOf(s)), Round(SecondsOf(WindowsOf(s)[0])), seconds); }
    var count := if Windowed(id) && counts != [] then Some(counts[0].value.Floor) else None;
    return SpecValidation(true, [], Some(id), count, seconds);
  }

  lemma {:induction false} SameElement(s: set<int>, x: int, y: Option<int>)
    requires s == {x} && (|s| == 1 ==> y.Some? && s == {y.value})
    ensures y == Some(x)
  {
    assert |{x}| == 1;
    assert x in s;
  }

  /** In an acceptable spec the first stated count and the single window length are the stated ones. */
  lemma {:induction false} NumbersHandedOn(id: Id, s: Spec)
    requires Acceptable(id, s)
    ensures Windowed(id) ==> CountsOf(id, s) != [] && StatesCount(id, s, CountsOf(id, s)[0].value.Floor)
    ensures Windowed(id) ==> WindowsOf(s) != [] && StatesWindow(s, Round(SecondsOf(WindowsOf(s)[0])))
                             && GoodSeconds(WindowsOf(s)) == {Round(SecondsOf(WindowsOf(s)[0]))}
  {
    if Windowed(id) {
      var n :| StatesCount(id, s, n);
      StatedCountPasses(id, s, n);
      var secs :| StatesWindow(s, secs);
      StatedWindowPasses(id, s, secs);
      WindowRulesNone(id, WindowsOf(s));
      OnlySeconds(WindowsOf(s), secs);
    }
  }

  lemma {:induction false} OnlySeconds(windows: seq<Window>, secs: int)
    requires windows != [] && Round(SecondsOf(windows[0])) == secs
    requires forall w | w in windows :: WindowProblem(w).None?
    requires forall a, b | a in windows && b in windows :: Round(SecondsOf(a)) == Round(SecondsOf(b))
    ensures GoodSeconds(windows) == {secs}
  {
    assert windows[0] in windows;
    forall x ensures x in GoodSeconds(windows) <==> x == secs {
      if x in GoodSeconds(windows) {
        var w :| w in windows && Round(SecondsOf(w)) == x;
      }
    }
  }

  /** A spec states at most one count and one window. */
  lemma {:induction false} StatedOnce(id: Id, s: Spec, m: int, n: int, x: int, y: int)
    requires Windowed(id) && NoneMalformed(s)
    requires StatesCount(id, s, m) && StatesCount(id, s, n) && StatesWindow(s, x) && StatesWindow(s, y)
    ensures m == n && x == y
  {
    StatedCountPasses(id, s, m);
    StatedCountPasses(id, s, n);
    StatedWindowPasses(id, s, x);
    StatedWindowPasses(id, s, y);
  }

  // ------------------------------------------------------------------ `compile_spec`

  datatype Compiled = Compiled(behaviour: Id, recipe: Recipe, template: Template, countThreshold: Option<int>,
                               distinctThreshold: Option<int>, timeWindowSeconds: Option<int>)

  /** The number the rule compares a count with. */
  function ThresholdOf(c: Compiled): Option<int> { if c.recipe.SequenceThenTrigger? then c.countThreshold else c.distinctThreshold }

  /** `c` is the behaviour's fixed recipe filled with exactly the numbers the spec states. */
  ghost predicate CompilesTo(s: Spec, c: Compiled) {
    && Named(s) == Some(c.behaviour) && Acceptable(c.behaviour, s)
    && c.recipe == RecipeOf(c.behaviour) && c.template == TemplateOf(c.behaviour)
    && (c.countThreshold.Some? <==> c.recipe.SequenceThenTrigger?)
    && (c.distinctThreshold.Some? <==> c.recipe.DistinctCountWithinWindow?)
    && (c.timeWindowSeconds.Some? <==> Windowed(c.behaviour))
    && (Windowed(c.behaviour) ==> StatesCount(c.behaviour, s, ThresholdOf(c).value) && StatesWindow(s, c.timeWindowSeconds.value))
  }

  /** A rule, or the refusal with the validator's issues. */
  datatype BuildResult = Built(rule: Compiled) | BuildError(issues: seq<Issue>)

  method CompileSpec(doc: Option<Spec>) returns (r: BuildResult)
    ensures r.Built? <==> doc.Some? && Named(doc.value).Some? && Acceptable(Named(doc.value).value, doc.value)
    ensures r.Built? ==> CompilesTo(doc.value, r.rule)
    ensures r.BuildError? ==> r.issues != []
  {
    var v := ValidateSpec(doc);
    if !v.ok { return BuildError(v.issues); }
    var id := v.behaviour.value;
    var c := Compiled(id, RecipeOf(id), TemplateOf(id), None, None, None);
    if RecipeOf(id).SequenceThenTrigger? {
      c := c.(countThreshold := v.count, timeWindowSeconds := v.windowSeconds);
    } else if RecipeOf(id).DistinctCountWithinWindow? {
      c := c.(distinctThreshold := v.count, timeWindowSeconds := v.windowSeconds);
    }
    return Built(c);
  }

  /** Compilation is a function of the spec, and its numbers are always inside the validated ranges. */
  lemma {:induction false} CompiledNumbers(s: Spec, c: Compiled, d: Compiled)
    requires CompilesTo(s, c) && CompilesTo(s, d)
    ensures c == d
    ensures Windowed(c.behaviour) ==> 1 <= ThresholdOf(c).value <= MAX_COUNT && 1 <= c.timeWindowSeconds.value <= MAX_WINDOW_SECONDS
    ensures c.recipe.DistinctCountWithinWindow? ==> ThresholdOf(c).value >= 2
  {
    if Windowed(c.behaviour) {
      StatedOnce(c.behaviour, s, ThresholdOf(c).value, ThresholdOf(d).value, c.timeWindowSeconds.value, d.timeWindowSeconds.value);
    }
  }
}
