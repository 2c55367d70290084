/** Refining a rule: the analyst's numbers put into the passage's own spec (`refine_rule_version` in sentinelforge/service/workflow.py). */
module Refinement {
  import opened Ordering
  import opened Behaviours
  import opened Validation

  /** New values for the count, the window in seconds, or both. */
  datatype Overrides = Overrides(count: Option<Json>, windowSeconds: Option<Json>)

  function ConditionsOf(s: Spec): Conditions { if s.conditions.Present? then s.conditions.value else Conditions(Absent, Absent) }

  function WithCount(s: Spec, id: Id, value: Json): Spec {
    var c := ConditionsOf(s);
    var block := if c.count.Present? then c.count.value.(value := value)
                 else CountBlock(value, SemanticsJson(Counts(id)), Some(Text("gte")));
    s.(conditions := Present(c.(count := Present(block))), threshold := Present(map[AliasKey(id) := value]))
  }

  function WithWindow(s: Spec, amount: Json): Spec {
    s.(conditions := Present(ConditionsOf(s).(window := Present(WindowBlock(amount, Text("seconds"))))),
       timeWindow := Present(TimeWindow(Some(amount), Text("seconds"), false)))
  }

  function Overridden(s: Spec, id: Id, o: Overrides): Spec {
    var counted := if o.count.Some? then WithCount(s, id, o.count.value) else s;
    if o.windowSeconds.Some? then WithWindow(counted, o.windowSeconds.value) else counted
  }

  /** A whole number the rule may compare a count with. */
  predicate CountAllowed(id: Id, value: Json, n: int) {
    NumberIn(value, n as real) && 1 <= n <= MAX_COUNT && (RecipeOf(id).DistinctCountWithinWindow? ==> n >= 2)
  }

  predicate WindowAllowed(amount: Json, secs: int) { ComesTo(amount, Text("seconds"), secs) && 1 <= secs <= MAX_WINDOW_SECONDS }

  lemma {:induction false} CountedStates(s: Spec, id: Id, value: Json, n: int)
    requires Windowed(id) && NoneMalformed(s)
    requires ConditionsCount(s.conditions).Present? ==>
               var c := ConditionsCount(s.conditions).value;
               c.semantics == SemanticsJson(Counts(id)) && (c.comparator == None || c.comparator == Some(Text("gte")))
    ensures StatesCount(id, WithCount(s, id, value), n) <==> CountAllowed(id, value, n)
    ensures forall secs :: StatesWindow(WithCount(s, id, value), secs) <==> StatesWindow(s, secs)
    ensures NoneMalformed(WithCount(s, id, value)) && Named(WithCount(s, id, value)) == Named(s)
  {
    var after := WithCount(s, id, value);
    assert after.threshold.value.Keys == {AliasKey(id)};
    assert ConditionsWindow(after.conditions) == ConditionsWindow(s.conditions);
  }

  lemma {:induction false} WindowedStates(s: Spec, id: Id, amount: Json, secs: int)
    requires NoneMalformed(s)
    ensures StatesWindow(WithWindow(s, amount), secs) <==> WindowAllowed(amount, secs)
    ensures forall n :: StatesCount(id, WithWindow(s, amount), n) <==> StatesCount(id, s, n)
    ensures NoneMalformed(WithWindow(s, amount)) && Named(WithWindow(s, amount)) == Named(s)
  {
    var after := WithWindow(s, amount);
    assert ConditionsCount(after.conditions) == ConditionsCount(s.conditions);
  }

  predicate CountFits(id: Id, o: Overrides, n: int, was: int) { if o.count.Some? then CountAllowed(id, o.count.value, n) else n == was }

  predicate WindowFits(o: Overrides, secs: int, was: int) { if o.windowSeconds.Some? then WindowAllowed(o.windowSeconds.value, secs) else secs == was }

  lemma {:induction false} OverriddenCounts(s: Spec, id: Id, o: Overrides, m: int, n: int)
    requires Windowed(id) && NoneMalformed(s) && StatesCount(id, s, m) && (exists secs :: StatesWindow(s, secs))
    ensures StatesCount(id, Overridden(s, id, o), n) <==> CountFits(id, o, n, m)
    ensures NoneMalformed(Overridden(s, id, o)) && Named(Overridden(s, id, o)) == Named(s)
  {
    var secs :| StatesWindow(s, secs);
    var counted := if o.count.Some? then WithCount(s, id, o.count.value) else s;
    if o.count.Some? { CountedStates(s, id, o.count.value, n); } else if StatesCount(id, s, n) { StatedOnce(id, s, m, n, secs, secs); }
    if o.windowSeconds.Some? { WindowedStates(counted, id, o.windowSeconds.value, secs); }
  }

  lemma {:induction false} OverriddenWindows(s: Spec, id: Id, o: Overrides, m: int, was: int, secs: int)
    requires Windowed(id) && NoneMalformed(s) && StatesCount(id, s, m) && StatesWindow(s, was)
    ensures StatesWindow(Overridden(s, id, o), secs) <==> WindowFits(o, secs, was)
  {
    var counted := if o.count.Some? then WithCount(s, id, o.count.value) else s;
    if o.count.Some? { CountedStates(s, id, o.count.value, m); }
    if o.windowSeconds.Some? { WindowedStates(counted, id, o.windowSeconds.value, secs); }
    else if StatesWindow(s, secs) { StatedOnce(id, s, m, m, was, secs); }
  }

  /** A refined spec compiles exactly when each new number is one a rule may have. */
  lemma {:induction false} RefinementCompiles(s: Spec, o: Overrides, c: Compiled)
    requires CompilesTo(s, c) && Windowed(c.behaviour)
    ensures Named(Overridden(s, c.behaviour, o)) == Some(c.behaviour)
    ensures Acceptable(c.behaviour, Overridden(s, c.behaviour, o)) <==>
              (o.count.Some? ==> exists n :: CountAllowed(c.behaviour, o.count.value, n))
              && (o.windowSeconds.Some? ==> exists secs :: WindowAllowed(o.windowSeconds.value, secs))
  {
    var id, m, was, after := c.behaviour, ThresholdOf(c).value, c.timeWindowSeconds.value, Overridden(s, c.behaviour, o);
    forall n ensures StatesCount(id, after, n) <==> CountFits(id, o, n, m) { OverriddenCounts(s, id, o, m, n); }
    forall secs ensures StatesWindow(after, secs) <==> WindowFits(o, secs, was) { OverriddenWindows(s, id, o, m, was, secs); }
    OverriddenCounts(s, id, o, m, m);
    if o.count.None? { assert StatesCount(id, after, m); }
    if o.windowSeconds.None? { assert StatesWindow(after, was); }
    WindowedIff(id, after);
    if o.count.Some? && (exists n :: CountAllowed(id, o.count.value, n)) {
      var n :| CountAllowed(id, o.count.value, n);
      assert StatesCount(id, after, n);
    }
    if o.windowSeconds.Some? && (exists secs :: WindowAllowed(o.windowSeconds.value, secs)) {
      var secs :| WindowAllowed(o.windowSeconds.value, secs);
      assert StatesWindow(after, secs);
    }
  }

  lemma {:induction false} WindowedIff(id: Id, s: Spec)
    requires Windowed(id) && NoneMalformed(s)
    ensures Acceptable(id, s) <==> (exists n :: StatesCount(id, s, n)) && (exists secs :: StatesWindow(s, secs))
  {}

  /** Refining changes the overridden numbers to the analyst's and nothing else about the rule. */
  lemma {:induction false} RefinementOnly(s: Spec, o: Overrides, c: Compiled, d: Compiled)
    requires CompilesTo(s, c) && Windowed(c.behaviour) && CompilesTo(Overridden(s, c.behaviour, o), d)
    ensures d.behaviour == c.behaviour && d.recipe == c.recipe && d.template == c.template
    ensures CountFits(c.behaviour, o, ThresholdOf(d).value, ThresholdOf(c).value)
    ensures WindowFits(o, d.timeWindowSeconds.value, c.timeWindowSeconds.value)
    ensures o == Overrides(None, None) ==> d == c
  {
    var id, m, was := c.behaviour, ThresholdOf(c).value, c.timeWindowSeconds.value;
    OverriddenCounts(s, id, o, m, m);
    assert d.behaviour == id;
    OverriddenCounts(s, id, o, m, ThresholdOf(d).value);
    OverriddenWindows(s, id, o, m, was, d.timeWindowSeconds.value);
  }

  datatype Rebuilt = Refined(rule: Compiled) | InvalidRequest

  /** The rule rebuilt from the passage's spec with the analyst's numbers: refused for a policy rule and for numbers a rule may not have. */
  method Rebuild(s: Spec, c: Compiled, o: Overrides) returns (r: Rebuilt)
    requires CompilesTo(s, c)
    ensures r.Refined? <==>
              && Windowed(c.behaviour) && o != Overrides(None, None)
              && (o.count.Some? ==> exists n :: CountAllowed(c.behaviour, o.count.value, n))
              && (o.windowSeconds.Some? ==> exists secs :: WindowAllowed(o.windowSeconds.value, secs))
    ensures r.Refined? ==>
              && CompilesTo(Overridden(s, c.behaviour, o), r.rule)
              && r.rule.behaviour == c.behaviour && r.rule.template == c.template
              && CountFits(c.behaviour, o, ThresholdOf(r.rule).value, ThresholdOf(c).value)
              && WindowFits(o, r.rule.timeWindowSeconds.value, c.timeWindowSeconds.value)
  {
    if !Windowed(c.behaviour) || o == Overrides(None, None) { return InvalidRequest; }
    RefinementCompiles(s, o, c);
    var spec := s;
    if o.count.Some? { spec := WithCount(spec, c.behaviour, o.count.value); }
    if o.windowSeconds.Some? { spec := WithWindow(spec, o.windowSeconds.value); }
    var built := CompileSpec(Some(spec));
    if built.BuildError? { return InvalidRequest; }
    RefinementOnly(s, o, c, built.rule);
    return Refined(built.rule);
  }
}
