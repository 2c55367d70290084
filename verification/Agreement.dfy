/** The two independently written detectors agree: on whole-second timestamps, distinct event ids, non-null keys and at most
    one fully populated unversioned policy row per account, the reference engine and the label-checking detector report the
    same groups, triggers and statuses for all five rules. */
module Agreement {
  import opened Ordering
  import opened Detection
  import opened Grouping
  import D = RefDetect
  import E = RefEngine
  import Laws = RefEngineLaws
  import P = PolicyCompare

  const MICROS: int := 1_000_000

  // ------------------------------------------------------------------ the same log in two forms

  function TypeText(t: D.EventType): string { if t.LoginFailure? then "login_failure" else "login_success" }

  function MethodValue(m: Option<string>): Value { if m.Some? then Str(m.value) else Null }

  function MfaValue(m: Option<bool>): Value { if m.Some? then Bool(m.value) else Null }

  /** The columns both detectors read, apart from the timestamp. */
  predicate SameFields(r: E.Row, e: D.Event) {
    && E.Get(r, "event_id") == Str(e.id) && E.Get(r, "account_id") == Str(e.account) && E.Get(r, "source_host") == Str(e.host)
    && E.Get(r, "event_type") == Str(TypeText(e.etype))
    && E.Get(r, "auth_method") == MethodValue(e.method_) && E.Get(r, "mfa_used") == MfaValue(e.mfa)
  }

  /** `r` is the JSON row of event `e`, whose timestamp falls on a whole second. */
  predicate Represents(r: E.Row, e: D.Event) {
    && SameFields(r, e)
    && E.ParseMicros(E.Get(r, "timestamp")).Some? && E.ParseMicros(E.Get(r, "timestamp")).value == e.sec * MICROS
  }

  predicate SameLog(rows: seq<E.Row>, events: seq<D.Event>) {
    |rows| == |events| && forall i | 0 <= i < |rows| :: Represents(rows[i], events[i])
  }

  predicate DistinctEventIds(events: seq<D.Event>) { forall i, j | 0 <= i < j < |events| :: events[i].id != events[j].id }

  /** `k` is the cleaned row of event `e`. */
  predicate Cleaned(k: E.Clean, e: D.Event) { SameFields(k.row, e) && k.micros == e.sec * MICROS }

  predicate CleanedLog(kept: seq<E.Clean>, events: seq<D.Event>) {
    |kept| == |events| && forall i | 0 <= i < |kept| :: Cleaned(kept[i], events[i])
  }

  predicate IsKey(column: string) { column == "account_id" || column == "source_host" }

  /** Key columns that every event fills. */
  predicate FilledKeys(keys: seq<string>) { forall i | 0 <= i < |keys| :: IsKey(keys[i]) }

  lemma {:induction false} NothingMissing(r: E.Row, e: D.Event, keys: seq<string>)
    requires SameFields(r, e) && FilledKeys(keys)
    ensures E.FirstNull(r, keys) == None
  {
    if keys != [] {
      assert IsKey(keys[0]);
      NothingMissing(r, e, keys[1..]);
    }
  }

  lemma {:induction false} KeptNext(rows: seq<E.Row>, r: E.Row, e: D.Event, keys: seq<string>)
    requires Represents(r, e) && FilledKeys(keys)
    ensures E.Kept(rows + [r], keys) == E.Kept(rows, keys) + [E.Clean(r, e.sec * MICROS)]
  {
    assert (rows + [r])[..|rows|] == rows;
    NothingMissing(r, e, keys);
    assert E.Reason(r, keys) == None;
  }

  lemma {:induction false} CleanedSnoc(kept: seq<E.Clean>, events: seq<D.Event>, k: E.Clean, e: D.Event)
    requires CleanedLog(kept, events) && Cleaned(k, e)
    ensures CleanedLog(kept + [k], events + [e])
  {}

  lemma {:induction false} AllKeptNext(rows: seq<E.Row>, events: seq<D.Event>, keys: seq<string>, r: E.Row, e: D.Event)
    requires CleanedLog(E.Kept(rows, keys), events) && Represents(r, e) && FilledKeys(keys)
    ensures CleanedLog(E.Kept(rows + [r], keys), events + [e])
  {
    KeptNext(rows, r, e, keys);
    CleanedSnoc(E.Kept(rows, keys), events, E.Clean(r, e.sec * MICROS), e);
  }

  /** Nothing is quarantined. */
  lemma {:induction false} AllKept(rows: seq<E.Row>, events: seq<D.Event>, keys: seq<string>)
    requires SameLog(rows, events) && FilledKeys(keys)
    ensures CleanedLog(E.Kept(rows, keys), events)
    decreases |rows|
  {
    if rows != [] {
      var before, log, r, e := SplitLog(rows, events);
      AllKept(before, log, keys);
      AllKeptNext(before, log, keys, r, e);
    }
  }

  lemma {:induction false} SplitLast<T>(s: seq<T>)
    requires s != []
    ensures s == s[..|s| - 1] + [s[|s| - 1]]
  {}

  lemma {:induction false} SplitLog(rows: seq<E.Row>, events: seq<D.Event>) returns (before: seq<E.Row>, log: seq<D.Event>, r: E.Row, e: D.Event)
    requires SameLog(rows, events) && rows != []
    ensures rows == before + [r] && events == log + [e] && SameLog(before, log) && Represents(r, e)
  {
    var k := |rows| - 1;
    before, log, r, e := rows[..k], events[..k], rows[k], events[k];
    SplitLast(rows);
    SplitLast(events);
  }

  lemma {:induction false} DistinctAt(events: seq<D.Event>, i: int, j: int)
    ensures DistinctEventIds(events) && 0 <= i < |events| && 0 <= j < |events| && events[i].id == events[j].id ==> i == j
  {}

  lemma {:induction false} SameIdSame(kept: seq<E.Clean>, events: seq<D.Event>, a: E.Clean, b: E.Clean)
    requires CleanedLog(kept, events) && DistinctEventIds(events) && a in kept && b in kept && E.Id(a) == E.Id(b)
    ensures a == b
  {
    var i :| 0 <= i < |kept| && kept[i] == a;
    var j :| 0 <= j < |kept| && kept[j] == b;
    assert Cleaned(kept[i], events[i]) && Cleaned(kept[j], events[j]);
    DistinctAt(events, i, j);
  }

  /** Nothing is dropped as a duplicate. */
  lemma {:induction false} AllSurvive(kept: seq<E.Clean>, events: seq<D.Event>)
    requires CleanedLog(kept, events) && DistinctEventIds(events)
    ensures E.Survivors(kept) == Members(kept)
  {
    forall c | c in kept ensures c in E.Survivors(kept) {
      var copies := WithKey(kept, E.Id, E.Id(c));
      InWithKey(kept, E.Id, E.Id(c), c);
      var m := E.FirstMin(copies);
      InWithKey(kept, E.Id, E.Id(c), m);
      SameIdSame(kept, events, m, c);
    }
  }

  /** The cleaned row of an event of the log. */
  lemma {:induction false} CleanOf(kept: seq<E.Clean>, events: seq<D.Event>, e: D.Event) returns (k: E.Clean)
    requires CleanedLog(kept, events) && e in events
    ensures k in kept && Cleaned(k, e)
  {
    var i :| 0 <= i < |events| && events[i] == e;
    k := kept[i];
  }

  lemma {:induction false} EventOf(kept: seq<E.Clean>, events: seq<D.Event>, k: E.Clean) returns (e: D.Event)
    requires CleanedLog(kept, events) && k in kept
    ensures e in events && Cleaned(k, e)
  {
    var i :| 0 <= i < |kept| && kept[i] == k;
    e := events[i];
  }

  // ------------------------------------------------------------------ B1

  function SequenceRule(name: string, p: D.Params): E.SequenceRule {
    E.SequenceRule(name, "account_id", "login_failure", "login_success", p.t1, p.w1)
  }

  predicate Failing(f: E.Clean, g: Value, lo: int, hi: int) {
    E.TypeOf(f) == Str("login_failure") && E.Get(f.row, "account_id") == g && lo * MICROS <= f.micros <= hi * MICROS
  }

  function FailingIn(kept: seq<E.Clean>, g: Value, lo: int, hi: int): set<E.Clean> { set f | f in kept && Failing(f, g, lo, hi) }

  lemma {:induction false} TypeTexts()
    ensures TypeText(D.LoginFailure) != TypeText(D.LoginSuccess)
  {
    assert "login_failure"[6] != "login_success"[6];
  }

  lemma {:induction false} FailingIs(k: E.Clean, e: D.Event, g: Value, lo: int, hi: int)
    requires Cleaned(k, e)
    ensures Failing(k, g, lo, hi) <==> e.etype.LoginFailure? && Str(e.account) == g && lo <= e.sec <= hi
  {
    TypeTexts();
  }

  lemma {:induction false} NewLast(kept: seq<E.Clean>, events: seq<D.Event>)
    requires CleanedLog(kept, events) && DistinctEventIds(events) && kept != []
    ensures CleanedLog(kept[..|kept| - 1], events[..|events| - 1]) && DistinctEventIds(events[..|events| - 1])
    ensures kept[|kept| - 1] !in kept[..|kept| - 1]
  {
    var n := |kept| - 1;
    forall i | 0 <= i < n ensures kept[i] != kept[n] {
      assert Cleaned(kept[i], events[i]) && Cleaned(kept[n], events[n]);
      DistinctAt(events, i, n);
    }
  }

  lemma {:induction false} FailingSnoc(rest: seq<E.Clean>, k: E.Clean, g: Value, lo: int, hi: int)
    requires k !in rest
    ensures |FailingIn(rest + [k], g, lo, hi)| == |FailingIn(rest, g, lo, hi)| + if Failing(k, g, lo, hi) then 1 else 0
  {
    if Failing(k, g, lo, hi) {
      assert FailingIn(rest + [k], g, lo, hi) == FailingIn(rest, g, lo, hi) + {k};
    } else {
      assert FailingIn(rest + [k], g, lo, hi) == FailingIn(rest, g, lo, hi);
    }
  }

  /** The engine's set of failing rows is as large as the detector's count. */
  lemma {:induction false} SameCount(kept: seq<E.Clean>, events: seq<D.Event>, g: Value, lo: int, hi: int)
    requires CleanedLog(kept, events) && DistinctEventIds(events)
    ensures |FailingIn(kept, g, lo, hi)| == Count(D.FailureObs(events), g, lo, hi)
  {
    if kept != [] {
      var n := |kept| - 1;
      NewLast(kept, events);
      SameCount(kept[..n], events[..n], g, lo, hi);
      FailingSnoc(kept[..n], kept[n], g, lo, hi);
      D.FailureObsSnoc(events[..n], events[n], g, lo, hi);
      FailingIs(kept[n], events[n], g, lo, hi);
      SplitLast(kept);
      SplitLast(events);
    }
  }

  lemma {:induction false} CountedIsFailing(name: string, p: D.Params, kept: seq<E.Clean>, e: D.Event, k: E.Clean)
    requires Cleaned(k, e)
    ensures E.Counted(SequenceRule(name, p), Members(kept), k) == FailingIn(kept, Str(e.account), e.sec - p.w1, e.sec)
  {
    assert k.micros - p.w1 * MICROS == (e.sec - p.w1) * MICROS;
  }

  /** Some alert of the report names this group and trigger. */
  ghost predicate Names(alerts: iset<E.Alert>, g: Value, trigger: Value) {
    exists a :: a in alerts && a.groupKey == g && a.trigger == trigger
  }

  lemma {:induction false} SequenceFires(name: string, p: D.Params, kept: seq<E.Clean>, events: seq<D.Event>, e: D.Event, k: E.Clean)
    requires CleanedLog(kept, events) && DistinctEventIds(events) && k in kept && e in events && Cleaned(k, e)
    ensures (E.TypeOf(k) == Str("login_success") && |E.Counted(SequenceRule(name, p), Members(kept), k)| >= p.t1) <==> D.FiresB1(events, p, e)
  {
    CountedIsFailing(name, p, kept, e, k);
    SameCount(kept, events, Str(e.account), e.sec - p.w1, e.sec);
    TypeTexts();
  }

  lemma {:induction false} AgreeB1(name: string, p: D.Params, policy: D.Policy, kept: seq<E.Clean>, events: seq<D.Event>, g: string, id: string)
    requires CleanedLog(kept, events) && DistinctEventIds(events)
    ensures Names(E.SequenceAlerts(SequenceRule(name, p), Members(kept)), Str(g), Str(id)) <==>
              D.Alert(D.B1, g, id, D.Alerting) in D.AlertsOf(events, policy, p, D.B1)
  {
    var c, s := SequenceRule(name, p), Members(kept);
    D.AboutAlertsOf(events, policy, p, D.B1);
    if Names(E.SequenceAlerts(c, s), Str(g), Str(id)) {
      var a :| a in E.SequenceAlerts(c, s) && a.groupKey == Str(g) && a.trigger == Str(id);
      var k :| E.SequenceAlert(c, s, k, a);
      var e := EventOf(kept, events, k);
      SequenceFires(name, p, kept, events, e, k);
      assert D.AlertAbout(events, policy, p, D.B1, e) == D.Alert(D.B1, g, id, D.Alerting);
    }
    if D.Alert(D.B1, g, id, D.Alerting) in D.AlertsOf(events, policy, p, D.B1) {
      var e :| e in events && D.StatusOf(events, policy, p, D.B1, e) != D.NoAlert
               && D.AlertAbout(events, policy, p, D.B1, e) == D.Alert(D.B1, g, id, D.Alerting);
      var k := CleanOf(kept, events, e);
      SequenceFires(name, p, kept, events, e, k);
      KeptDistinct(kept, events);
      var a := Laws.SequenceAlertFor(c, s, k);
    }
  }

  lemma {:induction false} KeptDistinct(kept: seq<E.Clean>, events: seq<D.Event>)
    requires CleanedLog(kept, events) && DistinctEventIds(events)
    ensures E.DistinctIds(Members(kept))
  {
    forall a, b | a in Members(kept) && b in Members(kept) && E.Id(a) == E.Id(b) ensures a == b { SameIdSame(kept, events, a, b); }
  }

  // ------------------------------------------------------------------ B2 and B3: seconds and microseconds

  function InMicros(o: Obs): Obs { Obs(o.id, o.at * MICROS, o.group, o.value) }

  function AllInMicros(s: set<Obs>): set<Obs> { set o | o in s :: InMicros(o) }

  lemma {:induction false} SameValues(s: set<Obs>, g: Value, lo: int, hi: int)
    ensures Values(AllInMicros(s), g, lo * MICROS, hi * MICROS) == Values(s, g, lo, hi)
  {
    forall o | o in s && Inside(o, g, lo, hi) ensures o.value in Values(AllInMicros(s), g, lo * MICROS, hi * MICROS) {
      assert InMicros(o) in AllInMicros(s);
    }
  }

  lemma {:induction false} SameBreach(s: set<Obs>, g: Value, t: int, w: int, n: int)
    ensures Breach(AllInMicros(s), g, t * MICROS, w * MICROS, n) <==> Breach(s, g, t, w, n)
  {
    SameValues(s, g, t - w, t);
    assert t * MICROS - w * MICROS == (t - w) * MICROS;
  }

  lemma {:induction false} SameEarlier(p: Obs, q: Obs)
    ensures Earlier(InMicros(p), InMicros(q)) <==> Earlier(p, q)
    ensures InMicros(p) == InMicros(q) ==> p == q
  {}

  lemma {:induction false} SamePrecedes(s: set<Obs>, p: Obs, o: Obs)
    requires p in s && o in s
    ensures Precedes(AllInMicros(s), InMicros(p), InMicros(o)) <==> Precedes(s, p, o)
  {
    SameEarlier(p, o);
    if Precedes(AllInMicros(s), InMicros(p), InMicros(o)) {
      forall q | q in s && q.group == o.group ensures !(Earlier(p, q) && Earlier(q, o)) {
        SameEarlier(p, q);
        SameEarlier(q, o);
        assert InMicros(q) in AllInMicros(s);
      }
    }
    if Precedes(s, p, o) {
      forall m | m in AllInMicros(s) && m.group == o.group ensures !(Earlier(InMicros(p), m) && Earlier(m, InMicros(o))) {
        var q :| q in s && InMicros(q) == m;
        SameEarlier(p, q);
        SameEarlier(q, o);
      }
    }
  }

  /** Measuring time in microseconds instead of seconds moves no rising edge. */
  lemma {:induction false} SameEdge(s: set<Obs>, o: Obs, w: int, n: int)
    requires o in s
    ensures RisingEdge(AllInMicros(s), InMicros(o), w * MICROS, n) <==> RisingEdge(s, o, w, n)
  {
    SameBreach(s, o.group, o.at, w, n);
    if RisingEdge(AllInMicros(s), InMicros(o), w * MICROS, n) {
      forall p | p in s && Precedes(s, p, o) ensures !Breach(s, p.group, p.at, w, n) {
        SamePrecedes(s, p, o);
        SameBreach(s, p.group, p.at, w, n);
        assert InMicros(p) in AllInMicros(s);
      }
    }
    if RisingEdge(s, o, w, n) {
      forall m | m in AllInMicros(s) && Precedes(AllInMicros(s), m, InMicros(o))
        ensures !Breach(AllInMicros(s), m.group, m.at, w * MICROS, n)
      {
        var p :| p in s && InMicros(p) == m;
        SamePrecedes(s, p, o);
        SameBreach(s, p.group, p.at, w, n);
      }
    }
  }

  function Column(f: D.Field): string { if f.Account? then "account_id" else "source_host" }

  function DistinctRule(name: string, t: D.EventType, g: D.Field, v: D.Field, n: int, w: int): E.DistinctRule {
    E.DistinctRule(name, Column(g), Column(v), TypeText(t), n, w)
  }

  lemma {:induction false} SameObs(c: E.DistinctRule, t: D.EventType, g: D.Field, v: D.Field, k: E.Clean, e: D.Event)
    requires c.groupingKey == Column(g) && c.distinctField == Column(v) && c.filterType == TypeText(t) && Cleaned(k, e)
    ensures E.ObsOf(c, k) == InMicros(D.ObsOf(e, g, v))
    ensures E.TypeOf(k) == Str(c.filterType) <==> e.etype == t
  {
    TypeTexts();
  }

  /** Both detectors watch the same observations. */
  lemma {:induction false} SameObservations(c: E.DistinctRule, t: D.EventType, g: D.Field, v: D.Field, kept: seq<E.Clean>, events: seq<D.Event>)
    requires c.groupingKey == Column(g) && c.distinctField == Column(v) && c.filterType == TypeText(t)
    requires CleanedLog(kept, events)
    ensures E.Observations(c, Members(kept)) == AllInMicros(D.TypeObs(events, t, g, v))
  {
    D.AboutTypeObs(events, t, g, v);
    var engine, detector := E.Observations(c, Members(kept)), D.TypeObs(events, t, g, v);
    forall o | o in engine ensures o in AllInMicros(detector) {
      var k :| k in E.Matching(Members(kept), c.filterType) && E.ObsOf(c, k) == o;
      var e := EventOf(kept, events, k);
      SameObs(c, t, g, v, k, e);
      assert D.ObsOf(e, g, v) in detector;
    }
    forall o | o in AllInMicros(detector) ensures o in engine {
      var q :| q in detector && InMicros(q) == o;
      var e :| e in events && e.etype == t && D.ObsOf(e, g, v) == q;
      var k := CleanOf(kept, events, e);
      SameObs(c, t, g, v, k, e);
      assert k in E.Matching(Members(kept), c.filterType);
    }
  }

  lemma {:induction false} EdgeAgrees(c: E.DistinctRule, t: D.EventType, g: D.Field, v: D.Field, kept: seq<E.Clean>, events: seq<D.Event>,
                                      e: D.Event, k: E.Clean)
    requires c.groupingKey == Column(g) && c.distinctField == Column(v) && c.filterType == TypeText(t)
    requires CleanedLog(kept, events) && k in kept && e in events && Cleaned(k, e)
    ensures (E.TypeOf(k) == Str(c.filterType) && RisingEdge(E.Observations(c, Members(kept)), E.ObsOf(c, k), c.windowSeconds * MICROS, c.threshold))
            <==> e.etype == t && RisingEdge(D.TypeObs(events, t, g, v), D.ObsOf(e, g, v), c.windowSeconds, c.threshold)
  {
    SameObs(c, t, g, v, k, e);
    if e.etype == t {
      SameObservations(c, t, g, v, kept, events);
      D.AboutTypeObs(events, t, g, v);
      SameEdge(D.TypeObs(events, t, g, v), D.ObsOf(e, g, v), c.windowSeconds, c.threshold);
    }
  }

  lemma {:induction false} DistinctAlertFor(c: E.DistinctRule, s: set<E.Clean>, k: E.Clean)
    requires E.DistinctIds(s) && k in E.Matching(s, c.filterType)
    requires RisingEdge(E.Observations(c, s), E.ObsOf(c, k), c.windowSeconds * MICROS, c.threshold)
    ensures Names(E.DistinctAlerts(c, s), E.Get(k.row, c.groupingKey), E.Id(k))
  {
    var inside := Laws.PeersInOrder(E.Peers(c, s, k));
    var a := E.MakeAlert(c.behaviour, k, c.groupingKey, c.windowSeconds * MICROS, |E.Shown(c, s, k)|, inside);
    E.PeerAlertIs(c, s, k, inside, a);
    assert E.DistinctAlert(c, s, k, a);
  }

  /** The distinct-count rules agree, whichever field groups and whichever is counted. */
  lemma {:induction false} EngineNamed(name: string, b: D.Behaviour, t: D.EventType, g: D.Field, v: D.Field, n: int, w: int,
                                       kept: seq<E.Clean>, events: seq<D.Event>, group: string, id: string)
    requires CleanedLog(kept, events) && DistinctEventIds(events)
    requires Names(E.DistinctAlerts(DistinctRule(name, t, g, v, n, w), Members(kept)), Str(group), Str(id))
    ensures D.Alert(b, group, id, D.Alerting) in D.EdgeAlerts(events, b, t, g, v, w, n)
  {
    var c, s := DistinctRule(name, t, g, v, n, w), Members(kept);
    var a :| a in E.DistinctAlerts(c, s) && a.groupKey == Str(group) && a.trigger == Str(id);
    var k :| E.DistinctAlert(c, s, k, a);
    var e := EventOf(kept, events, k);
    EdgeAgrees(c, t, g, v, kept, events, e, k);
    assert D.Alert(b, group, id, D.Alerting) == D.Alert(b, D.FieldOf(e, g), e.id, D.Alerting);
  }

  lemma {:induction false} DetectorNamed(name: string, b: D.Behaviour, t: D.EventType, g: D.Field, v: D.Field, n: int, w: int,
                                         kept: seq<E.Clean>, events: seq<D.Event>, group: string, id: string)
    requires CleanedLog(kept, events) && DistinctEventIds(events)
    requires D.Alert(b, group, id, D.Alerting) in D.EdgeAlerts(events, b, t, g, v, w, n)
    ensures Names(E.DistinctAlerts(DistinctRule(name, t, g, v, n, w), Members(kept)), Str(group), Str(id))
  {
    var c, s := DistinctRule(name, t, g, v, n, w), Members(kept);
    var e :| e in events && e.etype == t && RisingEdge(D.TypeObs(events, t, g, v), D.ObsOf(e, g, v), w, n)
             && D.Alert(b, D.FieldOf(e, g), e.id, D.Alerting) == D.Alert(b, group, id, D.Alerting);
    var k := CleanOf(kept, events, e);
    EdgeAgrees(c, t, g, v, kept, events, e, k);
    KeptDistinct(kept, events);
    DistinctAlertFor(c, s, k);
  }

  lemma {:induction false} AgreeDistinct(name: string, b: D.Behaviour, t: D.EventType, g: D.Field, v: D.Field, n: int, w: int,
                                         kept: seq<E.Clean>, events: seq<D.Event>, group: string, id: string)
    requires CleanedLog(kept, events) && DistinctEventIds(events)
    ensures Names(E.DistinctAlerts(DistinctRule(name, t, g, v, n, w), Members(kept)), Str(group), Str(id)) <==>
              D.Alert(b, group, id, D.Alerting) in D.EdgeAlerts(events, b, t, g, v, w, n)
  {
    if Names(E.DistinctAlerts(DistinctRule(name, t, g, v, n, w), Members(kept)), Str(group), Str(id)) {
      EngineNamed(name, b, t, g, v, n, w, kept, events, group, id);
    }
    if D.Alert(b, group, id, D.Alerting) in D.EdgeAlerts(events, b, t, g, v, w, n) {
      DetectorNamed(name, b, t, g, v, n, w, kept, events, group, id);
    }
  }

  // ------------------------------------------------------------------ B4 and B5

  predicate PolicyRepresents(r: E.Row, q: D.PolicyRow) {
    && E.Get(r, "account_id") == Str(q.account) && E.Get(r, "expected_auth_method") == Str(q.expectedMethod)
    && E.Get(r, "mfa_required") == Bool(q.mfaRequired) && "effective_from" !in r
  }

  /** The same table in two forms: fully populated, unversioned, one row per account. */
  predicate SamePolicy(rows: seq<E.Row>, records: seq<D.PolicyRow>) {
    && |rows| == |records| && (forall i | 0 <= i < |rows| :: PolicyRepresents(rows[i], records[i]))
    && forall i, j | 0 <= i < j < |records| :: records[i].account != records[j].account
  }

  lemma {:induction false} RecordOf(records: seq<D.PolicyRow>, account: string) returns (i: nat)
    requires account in D.PolicyMap(records)
    ensures i < |records| && records[i].account == account && D.PolicyMap(records)[account] == records[i]
  {
    var n := |records| - 1;
    if records[n].account == account { i := n; } else { i := RecordOf(records[..n], account); }
  }

  lemma {:induction false} RecordListed(records: seq<D.PolicyRow>, i: nat)
    requires i < |records|
    ensures records[i].account in D.PolicyMap(records)
  {
    var n := |records| - 1;
    if i < n { RecordListed(records[..n], i); }
  }

  /** The rows the engine's join finds are the row the detector's dictionary holds. */
  lemma {:induction false} RowsInForce(rows: seq<E.Row>, records: seq<D.PolicyRow>, account: string, at: int)
    requires SamePolicy(rows, records)
    ensures var found := P.InForce(Members(rows), Str(account), at);
            if account in D.PolicyMap(records)
            then exists r :: found == {r} && PolicyRepresents(r, D.PolicyMap(records)[account])
            else found == {}
  {
    var found := P.RowsOf(Members(rows), Str(account));
    assert !P.Versioned(Members(rows));
    if account in D.PolicyMap(records) {
      var i := RecordOf(records, account);
      assert PolicyRepresents(rows[i], records[i]) && rows[i] in Members(rows);
      forall r | r in found ensures r == rows[i] {
        var j :| 0 <= j < |rows| && rows[j] == r;
        assert PolicyRepresents(rows[j], records[j]);
      }
      assert found == {rows[i]};
    } else {
      forall r | r in found ensures false {
        var j :| 0 <= j < |rows| && rows[j] == r;
        assert PolicyRepresents(rows[j], records[j]);
        RecordListed(records, j);
      }
    }
  }

  function StatusIs(s: P.Status): D.Status {
    match s
    case Alerting => D.Alerting
    case NoAlert => D.NoAlert
    case InsufficientContext => D.Insufficient
  }

  function MethodRule(name: string): P.PolicyRule { P.PolicyRule(name, "auth_method", "expected_auth_method", "login_success", true) }

  function MfaRule(name: string): P.PolicyRule { P.PolicyRule(name, "mfa_used", "mfa_required", "login_success", false) }

  lemma {:induction false} JudgeOne(c: P.PolicyRule, r: E.Row, observed: Value)
    requires E.Get(r, c.policyField) != Null
    ensures P.Judge(c, {r}, observed).status ==
            if observed == Null then P.InsufficientContext
            else if P.Violates(c, observed, E.Get(r, c.policyField)) then P.Alerting else P.NoAlert
  {
    assert P.ValuesIn({r}, c.policyField) == {E.Get(r, c.policyField)};
  }

  /** For every success both detectors give the same status under both policy rules. */
  lemma {:induction false} AgreePolicy(name: string, rows: seq<E.Row>, records: seq<D.PolicyRow>, k: E.Clean, e: D.Event)
    requires SamePolicy(rows, records) && Cleaned(k, e) && e.etype == D.LoginSuccess
    ensures StatusIs(P.ResultFor(MethodRule(name), Members(rows), k).verdict.status) == D.StatusB4(D.PolicyMap(records), e)
    ensures StatusIs(P.ResultFor(MfaRule(name), Members(rows), k).verdict.status) == D.StatusB5(D.PolicyMap(records), e)
    ensures P.ResultFor(MethodRule(name), Members(rows), k).groupKey == Str(e.account)
    ensures P.ResultFor(MethodRule(name), Members(rows), k).trigger == Str(e.id)
    ensures P.ResultFor(MfaRule(name), Members(rows), k).groupKey == Str(e.account)
    ensures P.ResultFor(MfaRule(name), Members(rows), k).trigger == Str(e.id)
  {
    RowsInForce(rows, records, e.account, k.micros);
    if e.account in D.PolicyMap(records) {
      var r :| P.InForce(Members(rows), Str(e.account), k.micros) == {r} && PolicyRepresents(r, D.PolicyMap(records)[e.account]);
      JudgeOne(MethodRule(name), r, E.Get(k.row, "auth_method"));
      JudgeOne(MfaRule(name), r, E.Get(k.row, "mfa_used"));
    }
  }

  // ------------------------------------------------------------------ whole reports

  /** The (group, trigger) pairs a report names. */
  ghost predicate Reports(alerts: seq<E.Alert>, g: Value, trigger: Value) {
    exists a :: a in alerts && a.groupKey == g && a.trigger == trigger
  }

  /** The sequence rule: the engine's report and the detector's alerts name the same accounts and triggers. */
  lemma {:induction false} SequenceReportsAgree(name: string, p: D.Params, policy: D.Policy, rows: seq<E.Row>, events: seq<D.Event>,
                                                report: seq<E.Alert>, g: string, id: string)
    requires SameLog(rows, events) && DistinctEventIds(events)
    requires E.AlertList(report, E.SequenceAlerts(SequenceRule(name, p), E.Survivors(E.Kept(rows, ["account_id"]))))
    ensures Reports(report, Str(g), Str(id)) <==> D.Alert(D.B1, g, id, D.Alerting) in D.AlertsOf(events, policy, p, D.B1)
  {
    var kept := E.Kept(rows, ["account_id"]);
    AllKept(rows, events, ["account_id"]);
    AllSurvive(kept, events);
    AgreeB1(name, p, policy, kept, events, g, id);
  }

  /** The two distinct-count rules: the same hosts or accounts and the same triggers. */
  lemma {:induction false} DistinctReportsAgree(name: string, b: D.Behaviour, t: D.EventType, g: D.Field, v: D.Field, n: int, w: int,
                                                rows: seq<E.Row>, events: seq<D.Event>, report: seq<E.Alert>, group: string, id: string)
    requires SameLog(rows, events) && DistinctEventIds(events)
    requires E.AlertList(report, E.DistinctAlerts(DistinctRule(name, t, g, v, n, w), E.Survivors(E.Kept(rows, [Column(g), Column(v)]))))
    ensures Reports(report, Str(group), Str(id)) <==> D.Alert(b, group, id, D.Alerting) in D.EdgeAlerts(events, b, t, g, v, w, n)
  {
    var kept := E.Kept(rows, [Column(g), Column(v)]);
    AllKept(rows, events, [Column(g), Column(v)]);
    AllSurvive(kept, events);
    AgreeDistinct(name, b, t, g, v, n, w, kept, events, group, id);
  }

  /** A listed row is the cleaned form of exactly one event, a success. */
  ghost predicate OneSuccess(k: E.Clean, events: seq<D.Event>) {
    exists e :: SuccessOf(k, events, e) && forall f | f in events && Cleaned(k, f) :: f == e
  }

  predicate SuccessOf(k: E.Clean, events: seq<D.Event>, e: D.Event) { e in events && e.etype.LoginSuccess? && Cleaned(k, e) }

  lemma {:induction false} SameEvent(events: seq<D.Event>, k: E.Clean, e: D.Event, f: D.Event)
    requires DistinctEventIds(events) && e in events && f in events && Cleaned(k, e) && Cleaned(k, f)
    ensures e == f
  {
    var i :| 0 <= i < |events| && events[i] == e;
    var j :| 0 <= j < |events| && events[j] == f;
    DistinctAt(events, i, j);
  }

  /** The rows the policy join lists are the successes, one for one. */
  lemma {:induction false} ListedSuccesses(rows: seq<E.Row>, events: seq<D.Event>, listed: seq<E.Clean>)
    requires SameLog(rows, events) && DistinctEventIds(events)
    requires E.Lists(listed, E.Matching(E.Survivors(E.Kept(rows, ["account_id"])), "login_success"))
    ensures forall e | e in events && e.etype.LoginSuccess? :: exists k :: k in listed && SuccessOf(k, events, e)
    ensures forall k | k in listed :: OneSuccess(k, events)
  {
    var kept := E.Kept(rows, ["account_id"]);
    AllKept(rows, events, ["account_id"]);
    AllSurvive(kept, events);
    forall e | e in events && e.etype.LoginSuccess? ensures exists k :: k in listed && SuccessOf(k, events, e) {
      var k := CleanOf(kept, events, e);
      assert k in E.Matching(Members(kept), "login_success") && k in Members(listed);
    }
    forall k | k in listed ensures OneSuccess(k, events) {
      assert k in Members(listed) && k in Members(kept);
      var e := EventOf(kept, events, k);
      assert SuccessOf(k, events, e);
      forall f | f in events && Cleaned(k, f) ensures f == e { SameEvent(events, k, e, f); }
    }
  }

  /** Account, trigger and status of the engine's results for the listed rows. */
  ghost function EngineSays(c: P.PolicyRule, policy: set<E.Row>, listed: seq<E.Clean>): set<(Value, Value, D.Status)> {
    set k | k in listed :: (P.ResultFor(c, policy, k).groupKey, P.ResultFor(c, policy, k).trigger, StatusIs(P.ResultFor(c, policy, k).verdict.status))
  }

  /** Account, trigger and status of the detector's verdicts on the successes. */
  function DetectorSays(policy: D.Policy, b: D.Behaviour, events: seq<D.Event>): set<(Value, Value, D.Status)> {
    set e | e in events && e.etype.LoginSuccess? :: Verdict(policy, b, e)
  }

  function Verdict(policy: D.Policy, b: D.Behaviour, e: D.Event): (Value, Value, D.Status) {
    (Str(e.account), Str(e.id), if b.B4? then D.StatusB4(policy, e) else D.StatusB5(policy, e))
  }

  /** If every listed row is judged as its event is, the two sets are the same. */
  lemma {:induction false} SameSays(c: P.PolicyRule, b: D.Behaviour, policy: seq<E.Row>, m: D.Policy, events: seq<D.Event>, listed: seq<E.Clean>)
    requires forall e | e in events && e.etype.LoginSuccess? :: exists k :: k in listed && SuccessOf(k, events, e)
    requires forall k | k in listed :: OneSuccess(k, events)
    requires forall k, e | k in listed && SuccessOf(k, events, e) ::
               && P.ResultFor(c, Members(policy), k).groupKey == Str(e.account) && P.ResultFor(c, Members(policy), k).trigger == Str(e.id)
               && StatusIs(P.ResultFor(c, Members(policy), k).verdict.status) == if b.B4? then D.StatusB4(m, e) else D.StatusB5(m, e)
    ensures EngineSays(c, Members(policy), listed) == DetectorSays(m, b, events)
  {
    forall e | e in events && e.etype.LoginSuccess? ensures Verdict(m, b, e) in EngineSays(c, Members(policy), listed) {
      var k :| k in listed && SuccessOf(k, events, e);
    }
    forall k | k in listed
      ensures (P.ResultFor(c, Members(policy), k).groupKey, P.ResultFor(c, Members(policy), k).trigger,
               StatusIs(P.ResultFor(c, Members(policy), k).verdict.status)) in DetectorSays(m, b, events)
    {
      assert OneSuccess(k, events);
      var e :| SuccessOf(k, events, e);
      assert Verdict(m, b, e) in DetectorSays(m, b, events);
    }
  }

  /** The policy rules: one engine result per success and no other, and the same accounts, triggers and statuses. */
  lemma {:induction false} PolicyReportsAgree(name: string, rows: seq<E.Row>, events: seq<D.Event>, policy: seq<E.Row>, records: seq<D.PolicyRow>,
                                              listed: seq<E.Clean>)
    requires SameLog(rows, events) && DistinctEventIds(events) && SamePolicy(policy, records)
    requires E.Lists(listed, E.Matching(E.Survivors(E.Kept(rows, ["account_id"])), "login_success"))
    ensures forall e | e in events && e.etype.LoginSuccess? :: exists k :: k in listed && SuccessOf(k, events, e)
    ensures forall k | k in listed :: OneSuccess(k, events)
    ensures EngineSays(MethodRule(name), Members(policy), listed) == DetectorSays(D.PolicyMap(records), D.B4, events)
    ensures EngineSays(MfaRule(name), Members(policy), listed) == DetectorSays(D.PolicyMap(records), D.B5, events)
  {
    ListedSuccesses(rows, events, listed);
    forall k, e | k in listed && SuccessOf(k, events, e)
      ensures && P.ResultFor(MethodRule(name), Members(policy), k).groupKey == Str(e.account)
              && P.ResultFor(MethodRule(name), Members(policy), k).trigger == Str(e.id)
              && StatusIs(P.ResultFor(MethodRule(name), Members(policy), k).verdict.status) == D.StatusB4(D.PolicyMap(records), e)
              && P.ResultFor(MfaRule(name), Members(policy), k).groupKey == Str(e.account)
              && P.ResultFor(MfaRule(name), Members(policy), k).trigger == Str(e.id)
              && StatusIs(P.ResultFor(MfaRule(name), Members(policy), k).verdict.status) == D.StatusB5(D.PolicyMap(records), e)
    {
      AgreePolicy(name, policy, records, k, e);
    }
    SameSays(MethodRule(name), D.B4, policy, D.PolicyMap(records), events, listed);
    SameSays(MfaRule(name), D.B5, policy, D.PolicyMap(records), events, listed);
  }

  /** The detector's alerts of a policy rule are the engine's results that are not plain compliance. */
  lemma {:induction false} PolicyAlertsAgree(name: string, p: D.Params, rows: seq<E.Row>, events: seq<D.Event>, policy: seq<E.Row>,
                                             records: seq<D.PolicyRow>, listed: seq<E.Clean>, account: string, id: string, s: D.Status)
    requires SameLog(rows, events) && DistinctEventIds(events) && SamePolicy(policy, records) && s != D.NoAlert
    requires E.Lists(listed, E.Matching(E.Survivors(E.Kept(rows, ["account_id"])), "login_success"))
    ensures D.Alert(D.B4, account, id, s) in D.AlertsOf(events, D.PolicyMap(records), p, D.B4)
            <==> (Str(account), Str(id), s) in EngineSays(MethodRule(name), Members(policy), listed)
    ensures D.Alert(D.B5, account, id, s) in D.AlertsOf(events, D.PolicyMap(records), p, D.B5)
            <==> (Str(account), Str(id), s) in EngineSays(MfaRule(name), Members(policy), listed)
  {
    PolicyReportsAgree(name, rows, events, policy, records, listed);
    AlertSaid(events, D.PolicyMap(records), p, D.B4, account, id, s);
    AlertSaid(events, D.PolicyMap(records), p, D.B5, account, id, s);
  }

  lemma {:induction false} AlertSaid(events: seq<D.Event>, m: D.Policy, p: D.Params, b: D.Behaviour, account: string, id: string, s: D.Status)
    requires (b.B4? || b.B5?) && s != D.NoAlert
    ensures D.Alert(b, account, id, s) in D.AlertsOf(events, m, p, b) <==> (Str(account), Str(id), s) in DetectorSays(m, b, events)
  {
    D.AboutAlertsOf(events, m, p, b);
    if D.Alert(b, account, id, s) in D.AlertsOf(events, m, p, b) {
      var e :| e in events && D.StatusOf(events, m, p, b, e) != D.NoAlert && D.AlertAbout(events, m, p, b, e) == D.Alert(b, account, id, s);
      assert Verdict(m, b, e) in DetectorSays(m, b, events);
    }
    if (Str(account), Str(id), s) in DetectorSays(m, b, events) {
      var e :| e in events && e.etype.LoginSuccess? && Verdict(m, b, e) == (Str(account), Str(id), s);
      assert D.AlertAbout(events, m, p, b, e) in D.AlertsOf(events, m, p, b);
    }
  }
}
