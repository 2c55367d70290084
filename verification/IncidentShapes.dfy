/** What the detector reports about the small logs the incident builders construct. */
module IncidentShapes {
  import opened Ordering
  import opened Detection
  import opened RefDetect

  /** The shape checks of scripts/datagen/params.py on compiled rules, whose windows are at least a second. */
  predicate Accepted(p: Params) {
    p.w1 >= 1 && p.w2 >= 1 && p.w3 >= 1 && p.t1 >= 3 && p.t2 >= 3 && p.t3 == 2
  }

  /** An incident event: whole-second timestamp, password without MFA unless the builder says otherwise. */
  function MakeEvent(id: string, sec: int, account: string, t: EventType, host: string, method_: string, mfa: bool): Event {
    Event(id, sec, 0, account, t, host, Some(method_), Some(mfa))
  }

  /** Plain events, one for each second, all of one type on one host. */
  function Burst(ids: seq<string>, secs: seq<int>, accounts: seq<string>, t: EventType, host: string): (r: seq<Event>)
    requires |ids| == |secs| == |accounts|
    ensures |r| == |secs|
  {
    seq(|secs|, i requires 0 <= i < |secs| => MakeEvent(ids[i], secs[i], accounts[i], t, host, "password", false))
  }

  /** `n` events were added, the last `span` seconds after the first. */
  predicate AddedSpan(before: seq<Event>, after: seq<Event>, n: nat, span: int) {
    n > 0 && |after| == |before| + n && after[|after| - 1].sec - after[|before|].sec == span
  }

  /** Ascending seconds, the last at most `w` after the first. */
  predicate InOneWindow(secs: seq<int>, w: int) { Ascending(secs) && (secs != [] ==> secs[|secs| - 1] - secs[0] <= w) }

  predicate Ascending(secs: seq<int>) { forall i, j | 0 <= i < j < |secs| :: secs[i] < secs[j] }

  /** A success that its account's policy row allows. */
  predicate Compliant(m: Policy, e: Event) {
    && e.account in m
    && e.method_ == Some(m[e.account].expectedMethod)
    && e.mfa.Some? && (m[e.account].mfaRequired ==> e.mfa.value)
  }

  // ------------------------------------------------------------------ rules that stay quiet

  lemma {:induction false} QuietB1(events: seq<Event>, m: Policy, p: Params)
    requires forall e | e in events && e.etype.LoginSuccess? :: Count(FailureObs(events), Str(e.account), e.sec - p.w1, e.sec) < p.t1
    ensures AlertsOf(events, m, p, B1) == {}
  {
    AboutAlertsOf(events, m, p, B1);
  }

  lemma {:induction false} QuietB2(events: seq<Event>, m: Policy, p: Params, accounts: set<string>)
    requires forall e | e in events && e.etype.LoginFailure? :: e.account in accounts
    requires |accounts| < p.t2
    ensures AlertsOf(events, m, p, B2) == {}
  {
    AboutAlertsOf(events, m, p, B2);
    var s := TypeObs(events, LoginFailure, Host, Account);
    AboutTypeObs(events, LoginFailure, Host, Account);
    AsValuesSize(accounts);
    forall o | o in s ensures o.value in AsValues(accounts) {
      var x :| x in events && x.etype.LoginFailure? && ObsOf(x, Host, Account) == o;
    }
    forall e | e in events ensures !FiresB2(events, p, e) {
      FewValues(s, Str(e.host), e.sec, p.w2, p.t2, AsValues(accounts));
    }
  }

  lemma {:induction false} QuietB3(events: seq<Event>, m: Policy, p: Params)
    requires p.t3 == 2
    requires forall x, y | x in events && y in events && x.etype.LoginSuccess? && y.etype.LoginSuccess? && x.account == y.account :: x.host == y.host
    ensures AlertsOf(events, m, p, B3) == {}
  {
    AboutAlertsOf(events, m, p, B3);
    forall e | e in events ensures !FiresB3(events, p, e) {
      if e.etype.LoginSuccess? { OneHost(events, p, e); }
    }
  }

  lemma {:induction false} OneHost(events: seq<Event>, p: Params, e: Event)
    requires p.t3 == 2 && e.etype.LoginSuccess?
    requires forall x | x in events && x.etype.LoginSuccess? && x.account == e.account :: x.host == e.host
    ensures !FiresB3(events, p, e)
  {
    var s := TypeObs(events, LoginSuccess, Account, Host);
    AboutTypeObs(events, LoginSuccess, Account, Host);
    forall o | o in s && o.group == Str(e.account) ensures o.value in {Str(e.host)} {
      var x :| x in events && x.etype.LoginSuccess? && ObsOf(x, Account, Host) == o;
    }
    FewValues(s, Str(e.account), e.sec, p.w3, p.t3, {Str(e.host)});
  }

  lemma {:induction false} QuietPolicy(events: seq<Event>, m: Policy, p: Params)
    requires forall e | e in events && e.etype.LoginSuccess? :: Compliant(m, e)
    ensures AlertsOf(events, m, p, B4) == {} && AlertsOf(events, m, p, B5) == {}
  {
    AboutAlertsOf(events, m, p, B4);
    AboutAlertsOf(events, m, p, B5);
  }

  // ------------------------------------------------------------------ one success among one account's failures

  /** With a single compliant success and failures of a single account, only the sequence rule can speak. */
  lemma {:induction false} OneSuccess(events: seq<Event>, m: Policy, p: Params, s: Event, failing: string)
    requires Accepted(p) && s in events && s.etype.LoginSuccess? && Compliant(m, s)
    requires forall e | e in events && e != s :: e.etype.LoginFailure?
    requires forall e | e in events && e.etype.LoginFailure? :: e.account == failing
    ensures Findings(events, m, p) == if FiresB1(events, p, s) then {Alert(B1, s.account, s.id, Alerting)} else {}
  {
    AboutAlertsOf(events, m, p, B1);
    QuietB2(events, m, p, {failing});
    QuietB3(events, m, p);
    QuietPolicy(events, m, p);
    assert AlertsOf(events, m, p, B1) == if FiresB1(events, p, s) then {Alert(B1, s.account, s.id, Alerting)} else {};
  }

  /** Without a success only the spray rule can speak. */
  lemma {:induction false} OnlyFailures(events: seq<Event>, m: Policy, p: Params)
    requires Accepted(p) && forall e | e in events :: e.etype.LoginFailure?
    ensures Findings(events, m, p) == AlertsOf(events, m, p, B2)
  {
    QuietB1(events, m, p);
    QuietB3(events, m, p);
    QuietPolicy(events, m, p);
  }

  /** Without a failure, compliant successes can only speak to the multi-host rule. */
  lemma {:induction false} OnlySuccesses(events: seq<Event>, m: Policy, p: Params)
    requires Accepted(p) && forall e | e in events :: e.etype.LoginSuccess? && Compliant(m, e)
    ensures Findings(events, m, p) == AlertsOf(events, m, p, B3)
  {
    FailureObsMembers(events);
    forall e | e in events ensures Count(FailureObs(events), Str(e.account), e.sec - p.w1, e.sec) == 0 {
      CountZero(FailureObs(events), Str(e.account), e.sec - p.w1, e.sec);
    }
    QuietB1(events, m, p);
    QuietB2(events, m, p, {});
    QuietPolicy(events, m, p);
  }

  function Repeat(a: string, n: nat): (r: seq<string>)
    ensures |r| == n && forall x | x in r :: x == a
  {
    seq(n, _ => a)
  }

  lemma {:induction false} BurstSnoc(ids: seq<string>, secs: seq<int>, accounts: seq<string>, t: EventType, host: string, id: string, sec: int, account: string)
    requires |ids| == |secs| == |accounts|
    ensures Burst(ids + [id], secs + [sec], accounts + [account], t, host)
            == Burst(ids, secs, accounts, t, host) + [MakeEvent(id, sec, account, t, host, "password", false)]
  {}

  lemma {:induction false} BurstCount(ids: seq<string>, secs: seq<int>, a: string, host: string, lo: int, hi: int)
    requires |ids| == |secs|
    ensures Count(FailureObs(Burst(ids, secs, Repeat(a, |secs|), LoginFailure, host)), Str(a), lo, hi) == SecsWithin(secs, lo, hi)
  {
    if secs != [] {
      var k := |secs| - 1;
      BurstCount(ids[..k], secs[..k], a, host, lo, hi);
      BurstSnoc(ids[..k], secs[..k], Repeat(a, k), LoginFailure, host, ids[k], secs[k], a);
      assert ids == ids[..k] + [ids[k]] && secs == secs[..k] + [secs[k]] && Repeat(a, |secs|) == Repeat(a, k) + [a];
      FailureObsSnoc(Burst(ids[..k], secs[..k], Repeat(a, k), LoginFailure, host),
                     MakeEvent(ids[k], secs[k], a, LoginFailure, host, "password", false), Str(a), lo, hi);
    }
  }

  lemma {:induction false} SecsAllWithin(secs: seq<int>, lo: int, hi: int)
    requires forall i | 0 <= i < |secs| :: lo <= secs[i] <= hi
    ensures SecsWithin(secs, lo, hi) == |secs|
  {
    if secs != [] { SecsAllWithin(secs[..|secs| - 1], lo, hi); }
  }

  lemma {:induction false} SecsNoneWithin(secs: seq<int>, lo: int, hi: int)
    requires forall i | 0 <= i < |secs| :: !(lo <= secs[i] <= hi)
    ensures SecsWithin(secs, lo, hi) == 0
  {
    if secs != [] { SecsNoneWithin(secs[..|secs| - 1], lo, hi); }
  }

  lemma {:induction false} SecsSplit(a: seq<int>, b: seq<int>, lo: int, hi: int)
    ensures SecsWithin(a + b, lo, hi) == SecsWithin(a, lo, hi) + SecsWithin(b, lo, hi)
  {
    if b == [] {
      assert a + b == a;
    } else {
      SecsSplit(a, b[..|b| - 1], lo, hi);
      assert (a + b)[..|a + b| - 1] == a + b[..|b| - 1];
    }
  }

  // ------------------------------------------------------------------ one group in ascending seconds

  /** All events have type `t` and belong to one group, each later than the one before. */
  ghost predicate OneRun(events: seq<Event>, t: EventType, g: Field, k: string) {
    && (forall e | e in events :: e.etype == t && FieldOf(e, g) == k)
    && (forall i, j | 0 <= i < j < |events| :: events[i].sec < events[j].sec)
  }

  predicate BreachAt(events: seq<Event>, t: EventType, g: Field, v: Field, w: int, n: int, i: nat)
    requires i < |events|
  {
    Breach(TypeObs(events, t, g, v), Str(FieldOf(events[i], g)), events[i].sec, w, n)
  }

  lemma {:induction false} RunObs(events: seq<Event>, t: EventType, g: Field, v: Field, k: string)
    requires OneRun(events, t, g, k)
    ensures Members(RowObs(events, g, v)) == TypeObs(events, t, g, v)
  {
    AboutTypeObs(events, t, g, v);
    var obs := RowObs(events, g, v);
    forall o | o in TypeObs(events, t, g, v) ensures o in obs {
      var e :| e in events && e.etype == t && ObsOf(e, g, v) == o;
      var j :| 0 <= j < |events| && events[j] == e;
      assert obs[j] == o;
    }
    forall o | o in obs ensures o in TypeObs(events, t, g, v) {
      var j :| 0 <= j < |obs| && obs[j] == o;
      assert events[j] in events;
    }
  }

  lemma {:induction false} RunOrdered(events: seq<Event>, t: EventType, g: Field, v: Field, k: string)
    requires OneRun(events, t, g, k)
    ensures SortedBy(RowObs(events, g, v), KeyOf) && OneGroup(RowObs(events, g, v), Str(k))
    ensures forall i | 0 < i < |events| :: Earlier(RowObs(events, g, v)[i - 1], RowObs(events, g, v)[i])
  {
    var obs := RowObs(events, g, v);
    forall o | o in obs ensures o.group == Str(k) {
      var j :| 0 <= j < |obs| && obs[j] == o;
      assert events[j] in events;
    }
    forall i, j | 0 <= i < j < |obs| ensures !KeyLess(KeyOf(obs[j]), KeyOf(obs[i])) {
      assert events[i].sec < events[j].sec;
    }
    forall i | 0 < i < |events| ensures Earlier(obs[i - 1], obs[i]) { assert events[i - 1].sec < events[i].sec; }
  }

  lemma {:induction false} RunEdges(events: seq<Event>, t: EventType, g: Field, v: Field, k: string, w: int, n: int, i: nat)
    requires OneRun(events, t, g, k) && i < |events|
    ensures RisingEdge(TypeObs(events, t, g, v), ObsOf(events[i], g, v), w, n) <==>
            BreachAt(events, t, g, v, w, n, i) && (i == 0 || !BreachAt(events, t, g, v, w, n, i - 1))
  {
    RunObs(events, t, g, v, k);
    RunOrdered(events, t, g, v, k);
    assert events[i] in events && (i > 0 ==> events[i - 1] in events);
    EdgeInOrder(RowObs(events, g, v), TypeObs(events, t, g, v), Str(k), i, w, n);
  }

  /** The accounts or hosts the run shows in the window that ends at event `i`. */
  ghost function Seen(events: seq<Event>, v: Field, w: int, i: nat): set<string>
    requires i < |events|
  {
    set j | 0 <= j < |events| && events[i].sec - w <= events[j].sec <= events[i].sec :: FieldOf(events[j], v)
  }

  lemma {:induction false} ValueIsSeen(events: seq<Event>, t: EventType, g: Field, v: Field, k: string, w: int, i: nat, x: Value)
    requires OneRun(events, t, g, k) && i < |events|
    requires x in Values(TypeObs(events, t, g, v), Str(k), events[i].sec - w, events[i].sec)
    ensures x in AsValues(Seen(events, v, w, i))
  {
    AboutTypeObs(events, t, g, v);
    var o :| o in TypeObs(events, t, g, v) && Inside(o, Str(k), events[i].sec - w, events[i].sec) && o.value == x;
    var f :| f in events && ObsOf(f, g, v) == o;
    var j :| 0 <= j < |events| && events[j] == f;
    assert FieldOf(f, v) in Seen(events, v, w, i);
  }

  lemma {:induction false} SeenIsValue(events: seq<Event>, t: EventType, g: Field, v: Field, k: string, w: int, i: nat, x: string)
    requires OneRun(events, t, g, k) && i < |events| && x in Seen(events, v, w, i)
    ensures Str(x) in Values(TypeObs(events, t, g, v), Str(k), events[i].sec - w, events[i].sec)
  {
    AboutTypeObs(events, t, g, v);
    var j :| 0 <= j < |events| && events[i].sec - w <= events[j].sec <= events[i].sec && FieldOf(events[j], v) == x;
    assert ObsOf(events[j], g, v) in TypeObs(events, t, g, v);
  }

  lemma {:induction false} BreachAtIsSeen(events: seq<Event>, t: EventType, g: Field, v: Field, k: string, w: int, n: int, i: nat)
    requires OneRun(events, t, g, k) && i < |events|
    ensures BreachAt(events, t, g, v, w, n, i) <==> |Seen(events, v, w, i)| >= n
  {
    var vals := Values(TypeObs(events, t, g, v), Str(k), events[i].sec - w, events[i].sec);
    assert FieldOf(events[i], g) == k;
    forall x | x in vals ensures x in AsValues(Seen(events, v, w, i)) { ValueIsSeen(events, t, g, v, k, w, i, x); }
    forall x | x in Seen(events, v, w, i) ensures Str(x) in vals { SeenIsValue(events, t, g, v, k, w, i, x); }
    assert vals == AsValues(Seen(events, v, w, i));
    AsValuesSize(Seen(events, v, w, i));
  }

  /** A run that never shows enough values reports nothing. */
  lemma {:induction false} RunStaysBelow(events: seq<Event>, t: EventType, g: Field, v: Field, k: string, w: int, n: int)
    requires OneRun(events, t, g, k)
    requires forall i | 0 <= i < |events| :: |Seen(events, v, w, i)| < n
    ensures forall e | e in events :: !RisingEdge(TypeObs(events, t, g, v), ObsOf(e, g, v), w, n)
  {
    forall e | e in events ensures !RisingEdge(TypeObs(events, t, g, v), ObsOf(e, g, v), w, n) {
      var i :| 0 <= i < |events| && events[i] == e;
      RunEdges(events, t, g, v, k, w, n, i);
      BreachAtIsSeen(events, t, g, v, k, w, n, i);
    }
  }

  lemma {:induction false} RunEdgeIs(events: seq<Event>, t: EventType, g: Field, v: Field, k: string, w: int, n: int, first: nat, i: nat)
    requires OneRun(events, t, g, k) && first < |events| && i < |events|
    requires forall j | 0 <= j < |events| :: BreachAt(events, t, g, v, w, n, j) <==> j >= first
    ensures RisingEdge(TypeObs(events, t, g, v), ObsOf(events[i], g, v), w, n) <==> i == first
  {
    RunEdges(events, t, g, v, k, w, n, i);
  }

  /** A run that shows enough values from event `first` on reports exactly that event. */
  lemma {:induction false} RunCrossesAt(events: seq<Event>, t: EventType, g: Field, v: Field, k: string, w: int, n: int, first: nat)
    requires OneRun(events, t, g, k) && first < |events|
    requires forall i | 0 <= i < |events| :: |Seen(events, v, w, i)| >= n <==> i >= first
    ensures forall e | e in events :: RisingEdge(TypeObs(events, t, g, v), ObsOf(e, g, v), w, n) <==> e == events[first]
  {
    forall j | 0 <= j < |events| ensures BreachAt(events, t, g, v, w, n, j) <==> j >= first {
      BreachAtIsSeen(events, t, g, v, k, w, n, j);
    }
    RunEdgeIs(events, t, g, v, k, w, n, first, first);
    forall e | e in events ensures RisingEdge(TypeObs(events, t, g, v), ObsOf(e, g, v), w, n) <==> e == events[first] {
      var i :| 0 <= i < |events| && events[i] == e;
      RunEdgeIs(events, t, g, v, k, w, n, first, i);
    }
  }

  // ------------------------------------------------------------------ sprays: one host, failures only

  lemma {:induction false} SprayAlert(events: seq<Event>, m: Policy, p: Params, host: string, first: nat)
    requires OneRun(events, LoginFailure, Host, host) && first < |events|
    requires forall i | 0 <= i < |events| :: |Seen(events, Account, p.w2, i)| >= p.t2 <==> i >= first
    ensures AlertsOf(events, m, p, B2) == {Alert(B2, host, events[first].id, Alerting)}
  {
    AboutAlertsOf(events, m, p, B2);
    RunCrossesAt(events, LoginFailure, Host, Account, host, p.w2, p.t2, first);
    assert events[first] in events;
  }

  /** The findings of a spray that crosses the threshold at event `first`. */
  lemma {:induction false} SprayFinding(events: seq<Event>, m: Policy, p: Params, host: string, first: nat)
    requires Accepted(p) && OneRun(events, LoginFailure, Host, host) && first < |events|
    requires forall i | 0 <= i < |events| :: |Seen(events, Account, p.w2, i)| >= p.t2 <==> i >= first
    ensures Findings(events, m, p) == {Alert(B2, host, events[first].id, Alerting)}
  {
    OnlyFailures(events, m, p);
    SprayAlert(events, m, p, host, first);
  }

  lemma {:induction false} SprayQuiet(events: seq<Event>, m: Policy, p: Params, host: string)
    requires Accepted(p) && OneRun(events, LoginFailure, Host, host)
    requires forall i | 0 <= i < |events| :: |Seen(events, Account, p.w2, i)| < p.t2
    ensures Findings(events, m, p) == {}
  {
    AboutAlertsOf(events, m, p, B2);
    OnlyFailures(events, m, p);
    RunStaysBelow(events, LoginFailure, Host, Account, host, p.w2, p.t2);
  }

  // ------------------------------------------------------------------ sessions: one account, successes only

  lemma {:induction false} SessionsAlert(events: seq<Event>, m: Policy, p: Params, account: string, first: nat)
    requires OneRun(events, LoginSuccess, Account, account) && first < |events|
    requires forall i | 0 <= i < |events| :: |Seen(events, Host, p.w3, i)| >= p.t3 <==> i >= first
    ensures AlertsOf(events, m, p, B3) == {Alert(B3, account, events[first].id, Alerting)}
  {
    AboutAlertsOf(events, m, p, B3);
    RunCrossesAt(events, LoginSuccess, Account, Host, account, p.w3, p.t3, first);
    assert events[first] in events;
  }

  lemma {:induction false} SessionsFinding(events: seq<Event>, m: Policy, p: Params, account: string, first: nat)
    requires Accepted(p) && OneRun(events, LoginSuccess, Account, account) && first < |events|
    requires forall e | e in events :: Compliant(m, e)
    requires forall i | 0 <= i < |events| :: |Seen(events, Host, p.w3, i)| >= p.t3 <==> i >= first
    ensures Findings(events, m, p) == {Alert(B3, account, events[first].id, Alerting)}
  {
    OnlySuccesses(events, m, p);
    SessionsAlert(events, m, p, account, first);
  }

  lemma {:induction false} SessionsQuiet(events: seq<Event>, m: Policy, p: Params, account: string)
    requires Accepted(p) && OneRun(events, LoginSuccess, Account, account)
    requires forall e | e in events :: Compliant(m, e)
    requires forall i | 0 <= i < |events| :: |Seen(events, Host, p.w3, i)| < p.t3
    ensures Findings(events, m, p) == {}
  {
    AboutAlertsOf(events, m, p, B3);
    OnlySuccesses(events, m, p);
    RunStaysBelow(events, LoginSuccess, Account, Host, account, p.w3, p.t3);
  }

  // ------------------------------------------------------------------ single events

  /** A lone success: only the policy rules can speak. */
  lemma {:induction false} LoneSuccess(e: Event, m: Policy, p: Params)
    requires Accepted(p) && e.etype.LoginSuccess?
    ensures Findings([e], m, p) == AlertsOf([e], m, p, B4) + AlertsOf([e], m, p, B5)
  {
    assert [e][..0] == [];
    QuietB1([e], m, p);
    QuietB2([e], m, p, {});
    QuietB3([e], m, p);
  }

  lemma {:induction false} LoneFailure(e: Event, m: Policy, p: Params)
    requires Accepted(p) && e.etype.LoginFailure?
    ensures Findings([e], m, p) == {}
  {
    OnlyFailures([e], m, p);
    QuietB2([e], m, p, {e.account});
  }
}
