/** The label-checking detector (scripts/datagen/refdetect.py) over the generator's own events. */
module RefDetect {
  import opened Ordering
  import opened Detection
  import opened Grouping

  datatype EventType = LoginFailure | LoginSuccess

  /** A generated event; `ms` is the part of the timestamp the detector cuts off. */
  datatype Event = Event(id: string, sec: int, ms: nat, account: string, etype: EventType, host: string,
                         method_: Option<string>, mfa: Option<bool>)

  datatype PolicyRow = PolicyRow(account: string, accountType: string, expectedMethod: string, mfaRequired: bool)

  datatype Params = Params(w1: int, t1: int, w2: int, t2: int, w3: int, t3: int)

  datatype Behaviour = B1 | B2 | B3 | B4 | B5

  datatype Status = Alerting | NoAlert | Insufficient

  datatype Alert = Alert(behaviour: Behaviour, groupKey: string, eventId: string, status: Status)

  type Policy = map<string, PolicyRow>

  /** `{r["account_id"]: r for r in policy_records}`: the last record of an account wins. */
  function PolicyMap(records: seq<PolicyRow>): Policy {
    if records == [] then map[]
    else PolicyMap(records[..|records| - 1])[records[|records| - 1].account := records[|records| - 1]]
  }

  datatype Field = Account | Host

  function FieldOf(e: Event, f: Field): string { if f.Account? then e.account else e.host }

  // ------------------------------------------------------------------ what each rule says of one event

  function FailureObs(events: seq<Event>): seq<Obs> {
    if events == [] then []
    else
      var e := events[|events| - 1];
      FailureObs(events[..|events| - 1])
      + (if e.etype.LoginFailure? then [Obs(Str(e.id), e.sec, Str(e.account), Null)] else [])
  }

  function ObsOf(e: Event, g: Field, v: Field): Obs { Obs(Str(e.id), e.sec, Str(FieldOf(e, g)), Str(FieldOf(e, v))) }

  /** The events of type `t`, as the rule that groups by `g` and counts distinct `v` sees them. */
  function TypeObs(events: seq<Event>, t: EventType, g: Field, v: Field): set<Obs> {
    if events == [] then {}
    else
      var e := events[|events| - 1];
      TypeObs(events[..|events| - 1], t, g, v) + (if e.etype == t then {ObsOf(e, g, v)} else {})
  }

  lemma {:induction false} AboutTypeObs(events: seq<Event>, t: EventType, g: Field, v: Field)
    ensures TypeObs(events, t, g, v) == set e | e in events && e.etype == t :: ObsOf(e, g, v)
  {
    if events != [] {
      var rest, last := events[..|events| - 1], events[|events| - 1];
      AboutTypeObs(rest, t, g, v);
      assert forall e :: e in events <==> e in rest || e == last;
    }
  }

  /** Enough failures of the account in the closed window before this success. */
  predicate FiresB1(events: seq<Event>, p: Params, e: Event) {
    e.etype.LoginSuccess? && Count(FailureObs(events), Str(e.account), e.sec - p.w1, e.sec) >= p.t1
  }

  /** This failure starts an incident of enough accounts failing from one host. */
  predicate FiresB2(events: seq<Event>, p: Params, e: Event) {
    e.etype.LoginFailure? && RisingEdge(TypeObs(events, LoginFailure, Host, Account), ObsOf(e, Host, Account), p.w2, p.t2)
  }

  /** This success starts an incident of one account succeeding from enough hosts. */
  predicate FiresB3(events: seq<Event>, p: Params, e: Event) {
    e.etype.LoginSuccess? && RisingEdge(TypeObs(events, LoginSuccess, Account, Host), ObsOf(e, Account, Host), p.w3, p.t3)
  }

  function StatusB4(policy: Policy, e: Event): Status {
    if e.etype.LoginFailure? then NoAlert
    else if e.account !in policy || e.method_.None? then Insufficient
    else if e.method_.value != policy[e.account].expectedMethod then Alerting
    else NoAlert
  }

  function StatusB5(policy: Policy, e: Event): Status {
    if e.etype.LoginFailure? then NoAlert
    else if e.account !in policy || e.mfa.None? then Insufficient
    else if policy[e.account].mfaRequired && !e.mfa.value then Alerting
    else NoAlert
  }

  /** The verdict of rule `b` on event `e` of the log. */
  function StatusOf(events: seq<Event>, policy: Policy, p: Params, b: Behaviour, e: Event): Status {
    match b
    case B1 => if FiresB1(events, p, e) then Alerting else NoAlert
    case B2 => if FiresB2(events, p, e) then Alerting else NoAlert
    case B3 => if FiresB3(events, p, e) then Alerting else NoAlert
    case B4 => StatusB4(policy, e)
    case B5 => StatusB5(policy, e)
  }

  function GroupOf(b: Behaviour, e: Event): string { if b.B2? then e.host else e.account }

  /** The reports of one rule about the log. */
  function AlertsOf(events: seq<Event>, policy: Policy, p: Params, b: Behaviour): set<Alert> {
    AlertsAbout(events, events, policy, p, b)
  }

  /** Its reports about the events of `some`. */
  function AlertsAbout(some: seq<Event>, events: seq<Event>, policy: Policy, p: Params, b: Behaviour): set<Alert> {
    if some == [] then {}
    else
      var e := some[|some| - 1];
      AlertsAbout(some[..|some| - 1], events, policy, p, b)
      + (if StatusOf(events, policy, p, b, e) != NoAlert then {AlertAbout(events, policy, p, b, e)} else {})
  }

  function AlertAbout(events: seq<Event>, policy: Policy, p: Params, b: Behaviour, e: Event): Alert {
    Alert(b, GroupOf(b, e), e.id, StatusOf(events, policy, p, b, e))
  }

  lemma {:induction false} AboutAlertsAbout(some: seq<Event>, events: seq<Event>, policy: Policy, p: Params, b: Behaviour)
    ensures AlertsAbout(some, events, policy, p, b) ==
            set e | e in some && StatusOf(events, policy, p, b, e) != NoAlert :: AlertAbout(events, policy, p, b, e)
  {
    if some != [] {
      var rest, last := some[..|some| - 1], some[|some| - 1];
      AboutAlertsAbout(rest, events, policy, p, b);
      assert forall e :: e in some <==> e in rest || e == last;
    }
  }

  lemma {:induction false} AboutAlertsOf(events: seq<Event>, policy: Policy, p: Params, b: Behaviour)
    ensures AlertsOf(events, policy, p, b) ==
            set e | e in events && StatusOf(events, policy, p, b, e) != NoAlert :: AlertAbout(events, policy, p, b, e)
  {
    AboutAlertsAbout(events, events, policy, p, b);
  }

  /** Everything the five rules report about the log. */
  function Findings(events: seq<Event>, policy: Policy, p: Params): set<Alert> {
    AlertsOf(events, policy, p, B1) + AlertsOf(events, policy, p, B2) + AlertsOf(events, policy, p, B3)
    + AlertsOf(events, policy, p, B4) + AlertsOf(events, policy, p, B5)
  }

  // ------------------------------------------------------------------ the detector

  function EventKey(e: Event): Key { Key(Num(e.sec), Str(e.id)) }

  lemma {:induction false} FailureObsAppend(a: seq<Event>, b: seq<Event>)
    ensures FailureObs(a + b) == FailureObs(a) + FailureObs(b)
  {
    if b == [] {
      assert a + b == a;
    } else {
      FailureObsAppend(a, b[..|b| - 1]);
      assert (a + b)[..|a + b| - 1] == a + b[..|b| - 1];
    }
  }

  lemma {:induction false} FailureObsPermuted(a: seq<Event>, b: seq<Event>)
    requires multiset(a) == multiset(b)
    ensures multiset(FailureObs(a)) == multiset(FailureObs(b))
    decreases |a|
  {
    SameMembers(a, b);
    if a != [] {
      var x := a[|a| - 1];
      var l, r := SplitAtLast(a, b);
      FailureObsPermuted(a[..|a| - 1], l + r);
      FailureObsAppend(l + [x], r);
      FailureObsAppend(l, [x]);
      FailureObsAppend(l, r);
      assert [x][..0] == [];
    }
  }

  lemma {:induction false} TypeObsPermuted(a: seq<Event>, b: seq<Event>, t: EventType, g: Field, v: Field)
    requires multiset(a) == multiset(b)
    ensures TypeObs(a, t, g, v) == TypeObs(b, t, g, v)
  {
    SameMembers(a, b);
    AboutTypeObs(a, t, g, v);
    AboutTypeObs(b, t, g, v);
  }

  /** The order in which a log is read does not matter. */
  lemma {:induction false} StatusPermuted(a: seq<Event>, b: seq<Event>, policy: Policy, p: Params, r: Behaviour, e: Event)
    requires multiset(a) == multiset(b)
    ensures StatusOf(a, policy, p, r, e) == StatusOf(b, policy, p, r, e)
  {
    SameMembers(a, b);
    match r
    case B1 =>
      FailureObsPermuted(a, b);
      CountPermuted(FailureObs(a), FailureObs(b), Str(e.account), e.sec - p.w1, e.sec);
    case B2 => TypeObsPermuted(a, b, LoginFailure, Host, Account);
    case B3 => TypeObsPermuted(a, b, LoginSuccess, Account, Host);
    case B4 =>
    case B5 =>
  }

  lemma {:induction false} FindingsPermuted(a: seq<Event>, b: seq<Event>, policy: Policy, p: Params)
    requires multiset(a) == multiset(b)
    ensures Findings(a, policy, p) == Findings(b, policy, p)
  {
    SameMembers(a, b);
    forall r: Behaviour ensures AlertsOf(a, policy, p, r) == AlertsOf(b, policy, p, r) {
      AboutAlertsOf(a, policy, p, r);
      AboutAlertsOf(b, policy, p, r);
      forall e ensures StatusOf(a, policy, p, r, e) == StatusOf(b, policy, p, r, e) { StatusPermuted(a, b, policy, p, r, e); }
    }
  }

  /** `[s for s, e in rows if e["event_type"] == "login_failure"]`. */
  function FailureSecs(rows: seq<Event>): seq<int> {
    if rows == [] then []
    else
      FailureSecs(rows[..|rows| - 1])
      + (if rows[|rows| - 1].etype.LoginFailure? then [rows[|rows| - 1].sec] else [])
  }

  /** `sum(1 for s in secs if lo <= s <= hi)`. */
  function SecsWithin(secs: seq<int>, lo: int, hi: int): nat {
    if secs == [] then 0
    else SecsWithin(secs[..|secs| - 1], lo, hi) + if lo <= secs[|secs| - 1] <= hi then 1 else 0
  }

  function AccountOf(e: Event): string { e.account }

  lemma {:induction false} FailureSecsSnoc(rows: seq<Event>, e: Event, lo: int, hi: int)
    ensures SecsWithin(FailureSecs(rows + [e]), lo, hi)
            == SecsWithin(FailureSecs(rows), lo, hi) + if e.etype.LoginFailure? && lo <= e.sec <= hi then 1 else 0
  {
    assert (rows + [e])[..|rows|] == rows;
    var secs := FailureSecs(rows);
    assert secs + [] == secs;
    assert (secs + [e.sec])[..|secs|] == secs;
  }

  lemma {:induction false} FailureObsSnoc(rows: seq<Event>, e: Event, g: Value, lo: int, hi: int)
    ensures Count(FailureObs(rows + [e]), g, lo, hi)
            == Count(FailureObs(rows), g, lo, hi) + if e.etype.LoginFailure? && Str(e.account) == g && lo <= e.sec <= hi then 1 else 0
  {
    assert (rows + [e])[..|rows|] == rows;
    var obs, o := FailureObs(rows), Obs(Str(e.id), e.sec, Str(e.account), Null);
    assert obs + [] == obs;
    assert (obs + [o])[..|obs|] == obs;
  }

  predicate CountsAgree(events: seq<Event>, account: string, lo: int, hi: int) {
    SecsWithin(FailureSecs(WithKey(events, AccountOf, account)), lo, hi) == Count(FailureObs(events), Str(account), lo, hi)
  }

  lemma {:induction false} CountsAgreeSnoc(rest: seq<Event>, e: Event, account: string, lo: int, hi: int)
    requires CountsAgree(rest, account, lo, hi)
    ensures CountsAgree(rest + [e], account, lo, hi)
  {
    FailureObsSnoc(rest, e, Str(account), lo, hi);
    WithKeySnoc(rest, e, AccountOf, account);
    if e.account == account { FailureSecsSnoc(WithKey(rest, AccountOf, account), e, lo, hi); }
  }

  /** Counting an account's failure seconds is counting its failures in the whole log. */
  lemma {:induction false} FailuresCounted(events: seq<Event>, account: string, lo: int, hi: int)
    ensures CountsAgree(events, account, lo, hi)
  {
    if events != [] {
      FailuresCounted(events[..|events| - 1], account, lo, hi);
      CountsAgreeSnoc(events[..|events| - 1], events[|events| - 1], account, lo, hi);
      assert events == events[..|events| - 1] + [events[|events| - 1]];
    }
  }

  /** The alerts of rule `b` for the groups named so far. */
  ghost predicate GroupsDone(out: seq<Alert>, all: set<Alert>, done: seq<string>) {
    forall a: Alert :: a in out <==> a in all && a.groupKey in done
  }

  /** What is reported for each group in turn. */
  function ForEach(order: seq<string>, report: string -> seq<Alert>): seq<Alert> {
    if order == [] then [] else ForEach(order[..|order| - 1], report) + report(order[|order| - 1])
  }

  lemma {:induction false} ForEachSnoc(order: seq<string>, k: string, report: string -> seq<Alert>)
    ensures ForEach(order + [k], report) == ForEach(order, report) + report(k)
  {
    assert (order + [k])[..|order|] == order;
  }

  lemma {:induction false} ForEachNext(order: seq<string>, i: nat, report: string -> seq<Alert>)
    requires i < |order|
    ensures ForEach(order[..i + 1], report) == ForEach(order[..i], report) + report(order[i])
  {
    assert order[..i + 1] == order[..i] + [order[i]];
    ForEachSnoc(order[..i], order[i], report);
  }

  lemma {:induction false} DoneStep(out: seq<Alert>, more: seq<Alert>, all: set<Alert>, done: seq<string>, k: string)
    requires GroupsDone(out, all, done) && GroupsDone(more, all, [k])
    ensures GroupsDone(out + more, all, done + [k])
  {}

  lemma {:induction false} ForEachDone(order: seq<string>, report: string -> seq<Alert>, all: set<Alert>)
    requires forall k | k in order :: GroupsDone(report(k), all, [k])
    ensures GroupsDone(ForEach(order, report), all, order)
  {
    if order != [] {
      var rest, k := order[..|order| - 1], order[|order| - 1];
      ForEachDone(rest, report, all);
      DoneStep(ForEach(rest, report), report(k), all, rest, k);
      assert order == rest + [k];
    }
  }

  function TriggersFor(prepared: seq<Event>, p: Params): string -> seq<Alert> {
    account => AccountTriggers(WithKey(prepared, AccountOf, account), p)
  }

  method DetectB1(prepared: seq<Event>, p: Params, ghost policy: Policy) returns (out: seq<Alert>)
    ensures Members(out) == AlertsOf(prepared, policy, p, B1)
  {
    var order, groups := GroupBy(prepared, AccountOf);
    ghost var report := TriggersFor(prepared, p);
    out := [];
    for i := 0 to |order|
      invariant out == ForEach(order[..i], report)
    {
      ForEachNext(order, i, report);
      var account := order[i];
      assert account in Members(order);
      var more := AccountB1(groups[account], p);
      assert more == report(account);
      out := out + more;
    }
    assert order[..|order|] == order;
    TriggersComplete(prepared, order, p, policy);
  }

  lemma {:induction false} TriggersComplete(prepared: seq<Event>, order: seq<string>, p: Params, policy: Policy)
    requires Members(order) == set e | e in prepared :: AccountOf(e)
    ensures Members(ForEach(order, TriggersFor(prepared, p))) == AlertsOf(prepared, policy, p, B1)
  {
    AboutAlertsOf(prepared, policy, p, B1);
    var report, all := TriggersFor(prepared, p), AlertsOf(prepared, policy, p, B1);
    forall k | k in order ensures GroupsDone(report(k), all, [k]) { AccountDone(prepared, k, p, policy); }
    ForEachDone(order, report, all);
    forall e | e in prepared ensures e.account in order { assert AccountOf(e) in Members(order); }
    AllDone(ForEach(order, report), all, order);
  }

  lemma {:induction false} AllDone(out: seq<Alert>, all: set<Alert>, done: seq<string>)
    requires GroupsDone(out, all, done) && forall a: Alert | a in all :: a.groupKey in done
    ensures Members(out) == all
  {}

  function TriggersB1(rows: seq<Event>, failureSecs: seq<int>, p: Params): seq<Alert> {
    if rows == [] then []
    else
      var e := rows[|rows| - 1];
      TriggersB1(rows[..|rows| - 1], failureSecs, p)
      + (if Enough(failureSecs, p, e) then [Alert(B1, e.account, e.id, Alerting)] else [])
  }

  function AccountTriggers(rows: seq<Event>, p: Params): seq<Alert> { TriggersB1(rows, FailureSecs(rows), p) }

  lemma {:induction false} InTriggersB1(rows: seq<Event>, failureSecs: seq<int>, p: Params, a: Alert)
    ensures a in TriggersB1(rows, failureSecs, p) <==>
              exists e :: e in rows && Enough(failureSecs, p, e) && a == Alert(B1, e.account, e.id, Alerting)
  {
    if rows != [] {
      var rest, last := rows[..|rows| - 1], rows[|rows| - 1];
      InTriggersB1(rest, failureSecs, p, a);
      assert forall e :: e in rows <==> e in rest || e == last;
    }
  }

  method AccountB1(rows: seq<Event>, p: Params) returns (out: seq<Alert>)
    ensures out == AccountTriggers(rows, p)
  {
    var failureSecs := FailureSecs(rows);
    out := [];
    for i := 0 to |rows|
      invariant out == TriggersB1(rows[..i], failureSecs, p)
    {
      var e := rows[i];
      assert rows[..i + 1][..i] == rows[..i];
      if e.etype.LoginSuccess? {
        var inWindow := SecsWithin(failureSecs, e.sec - p.w1, e.sec);
        if inWindow >= p.t1 { out := out + [Alert(B1, e.account, e.id, Alerting)]; }
      }
    }
    assert rows[..|rows|] == rows;
  }

  predicate Enough(failureSecs: seq<int>, p: Params, e: Event) {
    e.etype.LoginSuccess? && SecsWithin(failureSecs, e.sec - p.w1, e.sec) >= p.t1
  }

  lemma {:induction false} EnoughIsFires(prepared: seq<Event>, account: string, p: Params, e: Event)
    requires e.account == account
    ensures Enough(FailureSecs(WithKey(prepared, AccountOf, account)), p, e) <==> FiresB1(prepared, p, e)
  {
    FailuresCounted(prepared, account, e.sec - p.w1, e.sec);
  }

  lemma {:induction false} AccountDone(prepared: seq<Event>, account: string, p: Params, policy: Policy)
    ensures GroupsDone(AccountTriggers(WithKey(prepared, AccountOf, account), p), AlertsOf(prepared, policy, p, B1), [account])
  {
    forall a: Alert
      ensures a in AccountTriggers(WithKey(prepared, AccountOf, account), p) <==> a in AlertsOf(prepared, policy, p, B1) && a.groupKey in [account]
    {
      AccountAlert(prepared, account, p, policy, a);
    }
  }

  lemma {:induction false} AccountAlert(prepared: seq<Event>, account: string, p: Params, policy: Policy, a: Alert)
    ensures a in AccountTriggers(WithKey(prepared, AccountOf, account), p) <==> a in AlertsOf(prepared, policy, p, B1) && a.groupKey == account
  {
    AboutAlertsOf(prepared, policy, p, B1);
    var rows := WithKey(prepared, AccountOf, account);
    InTriggersB1(rows, FailureSecs(rows), p, a);
    if a in TriggersB1(rows, FailureSecs(rows), p) {
      var e :| e in rows && Enough(FailureSecs(rows), p, e) && a == Alert(B1, e.account, e.id, Alerting);
      InWithKey(prepared, AccountOf, account, e);
      EnoughIsFires(prepared, account, p, e);
    }
    if a in AlertsOf(prepared, policy, p, B1) && a.groupKey == account {
      var e :| e in prepared && StatusOf(prepared, policy, p, B1, e) != NoAlert && a == AlertAbout(prepared, policy, p, B1, e);
      InWithKey(prepared, AccountOf, account, e);
      EnoughIsFires(prepared, account, p, e);
    }
  }

  // ------------------------------------------------------------------ distinct-value episodes

  function TypedRows(rows: seq<Event>, t: EventType): seq<Event> {
    if rows == [] then []
    else TypedRows(rows[..|rows| - 1], t) + (if rows[|rows| - 1].etype == t then [rows[|rows| - 1]] else [])
  }

  lemma {:induction false} AboutTypedRows(rows: seq<Event>, t: EventType)
    requires SortedBy(rows, EventKey)
    ensures SortedBy(TypedRows(rows, t), EventKey)
    ensures forall e :: e in TypedRows(rows, t) <==> e in rows && e.etype == t
  {
    if rows != [] {
      var rest, last := rows[..|rows| - 1], rows[|rows| - 1];
      AboutTypedRows(rest, t);
      assert forall e :: e in rows <==> e in rest || e == last;
      forall e | e in rest ensures !KeyLess(EventKey(last), EventKey(e)) {}
    }
  }

  lemma {:induction false} WithKeySorted(rows: seq<Event>, key: Event -> string, k: string)
    requires SortedBy(rows, EventKey)
    ensures SortedBy(WithKey(rows, key, k), EventKey)
  {
    if rows != [] {
      var rest, last := rows[..|rows| - 1], rows[|rows| - 1];
      WithKeySorted(rest, key, k);
      forall e | e in WithKey(rest, key, k) ensures !KeyLess(EventKey(last), EventKey(e)) { InWithKey(rest, key, k, e); }
    }
  }

  /** The rows of one group of the typed events, in order. */
  ghost predicate EpisodeRows(rows: seq<Event>, events: seq<Event>, t: EventType, g: Field, k: string) {
    SortedBy(rows, EventKey) && forall e :: e in rows <==> e in events && e.etype == t && FieldOf(e, g) == k
  }

  /** Values inside the window among the rows up to `i`. */
  function UpTo(rows: seq<Event>, v: Field, w: int, i: nat): set<string>
    requires i < |rows|
  {
    set r | r in rows[..i + 1] && rows[i].sec - w <= r.sec <= rows[i].sec :: FieldOf(r, v)
  }

  /** Values of later rows in the same second. */
  function Tied(rows: seq<Event>, v: Field, i: nat): set<string>
    requires i < |rows|
  {
    set r | r in rows[i + 1..] && r.sec == rows[i].sec :: FieldOf(r, v)
  }

  function Running(rows: seq<Event>, v: Field, w: int, i: nat): set<string>
    requires i < |rows|
  {
    UpTo(rows, v, w, i) + Tied(rows, v, i)
  }

  function AsValues(s: set<string>): set<Value> { set x | x in s :: Str(x) }

  lemma {:induction false} AsValuesSize(s: set<string>)
    ensures |AsValues(s)| == |s|
  {
    if s != {} {
      var x :| x in s;
      AsValuesSize(s - {x});
      assert AsValues(s) == AsValues(s - {x}) + {Str(x)};
    }
  }

  /** In sorted rows, the rows of the closed window are those of the prefix plus the same-second peers. */
  lemma {:induction false} WindowRows(rows: seq<Event>, w: int, i: nat, r: Event)
    requires SortedBy(rows, EventKey) && 0 <= w && i < |rows|
    ensures (r in rows && rows[i].sec - w <= r.sec <= rows[i].sec) <==>
            (r in rows[..i + 1] && rows[i].sec - w <= r.sec <= rows[i].sec) || (r in rows[i + 1..] && r.sec == rows[i].sec)
  {
    assert rows == rows[..i + 1] + rows[i + 1..];
    if r in rows[i + 1..] {
      var j :| i < j < |rows| && rows[j] == r;
      assert !KeyLess(EventKey(rows[j]), EventKey(rows[i]));
    }
  }

  lemma {:induction false} RunningMembers(rows: seq<Event>, v: Field, w: int, i: nat)
    requires SortedBy(rows, EventKey) && 0 <= w && i < |rows|
    ensures Running(rows, v, w, i) == set r | r in rows && rows[i].sec - w <= r.sec <= rows[i].sec :: FieldOf(r, v)
  {
    var all := set r | r in rows && rows[i].sec - w <= r.sec <= rows[i].sec :: FieldOf(r, v);
    forall x | x in Running(rows, v, w, i) ensures x in all {
      if x in UpTo(rows, v, w, i) {
        var r :| r in rows[..i + 1] && rows[i].sec - w <= r.sec <= rows[i].sec && FieldOf(r, v) == x;
        WindowRows(rows, w, i, r);
      } else {
        var r :| r in rows[i + 1..] && r.sec == rows[i].sec && FieldOf(r, v) == x;
        WindowRows(rows, w, i, r);
      }
    }
    forall x | x in all ensures x in Running(rows, v, w, i) {
      var r :| r in rows && rows[i].sec - w <= r.sec <= rows[i].sec && FieldOf(r, v) == x;
      WindowRows(rows, w, i, r);
    }
  }

  /** On sorted rows, the prefix plus same-second peers is the whole closed window. */
  lemma {:induction false} RunningIsWindow(events: seq<Event>, rows: seq<Event>, t: EventType, g: Field, v: Field, k: string, w: int, i: nat)
    requires EpisodeRows(rows, events, t, g, k) && 0 <= w && i < |rows|
    ensures AsValues(Running(rows, v, w, i)) == Values(TypeObs(events, t, g, v), Str(k), rows[i].sec - w, rows[i].sec)
  {
    var window := Values(TypeObs(events, t, g, v), Str(k), rows[i].sec - w, rows[i].sec);
    forall x | x in Running(rows, v, w, i) ensures Str(x) in window { RunningInWindow(events, rows, t, g, v, k, w, i, x); }
    forall x | x in window ensures x in AsValues(Running(rows, v, w, i)) { WindowInRunning(events, rows, t, g, v, k, w, i, x); }
  }

  lemma {:induction false} RunningInWindow(events: seq<Event>, rows: seq<Event>, t: EventType, g: Field, v: Field, k: string, w: int, i: nat, x: string)
    requires EpisodeRows(rows, events, t, g, k) && 0 <= w && i < |rows| && x in Running(rows, v, w, i)
    ensures Str(x) in Values(TypeObs(events, t, g, v), Str(k), rows[i].sec - w, rows[i].sec)
  {
    AboutTypeObs(events, t, g, v);
    RunningMembers(rows, v, w, i);
    var r :| r in rows && rows[i].sec - w <= r.sec <= rows[i].sec && FieldOf(r, v) == x;
    assert ObsOf(r, g, v) in TypeObs(events, t, g, v) && Inside(ObsOf(r, g, v), Str(k), rows[i].sec - w, rows[i].sec);
  }

  lemma {:induction false} WindowInRunning(events: seq<Event>, rows: seq<Event>, t: EventType, g: Field, v: Field, k: string, w: int, i: nat, x: Value)
    requires EpisodeRows(rows, events, t, g, k) && 0 <= w && i < |rows|
    requires x in Values(TypeObs(events, t, g, v), Str(k), rows[i].sec - w, rows[i].sec)
    ensures x in AsValues(Running(rows, v, w, i))
  {
    AboutTypeObs(events, t, g, v);
    RunningMembers(rows, v, w, i);
    var o :| o in TypeObs(events, t, g, v) && Inside(o, Str(k), rows[i].sec - w, rows[i].sec) && o.value == x;
    var r :| r in events && r.etype == t && ObsOf(r, g, v) == o;
    assert FieldOf(r, v) in Running(rows, v, w, i);
  }

  predicate Breaches(rows: seq<Event>, v: Field, w: int, n: int, i: nat)
    requires i < |rows|
  {
    |Running(rows, v, w, i)| >= n
  }

  /** Row `i` starts an episode: it breaches and the row before it does not. */
  predicate Starts(rows: seq<Event>, v: Field, w: int, n: int, i: nat)
    requires i < |rows|
  {
    Breaches(rows, v, w, n, i) && !(i > 0 && Breaches(rows, v, w, n, i - 1))
  }

  function StartsOf(rows: seq<Event>, v: Field, w: int, n: int): nat -> bool {
    (i: nat) => i < |rows| && Starts(rows, v, w, n, i)
  }

  /** What a scan that reports the marked rows says about the first `i` of them. */
  function Marked(b: Behaviour, k: string, rows: seq<Event>, mark: nat -> bool, i: nat): seq<Alert>
    requires i <= |rows|
  {
    if i == 0 then []
    else Marked(b, k, rows, mark, i - 1) + (if mark(i - 1) then [Alert(b, k, rows[i - 1].id, Alerting)] else [])
  }

  function Episodes(b: Behaviour, k: string, rows: seq<Event>, v: Field, w: int, n: int): seq<Alert> {
    Marked(b, k, rows, StartsOf(rows, v, w, n), |rows|)
  }

  function RowObs(rows: seq<Event>, g: Field, v: Field): (r: seq<Obs>)
    ensures |r| == |rows| && forall i | 0 <= i < |rows| :: r[i] == ObsOf(rows[i], g, v)
  {
    if rows == [] then [] else RowObs(rows[..|rows| - 1], g, v) + [ObsOf(rows[|rows| - 1], g, v)]
  }

  lemma {:induction false} BreachesIsBreach(events: seq<Event>, rows: seq<Event>, t: EventType, g: Field, v: Field, k: string, w: int, n: int, i: nat)
    requires EpisodeRows(rows, events, t, g, k) && 0 <= w && i < |rows|
    ensures Breaches(rows, v, w, n, i) <==> Breach(Members(RowObs(rows, g, v)), Str(k), rows[i].sec, w, n)
  {
    RunningIsWindow(events, rows, t, g, v, k, w, i);
    AsValuesSize(Running(rows, v, w, i));
    RowObsMembers(events, rows, t, g, v, k);
    BreachLocal(Members(RowObs(rows, g, v)), TypeObs(events, t, g, v), Str(k), rows[i].sec, w, n);
  }

  lemma {:induction false} RowObsFound(events: seq<Event>, rows: seq<Event>, t: EventType, g: Field, v: Field, k: string, o: Obs)
    requires EpisodeRows(rows, events, t, g, k) && o in RowObs(rows, g, v)
    ensures o in TypeObs(events, t, g, v) && o.group == Str(k)
  {
    AboutTypeObs(events, t, g, v);
    var obs := RowObs(rows, g, v);
    var i :| 0 <= i < |obs| && obs[i] == o;
    assert rows[i] in rows && rows[i] in events;
  }

  lemma {:induction false} TypeObsFound(events: seq<Event>, rows: seq<Event>, t: EventType, g: Field, v: Field, k: string, o: Obs)
    requires EpisodeRows(rows, events, t, g, k) && o in TypeObs(events, t, g, v) && o.group == Str(k)
    ensures o in RowObs(rows, g, v)
  {
    AboutTypeObs(events, t, g, v);
    var e :| e in events && e.etype == t && ObsOf(e, g, v) == o;
    assert e in rows;
    var i :| 0 <= i < |rows| && rows[i] == e;
    assert RowObs(rows, g, v)[i] == o;
  }

  lemma {:induction false} RowObsMembers(events: seq<Event>, rows: seq<Event>, t: EventType, g: Field, v: Field, k: string)
    requires EpisodeRows(rows, events, t, g, k)
    ensures forall o: Obs | o.group == Str(k) :: o in Members(RowObs(rows, g, v)) <==> o in TypeObs(events, t, g, v)
    ensures SortedBy(RowObs(rows, g, v), KeyOf) && OneGroup(RowObs(rows, g, v), Str(k))
  {
    var obs := RowObs(rows, g, v);
    forall o: Obs | o in obs ensures o in TypeObs(events, t, g, v) && o.group == Str(k) { RowObsFound(events, rows, t, g, v, k, o); }
    forall o: Obs | o in TypeObs(events, t, g, v) && o.group == Str(k) ensures o in obs { TypeObsFound(events, rows, t, g, v, k, o); }
    forall i, j | 0 <= i < j < |obs| ensures !KeyLess(KeyOf(obs[j]), KeyOf(obs[i])) {
      assert !KeyLess(EventKey(rows[j]), EventKey(rows[i]));
    }
  }
  lemma {:induction false} EmitsIsScan(events: seq<Event>, rows: seq<Event>, t: EventType, g: Field, v: Field, k: string, w: int, n: int, i: nat)
    requires EpisodeRows(rows, events, t, g, k) && 0 <= w && i < |rows|
    ensures EmitsAt(RowObs(rows, g, v), Str(k), i, w, n) <==>
            Starts(rows, v, w, n, i)
  {
    BreachesIsBreach(events, rows, t, g, v, k, w, n, i);
    if i > 0 { BreachesIsBreach(events, rows, t, g, v, k, w, n, i - 1); }
  }

  ghost predicate MarkedBefore(b: Behaviour, k: string, rows: seq<Event>, mark: nat -> bool, i: nat, a: Alert)
    requires i <= |rows|
  {
    exists j: nat :: j < i && mark(j) && a == Alert(b, k, rows[j].id, Alerting)
  }

  lemma {:induction false} InMarked(b: Behaviour, k: string, rows: seq<Event>, mark: nat -> bool, i: nat, a: Alert)
    requires i <= |rows|
    ensures a in Marked(b, k, rows, mark, i) <==> MarkedBefore(b, k, rows, mark, i, a)
  {
    if i > 0 {
      InMarked(b, k, rows, mark, i - 1, a);
      if MarkedBefore(b, k, rows, mark, i, a) {
        var j: nat :| j < i && mark(j) && a == Alert(b, k, rows[j].id, Alerting);
        assert j < i - 1 ==> MarkedBefore(b, k, rows, mark, i - 1, a);
      }
    }
  }

  /** The detector's episodes are the rising edges of the group. */
  lemma {:induction false} EpisodesAreEdges(b: Behaviour, events: seq<Event>, rows: seq<Event>, t: EventType, g: Field, v: Field, k: string,
                         w: int, n: int, a: Alert)
    requires EpisodeRows(rows, events, t, g, k) && 0 <= w
    ensures a in Episodes(b, k, rows, v, w, n) <==>
              a == Alert(b, k, a.eventId, Alerting) && (Str(k), Str(a.eventId)) in Edges(Members(RowObs(rows, g, v)), w, n)
  {
    var obs, starts := RowObs(rows, g, v), StartsOf(rows, v, w, n);
    RowObsMembers(events, rows, t, g, v, k);
    ScanReportsEdges(obs, Str(k), w, n);
    forall i: nat | i < |rows| ensures EmitsAt(obs, Str(k), i, w, n) <==> starts(i) {
      EmitsIsScan(events, rows, t, g, v, k, w, n, i);
    }
    MarkedAreEmitted(b, k, rows, obs, starts, w, n, a);
  }

  lemma {:induction false} MarkedAreEmitted(b: Behaviour, k: string, rows: seq<Event>, obs: seq<Obs>, mark: nat -> bool, w: int, n: int, a: Alert)
    requires |obs| == |rows| && forall i | 0 <= i < |rows| :: obs[i].id == Str(rows[i].id)
    requires forall i: nat | i < |rows| :: EmitsAt(obs, Str(k), i, w, n) <==> mark(i)
    ensures a in Marked(b, k, rows, mark, |rows|) <==>
              a == Alert(b, k, a.eventId, Alerting) && (Str(k), Str(a.eventId)) in Emitted(obs, Str(k), w, n)
  {
    InMarked(b, k, rows, mark, |rows|, a);
    if MarkedBefore(b, k, rows, mark, |rows|, a) {
      var i: nat :| i < |rows| && mark(i) && a == Alert(b, k, rows[i].id, Alerting);
      assert EmitsAt(obs, Str(k), i, w, n) && (Str(k), obs[i].id) in Emitted(obs, Str(k), w, n);
    }
    if a == Alert(b, k, a.eventId, Alerting) && (Str(k), Str(a.eventId)) in Emitted(obs, Str(k), w, n) {
      var i: nat :| i < |obs| && EmitsAt(obs, Str(k), i, w, n) && obs[i].id == Str(a.eventId);
      assert mark(i) && a == Alert(b, k, rows[i].id, Alerting);
    }
  }

  method GroupEpisodes(b: Behaviour, k: string, rows: seq<Event>, v: Field, w: int, n: int) returns (out: seq<Alert>)
    ensures out == Episodes(b, k, rows, v, w, n)
  {
    out := [];
    ghost var starts := StartsOf(rows, v, w, n);
    var inEpisode := false;
    for i := 0 to |rows|
      invariant out == Marked(b, k, rows, starts, i)
      invariant inEpisode <==> i > 0 && Breaches(rows, v, w, n, i - 1)
    {
      var distinct := UpTo(rows, v, w, i);
      distinct := distinct + Tied(rows, v, i);
      var breach := |distinct| >= n;
      assert breach <==> Breaches(rows, v, w, n, i);
      assert starts(i) <==> breach && !inEpisode;
      if breach && !inEpisode { out := out + [Alert(b, k, rows[i].id, Alerting)]; } else { assert out + [] == out; }
      inEpisode := breach;
    }
  }

  /** The reports of a distinct-count rule. */
  function EdgeAlerts(events: seq<Event>, b: Behaviour, t: EventType, g: Field, v: Field, w: int, n: int): set<Alert> {
    set e | e in events && e.etype == t && RisingEdge(TypeObs(events, t, g, v), ObsOf(e, g, v), w, n) ::
      Alert(b, FieldOf(e, g), e.id, Alerting)
  }

  lemma {:induction false} GroupEdges(b: Behaviour, events: seq<Event>, rows: seq<Event>, t: EventType, g: Field, v: Field, k: string, w: int, n: int)
    requires EpisodeRows(rows, events, t, g, k) && 0 <= w
    ensures GroupsDone(Episodes(b, k, rows, v, w, n), EdgeAlerts(events, b, t, g, v, w, n), [k])
  {
    var obs := RowObs(rows, g, v);
    RowObsMembers(events, rows, t, g, v, k);
    forall a: Alert ensures a in Episodes(b, k, rows, v, w, n) <==> a in EdgeAlerts(events, b, t, g, v, w, n) && a.groupKey in [k] {
      EpisodesAreEdges(b, events, rows, t, g, v, k, w, n, a);
      EdgesAreAlerts(b, events, Members(obs), t, g, v, k, w, n, a);
    }
  }

  /** The rising edges of one group's observations are the reports about that group. */
  lemma {:induction false} EdgesAreAlerts(b: Behaviour, events: seq<Event>, obs: set<Obs>, t: EventType, g: Field, v: Field, k: string,
                                          w: int, n: int, a: Alert)
    requires forall o | o in obs :: o.group == Str(k)
    requires forall o: Obs | o.group == Str(k) :: o in obs <==> o in TypeObs(events, t, g, v)
    ensures (a == Alert(b, k, a.eventId, Alerting) && (Str(k), Str(a.eventId)) in Edges(obs, w, n)) <==>
              a in EdgeAlerts(events, b, t, g, v, w, n) && a.groupKey == k
  {
    AboutTypeObs(events, t, g, v);
    if a == Alert(b, k, a.eventId, Alerting) && (Str(k), Str(a.eventId)) in Edges(obs, w, n) {
      var o :| o in obs && RisingEdge(obs, o, w, n) && (o.group, o.id) == (Str(k), Str(a.eventId));
      var e :| e in events && e.etype == t && ObsOf(e, g, v) == o;
      RisingEdgeLocal(obs, TypeObs(events, t, g, v), o, w, n);
    }
    if a in EdgeAlerts(events, b, t, g, v, w, n) && a.groupKey == k {
      var e :| e in events && e.etype == t && RisingEdge(TypeObs(events, t, g, v), ObsOf(e, g, v), w, n)
               && a == Alert(b, FieldOf(e, g), e.id, Alerting);
      RisingEdgeLocal(obs, TypeObs(events, t, g, v), ObsOf(e, g, v), w, n);
      assert (ObsOf(e, g, v).group, ObsOf(e, g, v).id) in Edges(obs, w, n);
    }
  }

  function KeyOfField(g: Field): Event -> string { (e: Event) => FieldOf(e, g) }

  lemma {:induction false} GroupIsEpisode(events: seq<Event>, t: EventType, g: Field, k: string)
    requires SortedBy(events, EventKey)
    ensures EpisodeRows(WithKey(TypedRows(events, t), KeyOfField(g), k), events, t, g, k)
  {
    var typed, key := TypedRows(events, t), KeyOfField(g);
    AboutTypedRows(events, t);
    WithKeySorted(typed, key, k);
    forall e ensures e in WithKey(typed, key, k) <==> e in typed && key(e) == k { InWithKey(typed, key, k, e); }
  }

  lemma {:induction false} GroupsCovered(events: seq<Event>, t: EventType, g: Field, order: seq<string>)
    requires SortedBy(events, EventKey)
    requires Members(order) == set e | e in TypedRows(events, t) :: KeyOfField(g)(e)
    ensures forall e | e in events && e.etype == t :: FieldOf(e, g) in order
  {
    AboutTypedRows(events, t);
    forall e | e in events && e.etype == t ensures FieldOf(e, g) in order {
      assert e in TypedRows(events, t) && KeyOfField(g)(e) in Members(order);
    }
  }

  function EpisodesFor(b: Behaviour, typed: seq<Event>, g: Field, v: Field, w: int, n: int): string -> seq<Alert> {
    k => Episodes(b, k, WithKey(typed, KeyOfField(g), k), v, w, n)
  }

  /** One group after the other, in order of first appearance. */
  method ScanGroups(order: seq<string>, groups: map<string, seq<Event>>, b: Behaviour, v: Field, w: int, n: int, ghost report: string -> seq<Alert>)
    returns (out: seq<Alert>)
    requires forall i | 0 <= i < |order| :: order[i] in groups && report(order[i]) == Episodes(b, order[i], groups[order[i]], v, w, n)
    ensures out == ForEach(order, report)
  {
    out := [];
    for i := 0 to |order|
      invariant out == ForEach(order[..i], report)
    {
      ForEachNext(order, i, report);
      var more := GroupEpisodes(b, order[i], groups[order[i]], v, w, n);
      out := out + more;
    }
    assert order[..|order|] == order;
  }

  lemma {:induction false} EachGroup(rows: seq<Event>, key: Event -> string, order: seq<string>, groups: map<string, seq<Event>>)
    requires Members(order) == groups.Keys && forall k | k in groups :: groups[k] == WithKey(rows, key, k)
    ensures forall i | 0 <= i < |order| :: order[i] in groups && groups[order[i]] == WithKey(rows, key, order[i])
  {
    forall i | 0 <= i < |order| ensures order[i] in groups { assert order[i] in Members(order); }
  }

  method DistinctEpisodes(prepared: seq<Event>, b: Behaviour, t: EventType, g: Field, v: Field, w: int, n: int)
    returns (out: seq<Alert>)
    requires SortedBy(prepared, EventKey) && 0 <= w
    ensures Members(out) == EdgeAlerts(prepared, b, t, g, v, w, n)
  {
    var typed := TypedRows(prepared, t);
    var order, groups := GroupBy(typed, KeyOfField(g));
    EachGroup(typed, KeyOfField(g), order, groups);
    out := ScanGroups(order, groups, b, v, w, n, EpisodesFor(b, typed, g, v, w, n));
    EpisodesComplete(b, prepared, t, g, order, v, w, n);
  }

  lemma {:induction false} EpisodesComplete(b: Behaviour, events: seq<Event>, t: EventType, g: Field, order: seq<string>, v: Field, w: int, n: int)
    requires SortedBy(events, EventKey) && 0 <= w
    requires Members(order) == set e | e in TypedRows(events, t) :: KeyOfField(g)(e)
    ensures Members(ForEach(order, EpisodesFor(b, TypedRows(events, t), g, v, w, n))) == EdgeAlerts(events, b, t, g, v, w, n)
  {
    var typed := TypedRows(events, t);
    var report, all := EpisodesFor(b, typed, g, v, w, n), EdgeAlerts(events, b, t, g, v, w, n);
    forall k | k in order ensures GroupsDone(report(k), all, [k]) {
      GroupIsEpisode(events, t, g, k);
      GroupEdges(b, events, WithKey(typed, KeyOfField(g), k), t, g, v, k, w, n);
    }
    ForEachDone(order, report, all);
    GroupsCovered(events, t, g, order);
    AllDone(ForEach(order, report), all, order);
  }

  // ------------------------------------------------------------------ policy rules

  method DetectPolicy(prepared: seq<Event>, policy: Policy, ghost p: Params) returns (out: seq<Alert>)
    ensures Members(out) == AlertsOf(prepared, policy, p, B4) + AlertsOf(prepared, policy, p, B5)
  {
    out := [];
    for i := 0 to |prepared|
      invariant Members(out) == AlertsOf(prepared[..i], policy, p, B4) + AlertsOf(prepared[..i], policy, p, B5)
    {
      var e := prepared[i];
      assert prepared[..i + 1] == prepared[..i] + [e];
      ghost var before := out;
      if e.etype.LoginSuccess? {
        if e.account !in policy {
          out := out + [Alert(B4, e.account, e.id, Insufficient)];
          out := out + [Alert(B5, e.account, e.id, Insufficient)];
        } else {
          var row := policy[e.account];
          if e.method_.None? {
            out := out + [Alert(B4, e.account, e.id, Insufficient)];
          } else if e.method_.value != row.expectedMethod {
            out := out + [Alert(B4, e.account, e.id, Alerting)];
          }
          if e.mfa.None? {
            out := out + [Alert(B5, e.account, e.id, Insufficient)];
          } else if row.mfaRequired && e.mfa.value == false {
            out := out + [Alert(B5, e.account, e.id, Alerting)];
          }
        }
      }
      PolicyStep(prepared[..i], policy, p, e);
      assert Members(out) == Members(before) + OneEvent(policy, e);
    }
    assert prepared[..|prepared|] == prepared;
  }

  function OneEvent(policy: Policy, e: Event): set<Alert> {
    (if StatusB4(policy, e) != NoAlert then {Alert(B4, e.account, e.id, StatusB4(policy, e))} else {})
    + (if StatusB5(policy, e) != NoAlert then {Alert(B5, e.account, e.id, StatusB5(policy, e))} else {})
  }

  /** The policy rules look at nothing but the event. */
  lemma {:induction false} PolicyAlertsAbout(some: seq<Event>, events: seq<Event>, policy: Policy, p: Params, b: Behaviour)
    requires b == B4 || b == B5
    ensures AlertsAbout(some, events, policy, p, b) == AlertsAbout(some, [], policy, p, b)
  {
    if some != [] { PolicyAlertsAbout(some[..|some| - 1], events, policy, p, b); }
  }

  lemma {:induction false} PolicyRuleStep(rows: seq<Event>, policy: Policy, p: Params, e: Event, b: Behaviour)
    requires b == B4 || b == B5
    ensures AlertsOf(rows + [e], policy, p, b) == AlertsOf(rows, policy, p, b)
            + if StatusOf([], policy, p, b, e) != NoAlert then {AlertAbout([], policy, p, b, e)} else {}
  {
    PolicyAlertsAbout(rows, rows, policy, p, b);
    PolicyAlertsAbout(rows + [e], rows + [e], policy, p, b);
    assert (rows + [e])[..|rows|] == rows;
  }

  lemma {:induction false} TwoUnions(a: set<Alert>, b: set<Alert>, x: set<Alert>, y: set<Alert>)
    ensures (a + x) + (b + y) == a + b + (x + y)
  {}

  lemma {:induction false} PolicyStep(rows: seq<Event>, policy: Policy, p: Params, e: Event)
    ensures AlertsOf(rows + [e], policy, p, B4) + AlertsOf(rows + [e], policy, p, B5)
            == AlertsOf(rows, policy, p, B4) + AlertsOf(rows, policy, p, B5) + OneEvent(policy, e)
  {
    PolicyRuleStep(rows, policy, p, e, B4);
    PolicyRuleStep(rows, policy, p, e, B5);
    var x := if StatusB4(policy, e) != NoAlert then {Alert(B4, e.account, e.id, StatusB4(policy, e))} else {};
    var y := if StatusB5(policy, e) != NoAlert then {Alert(B5, e.account, e.id, StatusB5(policy, e))} else {};
    TwoUnions(AlertsOf(rows, policy, p, B4), AlertsOf(rows, policy, p, B5), x, y);
  }

  // ------------------------------------------------------------------ `detect`

  method BuildPolicy(records: seq<PolicyRow>) returns (policy: Policy)
    ensures policy == PolicyMap(records)
  {
    policy := map[];
    for i := 0 to |records|
      invariant policy == PolicyMap(records[..i])
    {
      assert records[..i + 1][..i] == records[..i];
      policy := policy[records[i].account := records[i]];
    }
    assert records[..|records|] == records;
  }

  lemma {:induction false} EdgeAlertsAre(events: seq<Event>, policy: Policy, p: Params)
    ensures EdgeAlerts(events, B2, LoginFailure, Host, Account, p.w2, p.t2) == AlertsOf(events, policy, p, B2)
    ensures EdgeAlerts(events, B3, LoginSuccess, Account, Host, p.w3, p.t3) == AlertsOf(events, policy, p, B3)
  {
    AboutAlertsOf(events, policy, p, B2);
    AboutAlertsOf(events, policy, p, B3);
  }

  /** All five rules over a log in any order: exactly the findings, whatever order the rows arrive in. */
  method Detect(events: seq<Event>, records: seq<PolicyRow>, p: Params) returns (alerts: seq<Alert>)
    requires 0 <= p.w2 && 0 <= p.w3
    ensures Members(alerts) == Findings(events, PolicyMap(records), p)
  {
    var prepared := Sort(events, EventKey);
    SortSorted(events, EventKey);
    var policy := BuildPolicy(records);
    var b1 := DetectB1(prepared, p, policy);
    var b2 := DistinctEpisodes(prepared, B2, LoginFailure, Host, Account, p.w2, p.t2);
    var b3 := DistinctEpisodes(prepared, B3, LoginSuccess, Account, Host, p.w3, p.t3);
    var b45 := DetectPolicy(prepared, policy, p);
    alerts := b1 + b2 + b3 + b45;
    AllReported(prepared, policy, p, b1, b2, b3, b45);
    FindingsPermuted(events, prepared, policy, p);
  }

  lemma {:induction false} AllReported(events: seq<Event>, policy: Policy, p: Params, b1: seq<Alert>, b2: seq<Alert>, b3: seq<Alert>, b45: seq<Alert>)
    requires Members(b1) == AlertsOf(events, policy, p, B1)
    requires Members(b2) == EdgeAlerts(events, B2, LoginFailure, Host, Account, p.w2, p.t2)
    requires Members(b3) == EdgeAlerts(events, B3, LoginSuccess, Account, Host, p.w3, p.t3)
    requires Members(b45) == AlertsOf(events, policy, p, B4) + AlertsOf(events, policy, p, B5)
    ensures Members(b1 + b2 + b3 + b45) == Findings(events, policy, p)
  {
    EdgeAlertsAre(events, policy, p);
    assert Members(b1 + b2 + b3 + b45) == Members(b1) + Members(b2) + Members(b3) + Members(b45);
  }

  // ------------------------------------------------------------------ isolated parts of a log

  ghost predicate Isolated(a: seq<Event>, b: seq<Event>) {
    forall x, y | x in a && y in b :: x.account != y.account && x.host != y.host
  }

  ghost predicate SamePolicyFor(events: seq<Event>, m: Policy, n: Policy) {
    forall e | e in events :: (e.account in m <==> e.account in n) && (e.account in m ==> m[e.account] == n[e.account])
  }

  lemma {:induction false} FailureObsMembers(events: seq<Event>)
    ensures forall o :: o in FailureObs(events) <==>
              exists e :: e in events && e.etype.LoginFailure? && o == Obs(Str(e.id), e.sec, Str(e.account), Null)
  {
    if events != [] {
      FailureObsMembers(events[..|events| - 1]);
      var rest, last := events[..|events| - 1], events[|events| - 1];
      assert forall e :: e in events <==> e in rest || e == last;
    }
  }

  /** Events that share no account and no host with `e`'s part of the log do not change the verdict on `e`. */
  lemma {:induction false} StatusLocal(a: seq<Event>, b: seq<Event>, m: Policy, n: Policy, p: Params, r: Behaviour, e: Event)
    requires Isolated(a, b) && e in a && SamePolicyFor(a, m, n)
    ensures StatusOf(a + b, m, p, r, e) == StatusOf(a, n, p, r, e)
    ensures StatusOf(b + a, m, p, r, e) == StatusOf(a, n, p, r, e)
  {
    match r
    case B1 => FailuresLocal(a, b, e, e.sec - p.w1, e.sec);
    case B2 => EdgeLocal(a, b, LoginFailure, Host, Account, p.w2, p.t2, e);
    case B3 => EdgeLocal(a, b, LoginSuccess, Account, Host, p.w3, p.t3, e);
    case B4 =>
    case B5 =>
  }

  lemma {:induction false} FailuresLocal(a: seq<Event>, b: seq<Event>, e: Event, lo: int, hi: int)
    requires Isolated(a, b) && e in a
    ensures Count(FailureObs(a + b), Str(e.account), lo, hi) == Count(FailureObs(a), Str(e.account), lo, hi)
    ensures Count(FailureObs(b + a), Str(e.account), lo, hi) == Count(FailureObs(a), Str(e.account), lo, hi)
  {
    FailureObsAppend(a, b);
    FailureObsAppend(b, a);
    FailureObsMembers(b);
    CountAppend(FailureObs(a), FailureObs(b), Str(e.account), lo, hi);
    CountAppend(FailureObs(b), FailureObs(a), Str(e.account), lo, hi);
    CountZero(FailureObs(b), Str(e.account), lo, hi);
  }

  lemma {:induction false} EdgeLocal(a: seq<Event>, b: seq<Event>, t: EventType, g: Field, v: Field, w: int, n: int, e: Event)
    requires Isolated(a, b) && e in a
    ensures RisingEdge(TypeObs(a + b, t, g, v), ObsOf(e, g, v), w, n) <==> RisingEdge(TypeObs(a, t, g, v), ObsOf(e, g, v), w, n)
    ensures RisingEdge(TypeObs(b + a, t, g, v), ObsOf(e, g, v), w, n) <==> RisingEdge(TypeObs(a, t, g, v), ObsOf(e, g, v), w, n)
  {
    AboutTypeObs(a, t, g, v);
    AboutTypeObs(a + b, t, g, v);
    AboutTypeObs(b + a, t, g, v);
    forall o: Obs | o.group == ObsOf(e, g, v).group
      ensures o in TypeObs(a + b, t, g, v) <==> o in TypeObs(a, t, g, v)
      ensures o in TypeObs(b + a, t, g, v) <==> o in TypeObs(a, t, g, v)
    {
      forall x | x in b ensures ObsOf(x, g, v) != o { assert x.account != e.account && x.host != e.host; }
    }
    RisingEdgeLocal(TypeObs(a + b, t, g, v), TypeObs(a, t, g, v), ObsOf(e, g, v), w, n);
    RisingEdgeLocal(TypeObs(b + a, t, g, v), TypeObs(a, t, g, v), ObsOf(e, g, v), w, n);
  }

  /** Isolated parts of a log report exactly what each reports alone. */
  lemma {:induction false} FindingsOfIsolated(a: seq<Event>, b: seq<Event>, m: Policy, ma: Policy, mb: Policy, p: Params)
    requires Isolated(a, b) && SamePolicyFor(a, m, ma) && SamePolicyFor(b, m, mb)
    ensures Findings(a + b, m, p) == Findings(a, ma, p) + Findings(b, mb, p)
  {
    AlertsOfIsolated(a, b, m, ma, mb, p, B1);
    AlertsOfIsolated(a, b, m, ma, mb, p, B2);
    AlertsOfIsolated(a, b, m, ma, mb, p, B3);
    AlertsOfIsolated(a, b, m, ma, mb, p, B4);
    AlertsOfIsolated(a, b, m, ma, mb, p, B5);
    UnionOfFive(AlertsOf(a, ma, p, B1), AlertsOf(b, mb, p, B1), AlertsOf(a, ma, p, B2), AlertsOf(b, mb, p, B2),
                AlertsOf(a, ma, p, B3), AlertsOf(b, mb, p, B3), AlertsOf(a, ma, p, B4), AlertsOf(b, mb, p, B4),
                AlertsOf(a, ma, p, B5), AlertsOf(b, mb, p, B5));
  }

  lemma {:induction false} UnionOfFive<T>(a1: set<T>, b1: set<T>, a2: set<T>, b2: set<T>, a3: set<T>, b3: set<T>, a4: set<T>, b4: set<T>,
                       a5: set<T>, b5: set<T>)
    ensures (a1 + b1) + (a2 + b2) + (a3 + b3) + (a4 + b4) + (a5 + b5) == (a1 + a2 + a3 + a4 + a5) + (b1 + b2 + b3 + b4 + b5)
  {}

  lemma {:induction false} StatusApart(a: seq<Event>, b: seq<Event>, m: Policy, ma: Policy, mb: Policy, p: Params, r: Behaviour)
    requires Isolated(a, b) && SamePolicyFor(a, m, ma) && SamePolicyFor(b, m, mb)
    ensures forall e | e in a :: StatusOf(a + b, m, p, r, e) == StatusOf(a, ma, p, r, e)
    ensures forall e | e in b :: StatusOf(a + b, m, p, r, e) == StatusOf(b, mb, p, r, e)
  {
    forall e | e in a ensures StatusOf(a + b, m, p, r, e) == StatusOf(a, ma, p, r, e) { StatusLocal(a, b, m, ma, p, r, e); }
    forall e | e in b ensures StatusOf(a + b, m, p, r, e) == StatusOf(b, mb, p, r, e) {
      assert Isolated(b, a);
      StatusLocal(b, a, m, mb, p, r, e);
    }
  }

  /** The alerts of a part whose events have the same verdict in the whole. */
  lemma {:induction false} AlertsOfPart(part: seq<Event>, whole: seq<Event>, m: Policy, mp: Policy, p: Params, r: Behaviour)
    requires forall e | e in part :: e in whole && StatusOf(whole, m, p, r, e) == StatusOf(part, mp, p, r, e)
    ensures AlertsOf(part, mp, p, r) <= AlertsOf(whole, m, p, r)
  {
    AboutAlertsOf(whole, m, p, r);
    AboutAlertsOf(part, mp, p, r);
    forall x | x in AlertsOf(part, mp, p, r) ensures x in AlertsOf(whole, m, p, r) {
      var e :| e in part && StatusOf(part, mp, p, r, e) != NoAlert && x == AlertAbout(part, mp, p, r, e);
      assert e in whole;
    }
  }

  lemma {:induction false} AlertsFromParts(a: seq<Event>, b: seq<Event>, m: Policy, ma: Policy, mb: Policy, p: Params, r: Behaviour)
    requires forall e | e in a :: StatusOf(a + b, m, p, r, e) == StatusOf(a, ma, p, r, e)
    requires forall e | e in b :: StatusOf(a + b, m, p, r, e) == StatusOf(b, mb, p, r, e)
    ensures AlertsOf(a + b, m, p, r) <= AlertsOf(a, ma, p, r) + AlertsOf(b, mb, p, r)
  {
    AboutAlertsOf(a + b, m, p, r);
    AboutAlertsOf(a, ma, p, r);
    AboutAlertsOf(b, mb, p, r);
    forall x | x in AlertsOf(a + b, m, p, r) ensures x in AlertsOf(a, ma, p, r) + AlertsOf(b, mb, p, r) {
      var e :| e in a + b && StatusOf(a + b, m, p, r, e) != NoAlert && x == AlertAbout(a + b, m, p, r, e);
      assert e in a || e in b;
    }
  }

  lemma {:induction false} AlertsOfIsolated(a: seq<Event>, b: seq<Event>, m: Policy, ma: Policy, mb: Policy, p: Params, r: Behaviour)
    requires Isolated(a, b) && SamePolicyFor(a, m, ma) && SamePolicyFor(b, m, mb)
    ensures AlertsOf(a + b, m, p, r) == AlertsOf(a, ma, p, r) + AlertsOf(b, mb, p, r)
  {
    StatusApart(a, b, m, ma, mb, p, r);
    AlertsOfPart(a, a + b, m, ma, p, r);
    AlertsOfPart(b, a + b, m, mb, p, r);
    AlertsFromParts(a, b, m, ma, mb, p, r);
  }
}
