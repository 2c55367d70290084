/** The logs the incident builders of scripts/datagen/incidents.py write, and why each label is right about its log. */
module IncidentLogs {
  import opened Ordering
  import opened Detection
  import opened Grouping
  import opened RefDetect
  import opened IncidentShapes
  import opened Labels

  // ------------------------------------------------------------------ policy rows

  function HumanRow(account: string): PolicyRow { PolicyRow(account, "human", "password", false) }

  function HumanRows(accounts: seq<string>): (r: seq<PolicyRow>)
    ensures |r| == |accounts| && forall i | 0 <= i < |r| :: r[i] == HumanRow(accounts[i])
  {
    if accounts == [] then [] else HumanRows(accounts[..|accounts| - 1]) + [HumanRow(accounts[|accounts| - 1])]
  }

  lemma {:induction false} HumanRowsSnoc(accounts: seq<string>, a: string)
    ensures HumanRows(accounts + [a]) == HumanRows(accounts) + [HumanRow(a)]
  {
    assert (accounts + [a])[..|accounts|] == accounts;
  }

  lemma {:induction false} HumanRowsOne(a: string)
    ensures HumanRows([a]) == [HumanRow(a)]
  {
    assert [a][..0] == [];
  }

  /** Every listed account has a human, password-only policy row. */
  predicate HumanMap(m: Policy, accounts: seq<string>) { forall x | x in accounts :: x in m && m[x] == HumanRow(x) }

  lemma {:induction false} HumanPolicy(accounts: seq<string>)
    ensures HumanMap(PolicyMap(HumanRows(accounts)), accounts)
  {
    var rows := HumanRows(accounts);
    forall x | x in accounts ensures x in PolicyMap(rows) && PolicyMap(rows)[x] == HumanRow(x) {
      var i :| 0 <= i < |accounts| && accounts[i] == x;
      assert rows[i] in rows;
      PolicyMapMember(rows, x);
    }
  }

  lemma {:induction false} OneRow(row: PolicyRow)
    ensures PolicyMap([row]) == map[row.account := row]
  {
    assert [row][..0] == [];
  }

  // ------------------------------------------------------------------ labels about one finding

  /** The label of an incident that should be reported at `trigger`, or not at all. */
  function Verdict(b: Behaviour, kind: Kind, fires: bool, groups: seq<string>, trigger: string, ids: seq<string>): Label {
    Label(b, kind, if fires then Alerting else NoAlert, groups, if fires then Some(trigger) else None, ids)
  }

  lemma {:induction false} SpokenOne(a: Alert)
    ensures Spoken({a}) == {FindingOf(a)}
  {}

  lemma {:induction false} SpokenNone()
    ensures Spoken({}) == {}
  {}

  lemma {:induction false} VerdictExact(b: Behaviour, kind: Kind, fires: bool, groups: seq<string>, g: string, trigger: string, ids: seq<string>, found: set<Alert>)
    requires found == if fires then {Alert(b, g, trigger, Alerting)} else {}
    requires fires ==> trigger in ids
    ensures Exact(Spoken(found), [Verdict(b, kind, fires, groups, trigger, ids)])
  {
    SpokenNone();
    SpokenOne(Alert(b, g, trigger, Alerting));
    SingleLabel(Verdict(b, kind, fires, groups, trigger, ids), Spoken(found));
  }

  predicate Own(ids: seq<string>, all: set<string>) { forall id | id in ids :: id in all }

  /** An incident whose label names its single finding, or none, is sound. */
  lemma {:induction false} VerdictIncident(p: Params, inc: seq<Event>, l: Label, rows: seq<PolicyRow>, ids: set<string>, accounts: set<string>, hosts: set<string>,
                        fires: bool, g: string, trigger: string)
    requires Uses(inc, rows, ids, accounts, hosts) && Own(l.eventIds, ids)
    requires l == Verdict(l.behaviour, l.kind, fires, l.groupKeys, trigger, l.eventIds) && (fires ==> trigger in l.eventIds)
    requires Findings(inc, PolicyMap(rows), p) == if fires then {Alert(l.behaviour, g, trigger, Alerting)} else {}
    ensures Sound(p, inc, [l], rows, ids, accounts, hosts)
  {
    VerdictExact(l.behaviour, l.kind, fires, l.groupKeys, g, trigger, l.eventIds, Findings(inc, PolicyMap(rows), p));
  }

  // ------------------------------------------------------------------ bursts

  predicate Plain(e: Event, t: EventType, host: string) {
    e.etype == t && e.host == host && e.method_ == Some("password") && e.mfa == Some(false)
  }

  lemma {:induction false} AboutBurst(ids: seq<string>, secs: seq<int>, accounts: seq<string>, t: EventType, host: string)
    requires |ids| == |secs| == |accounts|
    ensures forall e | e in Burst(ids, secs, accounts, t, host) :: Plain(e, t, host) && e.account in accounts && e.id in ids
  {
    var events := Burst(ids, secs, accounts, t, host);
    forall e | e in events ensures Plain(e, t, host) && e.account in accounts && e.id in ids {
      var i :| 0 <= i < |events| && events[i] == e;
    }
    forall id | id in ids ensures id in IdsOf(events) {
      var i :| 0 <= i < |ids| && ids[i] == id;
      assert events[i].id == id;
    }
  }

  // ------------------------------------------------------------------ B1: failures, then perhaps a success

  /** Failures of account `a` at the given seconds, then the success `s`, all from one host. */
  function SequenceLog(ids: seq<string>, a: string, h: string, fails: seq<int>, s: Event): seq<Event>
    requires |ids| == |fails|
  {
    Burst(ids, fails, Repeat(a, |fails|), LoginFailure, h) + [s]
  }

  lemma {:induction false} SequenceFires(p: Params, ids: seq<string>, a: string, h: string, fails: seq<int>, s: Event)
    requires |ids| == |fails| && Plain(s, LoginSuccess, h) && s.account == a
    ensures FiresB1(SequenceLog(ids, a, h, fails, s), p, s) <==> SecsWithin(fails, s.sec - p.w1, s.sec) >= p.t1
  {
    FailureObsSnoc(Burst(ids, fails, Repeat(a, |fails|), LoginFailure, h), s, Str(a), s.sec - p.w1, s.sec);
    BurstCount(ids, fails, a, h, s.sec - p.w1, s.sec);
  }

  /** The sequence rule speaks exactly when enough of the failures lie in the closed window before the success. */
  lemma {:induction false} SequenceFindings(p: Params, m: Policy, ids: seq<string>, a: string, h: string, fails: seq<int>, s: Event)
    requires Accepted(p) && HumanMap(m, [a]) && |ids| == |fails| && Plain(s, LoginSuccess, h) && s.account == a
    ensures Findings(SequenceLog(ids, a, h, fails, s), m, p) ==
            if SecsWithin(fails, s.sec - p.w1, s.sec) >= p.t1 then {Alert(B1, a, s.id, Alerting)} else {}
  {
    AboutBurst(ids, fails, Repeat(a, |fails|), LoginFailure, h);
    assert a in [a];
    SequenceFires(p, ids, a, h, fails, s);
    OneSuccess(SequenceLog(ids, a, h, fails, s), m, p, s, a);
  }

  lemma {:induction false} SequenceUses(ids: seq<string>, a: string, h: string, fails: seq<int>, s: Event)
    requires |ids| == |fails| && Plain(s, LoginSuccess, h) && s.account == a
    ensures Uses(SequenceLog(ids, a, h, fails, s), [HumanRow(a)], Members(ids + [s.id]), {a}, {h})
  {
    AboutBurst(ids, fails, Repeat(a, |fails|), LoginFailure, h);
    var burst := Burst(ids, fails, Repeat(a, |fails|), LoginFailure, h);
    assert IdsOf(burst + [s]) == IdsOf(burst) + {s.id};
  }

  lemma {:induction false} SequenceIncident(p: Params, ids: seq<string>, a: string, h: string, fails: seq<int>, s: Event, l: Label, fires: bool)
    requires Accepted(p) && |ids| == |fails| && Plain(s, LoginSuccess, h) && s.account == a
    requires fires <==> SecsWithin(fails, s.sec - p.w1, s.sec) >= p.t1
    requires l == Verdict(B1, l.kind, fires, [a], s.id, ids + [s.id])
    ensures Sound(p, SequenceLog(ids, a, h, fails, s), [l], [HumanRow(a)], Members(ids + [s.id]), {a}, {h})
  {
    var inc := SequenceLog(ids, a, h, fails, s);
    OneRow(HumanRow(a));
    SequenceFindings(p, PolicyMap([HumanRow(a)]), ids, a, h, fails, s);
    SequenceUses(ids, a, h, fails, s);
    VerdictIncident(p, inc, l, [HumanRow(a)], Members(ids + [s.id]), {a}, {h}, fires, a, s.id);
  }

  lemma {:induction false} SequenceExtends(p: Params, before: Snapshot, after: Snapshot, ids: seq<string>, a: string, h: string,
                                           fails: seq<int>, s: Event, l: Label, fires: bool)
    requires Accepted(p) && |ids| == |fails| && Plain(s, LoginSuccess, h) && s.account == a
    requires fires <==> SecsWithin(fails, s.sec - p.w1, s.sec) >= p.t1
    requires l == Verdict(B1, l.kind, fires, [a], s.id, ids + [s.id])
    requires Joins(before, Snapshot(SequenceLog(ids, a, h, fails, s), [l], [HumanRow(a)], Members(ids + [s.id]), {a}, {h}), after)
    ensures Extends(p, before, after)
  {
    SequenceIncident(p, ids, a, h, fails, s, l, fires);
  }

  // ------------------------------------------------------------------ pieces of a generated log

  /** A burst on accounts `all` and host `h`, with its label. */
  ghost function BurstPiece(ids: seq<string>, secs: seq<int>, accounts: seq<string>, t: EventType, h: string, all: seq<string>, l: Label): Snapshot
    requires |ids| == |secs| == |accounts|
  {
    Snapshot(Burst(ids, secs, accounts, t, h), [l], HumanRows(all), Members(ids), Members(all), {h})
  }

  /** The label of a burst reported at its event `first`, or not at all. */
  function BurstLabel(b: Behaviour, kind: Kind, fires: bool, groups: seq<string>, first: nat, ids: seq<string>): Label {
    Verdict(b, kind, fires, groups, if first < |ids| then ids[first] else "", ids)
  }

  /** Whatever ids its events get, the burst and its label form a sound piece. */
  ghost predicate SoundBurst(p: Params, secs: seq<int>, accounts: seq<string>, t: EventType, h: string, all: seq<string>,
                             b: Behaviour, kind: Kind, fires: bool, groups: seq<string>, first: nat)
    requires |secs| == |accounts|
  {
    forall ids: seq<string> | |ids| == |secs| ::
      SoundState(p, BurstPiece(ids, secs, accounts, t, h, all, BurstLabel(b, kind, fires, groups, first, ids)))
  }

  lemma {:induction false} BurstExtends(p: Params, before: Snapshot, after: Snapshot, ids: seq<string>, secs: seq<int>, accounts: seq<string>,
                                        t: EventType, h: string, all: seq<string>, b: Behaviour, kind: Kind, fires: bool,
                                        groups: seq<string>, first: nat)
    requires |ids| == |secs| == |accounts| && SoundBurst(p, secs, accounts, t, h, all, b, kind, fires, groups, first)
    requires Joins(before, BurstPiece(ids, secs, accounts, t, h, all, BurstLabel(b, kind, fires, groups, first, ids)), after)
    ensures Extends(p, before, after)
  {
    Extended(p, before, BurstPiece(ids, secs, accounts, t, h, all, BurstLabel(b, kind, fires, groups, first, ids)), after);
  }

  // ------------------------------------------------------------------ incidents that must stay silent

  lemma {:induction false} QuietIncident(p: Params, inc: seq<Event>, l: Label, rows: seq<PolicyRow>,
                                         ids: set<string>, accounts: set<string>, hosts: set<string>)
    requires Uses(inc, rows, ids, accounts, hosts) && Own(l.eventIds, ids)
    requires l.expected == NoAlert && l.trigger == None
    requires Findings(inc, PolicyMap(rows), p) == {}
    ensures Sound(p, inc, [l], rows, ids, accounts, hosts)
  {
    VerdictIncident(p, inc, l, rows, ids, accounts, hosts, false, "", "");
  }

  lemma {:induction false} BurstUses(ids: seq<string>, secs: seq<int>, accounts: seq<string>, t: EventType, host: string, all: seq<string>)
    requires |ids| == |secs| == |accounts| && forall x | x in accounts :: x in all
    ensures Uses(Burst(ids, secs, accounts, t, host), HumanRows(all), Members(ids), Members(all), {host})
  {
    AboutBurst(ids, secs, accounts, t, host);
    var rows := HumanRows(all);
    forall r | r in rows ensures r.account in all {
      var i :| 0 <= i < |rows| && rows[i] == r;
      assert all[i] in all;
    }
  }

  /** Failures of few accounts say nothing, whatever their times. */
  lemma {:induction false} FewAccountsFail(p: Params, ids: seq<string>, secs: seq<int>, accounts: seq<string>, host: string, all: seq<string>, l: Label)
    requires Accepted(p) && |ids| == |secs| == |accounts| && |all| < p.t2
    requires forall x | x in accounts :: x in all
    requires l.expected == NoAlert && l.trigger == None && l.eventIds == ids
    ensures Sound(p, Burst(ids, secs, accounts, LoginFailure, host), [l], HumanRows(all), Members(ids), Members(all), {host})
  {
    var inc := Burst(ids, secs, accounts, LoginFailure, host);
    AboutBurst(ids, secs, accounts, LoginFailure, host);
    BurstUses(ids, secs, accounts, LoginFailure, host, all);
    MembersAtMost(all);
    OnlyFailures(inc, PolicyMap(HumanRows(all)), p);
    QuietB2(inc, PolicyMap(HumanRows(all)), p, Members(all));
    QuietIncident(p, inc, l, HumanRows(all), Members(ids), Members(all), {host});
  }

  /** Successes on one host, one or more per account, are not a spray and not concurrent sessions. */
  lemma {:induction false} SuccessesOnOneHost(p: Params, ids: seq<string>, secs: seq<int>, accounts: seq<string>, host: string, l: Label)
    requires Accepted(p) && |ids| == |secs| == |accounts|
    requires l.expected == NoAlert && l.trigger == None && l.eventIds == ids
    ensures Sound(p, Burst(ids, secs, accounts, LoginSuccess, host), [l], HumanRows(accounts), Members(ids), Members(accounts), {host})
  {
    var inc, m := Burst(ids, secs, accounts, LoginSuccess, host), PolicyMap(HumanRows(accounts));
    AboutBurst(ids, secs, accounts, LoginSuccess, host);
    BurstUses(ids, secs, accounts, LoginSuccess, host, accounts);
    HumanPolicy(accounts);
    OnlySuccesses(inc, m, p);
    QuietB3(inc, m, p);
    QuietIncident(p, inc, l, HumanRows(accounts), Members(ids), Members(accounts), {host});
  }

  // ------------------------------------------------------------------ a success that no failure precedes

  /** A compliant success with only later failures of the same account. */
  ghost predicate SuccessFirst(s: Event, later: seq<Event>) {
    && s.etype == LoginSuccess && s.method_ == Some("password") && s.mfa == Some(false)
    && forall e | e in later :: e.etype == LoginFailure && e.account == s.account && e.sec > s.sec
  }

  lemma {:induction false} NoFailuresBefore(p: Params, s: Event, later: seq<Event>)
    requires p.t1 >= 1 && SuccessFirst(s, later)
    ensures !FiresB1([s] + later, p, s)
  {
    FailureObsAppend([s], later);
    assert [s][..0] == [];
    FailureObsMembers(later);
    CountZero(FailureObs(later), Str(s.account), s.sec - p.w1, s.sec);
    CountAppend(FailureObs([s]), FailureObs(later), Str(s.account), s.sec - p.w1, s.sec);
  }

  lemma {:induction false} SuccessFirstFindings(p: Params, m: Policy, s: Event, later: seq<Event>)
    requires Accepted(p) && HumanMap(m, [s.account]) && SuccessFirst(s, later)
    ensures Findings([s] + later, m, p) == {}
  {
    NoFailuresBefore(p, s, later);
    assert s.account in [s.account];
    assert forall e :: e in [s] + later <==> e == s || e in later;
    OneSuccess([s] + later, m, p, s, s.account);
  }

  lemma {:induction false} SuccessFirstIncident(p: Params, s: Event, later: seq<Event>, l: Label, ids: set<string>, hosts: set<string>)
    requires Accepted(p) && SuccessFirst(s, later)
    requires Uses([s] + later, HumanRows([s.account]), ids, {s.account}, hosts) && Own(l.eventIds, ids)
    requires l.expected == NoAlert && l.trigger == None
    ensures Sound(p, [s] + later, [l], HumanRows([s.account]), ids, {s.account}, hosts)
  {
    HumanPolicy([s.account]);
    SuccessFirstFindings(p, PolicyMap(HumanRows([s.account])), s, later);
    QuietIncident(p, [s] + later, l, HumanRows([s.account]), ids, {s.account}, hosts);
  }

  // ------------------------------------------------------------------ failures of one account, success of another

  predicate WrongAccount(fails: seq<Event>, s: Event, a: string) {
    && a != s.account && s.etype == LoginSuccess && s.method_ == Some("password") && s.mfa == Some(false)
    && forall e | e in fails :: e.etype == LoginFailure && e.account == a
  }

  lemma {:induction false} OthersNotCounted(fails: seq<Event>, s: Event, a: string, lo: int, hi: int)
    requires WrongAccount(fails, s, a)
    ensures Count(FailureObs(fails), Str(s.account), lo, hi) == 0
  {
    FailureObsMembers(fails);
    CountZero(FailureObs(fails), Str(s.account), lo, hi);
  }

  lemma {:induction false} OthersFailuresDoNotCount(p: Params, fails: seq<Event>, s: Event, a: string)
    requires p.t1 >= 1 && WrongAccount(fails, s, a)
    ensures !FiresB1(fails + [s], p, s)
  {
    FailureObsSnoc(fails, s, Str(s.account), s.sec - p.w1, s.sec);
    OthersNotCounted(fails, s, a, s.sec - p.w1, s.sec);
  }

  lemma {:induction false} WrongAccountFindings(p: Params, m: Policy, fails: seq<Event>, s: Event, a: string)
    requires Accepted(p) && HumanMap(m, [a, s.account]) && WrongAccount(fails, s, a)
    ensures Findings(fails + [s], m, p) == {}
  {
    OthersFailuresDoNotCount(p, fails, s, a);
    assert s.account in [a, s.account];
    OneSuccess(fails + [s], m, p, s, a);
  }

  lemma {:induction false} WrongAccountUses(ids: seq<string>, secs: seq<int>, a: string, host: string, s: Event)
    requires |ids| == |secs| && Plain(s, LoginSuccess, host)
    ensures Uses(Burst(ids, secs, Repeat(a, |secs|), LoginFailure, host) + [s], HumanRows([a, s.account]),
                 Members(ids + [s.id]), {a, s.account}, {host})
  {
    var all := [a, s.account];
    BurstUses(ids, secs, Repeat(a, |secs|), LoginFailure, host, all);
    assert Members(all) == {a, s.account} && Members(ids + [s.id]) == Members(ids) + {s.id};
  }

  lemma {:induction false} WrongAccountIncident(p: Params, ids: seq<string>, secs: seq<int>, a: string, host: string, s: Event, l: Label)
    requires Accepted(p) && |ids| == |secs| && a != s.account && Plain(s, LoginSuccess, host)
    requires l.expected == NoAlert && l.trigger == None && l.eventIds == ids + [s.id]
    ensures Sound(p, Burst(ids, secs, Repeat(a, |secs|), LoginFailure, host) + [s], [l], HumanRows([a, s.account]),
                  Members(ids + [s.id]), {a, s.account}, {host})
  {
    var fails, all := Burst(ids, secs, Repeat(a, |secs|), LoginFailure, host), [a, s.account];
    AboutBurst(ids, secs, Repeat(a, |secs|), LoginFailure, host);
    HumanPolicy(all);
    WrongAccountFindings(p, PolicyMap(HumanRows(all)), fails, s, a);
    WrongAccountUses(ids, secs, a, host, s);
    QuietIncident(p, fails + [s], l, HumanRows(all), Members(ids + [s.id]), {a, s.account}, {host});
  }

  // ------------------------------------------------------------------ B2: one host, failures of many accounts

  lemma {:induction false} BurstIsRun(ids: seq<string>, secs: seq<int>, accounts: seq<string>, t: EventType, host: string)
    requires |ids| == |secs| == |accounts| && Ascending(secs)
    ensures OneRun(Burst(ids, secs, accounts, t, host), t, Host, host)
  {
    AboutBurst(ids, secs, accounts, t, host);
  }

  /** The distinct accounts among the first `k`. */
  function FirstAccounts(accounts: seq<string>, k: nat): set<string>
    requires k <= |accounts|
  {
    Members(accounts[..k])
  }

  lemma {:induction false} SeenInBurst(ids: seq<string>, secs: seq<int>, accounts: seq<string>, host: string, w: int, i: nat)
    requires |ids| == |secs| == |accounts| && Ascending(secs) && i < |secs|
    ensures Seen(Burst(ids, secs, accounts, LoginFailure, host), Account, w, i) <= FirstAccounts(accounts, i + 1)
    ensures secs[|secs| - 1] - w <= secs[0] ==> Seen(Burst(ids, secs, accounts, LoginFailure, host), Account, w, i) == FirstAccounts(accounts, i + 1)
  {
    var inc := Burst(ids, secs, accounts, LoginFailure, host);
    forall x | x in Seen(inc, Account, w, i) ensures x in FirstAccounts(accounts, i + 1) {
      var j :| 0 <= j < |inc| && inc[i].sec - w <= inc[j].sec <= inc[i].sec && FieldOf(inc[j], Account) == x;
      assert j <= i;
      assert accounts[..i + 1][j] == x;
    }
    if secs[|secs| - 1] - w <= secs[0] {
      forall x | x in FirstAccounts(accounts, i + 1) ensures x in Seen(inc, Account, w, i) {
        var j :| 0 <= j < i + 1 && accounts[..i + 1][j] == x;
        assert secs[0] <= secs[j] <= secs[i] <= secs[|secs| - 1];
        assert FieldOf(inc[j], Account) == x && inc[i].sec - w <= inc[j].sec <= inc[i].sec;
      }
    }
  }

  /** The account at which the count of distinct accounts first reaches `n`. */
  predicate ReachesAt(accounts: seq<string>, n: int, first: nat) {
    && first < |accounts|
    && |FirstAccounts(accounts, first + 1)| >= n
    && |FirstAccounts(accounts, first)| < n
  }

  lemma {:induction false} FirstAccountsGrow(accounts: seq<string>, i: nat, j: nat)
    requires i <= j <= |accounts|
    ensures |FirstAccounts(accounts, i)| <= |FirstAccounts(accounts, j)|
  {
    assert FirstAccounts(accounts, i) <= FirstAccounts(accounts, j);
    SubsetSize(FirstAccounts(accounts, i), FirstAccounts(accounts, j));
  }

  lemma {:induction false} SprayCount(p: Params, ids: seq<string>, secs: seq<int>, accounts: seq<string>, host: string, first: nat, i: nat)
    requires |ids| == |secs| == |accounts| && Ascending(secs) && i < |secs| && secs[|secs| - 1] - p.w2 <= secs[0]
    requires ReachesAt(accounts, p.t2, first)
    ensures |Seen(Burst(ids, secs, accounts, LoginFailure, host), Account, p.w2, i)| >= p.t2 <==> i >= first
  {
    SeenInBurst(ids, secs, accounts, host, p.w2, i);
    if i >= first { FirstAccountsGrow(accounts, first + 1, i + 1); } else { FirstAccountsGrow(accounts, i + 1, first); }
  }

  /** A spray inside one window is reported at the event that brings the count to the threshold. */
  lemma {:induction false} SprayIncident(p: Params, ids: seq<string>, secs: seq<int>, accounts: seq<string>, host: string, all: seq<string>, first: nat, l: Label)
    requires Accepted(p) && |ids| == |secs| == |accounts| && Ascending(secs) && secs != [] && secs[|secs| - 1] - p.w2 <= secs[0]
    requires (forall x | x in accounts :: x in all) && ReachesAt(accounts, p.t2, first)
    requires l == Verdict(B2, l.kind, true, [host], ids[first], ids)
    ensures Sound(p, Burst(ids, secs, accounts, LoginFailure, host), [l], HumanRows(all), Members(ids), Members(all), {host})
  {
    var inc, rows := Burst(ids, secs, accounts, LoginFailure, host), HumanRows(all);
    BurstIsRun(ids, secs, accounts, LoginFailure, host);
    BurstUses(ids, secs, accounts, LoginFailure, host, all);
    forall i | 0 <= i < |inc| ensures |Seen(inc, Account, p.w2, i)| >= p.t2 <==> i >= first {
      SprayCount(p, ids, secs, accounts, host, first, i);
    }
    SprayFinding(inc, PolicyMap(rows), p, host, first);
    assert ids[first] in ids;
    VerdictIncident(p, inc, l, rows, Members(ids), Members(all), {host}, true, host, ids[first]);
  }

  lemma {:induction false} SprayQuietIncident(p: Params, ids: seq<string>, secs: seq<int>, accounts: seq<string>, host: string, l: Label)
    requires Accepted(p) && |ids| == |secs| == |accounts| && Ascending(secs)
    requires forall i | 0 <= i < |secs| :: |Seen(Burst(ids, secs, accounts, LoginFailure, host), Account, p.w2, i)| < p.t2
    requires l.expected == NoAlert && l.trigger == None && l.eventIds == ids
    ensures Sound(p, Burst(ids, secs, accounts, LoginFailure, host), [l], HumanRows(accounts), Members(ids), Members(accounts), {host})
  {
    var inc, rows := Burst(ids, secs, accounts, LoginFailure, host), HumanRows(accounts);
    BurstIsRun(ids, secs, accounts, LoginFailure, host);
    BurstUses(ids, secs, accounts, LoginFailure, host, accounts);
    SprayQuiet(inc, PolicyMap(rows), p, host);
    QuietIncident(p, inc, l, rows, Members(ids), Members(accounts), {host});
  }

  /** As many accounts as the threshold, the last one second too late for the first. */
  lemma {:induction false} LateAccount(p: Params, ids: seq<string>, secs: seq<int>, accounts: seq<string>, host: string, i: nat)
    requires |ids| == |secs| == |accounts| == p.t2 && Ascending(secs) && i < |secs|
    requires secs[|secs| - 1] - p.w2 > secs[0]
    ensures |Seen(Burst(ids, secs, accounts, LoginFailure, host), Account, p.w2, i)| < p.t2
  {
    var inc := Burst(ids, secs, accounts, LoginFailure, host);
    var seen := Seen(inc, Account, p.w2, i);
    SeenInBurst(ids, secs, accounts, host, p.w2, i);
    if i < |secs| - 1 {
      SubsetSize(seen, FirstAccounts(accounts, i + 1));
      MembersAtMost(accounts[..i + 1]);
    } else {
      forall x | x in seen ensures x in Members(accounts[1..]) {
        var j :| 0 <= j < |inc| && inc[i].sec - p.w2 <= inc[j].sec <= inc[i].sec && FieldOf(inc[j], Account) == x;
        assert accounts[1..][j - 1] == x;
      }
      SubsetSize(seen, Members(accounts[1..]));
      MembersAtMost(accounts[1..]);
    }
  }

  predicate Spaced(secs: seq<int>, w: int) { forall a, b | 0 <= a < b < |secs| :: secs[b] - secs[a] >= (b - a) * (w / 2 + 1) }

  lemma {:induction false} SlowGap(secs: seq<int>, w: int, j: nat, i: nat)
    requires w >= 0 && Spaced(secs, w) && j < i < |secs|
    ensures secs[j] < secs[i] && (j + 2 <= i ==> secs[i] - secs[j] > w)
  {
    Apart(i - j, w);
  }

  /** A window that ends at second `i` reaches no further than the second before. */
  lemma {:induction false} NearSeconds(secs: seq<int>, w: int, i: nat, j: nat)
    requires w >= 0 && Spaced(secs, w) && i < |secs| && j < |secs| && secs[i] - w <= secs[j] <= secs[i]
    ensures j == i || j + 1 == i
  {
    if j > i { SlowGap(secs, w, i, j); } else if j < i { SlowGap(secs, w, j, i); }
  }

  /** Failures more than half a window apart: at most two accounts in any window. */
  lemma {:induction false} SlowSpray(p: Params, ids: seq<string>, secs: seq<int>, accounts: seq<string>, host: string, i: nat)
    requires Accepted(p) && |ids| == |secs| == |accounts| && i < |secs|
    requires Spaced(secs, p.w2)
    ensures |Seen(Burst(ids, secs, accounts, LoginFailure, host), Account, p.w2, i)| < p.t2
  {
    var inc := Burst(ids, secs, accounts, LoginFailure, host);
    var seen := Seen(inc, Account, p.w2, i);
    var near := {accounts[i], accounts[if i > 0 then i - 1 else 0]};
    forall x | x in seen ensures x in near {
      var j :| 0 <= j < |inc| && inc[i].sec - p.w2 <= inc[j].sec <= inc[i].sec && FieldOf(inc[j], Account) == x;
      NearSeconds(secs, p.w2, i, j);
    }
    SubsetSize(seen, near);
  }

  lemma {:induction false} Apart(k: int, w: int)
    requires w >= 0 && k >= 1
    ensures k * (w / 2 + 1) > 0 && (k >= 2 ==> k * (w / 2 + 1) > w)
  {
    if k >= 2 { assert k * (w / 2 + 1) >= 2 * (w / 2 + 1); }
  }

  // ------------------------------------------------------------------ B3: one account, successes from several hosts

  /** Successes of one account in ascending seconds, each password-only. */
  ghost predicate Sessions(inc: seq<Event>, a: string) {
    && (forall e | e in inc :: e.etype == LoginSuccess && e.account == a && e.method_ == Some("password") && e.mfa == Some(false))
    && forall i, j | 0 <= i < j < |inc| :: inc[i].sec < inc[j].sec
  }

  lemma {:induction false} PairSeen(e1: Event, e2: Event, w: int)
    requires e2.sec - w <= e1.sec < e2.sec
    ensures Seen([e1, e2], Host, w, 0) == {e1.host} && Seen([e1, e2], Host, w, 1) == {e1.host, e2.host}
  {
    var inc := [e1, e2];
    assert FieldOf(inc[0], Host) in Seen(inc, Host, w, 0);
    assert FieldOf(inc[0], Host) in Seen(inc, Host, w, 1) && FieldOf(inc[1], Host) in Seen(inc, Host, w, 1);
  }

  lemma {:induction false} PairFindings(p: Params, m: Policy, e1: Event, e2: Event)
    requires Accepted(p) && HumanMap(m, [e1.account]) && Sessions([e1, e2], e1.account) && e1.host != e2.host && e2.sec - p.w3 <= e1.sec
    ensures Findings([e1, e2], m, p) == {Alert(B3, e1.account, e2.id, Alerting)}
  {
    var inc := [e1, e2];
    assert e1.account in [e1.account];
    assert inc[0].sec < inc[1].sec;
    PairSeen(e1, e2, p.w3);
    SessionsFinding(inc, m, p, e1.account, 1);
  }

  /** Two sessions from different hosts inside the window: reported at the second. */
  lemma {:induction false} PairIncident(p: Params, e1: Event, e2: Event, l: Label)
    requires Accepted(p) && Sessions([e1, e2], e1.account) && e1.host != e2.host && e2.sec - p.w3 <= e1.sec
    requires l == Verdict(B3, l.kind, true, [e1.account], e2.id, [e1.id, e2.id])
    ensures Sound(p, [e1, e2], [l], HumanRows([e1.account]), {e1.id, e2.id}, {e1.account}, {e1.host, e2.host})
  {
    var rows := HumanRows([e1.account]);
    HumanPolicy([e1.account]);
    PairFindings(p, PolicyMap(rows), e1, e2);
    PairUses(e1, e2);
    VerdictIncident(p, [e1, e2], l, rows, {e1.id, e2.id}, {e1.account}, {e1.host, e2.host}, true, e1.account, e2.id);
  }

  lemma {:induction false} PairUses(e1: Event, e2: Event)
    requires e1.account == e2.account
    ensures Uses([e1, e2], HumanRows([e1.account]), {e1.id, e2.id}, {e1.account}, {e1.host, e2.host})
  {
    HumanRowsOne(e1.account);
    assert e1 in [e1, e2] && e2 in [e1, e2];
  }

  /** Sessions so far apart that no window holds two of them say nothing. */
  lemma {:induction false} FarSessions(p: Params, inc: seq<Event>, a: string, l: Label, ids: set<string>, hosts: set<string>)
    requires Accepted(p) && Sessions(inc, a)
    requires forall i, j | 0 <= i < j < |inc| :: inc[j].sec - inc[i].sec > p.w3
    requires Uses(inc, HumanRows([a]), ids, {a}, hosts) && Own(l.eventIds, ids) && l.expected == NoAlert && l.trigger == None
    ensures Sound(p, inc, [l], HumanRows([a]), ids, {a}, hosts)
  {
    HumanPolicy([a]);
    assert a in [a];
    forall i | 0 <= i < |inc| ensures |Seen(inc, Host, p.w3, i)| < p.t3 {
      assert Seen(inc, Host, p.w3, i) <= {inc[i].host};
      SubsetSize(Seen(inc, Host, p.w3, i), {inc[i].host});
    }
    SessionsQuiet(inc, PolicyMap(HumanRows([a])), p, a);
    QuietIncident(p, inc, l, HumanRows([a]), ids, {a}, hosts);
  }

  // ------------------------------------------------------------------ B4 and B5: one event, one policy row

  /** The status rule `b` gives to a lone success on the row's account. */
  function LoneStatus(b: Behaviour, row: PolicyRow, e: Event): Status {
    if b.B4? then StatusB4(map[row.account := row], e) else if b.B5? then StatusB5(map[row.account := row], e) else NoAlert
  }

  lemma {:induction false} LoneAlerts(e: Event, m: Policy, p: Params, b: Behaviour)
    ensures AlertsOf([e], m, p, b) ==
            if StatusOf([e], m, p, b, e) != NoAlert then {Alert(b, GroupOf(b, e), e.id, StatusOf([e], m, p, b, e))} else {}
  {
    AboutAlertsOf([e], m, p, b);
    assert forall x :: x in [e] <==> x == e;
  }

  /** One event on an account with a policy row, judged by at most one of the policy rules. */
  lemma {:induction false} LoneIncident(p: Params, e: Event, row: PolicyRow, l: Label, fires: bool)
    requires Accepted(p) && e.account == row.account && (l.behaviour == B4 || l.behaviour == B5)
    requires LoneStatus(l.behaviour, row, e) == if fires then Alerting else NoAlert
    requires LoneStatus(if l.behaviour == B4 then B5 else B4, row, e) == NoAlert
    requires l == Verdict(l.behaviour, l.kind, fires, [e.account], e.id, [e.id])
    ensures Sound(p, [e], [l], [row], {e.id}, {e.account}, {e.host})
  {
    OneRow(row);
    LoneAlerts(e, PolicyMap([row]), p, B4);
    LoneAlerts(e, PolicyMap([row]), p, B5);
    if e.etype.LoginSuccess? { LoneSuccess(e, PolicyMap([row]), p); } else { LoneFailure(e, PolicyMap([row]), p); }
    assert e in [e];
    VerdictIncident(p, [e], l, [row], {e.id}, {e.account}, {e.host}, fires, e.account, e.id);
  }

  /** Two labels, one per policy rule, for a success on an account without a policy row. */
  function NoPolicyLabel(b: Behaviour, a: string, id: string): Label {
    Label(b, MissingContext, Insufficient, [a], Some(id), [id])
  }

  lemma {:induction false} NoPolicyIncident(p: Params, e: Event)
    requires Accepted(p) && e.etype == LoginSuccess
    ensures Sound(p, [e], [NoPolicyLabel(B4, e.account, e.id), NoPolicyLabel(B5, e.account, e.id)], [], {e.id}, {e.account}, {e.host})
  {
    var l4, l5 := NoPolicyLabel(B4, e.account, e.id), NoPolicyLabel(B5, e.account, e.id);
    LoneSuccess(e, PolicyMap([]), p);
    LoneAlerts(e, PolicyMap([]), p, B4);
    LoneAlerts(e, PolicyMap([]), p, B5);
    var said := Spoken(Findings([e], PolicyMap([]), p));
    SpokenOne(Alert(B4, e.account, e.id, Insufficient));
    SpokenOne(Alert(B5, e.account, e.id, Insufficient));
    SpokenUnion({Alert(B4, e.account, e.id, Insufficient)}, {Alert(B5, e.account, e.id, Insufficient)});
    TwoLabels(l4, l5, (B4, e.id, Insufficient), (B5, e.id, Insufficient), said);
    assert e in [e];
  }

  lemma {:induction false} TwoLabels(l: Label, k: Label, f: Finding, g: Finding, said: set<Finding>)
    requires said == {f, g} && f.0 != g.0
    requires l.behaviour == f.0 && l.expected == f.2 && l.expected != NoAlert && l.trigger == Some(f.1) && f.1 in l.eventIds
    requires k.behaviour == g.0 && k.expected == g.2 && k.expected != NoAlert && k.trigger == Some(g.1) && g.1 in k.eventIds
    ensures Exact(said, [l, k])
  {
    assert Expected([l, k]) == said;
    assert Mine(l, said) == {f};
    assert Mine(k, said) == {g};
  }

  // ------------------------------------------------------------------ the two sessions of `_pair`

  /** Two events of one account, a success and then a later event `gap` seconds after it. */
  ghost predicate IsPair(e1: Event, e2: Event) {
    && Plain(e1, LoginSuccess, e1.host) && Plain(e2, e2.etype, e2.host)
    && e1.account == e2.account && e1.sec < e2.sec
  }

  /** The multi-host rule speaks exactly when both are sessions, from different hosts, inside the closed window. */
  lemma {:induction false} PairSound(p: Params, e1: Event, e2: Event, l: Label, fires: bool)
    requires Accepted(p) && IsPair(e1, e2)
    requires fires <==> e2.etype.LoginSuccess? && e1.host != e2.host && e2.sec - p.w3 <= e1.sec
    requires l == Verdict(B3, l.kind, fires, [e1.account], e2.id, [e1.id, e2.id])
    ensures Sound(p, [e1, e2], [l], HumanRows([e1.account]), {e1.id, e2.id}, {e1.account}, {e1.host, e2.host})
  {
    PairUses(e1, e2);
    if fires {
      PairIncident(p, e1, e2, l);
    } else if e2.etype.LoginFailure? {
      assert [e1] + [e2] == [e1, e2];
      SuccessFirstIncident(p, e1, [e2], l, {e1.id, e2.id}, {e1.host, e2.host});
    } else if e1.host != e2.host {
      FarSessions(p, [e1, e2], e1.account, l, {e1.id, e2.id}, {e1.host, e2.host});
    } else {
      SameHostPair(p, e1, e2, l);
    }
  }

  lemma {:induction false} SameHostPair(p: Params, e1: Event, e2: Event, l: Label)
    requires Accepted(p) && IsPair(e1, e2) && e2.etype.LoginSuccess? && e1.host == e2.host
    requires l.expected == NoAlert && l.trigger == None && l.eventIds == [e1.id, e2.id]
    ensures Sound(p, [e1, e2], [l], HumanRows([e1.account]), {e1.id, e2.id}, {e1.account}, {e1.host, e2.host})
  {
    var m := PolicyMap(HumanRows([e1.account]));
    HumanPolicy([e1.account]);
    assert e1.account in [e1.account];
    PairUses(e1, e2);
    OnlySuccesses([e1, e2], m, p);
    QuietB3([e1, e2], m, p);
    QuietIncident(p, [e1, e2], l, HumanRows([e1.account]), {e1.id, e2.id}, {e1.account}, {e1.host, e2.host});
  }

  /** `before` plus these events, one label, these policy rows and the entities they use. */
  ghost predicate JoinsPiece(before: Snapshot, after: Snapshot, inc: seq<Event>, more: seq<Label>, rows: seq<PolicyRow>,
                             ids: set<string>, accounts: set<string>, hosts: set<string>) {
    Joins(before, Snapshot(inc, more, rows, ids, accounts, hosts), after)
  }

  lemma {:induction false} PairExtends(p: Params, before: Snapshot, after: Snapshot, e1: Event, e2: Event, l: Label, fires: bool)
    requires Accepted(p) && IsPair(e1, e2)
    requires fires <==> e2.etype.LoginSuccess? && e1.host != e2.host && e2.sec - p.w3 <= e1.sec
    requires l == Verdict(B3, l.kind, fires, [e1.account], e2.id, [e1.id, e2.id])
    requires JoinsPiece(before, after, [e1, e2], [l], [HumanRow(e1.account)], {e1.id, e2.id}, {e1.account}, {e1.host, e2.host})
    ensures Extends(p, before, after)
  {
    HumanRowsOne(e1.account);
    PairSound(p, e1, e2, l, fires);
    Extended(p, before, Snapshot([e1, e2], [l], [HumanRow(e1.account)], {e1.id, e2.id}, {e1.account}, {e1.host, e2.host}), after);
  }

  lemma {:induction false} FarExtends(p: Params, before: Snapshot, after: Snapshot, e1: Event, e2: Event, e3: Event, l: Label)
    requires Accepted(p) && Plain(e1, LoginSuccess, e1.host) && Plain(e2, LoginSuccess, e2.host) && Plain(e3, LoginSuccess, e3.host)
    requires e1.account == e2.account == e3.account && e2.sec - e1.sec > p.w3 && e3.sec - e2.sec > p.w3
    requires l.expected == NoAlert && l.trigger == None && l.eventIds == [e1.id, e2.id, e3.id]
    requires JoinsPiece(before, after, [e1, e2, e3], [l], [HumanRow(e1.account)], {e1.id, e2.id, e3.id}, {e1.account}, {e1.host, e2.host, e3.host})
    ensures Extends(p, before, after)
  {
    var inc := [e1, e2, e3];
    HumanRowsOne(e1.account);
    assert e1 in inc && e2 in inc && e3 in inc;
    FarSessions(p, inc, e1.account, l, {e1.id, e2.id, e3.id}, {e1.host, e2.host, e3.host});
    Extended(p, before, Snapshot(inc, [l], [HumanRow(e1.account)], {e1.id, e2.id, e3.id}, {e1.account}, {e1.host, e2.host, e3.host}), after);
  }

  lemma {:induction false} LoneExtends(p: Params, before: Snapshot, after: Snapshot, e: Event, row: PolicyRow, l: Label, fires: bool)
    requires Accepted(p) && e.account == row.account && (l.behaviour == B4 || l.behaviour == B5)
    requires LoneStatus(l.behaviour, row, e) == if fires then Alerting else NoAlert
    requires LoneStatus(if l.behaviour == B4 then B5 else B4, row, e) == NoAlert
    requires l == Verdict(l.behaviour, l.kind, fires, [e.account], e.id, [e.id])
    requires JoinsPiece(before, after, [e], [l], [row], {e.id}, {e.account}, {e.host})
    ensures Extends(p, before, after)
  {
    LoneIncident(p, e, row, l, fires);
    Extended(p, before, Snapshot([e], [l], [row], {e.id}, {e.account}, {e.host}), after);
  }

  lemma {:induction false} NoPolicyExtends(p: Params, before: Snapshot, after: Snapshot, e: Event)
    requires Accepted(p) && e.etype == LoginSuccess
    requires JoinsPiece(before, after, [e], [NoPolicyLabel(B4, e.account, e.id), NoPolicyLabel(B5, e.account, e.id)], [],
                        {e.id}, {e.account}, {e.host})
    ensures Extends(p, before, after)
  {
    NoPolicyIncident(p, e);
    Extended(p, before, Snapshot([e], [NoPolicyLabel(B4, e.account, e.id), NoPolicyLabel(B5, e.account, e.id)], [],
                                 {e.id}, {e.account}, {e.host}), after);
  }

  // ------------------------------------------------------------------ B1: success first, or on another account

  lemma {:induction false} OrderExtends(p: Params, before: Snapshot, after: Snapshot, s: Event, ids: seq<string>, secs: seq<int>, l: Label)
    requires Accepted(p) && |ids| == |secs| && Plain(s, LoginSuccess, s.host) && forall i | 0 <= i < |secs| :: secs[i] > s.sec
    requires l.expected == NoAlert && l.trigger == None && l.eventIds == [s.id] + ids
    requires JoinsPiece(before, after, [s] + Burst(ids, secs, Repeat(s.account, |secs|), LoginFailure, s.host), [l], [HumanRow(s.account)],
                        {s.id} + Members(ids), {s.account}, {s.host})
    ensures Extends(p, before, after)
  {
    var later := Burst(ids, secs, Repeat(s.account, |secs|), LoginFailure, s.host);
    HumanRowsOne(s.account);
    AboutBurst(ids, secs, Repeat(s.account, |secs|), LoginFailure, s.host);
    assert forall e | e in later :: exists i :: 0 <= i < |later| && later[i] == e;
    OrderUses(s, later, ids);
    SuccessFirstIncident(p, s, later, l, {s.id} + Members(ids), {s.host});
    Extended(p, before, Snapshot([s] + later, [l], [HumanRow(s.account)], {s.id} + Members(ids), {s.account}, {s.host}), after);
  }

  lemma {:induction false} OrderUses(s: Event, later: seq<Event>, ids: seq<string>)
    requires (forall e | e in later :: e.account == s.account && e.host == s.host && e.id in ids)
    ensures Uses([s] + later, HumanRows([s.account]), {s.id} + Members(ids), {s.account}, {s.host})
  {
    HumanRowsOne(s.account);
    assert IdsOf([s] + later) == {s.id} + IdsOf(later);
  }

  lemma {:induction false} WrongAccountExtends(p: Params, before: Snapshot, after: Snapshot, ids: seq<string>, secs: seq<int>, a: string, s: Event, l: Label)
    requires Accepted(p) && |ids| == |secs| && a != s.account && Plain(s, LoginSuccess, s.host)
    requires l.expected == NoAlert && l.trigger == None && l.eventIds == ids + [s.id]
    requires JoinsPiece(before, after, Burst(ids, secs, Repeat(a, |secs|), LoginFailure, s.host) + [s], [l], HumanRows([a, s.account]),
                        Members(ids + [s.id]), {a, s.account}, {s.host})
    ensures Extends(p, before, after)
  {
    WrongAccountIncident(p, ids, secs, a, s.host, s, l);
    Extended(p, before, Snapshot(Burst(ids, secs, Repeat(a, |secs|), LoginFailure, s.host) + [s], [l], HumanRows([a, s.account]),
                                 Members(ids + [s.id]), {a, s.account}, {s.host}), after);
  }

  // ------------------------------------------------------------------ bursts that are sound under any event ids

  lemma {:induction false} FewAccountsBurst(p: Params, secs: seq<int>, accounts: seq<string>, h: string, all: seq<string>,
                                            b: Behaviour, kind: Kind, groups: seq<string>)
    requires Accepted(p) && |secs| == |accounts| && |all| < p.t2 && forall x | x in accounts :: x in all
    ensures SoundBurst(p, secs, accounts, LoginFailure, h, all, b, kind, false, groups, 0)
  {
    forall ids: seq<string> | |ids| == |secs|
      ensures SoundState(p, BurstPiece(ids, secs, accounts, LoginFailure, h, all, BurstLabel(b, kind, false, groups, 0, ids)))
    {
      FewAccountsFail(p, ids, secs, accounts, h, all, BurstLabel(b, kind, false, groups, 0, ids));
    }
  }

  lemma {:induction false} SuccessesBurst(p: Params, secs: seq<int>, accounts: seq<string>, h: string, kind: Kind, groups: seq<string>)
    requires Accepted(p) && |secs| == |accounts|
    ensures SoundBurst(p, secs, accounts, LoginSuccess, h, accounts, B2, kind, false, groups, 0)
  {
    forall ids: seq<string> | |ids| == |secs|
      ensures SoundState(p, BurstPiece(ids, secs, accounts, LoginSuccess, h, accounts, BurstLabel(B2, kind, false, groups, 0, ids)))
    {
      SuccessesOnOneHost(p, ids, secs, accounts, h, BurstLabel(B2, kind, false, groups, 0, ids));
    }
  }

  lemma {:induction false} SprayBurst(p: Params, secs: seq<int>, accounts: seq<string>, h: string, all: seq<string>, first: nat, kind: Kind)
    requires Accepted(p) && |secs| == |accounts| && Ascending(secs) && secs != [] && secs[|secs| - 1] - p.w2 <= secs[0]
    requires (forall x | x in accounts :: x in all) && ReachesAt(accounts, p.t2, first)
    ensures SoundBurst(p, secs, accounts, LoginFailure, h, all, B2, kind, true, [h], first)
  {
    forall ids: seq<string> | |ids| == |secs|
      ensures SoundState(p, BurstPiece(ids, secs, accounts, LoginFailure, h, all, BurstLabel(B2, kind, true, [h], first, ids)))
    {
      SprayIncident(p, ids, secs, accounts, h, all, first, BurstLabel(B2, kind, true, [h], first, ids));
    }
  }

  lemma {:induction false} LateBurst(p: Params, secs: seq<int>, accounts: seq<string>, h: string, kind: Kind)
    requires Accepted(p) && |secs| == |accounts| == p.t2 && Ascending(secs) && secs[|secs| - 1] - p.w2 > secs[0]
    ensures SoundBurst(p, secs, accounts, LoginFailure, h, accounts, B2, kind, false, [h], 0)
  {
    forall ids: seq<string> | |ids| == |secs|
      ensures SoundState(p, BurstPiece(ids, secs, accounts, LoginFailure, h, accounts, BurstLabel(B2, kind, false, [h], 0, ids)))
    {
      forall i | 0 <= i < |secs| ensures |Seen(Burst(ids, secs, accounts, LoginFailure, h), Account, p.w2, i)| < p.t2 {
        LateAccount(p, ids, secs, accounts, h, i);
      }
      SprayQuietIncident(p, ids, secs, accounts, h, BurstLabel(B2, kind, false, [h], 0, ids));
    }
  }

  lemma {:induction false} SlowBurst(p: Params, secs: seq<int>, accounts: seq<string>, h: string, kind: Kind)
    requires Accepted(p) && |secs| == |accounts| && Spaced(secs, p.w2)
    ensures SoundBurst(p, secs, accounts, LoginFailure, h, accounts, B2, kind, false, [h], 0)
  {
    forall i, j | 0 <= i < j < |secs| ensures secs[i] < secs[j] { SlowGap(secs, p.w2, i, j); }
    forall ids: seq<string> | |ids| == |secs|
      ensures SoundState(p, BurstPiece(ids, secs, accounts, LoginFailure, h, accounts, BurstLabel(B2, kind, false, [h], 0, ids)))
    {
      forall i | 0 <= i < |secs| ensures |Seen(Burst(ids, secs, accounts, LoginFailure, h), Account, p.w2, i)| < p.t2 {
        SlowSpray(p, ids, secs, accounts, h, i);
      }
      SprayQuietIncident(p, ids, secs, accounts, h, BurstLabel(B2, kind, false, [h], 0, ids));
    }
  }
}
