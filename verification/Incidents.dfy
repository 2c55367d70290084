/** The incident generator (scripts/datagen/incidents.py): every builder, for every random choice, keeps the labels
    exactly what the detector says about the events written so far. */
module Incidents {
  import opened Ordering
  import opened Detection
  import opened Grouping
  import opened RefDetect
  import opened IncidentShapes
  import opened Labels
  import opened IncidentLogs
  import opened Random

  /** What an account's policy row says. */
  datatype Terms = Terms(accountType: string, method_: string, mfaRequired: bool)

  const HUMAN: Option<Terms> := Some(Terms("human", "password", false))

  function RowsFor(account: string, terms: Option<Terms>): seq<PolicyRow> {
    if terms.None? then [] else [PolicyRow(account, terms.value.accountType, terms.value.method_, terms.value.mfaRequired)]
  }

  /** The part of a label that the incident plan fixes. */
  datatype Entry = Entry(behaviour: Behaviour, kind: Kind, expected: Status)

  function PlanOf(labels: seq<Label>): seq<Entry> {
    if labels == [] then []
    else
      var l := labels[|labels| - 1];
      PlanOf(labels[..|labels| - 1]) + [Entry(l.behaviour, l.kind, l.expected)]
  }

  lemma {:induction false} PlanSnoc(labels: seq<Label>, l: Label)
    ensures PlanOf(labels + [l]) == PlanOf(labels) + [Entry(l.behaviour, l.kind, l.expected)]
  {
    assert (labels + [l])[..|labels|] == labels;
  }

  /** Two events of one account were added: a session, and `gap` seconds later an event of type `second`. */
  predicate AddedPair(before: seq<Event>, after: seq<Event>, gap: int, second: EventType, sameHost: bool) {
    && AddedSpan(before, after, 2, gap)
    && var x, y := after[|before|], after[|before| + 1];
    x.etype.LoginSuccess? && y.etype == second && x.account == y.account && (x.host == y.host <==> sameHost)
  }

  /** Three sessions of one account from three hosts were added, `gap` seconds apart. */
  predicate AddedFar(before: seq<Event>, after: seq<Event>, gap: int) {
    && |after| == |before| + 3
    && var x, y, z := after[|before|], after[|before| + 1], after[|before| + 2];
    && x.etype.LoginSuccess? && y.etype.LoginSuccess? && z.etype.LoginSuccess? && x.account == y.account == z.account
    && x.host != y.host && y.host != z.host && x.host != z.host && y.sec - x.sec == gap == z.sec - y.sec
  }

  /** One event was added and the policy row of its account. */
  ghost predicate AddedLogin(was: Snapshot, now: Snapshot, t: EventType, otherMethod: bool, mfaRequired: bool, mfa: bool) {
    && |now.events| == |was.events| + 1 && |now.policy| == |was.policy| + 1
    && var e, row := now.events[|was.events|], now.policy[|was.policy|];
    && e.account == row.account && e.etype == t && e.mfa == Some(mfa) && row.mfaRequired == mfaRequired
    && (e.method_ != Some(row.expectedMethod) <==> otherMethod)
  }

  /** The failure seconds of a B1 incident and the second of its success. */
  datatype Draw = Draw(fails: seq<int>, at: int)

  function InWindow(d: Draw, w: int): nat { SecsWithin(d.fails, d.at - w, d.at) }

  /** Failures of one account and a success of the same or another, all on one host. */
  datatype Sequence = Sequence(ids: seq<string>, failing: string, draw: Draw, trigger: string, succeeding: string, host: string) {
    predicate Ok() { |ids| == |draw.fails| }

    function Failures(): seq<Event>
      requires Ok()
    {
      Burst(ids, draw.fails, Repeat(failing, |draw.fails|), LoginFailure, host)
    }

    function Success(): Event { MakeEvent(trigger, draw.at, succeeding, LoginSuccess, host, "password", false) }
  }

  /** One event for each second and account, all on one host. */
  datatype Spray = Spray(ids: seq<string>, secs: seq<int>, accounts: seq<string>, host: string) {
    predicate Ok() { |ids| == |secs| == |accounts| }

    function Events(t: EventType): seq<Event>
      requires Ok()
    {
      Burst(ids, secs, accounts, t, host)
    }
  }

  const NO_SEQUENCE: Sequence := Sequence([], "", Draw([], 0), "", "", "")

  const NO_SPRAY: Spray := Spray([], [], [], "")

  /** A burst of failures of one account alone. */
  lemma {:induction false} OneAccountBurst(p: Params, secs: seq<int>, h: string, all: seq<string>, b: Behaviour, kind: Kind, groups: seq<string>)
    requires Accepted(p) && |all| == 1
    ensures SoundBurst(p, secs, Repeat(all[0], |secs|), LoginFailure, h, all, b, kind, false, groups, 0)
  {
    assert all[0] in all;
    FewAccountsBurst(p, secs, Repeat(all[0], |secs|), h, all, b, kind, groups);
  }

  lemma {:induction false} RepeatMembers(a: string, n: nat)
    requires n > 0
    ensures |Members(Repeat(a, n))| == 1
  {
    assert Repeat(a, n)[0] == a;
    assert Members(Repeat(a, n)) == {a};
  }

  class Context {
    const params: Params
    const startSec: int
    const endSec: int
    var events: seq<Event>
    var labels: seq<Label>
    var policy: seq<PolicyRow>
    var accountCount: nat
    var hostCount: nat
    var eventCount: nat
    var incidentCount: nat
    /** How the counters spell their ids. */
    const accountName: nat -> string
    const hostName: nat -> string
    const eventName: nat -> string
    ghost var usedIds: set<string>
    ghost var usedAccounts: set<string>
    ghost var usedHosts: set<string>

    /** The ids in use were handed out by the counters. */
    ghost predicate Counted()
      reads this
    {
      && HandedOut(eventName, 'e', eventCount, usedIds)
      && HandedOut(accountName, 'i', accountCount, usedAccounts)
      && HandedOut(hostName, 'i', hostCount, usedHosts)
      && eventCount == |events| && incidentCount == |labels|
    }

    ghost function State(): Snapshot
      reads this
    {
      Snapshot(events, labels, policy, usedIds, usedAccounts, usedHosts)
    }

    /** The labels are exact about everything generated so far. */
    ghost predicate Valid()
      reads this
    {
      Accepted(params) && Counted() && SoundState(params, State())
    }

    constructor (params: Params, startSec: int, endSec: int)
      requires Accepted(params)
      ensures Valid()
      ensures this.params == params && this.startSec == startSec && this.endSec == endSec
      ensures accountName == AccountId && hostName == HostId && eventName == EventId
      ensures events == [] && labels == [] && policy == []
    {
      this.params, this.startSec, this.endSec := params, startSec, endSec;
      accountName, hostName, eventName := AccountId, HostId, EventId;
      events, labels, policy := [], [], [];
      accountCount, hostCount, eventCount, incidentCount := 0, 0, 0, 0;
      usedIds, usedAccounts, usedHosts := {}, {}, {};
      NothingYet(params);
      AccountNaming();
      HostNaming();
      EventNaming();
    }

    // ---------------------------------------------------------------- allocation

    method Account(terms: Option<Terms>) returns (id: string)
      requires Counted()
      modifies `accountCount, `policy, `usedAccounts
      ensures Counted()
      ensures accountCount == old(accountCount) + 1 && id == accountName(accountCount)
      ensures id !in old(usedAccounts) && usedAccounts == old(usedAccounts) + {id}
      ensures policy == old(policy) + RowsFor(id, terms)
    {
      NextId(accountName, 'i', accountCount, usedAccounts);
      accountCount := accountCount + 1;
      id := accountName(accountCount);
      usedAccounts := usedAccounts + {id};
      if terms.Some? {
        policy := policy + [PolicyRow(id, terms.value.accountType, terms.value.method_, terms.value.mfaRequired)];
      }
    }

    method Host() returns (id: string)
      requires Counted()
      modifies `hostCount, `usedHosts
      ensures Counted()
      ensures hostCount == old(hostCount) + 1 && id == hostName(hostCount)
      ensures id !in old(usedHosts) && usedHosts == old(usedHosts) + {id}
    {
      NextId(hostName, 'i', hostCount, usedHosts);
      hostCount := hostCount + 1;
      id := hostName(hostCount);
      usedHosts := usedHosts + {id};
    }

    method AddEvent(sec: int, account: string, t: EventType, host: string, method_: string, mfa: bool) returns (id: string)
      requires Counted()
      modifies `eventCount, `events, `usedIds
      ensures Counted()
      ensures eventCount == old(eventCount) + 1 && id == eventName(eventCount)
      ensures id !in old(usedIds) && usedIds == old(usedIds) + {id}
      ensures events == old(events) + [MakeEvent(id, sec, account, t, host, method_, mfa)]
    {
      NextId(eventName, 'e', eventCount, usedIds);
      eventCount := eventCount + 1;
      id := eventName(eventCount);
      usedIds := usedIds + {id};
      events := events + [MakeEvent(id, sec, account, t, host, method_, mfa)];
    }

    method AddLabel(l: Label)
      requires Counted()
      modifies `incidentCount, `labels
      ensures Counted()
      ensures labels == old(labels) + [l] && PlanOf(labels) == PlanOf(old(labels)) + [Entry(l.behaviour, l.kind, l.expected)]
    {
      PlanSnoc(labels, l);
      incidentCount := incidentCount + 1;
      labels := labels + [l];
    }

    predicate Room(span: int) { RoomIn(startSec, endSec, span) }

    /** A random whole-second start with `span` seconds of room after it. */
    method T0(span: int) returns (r: Outcome<int>)
      ensures r.Success? <==> Room(span)
      ensures r.Success? ==> startSec + 3600 <= r.value <= endSec - 3600 - span
    {
      var low, high := startSec + 3600, endSec - 3600 - span;
      if high <= low { return ValueError; }
      r := RandInt(low, high);
    }

    /** One event a second, all of one type on one host, for accounts paired with the seconds. */
    method AddBurst(secs: seq<int>, accounts: seq<string>, t: EventType, host: string) returns (ids: seq<string>)
      requires Counted() && |secs| == |accounts|
      modifies `eventCount, `events, `usedIds
      ensures Counted() && |ids| == |secs|
      ensures events == old(events) + Burst(ids, secs, accounts, t, host)
      ensures Members(ids) !! old(usedIds) && usedIds == old(usedIds) + Members(ids)
    {
      ids := [];
      for i := 0 to |secs|
        invariant Counted() && |ids| == i
        invariant events == old(events) + Burst(ids, secs[..i], accounts[..i], t, host)
        invariant Members(ids) !! old(usedIds) && usedIds == old(usedIds) + Members(ids)
      {
        var id := AddEvent(secs[i], accounts[i], t, host, "password", false);
        BurstNext(ids, secs, accounts, i, t, host, id);
        ids := ids + [id];
      }
      assert secs[..|secs|] == secs && accounts[..|accounts|] == accounts;
    }

    /** One more human account after those in `ids`. */
    method NextAccount(ghost ids: seq<string>) returns (id: string)
      requires Counted() && NoRepeats(ids) && Members(ids) <= usedAccounts
      modifies `accountCount, `policy, `usedAccounts
      ensures Counted() && NoRepeats(ids + [id]) && id !in old(usedAccounts) && usedAccounts == old(usedAccounts) + {id}
      ensures Members(ids + [id]) == Members(ids) + {id}
      ensures policy == old(policy) + [HumanRow(id)] && HumanRows(ids + [id]) == HumanRows(ids) + [HumanRow(id)]
    {
      id := Account(HUMAN);
      HumanRowsSnoc(ids, id);
      MembersSnoc(ids, id);
    }

    method Accounts(n: nat) returns (ids: seq<string>)
      requires Counted()
      modifies `accountCount, `policy, `usedAccounts
      ensures Counted() && |ids| == n && NoRepeats(ids)
      ensures Members(ids) !! old(usedAccounts) && usedAccounts == old(usedAccounts) + Members(ids)
      ensures policy == old(policy) + HumanRows(ids)
    {
      ids := [];
      for i := 0 to n
        invariant Counted() && |ids| == i && NoRepeats(ids)
        invariant Members(ids) !! old(usedAccounts) && usedAccounts == old(usedAccounts) + Members(ids)
        invariant policy == old(policy) + HumanRows(ids)
      {
        var id := NextAccount(ids);
        ids := ids + [id];
      }
    }

    // ---------------------------------------------------------------- B1

    /** `_b1_events`: failures of `a`, then a success of `b`, from one host. */
    method FailuresThenSuccess(a: string, b: string, h: string, fails: seq<int>, ts: int) returns (ids: seq<string>, trig: string, ghost s: Event)
      requires Counted()
      modifies `eventCount, `events, `usedIds
      ensures Counted() && |ids| == |fails|
      ensures Plain(s, LoginSuccess, h) && s.account == b && s.sec == ts && s.id == trig
      ensures events == old(events) + (Burst(ids, fails, Repeat(a, |fails|), LoginFailure, h) + [s])
      ensures s == MakeEvent(trig, ts, b, LoginSuccess, h, "password", false)
      ensures Members(ids + [trig]) !! old(usedIds) && usedIds == old(usedIds) + Members(ids + [trig])
    {
      ids := AddBurst(fails, Repeat(a, |fails|), LoginFailure, h);
      trig := AddEvent(ts, b, LoginSuccess, h, "password", false);
      s := MakeEvent(trig, ts, b, LoginSuccess, h, "password", false);
      MembersSnoc(ids, trig);
    }

    method AccountAndHost(terms: Option<Terms>) returns (a: string, h: string)
      requires Counted()
      modifies `accountCount, `policy, `usedAccounts, `hostCount, `usedHosts
      ensures Counted()
      ensures a !in old(usedAccounts) && usedAccounts == old(usedAccounts) + {a}
      ensures h !in old(usedHosts) && usedHosts == old(usedHosts) + {h}
      ensures policy == old(policy) + RowsFor(a, terms)
    {
      a := Account(terms);
      h := Host();
    }

    /** Failures of a fresh account from a fresh host, then a success, with the label the builder gives them. */
    method WriteSequence(kind: Kind, fires: bool, d: Draw) returns (ghost q: Sequence)
      requires Accepted(params) && Counted() && (fires <==> InWindow(d, params.w1) >= params.t1)
      modifies this
      ensures Counted() && Extends(params, old(State()), State())
      ensures PlanOf(labels) == PlanOf(old(labels)) + [Entry(B1, kind, if fires then Alerting else NoAlert)]
      ensures q.Ok() && q.draw == d && q.failing == q.succeeding && events == old(events) + (q.Failures() + [q.Success()])
    {
      var a, h := AccountAndHost(HUMAN);
      var ids, trig, s := FailuresThenSuccess(a, a, h, d.fails, d.at);
      var l := Verdict(B1, kind, fires, [a], trig, ids + [trig]);
      AddLabel(l);
      SequenceExtends(params, old(State()), State(), ids, a, h, d.fails, s, l, fires);
      q := Sequence(ids, a, d, trig, a, h);
    }

    /** After it the labels are still exact. */
    method SequenceCase(kind: Kind, fires: bool, d: Draw) returns (ghost q: Sequence)
      requires Valid() && (fires <==> InWindow(d, params.w1) >= params.t1)
      modifies this
      ensures Valid() && PlanOf(labels) == PlanOf(old(labels)) + [Entry(B1, kind, if fires then Alerting else NoAlert)]
      ensures q.Ok() && q.draw == d && q.failing == q.succeeding && events == old(events) + (q.Failures() + [q.Success()])
    {
      q := WriteSequence(kind, fires, d);
      StillSound(params, old(State()), State());
    }

    /** A success of a fresh account on a fresh host, then failures of the same account there. */
    method SuccessThenFailures(ts: int, fails: seq<int>) returns (a: string, first: string, ids: seq<string>, ghost s: Event)
      requires Counted()
      modifies `accountCount, `policy, `usedAccounts, `hostCount, `usedHosts, `eventCount, `events, `usedIds
      ensures Counted() && |ids| == |fails| && Plain(s, LoginSuccess, s.host) && s.account == a && s.sec == ts && s.id == first
      ensures events == old(events) + ([s] + Burst(ids, fails, Repeat(a, |fails|), LoginFailure, s.host))
      ensures s == MakeEvent(first, ts, a, LoginSuccess, s.host, "password", false)
      ensures policy == old(policy) + [HumanRow(a)]
      ensures {first} + Members(ids) !! old(usedIds) && usedIds == old(usedIds) + ({first} + Members(ids))
      ensures a !in old(usedAccounts) && usedAccounts == old(usedAccounts) + {a}
      ensures s.host !in old(usedHosts) && usedHosts == old(usedHosts) + {s.host}
    {
      var h;
      a, h := AccountAndHost(HUMAN);
      first := AddEvent(ts, a, LoginSuccess, h, "password", false);
      s := MakeEvent(first, ts, a, LoginSuccess, h, "password", false);
      ids := AddBurst(fails, Repeat(a, |fails|), LoginFailure, h);
    }

    /** The same with its label. */
    method OrderCase(kind: Kind, ts: int, fails: seq<int>) returns (ghost q: Sequence)
      requires Valid() && forall i | 0 <= i < |fails| :: fails[i] > ts
      modifies this
      ensures Valid() && PlanOf(labels) == PlanOf(old(labels)) + [Entry(B1, kind, NoAlert)]
      ensures q.Ok() && q.draw == Draw(fails, ts) && q.failing == q.succeeding && events == old(events) + ([q.Success()] + q.Failures())
    {
      var a, first, ids, s := SuccessThenFailures(ts, fails);
      var l := Label(B1, kind, NoAlert, [a], None, [first] + ids);
      AddLabel(l);
      OrderExtends(params, old(State()), State(), s, ids, fails, l);
      StillSound(params, old(State()), State());
      q := Sequence(ids, a, Draw(fails, ts), first, a, s.host);
    }

    /** Failures of one fresh account, a success of another. */
    method FailuresThenOther(fails: seq<int>, ts: int) returns (a: string, other: string, ids: seq<string>, trig: string, ghost s: Event)
      requires Counted()
      modifies `accountCount, `policy, `usedAccounts, `hostCount, `usedHosts, `eventCount, `events, `usedIds
      ensures Counted() && |ids| == |fails| && a != other && Plain(s, LoginSuccess, s.host) && s.account == other && s.id == trig
      ensures events == old(events) + (Burst(ids, fails, Repeat(a, |fails|), LoginFailure, s.host) + [s])
      ensures s == MakeEvent(trig, ts, other, LoginSuccess, s.host, "password", false)
      ensures policy == old(policy) + HumanRows([a, other])
      ensures Members(ids + [trig]) !! old(usedIds) && usedIds == old(usedIds) + Members(ids + [trig])
      ensures {a, other} !! old(usedAccounts) && usedAccounts == old(usedAccounts) + {a, other}
      ensures s.host !in old(usedHosts) && usedHosts == old(usedHosts) + {s.host}
    {
      var h;
      a, other, h := TwoAccountsAndHost();
      ids, trig, s := FailuresThenSuccess(a, other, h, fails, ts);
    }

    method TwoAccountsAndHost() returns (a: string, other: string, h: string)
      requires Counted()
      modifies `accountCount, `policy, `usedAccounts, `hostCount, `usedHosts
      ensures Counted() && a != other && policy == old(policy) + HumanRows([a, other])
      ensures {a, other} !! old(usedAccounts) && usedAccounts == old(usedAccounts) + {a, other}
      ensures h !in old(usedHosts) && usedHosts == old(usedHosts) + {h}
    {
      var all;
      all, h := AccountsAndHost(2);
      a, other := all[0], all[1];
      assert all == [a, other];
      TwoMembers(a, other);
    }

    /** The same with its label. */
    method WrongAccountCase(kind: Kind, fails: seq<int>, ts: int) returns (ghost q: Sequence)
      requires Valid()
      modifies this
      ensures Valid() && PlanOf(labels) == PlanOf(old(labels)) + [Entry(B1, kind, NoAlert)]
      ensures q.Ok() && q.draw == Draw(fails, ts) && q.failing != q.succeeding && events == old(events) + (q.Failures() + [q.Success()])
    {
      var a, other, ids, trig, s := FailuresThenOther(fails, ts);
      var l := Label(B1, kind, NoAlert, [a, other], None, ids + [trig]);
      AddLabel(l);
      WrongAccountExtends(params, old(State()), State(), ids, fails, a, s, l);
      StillSound(params, old(State()), State());
      q := Sequence(ids, a, Draw(fails, ts), trig, other, s.host);
    }

    // ---------------------------------------------------------------- bursts

    /** Fresh human accounts and a fresh host, and nothing else, since `before`. */
    ghost predicate Entered(before: Snapshot, all: seq<string>, h: string)
      reads this
    {
      && Counted() && NoRepeats(all) && Members(all) !! before.accounts && h !in before.hosts
      && events == before.events && labels == before.labels && policy == before.policy + HumanRows(all)
      && usedIds == before.ids && usedAccounts == before.accounts + Members(all) && usedHosts == before.hosts + {h}
    }

    method AccountsAndHost(n: nat) returns (all: seq<string>, h: string)
      requires Counted()
      modifies `accountCount, `policy, `usedAccounts, `hostCount, `usedHosts
      ensures |all| == n && Entered(old(State()), all, h)
    {
      all := Accounts(n);
      h := Host();
    }

    /** Entered, and then this burst. */
    ghost predicate Burning(before: Snapshot, all: seq<string>, h: string, ids: seq<string>, secs: seq<int>, accounts: seq<string>, t: EventType)
      reads this
    {
      && |ids| == |secs| == |accounts|
      && Counted() && NoRepeats(all) && Members(all) !! before.accounts && h !in before.hosts && Members(ids) !! before.ids
      && events == before.events + Burst(ids, secs, accounts, t, h) && labels == before.labels
      && policy == before.policy + HumanRows(all)
      && usedIds == before.ids + Members(ids) && usedAccounts == before.accounts + Members(all) && usedHosts == before.hosts + {h}
    }

    /** The label that completes a burst. */
    method LabelBurst(ghost before: Snapshot, all: seq<string>, h: string, ids: seq<string>, secs: seq<int>, accounts: seq<string>, t: EventType,
                      b: Behaviour, kind: Kind, fires: bool, groups: seq<string>, first: nat)
      requires Accepted(params) && Burning(before, all, h, ids, secs, accounts, t)
      requires SoundBurst(params, secs, accounts, t, h, all, b, kind, fires, groups, first)
      modifies `incidentCount, `labels
      ensures Counted() && Extends(params, before, State())
      ensures PlanOf(labels) == PlanOf(before.labels) + [Entry(b, kind, if fires then Alerting else NoAlert)]
    {
      AddLabel(BurstLabel(b, kind, fires, groups, first, ids));
      BurstExtends(params, before, State(), ids, secs, accounts, t, h, all, b, kind, fires, groups, first);
    }

    /** The burst's events and its label. */
    method BurstCase(ghost before: Snapshot, all: seq<string>, h: string, secs: seq<int>, accounts: seq<string>, t: EventType,
                     b: Behaviour, kind: Kind, fires: bool, groups: seq<string>, first: nat) returns (ghost q: Spray)
      requires Accepted(params) && Entered(before, all, h) && SoundState(params, before) && |secs| == |accounts|
      requires SoundBurst(params, secs, accounts, t, h, all, b, kind, fires, groups, first)
      modifies `eventCount, `events, `usedIds, `incidentCount, `labels
      ensures Valid() && PlanOf(labels) == PlanOf(before.labels) + [Entry(b, kind, if fires then Alerting else NoAlert)]
      ensures q.Ok() && q.secs == secs && q.accounts == accounts && events == before.events + q.Events(t)
    {
      var ids := AddBurst(secs, accounts, t, h);
      LabelBurst(before, all, h, ids, secs, accounts, t, b, kind, fires, groups, first);
      StillSound(params, before, State());
      q := Spray(ids, secs, accounts, h);
    }

    /** Failures of one account, one each second. */
    method OneAccountFails(ghost before: Snapshot, all: seq<string>, h: string, secs: seq<int>, b: Behaviour, kind: Kind, groups: seq<string>)
      returns (ghost q: Spray)
      requires Accepted(params) && Entered(before, all, h) && SoundState(params, before) && |all| == 1 && secs != []
      modifies `eventCount, `events, `usedIds, `incidentCount, `labels
      ensures Valid() && PlanOf(labels) == PlanOf(before.labels) + [Entry(b, kind, NoAlert)]
      ensures q.Ok() && q.secs == secs && |Members(q.accounts)| == 1 && events == before.events + q.Events(LoginFailure)
    {
      OneAccountBurst(params, secs, h, all, b, kind, groups);
      RepeatMembers(all[0], |secs|);
      q := BurstCase(before, all, h, secs, Repeat(all[0], |secs|), LoginFailure, b, kind, false, groups, 0);
    }

    /** Failures of fewer accounts than the threshold, each at least twice. */
    method FewAccountsFail(ghost before: Snapshot, all: seq<string>, h: string, secs: seq<int>, ghost extra: seq<string>, assignment: seq<string>)
      returns (ghost q: Spray)
      requires Accepted(params) && Entered(before, all, h) && SoundState(params, before) && |all| < params.t2
      requires multiset(assignment) == multiset(all + all + extra) && (forall x | x in extra :: x in all) && |secs| == 2 * |all| + |extra|
      modifies `eventCount, `events, `usedIds, `incidentCount, `labels
      ensures Valid() && PlanOf(labels) == PlanOf(before.labels) + [Entry(B2, HardNegative, NoAlert)]
      ensures q.Ok() && q.secs == secs && |Members(q.accounts)| == |all| && events == before.events + q.Events(LoginFailure)
    {
      RepeatedAccounts(params, secs, all, extra, assignment, h);
      q := BurstCase(before, all, h, secs, assignment, LoginFailure, B2, HardNegative, false, [h], 0);
    }

    /** As many accounts as the threshold, the last exactly a window after the first. */
    method SprayOnEdge(ghost before: Snapshot, all: seq<string>, h: string, secs: seq<int>) returns (ghost q: Spray)
      requires Accepted(params) && Entered(before, all, h) && SoundState(params, before) && |secs| == |all| == params.t2
      requires Ascending(secs) && secs[params.t2 - 1] - secs[0] == params.w2
      modifies `eventCount, `events, `usedIds, `incidentCount, `labels
      ensures Valid() && PlanOf(labels) == PlanOf(before.labels) + [Entry(B2, BoundaryPositive, Alerting)]
      ensures q.Ok() && q.secs == secs && q.accounts == all && events == before.events + q.Events(LoginFailure)
    {
      BoundarySpray(params, secs, all, h);
      q := BurstCase(before, all, h, secs, all, LoginFailure, B2, BoundaryPositive, true, [h], params.t2 - 1);
    }

    // ---------------------------------------------------------------- B3

    method TwoEvents(t1: int, t2: int, a: string, secondType: EventType, h1: string, h2: string) returns (i1: string, i2: string)
      requires Counted()
      modifies `eventCount, `events, `usedIds
      ensures Counted() && {i1, i2} !! old(usedIds) && usedIds == old(usedIds) + {i1, i2}
      ensures events == old(events) + [MakeEvent(i1, t1, a, LoginSuccess, h1, "password", false),
                                       MakeEvent(i2, t2, a, secondType, h2, "password", false)]
      ensures AddedPair(old(events), events, t2 - t1, secondType, h1 == h2)
    {
      i1 := AddEvent(t1, a, LoginSuccess, h1, "password", false);
      i2 := AddEvent(t2, a, secondType, h2, "password", false);
    }

    /** A success of `a` on a host of its own. */
    method SessionOnNewHost(a: string, sec: int) returns (h: string, id: string)
      requires Counted()
      modifies `hostCount, `usedHosts, `eventCount, `events, `usedIds
      ensures Counted()
      ensures h !in old(usedHosts) && usedHosts == old(usedHosts) + {h}
      ensures id !in old(usedIds) && usedIds == old(usedIds) + {id}
      ensures events == old(events) + [MakeEvent(id, sec, a, LoginSuccess, h, "password", false)]
    {
      h := Host();
      id := AddEvent(sec, a, LoginSuccess, h, "password", false);
    }

    /** A fresh account, a fresh host, and a second host unless the first serves both events. */
    method AccountAndTwoHosts(sameHost: bool) returns (a: string, h1: string, h2: string)
      requires Counted()
      modifies `accountCount, `policy, `usedAccounts, `hostCount, `usedHosts
      ensures Counted() && (h1 == h2 <==> sameHost)
      ensures a !in old(usedAccounts) && usedAccounts == old(usedAccounts) + {a}
      ensures {h1, h2} !! old(usedHosts) && usedHosts == old(usedHosts) + {h1, h2}
      ensures policy == old(policy) + [HumanRow(a)]
    {
      a, h1 := AccountAndHost(HUMAN);
      h2 := h1;
      if !sameHost { h2 := Host(); }
    }

    /** `_pair` and its label: a session, then `gap` seconds later another event of the account. */
    method PairCase(kind: Kind, fires: bool, gap: int, secondType: EventType, sameHost: bool) returns (r: Outcome<()>)
      requires Accepted(params) && Counted() && gap >= 1
      requires fires <==> secondType.LoginSuccess? && !sameHost && gap <= params.w3
      modifies this
      ensures r.Success? <==> Room(gap + 60)
      ensures r.Success? ==> Counted() && Extends(params, old(State()), State())
      ensures r.Success? ==> PlanOf(labels) == PlanOf(old(labels)) + [Entry(B3, kind, if fires then Alerting else NoAlert)]
      ensures r.Success? ==> AddedPair(old(events), events, gap, secondType, sameHost)
    {
      var t :- T0(gap + 60);
      PairAt(kind, fires, t, gap, secondType, sameHost);
      return Success(());
    }

    method PairEvents(t: int, gap: int, secondType: EventType, sameHost: bool) returns (a: string, h1: string, h2: string, i1: string, i2: string)
      requires Counted()
      modifies `accountCount, `policy, `usedAccounts, `hostCount, `usedHosts, `eventCount, `events, `usedIds
      ensures Counted() && (h1 == h2 <==> sameHost) && policy == old(policy) + [HumanRow(a)]
      ensures a !in old(usedAccounts) && usedAccounts == old(usedAccounts) + {a}
      ensures {h1, h2} !! old(usedHosts) && usedHosts == old(usedHosts) + {h1, h2}
      ensures {i1, i2} !! old(usedIds) && usedIds == old(usedIds) + {i1, i2}
      ensures events == old(events) + [MakeEvent(i1, t, a, LoginSuccess, h1, "password", false),
                                       MakeEvent(i2, t + gap, a, secondType, h2, "password", false)]
      ensures AddedPair(old(events), events, gap, secondType, sameHost)
    {
      a, h1, h2 := AccountAndTwoHosts(sameHost);
      i1, i2 := TwoEvents(t, t + gap, a, secondType, h1, h2);
    }

    method PairAt(kind: Kind, fires: bool, t: int, gap: int, secondType: EventType, sameHost: bool)
      requires Accepted(params) && Counted() && gap >= 1
      requires fires <==> secondType.LoginSuccess? && !sameHost && gap <= params.w3
      modifies this
      ensures Counted() && Extends(params, old(State()), State())
      ensures PlanOf(labels) == PlanOf(old(labels)) + [Entry(B3, kind, if fires then Alerting else NoAlert)]
      ensures AddedPair(old(events), events, gap, secondType, sameHost)
    {
      var a, h1, h2, i1, i2 := PairEvents(t, gap, secondType, sameHost);
      var l := Verdict(B3, kind, fires, [a], i2, [i1, i2]);
      AddLabel(l);
      PairExtends(params, old(State()), State(), MakeEvent(i1, t, a, LoginSuccess, h1, "password", false),
                  MakeEvent(i2, t + gap, a, secondType, h2, "password", false), l, fires);
    }

    /** Three sessions from three hosts, `gap` seconds apart. */
    method FarCase(kind: Kind, gap: int) returns (r: Outcome<()>)
      requires Accepted(params) && Counted() && gap > params.w3
      modifies this
      ensures r.Success? <==> Room(2 * gap + 60)
      ensures r.Success? ==> Counted() && Extends(params, old(State()), State())
      ensures r.Success? ==> PlanOf(labels) == PlanOf(old(labels)) + [Entry(B3, kind, NoAlert)]
      ensures r.Success? ==> AddedFar(old(events), events, gap)
    {
      var t :- T0(2 * gap + 60);
      FarAt(kind, t, gap);
      return Success(());
    }

    method ThreeSessions(a: string, t: int, gap: int) returns (h1: string, i1: string, h2: string, i2: string, h3: string, i3: string)
      requires Counted()
      modifies `hostCount, `usedHosts, `eventCount, `events, `usedIds
      ensures Counted()
      ensures {h1, h2, h3} !! old(usedHosts) && usedHosts == old(usedHosts) + {h1, h2, h3} && h1 != h2 && h2 != h3 && h1 != h3
      ensures {i1, i2, i3} !! old(usedIds) && usedIds == old(usedIds) + {i1, i2, i3}
      ensures events == old(events) + [MakeEvent(i1, t, a, LoginSuccess, h1, "password", false),
                                       MakeEvent(i2, t + gap, a, LoginSuccess, h2, "password", false),
                                       MakeEvent(i3, t + 2 * gap, a, LoginSuccess, h3, "password", false)]
    {
      h1, i1 := SessionOnNewHost(a, t);
      h2, i2 := SessionOnNewHost(a, t + gap);
      h3, i3 := SessionOnNewHost(a, t + 2 * gap);
    }

    method FarAt(kind: Kind, t: int, gap: int)
      requires Accepted(params) && Counted() && gap > params.w3
      modifies this
      ensures Counted() && Extends(params, old(State()), State())
      ensures PlanOf(labels) == PlanOf(old(labels)) + [Entry(B3, kind, NoAlert)]
      ensures AddedFar(old(events), events, gap)
    {
      var a := Account(HUMAN);
      var h1, i1, h2, i2, h3, i3 := ThreeSessions(a, t, gap);
      var l := Label(B3, kind, NoAlert, [a], None, [i1, i2, i3]);
      AddLabel(l);
      FarExtends(params, old(State()), State(), MakeEvent(i1, t, a, LoginSuccess, h1, "password", false),
                 MakeEvent(i2, t + gap, a, LoginSuccess, h2, "password", false),
                 MakeEvent(i3, t + 2 * gap, a, LoginSuccess, h3, "password", false), l);
    }

    // ---------------------------------------------------------------- B4 and B5

    /** One event on a fresh account with the given policy row, and its label. */
    method LoneCase(b: Behaviour, kind: Kind, fires: bool, terms: Terms, t: EventType, method_: string, mfa: bool) returns (r: Outcome<()>)
      requires Accepted(params) && Counted() && (b == B4 || b == B5)
      requires fires <==> t.LoginSuccess? && if b == B4 then method_ != terms.method_ else terms.mfaRequired && !mfa
      requires t.LoginSuccess? ==> if b == B4 then !terms.mfaRequired || mfa else method_ == terms.method_
      modifies this
      ensures r.Success? <==> Room(60)
      ensures r.Success? ==> Counted() && Extends(params, old(State()), State())
      ensures r.Success? ==> PlanOf(labels) == PlanOf(old(labels)) + [Entry(b, kind, if fires then Alerting else NoAlert)]
      ensures r.Success? ==> AddedLogin(old(State()), State(), t, method_ != terms.method_, terms.mfaRequired, mfa)
    {
      var sec :- T0(60);
      LoneAt(b, kind, fires, terms, t, method_, mfa, sec);
      return Success(());
    }

    method LoneEvent(terms: Terms, t: EventType, method_: string, mfa: bool, sec: int) returns (a: string, h: string, id: string)
      requires Counted()
      modifies `accountCount, `policy, `usedAccounts, `hostCount, `usedHosts, `eventCount, `events, `usedIds
      ensures Counted() && events == old(events) + [MakeEvent(id, sec, a, t, h, method_, mfa)] && policy == old(policy) + RowsFor(a, Some(terms))
      ensures a !in old(usedAccounts) && usedAccounts == old(usedAccounts) + {a}
      ensures h !in old(usedHosts) && usedHosts == old(usedHosts) + {h}
      ensures id !in old(usedIds) && usedIds == old(usedIds) + {id}
      ensures AddedLogin(old(State()), State(), t, method_ != terms.method_, terms.mfaRequired, mfa)
    {
      a, h := AccountAndHost(Some(terms));
      id := AddEvent(sec, a, t, h, method_, mfa);
    }

    method LoneAt(b: Behaviour, kind: Kind, fires: bool, terms: Terms, t: EventType, method_: string, mfa: bool, sec: int)
      requires Accepted(params) && Counted() && (b == B4 || b == B5)
      requires fires <==> t.LoginSuccess? && if b == B4 then method_ != terms.method_ else terms.mfaRequired && !mfa
      requires t.LoginSuccess? ==> if b == B4 then !terms.mfaRequired || mfa else method_ == terms.method_
      modifies this
      ensures Counted() && Extends(params, old(State()), State())
      ensures PlanOf(labels) == PlanOf(old(labels)) + [Entry(b, kind, if fires then Alerting else NoAlert)]
      ensures AddedLogin(old(State()), State(), t, method_ != terms.method_, terms.mfaRequired, mfa)
    {
      var a, h, id := LoneEvent(terms, t, method_, mfa, sec);
      ghost var e := MakeEvent(id, sec, a, t, h, method_, mfa);
      var l := Verdict(b, kind, fires, [a], id, [id]);
      AddLabel(l);
      LoneExtends(params, old(State()), State(), e, PolicyRow(a, terms.accountType, terms.method_, terms.mfaRequired), l, fires);
    }

    method NoPolicyLabels(a: string, id: string)
      requires Counted()
      modifies `incidentCount, `labels
      ensures Counted() && labels == old(labels) + [NoPolicyLabel(B4, a, id), NoPolicyLabel(B5, a, id)]
      ensures PlanOf(labels) == PlanOf(old(labels)) + [Entry(B4, MissingContext, Insufficient)]
                                                    + [Entry(B5, MissingContext, Insufficient)]
    {
      AddLabel(NoPolicyLabel(B4, a, id));
      AddLabel(NoPolicyLabel(B5, a, id));
    }

    /** `_no_policy_incident`: both policy rules owe an "insufficient context" for the same event. */
    method NoPolicyCase() returns (r: Outcome<()>)
      requires Accepted(params) && Counted()
      modifies this
      ensures r.Success? <==> Room(60)
      ensures r.Success? ==> Counted() && Extends(params, old(State()), State())
      ensures r.Success? ==> PlanOf(labels) == PlanOf(old(labels)) + [Entry(B4, MissingContext, Insufficient)]
                                                                   + [Entry(B5, MissingContext, Insufficient)]
    {
      var a, h := AccountAndHost(None);
      var sec :- T0(60);
      var id := AddEvent(sec, a, LoginSuccess, h, "password", false);
      ghost var e := MakeEvent(id, sec, a, LoginSuccess, h, "password", false);
      NoPolicyLabels(a, id);
      NoPolicyExtends(params, old(State()), State(), e);
      return Success(());
    }

    // ---------------------------------------------------------------- the seconds of the B1 incidents

    /** Between the threshold and four more failures, all in the window before the success. */
    method DrawEnough() returns (r: Outcome<Draw>, ghost n: int)
      requires Accepted(params)
      ensures params.t1 <= n <= params.t1 + 4 && (r.Success? <==> Room(params.w1 + 60) && n <= params.w1)
      ensures r.Success? ==> |r.value.fails| == n
      ensures r.Success? ==> InWindow(r.value, params.w1) == n
    {
      var w, t := params.w1, params.t1;
      n := t;
      var base :- T0(w + 60);
      var ts := base + w;
      var size := RandInt(t, t + 4);
      n := size.value;
      var fails :- DistinctSeconds(ts - w, ts - 1, size.value);
      AllInWindow(fails, ts - w, ts - 1, size.value, ts - w, ts);
      return Success(Draw(fails, ts)), n;
    }

    /** Exactly the threshold, the oldest on the window's closed edge. */
    method DrawOnEdge() returns (r: Outcome<Draw>)
      requires Accepted(params)
      ensures r.Success? <==> Room(params.w1 + 60) && params.w1 >= params.t1
      ensures r.Success? ==> InWindow(r.value, params.w1) == |r.value.fails| == params.t1 && r.value.fails[0] == r.value.at - params.w1
    {
      var w, t := params.w1, params.t1;
      var base :- T0(w + 60);
      var ts := base + w;
      var rest :- DistinctSeconds(ts - w + 1, ts - 1, t - 1);
      OldestOnEdge(rest, ts - w, ts, t - 1);
      return Success(Draw([ts - w] + rest, ts));
    }

    /** Exactly the threshold, the oldest one second outside the window. */
    method DrawOutside() returns (r: Outcome<Draw>)
      requires Accepted(params)
      ensures r.Success? <==> Room(params.w1 + 60) && params.w1 >= params.t1 - 1
      ensures r.Success? ==> |r.value.fails| == params.t1 && InWindow(r.value, params.w1) == params.t1 - 1
                             && r.value.fails[0] == r.value.at - params.w1 - 1
    {
      var w, t := params.w1, params.t1;
      var base :- T0(w + 60);
      var ts := base + w;
      var rest :- DistinctSeconds(ts - w, ts - 1, t - 1);
      OldestOutside(rest, ts - w, ts, t - 1);
      return Success(Draw([ts - w - 1] + rest, ts));
    }

    method DrawTooFew() returns (r: Outcome<Draw>)
      requires Accepted(params)
      ensures r.Success? <==> Room(params.w1 + 60) && params.w1 >= params.t1 - 1
      ensures r.Success? ==> InWindow(r.value, params.w1) == |r.value.fails| == params.t1 - 1
    {
      var w, t := params.w1, params.t1;
      var base :- T0(w + 60);
      var ts := base + w;
      var fails :- DistinctSeconds(ts - w, ts - 1, t - 1);
      AllInWindow(fails, ts - w, ts - 1, t - 1, ts - w, ts);
      return Success(Draw(fails, ts));
    }

    /** More failures than the threshold, but two below it inside the window. */
    method DrawSpread() returns (r: Outcome<Draw>)
      requires Accepted(params)
      ensures r.Success? <==> Room(params.w1 + 900) && params.w1 >= params.t1 - 2 && params.t1 + 3 <= 600
      ensures r.Success? ==> |r.value.fails| == 2 * params.t1 + 1 && InWindow(r.value, params.w1) == params.t1 - 2
    {
      var w, t := params.w1, params.t1;
      var base :- T0(w + 900);
      var ts := base + w + 600;
      var inWindow :- DistinctSeconds(ts - w, ts - 1, t - 2);
      var earlier :- DistinctSeconds(ts - w - 600, ts - w - 1, t + 3);
      SpreadOut(earlier, t + 3, inWindow, t - 2, ts - w, ts);
      return Success(Draw(earlier + inWindow, ts));
    }

    /** As many seconds as the spray threshold, the last exactly `span` after the first. */
    method DrawSpan(span: int) returns (r: Outcome<seq<int>>)
      requires Accepted(params) && span >= 1
      ensures r.Success? <==> Room(params.w2 + 60) && params.t2 - 2 <= span - 1
      ensures r.Success? ==> |r.value| == params.t2 && Ascending(r.value) && r.value[params.t2 - 1] - r.value[0] == span
    {
      var base :- T0(params.w2 + 60);
      var inner :- DistinctSeconds(base + 1, base + span - 1, params.t2 - 2);
      Flanked(base, inner, base + span, params.t2 - 2);
      return Success([base] + inner + [base + span]);
    }

    /** As many seconds as the spray threshold, more than half a window apart. */
    method DrawSlow() returns (r: Outcome<seq<int>>)
      requires Accepted(params)
      ensures r.Success? <==> Room(SlowSpan(params))
      ensures r.Success? ==> |r.value| == params.t2 && Spaced(r.value, params.w2)
    {
      var w, t := params.w2, params.t2;
      var gap := w / 2 + 1;
      var base :- T0(gap * t + 60);
      EvenlySpaced(base, w, t);
      return Success(Every(base, gap, t));
    }

    // ---------------------------------------------------------------- the B1 builders

    method B1PosTypical() returns (r: Outcome<()>, ghost n: int, ghost q: Sequence)
      requires Valid()
      modifies this
      ensures r.Success? ==> Valid() && PlanOf(labels) == PlanOf(old(labels)) + [Entry(B1, Positive, Alerting)]
      ensures r.Success? ==> q.Ok() && q.failing == q.succeeding && events == old(events) + (q.Failures() + [q.Success()])
      ensures r.Success? ==> |q.draw.fails| == n == InWindow(q.draw, params.w1)
      ensures params.t1 <= n <= params.t1 + 4 && (r.Success? <==> Room(params.w1 + 60) && n <= params.w1)
    {
      q := NO_SEQUENCE;
      var draw;
      draw, n := DrawEnough();
      if draw.ValueError? { return ValueError, n, q; }
      q := SequenceCase(Positive, true, draw.value);
      return Success(()), n, q;
    }

    method B1PosBoundary() returns (r: Outcome<()>, ghost q: Sequence)
      requires Valid()
      modifies this
      ensures r.Success? ==> Valid() && PlanOf(labels) == PlanOf(old(labels)) + [Entry(B1, BoundaryPositive, Alerting)]
      ensures r.Success? ==> q.Ok() && q.failing == q.succeeding && events == old(events) + (q.Failures() + [q.Success()])
      ensures r.Success? ==> |q.draw.fails| == params.t1 == InWindow(q.draw, params.w1) && q.draw.fails[0] == q.draw.at - params.w1
      ensures r.Success? <==> Room(params.w1 + 60) && params.w1 >= params.t1
    {
      q := NO_SEQUENCE;
      var draw :- DrawOnEdge();
      q := SequenceCase(BoundaryPositive, true, draw);
      return Success(()), q;
    }

    method B1NegBoundary() returns (r: Outcome<()>, ghost q: Sequence)
      requires Valid()
      modifies this
      ensures r.Success? ==> Valid() && PlanOf(labels) == PlanOf(old(labels)) + [Entry(B1, BoundaryNegative, NoAlert)]
      ensures r.Success? ==> q.Ok() && q.failing == q.succeeding && events == old(events) + (q.Failures() + [q.Success()])
      ensures r.Success? ==> |q.draw.fails| == params.t1 == InWindow(q.draw, params.w1) + 1 && q.draw.fails[0] == q.draw.at - params.w1 - 1
      ensures r.Success? <==> Room(params.w1 + 60) && params.w1 >= params.t1 - 1
    {
      q := NO_SEQUENCE;
      var draw :- DrawOutside();
      q := SequenceCase(BoundaryNegative, false, draw);
      return Success(()), q;
    }

    method B1NegThreshold() returns (r: Outcome<()>, ghost q: Sequence)
      requires Valid()
      modifies this
      ensures r.Success? ==> Valid() && PlanOf(labels) == PlanOf(old(labels)) + [Entry(B1, HardNegative, NoAlert)]
      ensures r.Success? ==> q.Ok() && q.failing == q.succeeding && events == old(events) + (q.Failures() + [q.Success()])
      ensures r.Success? ==> |q.draw.fails| == params.t1 - 1 == InWindow(q.draw, params.w1)
      ensures r.Success? <==> Room(params.w1 + 60) && params.w1 >= params.t1 - 1
    {
      q := NO_SEQUENCE;
      var draw :- DrawTooFew();
      q := SequenceCase(HardNegative, false, draw);
      return Success(()), q;
    }

    method B1NegNoSuccess() returns (r: Outcome<()>, ghost q: Spray)
      requires Valid()
      modifies this
      ensures r.Success? ==> Valid() && PlanOf(labels) == PlanOf(old(labels)) + [Entry(B1, HardNegative, NoAlert)]
      ensures r.Success? ==> q.Ok() && events == old(events) + q.Events(LoginFailure)
      ensures r.Success? ==> |Members(q.accounts)| == 1 && |q.secs| == params.t1 + 1 && InOneWindow(q.secs, params.w1)
      ensures r.Success? <==> Room(params.w1 + 60) && params.w1 >= params.t1
    {
      q := NO_SPRAY;
      var w, t := params.w1, params.t1;
      ghost var before := State();
      var base :- T0(w + 60);
      var fails :- DistinctSeconds(base, base + w, t + 1);
      var all, h := AccountsAndHost(1);
      q := OneAccountFails(before, all, h, fails, B1, HardNegative, [all[0]]);
      DrawnInWindow(fails, base, w, t + 1);
      return Success(()), q;
    }

    method B1NegSpread() returns (r: Outcome<()>, ghost q: Sequence)
      requires Valid()
      modifies this
      ensures r.Success? ==> Valid() && PlanOf(labels) == PlanOf(old(labels)) + [Entry(B1, HardNegative, NoAlert)]
      ensures r.Success? ==> q.Ok() && q.failing == q.succeeding && events == old(events) + (q.Failures() + [q.Success()])
      ensures r.Success? ==> |q.draw.fails| == 2 * params.t1 + 1 && InWindow(q.draw, params.w1) == params.t1 - 2
      ensures r.Success? <==> Room(params.w1 + 900) && params.w1 >= params.t1 - 2 && params.t1 + 3 <= 600
    {
      q := NO_SEQUENCE;
      var draw :- DrawSpread();
      q := SequenceCase(HardNegative, false, draw);
      return Success(()), q;
    }

    method B1NegOrder() returns (r: Outcome<()>, ghost q: Sequence)
      requires Valid()
      modifies this
      ensures r.Success? ==> Valid() && PlanOf(labels) == PlanOf(old(labels)) + [Entry(B1, HardNegative, NoAlert)]
      ensures r.Success? ==> q.Ok() && q.failing == q.succeeding && events == old(events) + ([q.Success()] + q.Failures())
      ensures r.Success? ==> Drawn(q.draw.fails, q.draw.at + 1, q.draw.at + params.w1, params.t1 + 1)
      ensures r.Success? <==> Room(params.w1 + 60) && params.w1 >= params.t1 + 1
    {
      q := NO_SEQUENCE;
      var w, t := params.w1, params.t1;
      var ts :- T0(w + 60);
      var fails :- DistinctSeconds(ts + 1, ts + w, t + 1);
      q := OrderCase(HardNegative, ts, fails);
      return Success(()), q;
    }

    method B1NegWrongAccount() returns (r: Outcome<()>, ghost q: Sequence)
      requires Valid()
      modifies this
      ensures r.Success? ==> Valid() && PlanOf(labels) == PlanOf(old(labels)) + [Entry(B1, HardNegative, NoAlert)]
      ensures r.Success? ==> q.Ok() && q.failing != q.succeeding && events == old(events) + (q.Failures() + [q.Success()])
      ensures r.Success? ==> Drawn(q.draw.fails, q.draw.at - params.w1, q.draw.at - 1, params.t1 + 1)
      ensures r.Success? <==> Room(params.w1 + 60) && params.w1 >= params.t1 + 1
    {
      q := NO_SEQUENCE;
      var w, t := params.w1, params.t1;
      var base :- T0(w + 60);
      var ts := base + w;
      var fails :- DistinctSeconds(ts - w, ts - 1, t + 1);
      q := WrongAccountCase(HardNegative, fails, ts);
      return Success(()), q;
    }

    // ---------------------------------------------------------------- the B2 builders

    method B2PosTypical() returns (r: Outcome<()>, ghost n: int, ghost q: Spray)
      requires Valid()
      modifies this
      ensures r.Success? ==> Valid() && PlanOf(labels) == PlanOf(old(labels)) + [Entry(B2, Positive, Alerting)]
      ensures r.Success? ==> q.Ok() && events == old(events) + q.Events(LoginFailure)
      ensures r.Success? ==> InOneWindow(q.secs, params.w2) && |q.secs| == n && params.t2 <= |Members(q.accounts)| <= params.t2 + 4
      ensures params.t2 <= n <= 2 * (params.t2 + 4) && (r.Success? <==> Room(params.w2 + 60) && n <= params.w2 + 1)
    {
      q := NO_SPRAY;
      var w, t := params.w2, params.t2;
      ghost var before := State();
      var size := RandInt(t, t + 4);
      var d := size.value;
      var repeats := RandInt(0, d);
      var more := repeats.value;
      n := d + more;
      var base :- T0(w + 60);
      var secs :- DistinctSeconds(base, base + w, d + more);
      var all, h := AccountsAndHost(d);
      var extra := Choices(all, more);
      var assignment := Shuffle(all + extra);
      AssignmentCovers(all, extra, assignment);
      NoRepeatsSize(all);
      DrawnInWindow(secs, base, w, d + more);
      var first := FirstBreach(assignment, t);
      ReachedInTime(assignment, all, t, first);
      SprayBurst(params, secs, assignment, h, all, first.value, Positive);
      q := BurstCase(before, all, h, secs, assignment, LoginFailure, B2, Positive, true, [h], first.value);
      return Success(()), n, q;
    }

    method B2PosBoundary() returns (r: Outcome<()>, ghost q: Spray)
      requires Valid()
      modifies this
      ensures r.Success? ==> Valid() && PlanOf(labels) == PlanOf(old(labels)) + [Entry(B2, BoundaryPositive, Alerting)]
      ensures r.Success? ==> q.Ok() && events == old(events) + q.Events(LoginFailure)
      ensures r.Success? ==> NoRepeats(q.accounts) && |q.secs| == params.t2 && Ascending(q.secs) && q.secs[params.t2 - 1] - q.secs[0] == params.w2
      ensures r.Success? <==> Room(params.w2 + 60) && params.t2 - 2 <= params.w2 - 1
    {
      q := NO_SPRAY;
      ghost var before := State();
      var secs :- DrawSpan(params.w2);
      var all, h := AccountsAndHost(params.t2);
      q := SprayOnEdge(before, all, h, secs);
      return Success(()), q;
    }

    method B2NegBoundary() returns (r: Outcome<()>, ghost q: Spray)
      requires Valid()
      modifies this
      ensures r.Success? ==> Valid() && PlanOf(labels) == PlanOf(old(labels)) + [Entry(B2, BoundaryNegative, NoAlert)]
      ensures r.Success? ==> q.Ok() && events == old(events) + q.Events(LoginFailure)
      ensures r.Success? ==> NoRepeats(q.accounts) && |q.secs| == params.t2 && Ascending(q.secs) && q.secs[params.t2 - 1] - q.secs[0] == params.w2 + 1
      ensures r.Success? <==> Room(params.w2 + 60) && params.t2 - 2 <= params.w2
    {
      q := NO_SPRAY;
      ghost var before := State();
      var secs :- DrawSpan(params.w2 + 1);
      var all, h := AccountsAndHost(params.t2);
      LateBurst(params, secs, all, h, BoundaryNegative);
      q := BurstCase(before, all, h, secs, all, LoginFailure, B2, BoundaryNegative, false, [h], 0);
      return Success(()), q;
    }

    method B2NegThreshold() returns (r: Outcome<()>, ghost q: Spray)
      requires Valid()
      modifies this
      ensures r.Success? ==> Valid() && PlanOf(labels) == PlanOf(old(labels)) + [Entry(B2, HardNegative, NoAlert)]
      ensures r.Success? ==> q.Ok() && events == old(events) + q.Events(LoginFailure)
      ensures r.Success? ==> InOneWindow(q.secs, params.w2) && |q.secs| == 2 * params.t2 && |Members(q.accounts)| == params.t2 - 1
      ensures r.Success? <==> Room(params.w2 + 60) && 2 * params.t2 <= params.w2 + 1
    {
      q := NO_SPRAY;
      var w, t := params.w2, params.t2;
      ghost var before := State();
      var n := 2 * (t - 1) + 2;
      var base :- T0(w + 60);
      var secs :- DistinctSeconds(base, base + w, n);
      var all, h := AccountsAndHost(t - 1);
      var extra := Choices(all, n - 2 * |all|);
      var assignment := Shuffle(all + all + extra);
      DrawnInWindow(secs, base, w, n);
      q := FewAccountsFail(before, all, h, secs, extra, assignment);
      return Success(()), q;
    }

    method B2NegSingleAccount() returns (r: Outcome<()>, ghost q: Spray)
      requires Valid()
      modifies this
      ensures r.Success? ==> Valid() && PlanOf(labels) == PlanOf(old(labels)) + [Entry(B2, HardNegative, NoAlert)]
      ensures r.Success? ==> q.Ok() && events == old(events) + q.Events(LoginFailure)
      ensures r.Success? ==> InOneWindow(q.secs, params.w2) && |Members(q.accounts)| == 1 && |q.secs| == 12
      ensures r.Success? <==> Room(params.w2 + 60) && params.w2 >= 11
    {
      q := NO_SPRAY;
      var w := params.w2;
      ghost var before := State();
      var base :- T0(w + 60);
      var secs :- DistinctSeconds(base, base + w, 12);
      var all, h := AccountsAndHost(1);
      q := OneAccountFails(before, all, h, secs, B2, HardNegative, [h]);
      DrawnInWindow(secs, base, w, 12);
      return Success(()), q;
    }

    method B2NegSuccessEvents() returns (r: Outcome<()>, ghost q: Spray)
      requires Valid()
      modifies this
      ensures r.Success? ==> Valid() && PlanOf(labels) == PlanOf(old(labels)) + [Entry(B2, HardNegative, NoAlert)]
      ensures r.Success? ==> q.Ok() && events == old(events) + q.Events(LoginSuccess)
      ensures r.Success? ==> InOneWindow(q.secs, params.w2) && NoRepeats(q.accounts) && |q.secs| == params.t2 + 2
      ensures r.Success? <==> Room(params.w2 + 60) && params.t2 + 1 <= params.w2
    {
      q := NO_SPRAY;
      var w, t := params.w2, params.t2;
      ghost var before := State();
      var base :- T0(w + 60);
      var secs :- DistinctSeconds(base, base + w, t + 2);
      var all, h := AccountsAndHost(t + 2);
      SuccessesBurst(params, secs, all, h, HardNegative, [h]);
      DrawnInWindow(secs, base, w, t + 2);
      q := BurstCase(before, all, h, secs, all, LoginSuccess, B2, HardNegative, false, [h], 0);
      return Success(()), q;
    }

    method B2NegSlow() returns (r: Outcome<()>, ghost q: Spray)
      requires Valid()
      modifies this
      ensures r.Success? ==> Valid() && PlanOf(labels) == PlanOf(old(labels)) + [Entry(B2, HardNegative, NoAlert)]
      ensures r.Success? ==> q.Ok() && events == old(events) + q.Events(LoginFailure)
      ensures r.Success? ==> Spaced(q.secs, params.w2) && NoRepeats(q.accounts) && |q.secs| == params.t2
      ensures r.Success? <==> Room(SlowSpan(params))
    {
      q := NO_SPRAY;
      ghost var before := State();
      var secs :- DrawSlow();
      var all, h := AccountsAndHost(params.t2);
      SlowBurst(params, secs, all, h, HardNegative);
      q := BurstCase(before, all, h, secs, all, LoginFailure, B2, HardNegative, false, [h], 0);
      return Success(()), q;
    }

    // ---------------------------------------------------------------- the B3 builders

    method B3PosTypical() returns (r: Outcome<()>, ghost n: int)
      requires Valid()
      modifies this
      ensures r.Success? ==> Valid() && PlanOf(labels) == PlanOf(old(labels)) + [Entry(B3, Positive, Alerting)]
      ensures r.Success? ==> AddedPair(old(events), events, n, LoginSuccess, false)
      ensures 1 <= n <= params.w3 && (r.Success? <==> Room(n + 60))
    {
      var w := params.w3;
      var gap := RandInt(1, w);
      n := gap.value;
      var _ :- PairCase(Positive, true, gap.value, LoginSuccess, false);
      StillSound(params, old(State()), State());
      return Success(()), n;
    }

    method B3PosBoundary() returns (r: Outcome<()>)
      requires Valid()
      modifies this
      ensures r.Success? ==> Valid() && PlanOf(labels) == PlanOf(old(labels)) + [Entry(B3, BoundaryPositive, Alerting)]
      ensures r.Success? ==> AddedPair(old(events), events, params.w3, LoginSuccess, false)
      ensures r.Success? <==> Room(params.w3 + 60)
    {
      var w := params.w3;
      var _ :- PairCase(BoundaryPositive, true, w, LoginSuccess, false);
      StillSound(params, old(State()), State());
      return Success(());
    }

    method B3NegBoundary() returns (r: Outcome<()>)
      requires Valid()
      modifies this
      ensures r.Success? ==> Valid() && PlanOf(labels) == PlanOf(old(labels)) + [Entry(B3, BoundaryNegative, NoAlert)]
      ensures r.Success? ==> AddedPair(old(events), events, params.w3 + 1, LoginSuccess, false)
      ensures r.Success? <==> Room(params.w3 + 61)
    {
      var w := params.w3;
      var _ :- PairCase(BoundaryNegative, false, w + 1, LoginSuccess, false);
      StillSound(params, old(State()), State());
      return Success(());
    }

    method B3NegSameHost() returns (r: Outcome<()>, ghost n: int)
      requires Valid()
      modifies this
      ensures r.Success? ==> Valid() && PlanOf(labels) == PlanOf(old(labels)) + [Entry(B3, HardNegative, NoAlert)]
      ensures r.Success? ==> AddedPair(old(events), events, n, LoginSuccess, true)
      ensures if params.w3 < 60 then r.ValueError? else 60 <= n <= params.w3 && (r.Success? <==> Room(n + 60))
    {
      var w := params.w3;
      n := 0;
      var gap :- RandInt(60, w);
      n := gap;
      var _ :- PairCase(HardNegative, false, gap, LoginSuccess, true);
      StillSound(params, old(State()), State());
      return Success(()), n;
    }

    method B3NegFailure() returns (r: Outcome<()>, ghost n: int)
      requires Valid()
      modifies this
      ensures r.Success? ==> Valid() && PlanOf(labels) == PlanOf(old(labels)) + [Entry(B3, HardNegative, NoAlert)]
      ensures r.Success? ==> AddedPair(old(events), events, n, LoginFailure, false)
      ensures 1 <= n <= params.w3 && (r.Success? <==> Room(n + 60))
    {
      var w := params.w3;
      var gap := RandInt(1, w);
      n := gap.value;
      var _ :- PairCase(HardNegative, false, gap.value, LoginFailure, false);
      StillSound(params, old(State()), State());
      return Success(()), n;
    }

    method B3NegFarHosts() returns (r: Outcome<()>, ghost n: int)
      requires Valid()
      modifies this
      ensures r.Success? ==> Valid() && PlanOf(labels) == PlanOf(old(labels)) + [Entry(B3, HardNegative, NoAlert)]
      ensures r.Success? ==> AddedFar(old(events), events, n)
      ensures params.w3 < n <= params.w3 + 301 && (r.Success? <==> Room(2 * n + 60))
    {
      var w := params.w3;
      var extra := RandInt(0, 300);
      n := w + 1 + extra.value;
      var _ :- FarCase(HardNegative, w + 1 + extra.value);
      StillSound(params, old(State()), State());
      return Success(()), n;
    }

    // ---------------------------------------------------------------- the B4 and B5 builders

    method B4Pos() returns (r: Outcome<()>)
      requires Valid()
      modifies this
      ensures r.Success? ==> Valid() && PlanOf(labels) == PlanOf(old(labels)) + [Entry(B4, Positive, Alerting)]
      ensures r.Success? ==> AddedLogin(old(State()), State(), LoginSuccess, true, false, false)
      ensures r.Success? <==> Room(60)
    {
      var choice := Choice(AUTH_METHODS);
      var expected := choice.value;
      var other := OtherMethod(expected);
      var _ :- LoneCase(B4, Positive, true, Terms("service", expected, false), LoginSuccess, other, false);
      StillSound(params, old(State()), State());
      return Success(());
    }

    method B4NegCompliant() returns (r: Outcome<()>)
      requires Valid()
      modifies this
      ensures r.Success? ==> Valid() && PlanOf(labels) == PlanOf(old(labels)) + [Entry(B4, HardNegative, NoAlert)]
      ensures r.Success? ==> AddedLogin(old(State()), State(), LoginSuccess, false, false, false)
      ensures r.Success? <==> Room(60)
    {
      var choice := Choice(AUTH_METHODS);
      var expected := choice.value;
      var _ :- LoneCase(B4, HardNegative, false, Terms("service", expected, false), LoginSuccess, expected, false);
      StillSound(params, old(State()), State());
      return Success(());
    }

    method B4NegFailure() returns (r: Outcome<()>)
      requires Valid()
      modifies this
      ensures r.Success? ==> Valid() && PlanOf(labels) == PlanOf(old(labels)) + [Entry(B4, HardNegative, NoAlert)]
      ensures r.Success? ==> AddedLogin(old(State()), State(), LoginFailure, true, false, false)
      ensures r.Success? <==> Room(60)
    {
      var choice := Choice(AUTH_METHODS);
      var expected := choice.value;
      var other := OtherMethod(expected);
      var _ :- LoneCase(B4, HardNegative, false, Terms("service", expected, false), LoginFailure, other, false);
      StillSound(params, old(State()), State());
      return Success(());
    }

    method B5Pos() returns (r: Outcome<()>)
      requires Valid()
      modifies this
      ensures r.Success? ==> Valid() && PlanOf(labels) == PlanOf(old(labels)) + [Entry(B5, Positive, Alerting)]
      ensures r.Success? ==> AddedLogin(old(State()), State(), LoginSuccess, false, true, false)
      ensures r.Success? <==> Room(60)
    {
      var _ :- LoneCase(B5, Positive, true, Terms("human", "password", true), LoginSuccess, "password", false);
      StillSound(params, old(State()), State());
      return Success(());
    }

    method B5NegCompliant() returns (r: Outcome<()>)
      requires Valid()
      modifies this
      ensures r.Success? ==> Valid() && PlanOf(labels) == PlanOf(old(labels)) + [Entry(B5, HardNegative, NoAlert)]
      ensures r.Success? ==> AddedLogin(old(State()), State(), LoginSuccess, false, true, true)
      ensures r.Success? <==> Room(60)
    {
      var _ :- LoneCase(B5, HardNegative, false, Terms("human", "password", true), LoginSuccess, "password", true);
      StillSound(params, old(State()), State());
      return Success(());
    }

    method B5NegNotRequired() returns (r: Outcome<()>)
      requires Valid()
      modifies this
      ensures r.Success? ==> Valid() && PlanOf(labels) == PlanOf(old(labels)) + [Entry(B5, HardNegative, NoAlert)]
      ensures r.Success? ==> AddedLogin(old(State()), State(), LoginSuccess, false, false, false)
      ensures r.Success? <==> Room(60)
    {
      var _ :- LoneCase(B5, HardNegative, false, Terms("human", "password", false), LoginSuccess, "password", false);
      StillSound(params, old(State()), State());
      return Success(());
    }

    method B5NegFailure() returns (r: Outcome<()>)
      requires Valid()
      modifies this
      ensures r.Success? ==> Valid() && PlanOf(labels) == PlanOf(old(labels)) + [Entry(B5, HardNegative, NoAlert)]
      ensures r.Success? ==> AddedLogin(old(State()), State(), LoginFailure, false, true, false)
      ensures r.Success? <==> Room(60)
    {
      var _ :- LoneCase(B5, HardNegative, false, Terms("human", "password", true), LoginFailure, "password", false);
      StillSound(params, old(State()), State());
      return Success(());
    }

    /** Both `b4_insufficient` and `b5_insufficient`. */
    method PolicyMissing() returns (r: Outcome<()>)
      requires Valid()
      modifies this
      ensures r.Success? ==> Valid() && PlanOf(labels) == PlanOf(old(labels)) + [Entry(B4, MissingContext, Insufficient)]
                                                                              + [Entry(B5, MissingContext, Insufficient)]
      ensures r.Success? <==> Room(60)
    {
      var _ :- NoPolicyCase();
      StillSound(params, old(State()), State());
      return Success(());
    }

    // ---------------------------------------------------------------- `inject`

    /** Run builder `k` of behaviour `b`'s list; `n` is the number it draws, 0 if none. */
    method Build(b: Behaviour, k: nat) returns (r: Outcome<()>, ghost n: int)
      requires Valid() && k < ListSize(b)
      modifies this
      ensures r.Success? ==> Valid() && PlanOf(labels) == PlanOf(old(labels)) + Labelled(b, k)
      ensures DrawDecides(b, k, params, startSec, endSec, n, r.Success?)
    {
      match b
      case B1 => r, n := BuildB1(k);
      case B2 => r, n := BuildB2(k);
      case B3 => r, n := BuildB3(k);
      case B4 => r, n := BuildB4(k);
      case B5 => r, n := BuildB5(k);
    }

    method BuildB1(k: nat) returns (r: Outcome<()>, ghost n: int)
      requires Valid() && k < 8
      modifies this
      ensures r.Success? ==> Valid() && PlanOf(labels) == PlanOf(old(labels)) + Labelled(B1, k)
      ensures DrawDecides(B1, k, params, startSec, endSec, n, r.Success?)
    {
      if k < 2 { r, n := BuildB1Positive(k); } else if k < 4 { r, n := BuildB1Near(k); } else { r, n := BuildB1Hard(k); }
    }

    method BuildB1Positive(k: nat) returns (r: Outcome<()>, ghost n: int)
      requires Valid() && k < 2
      modifies this
      ensures r.Success? ==> Valid() && PlanOf(labels) == PlanOf(old(labels)) + Labelled(B1, k)
      ensures DrawDecides(B1, k, params, startSec, endSec, n, r.Success?)
    {
      ghost var q;
      n := 0;
      if k == 0 { r, n, q := B1PosTypical(); } else { r, q := B1PosBoundary(); }
    }

    method BuildB1Near(k: nat) returns (r: Outcome<()>, ghost n: int)
      requires Valid() && 2 <= k < 4
      modifies this
      ensures r.Success? ==> Valid() && PlanOf(labels) == PlanOf(old(labels)) + Labelled(B1, k)
      ensures DrawDecides(B1, k, params, startSec, endSec, n, r.Success?)
    {
      ghost var q;
      n := 0;
      if k == 2 { r, q := B1NegBoundary(); } else { r, q := B1NegThreshold(); }
    }

    method BuildB1Hard(k: nat) returns (r: Outcome<()>, ghost n: int)
      requires Valid() && 4 <= k < 8
      modifies this
      ensures r.Success? ==> Valid() && PlanOf(labels) == PlanOf(old(labels)) + Labelled(B1, k)
      ensures DrawDecides(B1, k, params, startSec, endSec, n, r.Success?)
    {
      if k < 6 { r, n := BuildB1Quiet(k); } else { r, n := BuildB1Odd(k); }
    }

    method BuildB1Quiet(k: nat) returns (r: Outcome<()>, ghost n: int)
      requires Valid() && 4 <= k < 6
      modifies this
      ensures r.Success? ==> Valid() && PlanOf(labels) == PlanOf(old(labels)) + Labelled(B1, k)
      ensures DrawDecides(B1, k, params, startSec, endSec, n, r.Success?)
    {
      if k == 4 { r, n := BuildB1NoSuccess(k); } else { r, n := BuildB1Spread(k); }
    }

    method BuildB1NoSuccess(k: nat) returns (r: Outcome<()>, ghost n: int)
      requires Valid() && k == 4
      modifies this
      ensures r.Success? ==> Valid() && PlanOf(labels) == PlanOf(old(labels)) + Labelled(B1, k)
      ensures DrawDecides(B1, k, params, startSec, endSec, n, r.Success?)
    {
      n := 0;
      ghost var q;
      r, q := B1NegNoSuccess();
    }

    method BuildB1Spread(k: nat) returns (r: Outcome<()>, ghost n: int)
      requires Valid() && k == 5
      modifies this
      ensures r.Success? ==> Valid() && PlanOf(labels) == PlanOf(old(labels)) + Labelled(B1, k)
      ensures DrawDecides(B1, k, params, startSec, endSec, n, r.Success?)
    {
      n := 0;
      ghost var q;
      r, q := B1NegSpread();
    }

    method BuildB1Odd(k: nat) returns (r: Outcome<()>, ghost n: int)
      requires Valid() && 6 <= k < 8
      modifies this
      ensures r.Success? ==> Valid() && PlanOf(labels) == PlanOf(old(labels)) + Labelled(B1, k)
      ensures DrawDecides(B1, k, params, startSec, endSec, n, r.Success?)
    {
      if k == 6 { r, n := BuildB1Order(k); } else { r, n := BuildB1WrongAccount(k); }
    }

    method BuildB1Order(k: nat) returns (r: Outcome<()>, ghost n: int)
      requires Valid() && k == 6
      modifies this
      ensures r.Success? ==> Valid() && PlanOf(labels) == PlanOf(old(labels)) + Labelled(B1, k)
      ensures DrawDecides(B1, k, params, startSec, endSec, n, r.Success?)
    {
      n := 0;
      ghost var q;
      r, q := B1NegOrder();
    }

    method BuildB1WrongAccount(k: nat) returns (r: Outcome<()>, ghost n: int)
      requires Valid() && k == 7
      modifies this
      ensures r.Success? ==> Valid() && PlanOf(labels) == PlanOf(old(labels)) + Labelled(B1, k)
      ensures DrawDecides(B1, k, params, startSec, endSec, n, r.Success?)
    {
      n := 0;
      ghost var q;
      r, q := B1NegWrongAccount();
    }

    method BuildB2(k: nat) returns (r: Outcome<()>, ghost n: int)
      requires Valid() && k < 7
      modifies this
      ensures r.Success? ==> Valid() && PlanOf(labels) == PlanOf(old(labels)) + Labelled(B2, k)
      ensures DrawDecides(B2, k, params, startSec, endSec, n, r.Success?)
    {
      if k < 3 { r, n := BuildB2Edges(k); } else if k < 5 { r, n := BuildB2Few(k); } else { r, n := BuildB2Quiet(k); }
    }

    method BuildB2Edges(k: nat) returns (r: Outcome<()>, ghost n: int)
      requires Valid() && k < 3
      modifies this
      ensures r.Success? ==> Valid() && PlanOf(labels) == PlanOf(old(labels)) + Labelled(B2, k)
      ensures DrawDecides(B2, k, params, startSec, endSec, n, r.Success?)
    {
      if k == 0 { ghost var q; r, n, q := B2PosTypical(); } else { r, n := BuildB2Boundary(k); }
    }

    method BuildB2Boundary(k: nat) returns (r: Outcome<()>, ghost n: int)
      requires Valid() && 1 <= k < 3
      modifies this
      ensures r.Success? ==> Valid() && PlanOf(labels) == PlanOf(old(labels)) + Labelled(B2, k)
      ensures DrawDecides(B2, k, params, startSec, endSec, n, r.Success?)
    {
      if k == 1 { r, n := BuildB2OnEdge(k); } else { r, n := BuildB2PastEdge(k); }
    }

    method BuildB2OnEdge(k: nat) returns (r: Outcome<()>, ghost n: int)
      requires Valid() && k == 1
      modifies this
      ensures r.Success? ==> Valid() && PlanOf(labels) == PlanOf(old(labels)) + Labelled(B2, k)
      ensures DrawDecides(B2, k, params, startSec, endSec, n, r.Success?)
    {
      n := 0;
      ghost var q;
      r, q := B2PosBoundary();
    }

    method BuildB2PastEdge(k: nat) returns (r: Outcome<()>, ghost n: int)
      requires Valid() && k == 2
      modifies this
      ensures r.Success? ==> Valid() && PlanOf(labels) == PlanOf(old(labels)) + Labelled(B2, k)
      ensures DrawDecides(B2, k, params, startSec, endSec, n, r.Success?)
    {
      n := 0;
      ghost var q;
      r, q := B2NegBoundary();
    }

    method BuildB2Few(k: nat) returns (r: Outcome<()>, ghost n: int)
      requires Valid() && 3 <= k < 5
      modifies this
      ensures r.Success? ==> Valid() && PlanOf(labels) == PlanOf(old(labels)) + Labelled(B2, k)
      ensures DrawDecides(B2, k, params, startSec, endSec, n, r.Success?)
    {
      if k == 3 { r, n := BuildB2Threshold(k); } else { r, n := BuildB2SingleAccount(k); }
    }

    method BuildB2Threshold(k: nat) returns (r: Outcome<()>, ghost n: int)
      requires Valid() && k == 3
      modifies this
      ensures r.Success? ==> Valid() && PlanOf(labels) == PlanOf(old(labels)) + Labelled(B2, k)
      ensures DrawDecides(B2, k, params, startSec, endSec, n, r.Success?)
    {
      n := 0;
      ghost var q;
      r, q := B2NegThreshold();
    }

    method BuildB2SingleAccount(k: nat) returns (r: Outcome<()>, ghost n: int)
      requires Valid() && k == 4
      modifies this
      ensures r.Success? ==> Valid() && PlanOf(labels) == PlanOf(old(labels)) + Labelled(B2, k)
      ensures DrawDecides(B2, k, params, startSec, endSec, n, r.Success?)
    {
      n := 0;
      ghost var q;
      r, q := B2NegSingleAccount();
    }

    method BuildB2Quiet(k: nat) returns (r: Outcome<()>, ghost n: int)
      requires Valid() && 5 <= k < 7
      modifies this
      ensures r.Success? ==> Valid() && PlanOf(labels) == PlanOf(old(labels)) + Labelled(B2, k)
      ensures DrawDecides(B2, k, params, startSec, endSec, n, r.Success?)
    {
      if k == 5 { r, n := BuildB2Successes(k); } else { r, n := BuildB2Slow(k); }
    }

    method BuildB2Successes(k: nat) returns (r: Outcome<()>, ghost n: int)
      requires Valid() && k == 5
      modifies this
      ensures r.Success? ==> Valid() && PlanOf(labels) == PlanOf(old(labels)) + Labelled(B2, k)
      ensures DrawDecides(B2, k, params, startSec, endSec, n, r.Success?)
    {
      n := 0;
      ghost var q;
      r, q := B2NegSuccessEvents();
    }

    method BuildB2Slow(k: nat) returns (r: Outcome<()>, ghost n: int)
      requires Valid() && k == 6
      modifies this
      ensures r.Success? ==> Valid() && PlanOf(labels) == PlanOf(old(labels)) + Labelled(B2, k)
      ensures DrawDecides(B2, k, params, startSec, endSec, n, r.Success?)
    {
      n := 0;
      ghost var q;
      r, q := B2NegSlow();
    }

    method BuildB3(k: nat) returns (r: Outcome<()>, ghost n: int)
      requires Valid() && k < 6
      modifies this
      ensures r.Success? ==> Valid() && PlanOf(labels) == PlanOf(old(labels)) + Labelled(B3, k)
      ensures DrawDecides(B3, k, params, startSec, endSec, n, r.Success?)
    {
      if k < 3 { r, n := BuildB3Edges(k); } else { r, n := BuildB3Hard(k); }
    }

    method BuildB3Edges(k: nat) returns (r: Outcome<()>, ghost n: int)
      requires Valid() && k < 3
      modifies this
      ensures r.Success? ==> Valid() && PlanOf(labels) == PlanOf(old(labels)) + Labelled(B3, k)
      ensures DrawDecides(B3, k, params, startSec, endSec, n, r.Success?)
    {
      n := 0;
      if k == 0 { r, n := B3PosTypical(); } else if k == 1 { r := B3PosBoundary(); } else { r := B3NegBoundary(); }
    }

    method BuildB3Hard(k: nat) returns (r: Outcome<()>, ghost n: int)
      requires Valid() && 3 <= k < 6
      modifies this
      ensures r.Success? ==> Valid() && PlanOf(labels) == PlanOf(old(labels)) + Labelled(B3, k)
      ensures DrawDecides(B3, k, params, startSec, endSec, n, r.Success?)
    {
      if k == 3 { r, n := BuildB3SameHost(k); } else if k == 4 { r, n := BuildB3Failure(k); } else { r, n := BuildB3Far(k); }
    }

    method BuildB3Failure(k: nat) returns (r: Outcome<()>, ghost n: int)
      requires Valid() && k == 4
      modifies this
      ensures r.Success? ==> Valid() && PlanOf(labels) == PlanOf(old(labels)) + Labelled(B3, k)
      ensures DrawDecides(B3, k, params, startSec, endSec, n, r.Success?)
    {
      r, n := B3NegFailure();
    }

    method BuildB3Far(k: nat) returns (r: Outcome<()>, ghost n: int)
      requires Valid() && k == 5
      modifies this
      ensures r.Success? ==> Valid() && PlanOf(labels) == PlanOf(old(labels)) + Labelled(B3, k)
      ensures DrawDecides(B3, k, params, startSec, endSec, n, r.Success?)
    {
      r, n := B3NegFarHosts();
    }

    method BuildB3SameHost(k: nat) returns (r: Outcome<()>, ghost n: int)
      requires Valid() && k == 3
      modifies this
      ensures r.Success? ==> Valid() && PlanOf(labels) == PlanOf(old(labels)) + Labelled(B3, k)
      ensures DrawDecides(B3, k, params, startSec, endSec, n, r.Success?)
    {
      r, n := B3NegSameHost();
    }

    method BuildB4(k: nat) returns (r: Outcome<()>, ghost n: int)
      requires Valid() && k < 4
      modifies this
      ensures r.Success? ==> Valid() && PlanOf(labels) == PlanOf(old(labels)) + Labelled(B4, k)
      ensures DrawDecides(B4, k, params, startSec, endSec, n, r.Success?)
    {
      n := 0;
      if k == 0 { r := B4Pos(); } else if k == 1 { r := B4NegCompliant(); } else if k == 2 { r := B4NegFailure(); } else { r := PolicyMissing(); }
    }

    method BuildB5(k: nat) returns (r: Outcome<()>, ghost n: int)
      requires Valid() && k < 5
      modifies this
      ensures r.Success? ==> Valid() && PlanOf(labels) == PlanOf(old(labels)) + Labelled(B5, k)
      ensures DrawDecides(B5, k, params, startSec, endSec, n, r.Success?)
    {
      n := 0;
      if k < 3 { r, n := BuildB5Success(k); } else if k == 3 { r := B5NegFailure(); } else { r := PolicyMissing(); }
    }

    method BuildB5Success(k: nat) returns (r: Outcome<()>, ghost n: int)
      requires Valid() && k < 3
      modifies this
      ensures r.Success? ==> Valid() && PlanOf(labels) == PlanOf(old(labels)) + Labelled(B5, k)
      ensures DrawDecides(B5, k, params, startSec, endSec, n, r.Success?)
    {
      n := 0;
      if k == 0 { r := B5Pos(); } else if k == 1 { r := B5NegCompliant(); } else { r := B5NegNotRequired(); }
    }

    /** `perBehaviour` incidents of behaviour `b`, cycling through its builders; `draws` are the numbers they draw. */
    method InjectOne(b: Behaviour, perBehaviour: nat) returns (r: Outcome<()>, ghost draws: seq<int>)
      requires Valid()
      modifies this
      ensures r.Success? ==> Valid() && PlanOf(labels) == PlanOf(old(labels)) + Cycle(b, perBehaviour)
      ensures Turns(b, perBehaviour, params, startSec, endSec, draws, r.Success?)
    {
      AppendNothing(PlanOf(labels));
      draws := [];
      for i := 0 to perBehaviour
        invariant Valid() && PlanOf(labels) == PlanOf(old(labels)) + Cycle(b, i)
        invariant Turns(b, i, params, startSec, endSec, draws, true)
      {
        ghost var n;
        r, n := Build(b, i % ListSize(b));
        TurnTaken(b, i, perBehaviour, params, startSec, endSec, draws, n, r.Success?);
        draws := draws + [n];
        if r.ValueError? { return; }
        CycleNext(PlanOf(old(labels)), b, i);
      }
      return Success(()), draws;
    }

    /** The outer loop of `inject`. */
    method InjectAll(behaviours: seq<Behaviour>, perBehaviour: nat) returns (r: Outcome<()>, ghost draws: seq<seq<int>>)
      requires Valid()
      modifies this
      ensures r.Success? ==> Valid() && PlanOf(labels) == PlanOf(old(labels)) + InjectPlan(behaviours, perBehaviour)
      ensures Rounds(behaviours, perBehaviour, params, startSec, endSec, draws, r.Success?)
    {
      AppendNothing(PlanOf(labels));
      draws := [];
      for i := 0 to |behaviours|
        invariant Valid() && PlanOf(labels) == PlanOf(old(labels)) + InjectPlan(behaviours[..i], perBehaviour)
        invariant Rounds(behaviours[..i], perBehaviour, params, startSec, endSec, draws, true)
      {
        ghost var more;
        r, more := InjectOne(behaviours[i], perBehaviour);
        RoundTaken(behaviours, i, perBehaviour, params, startSec, endSec, draws, more, r.Success?);
        draws := draws + [more];
        if r.ValueError? { return; }
        InjectPlanNext(PlanOf(old(labels)), behaviours, i, perBehaviour);
      }
      assert behaviours[..|behaviours|] == behaviours;
      return Success(()), draws;
    }

    /** `inject`: on success the labels are exact about the whole log, and their kinds follow the plan; what the builders draw decides,
        draw by draw, whether and where it raises. */
    method Inject(perBehaviour: nat) returns (r: Outcome<()>, ghost draws: seq<seq<int>>)
      requires Valid()
      modifies this
      ensures r.Success? ==> Valid() && PlanOf(labels) == PlanOf(old(labels)) + InjectPlan(BEHAVIOURS, perBehaviour)
      ensures Rounds(BEHAVIOURS, perBehaviour, params, startSec, endSec, draws, r.Success?)
    {
      r, draws := InjectAll(BEHAVIOURS, perBehaviour);
    }
  }

  // ------------------------------------------------------------------ the plan

  const BEHAVIOURS: seq<Behaviour> := [B1, B2, B3, B4, B5]

  const MISSING: seq<Entry> := [Entry(B4, MissingContext, Insufficient), Entry(B5, MissingContext, Insufficient)]

  /** How many builders a behaviour's list holds. */
  function ListSize(b: Behaviour): (n: nat)
    ensures 0 < n <= 8
  {
    match b
    case B1 => 8
    case B2 => 7
    case B3 => 6
    case B4 => 4
    case B5 => 5
  }

  /** What builder `k` of a behaviour's list labels. */
  function Labelled(b: Behaviour, k: nat): seq<Entry>
    requires k < ListSize(b)
  {
    if k == 0 then [Entry(b, Positive, Alerting)]
    else if b == B4 || b == B5 then (if k == ListSize(b) - 1 then MISSING else [Entry(b, HardNegative, NoAlert)])
    else if k == 1 then [Entry(b, BoundaryPositive, Alerting)]
    else if k == 2 then [Entry(b, BoundaryNegative, NoAlert)]
    else [Entry(b, HardNegative, NoAlert)]
  }

  /** What the first `n` builders of the endlessly repeated list label. */
  function Cycle(b: Behaviour, n: nat): seq<Entry> {
    if n == 0 then [] else Cycle(b, n - 1) + Labelled(b, (n - 1) % ListSize(b))
  }

  function InjectPlan(behaviours: seq<Behaviour>, per: nat): seq<Entry> {
    if behaviours == [] then []
    else InjectPlan(behaviours[..|behaviours| - 1], per) + Cycle(behaviours[|behaviours| - 1], per)
  }

  lemma {:induction false} AppendNothing(plan: seq<Entry>)
    ensures plan + [] == plan
  {}

  lemma {:induction false} CycleNext(before: seq<Entry>, b: Behaviour, i: nat)
    ensures before + Cycle(b, i) + Labelled(b, i % ListSize(b)) == before + Cycle(b, i + 1)
  {
    assert Cycle(b, i + 1) == Cycle(b, i) + Labelled(b, i % ListSize(b));
  }

  lemma {:induction false} InjectPlanNext(before: seq<Entry>, behaviours: seq<Behaviour>, i: nat, per: nat)
    requires i < |behaviours|
    ensures before + InjectPlan(behaviours[..i], per) + Cycle(behaviours[i], per) == before + InjectPlan(behaviours[..i + 1], per)
  {
    assert behaviours[..i + 1][..i] == behaviours[..i];
  }

  predicate RoomIn(startSec: int, endSec: int, span: int) { startSec + 3600 < endSec - 3600 - span }

  /** The room the slow spray takes. */
  function SlowSpan(p: Params): int { (p.w2 / 2 + 1) * p.t2 + 60 }

  /** The least number that builder `k` can draw for the size of its incident: failures, accounts with repeats, or seconds between
      sessions; 0 if it draws none. */
  function Least(b: Behaviour, k: nat, p: Params): int {
    match b
    case B1 => if k == 0 then p.t1 else 0
    case B2 => if k == 0 then p.t2 else 0
    case B3 => if k == 0 || k == 4 then 1 else if k == 3 then 60 else if k == 5 then p.w3 + 1 else 0
    case _ => 0
  }

  /** The greatest such number. */
  function Most(b: Behaviour, k: nat, p: Params): int {
    match b
    case B1 => if k == 0 then p.t1 + 4 else 0
    case B2 => if k == 0 then 2 * (p.t2 + 4) else 0
    case B3 => if k == 0 || k == 3 || k == 4 then p.w3 else if k == 5 then p.w3 + 301 else 0
    case _ => 0
  }

  predicate SucceedsB1(k: nat, p: Params, startSec: int, endSec: int, n: int) {
    if k == 5 then RoomIn(startSec, endSec, p.w1 + 900) && p.w1 >= p.t1 - 2 && p.t1 + 3 <= 600
    else
      && RoomIn(startSec, endSec, p.w1 + 60)
      && (if k == 0 then n <= p.w1 else if k == 1 || k == 4 then p.t1 <= p.w1 else if k < 4 then p.t1 - 1 <= p.w1 else p.t1 + 1 <= p.w1)
  }

  predicate SucceedsB2(k: nat, p: Params, startSec: int, endSec: int, n: int) {
    if k == 6 then RoomIn(startSec, endSec, SlowSpan(p))
    else
      && RoomIn(startSec, endSec, p.w2 + 60)
      && (if k == 0 then n <= p.w2 + 1 else if k == 1 then p.t2 - 1 <= p.w2 else if k == 2 then p.t2 - 2 <= p.w2
          else if k == 3 then 2 * p.t2 <= p.w2 + 1 else if k == 4 then 11 <= p.w2 else p.t2 + 1 <= p.w2)
  }

  predicate SucceedsB3(k: nat, p: Params, startSec: int, endSec: int, n: int) {
    RoomIn(startSec, endSec, if k == 1 then p.w3 + 60 else if k == 2 then p.w3 + 61 else if k == 5 then 2 * n + 60 else n + 60)
  }

  /** Builder `k` with the draw `n` raises no ValueError. */
  predicate Succeeds(b: Behaviour, k: nat, p: Params, startSec: int, endSec: int, n: int) {
    match b
    case B1 => SucceedsB1(k, p, startSec, endSec, n)
    case B2 => SucceedsB2(k, p, startSec, endSec, n)
    case B3 => SucceedsB3(k, p, startSec, endSec, n)
    case _ => RoomIn(startSec, endSec, 60)
  }

  /** There is something to draw, and the greatest draw succeeds. */
  predicate Certain(b: Behaviour, k: nat, p: Params, startSec: int, endSec: int) {
    Least(b, k, p) <= Most(b, k, p) && Succeeds(b, k, p, startSec, endSec, Most(b, k, p))
  }

  /** There is something to draw, and the least draw succeeds. */
  predicate Possible(b: Behaviour, k: nat, p: Params, startSec: int, endSec: int) {
    Least(b, k, p) <= Most(b, k, p) && Succeeds(b, k, p, startSec, endSec, Least(b, k, p))
  }

  lemma {:induction false} Antitone(b: Behaviour, k: nat, p: Params, startSec: int, endSec: int, m: int, n: int)
    requires m <= n && Succeeds(b, k, p, startSec, endSec, n)
    ensures Succeeds(b, k, p, startSec, endSec, m)
  {}

  /** The greater the draw, the more room the incident needs: a builder succeeds whatever it draws exactly if it is certain to, and with
      some draw exactly if it is possible. */
  lemma {:induction false} DrawsDecide(b: Behaviour, k: nat, p: Params, startSec: int, endSec: int)
    requires Least(b, k, p) <= Most(b, k, p)
    ensures Certain(b, k, p, startSec, endSec) <==>
              forall n | Least(b, k, p) <= n <= Most(b, k, p) :: Succeeds(b, k, p, startSec, endSec, n)
    ensures Possible(b, k, p, startSec, endSec) <==>
              exists n :: Least(b, k, p) <= n <= Most(b, k, p) && Succeeds(b, k, p, startSec, endSec, n)
  {
    forall n | Least(b, k, p) <= n <= Most(b, k, p) && Succeeds(b, k, p, startSec, endSec, Most(b, k, p))
      ensures Succeeds(b, k, p, startSec, endSec, n)
    {
      Antitone(b, k, p, startSec, endSec, n, Most(b, k, p));
    }
    forall n | Least(b, k, p) <= n <= Most(b, k, p) && Succeeds(b, k, p, startSec, endSec, n)
      ensures Succeeds(b, k, p, startSec, endSec, Least(b, k, p))
    {
      Antitone(b, k, p, startSec, endSec, Least(b, k, p), n);
    }
  }

  /** Of the first `per` turns through a behaviour's list, none can raise. */
  predicate AllCertain(b: Behaviour, per: nat, p: Params, startSec: int, endSec: int) {
    forall k | 0 <= k < per && k < ListSize(b) :: Certain(b, k, p, startSec, endSec)
  }

  /** Each of them has a draw with which it does not raise. */
  predicate AllPossible(b: Behaviour, per: nat, p: Params, startSec: int, endSec: int) {
    forall k | 0 <= k < per && k < ListSize(b) :: Possible(b, k, p, startSec, endSec)
  }

  predicate NoDrawRaises(p: Params, startSec: int, endSec: int, per: nat) {
    && AllCertain(B1, per, p, startSec, endSec) && AllCertain(B2, per, p, startSec, endSec) && AllCertain(B3, per, p, startSec, endSec)
    && AllCertain(B4, per, p, startSec, endSec) && AllCertain(B5, per, p, startSec, endSec)
  }

  predicate SomeDrawWorks(p: Params, startSec: int, endSec: int, per: nat) {
    && AllPossible(B1, per, p, startSec, endSec) && AllPossible(B2, per, p, startSec, endSec) && AllPossible(B3, per, p, startSec, endSec)
    && AllPossible(B4, per, p, startSec, endSec) && AllPossible(B5, per, p, startSec, endSec)
  }

  /** The draw `n` is in the builder's range and decides whether it succeeds; without a range it raises. */
  predicate DrawDecides(b: Behaviour, k: nat, p: Params, startSec: int, endSec: int, n: int, success: bool) {
    if Least(b, k, p) > Most(b, k, p) then !success
    else Least(b, k, p) <= n <= Most(b, k, p) && (success <==> Succeeds(b, k, p, startSec, endSec, n))
  }

  /** The builders of `b`'s list take `per` turns with these draws, or raise at the last of them. */
  predicate Turns(b: Behaviour, per: nat, p: Params, startSec: int, endSec: int, draws: seq<int>, success: bool) {
    && |draws| <= per && (if success then |draws| == per else draws != [])
    && forall i | 0 <= i < |draws| :: DrawDecides(b, i % ListSize(b), p, startSec, endSec, draws[i], i < |draws| - 1 || success)
  }

  lemma {:induction false} TurnTaken(b: Behaviour, i: nat, per: nat, p: Params, startSec: int, endSec: int, draws: seq<int>, n: int, success: bool)
    requires i < per && Turns(b, i, p, startSec, endSec, draws, true) && DrawDecides(b, i % ListSize(b), p, startSec, endSec, n, success)
    ensures if success then Turns(b, i + 1, p, startSec, endSec, draws + [n], true) else Turns(b, per, p, startSec, endSec, draws + [n], false)
  {
    var after := draws + [n];
    forall j | 0 <= j < |after| ensures DrawDecides(b, j % ListSize(b), p, startSec, endSec, after[j], j < |after| - 1 || success) {
      if j < |draws| { assert after[j] == draws[j]; }
    }
  }

  /** One round for each behaviour, or the raising one is the last. */
  predicate Rounds(behaviours: seq<Behaviour>, per: nat, p: Params, startSec: int, endSec: int, draws: seq<seq<int>>, success: bool) {
    && |draws| <= |behaviours| && (if success then |draws| == |behaviours| else draws != [])
    && forall j | 0 <= j < |draws| :: Turns(behaviours[j], per, p, startSec, endSec, draws[j], j < |draws| - 1 || success)
  }

  lemma {:induction false} RoundTaken(behaviours: seq<Behaviour>, i: nat, per: nat, p: Params, startSec: int, endSec: int,
                                      draws: seq<seq<int>>, more: seq<int>, success: bool)
    requires i < |behaviours| && Rounds(behaviours[..i], per, p, startSec, endSec, draws, true)
    requires Turns(behaviours[i], per, p, startSec, endSec, more, success)
    ensures if success then Rounds(behaviours[..i + 1], per, p, startSec, endSec, draws + [more], true)
            else Rounds(behaviours, per, p, startSec, endSec, draws + [more], false)
  {
    var after := draws + [more];
    forall j | 0 <= j < |after| ensures Turns(behaviours[j], per, p, startSec, endSec, after[j], j < |after| - 1 || success) {
      if j < |draws| { assert behaviours[..i][j] == behaviours[j] && after[j] == draws[j]; }
    }
  }

  lemma {:induction false} TurnsDecided(b: Behaviour, per: nat, p: Params, startSec: int, endSec: int, draws: seq<int>, success: bool)
    requires Turns(b, per, p, startSec, endSec, draws, success)
    ensures AllCertain(b, per, p, startSec, endSec) ==> success
    ensures success ==> AllPossible(b, per, p, startSec, endSec)
  {
    if !success {
      var i := |draws| - 1;
      assert i % ListSize(b) <= i;
      var k := i % ListSize(b);
      if Certain(b, k, p, startSec, endSec) { Antitone(b, k, p, startSec, endSec, draws[i], Most(b, k, p)); }
    } else {
      forall k | 0 <= k < per && k < ListSize(b) ensures Possible(b, k, p, startSec, endSec) {
        assert k % ListSize(b) == k;
        assert DrawDecides(b, k % ListSize(b), p, startSec, endSec, draws[k], true);
        Antitone(b, k, p, startSec, endSec, Least(b, k, p), draws[k]);
      }
    }
  }

  /** If no draw raises the run succeeds, and a run that succeeds shows that every builder in use has a draw that does not raise. */
  lemma {:induction false} RoundsDecided(per: nat, p: Params, startSec: int, endSec: int, draws: seq<seq<int>>, success: bool)
    requires Rounds(BEHAVIOURS, per, p, startSec, endSec, draws, success)
    ensures NoDrawRaises(p, startSec, endSec, per) ==> success
    ensures success ==> SomeDrawWorks(p, startSec, endSec, per)
  {
    assert BEHAVIOURS[0] == B1 && BEHAVIOURS[1] == B2 && BEHAVIOURS[2] == B3 && BEHAVIOURS[3] == B4 && BEHAVIOURS[4] == B5;
    forall j | 0 <= j < |draws|
      ensures AllCertain(BEHAVIOURS[j], per, p, startSec, endSec) ==> j < |draws| - 1 || success
      ensures (j < |draws| - 1 || success) ==> AllPossible(BEHAVIOURS[j], per, p, startSec, endSec)
    {
      TurnsDecided(BEHAVIOURS[j], per, p, startSec, endSec, draws[j], j < |draws| - 1 || success);
    }
  }

  /** The data range and the windows leave every builder room for its choices. */
  predicate Feasible(p: Params, startSec: int, endSec: int) {
    && p.w1 >= p.t1 + 4 && p.t1 <= 597 && RoomIn(startSec, endSec, p.w1 + 900)
    && 2 * (p.t2 + 4) <= p.w2 + 1 && RoomIn(startSec, endSec, p.w2 + 60) && RoomIn(startSec, endSec, SlowSpan(p))
    && p.w3 >= 60 && RoomIn(startSec, endSec, 2 * (p.w3 + 301) + 60)
  }

  lemma {:induction false} FeasibleB1(p: Params, startSec: int, endSec: int)
    requires Accepted(p)
    ensures AllCertain(B1, 8, p, startSec, endSec) <==>
              p.w1 >= p.t1 + 4 && p.t1 <= 597 && RoomIn(startSec, endSec, p.w1 + 900)
  {
    if AllCertain(B1, 8, p, startSec, endSec) {
      assert Certain(B1, 0, p, startSec, endSec) && Certain(B1, 5, p, startSec, endSec);
    }
  }

  lemma {:induction false} FeasibleB2(p: Params, startSec: int, endSec: int)
    requires Accepted(p)
    ensures AllCertain(B2, 8, p, startSec, endSec) <==>
              2 * (p.t2 + 4) <= p.w2 + 1 && RoomIn(startSec, endSec, p.w2 + 60) && RoomIn(startSec, endSec, SlowSpan(p))
  {
    if AllCertain(B2, 8, p, startSec, endSec) {
      assert Certain(B2, 0, p, startSec, endSec) && Certain(B2, 6, p, startSec, endSec);
    }
  }

  lemma {:induction false} FeasibleB3(p: Params, startSec: int, endSec: int)
    requires Accepted(p)
    ensures AllCertain(B3, 8, p, startSec, endSec) <==> p.w3 >= 60 && RoomIn(startSec, endSec, 2 * (p.w3 + 301) + 60)
  {
    if AllCertain(B3, 8, p, startSec, endSec) {
      assert Certain(B3, 3, p, startSec, endSec) && Certain(B3, 5, p, startSec, endSec);
    }
  }

  lemma {:induction false} SomeTurnRaises(b: Behaviour, per: nat, p: Params, startSec: int, endSec: int)
    requires !AllCertain(b, per, p, startSec, endSec)
    ensures exists k: nat, n :: k < ListSize(b) && DrawDecides(b, k, p, startSec, endSec, n, false)
  {
    var k: nat :| k < per && k < ListSize(b) && !Certain(b, k, p, startSec, endSec);
    assert DrawDecides(b, k, p, startSec, endSec, Most(b, k, p), false);
  }

  /** With every builder in use, no draw raises exactly for the feasible parameters: otherwise some builder has a draw with which it
      must raise, or none to draw. */
  lemma {:induction false} FeasibleIff(p: Params, startSec: int, endSec: int, per: nat)
    requires Accepted(p)
    ensures Feasible(p, startSec, endSec) ==> NoDrawRaises(p, startSec, endSec, per)
    ensures per >= 8 ==> (NoDrawRaises(p, startSec, endSec, per) <==> Feasible(p, startSec, endSec))
    ensures per >= 8 && !Feasible(p, startSec, endSec) ==>
              exists b: Behaviour, k: nat, n :: k < ListSize(b) && DrawDecides(b, k, p, startSec, endSec, n, false)
  {
    FeasibleB1(p, startSec, endSec);
    FeasibleB2(p, startSec, endSec);
    FeasibleB3(p, startSec, endSec);
    forall b: Behaviour ensures AllCertain(b, 8, p, startSec, endSec) ==> AllCertain(b, per, p, startSec, endSec) {}
    if !NoDrawRaises(p, startSec, endSec, per) {
      var b: Behaviour :| !AllCertain(b, per, p, startSec, endSec);
      SomeTurnRaises(b, per, p, startSec, endSec);
    }
  }

  // ------------------------------------------------------------------ failure seconds against the window

  lemma {:induction false} AllInWindow(fails: seq<int>, low: int, high: int, n: int, lo: int, hi: int)
    requires Drawn(fails, low, high, n) && lo <= low && high <= hi
    ensures SecsWithin(fails, lo, hi) == n
  {
    SecsAllWithin(fails, lo, hi);
  }

  /** The oldest failure exactly on the window's edge still counts. */
  lemma {:induction false} OldestOnEdge(rest: seq<int>, lo: int, hi: int, n: int)
    requires Drawn(rest, lo + 1, hi - 1, n) && lo <= hi
    ensures SecsWithin([lo] + rest, lo, hi) == n + 1
  {
    SecsAllWithin([lo], lo, hi);
    SecsAllWithin(rest, lo, hi);
    SecsSplit([lo], rest, lo, hi);
  }

  /** One second further out it does not. */
  lemma {:induction false} OldestOutside(rest: seq<int>, lo: int, hi: int, n: int)
    requires Drawn(rest, lo, hi - 1, n)
    ensures SecsWithin([lo - 1] + rest, lo, hi) == n
  {
    SecsNoneWithin([lo - 1], lo, hi);
    SecsAllWithin(rest, lo, hi);
    SecsSplit([lo - 1], rest, lo, hi);
  }

  lemma {:induction false} SpreadOut(earlier: seq<int>, m: int, inWindow: seq<int>, n: int, lo: int, hi: int)
    requires Drawn(earlier, lo - 600, lo - 1, m) && Drawn(inWindow, lo, hi - 1, n)
    ensures SecsWithin(earlier + inWindow, lo, hi) == n
  {
    SecsNoneWithin(earlier, lo, hi);
    SecsAllWithin(inWindow, lo, hi);
    SecsSplit(earlier, inWindow, lo, hi);
  }

  lemma {:induction false} Flanked(base: int, inner: seq<int>, last: int, n: int)
    requires Drawn(inner, base + 1, last - 1, n) && base < last
    ensures var secs := [base] + inner + [last];
            |secs| == n + 2 && Ascending(secs) && secs[0] == base && secs[|secs| - 1] == last
  {}

  // ------------------------------------------------------------------ choices

  const AUTH_METHODS: seq<string> := ["password", "token", "certificate"]

  /** `_other_method`. */
  method OtherMethod(expected: string) returns (m: string)
    ensures m in AUTH_METHODS && m != expected
  {
    assert "password" in AUTH_METHODS && "token" in AUTH_METHODS;
    assert "password" != "token" by { assert "password"[0] != "token"[0]; }
    assert exists x :: x in AUTH_METHODS && x != expected by {
      if expected == "password" { assert "token" != expected; } else { assert "password" != expected; }
    }
    m :| m in AUTH_METHODS && m != expected;
  }

  /** `[rng.choice(accounts) for _ in range(n)]`. */
  method Choices(accounts: seq<string>, n: nat) returns (r: seq<string>)
    requires accounts != []
    ensures |r| == n && forall x | x in r :: x in accounts
  {
    r := [];
    for i := 0 to n
      invariant |r| == i && forall x | x in r :: x in accounts
    {
      var c := Choice(accounts);
      r := r + [c.value];
    }
  }

  /** Failures of fewer accounts than the threshold, however repeated and shuffled. */
  lemma {:induction false} RepeatedAccounts(p: Params, secs: seq<int>, all: seq<string>, extra: seq<string>, assignment: seq<string>, h: string)
    requires Accepted(p) && NoRepeats(all) && |all| < p.t2 && |secs| == 2 * |all| + |extra|
    requires multiset(assignment) == multiset(all + all + extra) && forall x | x in extra :: x in all
    ensures |assignment| == |secs| && |Members(assignment)| == |all|
    ensures SoundBurst(p, secs, assignment, LoginFailure, h, all, B2, HardNegative, false, [h], 0)
  {
    assert all + all + extra == all + (all + extra);
    AssignmentCovers(all, all + extra, assignment);
    NoRepeatsSize(all);
    FewAccountsBurst(p, secs, assignment, h, all, B2, HardNegative, [h]);
  }

  lemma {:induction false} DrawnInWindow(secs: seq<int>, base: int, w: int, n: int)
    requires Drawn(secs, base, base + w, n)
    ensures InOneWindow(secs, w)
  {}

  lemma {:induction false} AssignmentCovers(all: seq<string>, extra: seq<string>, assignment: seq<string>)
    requires multiset(assignment) == multiset(all + extra)
    requires forall x | x in extra :: x in all
    ensures |assignment| == |all| + |extra|
    ensures (forall x | x in assignment :: x in all) && Members(assignment) == Members(all)
  {
    SameMembers(assignment, all + extra);
  }

  /** `_first_breach`: where the running number of distinct accounts first reaches the threshold. */
  method FirstBreach(accounts: seq<string>, threshold: int) returns (r: Option<nat>)
    requires threshold >= 1
    ensures r.Some? <==> |Members(accounts)| >= threshold
    ensures r.Some? ==> ReachesAt(accounts, threshold, r.value)
  {
    var seen: set<string> := {};
    for i := 0 to |accounts|
      invariant seen == FirstAccounts(accounts, i) && |seen| < threshold
    {
      FirstAccountsNext(accounts, i);
      seen := seen + {accounts[i]};
      if |seen| >= threshold {
        FirstAccountsGrow(accounts, i + 1, |accounts|);
        assert accounts[..|accounts|] == accounts;
        return Some(i);
      }
    }
    assert accounts[..|accounts|] == accounts;
    return None;
  }

  lemma {:induction false} FirstAccountsNext(accounts: seq<string>, i: nat)
    requires i < |accounts|
    ensures FirstAccounts(accounts, i + 1) == FirstAccounts(accounts, i) + {accounts[i]}
  {
    assert accounts[..i + 1] == accounts[..i] + [accounts[i]];
  }

  /** With every account among the events, the threshold is reached. */
  lemma {:induction false} ReachedInTime(assignment: seq<string>, all: seq<string>, t: int, first: Option<nat>)
    requires NoRepeats(all) && Members(assignment) == Members(all) && |all| >= t
    requires first.Some? <==> |Members(assignment)| >= t
    ensures first.Some?
  {
    NoRepeatsSize(all);
  }

  /** With distinct accounts the last of `n` brings the count to `n`. */
  lemma {:induction false} DistinctReachesLast(all: seq<string>)
    requires NoRepeats(all) && all != []
    ensures ReachesAt(all, |all|, |all| - 1)
  {
    assert all[..|all|] == all;
    NoRepeatsSize(all);
    MembersAtMost(all[..|all| - 1]);
  }

  /** The threshold's last account arrives exactly one window after the first. */
  lemma {:induction false} BoundarySpray(p: Params, secs: seq<int>, all: seq<string>, h: string)
    requires Accepted(p) && |secs| == |all| == p.t2 && NoRepeats(all) && Ascending(secs) && secs[p.t2 - 1] - secs[0] == p.w2
    ensures SoundBurst(p, secs, all, LoginFailure, h, all, B2, BoundaryPositive, true, [h], p.t2 - 1)
  {
    var last: nat := |all| - 1;
    DistinctReachesLast(all);
    SprayBurst(p, secs, all, h, all, last, BoundaryPositive);
  }

  /** Times `gap` seconds apart. */
  function Every(base: int, gap: int, n: nat): (r: seq<int>)
    ensures |r| == n
  {
    seq(n, i => base + i * gap)
  }

  lemma {:induction false} EvenlySpaced(base: int, w: int, n: nat)
    ensures Spaced(Every(base, w / 2 + 1, n), w)
  {
    var gap := w / 2 + 1;
    var secs := Every(base, gap, n);
    forall a, b | 0 <= a < b < n ensures secs[b] - secs[a] >= (b - a) * gap {
      assert secs[b] - secs[a] == b * gap - a * gap;
    }
  }

  lemma {:induction false} TwoMembers(a: string, b: string)
    ensures Members([a, b]) == {a, b}
  {}

  lemma {:induction false} MembersSnoc<T>(s: seq<T>, x: T)
    ensures Members(s + [x]) == Members(s) + {x}
    ensures NoRepeats(s) && x !in s ==> NoRepeats(s + [x])
  {}

  lemma {:induction false} BurstNext(ids: seq<string>, secs: seq<int>, accounts: seq<string>, i: nat, t: EventType, host: string, id: string)
    requires |secs| == |accounts| && i < |secs| && |ids| == i
    ensures Burst(ids + [id], secs[..i + 1], accounts[..i + 1], t, host)
            == Burst(ids, secs[..i], accounts[..i], t, host) + [MakeEvent(id, secs[i], accounts[i], t, host, "password", false)]
    ensures Members(ids + [id]) == Members(ids) + {id}
  {
    assert secs[..i + 1] == secs[..i] + [secs[i]] && accounts[..i + 1] == accounts[..i] + [accounts[i]];
    BurstSnoc(ids, secs[..i], accounts[..i], t, host, id, secs[i], accounts[i]);
  }
}
