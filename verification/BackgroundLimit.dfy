/** How far the background's promise reaches: no choice can raise an alert exactly when the sequence rule's threshold
    exceeds the failures its window can reach. */
module BackgroundLimit {
  import opened Ordering
  import opened Detection
  import opened RefDetect
  import opened IncidentShapes
  import opened Slots
  import opened Background

  /** The most hostile day the generator allows one service account: every slot used, both failures as late and the login
      as early as they can be. */
  function Busy(slot: int): Login { Login(slot, 60, 0, [(54, 0), (54, 0)]) }

  function BusyLogins(n: nat): (r: seq<Login>)
    ensures |r| == n && forall i | 0 <= i < n :: r[i] == Busy(i)
  {
    if n == 0 then [] else BusyLogins(n - 1) + [Busy(n - 1)]
  }

  const BUSY: Profile := Profile(true, "password", false)

  function BusyDay(): seq<seq<Login>> { [BusyLogins(SLOTS_PER_DAY)] }

  function BusyDays(n: nat): (r: seq<seq<seq<Login>>>)
    ensures |r| == n && forall d | d in r :: d == BusyDay()
  {
    if n == 0 then [] else BusyDays(n - 1) + [BusyDay()]
  }

  lemma {:induction false} BusyIsValid(n: nat)
    ensures ValidDay([BUSY], BusyDay()) && ValidDays([BUSY], BusyDays(n))
  {
    var logins := BusyLogins(SLOTS_PER_DAY);
    forall l | l in logins ensures ValidLogin(BUSY, l) {
      var i :| 0 <= i < |logins| && logins[i] == l;
    }
  }

  lemma {:induction false} OneMoreFail(l: Login, fails: seq<(int, nat)>, f: (int, nat), at: int)
    requires at == l.slot * SLOT_SECONDS + f.0
    ensures Fails(FailsBefore(0, l, fails + [f]), 0, at, at) == Fails(FailsBefore(0, l, fails), 0, at, at) + 1
  {
    var before, d := FailsBefore(0, l, fails), FailDraft(0, l, f);
    assert (fails + [f])[..|fails|] == fails;
    assert (before + [d])[..|before|] == before;
  }

  lemma {:induction false} TwoFails(l: Login, at: int)
    requires l.fails == [(54, 0), (54, 0)] && at == l.slot * SLOT_SECONDS + 54
    ensures Fails(FailsBefore(0, l, l.fails), 0, at, at) == 2
  {
    OneMoreFail(l, [], (54, 0), at);
    OneMoreFail(l, [(54, 0)], (54, 0), at);
    assert [] + [(54, 0 as nat)] == [(54, 0)];
    assert [(54, 0 as nat)] + [(54, 0)] == l.fails;
  }

  lemma {:induction false} BusyFails(n: nat, slot: nat, at: int)
    requires slot < n && at == 300 * slot + 54
    ensures Fails(FailDrafts(0, BusyLogins(n)), 0, at, at) >= 2
  {
    var l := Busy(n - 1);
    var rest := BusyLogins(n - 1);
    assert BusyLogins(n)[..n - 1] == rest;
    FailsAppend(FailDrafts(0, rest), FailsBefore(0, l, l.fails), 0, at, at);
    if slot == n - 1 { TwoFails(l, at); } else { BusyFails(n - 1, slot, at); }
  }

  lemma {:induction false} BusyDayFails(drafts: seq<Draft>, slot: nat, at: int)
    requires multiset(drafts) == multiset(Parts(BusyDay(), 1)) && slot < SLOTS_PER_DAY && at == 300 * slot + 54
    ensures Fails(drafts, 0, at, at) >= 2
  {
    FailsPermuted(drafts, Parts(BusyDay(), 1), 0, at, at);
    PartsOf(BusyDay(), 1, 0, at, at);
    BusyFails(SLOTS_PER_DAY, slot, at);
  }

  function FailuresAt(events: seq<Event>, t: int): nat { Count(FailureObs(events), Str(AccountName(0)), t, t) }

  lemma {:induction false} BusyTable(drafts: seq<Draft>, epoch: int, counter: nat, slot: nat, at: int, t: int)
    requires multiset(drafts) == multiset(Parts(BusyDay(), 1)) && Indexes(drafts, 1)
    requires slot < SLOTS_PER_DAY && at == 300 * slot + 54 && t == epoch + at
    ensures FailuresAt(Assemble(drafts, [BUSY], epoch, counter), t) >= 2
  {
    BusyDayFails(drafts, slot, at);
    AssembledFailsAt(drafts, [BUSY], epoch, counter, 0, at, at, t, t);
  }

  lemma {:induction false} FailuresOfTwo(before: seq<Event>, day: seq<Event>, t: int)
    ensures FailuresAt(before + day, t) == FailuresAt(before, t) + FailuresAt(day, t)
  {
    FailureObsAppend(before, day);
    CountAppend(FailureObs(before), FailureObs(day), Str(AccountName(0)), t, t);
  }

  ghost predicate LoginAt(events: seq<Event>, t: int) {
    exists e :: e in events && e.etype == LoginSuccess && e.account == AccountName(0) && e.sec == t
  }

  function LateSecond(slot: int): int { 300 * slot + 54 }

  function EarlySecond(slot: int): int { 300 * slot + 60 }

  /** Two failures at second 54 of every slot. */
  ghost predicate BusyUntil(events: seq<Event>, slots: nat) {
    forall s: nat | s < slots :: FailuresAt(events, LateSecond(s)) >= 2
  }

  /** A login at second 60 of every slot. */
  ghost predicate LoginsUntil(events: seq<Event>, slots: nat) {
    forall s: nat | s < slots :: LoginAt(events, EarlySecond(s))
  }

  /** One more day of these drafts keeps the log busy. */
  lemma {:induction false} StillBusy(before: seq<Event>, drafts: seq<Draft>, n: nat, epoch: int, counter: nat)
    requires BusyUntil(before, n * SLOTS_PER_DAY) && epoch == n * DAY_SECONDS
    requires multiset(drafts) == multiset(Parts(BusyDay(), 1)) && Indexes(drafts, 1)
    ensures BusyUntil(before + Assemble(drafts, [BUSY], epoch, counter), (n + 1) * SLOTS_PER_DAY)
  {
    var table := Assemble(drafts, [BUSY], epoch, counter);
    forall s: nat | s < (n + 1) * SLOTS_PER_DAY ensures FailuresAt(before + table, LateSecond(s)) >= 2 {
      FailuresOfTwo(before, table, LateSecond(s));
      if s >= n * SLOTS_PER_DAY {
        var slot := s - n * SLOTS_PER_DAY;
        BusyTable(drafts, epoch, counter, slot, LateSecond(slot), LateSecond(s));
      }
    }
  }

  lemma {:induction false} StillLogins(before: seq<Event>, drafts: seq<Draft>, n: nat, epoch: int, counter: nat)
    requires LoginsUntil(before, n * SLOTS_PER_DAY) && epoch == n * DAY_SECONDS
    requires multiset(drafts) == multiset(Parts(BusyDay(), 1)) && Indexes(drafts, 1)
    ensures LoginsUntil(before + Assemble(drafts, [BUSY], epoch, counter), (n + 1) * SLOTS_PER_DAY)
  {
    var table := Assemble(drafts, [BUSY], epoch, counter);
    forall s: nat | s < (n + 1) * SLOTS_PER_DAY ensures LoginAt(before + table, EarlySecond(s)) {
      if s >= n * SLOTS_PER_DAY {
        var slot := s - n * SLOTS_PER_DAY;
        BusyDayLogin(drafts, slot);
        AssembledLogin(drafts, epoch, counter, LoginDraft(0, Busy(slot)), EarlySecond(s));
      }
      LoginInEither(before, table, EarlySecond(s));
    }
  }

  lemma {:induction false} DraftsPermuteParts(day: seq<seq<Login>>)
    ensures multiset(DayDrafts(day)) == multiset(Parts(day, |day|))
  {}

  lemma {:induction false} BusyEverySlot(n: nat)
    requires ValidDays([BUSY], BusyDays(n))
    ensures BusyUntil(AllDays([BUSY], 0, BusyDays(n)), n * SLOTS_PER_DAY)
    ensures LoginsUntil(AllDays([BUSY], 0, BusyDays(n)), n * SLOTS_PER_DAY)
  {
    if n > 0 {
      BusyIsValid(n - 1);
      BusyEverySlot(n - 1);
      AllDaysSnoc([BUSY], 0, BusyDays(n - 1), BusyDay());
      DayPlaced([BUSY], BusyDay());
      DraftsPermuteParts(BusyDay());
      var before := AllDays([BUSY], 0, BusyDays(n - 1));
      StillBusy(before, DayDrafts(BusyDay()), n - 1, DayStart(0, n - 1), |before|);
      StillLogins(before, DayDrafts(BusyDay()), n - 1, DayStart(0, n - 1), |before|);
    }
  }

  lemma {:induction false} BusyTotal(events: seq<Event>, slots: nat, k: nat)
    requires BusyUntil(events, slots) && 1 <= k <= slots
    ensures Count(FailureObs(events), Str(AccountName(0)), LateSecond(0), LateSecond(k - 1)) >= 2 * k
    decreases k
  {
    var s, g := FailureObs(events), Str(AccountName(0));
    assert FailuresAt(events, LateSecond(k - 1)) >= 2;
    if k > 1 {
      BusyTotal(events, slots, k - 1);
      CountSplit(s, g, LateSecond(0), LateSecond(k - 1), LateSecond(k - 1));
      CountMonotone(s, g, LateSecond(0), LateSecond(k - 2), LateSecond(0), LateSecond(k - 1) - 1);
    }
  }

  // ------------------------------------------------------------------ the login that ends the window

  lemma {:induction false} BusyLoginDraft(n: nat, slot: nat)
    requires slot < n
    ensures LoginDraft(0, Busy(slot)) in LoginDrafts(0, BusyLogins(n))
  {
    assert BusyLogins(n)[..n - 1] == BusyLogins(n - 1);
    if slot < n - 1 { BusyLoginDraft(n - 1, slot); }
  }

  lemma {:induction false} BusyDayLogin(drafts: seq<Draft>, slot: nat)
    requires multiset(drafts) == multiset(Parts(BusyDay(), 1)) && slot < SLOTS_PER_DAY
    ensures LoginDraft(0, Busy(slot)) in drafts
  {
    SameMembers(drafts, Parts(BusyDay(), 1));
    BusyLoginDraft(SLOTS_PER_DAY, slot);
    assert BlockLogins(BusyDay(), 0, 1) == [] + LoginDrafts(0, BusyLogins(SLOTS_PER_DAY));
    assert Parts(BusyDay(), 1) == [] + BlockLogins(BusyDay(), 0, 1) + BlockFails(BusyDay(), 0, 1);
  }

  lemma {:induction false} AssembledLogin(drafts: seq<Draft>, epoch: int, counter: nat, d: Draft, t: int)
    requires Indexes(drafts, 1) && d in drafts && d.success && t == epoch + d.sec
    ensures LoginAt(Assemble(drafts, [BUSY], epoch, counter), t)
  {
    var k := |drafts| - 1;
    assert drafts[k] in drafts;
    var table, last := Assemble(drafts[..k], [BUSY], epoch, counter), EventOf(drafts[k], BUSY, epoch, counter + k);
    if drafts[k] == d {
      assert last in [last];
    } else {
      assert d in drafts[..k];
      AssembledLogin(drafts[..k], epoch, counter, d, t);
    }
    LoginInEither(table, [last], t);
  }

  lemma {:induction false} LoginInEither(x: seq<Event>, y: seq<Event>, t: int)
    requires LoginAt(x, t) || LoginAt(y, t)
    ensures LoginAt(x + y, t)
  {
    if LoginAt(x, t) {
      var e :| e in x && e.etype == LoginSuccess && e.account == AccountName(0) && e.sec == t;
      assert e in x + y;
    } else {
      var e :| e in y && e.etype == LoginSuccess && e.account == AccountName(0) && e.sec == t;
      assert e in x + y;
    }
  }

  // ------------------------------------------------------------------ the limit

  lemma {:induction false} ThatLoginFires(events: seq<Event>, m: Policy, p: Params, k: nat)
    requires k >= 1 && BusyUntil(events, k) && LoginsUntil(events, k)
    requires 300 * (k - 1) + 6 <= p.w1 && p.t1 <= 2 * k
    ensures Findings(events, m, p) != {}
  {
    var t := EarlySecond(k - 1);
    assert LoginAt(events, t);
    var e :| e in events && e.etype == LoginSuccess && e.account == AccountName(0) && e.sec == t;
    BusyTotal(events, k, k);
    CountMonotone(FailureObs(events), Str(AccountName(0)), LateSecond(0), LateSecond(k - 1), t - p.w1, t);
    assert FiresB1(events, p, e);
    AboutAlertsOf(events, m, p, B1);
    assert AlertAbout(events, m, p, B1, e) in AlertsOf(events, m, p, B1);
  }

  /** This background, if it is one, raises no alert. */
  ghost predicate SilentOn(p: Params, profiles: seq<Profile>, start: int, days: seq<seq<seq<Login>>>) {
    Midnight(start) && ValidDays(profiles, days) ==>
      Findings(AllDays(profiles, start, days), PolicyMap(PolicyRecords(profiles)), p) == {}
  }

  /** No background whatever raises an alert. */
  ghost predicate AlwaysSilent(p: Params) { forall profiles, start, days :: SilentOn(p, profiles, start, days) }

  lemma {:induction false} BusyBackgroundAlerts(p: Params)
    requires Accepted(p) && MostFailures(p.w1) >= p.t1
    ensures !SilentOn(p, [BUSY], 0, BusyDays(SlotsReached(p.w1)))
  {
    var k := SlotsReached(p.w1);
    BusyIsValid(k);
    BusyEverySlot(k);
    ThatLoginFires(AllDays([BUSY], 0, BusyDays(k)), PolicyMap(PolicyRecords([BUSY])), p, k);
    assert Midnight(0);
  }

  lemma {:induction false} OneIsSilent(p: Params, profiles: seq<Profile>, start: int, days: seq<seq<seq<Login>>>)
    requires Accepted(p) && MostFailures(p.w1) < p.t1
    ensures SilentOn(p, profiles, start, days)
  {
    if Midnight(start) && ValidDays(profiles, days) {
      BackgroundIsBenign(profiles, start, days);
      RecordsCover(profiles);
      BackgroundSilent(profiles, AllDays(profiles, start, days), PolicyMap(PolicyRecords(profiles)), p);
    }
  }

  lemma {:induction false} FewIsSilent(p: Params)
    requires Accepted(p) && MostFailures(p.w1) < p.t1
    ensures AlwaysSilent(p)
  {
    forall profiles, start, days { OneIsSilent(p, profiles, start, days); }
  }

  lemma {:induction false} ManyIsLoud(p: Params)
    requires Accepted(p) && MostFailures(p.w1) >= p.t1
    ensures !AlwaysSilent(p)
  {
    BusyBackgroundAlerts(p);
  }

  /** A window of up to 305 seconds reaches a single slot. */
  lemma {:induction false} ShortWindow(p: Params)
    requires Accepted(p) && p.w1 <= 305
    ensures MostFailures(p.w1) < p.t1
  {}

  /** The background's promise holds exactly when the sequence rule's threshold exceeds two failures per reachable slot; with a window
      of up to 305 seconds any accepted threshold does. */
  lemma {:induction false} SilentIff(p: Params)
    requires Accepted(p)
    ensures AlwaysSilent(p) <==> MostFailures(p.w1) < p.t1
    ensures p.w1 <= 305 ==> AlwaysSilent(p)
  {
    if p.w1 <= 305 { ShortWindow(p); }
    if MostFailures(p.w1) < p.t1 { FewIsSilent(p); } else { ManyIsLoud(p); }
  }
}
