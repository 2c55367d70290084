/** The benign background (scripts/datagen/background.py): what one day's random choices can be, the table they make, and
    exactly when no choice whatever can make the five rules speak. */
module Background {
  import opened Ordering
  import opened Detection
  import opened RefDetect
  import opened IncidentShapes
  import opened Labels
  import opened Random
  import opened Slots
  import Timestamps

  const SLOT_SECONDS: int := 300
  const DAY_SECONDS: int := 86400
  const ACCOUNT_BLOCK: nat := 20_000

  /** One account's identity and policy. */
  datatype Profile = Profile(service: bool, method_: string, mfaRequired: bool)

  function AccountName(i: nat): string { "u" + Timestamps.ZeroPad(i, 8) }

  function HostName(i: nat): string { "h" + Timestamps.ZeroPad(i, 7) }

  function EventName(n: nat): string { "b" + Timestamps.ZeroPad(n, 12) }

  function RecordOf(account: string, q: Profile): PolicyRow {
    PolicyRow(account, if q.service then "service" else "human", q.method_, q.mfaRequired)
  }

  function RecordsFor(profiles: seq<Profile>, name: nat -> string): (r: seq<PolicyRow>)
    ensures |r| == |profiles|
  {
    if profiles == [] then []
    else
      var k := |profiles| - 1;
      RecordsFor(profiles[..k], name) + [RecordOf(name(k), profiles[k])]
  }

  /** `iter_policy_records`. */
  function PolicyRecords(profiles: seq<Profile>): seq<PolicyRow> { RecordsFor(profiles, AccountName) }

  // ------------------------------------------------------------------ one day's random choices

  /** A login: its slot, its second and millisecond, and the failures before it as (second of the slot, millisecond). */
  datatype Login = Login(slot: int, offset: int, ms: nat, fails: seq<(int, nat)>)

  predicate ValidLogin(q: Profile, l: Login) {
    && Allowed(q.service, l.slot)
    && 60 <= l.offset < SLOT_SECONDS && l.ms < 1000
    && |l.fails| <= 2 && forall f | f in l.fails :: 5 <= f.0 < 55 && f.1 < 1000
  }

  /** An account logs in at most once per slot. */
  predicate OncePerSlot(logins: seq<Login>) { forall i, j | 0 <= i < j < |logins| :: logins[i].slot != logins[j].slot }

  predicate ValidLogins(q: Profile, logins: seq<Login>) {
    OncePerSlot(logins) && forall l | l in logins :: ValidLogin(q, l)
  }

  /** One list of logins per account. */
  predicate ValidDay(profiles: seq<Profile>, day: seq<seq<Login>>) {
    |day| == |profiles| && forall i | 0 <= i < |day| :: ValidLogins(profiles[i], day[i])
  }

  // ------------------------------------------------------------------ the day's table

  /** An event before it gets its id: account index, second of the day, millisecond, outcome. */
  datatype Draft = Draft(acct: nat, sec: int, ms: nat, success: bool)

  function LoginDraft(a: nat, l: Login): Draft { Draft(a, l.slot * SLOT_SECONDS + l.offset, l.ms, true) }

  function FailDraft(a: nat, l: Login, f: (int, nat)): Draft { Draft(a, l.slot * SLOT_SECONDS + f.0, f.1, false) }

  function LoginDrafts(a: nat, logins: seq<Login>): seq<Draft> {
    if logins == [] then [] else LoginDrafts(a, logins[..|logins| - 1]) + [LoginDraft(a, logins[|logins| - 1])]
  }

  function FailsBefore(a: nat, l: Login, fails: seq<(int, nat)>): seq<Draft> {
    if fails == [] then [] else FailsBefore(a, l, fails[..|fails| - 1]) + [FailDraft(a, l, fails[|fails| - 1])]
  }

  function FailDrafts(a: nat, logins: seq<Login>): seq<Draft> {
    if logins == [] then []
    else
      var l := logins[|logins| - 1];
      FailDrafts(a, logins[..|logins| - 1]) + FailsBefore(a, l, l.fails)
  }

  /** The login drafts of accounts `from` to `to`. */
  function BlockLogins(day: seq<seq<Login>>, from: nat, to: nat): seq<Draft>
    requires from <= to <= |day|
  {
    if from == to then [] else BlockLogins(day, from, to - 1) + LoginDrafts(to - 1, day[to - 1])
  }

  function BlockFails(day: seq<seq<Login>>, from: nat, to: nat): seq<Draft>
    requires from <= to <= |day|
  {
    if from == to then [] else BlockFails(day, from, to - 1) + FailDrafts(to - 1, day[to - 1])
  }

  /** The parts of the first `n` accounts, block by block: a block's logins, then its failures. */
  function Parts(day: seq<seq<Login>>, n: nat): seq<Draft>
    requires n <= |day|
  {
    if n == 0 then []
    else
      var from := (n - 1) / ACCOUNT_BLOCK * ACCOUNT_BLOCK;
      Parts(day, from) + BlockLogins(day, from, n) + BlockFails(day, from, n)
  }

  function DraftKey(d: Draft): Key { Key(Num(d.sec * 1000 + d.ms), Null) }

  function EventOf(d: Draft, q: Profile, epoch: int, n: nat): Event {
    Event(EventName(n), epoch + d.sec, d.ms, AccountName(d.acct), if d.success then LoginSuccess else LoginFailure,
          HostName(d.acct / 2), Some(q.method_), Some(d.success && q.mfaRequired))
  }

  predicate Indexes(drafts: seq<Draft>, n: nat) { forall d | d in drafts :: d.acct < n }

  /** `_assemble`: ids in order from the running counter. */
  function Assemble(drafts: seq<Draft>, profiles: seq<Profile>, epoch: int, counter: nat): (r: seq<Event>)
    requires Indexes(drafts, |profiles|)
    ensures |r| == |drafts|
  {
    if drafts == [] then []
    else
      var k := |drafts| - 1;
      var d := drafts[k];
      assert d in drafts;
      Assemble(drafts[..k], profiles, epoch, counter) + [EventOf(d, profiles[d.acct], epoch, counter + k)]
  }

  lemma {:induction false} LoginDraftsOf(a: nat, logins: seq<Login>)
    ensures forall d | d in LoginDrafts(a, logins) :: d.acct == a && d.success && exists l :: l in logins && d == LoginDraft(a, l)
  {
    if logins != [] {
      LoginDraftsOf(a, logins[..|logins| - 1]);
      assert logins[|logins| - 1] in logins;
    }
  }

  lemma {:induction false} FailsBeforeOf(a: nat, l: Login, fails: seq<(int, nat)>)
    ensures forall d | d in FailsBefore(a, l, fails) :: exists f :: f in fails && d == FailDraft(a, l, f)
    ensures |FailsBefore(a, l, fails)| == |fails|
  {
    if fails != [] {
      FailsBeforeOf(a, l, fails[..|fails| - 1]);
      assert fails[|fails| - 1] in fails;
    }
  }

  /** What one account may contribute: logins at 60..299 and failures at 5..54 of a slot. */
  predicate Placed(d: Draft) {
    0 <= d.sec < DAY_SECONDS && d.ms < 1000 && if d.success then 60 <= d.sec % 300 else 5 <= d.sec % 300 < 55
  }

  lemma {:induction false} OfAccount(q: Profile, a: nat, logins: seq<Login>)
    requires forall l | l in logins :: ValidLogin(q, l)
    ensures forall d | d in LoginDrafts(a, logins) :: d.acct == a && Placed(d)
    ensures forall d | d in FailDrafts(a, logins) :: d.acct == a && Placed(d)
  {
    if logins != [] {
      var l := logins[|logins| - 1];
      OfAccount(q, a, logins[..|logins| - 1]);
      assert l in logins && ValidLogin(q, l);
      assert Placed(LoginDraft(a, l));
      FailsBeforeOf(a, l, l.fails);
      forall f | f in l.fails ensures Placed(FailDraft(a, l, f)) {}
    }
  }

  predicate PlacedBelow(drafts: seq<Draft>, n: nat) { forall d | d in drafts :: d.acct < n && Placed(d) }

  lemma {:induction false} JoinPlaced(x: seq<Draft>, y: seq<Draft>, n: nat)
    requires PlacedBelow(x, n) && forall d | d in y :: d.acct == n && Placed(d)
    ensures PlacedBelow(x + y, n + 1)
  {}

  lemma {:induction false} BlockPlaced(profiles: seq<Profile>, day: seq<seq<Login>>, from: nat, to: nat)
    requires ValidDay(profiles, day) && from <= to <= |day|
    ensures PlacedBelow(BlockLogins(day, from, to), to) && PlacedBelow(BlockFails(day, from, to), to)
  {
    if from < to {
      BlockPlaced(profiles, day, from, to - 1);
      OfAccount(profiles[to - 1], to - 1, day[to - 1]);
      JoinPlaced(BlockLogins(day, from, to - 1), LoginDrafts(to - 1, day[to - 1]), to - 1);
      JoinPlaced(BlockFails(day, from, to - 1), FailDrafts(to - 1, day[to - 1]), to - 1);
    }
  }

  lemma {:induction false} PartsPlaced(profiles: seq<Profile>, day: seq<seq<Login>>, n: nat)
    requires ValidDay(profiles, day) && n <= |day|
    ensures PlacedBelow(Parts(day, n), n)
  {
    if n > 0 {
      var from := (n - 1) / ACCOUNT_BLOCK * ACCOUNT_BLOCK;
      PartsPlaced(profiles, day, from);
      BlockPlaced(profiles, day, from, n);
    }
  }

  /** The day's drafts in (second, millisecond) order. */
  function DayDrafts(day: seq<seq<Login>>): seq<Draft> { Sort(Parts(day, |day|), DraftKey) }

  lemma {:induction false} DayPlaced(profiles: seq<Profile>, day: seq<seq<Login>>)
    requires ValidDay(profiles, day)
    ensures PlacedBelow(DayDrafts(day), |profiles|)
  {
    PartsPlaced(profiles, day, |day|);
    SameMembers(DayDrafts(day), Parts(day, |day|));
  }

  /** The table of one day. */
  function DayTable(profiles: seq<Profile>, day: seq<seq<Login>>, epoch: int, counter: nat): seq<Event>
    requires ValidDay(profiles, day)
  {
    DayPlaced(profiles, day);
    Assemble(DayDrafts(day), profiles, epoch, counter)
  }

  // ------------------------------------------------------------------ failures per account and slot

  predicate IsFail(d: Draft, a: nat, lo: int, hi: int) { !d.success && d.acct == a && lo <= d.sec <= hi }

  /** The failures of account `a` in seconds `lo` to `hi` of the day. */
  function Fails(drafts: seq<Draft>, a: nat, lo: int, hi: int): nat {
    if drafts == [] then 0
    else Fails(drafts[..|drafts| - 1], a, lo, hi) + if IsFail(drafts[|drafts| - 1], a, lo, hi) then 1 else 0
  }

  lemma {:induction false} FailsAppend(x: seq<Draft>, y: seq<Draft>, a: nat, lo: int, hi: int)
    ensures Fails(x + y, a, lo, hi) == Fails(x, a, lo, hi) + Fails(y, a, lo, hi)
  {
    if y == [] {
      assert x + y == x;
    } else {
      FailsAppend(x, y[..|y| - 1], a, lo, hi);
      assert (x + y)[..|x + y| - 1] == x + y[..|y| - 1];
    }
  }

  lemma {:induction false} FailsPermuted(x: seq<Draft>, y: seq<Draft>, a: nat, lo: int, hi: int)
    requires multiset(x) == multiset(y)
    ensures Fails(x, a, lo, hi) == Fails(y, a, lo, hi)
    decreases |x|
  {
    if x == [] {
      assert |multiset(y)| == 0;
    } else {
      var l, r := SplitAtLast(x, y);
      FailsPermuted(x[..|x| - 1], l + r, a, lo, hi);
      FailsAppend(l + [x[|x| - 1]], r, a, lo, hi);
      FailsAppend(l, [x[|x| - 1]], a, lo, hi);
      FailsAppend(l, r, a, lo, hi);
    }
  }

  lemma {:induction false} NoFails(drafts: seq<Draft>, a: nat, lo: int, hi: int)
    requires forall d | d in drafts :: !IsFail(d, a, lo, hi)
    ensures Fails(drafts, a, lo, hi) == 0
  {
    if drafts != [] { NoFails(drafts[..|drafts| - 1], a, lo, hi); }
  }

  lemma {:induction false} FailsAtMost(drafts: seq<Draft>, a: nat, lo: int, hi: int)
    ensures Fails(drafts, a, lo, hi) <= |drafts|
  {
    if drafts != [] { FailsAtMost(drafts[..|drafts| - 1], a, lo, hi); }
  }

  function SlotFails(drafts: seq<Draft>, a: nat, slot: int): nat { Fails(drafts, a, 300 * slot, 300 * slot + 299) }

  lemma {:induction false} FailSlot(a: nat, l: Login, f: (int, nat), slot: int)
    requires 5 <= f.0 < 55 && l.slot != slot
    ensures !IsFail(FailDraft(a, l, f), a, 300 * slot, 300 * slot + 299)
  {}

  /** A login's failures all fall into its own slot. */
  lemma {:induction false} LoginSlot(q: Profile, a: nat, l: Login, slot: int)
    requires ValidLogin(q, l)
    ensures SlotFails(FailsBefore(a, l, l.fails), a, slot) <= 2
    ensures l.slot != slot ==> SlotFails(FailsBefore(a, l, l.fails), a, slot) == 0
  {
    var drafts := FailsBefore(a, l, l.fails);
    FailsBeforeOf(a, l, l.fails);
    FailsAtMost(drafts, a, 300 * slot, 300 * slot + 299);
    if l.slot != slot {
      forall d | d in drafts ensures !IsFail(d, a, 300 * slot, 300 * slot + 299) {
        var f :| f in l.fails && d == FailDraft(a, l, f);
        FailSlot(a, l, f, slot);
      }
      NoFails(drafts, a, 300 * slot, 300 * slot + 299);
    }
  }

  lemma {:induction false} OtherSlots(q: Profile, a: nat, logins: seq<Login>, slot: int)
    requires forall l | l in logins :: ValidLogin(q, l) && l.slot != slot
    ensures SlotFails(FailDrafts(a, logins), a, slot) == 0
  {
    if logins != [] {
      var rest, l := logins[..|logins| - 1], logins[|logins| - 1];
      assert l in logins;
      OtherSlots(q, a, rest, slot);
      LoginSlot(q, a, l, slot);
      FailsAppend(FailDrafts(a, rest), FailsBefore(a, l, l.fails), a, 300 * slot, 300 * slot + 299);
    }
  }

  /** One account fails at most twice in any slot. */
  lemma {:induction false} TwicePerSlot(q: Profile, a: nat, logins: seq<Login>, slot: int)
    requires ValidLogins(q, logins)
    ensures SlotFails(FailDrafts(a, logins), a, slot) <= 2
  {
    if logins != [] {
      var rest, l := logins[..|logins| - 1], logins[|logins| - 1];
      assert l in logins;
      TwicePerSlot(q, a, rest, slot);
      LoginSlot(q, a, l, slot);
      if l.slot == slot { OtherSlots(q, a, rest, slot); }
      FailsAppend(FailDrafts(a, rest), FailsBefore(a, l, l.fails), a, 300 * slot, 300 * slot + 299);
    }
  }

  lemma {:induction false} FailDraftsOf(b: nat, logins: seq<Login>)
    ensures forall d | d in FailDrafts(b, logins) :: d.acct == b
  {
    if logins != [] {
      var l := logins[|logins| - 1];
      FailDraftsOf(b, logins[..|logins| - 1]);
      FailsBeforeOf(b, l, l.fails);
    }
  }

  lemma {:induction false} BlockFailsOf(day: seq<seq<Login>>, from: nat, to: nat, a: nat, lo: int, hi: int)
    requires from <= to <= |day| && a < |day|
    ensures Fails(BlockFails(day, from, to), a, lo, hi) == if from <= a < to then Fails(FailDrafts(a, day[a]), a, lo, hi) else 0
  {
    if from < to {
      BlockFailsOf(day, from, to - 1, a, lo, hi);
      FailsAppend(BlockFails(day, from, to - 1), FailDrafts(to - 1, day[to - 1]), a, lo, hi);
      FailDraftsOf(to - 1, day[to - 1]);
      if a != to - 1 { NoFails(FailDrafts(to - 1, day[to - 1]), a, lo, hi); }
    }
  }

  lemma {:induction false} BlockLoginsOf(day: seq<seq<Login>>, from: nat, to: nat, a: nat, lo: int, hi: int)
    requires from <= to <= |day|
    ensures Fails(BlockLogins(day, from, to), a, lo, hi) == 0
  {
    if from < to {
      BlockLoginsOf(day, from, to - 1, a, lo, hi);
      FailsAppend(BlockLogins(day, from, to - 1), LoginDrafts(to - 1, day[to - 1]), a, lo, hi);
      LoginDraftsOf(to - 1, day[to - 1]);
      NoFails(LoginDrafts(to - 1, day[to - 1]), a, lo, hi);
    }
  }

  lemma {:induction false} PartsOf(day: seq<seq<Login>>, n: nat, a: nat, lo: int, hi: int)
    requires n <= |day| && a < |day|
    ensures Fails(Parts(day, n), a, lo, hi) == if a < n then Fails(FailDrafts(a, day[a]), a, lo, hi) else 0
  {
    if n > 0 {
      var from := (n - 1) / ACCOUNT_BLOCK * ACCOUNT_BLOCK;
      PartsOf(day, from, a, lo, hi);
      BlockFailsOf(day, from, n, a, lo, hi);
      BlockLoginsOf(day, from, n, a, lo, hi);
      FailsAppend(Parts(day, from) + BlockLogins(day, from, n), BlockFails(day, from, n), a, lo, hi);
      FailsAppend(Parts(day, from), BlockLogins(day, from, n), a, lo, hi);
    }
  }

  lemma {:induction false} DayAccount(profiles: seq<Profile>, day: seq<seq<Login>>, a: nat, slot: int)
    requires ValidDay(profiles, day) && a < |profiles|
    ensures a < |day| && SlotFails(FailDrafts(a, day[a]), a, slot) <= 2
  {
    TwicePerSlot(profiles[a], a, day[a], slot);
  }

  /** Blocking, concatenating and sorting move an account's failures about but keep their number per slot. */
  lemma {:induction false} DayTwicePerSlot(profiles: seq<Profile>, day: seq<seq<Login>>, drafts: seq<Draft>, a: nat, slot: int, lo: int, hi: int)
    requires ValidDay(profiles, day) && multiset(drafts) == multiset(Parts(day, |day|))
    requires a < |profiles| && lo == 300 * slot && hi == lo + 299
    ensures Fails(drafts, a, lo, hi) <= 2
  {
    DayAccount(profiles, day, a, slot);
    FailsPermuted(drafts, Parts(day, |day|), a, lo, hi);
    PartsOf(day, |day|, a, lo, hi);
  }

  // ------------------------------------------------------------------ from drafts to events

  lemma {:induction false} AccountNamesDiffer(i: nat, j: nat)
    ensures AccountName(i) == AccountName(j) ==> i == j
  {
    if AccountName(i) == AccountName(j) { SamePad("u", i, j, 8); }
  }

  lemma {:induction false} HostNamesDiffer(i: nat, j: nat)
    ensures HostName(i) == HostName(j) ==> i == j
  {
    if HostName(i) == HostName(j) { SamePad("h", i, j, 7); }
  }

  lemma {:induction false} NamedFails(d: Draft, e: Event, epoch: int, events: seq<Event>, a: nat, name: string, lo: int, hi: int)
    requires e.sec == epoch + d.sec && (e.etype.LoginFailure? <==> !d.success) && (e.account == name <==> d.acct == a)
    ensures Count(FailureObs(events + [e]), Str(name), epoch + lo, epoch + hi)
            == Count(FailureObs(events), Str(name), epoch + lo, epoch + hi) + if IsFail(d, a, lo, hi) then 1 else 0
  {
    FailureObsSnoc(events, e, Str(name), epoch + lo, epoch + hi);
  }

  lemma {:induction false} EventFails(d: Draft, q: Profile, epoch: int, n: nat, events: seq<Event>, a: nat, lo: int, hi: int)
    ensures Count(FailureObs(events + [EventOf(d, q, epoch, n)]), Str(AccountName(a)), epoch + lo, epoch + hi)
            == Count(FailureObs(events), Str(AccountName(a)), epoch + lo, epoch + hi) + if IsFail(d, a, lo, hi) then 1 else 0
  {
    AccountNamesDiffer(d.acct, a);
    NamedFails(d, EventOf(d, q, epoch, n), epoch, events, a, AccountName(a), lo, hi);
  }

  lemma {:induction false} AssembledFails(drafts: seq<Draft>, profiles: seq<Profile>, epoch: int, counter: nat, a: nat, lo: int, hi: int)
    requires Indexes(drafts, |profiles|)
    ensures Count(FailureObs(Assemble(drafts, profiles, epoch, counter)), Str(AccountName(a)), epoch + lo, epoch + hi)
            == Fails(drafts, a, lo, hi)
  {
    if drafts != [] {
      var k := |drafts| - 1;
      assert drafts[k] in drafts;
      AssembledFails(drafts[..k], profiles, epoch, counter, a, lo, hi);
      EventFails(drafts[k], profiles[drafts[k].acct], epoch, counter + k, Assemble(drafts[..k], profiles, epoch, counter), a, lo, hi);
    }
  }

  /** What every background event looks like. */
  predicate FromProfile(e: Event, i: nat, q: Profile) {
    && FirstLetter(e.id, 'b') && e.account == AccountName(i) && e.host == HostName(i / 2)
    && e.method_ == Some(q.method_) && e.mfa == Some(e.etype.LoginSuccess? && q.mfaRequired)
    && if e.etype.LoginSuccess? then 60 <= e.sec % 300 else 5 <= e.sec % 300 < 55
  }

  ghost predicate FromSome(profiles: seq<Profile>, e: Event) {
    exists i: nat :: i < |profiles| && FromProfile(e, i, profiles[i])
  }

  /** A midnight: the start of a day, and so of a slot. */
  predicate Midnight(epoch: int) { epoch % DAY_SECONDS == 0 }

  lemma {:induction false} SlotOffset(epoch: int, sec: int)
    requires Midnight(epoch)
    ensures (epoch + sec) % 300 == sec % 300
  {
    var k := epoch / DAY_SECONDS;
    assert epoch == 300 * (288 * k);
  }

  lemma {:induction false} EventFrom(d: Draft, q: Profile, epoch: int, n: nat)
    requires Placed(d) && Midnight(epoch)
    ensures FromProfile(EventOf(d, q, epoch, n), d.acct, q)
    ensures epoch <= EventOf(d, q, epoch, n).sec < epoch + DAY_SECONDS
  {
    SlotOffset(epoch, d.sec);
  }

  ghost predicate DayEvent(profiles: seq<Profile>, epoch: int, e: Event) {
    FromSome(profiles, e) && epoch <= e.sec < epoch + DAY_SECONDS
  }

  lemma {:induction false} AssembledFrom(drafts: seq<Draft>, profiles: seq<Profile>, epoch: int, counter: nat)
    requires PlacedBelow(drafts, |profiles|) && Midnight(epoch)
    ensures forall e | e in Assemble(drafts, profiles, epoch, counter) :: DayEvent(profiles, epoch, e)
  {
    if drafts != [] {
      var k := |drafts| - 1;
      var d := drafts[k];
      assert d in drafts;
      AssembledFrom(drafts[..k], profiles, epoch, counter);
      EventFrom(d, profiles[d.acct], epoch, counter + k);
      assert DayEvent(profiles, epoch, EventOf(d, profiles[d.acct], epoch, counter + k));
    }
  }

  // ------------------------------------------------------------------ all days

  predicate ValidDays(profiles: seq<Profile>, days: seq<seq<seq<Login>>>) { forall d | d in days :: ValidDay(profiles, d) }

  function DayStart(start: int, k: nat): int { start + k * DAY_SECONDS }

  /** The whole background: day after day, with one running event counter. */
  function AllDays(profiles: seq<Profile>, start: int, days: seq<seq<seq<Login>>>): seq<Event>
    requires ValidDays(profiles, days)
  {
    if days == [] then []
    else
      var k := |days| - 1;
      assert days[k] in days;
      var before := AllDays(profiles, start, days[..k]);
      before + DayTable(profiles, days[k], DayStart(start, k), |before|)
  }

  lemma {:induction false} LaterMidnight(start: int, k: nat)
    requires Midnight(start)
    ensures Midnight(DayStart(start, k)) && DayStart(start, k + 1) == DayStart(start, k) + DAY_SECONDS
  {}

  /** The events of the first days come before the next midnight. */
  ghost predicate Before(profiles: seq<Profile>, events: seq<Event>, limit: int) {
    forall e | e in events :: FromSome(profiles, e) && e.sec < limit
  }

  lemma {:induction false} DaysFrom(profiles: seq<Profile>, start: int, days: seq<seq<seq<Login>>>)
    requires ValidDays(profiles, days) && Midnight(start)
    ensures Before(profiles, AllDays(profiles, start, days), DayStart(start, |days|))
  {
    if days != [] {
      var k := |days| - 1;
      assert days[k] in days;
      DaysFrom(profiles, start, days[..k]);
      LaterMidnight(start, k);
      JoinDays(profiles, AllDays(profiles, start, days[..k]), days[k], DayStart(start, k));
    }
  }

  lemma {:induction false} JoinDays(profiles: seq<Profile>, before: seq<Event>, day: seq<seq<Login>>, epoch: int)
    requires Before(profiles, before, epoch) && ValidDay(profiles, day) && Midnight(epoch)
    ensures Before(profiles, before + DayTable(profiles, day, epoch, |before|), epoch + DAY_SECONDS)
  {
    TableFrom(profiles, day, epoch, |before|);
  }

  lemma {:induction false} TableFrom(profiles: seq<Profile>, day: seq<seq<Login>>, epoch: int, counter: nat)
    requires ValidDay(profiles, day) && Midnight(epoch)
    ensures forall e | e in DayTable(profiles, day, epoch, counter) :: DayEvent(profiles, epoch, e)
  {
    DayPlaced(profiles, day);
    AssembledFrom(DayDrafts(day), profiles, epoch, counter);
  }

  function SlotCount(events: seq<Event>, a: nat, slot: int): nat {
    Count(FailureObs(events), Str(AccountName(a)), 300 * slot, 300 * slot + 299)
  }

  lemma {:induction false} CountOutside(events: seq<Event>, g: Value, lo: int, hi: int)
    requires forall e | e in events :: !(lo <= e.sec <= hi)
    ensures Count(FailureObs(events), g, lo, hi) == 0
  {
    FailureObsMembers(events);
    CountZero(FailureObs(events), g, lo, hi);
  }

  lemma {:induction false} SlotInDay(epoch: int, slot: int) returns (inDay: int)
    requires Midnight(epoch)
    ensures 300 * slot - epoch == 300 * inDay
  {
    inDay := slot - epoch / DAY_SECONDS * SLOTS_PER_DAY;
  }

  lemma {:induction false} DaySlot(profiles: seq<Profile>, day: seq<seq<Login>>, drafts: seq<Draft>, epoch: int, counter: nat, a: nat, slot: int,
                                   from: int, to: int)
    requires ValidDay(profiles, day) && multiset(drafts) == multiset(Parts(day, |day|)) && Indexes(drafts, |profiles|)
    requires Midnight(epoch) && a < |profiles| && from == 300 * slot && to == from + 299
    ensures Count(FailureObs(Assemble(drafts, profiles, epoch, counter)), Str(AccountName(a)), from, to) <= 2
  {
    var lo, hi := from - epoch, to - epoch;
    var inDay := SlotInDay(epoch, slot);
    DayTwicePerSlot(profiles, day, drafts, a, inDay, lo, hi);
    AssembledFailsAt(drafts, profiles, epoch, counter, a, lo, hi, from, to);
  }

  lemma {:induction false} AssembledFailsAt(drafts: seq<Draft>, profiles: seq<Profile>, epoch: int, counter: nat, a: nat,
                                            lo: int, hi: int, from: int, to: int)
    requires Indexes(drafts, |profiles|) && from == epoch + lo && to == epoch + hi
    ensures Count(FailureObs(Assemble(drafts, profiles, epoch, counter)), Str(AccountName(a)), from, to) == Fails(drafts, a, lo, hi)
  {
    AssembledFails(drafts, profiles, epoch, counter, a, lo, hi);
  }

  /** Two stretches of log that do not share a slot. */
  lemma {:induction false} SlotOfTwo(before: seq<Event>, day: seq<Event>, epoch: int, a: nat, slot: int)
    requires Midnight(epoch) && (forall e | e in before :: e.sec < epoch) && (forall e | e in day :: epoch <= e.sec)
    requires SlotCount(before, a, slot) <= 2 && SlotCount(day, a, slot) <= 2
    ensures SlotCount(before + day, a, slot) <= 2
  {
    FailureObsAppend(before, day);
    CountAppend(FailureObs(before), FailureObs(day), Str(AccountName(a)), 300 * slot, 300 * slot + 299);
    if 300 * slot >= epoch {
      CountOutside(before, Str(AccountName(a)), 300 * slot, 300 * slot + 299);
    } else {
      SlotBeforeDay(epoch, slot);
      CountOutside(day, Str(AccountName(a)), 300 * slot, 300 * slot + 299);
    }
  }

  /** Over all days together, no account fails more than twice in a slot. */
  lemma {:induction false} DaysSlot(profiles: seq<Profile>, start: int, days: seq<seq<seq<Login>>>, a: nat, slot: int)
    requires ValidDays(profiles, days) && Midnight(start) && a < |profiles|
    ensures SlotCount(AllDays(profiles, start, days), a, slot) <= 2
  {
    if days != [] {
      var k := |days| - 1;
      assert days[k] in days;
      var before := AllDays(profiles, start, days[..k]);
      DaysSlot(profiles, start, days[..k], a, slot);
      DaysFrom(profiles, start, days[..k]);
      LaterMidnight(start, k);
      NextDaySlot(profiles, before, days[k], DayStart(start, k), a, slot);
    }
  }

  lemma {:induction false} NextDaySlot(profiles: seq<Profile>, before: seq<Event>, day: seq<seq<Login>>, epoch: int, a: nat, slot: int)
    requires ValidDay(profiles, day) && Midnight(epoch) && a < |profiles|
    requires Before(profiles, before, epoch) && SlotCount(before, a, slot) <= 2
    ensures SlotCount(before + DayTable(profiles, day, epoch, |before|), a, slot) <= 2
  {
    DayPlaced(profiles, day);
    DaySlot(profiles, day, DayDrafts(day), epoch, |before|, a, slot, 300 * slot, 300 * slot + 299);
    TableFrom(profiles, day, epoch, |before|);
    SlotOfTwo(before, DayTable(profiles, day, epoch, |before|), epoch, a, slot);
  }

  lemma {:induction false} SlotBeforeDay(epoch: int, slot: int)
    requires Midnight(epoch) && 300 * slot < epoch
    ensures 300 * slot + 299 < epoch
  {
    assert epoch == 300 * (288 * (epoch / DAY_SECONDS));
  }

  // ------------------------------------------------------------------ why the background is silent

  ghost predicate Benign(profiles: seq<Profile>, events: seq<Event>) {
    && (forall e | e in events :: FromSome(profiles, e))
    && forall a: nat, slot: int | a < |profiles| :: SlotCount(events, a, slot) <= 2
  }

  lemma {:induction false} BackgroundIsBenign(profiles: seq<Profile>, start: int, days: seq<seq<seq<Login>>>)
    requires ValidDays(profiles, days) && Midnight(start)
    ensures Benign(profiles, AllDays(profiles, start, days))
  {
    DaysFrom(profiles, start, days);
    forall a: nat, slot: int | a < |profiles| ensures SlotCount(AllDays(profiles, start, days), a, slot) <= 2 {
      DaysSlot(profiles, start, days, a, slot);
    }
  }

  /** How many slots' failures a closed window of `w` seconds that ends at a login can reach. */
  function SlotsReached(w: int): int { (w + 294) / 300 }

  /** The most failures of one account a window of `w` seconds before its login can hold. */
  function MostFailures(w: int): int { 2 * SlotsReached(w) }

  lemma {:induction false} CountSplit(s: seq<Obs>, g: Value, lo: int, mid: int, hi: int)
    requires lo <= mid <= hi + 1
    ensures Count(s, g, lo, hi) == Count(s, g, lo, mid - 1) + Count(s, g, mid, hi)
  {
    if s != [] { CountSplit(s[..|s| - 1], g, lo, mid, hi); }
  }

  lemma {:induction false} CountNarrow(s: seq<Obs>, g: Value, lo: int, hi: int, lo': int, hi': int)
    requires forall o | o in s && Inside(o, g, lo, hi) :: Inside(o, g, lo', hi')
    ensures Count(s, g, lo, hi) <= Count(s, g, lo', hi')
  {
    if s != [] { CountNarrow(s[..|s| - 1], g, lo, hi, lo', hi'); }
  }

  lemma {:induction false} SlotsTogether(profiles: seq<Profile>, events: seq<Event>, a: nat, slot: int, k: nat)
    requires Benign(profiles, events) && a < |profiles|
    ensures Count(FailureObs(events), Str(AccountName(a)), 300 * (slot - k + 1), 300 * slot + 299) <= 2 * k
  {
    var g := Str(AccountName(a));
    if k == 0 {
      FailureObsMembers(events);
      CountZero(FailureObs(events), g, 300 * (slot + 1), 300 * slot + 299);
    } else {
      SlotsTogether(profiles, events, a, slot, k - 1);
      CountSplit(FailureObs(events), g, 300 * (slot - k + 1), 300 * (slot - k + 2), 300 * slot + 299);
      assert SlotCount(events, a, slot - k + 1) <= 2;
    }
  }

  /** A failure in the window before a login lies in one of the slots the window reaches. */
  lemma {:induction false} ReachedSlot(t: int, f: int, w: int)
    requires w >= 1 && 60 <= t % 300 && 5 <= f % 300 < 55 && t - w <= f <= t
    ensures 300 * (t / 300 - SlotsReached(w) + 1) <= f <= 300 * (t / 300) + 299
  {
    assert t == 300 * (t / 300) + t % 300;
    assert f == 300 * (f / 300) + f % 300;
    assert 300 * (t / 300 - f / 300) <= w - 6;
  }

  lemma {:induction false} FailureIsEvent(events: seq<Event>, o: Obs) returns (e: Event)
    requires o in FailureObs(events)
    ensures e in events && e.etype == LoginFailure && o == Obs(Str(e.id), e.sec, Str(e.account), Null)
  {
    FailureObsMembers(events);
    e :| e in events && e.etype.LoginFailure? && o == Obs(Str(e.id), e.sec, Str(e.account), Null);
  }

  lemma {:induction false} FailureReached(profiles: seq<Profile>, events: seq<Event>, g: Value, t: int, w: int, o: Obs, lo: int, hi: int)
    requires (forall e | e in events :: FromSome(profiles, e)) && w >= 1 && 60 <= t % 300
    requires lo == 300 * (t / 300 - SlotsReached(w) + 1) && hi == 300 * (t / 300) + 299
    requires o in FailureObs(events) && Inside(o, g, t - w, t)
    ensures Inside(o, g, lo, hi)
  {
    var e := FailureIsEvent(events, o);
    assert FromSome(profiles, e);
    ReachedSlot(t, e.sec, w);
  }

  lemma {:induction false} FewInWindow(profiles: seq<Profile>, events: seq<Event>, a: nat, t: int, w: int, lo: int, hi: int)
    requires Benign(profiles, events) && a < |profiles| && w >= 1 && 60 <= t % 300
    requires lo == 300 * (t / 300 - SlotsReached(w) + 1) && hi == 300 * (t / 300) + 299
    ensures Count(FailureObs(events), Str(AccountName(a)), t - w, t) <= Count(FailureObs(events), Str(AccountName(a)), lo, hi)
  {
    var g := Str(AccountName(a));
    forall o | o in FailureObs(events) && Inside(o, g, t - w, t) ensures Inside(o, g, lo, hi) {
      FailureReached(profiles, events, g, t, w, o, lo, hi);
    }
    CountNarrow(FailureObs(events), g, t - w, t, lo, hi);
  }

  lemma {:induction false} FewOf(profiles: seq<Profile>, events: seq<Event>, a: nat, t: int, w: int)
    requires Benign(profiles, events) && a < |profiles| && w >= 1 && 60 <= t % 300
    ensures Count(FailureObs(events), Str(AccountName(a)), t - w, t) <= MostFailures(w)
  {
    var slot, k := t / 300, SlotsReached(w);
    FewInWindow(profiles, events, a, t, w, 300 * (slot - k + 1), 300 * slot + 299);
    SlotsTogether(profiles, events, a, slot, k);
  }

  lemma {:induction false} FewFailures(profiles: seq<Profile>, events: seq<Event>, s: Event, w: int)
    requires Benign(profiles, events) && s in events && s.etype == LoginSuccess && w >= 1
    ensures Count(FailureObs(events), Str(s.account), s.sec - w, s.sec) <= MostFailures(w)
  {
    assert FromSome(profiles, s);
    var a: nat :| a < |profiles| && FromProfile(s, a, profiles[a]);
    FewOf(profiles, events, a, s.sec, w);
  }

  /** The policy table has every background account's row. */
  ghost predicate CoversNamed(m: Policy, profiles: seq<Profile>, name: nat -> string) {
    forall i: nat | i < |profiles| :: name(i) in m && m[name(i)] == RecordOf(name(i), profiles[i])
  }

  ghost predicate Covers(m: Policy, profiles: seq<Profile>) { CoversNamed(m, profiles, AccountName) }

  lemma {:induction false} RecordsCoverNamed(profiles: seq<Profile>, name: nat -> string)
    requires forall i: nat, j: nat | i < j :: name(i) != name(j)
    ensures CoversNamed(PolicyMap(RecordsFor(profiles, name)), profiles, name)
  {
    if profiles != [] {
      var k := |profiles| - 1;
      RecordsCoverNamed(profiles[..k], name);
      var records := RecordsFor(profiles, name);
      assert records[..|records| - 1] == RecordsFor(profiles[..k], name);
    }
  }

  lemma {:induction false} RecordsCover(profiles: seq<Profile>)
    ensures Covers(PolicyMap(PolicyRecords(profiles)), profiles)
  {
    forall i: nat, j: nat | i < j ensures AccountName(i) != AccountName(j) { AccountNamesDiffer(i, j); }
    RecordsCoverNamed(profiles, AccountName);
  }

  lemma {:induction false} RecordAccounts(profiles: seq<Profile>, name: nat -> string)
    requires forall i: nat :: FirstLetter(name(i), 'u')
    ensures forall r | r in RecordsFor(profiles, name) :: FirstLetter(r.account, 'u')
  {
    if profiles != [] { RecordAccounts(profiles[..|profiles| - 1], name); }
  }

  lemma {:induction false} SameHost(i: nat, j: nat)
    requires HostName(i / 2) == HostName(j / 2)
    ensures j == i / 2 * 2 || j == i / 2 * 2 + 1
  {
    HostNamesDiffer(i / 2, j / 2);
  }

  lemma {:induction false} NeighbourAccount(profiles: seq<Profile>, x: Event, i: nat)
    requires FromSome(profiles, x) && x.host == HostName(i / 2)
    ensures x.account == AccountName(i / 2 * 2) || x.account == AccountName(i / 2 * 2 + 1)
  {
    var j: nat :| j < |profiles| && FromProfile(x, j, profiles[j]);
    SameHost(i, j);
  }

  /** A host on which only two accounts fail shows no spray. */
  lemma {:induction false} TwoAccounts(events: seq<Event>, p: Params, e: Event, one: string, two: string)
    requires Accepted(p)
    requires forall x | x in events && x.host == e.host :: x.account == one || x.account == two
    ensures !FiresB2(events, p, e)
  {
    var s := TypeObs(events, LoginFailure, Host, Account);
    AboutTypeObs(events, LoginFailure, Host, Account);
    forall o | o in s && o.group == Str(e.host) ensures o.value in {Str(one), Str(two)} {
      var x :| x in events && x.etype == LoginFailure && ObsOf(x, Host, Account) == o;
    }
    FewValues(s, Str(e.host), e.sec, p.w2, p.t2, {Str(one), Str(two)});
  }

  /** A host serves at most two accounts, so no spray. */
  lemma {:induction false} NoSpray(profiles: seq<Profile>, events: seq<Event>, p: Params, e: Event)
    requires Accepted(p) && (forall x | x in events :: FromSome(profiles, x)) && e in events
    ensures !FiresB2(events, p, e)
  {
    assert FromSome(profiles, e);
    var i: nat :| i < |profiles| && FromProfile(e, i, profiles[i]);
    var one, two := AccountName(i / 2 * 2), AccountName(i / 2 * 2 + 1);
    forall x | x in events && x.host == e.host ensures x.account == one || x.account == two { NeighbourAccount(profiles, x, i); }
    TwoAccounts(events, p, e, one, two);
  }

  /** An account has one home host. */
  lemma {:induction false} OneHome(profiles: seq<Profile>, x: Event, y: Event)
    requires FromSome(profiles, x) && FromSome(profiles, y) && x.account == y.account
    ensures x.host == y.host
  {
    var i: nat :| i < |profiles| && FromProfile(x, i, profiles[i]);
    var j: nat :| j < |profiles| && FromProfile(y, j, profiles[j]);
    AccountNamesDiffer(i, j);
  }

  lemma {:induction false} ProfileCompliant(profiles: seq<Profile>, m: Policy, e: Event)
    requires Covers(m, profiles) && FromSome(profiles, e) && e.etype == LoginSuccess
    ensures Compliant(m, e)
  {
    var i: nat :| i < |profiles| && FromProfile(e, i, profiles[i]);
  }

  /** The background alone raises no alert of any rule, as long as the threshold exceeds what the slots can hold. */
  lemma {:induction false} BackgroundSilent(profiles: seq<Profile>, events: seq<Event>, m: Policy, p: Params)
    requires Accepted(p) && Benign(profiles, events) && Covers(m, profiles)
    requires MostFailures(p.w1) < p.t1
    ensures Findings(events, m, p) == {}
  {
    forall e | e in events && e.etype.LoginSuccess? ensures Count(FailureObs(events), Str(e.account), e.sec - p.w1, e.sec) < p.t1 {
      FewFailures(profiles, events, e, p.w1);
    }
    QuietB1(events, m, p);
    forall e | e in events ensures !FiresB2(events, p, e) { NoSpray(profiles, events, p, e); }
    AboutAlertsOf(events, m, p, B2);
    forall x, y | x in events && y in events && x.account == y.account ensures x.host == y.host {
      assert FromSome(profiles, x) && FromSome(profiles, y);
      OneHome(profiles, x, y);
    }
    QuietB3(events, m, p);
    forall e | e in events && e.etype.LoginSuccess? ensures Compliant(m, e) {
      assert FromSome(profiles, e);
      ProfileCompliant(profiles, m, e);
    }
    QuietPolicy(events, m, p);
  }

  // ------------------------------------------------------------------ generating

  /** Up to two failures before a login. */
  method DrawFails() returns (fails: seq<(int, nat)>)
    ensures |fails| <= 2 && forall f | f in fails :: 5 <= f.0 < 55 && f.1 < 1000
  {
    var k := RandInt(0, 2);
    fails := [];
    for i := 0 to k.value
      invariant |fails| == i && forall f | f in fails :: 5 <= f.0 < 55 && f.1 < 1000
    {
      var sec := RandInt(5, 54);
      var ms := RandInt(0, 999);
      fails := fails + [(sec.value, ms.value)];
    }
  }

  /** One account's day: a Poisson number of logins, capped, in distinct slots. */
  method DrawLogins(q: Profile) returns (logins: seq<Login>)
    ensures ValidLogins(q, logins)
  {
    assert 0 <= 0;
    var poisson: int :| 0 <= poisson;
    var m := if poisson < SLOTS_PER_DAY then poisson else SLOTS_PER_DAY;
    if !q.service && m > AFTER_HUMAN_SLOTS - FIRST_HUMAN_SLOT { m := AFTER_HUMAN_SLOTS - FIRST_HUMAN_SLOT; }
    var slots := ChooseSlots(q.service, m);
    logins := [];
    for i := 0 to |slots|
      invariant |logins| == i && forall j | 0 <= j < i :: logins[j].slot == slots[j] && ValidLogin(q, logins[j])
    {
      var sec := RandInt(60, 299);
      var ms := RandInt(0, 999);
      var fails := DrawFails();
      assert slots[i] in slots;
      logins := logins + [Login(slots[i], sec.value, ms.value, fails)];
    }
  }

  method DrawDay(profiles: seq<Profile>) returns (day: seq<seq<Login>>)
    ensures ValidDay(profiles, day)
  {
    day := [];
    for i := 0 to |profiles|
      invariant |day| == i && forall j | 0 <= j < i :: ValidLogins(profiles[j], day[j])
    {
      var logins := DrawLogins(profiles[i]);
      day := day + [logins];
    }
  }

  lemma {:induction false} PartsNext(day: seq<seq<Login>>, from: nat, to: nat)
    requires from < to <= |day| && from % ACCOUNT_BLOCK == 0 && to <= from + ACCOUNT_BLOCK
    ensures Parts(day, to) == Parts(day, from) + BlockLogins(day, from, to) + BlockFails(day, from, to)
  {
    assert (to - 1) / ACCOUNT_BLOCK * ACCOUNT_BLOCK == from;
  }

  /** A block's part lists. */
  method BlockParts(day: seq<seq<Login>>, from: nat, to: nat) returns (logins: seq<Draft>, fails: seq<Draft>)
    requires from <= to <= |day|
    ensures logins == BlockLogins(day, from, to) && fails == BlockFails(day, from, to)
  {
    logins, fails := [], [];
    for i := from to to
      invariant logins == BlockLogins(day, from, i) && fails == BlockFails(day, from, i)
    {
      logins := logins + LoginDrafts(i, day[i]);
      fails := fails + FailDrafts(i, day[i]);
    }
  }

  /** Where the block that starts at `from` ends. */
  function BlockEnd(from: nat, n: nat): (to: nat)
    requires from < n
    ensures from < to <= n && to <= from + ACCOUNT_BLOCK
    ensures from % ACCOUNT_BLOCK == 0 && to < n ==> to % ACCOUNT_BLOCK == 0
  {
    if from + ACCOUNT_BLOCK < n then from + ACCOUNT_BLOCK else n
  }

  method CollectParts(day: seq<seq<Login>>) returns (parts: seq<Draft>)
    ensures parts == Parts(day, |day|)
  {
    parts := [];
    var blockStart := 0;
    while blockStart < |day|
      invariant blockStart <= |day| && (blockStart < |day| ==> blockStart % ACCOUNT_BLOCK == 0)
      invariant parts == Parts(day, blockStart)
    {
      var next := BlockEnd(blockStart, |day|);
      var logins, fails := BlockParts(day, blockStart, next);
      PartsNext(day, blockStart, next);
      parts := parts + logins + fails;
      blockStart := next;
    }
  }

  lemma {:induction false} AssembleNext(drafts: seq<Draft>, profiles: seq<Profile>, epoch: int, counter: nat, i: nat)
    requires Indexes(drafts, |profiles|) && i < |drafts|
    ensures drafts[i].acct < |profiles|
    ensures Assemble(drafts[..i + 1], profiles, epoch, counter)
            == Assemble(drafts[..i], profiles, epoch, counter) + [EventOf(drafts[i], profiles[drafts[i].acct], epoch, counter + i)]
  {
    assert drafts[i] in drafts;
    assert drafts[..i + 1][..i] == drafts[..i];
  }

  method AssembleTable(drafts: seq<Draft>, profiles: seq<Profile>, epoch: int, counter: nat) returns (table: seq<Event>)
    requires Indexes(drafts, |profiles|)
    ensures table == Assemble(drafts, profiles, epoch, counter)
  {
    table := [];
    for i := 0 to |drafts|
      invariant table == Assemble(drafts[..i], profiles, epoch, counter)
    {
      AssembleNext(drafts, profiles, epoch, counter, i);
      table := table + [EventOf(drafts[i], profiles[drafts[i].acct], epoch, counter + i)];
    }
    assert drafts[..|drafts|] == drafts;
  }

  /** `generate_day`: a table and the next event number. */
  method GenerateDay(profiles: seq<Profile>, epoch: int, counterStart: nat) returns (table: seq<Event>, next: nat, ghost day: seq<seq<Login>>)
    ensures ValidDay(profiles, day) && table == DayTable(profiles, day, epoch, counterStart)
    ensures next == counterStart + |table|
  {
    var drawn := DrawDay(profiles);
    day := drawn;
    var parts := CollectParts(drawn);
    DayPlaced(profiles, drawn);
    var sorted := Sort(parts, DraftKey);
    table := AssembleTable(sorted, profiles, epoch, counterStart);
    next := counterStart + |table|;
  }

  lemma {:induction false} AllDaysSnoc(profiles: seq<Profile>, start: int, days: seq<seq<seq<Login>>>, day: seq<seq<Login>>)
    requires ValidDays(profiles, days) && ValidDay(profiles, day)
    ensures ValidDays(profiles, days + [day])
    ensures AllDays(profiles, start, days + [day])
            == AllDays(profiles, start, days)
               + DayTable(profiles, day, DayStart(start, |days|), |AllDays(profiles, start, days)|)
  {
    assert (days + [day])[..|days|] == days;
  }

  /** The day loop of `build`. */
  method GenerateBackground(profiles: seq<Profile>, start: int, count: nat)
    returns (events: seq<Event>, ghost days: seq<seq<seq<Login>>>)
    ensures |days| == count && ValidDays(profiles, days) && events == AllDays(profiles, start, days)
  {
    events, days := [], [];
    var counter := 0;
    for i := 0 to count
      invariant |days| == i && ValidDays(profiles, days)
      invariant events == AllDays(profiles, start, days) && counter == |events|
    {
      ghost var day;
      var table;
      table, counter, day := GenerateDay(profiles, DayStart(start, i), counter);
      AllDaysSnoc(profiles, start, days, day);
      events := events + table;
      days := days + [day];
    }
  }
}
