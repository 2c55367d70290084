/** Assembling a labelled dataset and cross-checking it (scripts/datagen/generate.py): for every random choice the
    verification passes. */
module Generate {
  import opened Ordering
  import opened Detection
  import opened RefDetect
  import opened IncidentShapes
  import opened Labels
  import opened Random
  import opened Incidents
  import Background

  // ------------------------------------------------------------------ `status_for`

  predicate Concerns(a: Alert, l: Label, status: Status) {
    a.behaviour == l.behaviour && a.eventId in l.eventIds && a.status == status
  }

  /** The event of the first alert about the label's events with the given status. */
  function FirstWith(alerts: seq<Alert>, l: Label, status: Status): Option<string> {
    if alerts == [] then None
    else
      var earlier := FirstWith(alerts[..|alerts| - 1], l, status);
      var a := alerts[|alerts| - 1];
      if earlier.Some? then earlier else if Concerns(a, l, status) then Some(a.eventId) else None
  }

  /** The alerts reduced to the label's incident: an alert outranks an insufficient context. */
  function Reduced(l: Label, alerts: seq<Alert>): (Status, Option<string>) {
    if FirstWith(alerts, l, Alerting).Some? then (Alerting, FirstWith(alerts, l, Alerting))
    else if FirstWith(alerts, l, Insufficient).Some? then (Insufficient, FirstWith(alerts, l, Insufficient))
    else (NoAlert, None)
  }

  lemma {:induction false} FirstWithNext(alerts: seq<Alert>, i: nat, l: Label, status: Status)
    requires i < |alerts|
    ensures FirstWith(alerts[..i + 1], l, status) ==
            if FirstWith(alerts[..i], l, status).Some? then FirstWith(alerts[..i], l, status)
            else if Concerns(alerts[i], l, status) then Some(alerts[i].eventId) else None
  {
    assert alerts[..i + 1][..i] == alerts[..i];
  }

  method StatusFor(l: Label, alerts: seq<Alert>) returns (status: Status, trigger: Option<string>)
    ensures (status, trigger) == Reduced(l, alerts)
  {
    var hit: Option<string>, insufficient: Option<string> := None, None;
    for i := 0 to |alerts|
      invariant hit == FirstWith(alerts[..i], l, Alerting) && insufficient == FirstWith(alerts[..i], l, Insufficient)
    {
      FirstWithNext(alerts, i, l, Alerting);
      FirstWithNext(alerts, i, l, Insufficient);
      var a := alerts[i];
      if a.behaviour == l.behaviour && a.eventId in l.eventIds {
        if hit.None? && a.status == Alerting { hit := Some(a.eventId); }
        if insufficient.None? && a.status == Insufficient { insufficient := Some(a.eventId); }
      }
    }
    assert alerts[..|alerts|] == alerts;
    if hit.Some? { return Alerting, hit; }
    if insufficient.Some? { return Insufficient, insufficient; }
    return NoAlert, None;
  }

  // ------------------------------------------------------------------ `verify`

  const VERIFY_ROW_LIMIT: int := 3_000_000

  datatype Report = Skipped(rows: nat) | Checked(rows: nat, mismatches: nat, unexpected: nat, missing: nat, passed: bool)

  /** The label's status or trigger is not what the detector says. */
  predicate Mismatched(l: Label, alerts: seq<Alert>) {
    Reduced(l, alerts).0 != l.expected || (l.trigger.Some? && Reduced(l, alerts).1 != l.trigger)
  }

  function Mismatches(labels: seq<Label>, alerts: seq<Alert>): nat {
    if labels == [] then 0
    else Mismatches(labels[..|labels| - 1], alerts) + if Mismatched(labels[|labels| - 1], alerts) then 1 else 0
  }

  type Pair = (Behaviour, Option<string>)

  function ExpectedPairs(labels: seq<Label>): set<Pair> {
    set l | l in labels && l.expected != NoAlert :: (l.behaviour, l.trigger)
  }

  function ActualPairs(alerts: set<Alert>): set<Pair> {
    set a | a in alerts :: (a.behaviour, Some(a.eventId))
  }

  /** What `verify` reports when the detector returns `alerts`. */
  ghost predicate Describes(r: Report, rows: nat, labels: seq<Label>, alerts: seq<Alert>) {
    var expected, actual := ExpectedPairs(labels), ActualPairs(Members(alerts));
    && r.Checked? && r.rows == rows
    && r.mismatches == Mismatches(labels, alerts)
    && r.unexpected == |actual - expected| && r.missing == |expected - actual|
    && (r.passed <==> r.mismatches == 0 && actual == expected)
  }

  ghost predicate Verified(r: Report, events: seq<Event>, records: seq<PolicyRow>, labels: seq<Label>, p: Params) {
    exists alerts :: Members(alerts) == Findings(events, PolicyMap(records), p) && Describes(r, |events|, labels, alerts)
  }

  lemma {:induction false} MismatchesNext(labels: seq<Label>, i: nat, alerts: seq<Alert>)
    requires i < |labels|
    ensures Mismatches(labels[..i + 1], alerts) == Mismatches(labels[..i], alerts) + if Mismatched(labels[i], alerts) then 1 else 0
  {
    assert labels[..i + 1][..i] == labels[..i];
  }

  method CountMismatches(labels: seq<Label>, alerts: seq<Alert>) returns (n: nat)
    ensures n == Mismatches(labels, alerts)
  {
    n := 0;
    for i := 0 to |labels|
      invariant n == Mismatches(labels[..i], alerts)
    {
      MismatchesNext(labels, i, alerts);
      var l := labels[i];
      var status, trigger := StatusFor(l, alerts);
      var wrongTrigger := l.trigger.Some? && trigger != l.trigger;
      if status != l.expected || wrongTrigger { n := n + 1; }
    }
    assert labels[..|labels|] == labels;
  }

  method Verify(events: seq<Event>, records: seq<PolicyRow>, labels: seq<Label>, p: Params) returns (r: Report)
    requires 0 <= p.w2 && 0 <= p.w3
    ensures r.Skipped? <==> |events| > VERIFY_ROW_LIMIT
    ensures r.Checked? ==> Verified(r, events, records, labels, p)
  {
    if |events| > VERIFY_ROW_LIMIT { return Skipped(|events|); }
    var alerts := Detect(events, records, p);
    var mismatches := CountMismatches(labels, alerts);
    var expected := set l | l in labels && l.expected != NoAlert :: (l.behaviour, l.trigger);
    var actual := set a | a in alerts :: (a.behaviour, Some(a.eventId));
    assert actual == ActualPairs(Members(alerts));
    r := Checked(|events|, mismatches, |actual - expected|, |expected - actual|, mismatches == 0 && actual == expected);
    assert Describes(r, |events|, labels, alerts);
  }

  // ------------------------------------------------------------------ exact labels pass

  lemma {:induction false} FirstWithIs(alerts: seq<Alert>, l: Label, status: Status)
    ensures FirstWith(alerts, l, status).Some? <==> exists a :: a in alerts && Concerns(a, l, status)
    ensures FirstWith(alerts, l, status).Some? ==>
              exists a :: a in alerts && Concerns(a, l, status) && a.eventId == FirstWith(alerts, l, status).value
  {
    if alerts != [] {
      var rest, last := alerts[..|alerts| - 1], alerts[|alerts| - 1];
      FirstWithIs(rest, l, status);
      assert forall a :: a in alerts <==> a in rest || a == last;
    }
  }

  lemma {:induction false} SaidAbout(alerts: seq<Alert>, l: Label, a: Alert, status: Status)
    requires a in alerts && Concerns(a, l, status)
    ensures (l.behaviour, a.eventId, status) in Mine(l, Spoken(Members(alerts)))
  {
    assert a in Members(alerts) && FindingOf(a) in Spoken(Members(alerts));
  }

  /** A right label is reduced to exactly its expected status and trigger. */
  lemma {:induction false} RightLabelMatches(l: Label, alerts: seq<Alert>)
    requires LabelRight(l, Spoken(Members(alerts))) && (l.expected != NoAlert ==> l.trigger.Some?)
    ensures !Mismatched(l, alerts)
  {
    var mine := Mine(l, Spoken(Members(alerts)));
    FirstWithIs(alerts, l, Alerting);
    FirstWithIs(alerts, l, Insufficient);
    forall a, st: Status | a in alerts && Concerns(a, l, st)
      ensures st == l.expected && l.expected != NoAlert && Some(a.eventId) == l.trigger
    {
      SaidAbout(alerts, l, a, st);
    }
    if l.expected != NoAlert {
      assert (l.behaviour, l.trigger.value, l.expected) in mine;
      var a :| a in Members(alerts) && FindingOf(a) == (l.behaviour, l.trigger.value, l.expected);
      assert Concerns(a, l, l.expected);
    }
  }

  lemma {:induction false} NoMismatches(labels: seq<Label>, alerts: seq<Alert>)
    requires forall l | l in labels :: !Mismatched(l, alerts)
    ensures Mismatches(labels, alerts) == 0
  {
    if labels != [] { NoMismatches(labels[..|labels| - 1], alerts); }
  }

  lemma {:induction false} PairsAgree(labels: seq<Label>, alerts: set<Alert>)
    requires Spoken(alerts) == Expected(labels)
    requires forall l | l in labels && l.expected != NoAlert :: l.trigger.Some?
    ensures ActualPairs(alerts) == ExpectedPairs(labels)
  {
    forall q | q in ActualPairs(alerts) ensures q in ExpectedPairs(labels) {
      var a :| a in alerts && q == (a.behaviour, Some(a.eventId));
      assert FindingOf(a) in Expected(labels);
      var l :| l in labels && l.expected != NoAlert && l.trigger.Some? && FindingOf(a) == (l.behaviour, l.trigger.value, l.expected);
      assert l.trigger == Some(a.eventId);
    }
    forall q | q in ExpectedPairs(labels) ensures q in ActualPairs(alerts) {
      var l :| l in labels && l.expected != NoAlert && q == (l.behaviour, l.trigger);
      assert (l.behaviour, l.trigger.value, l.expected) in Spoken(alerts);
      var a :| a in alerts && FindingOf(a) == (l.behaviour, l.trigger.value, l.expected);
      assert q == (a.behaviour, Some(a.eventId));
    }
  }

  /** When the labels are exact about the log, verification passes, whatever order the detector reports in. */
  lemma {:induction false} ExactPasses(r: Report, events: seq<Event>, records: seq<PolicyRow>, labels: seq<Label>, p: Params)
    requires Verified(r, events, records, labels, p)
    requires Exact(Spoken(Findings(events, PolicyMap(records), p)), labels)
    ensures r.passed && r.mismatches == 0 && r.unexpected == 0 && r.missing == 0
  {
    var alerts :| Members(alerts) == Findings(events, PolicyMap(records), p) && Describes(r, |events|, labels, alerts);
    AllMatch(labels, alerts);
    PairsAgree(labels, Members(alerts));
    NoMismatches(labels, alerts);
    assert ActualPairs(Members(alerts)) - ExpectedPairs(labels) == {} && ExpectedPairs(labels) - ActualPairs(Members(alerts)) == {};
  }

  lemma {:induction false} AllMatch(labels: seq<Label>, alerts: seq<Alert>)
    requires Exact(Spoken(Members(alerts)), labels)
    ensures forall l | l in labels :: !Mismatched(l, alerts)
    ensures forall l | l in labels && l.expected != NoAlert :: l.trigger.Some?
  {
    forall l | l in labels ensures !Mismatched(l, alerts) { RightLabelMatches(l, alerts); }
  }

  /** A passing report means no rule speaks about any event but the labelled ones, and each labelled one is spoken about. */
  lemma {:induction false} PassMeans(r: Report, events: seq<Event>, records: seq<PolicyRow>, labels: seq<Label>, p: Params)
    requires Verified(r, events, records, labels, p) && r.passed
    ensures ActualPairs(Findings(events, PolicyMap(records), p)) == ExpectedPairs(labels)
  {
    var alerts :| Members(alerts) == Findings(events, PolicyMap(records), p) && Describes(r, |events|, labels, alerts);
  }

  // ------------------------------------------------------------------ `build`

  datatype Dataset = Dataset(events: seq<Event>, policy: seq<PolicyRow>, labels: seq<Label>, report: Report)

  function AccountsIn(events: seq<Event>, rows: seq<PolicyRow>): set<string> {
    (set e | e in events :: e.account) + (set r | r in rows :: r.account)
  }

  function HostsIn(events: seq<Event>): set<string> { set e | e in events :: e.host }

  /** The background as a part of the log that carries no label. */
  ghost function BackgroundPiece(events: seq<Event>, rows: seq<PolicyRow>): Snapshot {
    Snapshot(events, [], rows, IdsOf(events), AccountsIn(events, rows), HostsIn(events))
  }

  predicate AllBegin(names: set<string>, c: char) { forall x | x in names :: FirstLetter(x, c) }

  lemma {:induction false} BackgroundLetters(profiles: seq<Background.Profile>, events: seq<Event>)
    requires forall e | e in events :: Background.FromSome(profiles, e)
    ensures var piece := BackgroundPiece(events, Background.PolicyRecords(profiles));
            AllBegin(piece.ids, 'b') && AllBegin(piece.accounts, 'u') && AllBegin(piece.hosts, 'h')
  {
    Background.RecordAccounts(profiles, Background.AccountName);
    forall e | e in events ensures FirstLetter(e.id, 'b') && FirstLetter(e.account, 'u') && FirstLetter(e.host, 'h') {
      assert Background.FromSome(profiles, e);
    }
  }

  lemma {:induction false} BackgroundSound(profiles: seq<Background.Profile>, events: seq<Event>, p: Params)
    requires Accepted(p) && Background.Benign(profiles, events) && Background.MostFailures(p.w1) < p.t1
    ensures SoundState(p, BackgroundPiece(events, Background.PolicyRecords(profiles)))
  {
    var rows := Background.PolicyRecords(profiles);
    Background.RecordsCover(profiles);
    Background.BackgroundSilent(profiles, events, PolicyMap(rows), p);
    SilentSound(p, events, rows);
  }

  lemma {:induction false} SilentSound(p: Params, events: seq<Event>, rows: seq<PolicyRow>)
    requires Findings(events, PolicyMap(rows), p) == {}
    ensures SoundState(p, BackgroundPiece(events, rows))
  {
    assert Spoken({}) == {};
    assert Expected([]) == {};
  }

  /** Background and incidents together: the labels are exact about the whole log. */
  lemma {:induction false} WholeLogExact(p: Params, profiles: seq<Background.Profile>, events: seq<Event>, s: Snapshot)
    requires Accepted(p) && Background.Benign(profiles, events) && Background.MostFailures(p.w1) < p.t1
    requires SoundState(p, s) && AllBegin(s.ids, 'e') && AllBegin(s.accounts, 'i') && AllBegin(s.hosts, 'i')
    ensures Exact(Spoken(Findings(events + s.events, PolicyMap(Background.PolicyRecords(profiles) + s.policy), p)), s.labels)
  {
    var piece := BackgroundPiece(events, Background.PolicyRecords(profiles));
    BackgroundSound(profiles, events, p);
    BackgroundLetters(profiles, events);
    LettersApart(piece.ids, 'b', s.ids, 'e');
    LettersApart(piece.accounts, 'u', s.accounts, 'i');
    LettersApart(piece.hosts, 'h', s.hosts, 'i');
    var whole := Snapshot(piece.events + s.events, piece.labels + s.labels, piece.policy + s.policy,
                          piece.ids + s.ids, piece.accounts + s.accounts, piece.hosts + s.hosts);
    Extended(p, piece, s, whole);
    StillSound(p, piece, whole);
    assert [] + s.labels == s.labels;
  }

  lemma {:induction false} LettersApart(x: set<string>, c: char, y: set<string>, d: char)
    requires AllBegin(x, c) && AllBegin(y, d) && c != d
    ensures x !! y
  {}

  /** The stored files, in whatever order, have exact labels, so that a check of them passes. */
  lemma {:induction false} StoredExact(p: Params, profiles: seq<Background.Profile>, events: seq<Event>, s: Snapshot, stored: seq<Event>, r: Report)
    requires Accepted(p) && Background.Benign(profiles, events) && Background.MostFailures(p.w1) < p.t1
    requires SoundState(p, s) && AllBegin(s.ids, 'e') && AllBegin(s.accounts, 'i') && AllBegin(s.hosts, 'i')
    requires multiset(stored) == multiset(events + s.events)
    requires r.Checked? ==> Verified(r, stored, Background.PolicyRecords(profiles) + s.policy, s.labels, p)
    ensures Exact(Spoken(Findings(stored, PolicyMap(Background.PolicyRecords(profiles) + s.policy), p)), s.labels)
    ensures r.Checked? ==> r.passed
  {
    var policy := Background.PolicyRecords(profiles) + s.policy;
    WholeLogExact(p, profiles, events, s);
    FindingsPermuted(stored, events + s.events, PolicyMap(policy), p);
    if r.Checked? { ExactPasses(r, stored, policy, s.labels, p); }
  }

  /** `build`: background, incidents, and the cross-check of the stored files, which may be read back in any order. */
  method Build(p: Params, profiles: seq<Background.Profile>, start: int, days: nat, perBehaviour: nat) returns (r: Outcome<Dataset>)
    requires Accepted(p) && Background.Midnight(start)
    ensures r.Success? ==> PlanOf(r.value.labels) == InjectPlan(BEHAVIOURS, perBehaviour)
    ensures r.Success? ==> (r.value.report.Skipped? <==> |r.value.events| > VERIFY_ROW_LIMIT)
    ensures r.Success? && Background.MostFailures(p.w1) < p.t1 ==>
              Exact(Spoken(Findings(r.value.events, PolicyMap(r.value.policy), p)), r.value.labels)
    ensures r.Success? && r.value.report.Checked? && Background.MostFailures(p.w1) < p.t1 ==> r.value.report.passed
    ensures NoDrawRaises(p, start, Background.DayStart(start, days), perBehaviour) ==> r.Success?
    ensures r.Success? ==> SomeDrawWorks(p, start, Background.DayStart(start, days), perBehaviour)
  {
    var background, drawn := Background.GenerateBackground(profiles, start, days);
    Background.BackgroundIsBenign(profiles, start, drawn);
    var ctx, done := RunIncidents(p, start, Background.DayStart(start, days), perBehaviour);
    if done.ValueError? { return ValueError; }
    var policy := Background.PolicyRecords(profiles) + ctx.policy;
    var stored := Shuffle(background + ctx.events);
    var report := Verify(stored, policy, ctx.labels, p);
    if Background.MostFailures(p.w1) < p.t1 { StoredExact(p, profiles, background, ctx.State(), stored, report); }
    return Success(Dataset(stored, policy, ctx.labels, report));
  }

  /** A fresh context, injected into. */
  method RunIncidents(p: Params, start: int, end: int, perBehaviour: nat) returns (ctx: Context, done: Outcome<()>)
    requires Accepted(p)
    ensures fresh(ctx) && (NoDrawRaises(p, start, end, perBehaviour) ==> done.Success?)
    ensures done.Success? ==> SomeDrawWorks(p, start, end, perBehaviour)
    ensures done.Success? ==> SoundState(p, ctx.State()) && PlanOf(ctx.labels) == InjectPlan(BEHAVIOURS, perBehaviour)
    ensures done.Success? ==> AllBegin(ctx.usedIds, 'e') && AllBegin(ctx.usedAccounts, 'i') && AllBegin(ctx.usedHosts, 'i')
  {
    ctx := new Context(p, start, end);
    ghost var draws;
    done, draws := ctx.Inject(perBehaviour);
    RoundsDecided(perBehaviour, p, start, end, draws, done.Success?);
    assert [] + InjectPlan(BEHAVIOURS, perBehaviour) == InjectPlan(BEHAVIOURS, perBehaviour);
  }
}
