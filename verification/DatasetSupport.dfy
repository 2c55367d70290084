/** Can a dataset evaluate a rule (`check_dataset` in sentinelforge/validation.py), and which of the rule's conditions a changed
    schema blocks (sentinelforge/service/schema_impact.py). */
module DatasetSupport {
  import opened Behaviours

  /** A field the compiled rule reads or emits. */
  datatype Field = EventId | Timestamp | EventType | AccountId | SourceHost | AuthMethod | MfaUsed
    | PolicyAccountId | PolicyExpectedMethod | PolicyMfaRequired

  predicate IsPolicy(f: Field) { f.PolicyAccountId? || f.PolicyExpectedMethod? || f.PolicyMfaRequired? }

  /** The column's name without its `policy.` prefix. */
  function Bare(f: Field): string {
    match f
    case EventId => "event_id"
    case Timestamp => "timestamp"
    case EventType => "event_type"
    case AccountId => "account_id"
    case SourceHost => "source_host"
    case AuthMethod => "auth_method"
    case MfaUsed => "mfa_used"
    case PolicyAccountId => "account_id"
    case PolicyExpectedMethod => "expected_auth_method"
    case PolicyMfaRequired => "mfa_required"
  }

  function FullName(f: Field): string { if IsPolicy(f) then "policy." + Bare(f) else Bare(f) }

  datatype Expected = TimestampType | StringType | BooleanType

  function ExpectedType(f: Field): Expected {
    if f.Timestamp? then TimestampType else if f.MfaUsed? || f.PolicyMfaRequired? then BooleanType else StringType
  }

  function LowerChar(c: char): char { if 'A' <= c <= 'Z' then c - 'A' + 'a' else c }

  function Lower(s: string): string { seq(|s|, i requires 0 <= i < |s| => LowerChar(s[i])) }

  /** `_type_ok` for a column that exists; a column whose values are all null passes. */
  predicate TypeOk(expected: Expected, actual: string) {
    var a := Lower(actual);
    if a == "null" || a == "void" then true
    else match expected
      case TimestampType => a == "timestamp" || a == "string" || a == "timestamp_ntz" || a == "date-time" || a == "datetime"
      case StringType => a == "string" || a == "str" || a == "varchar" || a == "text"
      case BooleanType => a == "boolean" || a == "bool"
  }

  datatype Profile = Profile(columns: map<string, string>, policyColumns: map<string, string>)

  /** What the caller treats as removed, and what the log schema documents as unreliable. */
  datatype Limits = Limits(unavailable: set<string>, unreliable: set<string>)

  datatype Status = Ok | Missing | WrongType | Unreliable | SimulatedMissing

  datatype Dependency = Dependency(field: Field, status: Status)

  /** Log columns, then policy columns and the join key. */
  function Dependencies(id: Id): seq<Field> {
    match id
    case RepeatedFailure => [EventId, Timestamp, EventType, AccountId]
    case Spray => [EventId, Timestamp, EventType, SourceHost, AccountId]
    case MultiHost => [EventId, Timestamp, EventType, AccountId, SourceHost]
    case MethodViolation => [EventId, Timestamp, EventType, AccountId, AuthMethod, PolicyExpectedMethod, PolicyAccountId]
    case MfaMissing => [EventId, Timestamp, EventType, AccountId, MfaUsed, PolicyMfaRequired, PolicyAccountId]
  }

  function Columns(p: Profile, f: Field): map<string, string> { if IsPolicy(f) then p.policyColumns else p.columns }

  /** The profile provides the field with the right type, and nothing speaks against relying on it. */
  predicate Provides(p: Profile, l: Limits, f: Field) {
    && FullName(f) !in l.unavailable
    && Bare(f) in Columns(p, f) && TypeOk(ExpectedType(f), Columns(p, f)[Bare(f)])
    && (!IsPolicy(f) ==> Bare(f) !in l.unreliable)
  }

  /** The dataset can evaluate the rule. */
  predicate Supports(id: Id, p: Profile, l: Limits) { forall f | f in Dependencies(id) :: Provides(p, l, f) }

  /** The order in which the causes are tested. */
  function StatusOf(p: Profile, l: Limits, f: Field): Status {
    if FullName(f) in l.unavailable || (Bare(f) in l.unavailable && !IsPolicy(f)) then SimulatedMissing
    else if Bare(f) !in Columns(p, f) then Missing
    else if !TypeOk(ExpectedType(f), Columns(p, f)[Bare(f)]) then WrongType
    else if !IsPolicy(f) && Bare(f) in l.unreliable then Unreliable
    else Ok
  }

  function Statuses(fields: seq<Field>, p: Profile, l: Limits): seq<Dependency> {
    if fields == [] then []
    else
      var f := fields[|fields| - 1];
      Statuses(fields[..|fields| - 1], p, l) + [Dependency(f, StatusOf(p, l, f))]
  }

  predicate AllOk(deps: seq<Dependency>) { forall d | d in deps :: d.status == Ok }

  lemma {:induction false} AllOkIff(fields: seq<Field>, p: Profile, l: Limits)
    ensures AllOk(Statuses(fields, p, l)) <==> forall f | f in fields :: Provides(p, l, f)
    ensures forall d | d in Statuses(fields, p, l) :: d.field in fields && d.status == StatusOf(p, l, d.field)
    ensures forall f | f in fields :: Dependency(f, StatusOf(p, l, f)) in Statuses(fields, p, l)
  {
    if fields != [] {
      var rest, last := fields[..|fields| - 1], fields[|fields| - 1];
      AllOkIff(rest, p, l);
      assert forall f :: f in fields <==> f in rest || f == last;
    }
  }

  /** `check_dataset`. */
  method CheckDataset(id: Id, p: Profile, l: Limits) returns (supported: bool, deps: seq<Dependency>)
    ensures supported <==> Supports(id, p, l)
    ensures deps == Statuses(Dependencies(id), p, l)
  {
    var fields := Dependencies(id);
    deps, supported := [], true;
    for i := 0 to |fields|
      invariant deps == Statuses(fields[..i], p, l) && (supported <==> AllOk(deps))
    {
      assert fields[..i + 1][..i] == fields[..i];
      var d := Dependency(fields[i], StatusOf(p, l, fields[i]));
      deps := deps + [d];
      supported := supported && d.status == Ok;
    }
    assert fields[..|fields|] == fields;
    AllOkIff(fields, p, l);
  }

  // ------------------------------------------------------------------ which conditions a schema blocks

  /** A rule's conditions, each with the fields it needs. */
  function ConditionMap(id: Id): seq<seq<Field>> {
    match id
    case RepeatedFailure => [[AccountId], [EventType], [EventType, Timestamp], [EventId]]
    case Spray => [[SourceHost], [AccountId], [EventType], [Timestamp], [EventId]]
    case MultiHost => [[AccountId], [SourceHost], [EventType], [Timestamp], [EventId]]
    case MethodViolation => [[AccountId, PolicyAccountId], [EventType], [AuthMethod, PolicyExpectedMethod], [EventId, Timestamp]]
    case MfaMissing => [[AccountId, PolicyAccountId], [EventType], [MfaUsed, PolicyMfaRequired], [EventId, Timestamp]]
  }

  datatype Impact = Impact(affected: bool, blocked: seq<seq<Field>>, evaluable: seq<seq<Field>>)

  predicate Blocks(fields: seq<Field>, p: Profile, l: Limits) { exists f | f in fields :: !Provides(p, l, f) }

  function BlockedAmong(conditions: seq<seq<Field>>, p: Profile, l: Limits, wanted: bool): seq<seq<Field>> {
    if conditions == [] then []
    else
      var c := conditions[|conditions| - 1];
      BlockedAmong(conditions[..|conditions| - 1], p, l, wanted) + (if Blocks(c, p, l) == wanted then [c] else [])
  }

  lemma {:induction false} InBlocked(conditions: seq<seq<Field>>, p: Profile, l: Limits, wanted: bool, c: seq<Field>)
    ensures c in BlockedAmong(conditions, p, l, wanted) <==> c in conditions && Blocks(c, p, l) == wanted
  {
    if conditions != [] {
      var rest, last := conditions[..|conditions| - 1], conditions[|conditions| - 1];
      InBlocked(rest, p, l, wanted, c);
      assert c in conditions <==> c in rest || c == last;
    }
  }

  /** The conditions cover exactly the rule's dependencies. */
  lemma {:induction false} ConditionsCover(id: Id, f: Field)
    ensures f in Dependencies(id) <==> exists c :: c in ConditionMap(id) && f in c
  {
    var conditions := ConditionMap(id);
    if f in Dependencies(id) {
      assert exists i :: 0 <= i < |conditions| && f in conditions[i] by {
        if f in conditions[0] {} else if f in conditions[1] {} else if f in conditions[2] {} else { assert f in conditions[3] || f in conditions[4]; }
      }
    }
  }

  /** Some field of the condition is among the bad ones. */
  predicate Because(deps: seq<Dependency>, c: seq<Field>) { exists f | f in c :: exists d | d in deps :: d.field == f && d.status != Ok }

  /** The loop over a rule's conditions. */
  method Separate(conditions: seq<seq<Field>>, deps: seq<Dependency>, p: Profile, l: Limits)
    returns (blocked: seq<seq<Field>>, evaluable: seq<seq<Field>>)
    requires forall c | c in conditions :: Because(deps, c) <==> Blocks(c, p, l)
    ensures blocked == BlockedAmong(conditions, p, l, true) && evaluable == BlockedAmong(conditions, p, l, false)
  {
    blocked, evaluable := [], [];
    for i := 0 to |conditions|
      invariant blocked == BlockedAmong(conditions[..i], p, l, true) && evaluable == BlockedAmong(conditions[..i], p, l, false)
    {
      var c := conditions[i];
      assert conditions[..i + 1][..i] == conditions[..i];
      if Because(deps, c) {
        blocked := blocked + [c];
      } else {
        evaluable := evaluable + [c];
      }
    }
    assert conditions[..|conditions|] == conditions;
  }

  /** `analyse_rule`: the rule is affected exactly when one of its conditions cannot be evaluated. */
  method AnalyseRule(id: Id, p: Profile, l: Limits) returns (a: Impact)
    ensures a.affected <==> !Supports(id, p, l)
    ensures a.affected <==> a.blocked != []
    ensures a.blocked == BlockedAmong(ConditionMap(id), p, l, true)
    ensures forall c :: c in a.blocked <==> c in ConditionMap(id) && Blocks(c, p, l)
    ensures forall c :: c in a.evaluable <==> c in ConditionMap(id) && !Blocks(c, p, l)
  {
    var supported, deps := CheckDataset(id, p, l);
    AllOkIff(Dependencies(id), p, l);
    forall c | c in ConditionMap(id) ensures Because(deps, c) <==> Blocks(c, p, l) { WhyBlocked(id, deps, p, l, c); }
    var blocked, evaluable := Separate(ConditionMap(id), deps, p, l);
    AboutBlocked(id, p, l);
    a := Impact(exists d | d in deps :: d.status != Ok, blocked, evaluable);
  }

  /** What the two lists hold, and when the first is empty. */
  lemma {:induction false} AboutBlocked(id: Id, p: Profile, l: Limits)
    ensures forall c :: c in BlockedAmong(ConditionMap(id), p, l, true) <==> c in ConditionMap(id) && Blocks(c, p, l)
    ensures forall c :: c in BlockedAmong(ConditionMap(id), p, l, false) <==> c in ConditionMap(id) && !Blocks(c, p, l)
    ensures Supports(id, p, l) <==> BlockedAmong(ConditionMap(id), p, l, true) == []
  {
    var blocked, evaluable := BlockedAmong(ConditionMap(id), p, l, true), BlockedAmong(ConditionMap(id), p, l, false);
    forall c ensures c in blocked <==> c in ConditionMap(id) && Blocks(c, p, l) { InBlocked(ConditionMap(id), p, l, true, c); }
    forall c ensures c in evaluable <==> c in ConditionMap(id) && !Blocks(c, p, l) { InBlocked(ConditionMap(id), p, l, false, c); }
    AffectedIff(id, p, l, blocked);
  }

  lemma {:induction false} WhyBlocked(id: Id, deps: seq<Dependency>, p: Profile, l: Limits, c: seq<Field>)
    requires deps == Statuses(Dependencies(id), p, l) && c in ConditionMap(id)
    ensures Because(deps, c) <==> Blocks(c, p, l)
  {
    AllOkIff(Dependencies(id), p, l);
    forall f | f in c ensures (exists d | d in deps :: d.field == f && d.status != Ok) <==> !Provides(p, l, f) {
      ConditionsCover(id, f);
      assert Dependency(f, StatusOf(p, l, f)) in deps;
    }
  }

  lemma {:induction false} AffectedIff(id: Id, p: Profile, l: Limits, blocked: seq<seq<Field>>)
    requires forall c :: c in blocked <==> c in ConditionMap(id) && Blocks(c, p, l)
    ensures Supports(id, p, l) <==> blocked == []
  {
    if !Supports(id, p, l) {
      var f :| f in Dependencies(id) && !Provides(p, l, f);
      ConditionsCover(id, f);
      var c :| c in ConditionMap(id) && f in c;
      assert c in blocked;
    }
    if blocked != [] {
      var c := blocked[0];
      assert c in blocked;
      var f :| f in c && !Provides(p, l, f);
      ConditionsCover(id, f);
    }
  }
}
