/** The registry of supported behaviours (sentinelforge/behaviours.py). */
module Behaviours {
  import opened Ordering

  datatype Semantics = EventCount | DistinctAccounts | DistinctHosts

  datatype Recipe = SequenceThenTrigger | DistinctCountWithinWindow | PolicyCompare

  /** The five supported behaviours. */
  datatype Id = RepeatedFailure | Spray | MultiHost | MethodViolation | MfaMissing

  const ALL: seq<Id> := [RepeatedFailure, Spray, MultiHost, MethodViolation, MfaMissing]

  function IdText(id: Id): string {
    match id
    case RepeatedFailure => "repeated-failed-login-then-success"
    case Spray => "password-spray-across-accounts"
    case MultiHost => "multi-host-authentication"
    case MethodViolation => "auth-method-policy-violation"
    case MfaMissing => "mfa-missing-on-required-account"
  }

  /** `BEHAVIOURS.get(canonical_id(s))`: current ids and the three legacy ids. */
  function Find(s: string): Option<Id> {
    if s == "repeated-failed-login-then-success" then Some(RepeatedFailure)
    else if s == "password-spray-across-accounts" then Some(Spray)
    else if s == "multi-host-authentication" || s == "concurrent-sessions-different-hosts" then Some(MultiHost)
    else if s == "auth-method-policy-violation" || s == "service-account-interactive-auth" then Some(MethodViolation)
    else if s == "mfa-missing-on-required-account" || s == "mfa-bypass-on-required-account" then Some(MfaMissing)
    else None
  }

  /** Every registered id finds its own behaviour. */
  lemma {:induction false} FindText(id: Id)
    ensures Find(IdText(id)) == Some(id)
  {
    var s := IdText(id);
    assert |IdText(RepeatedFailure)| == 34 && |IdText(Spray)| == 30 && |IdText(MultiHost)| == 25;
    assert |IdText(MethodViolation)| == 28 && |IdText(MfaMissing)| == 31;
  }

  function RecipeOf(id: Id): Recipe {
    match id
    case RepeatedFailure => SequenceThenTrigger
    case Spray => DistinctCountWithinWindow
    case MultiHost => DistinctCountWithinWindow
    case MethodViolation => PolicyCompare
    case MfaMissing => PolicyCompare
  }

  predicate Windowed(id: Id) { !RecipeOf(id).PolicyCompare? }

  /** What the behaviour counts; nothing for the policy recipes. */
  function Counts(id: Id): (r: Option<Semantics>)
    ensures r.Some? <==> Windowed(id)
  {
    match id
    case RepeatedFailure => Some(EventCount)
    case Spray => Some(DistinctAccounts)
    case MultiHost => Some(DistinctHosts)
    case _ => None
  }

  /** `threshold_aliases.get(key)`. */
  function Alias(id: Id, key: string): Option<Semantics> {
    match id
    case RepeatedFailure => if key == "failureCount" then Some(EventCount) else None
    case Spray => if key == "distinctAccountCount" then Some(DistinctAccounts) else None
    case MultiHost => if key == "successCount" || key == "distinctHostCount" then Some(DistinctHosts) else None
    case _ => None
  }

  /** The first alias that means what the behaviour counts. */
  function AliasKey(id: Id): (key: string)
    ensures Windowed(id) ==> Alias(id, key) == Counts(id)
  {
    match id
    case RepeatedFailure => "failureCount"
    case Spray => "distinctAccountCount"
    case MultiHost => "successCount"
    case _ => ""
  }

  /** The fixed part of a compiled rule. */
  datatype Template = Template(groupingKey: Option<string>, countEventType: Option<string>, triggerEventType: Option<string>,
                               distinctField: Option<string>, filterEventType: Option<string>, logField: Option<string>,
                               policyField: Option<string>, comparisonOp: Option<string>)

  function TemplateOf(id: Id): Template {
    match id
    case RepeatedFailure => Template(Some("account_id"), Some("login_failure"), Some("login_success"), None, None, None, None, None)
    case Spray => Template(Some("source_host"), None, None, Some("account_id"), Some("login_failure"), None, None, None)
    case MultiHost => Template(Some("account_id"), None, None, Some("source_host"), Some("login_success"), None, None, None)
    case MethodViolation => Template(None, None, None, None, Some("login_success"), Some("auth_method"), Some("expected_auth_method"), Some("notEqual"))
    case MfaMissing => Template(None, None, None, None, Some("login_success"), Some("mfa_used"), Some("mfa_required"), Some("falseWhenRequired"))
  }
}
