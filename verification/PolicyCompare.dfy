/** The PolicyCompare recipe of the reference engine: an as-of join of each matching event with a policy
    table whose rows may carry the instant they take effect. */
module PolicyCompare {
  import opened Ordering
  import opened Detection
  import opened RefEngine
  import Timestamps

  datatype PolicyRule = PolicyRule(behaviour: string, logField: string, policyField: string, filterType: string, notEqual: bool)

  datatype Status = Alerting | NoAlert | InsufficientContext

  datatype Why = NoPolicyRecord | PolicyConflict | PolicyValueNull | LogValueNull | PolicyViolated | Compliant

  /** The comparison's outcome: status, reason, expected value and policy version. */
  datatype Verdict = Verdict(status: Status, why: Why, expected: Value, version: Value)

  datatype PolicyResult = PolicyResult(all: seq<Result>, alerts: seq<Result>, quarantine: seq<(Value, string)>, stats: Stats)

  datatype Result = Result(behaviour: string, groupKey: Value, trigger: Value, detectedAt: Value, observed: Value, verdict: Verdict)

  // ------------------------------------------------------------------ which rows are in force

  /** A null `effective_from` has always been in force. */
  const ALWAYS: int := -0x8000_0000_0000_0000

  function EffectiveFrom(r: Row): Option<int> {
    if Get(r, "effective_from") == Null then Some(ALWAYS) else ParseMicros(Get(r, "effective_from"))
  }

  predicate Versioned(policy: set<Row>) { exists r | r in policy :: "effective_from" in r }

  function RowsOf(policy: set<Row>, account: Value): set<Row> {
    set r | r in policy && Get(r, "account_id") == account
  }

  /** The row has taken effect by the instant `at`. */
  predicate Started(r: Row, at: int) { EffectiveFrom(r).Some? && EffectiveFrom(r).value <= at }

  /** Of one account's rows: all of them, or in a versioned table those with the latest start at or before `at`. */
  function Latest(mine: set<Row>, at: int, versioned: bool): set<Row> {
    if !versioned then mine
    else set r | r in mine && Started(r, at) && forall q | q in mine && Started(q, at) :: EffectiveFrom(q).value <= EffectiveFrom(r).value
  }

  function InForce(policy: set<Row>, account: Value, at: int): set<Row> {
    Latest(RowsOf(policy, account), at, Versioned(policy))
  }

  function ValuesIn(rows: set<Row>, column: string): set<Value> { set r | r in rows :: Get(r, column) }

  /** `str(v)`. */
  function PythonText(v: Value): string { if v.Bool? then (if v.b then "True" else "False") else TextOf(v) }

  /** The version all rows name, when they name exactly one. */
  ghost function VersionOf(rows: set<Row>): Value {
    var named := ValuesIn(rows, "policy_version") - {Null};
    if |named| == 1 then var v :| v in named; Str(PythonText(v)) else Null
  }

  predicate Violates(c: PolicyRule, observed: Value, expected: Value) {
    if c.notEqual then observed != expected else expected == Bool(true) && observed == Bool(false)
  }

  function Compare(c: PolicyRule, observed: Value, expected: Value, version: Value): Verdict {
    if observed == Null then Verdict(InsufficientContext, LogValueNull, expected, version)
    else if Violates(c, observed, expected) then Verdict(Alerting, PolicyViolated, expected, version)
    else Verdict(NoAlert, Compliant, expected, version)
  }

  /** The documented table: what the rows in force and the observed value mean together. */
  ghost function Judge(c: PolicyRule, rows: set<Row>, observed: Value): Verdict {
    var vals := ValuesIn(rows, c.policyField);
    if rows == {} then Verdict(InsufficientContext, NoPolicyRecord, Null, Null)
    else if |vals| > 1 then Verdict(InsufficientContext, PolicyConflict, Null, Null)
    else if vals == {Null} then Verdict(InsufficientContext, PolicyValueNull, Null, VersionOf(rows))
    else
      assert vals != {} by { var r :| r in rows; assert Get(r, c.policyField) in vals; }
      var expected :| expected in vals;
      Compare(c, observed, expected, VersionOf(rows))
  }

  ghost function ResultFor(c: PolicyRule, policy: set<Row>, e: Clean): Result {
    var account, observed := Get(e.row, "account_id"), Get(e.row, c.logField);
    Result(c.behaviour, account, Id(e), Get(e.row, "timestamp"), observed, Judge(c, InForce(policy, account, e.micros), observed))
  }

  ghost function ResultsFor(c: PolicyRule, policy: set<Row>, rows: seq<Clean>): seq<Result> {
    if rows == [] then []
    else ResultsFor(c, policy, rows[..|rows| - 1]) + [ResultFor(c, policy, rows[|rows| - 1])]
  }

  function Reported(results: seq<Result>): seq<Result> {
    if results == [] then []
    else
      Reported(results[..|results| - 1])
      + (if results[|results| - 1].verdict.status != NoAlert then [results[|results| - 1]] else [])
  }

  lemma {:induction false} ResultsNext(c: PolicyRule, policy: set<Row>, rows: seq<Clean>, i: nat)
    requires i < |rows|
    ensures ResultsFor(c, policy, rows[..i + 1]) == ResultsFor(c, policy, rows[..i]) + [ResultFor(c, policy, rows[i])]
  {
    assert rows[..i + 1][..i] == rows[..i];
  }

  lemma {:induction false} ReportedNext(results: seq<Result>, r: Result)
    ensures Reported(results + [r]) == Reported(results) + if r.verdict.status != NoAlert then [r] else []
  {
    assert (results + [r])[..|results|] == results;
  }

  // ------------------------------------------------------------------ the executor

  ghost predicate Indexed(byAccount: map<Value, seq<Row>>, policy: set<Row>) {
    && Null !in byAccount
    && (forall k | k in byAccount :: byAccount[k] != [] && Members(byAccount[k]) == RowsOf(policy, k))
    && (forall k | k !in byAccount && k != Null :: RowsOf(policy, k) == {})
  }

  /** Filling the account dictionary; rows without an account are dropped. */
  method ByAccount(policy: seq<Row>) returns (byAccount: map<Value, seq<Row>>)
    ensures Indexed(byAccount, Members(policy))
  {
    byAccount := map[];
    for i := 0 to |policy|
      invariant Indexed(byAccount, Members(policy[..i]))
    {
      var p := policy[i];
      var k := Get(p, "account_id");
      assert Members(policy[..i + 1]) == Members(policy[..i]) + {p};
      if k != Null {
        var rows := if k in byAccount then byAccount[k] else [];
        assert Members(rows + [p]) == Members(rows) + {p};
        byAccount := byAccount[k := rows + [p]];
      }
    }
    assert policy[..|policy|] == policy;
  }

  /** `_policy_rows_for`: the rows of one account that apply at `at`, or none. */
  method PolicyRowsFor(rows: seq<Row>, at: int, versioned: bool) returns (chosen: seq<Row>)
    ensures Members(chosen) == Latest(Members(rows), at, versioned)
  {
    if !versioned { return rows; }
    var usable, top := StartedRows(rows, at);
    chosen := AtTop(usable, top);
    AboutAtTop(usable, top);
    LatestAtTop(rows, usable, top, at);
  }

  /** `top` is the latest start among the usable rows. */
  ghost predicate IsTop(usable: seq<Row>, top: int) {
    && (forall r | r in usable :: EffectiveFrom(r).Some? && EffectiveFrom(r).value <= top)
    && (usable != [] ==> exists r | r in usable :: EffectiveFrom(r) == Some(top))
  }

  lemma {:induction false} LatestAtTop(rows: seq<Row>, usable: seq<Row>, top: int, at: int)
    requires forall r :: r in usable <==> r in rows && Started(r, at)
    requires IsTop(usable, top)
    ensures Latest(Members(rows), at, true) == set r | r in usable && EffectiveFrom(r) == Some(top)
  {
    var mine := Members(rows);
    assert forall r :: r in usable <==> r in mine && Started(r, at);
    forall r ensures r in Latest(mine, at, true) <==> r in usable && EffectiveFrom(r) == Some(top) {
      if r in Latest(mine, at, true) {
        var q :| q in usable && EffectiveFrom(q) == Some(top);
        assert EffectiveFrom(q).value <= EffectiveFrom(r).value;
      }
    }
  }

  lemma {:induction false} TopStep(usable: seq<Row>, top: int, r: Row)
    requires IsTop(usable, top) && EffectiveFrom(r).Some?
    ensures IsTop(usable + [r], if usable == [] || EffectiveFrom(r).value > top then EffectiveFrom(r).value else top)
  {
    if usable != [] && EffectiveFrom(r).value <= top {
      var q :| q in usable && EffectiveFrom(q) == Some(top);
      assert q in usable + [r];
    } else {
      assert r in usable + [r];
    }
  }

  method StartedRows(rows: seq<Row>, at: int) returns (usable: seq<Row>, top: int)
    ensures forall r :: r in usable <==> r in rows && Started(r, at)
    ensures IsTop(usable, top)
  {
    usable, top := [], ALWAYS;
    for i := 0 to |rows|
      invariant forall r :: r in usable <==> r in rows[..i] && Started(r, at)
      invariant IsTop(usable, top)
    {
      var r := rows[i];
      assert rows[..i + 1] == rows[..i] + [r];
      if Started(r, at) {
        var m := EffectiveFrom(r).value;
        TopStep(usable, top, r);
        top := if usable == [] || m > top then m else top;
        usable := usable + [r];
      }
    }
    assert rows[..|rows|] == rows;
  }

  function AtTop(usable: seq<Row>, top: int): seq<Row> {
    if usable == [] then []
    else
      AtTop(usable[..|usable| - 1], top)
      + (if EffectiveFrom(usable[|usable| - 1]) == Some(top) then [usable[|usable| - 1]] else [])
  }

  lemma {:induction false} AboutAtTop(usable: seq<Row>, top: int)
    ensures forall r :: r in AtTop(usable, top) <==> r in usable && EffectiveFrom(r) == Some(top)
  {
    if usable != [] {
      var rest, last := usable[..|usable| - 1], usable[|usable| - 1];
      AboutAtTop(rest, top);
      assert forall r :: r in usable <==> r in rest || r == last;
    }
  }

  lemma {:induction false} SingleValue(s: set<Value>)
    requires |s| == 1
    ensures forall a, b | a in s && b in s :: a == b
  {
    var x :| x in s;
    assert |s - {x}| == 0;
  }

  /** `_versions`. */
  method SingleVersion(rows: seq<Row>) returns (version: Value)
    ensures version == VersionOf(Members(rows))
  {
    var named := (set r | r in rows :: Get(r, "policy_version")) - {Null};
    assert (set r | r in rows :: Get(r, "policy_version")) == ValuesIn(Members(rows), "policy_version");
    if |named| == 1 {
      SingleValue(named);
      var v :| v in named;
      version := Str(PythonText(v));
    } else {
      version := Null;
    }
  }

  /** The body of the engine's loop over matching events, after the policy lookup. */
  method Decide(c: PolicyRule, rows: seq<Row>, observed: Value) returns (v: Verdict)
    ensures v == Judge(c, Members(rows), observed)
  {
    if rows == [] { HasNone(rows); return Verdict(InsufficientContext, NoPolicyRecord, Null, Null); }
    var version := SingleVersion(rows);
    var vals := set r | r in rows :: Get(r, c.policyField);
    var nonNull := vals - {Null};
    JudgeBySize(c, rows, observed, vals);
    if |nonNull| + (if Null in vals then 1 else 0) > 1 {
      return Verdict(InsufficientContext, PolicyConflict, Null, Null);
    } else if nonNull == {} {
      return Verdict(InsufficientContext, PolicyValueNull, Null, version);
    } else {
      var expected :| expected in nonNull;
      if observed == Null {
        return Verdict(InsufficientContext, LogValueNull, expected, version);
      } else if Violates(c, observed, expected) {
        return Verdict(Alerting, PolicyViolated, expected, version);
      } else {
        return Verdict(NoAlert, Compliant, expected, version);
      }
    }
  }

  /** The engine's test on non-null values and a null flag sorts the cases as the documented table does. */
  lemma {:induction false} JudgeBySize(c: PolicyRule, rows: seq<Row>, observed: Value, vals: set<Value>)
    requires rows != [] && vals == set r | r in rows :: Get(r, c.policyField)
    ensures var nonNull := vals - {Null};
            var verdict := Judge(c, Members(rows), observed);
            if |nonNull| + (if Null in vals then 1 else 0) > 1 then verdict == Verdict(InsufficientContext, PolicyConflict, Null, Null)
            else if nonNull == {} then verdict == Verdict(InsufficientContext, PolicyValueNull, Null, VersionOf(Members(rows)))
            else forall v | v in nonNull :: verdict == Compare(c, observed, v, VersionOf(Members(rows)))
  {
    var nonNull := vals - {Null};
    assert rows[0] in Members(rows) && Get(rows[0], c.policyField) in vals;
    assert vals == ValuesIn(Members(rows), c.policyField);
    NullSplit(vals);
    if |vals| <= 1 {
      SubsetSize({Get(rows[0], c.policyField)}, vals);
      SingleValue(vals);
      if nonNull == {} { assert vals == {Null}; }
    }
  }

  lemma {:induction false} HasNone(rows: seq<Row>)
    ensures rows == [] ==> Members(rows) == {}
  {}

  lemma {:induction false} NullSplit(vals: set<Value>)
    ensures |vals| == |vals - {Null}| + if Null in vals then 1 else 0
  {
    if Null in vals { assert vals == (vals - {Null}) + {Null}; } else { assert vals == vals - {Null}; }
  }

  method Evaluate(c: PolicyRule, e: Clean, byAccount: map<Value, seq<Row>>, versioned: bool, ghost policy: set<Row>)
    returns (out: Result)
    requires Indexed(byAccount, policy) && versioned == Versioned(policy)
    requires Get(e.row, "account_id") != Null
    ensures out == ResultFor(c, policy, e)
  {
    var account, observed := Get(e.row, "account_id"), Get(e.row, c.logField);
    var applicable := [];
    if account in byAccount {
      applicable := PolicyRowsFor(byAccount[account], e.micros, versioned);
    } else {
      assert Latest({}, e.micros, versioned) == {} == Members(applicable);
    }
    var verdict := Decide(c, applicable, observed);
    out := Result(c.behaviour, account, Id(e), Get(e.row, "timestamp"), observed, verdict);
  }

  method EvaluateAll(c: PolicyRule, rows: seq<Clean>, policy: seq<Row>) returns (all: seq<Result>, alerts: seq<Result>)
    requires forall r | r in rows :: Get(r.row, "account_id") != Null
    ensures all == ResultsFor(c, Members(policy), rows)
    ensures alerts == Reported(all)
  {
    var byAccount := ByAccount(policy);
    var versioned := exists r | r in policy :: "effective_from" in r;
    assert versioned <==> Versioned(Members(policy));
    all, alerts := [], [];
    for i := 0 to |rows|
      invariant all == ResultsFor(c, Members(policy), rows[..i])
      invariant alerts == Reported(all)
    {
      var out := Evaluate(c, rows[i], byAccount, versioned, Members(policy));
      ResultsNext(c, Members(policy), rows, i);
      ReportedNext(all, out);
      all := all + [out];
      if out.verdict.status != NoAlert { alerts := alerts + [out]; }
    }
    assert rows[..|rows|] == rows;
  }

  /** One result per matching event, in (instant, id) order. */
  method RunPolicy(c: PolicyRule, events: seq<Row>, policy: seq<Row>) returns (res: Attempt<PolicyResult>, ghost rows: seq<Clean>)
    ensures Lists(rows, Matching(Survivors(Kept(events, ["account_id"])), c.filterType))
    ensures res.Done? <==> AllTyped(Survivors(Kept(events, ["account_id"])))
    ensures res.Done? ==> res.value.all == ResultsFor(c, Members(policy), rows) && res.value.alerts == Reported(res.value.all)
    ensures res.Done? ==> res.value.quarantine == Rejected(events, ["account_id"]) && Accounted(res.value.stats, events, ["account_id"])
  {
    var clean, quarantine, stats := Prepare(events, ["account_id"]);
    SurvivorsDistinct(Kept(events, ["account_id"]));
    MatchingOfType(clean, c.filterType);
    var matching := OfType(clean, c.filterType);
    SortedGroup(matching);
    var sorted := Sort(matching, RowKey);
    rows := sorted;
    forall e | e in sorted ensures Get(e.row, "account_id") != Null {
      assert e in Members(sorted);
      HasAccount(events, e);
    }
    if exists r | r in clean :: !Typed(r) {
      assert exists r :: r in Members(clean) && !Typed(r);
      return RaisedKeyError, rows;
    }
    var all, alerts := EvaluateAll(c, sorted, policy);
    return Done(PolicyResult(all, alerts, quarantine, stats)), rows;
  }

  lemma {:induction false} HasAccount(events: seq<Row>, e: Clean)
    requires e in Kept(events, ["account_id"])
    ensures Get(e.row, "account_id") != Null
  {
    var r := events[|events| - 1];
    if Reason(r, ["account_id"]).None? && e == Clean(r, ParseMicros(Get(r, "timestamp")).value) {
      assert ["account_id"][0] == "account_id";
    } else {
      HasAccount(events[..|events| - 1], e);
    }
  }

  // ------------------------------------------------------------------ what the join guarantees

  /** A policy change never reaches back: rows that start after the event, or whose start cannot be read, leave its
      result alone - even when they are the table's first versioned rows or the account's first rows. */
  lemma {:induction false} NotRetroactive(c: PolicyRule, policy: set<Row>, added: set<Row>, e: Clean)
    requires e.micros >= ALWAYS
    requires forall r | r in added :: "effective_from" in r && !Started(r, e.micros)
    ensures ResultFor(c, policy + added, e) == ResultFor(c, policy, e)
  {
    var account := Get(e.row, "account_id");
    var before, after := InForce(policy, account, e.micros), InForce(policy + added, account, e.micros);
    if added == {} {
      assert policy + added == policy;
    } else {
      var x :| x in added;
      assert x in policy + added && Versioned(policy + added);
      if !Versioned(policy) {
        assert forall r | r in policy :: EffectiveFrom(r) == Some(ALWAYS);
      }
      assert before == after;
    }
  }

  /** Every event that reaches the join satisfies the bound above. */
  lemma {:induction false} ParsedAfterAlways(v: Value)
    requires ParseMicros(v).Some?
    ensures ParseMicros(v).value >= ALWAYS
  {
    Timestamps.ParseBounds(v.s);
  }

  /** A null or conflicting or missing value is never read as compliant. */
  lemma {:induction false} CompliantMeans(c: PolicyRule, policy: set<Row>, e: Clean)
    requires ResultFor(c, policy, e).verdict.status != InsufficientContext
    ensures Get(e.row, c.logField) != Null
    ensures var rows := InForce(policy, Get(e.row, "account_id"), e.micros);
            rows != {}
            && (exists v :: v != Null && (forall r | r in rows :: Get(r, c.policyField) == v)
                            && (ResultFor(c, policy, e).verdict.status == Alerting <==> Violates(c, Get(e.row, c.logField), v)))
  {
    var rows := InForce(policy, Get(e.row, "account_id"), e.micros);
    var vals := ValuesIn(rows, c.policyField);
    var r :| r in rows;
    var v := Get(r, c.policyField);
    assert v in vals;
    SubsetSize({v}, vals);
    SingleValue(vals);
    forall q | q in rows ensures Get(q, c.policyField) == v { assert Get(q, c.policyField) in vals; }
    assert vals == {v};
  }
}
