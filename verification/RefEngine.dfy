/** The reference engine (sentinelforge/refengine.py): quarantine, de-duplication by event id, and the three
    recipes. Each method is proved against a description of its result that has no grouping, no sorting
    and no flags. */
module RefEngine {
  import opened Ordering
  import opened Detection
  import opened Grouping
  import Timestamps

  /** An event or policy row as read from JSON; an absent column and a null one read the same, but for the event type. */
  type Row = map<string, Value>

  function Get(r: Row, column: string): Value { if column in r then r[column] else Null }

  function ParseMicros(v: Value): Option<int> { if v.Str? then Timestamps.Parse(v.s) else None }

  // ------------------------------------------------------------------ quarantine

  function FirstNull(r: Row, columns: seq<string>): Option<string> {
    if columns == [] then None
    else if Get(r, columns[0]) == Null then Some("null_" + columns[0])
    else FirstNull(r, columns[1..])
  }

  /** Why a row is quarantined, if it is. */
  function Reason(r: Row, keys: seq<string>): (reason: Option<string>)
    ensures reason.None? ==> Get(r, "event_id") != Null && ParseMicros(Get(r, "timestamp")).Some?
  {
    if Get(r, "event_id") == Null then Some("null_event_id")
    else if Get(r, "timestamp") == Null then Some("null_timestamp")
    else if ParseMicros(Get(r, "timestamp")).None? then Some("malformed_timestamp")
    else FirstNull(r, keys)
  }

  /** A row that passed quarantine, with its instant. */
  datatype Clean = Clean(row: Row, micros: int)

  function Id(c: Clean): Value { Get(c.row, "event_id") }

  function TypeOf(c: Clean): Value { Get(c.row, "event_type") }

  /** `r["event_type"]` can be read; otherwise it raises KeyError. */
  predicate Typed(c: Clean) { "event_type" in c.row }

  predicate AllTyped(rows: set<Clean>) { forall r | r in rows :: Typed(r) }

  function Kept(events: seq<Row>, keys: seq<string>): seq<Clean> {
    if events == [] then []
    else
      var r := events[|events| - 1];
      Kept(events[..|events| - 1], keys)
      + (if Reason(r, keys).None? then [Clean(r, ParseMicros(Get(r, "timestamp")).value)] else [])
  }

  function Rejected(events: seq<Row>, keys: seq<string>): seq<(Value, string)> {
    if events == [] then []
    else
      var r := events[|events| - 1];
      Rejected(events[..|events| - 1], keys)
      + (if Reason(r, keys).Some? then [(Get(r, "event_id"), Reason(r, keys).value)] else [])
  }

  function ReasonsOf(rejected: seq<(Value, string)>): (r: seq<string>)
    ensures |r| == |rejected|
  {
    if rejected == [] then [] else ReasonsOf(rejected[..|rejected| - 1]) + [rejected[|rejected| - 1].1]
  }

  // ------------------------------------------------------------------ de-duplication

  function TextOf(v: Value): string {
    match v
    case Null => ""
    case Bool(b) => if b then "true" else "false"
    case Num(n) => if n < 0 then "-" + Timestamps.ZeroPad(-n, 1) else Timestamps.ZeroPad(n, 1)
    case Str(s) => s
  }

  predicate IsFirst(n: string, names: set<string>) {
    n in names && forall m | m in names && m != n :: StringLess(n, m)
  }

  /** The smallest of a set of column names. */
  function FirstName(names: set<string>): (first: string)
    requires names != {}
    ensures IsFirst(first, names)
  {
    NameExists(names);
    forall a, b | IsFirst(a, names) && IsFirst(b, names) ensures a == b {
      StringLessTotal(a, b);
    }
    var n :| IsFirst(n, names);
    n
  }

  lemma {:induction false} NameExists(names: set<string>)
    requires names != {}
    ensures exists n :: IsFirst(n, names)
  {
    var n :| n in names;
    var rest := names - {n};
    if rest == {} {
      assert names == {n};
      assert IsFirst(n, names);
    } else {
      NameExists(rest);
      var k :| IsFirst(k, rest);
      StringLessTotal(n, k);
      if StringLess(n, k) {
        forall m | m in names && m != n ensures StringLess(n, m) {
          if m != k { StringLessTransitive(n, k, m); }
        }
        assert IsFirst(n, names);
      } else {
        assert IsFirst(k, names);
      }
    }
  }

  const SEPARATOR: string := "\U{0001}"

  /** The row's non-null columns in name order, joined by U+0001. */
  function Content(r: Row): string {
    ContentOf(r, set column | column in r.Keys && r[column] != Null)
  }

  function ContentOf(r: Row, columns: set<string>): string
    requires columns <= r.Keys
  {
    if columns == {} then ""
    else
      var first := FirstName(columns);
      var rest := columns - {first};
      TextOf(r[first]) + (if rest == {} then "" else SEPARATOR + ContentOf(r, rest))
  }

  function ContentKey(c: Clean): Key { Key(Num(c.micros), Str(Content(c.row))) }

  /** Python's `min(rows, key=(instant, content))`: the first of the smallest. */
  function FirstMin(rows: seq<Clean>): (m: Clean)
    requires rows != []
    ensures m in rows
  {
    if |rows| == 1 then rows[0]
    else
      var m := FirstMin(rows[..|rows| - 1]);
      if KeyLess(ContentKey(rows[|rows| - 1]), ContentKey(m)) then rows[|rows| - 1] else m
  }

  /** The one row that stands for event id `id`: earliest instant, then smallest content, then first to arrive. */
  predicate Survives(kept: seq<Clean>, c: Clean) {
    var copies := WithKey(kept, Id, Id(c));
    copies != [] && c == FirstMin(copies)
  }

  /** What evaluation sees: one surviving row per event id. */
  ghost function Survivors(kept: seq<Clean>): set<Clean> {
    set c | c in kept && Survives(kept, c)
  }

  ghost predicate DistinctIds(s: set<Clean>) {
    forall a, b | a in s && b in s && Id(a) == Id(b) :: a == b
  }

  lemma {:induction false} SurvivorsDistinct(kept: seq<Clean>)
    ensures DistinctIds(Survivors(kept))
  {}

  // ------------------------------------------------------------------ `_prepare`

  datatype Stats = Stats(read: nat, evaluated: nat, quarantined: nat, duplicatesDropped: int, byReason: map<string, nat>)

  method Quarantine(events: seq<Row>, keys: seq<string>) returns (ok: seq<Clean>, quarantine: seq<(Value, string)>)
    ensures ok == Kept(events, keys) && quarantine == Rejected(events, keys)
    ensures |ok| + |quarantine| == |events|
  {
    ok, quarantine := [], [];
    for i := 0 to |events|
      invariant ok == Kept(events[..i], keys) && quarantine == Rejected(events[..i], keys)
      invariant |ok| + |quarantine| == i
    {
      var r := events[i];
      assert events[..i + 1][..i] == events[..i];
      var reason := Reason(r, keys);
      if reason.Some? {
        quarantine := quarantine + [(Get(r, "event_id"), reason.value)];
      } else {
        ok := ok + [Clean(r, ParseMicros(Get(r, "timestamp")).value)];
      }
    }
    assert events[..|events|] == events;
  }

  /** One row per event id. */
  method Deduplicate(ok: seq<Clean>) returns (clean: seq<Clean>)
    ensures Members(clean) == Survivors(ok) && NoRepeats(clean)
    ensures |clean| <= |ok|
  {
    var ids, byId := GroupBy(ok, Id);
    clean := [];
    for i := 0 to |ids|
      invariant |clean| == i
      invariant forall j | 0 <= j < i :: clean[j] == FirstMin(byId[ids[j]]) && Id(clean[j]) == ids[j]
    {
      assert ids[i] in Members(ids);
      clean := clean + [FirstMin(byId[ids[i]])];
      InWithKey(ok, Id, ids[i], clean[i]);
    }
    SurvivorsListed(ok, ids, byId, clean);
    KeysAtMost(ok, Id);
    NoRepeatsSize(ids);
  }

  /** Every row read is evaluated, quarantined for a counted reason, or dropped as a duplicate. */
  ghost predicate Accounted(stats: Stats, events: seq<Row>, keys: seq<string>) {
    && stats.read == |events|
    && stats.evaluated == |Survivors(Kept(events, keys))|
    && stats.quarantined == |Rejected(events, keys)|
    && stats.duplicatesDropped >= 0
    && stats.read == stats.evaluated + stats.quarantined + stats.duplicatesDropped
    && Counts(ReasonsOf(Rejected(events, keys)), stats.byReason)
  }

  method Prepare(events: seq<Row>, keys: seq<string>)
    returns (clean: seq<Clean>, quarantine: seq<(Value, string)>, stats: Stats)
    ensures Members(clean) == Survivors(Kept(events, keys))
    ensures NoRepeats(clean)
    ensures quarantine == Rejected(events, keys)
    ensures Accounted(stats, events, keys)
  {
    var ok;
    ok, quarantine := Quarantine(events, keys);
    clean := Deduplicate(ok);
    var byReason := CountReasons(quarantine);
    NoRepeatsSize(clean);
    stats := Stats(|events|, |clean|, |events| - |ok|, |ok| - |clean|, byReason);
  }

  lemma {:induction false} SurvivorsListed(ok: seq<Clean>, ids: seq<Value>, byId: map<Value, seq<Clean>>, clean: seq<Clean>)
    requires NoRepeats(ids) && Members(ids) == byId.Keys == set r | r in ok :: Id(r)
    requires forall k | k in byId :: byId[k] != [] && byId[k] == WithKey(ok, Id, k)
    requires |clean| == |ids|
    requires forall j | 0 <= j < |ids| :: ids[j] in byId && clean[j] == FirstMin(byId[ids[j]]) && Id(clean[j]) == ids[j]
    ensures Members(clean) == Survivors(ok) && NoRepeats(clean)
  {
    forall c | c in clean ensures c in Survivors(ok) {
      var j :| 0 <= j < |clean| && clean[j] == c;
      InWithKey(ok, Id, ids[j], c);
    }
    forall c | c in Survivors(ok) ensures c in clean {
      assert Id(c) in Members(ids);
      var j :| 0 <= j < |ids| && ids[j] == Id(c);
      assert clean[j] == c;
    }
  }

  ghost predicate Counts(reasons: seq<string>, byReason: map<string, nat>) {
    && byReason.Keys == Members(reasons)
    && forall r | r in byReason :: byReason[r] == multiset(reasons)[r]
  }

  lemma {:induction false} CountStep(reasons: seq<string>, r: string, byReason: map<string, nat>)
    requires Counts(reasons, byReason)
    ensures Counts(reasons + [r], byReason[r := (if r in byReason then byReason[r] else 0) + 1])
  {
    assert r in byReason <==> r in multiset(reasons);
    assert Members(reasons + [r]) == Members(reasons) + {r};
  }

  method CountReasons(quarantine: seq<(Value, string)>) returns (byReason: map<string, nat>)
    ensures Counts(ReasonsOf(quarantine), byReason)
  {
    byReason := map[];
    for i := 0 to |quarantine|
      invariant Counts(ReasonsOf(quarantine[..i]), byReason)
    {
      var r := quarantine[i].1;
      ghost var seen := ReasonsOf(quarantine[..i]);
      assert quarantine[..i + 1][..i] == quarantine[..i];
      assert ReasonsOf(quarantine[..i + 1]) == seen + [r];
      CountStep(seen, r, byReason);
      byReason := byReason[r := (if r in byReason then byReason[r] else 0) + 1];
    }
    assert quarantine[..|quarantine|] == quarantine;
  }

  // ------------------------------------------------------------------ ordered evidence

  function RowKey(c: Clean): Key { Key(Num(c.micros), Id(c)) }

  /** The list `rows` enumerates `s` by (instant, event id). */
  ghost predicate Lists(rows: seq<Clean>, s: set<Clean>) {
    StrictlySortedBy(rows, RowKey) && Members(rows) == s
  }

  function Ids(rows: seq<Clean>): (r: seq<Value>)
    ensures |r| == |rows|
  {
    if rows == [] then [] else Ids(rows[..|rows| - 1]) + [Id(rows[|rows| - 1])]
  }

  datatype Alert = Alert(behaviour: string, groupKey: Value, trigger: Value, detectedAt: Value, windowStart: int,
                         matchedCount: nat, evidence: seq<Value>)

  function AlertKey(a: Alert): Key { Key(a.detectedAt, a.trigger) }

  /** `alerts` is the list, by (detectedAt, trigger id), of exactly the alerts in `s`. */
  ghost predicate AlertList(alerts: seq<Alert>, s: iset<Alert>) {
    StrictlySortedBy(alerts, AlertKey) && forall a :: a in alerts <==> a in s
  }

  /** A result, or the KeyError of a row without the column `event_type`. */
  datatype Attempt<+T> = Done(value: T) | RaisedKeyError

  datatype RefResult = RefResult(alerts: seq<Alert>, quarantine: seq<(Value, string)>, stats: Stats)

  // ------------------------------------------------------------------ SequenceThenTrigger

  datatype SequenceRule = SequenceRule(behaviour: string, groupingKey: string, countType: string, triggerType: string,
                                       threshold: int, windowSeconds: int)

  /** The counted events of `t`'s group in the closed window that ends at `t`. */
  ghost function Counted(c: SequenceRule, s: set<Clean>, t: Clean): set<Clean> {
    set f | f in s && TypeOf(f) == Str(c.countType) && Get(f.row, c.groupingKey) == Get(t.row, c.groupingKey)
            && t.micros - c.windowSeconds * 1_000_000 <= f.micros <= t.micros
  }

  /** `a` is the alert that trigger event `t` deserves. */
  ghost predicate SequenceAlert(c: SequenceRule, s: set<Clean>, t: Clean, a: Alert) {
    && t in s && TypeOf(t) == Str(c.triggerType)
    && |Counted(c, s, t)| >= c.threshold
    && a.behaviour == c.behaviour && a.groupKey == Get(t.row, c.groupingKey) && a.trigger == Id(t)
    && a.detectedAt == Get(t.row, "timestamp") && a.windowStart == t.micros - c.windowSeconds * 1_000_000
    && a.matchedCount == |Counted(c, s, t)|
    && exists rows :: Lists(rows, Counted(c, s, t)) && a.evidence == Ids(rows)
  }

  ghost function SequenceAlerts(c: SequenceRule, s: set<Clean>): iset<Alert> {
    iset a, t | SequenceAlert(c, s, t, a) :: a
  }

  function OfType(rows: seq<Clean>, eventType: string): seq<Clean> {
    if rows == [] then []
    else
      OfType(rows[..|rows| - 1], eventType)
      + (if TypeOf(rows[|rows| - 1]) == Str(eventType) then [rows[|rows| - 1]] else [])
  }

  /** `[r for r in rows if lo <= r["_micros"] <= hi]`. */
  function Within(rows: seq<Clean>, lo: int, hi: int): seq<Clean> {
    if rows == [] then []
    else
      Within(rows[..|rows| - 1], lo, hi)
      + (if lo <= rows[|rows| - 1].micros <= hi then [rows[|rows| - 1]] else [])
  }

  lemma {:induction false} AboutOfType(rows: seq<Clean>, eventType: string)
    requires StrictlySortedBy(rows, RowKey)
    ensures StrictlySortedBy(OfType(rows, eventType), RowKey)
    ensures forall r :: r in OfType(rows, eventType) <==> r in rows && TypeOf(r) == Str(eventType)
  {
    if rows != [] {
      var rest, last := rows[..|rows| - 1], rows[|rows| - 1];
      AboutOfType(rest, eventType);
      assert forall r :: r in rows <==> r in rest || r == last;
      forall r | r in rest ensures KeyLess(RowKey(r), RowKey(last)) {}
    }
  }

  lemma {:induction false} AboutWithin(rows: seq<Clean>, lo: int, hi: int)
    requires StrictlySortedBy(rows, RowKey)
    ensures StrictlySortedBy(Within(rows, lo, hi), RowKey)
    ensures forall r :: r in Within(rows, lo, hi) <==> r in rows && lo <= r.micros <= hi
  {
    if rows != [] {
      var rest, last := rows[..|rows| - 1], rows[|rows| - 1];
      AboutWithin(rest, lo, hi);
      assert forall r :: r in rows <==> r in rest || r == last;
      forall r | r in rest ensures KeyLess(RowKey(r), RowKey(last)) {}
    }
  }

  lemma {:induction false} SortedSize(rows: seq<Clean>)
    requires StrictlySortedBy(rows, RowKey)
    ensures |Members(rows)| == |rows|
  {
    if rows != [] {
      var rest, last := rows[..|rows| - 1], rows[|rows| - 1];
      SortedSize(rest);
      KeyLessTotal(RowKey(last), RowKey(last));
      assert Members(rows) == Members(rest) + {last};
    }
  }

  /** Sorting rows with distinct ids gives the strictly ascending list of the same rows. */
  lemma {:induction false} SortedGroup(rows: seq<Clean>)
    requires NoRepeats(rows) && DistinctIds(Members(rows))
    ensures Lists(Sort(rows, RowKey), Members(rows))
  {
    var r := Sort(rows, RowKey);
    SortSorted(rows, RowKey);
    SameMembers(r, rows);
    NoRepeatsMultiset(rows, r);
    forall i, j | 0 <= i < j < |r| ensures KeyLess(RowKey(r[i]), RowKey(r[j])) {
      KeyLessTotal(RowKey(r[i]), RowKey(r[j]));
      assert r[i] in r && r[j] in r;
    }
  }

  lemma {:induction false} ListsUnique(a: seq<Clean>, b: seq<Clean>, s: set<Clean>)
    requires Lists(a, s) && Lists(b, s)
    ensures a == b
  {
    forall x ensures x in a <==> x in b { assert x in Members(a) <==> x in Members(b); }
    StrictlySortedUnique(a, b, RowKey);
  }

  predicate DistinctTriggers(alerts: seq<Alert>) {
    forall i, j | 0 <= i < j < |alerts| :: alerts[i].trigger != alerts[j].trigger
  }

  /** The final `res.alerts.sort(...)`. */
  lemma {:induction false} SortedAlerts(alerts: seq<Alert>, s: iset<Alert>)
    requires DistinctTriggers(alerts)
    requires forall a :: a in alerts <==> a in s
    ensures AlertList(Sort(alerts, AlertKey), s)
  {
    var r := Sort(alerts, AlertKey);
    SortSorted(alerts, AlertKey);
    SameMembers(r, alerts);
    NoRepeatsMultiset(alerts, r);
    forall i, j | 0 <= i < j < |r| ensures KeyLess(AlertKey(r[i]), AlertKey(r[j])) {
      KeyLessTotal(AlertKey(r[i]), AlertKey(r[j]));
      assert r[i] in r && r[j] in r;
      var k :| 0 <= k < |alerts| && alerts[k] == r[i];
      var l :| 0 <= l < |alerts| && alerts[l] == r[j];
      if k < l { assert alerts[k].trigger != alerts[l].trigger; } else { assert alerts[l].trigger != alerts[k].trigger; }
    }
  }

  /** The sorted rows of one group. */
  ghost predicate GroupRows(rows: seq<Clean>, s: set<Clean>, column: string, k: Value) {
    Lists(rows, set r | r in s && Get(r.row, column) == k)
  }

  /** The alerts triggered by the events whose ids are in `done` have been found, each once. */
  ghost predicate Progress(alerts: seq<Alert>, all: iset<Alert>, done: set<Value>) {
    && DistinctTriggers(alerts)
    && (forall a | a in alerts :: a in all && a.trigger in done)
    && (forall a | a in all && a.trigger in done :: a in alerts)
  }

  lemma {:induction false} ProgressStep(alerts: seq<Alert>, more: seq<Alert>, all: iset<Alert>, done: set<Value>, added: set<Value>)
    requires Progress(alerts, all, done) && Progress(more, all, added) && done !! added
    ensures Progress(alerts + more, all, done + added)
  {
    forall i, j | 0 <= i < j < |alerts + more| ensures (alerts + more)[i].trigger != (alerts + more)[j].trigger {
      if i < |alerts| <= j {
        var a, b := alerts[i], more[j - |alerts|];
        assert a in alerts && b in more;
      }
    }
  }

  function IdSet(rows: seq<Clean>): set<Value> { set r | r in rows :: Id(r) }

  /** The alert record for event `t`, counting `count` and citing `cited`. */
  function MakeAlert(behaviour: string, t: Clean, column: string, w: int, count: nat, cited: seq<Clean>): Alert {
    Alert(behaviour, Get(t.row, column), Id(t), Get(t.row, "timestamp"), t.micros - w, count, Ids(cited))
  }

  lemma {:induction false} SequenceAlertIs(c: SequenceRule, s: set<Clean>, t: Clean, inside: seq<Clean>, b: Alert)
    requires t in s && TypeOf(t) == Str(c.triggerType)
    requires Lists(inside, Counted(c, s, t))
    ensures SequenceAlert(c, s, t, b) <==>
              |inside| >= c.threshold
              && b == MakeAlert(c.behaviour, t, c.groupingKey, c.windowSeconds * 1_000_000, |inside|, inside)
  {
    SortedSize(inside);
    if SequenceAlert(c, s, t, b) {
      var r :| Lists(r, Counted(c, s, t)) && b.evidence == Ids(r);
      ListsUnique(r, inside, Counted(c, s, t));
    }
  }

  /** What one trigger event contributes, given its counted events in order. */
  lemma {:induction false} SequenceRow(c: SequenceRule, s: set<Clean>, t: Clean, inside: seq<Clean>, found: seq<Alert>)
    requires DistinctIds(s) && t in s && TypeOf(t) == Str(c.triggerType)
    requires Lists(inside, Counted(c, s, t))
    requires found == if |inside| >= c.threshold
                      then [MakeAlert(c.behaviour, t, c.groupingKey, c.windowSeconds * 1_000_000, |inside|, inside)] else []
    ensures Progress(found, SequenceAlerts(c, s), {Id(t)})
  {
    forall b ensures SequenceAlert(c, s, t, b) <==> b in found { SequenceAlertIs(c, s, t, inside, b); }
    forall b | b in SequenceAlerts(c, s) && b.trigger == Id(t) ensures b in found {
      var t' :| SequenceAlert(c, s, t', b);
      assert t' == t;
    }
  }

  lemma {:induction false} CountedListed(c: SequenceRule, s: set<Clean>, rows: seq<Clean>, t: Clean)
    requires GroupRows(rows, s, c.groupingKey, Get(t.row, c.groupingKey))
    ensures Lists(Within(OfType(rows, c.countType), t.micros - c.windowSeconds * 1_000_000, t.micros), Counted(c, s, t))
  {
    var failures := OfType(rows, c.countType);
    var w := c.windowSeconds * 1_000_000;
    AboutOfType(rows, c.countType);
    AboutWithin(failures, t.micros - w, t.micros);
    var inside := Within(failures, t.micros - w, t.micros);
    forall f ensures f in Members(inside) <==> f in Counted(c, s, t) {
      assert f in rows <==> f in Members(rows);
    }
  }

  /** The counted rows in the closed window that ends at `t`. */
  function Before(c: SequenceRule, failures: seq<Clean>, t: Clean): seq<Clean> {
    Within(failures, t.micros - c.windowSeconds * 1_000_000, t.micros)
  }

  function TriggerAlert(c: SequenceRule, t: Clean, inside: seq<Clean>): Alert {
    MakeAlert(c.behaviour, t, c.groupingKey, c.windowSeconds * 1_000_000, |inside|, inside)
  }

  /** What one trigger event contributes: `[alert]` or nothing. */
  function SequenceFinding(c: SequenceRule, failures: seq<Clean>, t: Clean): seq<Alert> {
    var inside := Before(c, failures, t);
    if |inside| >= c.threshold then [TriggerAlert(c, t, inside)] else []
  }

  function SequenceScan(c: SequenceRule, failures: seq<Clean>, triggers: seq<Clean>): seq<Alert> {
    if triggers == [] then []
    else SequenceScan(c, failures, triggers[..|triggers| - 1]) + SequenceFinding(c, failures, triggers[|triggers| - 1])
  }

  predicate IdsDiffer(rows: seq<Clean>) { forall i, j | 0 <= i < j < |rows| :: Id(rows[i]) != Id(rows[j]) }

  lemma {:induction false} LastId(rows: seq<Clean>)
    requires rows != [] && IdsDiffer(rows)
    ensures IdsDiffer(rows[..|rows| - 1])
    ensures IdSet(rows) == IdSet(rows[..|rows| - 1]) + {Id(rows[|rows| - 1])}
    ensures IdSet(rows[..|rows| - 1]) !! {Id(rows[|rows| - 1])}
  {
    assert rows == rows[..|rows| - 1] + [rows[|rows| - 1]];
  }

  lemma {:induction false} SortedIdsDiffer(rows: seq<Clean>, s: set<Clean>)
    requires StrictlySortedBy(rows, RowKey) && DistinctIds(s) && forall r | r in rows :: r in s
    ensures IdsDiffer(rows)
  {
    forall i, j | 0 <= i < j < |rows| ensures Id(rows[i]) != Id(rows[j]) {
      assert rows[i] in s && rows[j] in s;
      KeyLessTotal(RowKey(rows[i]), RowKey(rows[j]));
    }
  }

  lemma {:induction false} ScanFindsAll(c: SequenceRule, s: set<Clean>, rows: seq<Clean>, triggers: seq<Clean>)
    requires DistinctIds(s) && IdsDiffer(triggers)
    requires forall t | t in triggers :: t in s && TypeOf(t) == Str(c.triggerType)
                                         && GroupRows(rows, s, c.groupingKey, Get(t.row, c.groupingKey))
    ensures Progress(SequenceScan(c, OfType(rows, c.countType), triggers), SequenceAlerts(c, s), IdSet(triggers))
  {
    if triggers != [] {
      var failures := OfType(rows, c.countType);
      var rest, t := triggers[..|triggers| - 1], triggers[|triggers| - 1];
      LastId(triggers);
      ScanFindsAll(c, s, rows, rest);
      CountedListed(c, s, rows, t);
      var w := c.windowSeconds * 1_000_000;
      SequenceRow(c, s, t, Within(failures, t.micros - w, t.micros), SequenceFinding(c, failures, t));
      ProgressStep(SequenceScan(c, failures, rest), SequenceFinding(c, failures, t), SequenceAlerts(c, s), IdSet(rest), {Id(t)});
    }
  }

  lemma {:induction false} OnlyTriggersAlert(c: SequenceRule, s: set<Clean>, rows: seq<Clean>, triggers: seq<Clean>, alerts: seq<Alert>)
    requires DistinctIds(s) && forall r | r in rows :: r in s
    requires forall r :: r in triggers <==> r in rows && TypeOf(r) == Str(c.triggerType)
    requires Progress(alerts, SequenceAlerts(c, s), IdSet(triggers))
    ensures Progress(alerts, SequenceAlerts(c, s), IdSet(rows))
  {
    forall a | a in SequenceAlerts(c, s) && a.trigger in IdSet(rows) ensures a.trigger in IdSet(triggers) {
      var t :| SequenceAlert(c, s, t, a);
      var r :| r in rows && Id(r) == a.trigger;
      assert r == t && t in triggers;
    }
    forall a | a in alerts ensures a.trigger in IdSet(rows) {
      var r :| r in triggers && Id(r) == a.trigger;
    }
  }

  lemma {:induction false} GroupScanned(c: SequenceRule, s: set<Clean>, rows: seq<Clean>, key: Value)
    requires DistinctIds(s) && GroupRows(rows, s, c.groupingKey, key)
    ensures Progress(SequenceScan(c, OfType(rows, c.countType), OfType(rows, c.triggerType)), SequenceAlerts(c, s), IdSet(rows))
  {
    var triggers := OfType(rows, c.triggerType);
    AboutOfType(rows, c.triggerType);
    assert forall r :: r in rows <==> r in Members(rows);
    SortedIdsDiffer(triggers, s);
    ScanFindsAll(c, s, rows, triggers);
    OnlyTriggersAlert(c, s, rows, triggers, SequenceScan(c, OfType(rows, c.countType), triggers));
  }

  method ScanTriggers(c: SequenceRule, rows: seq<Clean>) returns (alerts: seq<Alert>)
    ensures alerts == SequenceScan(c, OfType(rows, c.countType), OfType(rows, c.triggerType))
  {
    var failures := OfType(rows, c.countType);
    var triggers := OfType(rows, c.triggerType);
    alerts := [];
    for i := 0 to |triggers|
      invariant alerts == SequenceScan(c, failures, triggers[..i])
    {
      var trig := triggers[i];
      assert triggers[..i + 1][..i] == triggers[..i];
      var inside := Before(c, failures, trig);
      if |inside| >= c.threshold {
        alerts := alerts + [TriggerAlert(c, trig, inside)];
      }
    }
    assert triggers[..|triggers|] == triggers;
  }

  /** The loop over one group: the alerts its triggers deserve, each once. */
  method SequenceGroup(c: SequenceRule, rows: seq<Clean>, ghost s: set<Clean>, ghost key: Value) returns (alerts: seq<Alert>)
    requires DistinctIds(s) && GroupRows(rows, s, c.groupingKey, key)
    ensures alerts == SequenceScan(c, OfType(rows, c.countType), OfType(rows, c.triggerType))
    ensures Progress(alerts, SequenceAlerts(c, s), IdSet(rows))
  {
    alerts := ScanTriggers(c, rows);
    GroupScanned(c, s, rows, key);
  }

  /** `_group` keys and rows, as sets. */
  lemma {:induction false} GroupSorted(clean: seq<Clean>, column: string, key: Clean -> Value, k: Value)
    requires NoRepeats(clean) && DistinctIds(Members(clean))
    requires forall r :: key(r) == Get(r.row, column)
    ensures GroupRows(Sort(WithKey(clean, key, k), RowKey), Members(clean), column, k)
  {
    var g := WithKey(clean, key, k);
    WithKeyNoRepeats(clean, key, k);
    forall r ensures r in g <==> r in clean && key(r) == k { InWithKey(clean, key, k, r); }
    assert Members(g) == set r | r in Members(clean) && Get(r.row, column) == k;
    SortedGroup(g);
  }

  /** The ids of the rows in the groups named so far. */
  ghost function IdsIn(s: set<Clean>, column: string, groups: set<Value>): set<Value> {
    set r | r in s && Get(r.row, column) in groups :: Id(r)
  }

  lemma {:induction false} NextGroup(s: set<Clean>, column: string, order: seq<Value>, i: nat, rows: seq<Clean>)
    requires DistinctIds(s) && i < |order| && NoRepeats(order) && GroupRows(rows, s, column, order[i])
    ensures IdsIn(s, column, Members(order[..i + 1])) == IdsIn(s, column, Members(order[..i])) + IdSet(rows)
    ensures IdsIn(s, column, Members(order[..i])) !! IdSet(rows)
  {
    assert order[..i + 1] == order[..i] + [order[i]];
    assert forall r :: r in rows <==> r in Members(rows);
    forall v | v in IdSet(rows) ensures v in IdsIn(s, column, Members(order[..i + 1])) {
      var r :| r in rows && Id(r) == v;
      assert r in Members(rows);
      assert Get(r.row, column) in Members(order[..i + 1]);
    }
    forall v | v in IdsIn(s, column, Members(order[..i + 1])) ensures v in IdsIn(s, column, Members(order[..i])) + IdSet(rows) {
      var r :| r in s && Get(r.row, column) in Members(order[..i + 1]) && Id(r) == v;
      if Get(r.row, column) == order[i] { assert r in Members(rows); } else { assert Get(r.row, column) in Members(order[..i]); }
    }
  }

  /** The rows of the groups named so far. */
  ghost function RowsIn(s: set<Clean>, column: string, groups: set<Value>): set<Clean> { set r | r in s && Get(r.row, column) in groups }

  lemma {:induction false} NextTyped(s: set<Clean>, column: string, order: seq<Value>, i: nat, rows: seq<Clean>)
    requires i < |order| && GroupRows(rows, s, column, order[i]) && AllTyped(RowsIn(s, column, Members(order[..i])))
    requires AllTyped(Members(rows))
    ensures AllTyped(RowsIn(s, column, Members(order[..i + 1])))
  {
    forall r | r in RowsIn(s, column, Members(order[..i + 1])) ensures Typed(r) {
      if Get(r.row, column) == order[i] { assert r in Members(rows); } else { assert Get(r.row, column) in Members(order[..i]); }
    }
  }

  lemma {:induction false} UntypedRow(s: set<Clean>, column: string, k: Value, rows: seq<Clean>)
    requires GroupRows(rows, s, column, k) && exists r | r in rows :: !Typed(r)
    ensures !AllTyped(s)
  {
    var r :| r in rows && !Typed(r);
    assert r in Members(rows);
  }

  /** The loop over the groups; reading the event type of a row without one raises. */
  method SequenceGroups(c: SequenceRule, clean: seq<Clean>) returns (res: Attempt<seq<Alert>>)
    requires NoRepeats(clean) && DistinctIds(Members(clean))
    ensures res.Done? <==> AllTyped(Members(clean))
    ensures res.Done? ==> AlertList(Sort(res.value, AlertKey), SequenceAlerts(c, Members(clean)))
  {
    ghost var s := Members(clean);
    var key := (r: Clean) => Get(r.row, c.groupingKey);
    var order, groups := GroupBy(clean, key);
    var alerts := [];
    for i := 0 to |order|
      invariant Progress(alerts, SequenceAlerts(c, s), IdsIn(s, c.groupingKey, Members(order[..i])))
      invariant AllTyped(RowsIn(s, c.groupingKey, Members(order[..i])))
    {
      assert order[i] in Members(order);
      var rows := Sort(groups[order[i]], RowKey);
      GroupSorted(clean, c.groupingKey, key, order[i]);
      if exists r | r in rows :: !Typed(r) {
        UntypedRow(s, c.groupingKey, order[i], rows);
        return RaisedKeyError;
      }
      var more := SequenceGroup(c, rows, s, order[i]);
      NextGroup(s, c.groupingKey, order, i, rows);
      NextTyped(s, c.groupingKey, order, i, rows);
      ProgressStep(alerts, more, SequenceAlerts(c, s), IdsIn(s, c.groupingKey, Members(order[..i])), IdSet(rows));
      alerts := alerts + more;
    }
    assert order[..|order|] == order;
    forall r | r in s ensures Typed(r) && Get(r.row, c.groupingKey) in Members(order) {
      assert key(r) in Members(order);
      assert r in RowsIn(s, c.groupingKey, Members(order));
    }
    forall a | a in SequenceAlerts(c, s) ensures a in alerts {
      var t :| SequenceAlert(c, s, t, a);
    }
    SortedAlerts(alerts, SequenceAlerts(c, s));
    return Done(alerts);
  }

  /** The recipe for "N failures, then a success". */
  method RunSequence(c: SequenceRule, events: seq<Row>) returns (res: Attempt<RefResult>)
    ensures res.Done? <==> AllTyped(Survivors(Kept(events, [c.groupingKey])))
    ensures res.Done? ==> AlertList(res.value.alerts, SequenceAlerts(c, Survivors(Kept(events, [c.groupingKey]))))
    ensures res.Done? ==> res.value.quarantine == Rejected(events, [c.groupingKey]) && Accounted(res.value.stats, events, [c.groupingKey])
  {
    var clean, quarantine, stats := Prepare(events, [c.groupingKey]);
    SurvivorsDistinct(Kept(events, [c.groupingKey]));
    var alerts := SequenceGroups(c, clean);
    if alerts.RaisedKeyError? { return RaisedKeyError; }
    return Done(RefResult(Sort(alerts.value, AlertKey), quarantine, stats));
  }

  // ------------------------------------------------------------------ DistinctCountWithinWindow

  datatype DistinctRule = DistinctRule(behaviour: string, groupingKey: string, distinctField: string, filterType: string,
                                       threshold: int, windowSeconds: int)

  function ObsOf(c: DistinctRule, r: Clean): Obs {
    Obs(Id(r), r.micros, Get(r.row, c.groupingKey), Get(r.row, c.distinctField))
  }

  ghost function Matching(s: set<Clean>, eventType: string): set<Clean> {
    set r | r in s && TypeOf(r) == Str(eventType)
  }

  ghost function Observations(c: DistinctRule, s: set<Clean>): set<Obs> {
    set r | r in Matching(s, c.filterType) :: ObsOf(c, r)
  }

  /** The matching events of `t`'s group in the closed window that ends at `t`. */
  ghost function Peers(c: DistinctRule, s: set<Clean>, t: Clean): set<Clean> {
    set x | x in Matching(s, c.filterType) && Get(x.row, c.groupingKey) == Get(t.row, c.groupingKey)
            && t.micros - c.windowSeconds * 1_000_000 <= x.micros <= t.micros
  }

  /** The values the distinct-count rule counts for an event at `t`. */
  ghost function Shown(c: DistinctRule, s: set<Clean>, t: Clean): set<Value> {
    Values(Observations(c, s), Get(t.row, c.groupingKey), t.micros - c.windowSeconds * 1_000_000, t.micros)
  }

  /** `a` is the alert of the incident that event `t` starts. */
  ghost predicate DistinctAlert(c: DistinctRule, s: set<Clean>, t: Clean, a: Alert) {
    && t in Matching(s, c.filterType)
    && RisingEdge(Observations(c, s), ObsOf(c, t), c.windowSeconds * 1_000_000, c.threshold)
    && a.behaviour == c.behaviour && a.groupKey == Get(t.row, c.groupingKey) && a.trigger == Id(t)
    && a.detectedAt == Get(t.row, "timestamp") && a.windowStart == t.micros - c.windowSeconds * 1_000_000
    && a.matchedCount == |Shown(c, s, t)|
    && exists rows :: Lists(rows, Peers(c, s, t)) && a.evidence == Ids(rows)
  }

  ghost function DistinctAlerts(c: DistinctRule, s: set<Clean>): iset<Alert> {
    iset a, t | DistinctAlert(c, s, t, a) :: a
  }

  function ValuesOf(rows: seq<Clean>, column: string): set<Value> { set r | r in rows :: Get(r.row, column) }

  function InWindow(c: DistinctRule, rows: seq<Clean>, t: Clean): seq<Clean> {
    Within(rows, t.micros - c.windowSeconds * 1_000_000, t.micros)
  }

  predicate Breaching(c: DistinctRule, rows: seq<Clean>, t: Clean) {
    |ValuesOf(InWindow(c, rows, t), c.distinctField)| >= c.threshold
  }

  function DistinctFinding(c: DistinctRule, rows: seq<Clean>, i: nat): seq<Alert>
    requires i < |rows|
  {
    if Breaching(c, rows, rows[i]) && !(i > 0 && Breaching(c, rows, rows[i - 1])) then
      [IncidentAlert(c, rows[i], InWindow(c, rows, rows[i]))]
    else []
  }

  function IncidentAlert(c: DistinctRule, t: Clean, inside: seq<Clean>): Alert {
    MakeAlert(c.behaviour, t, c.groupingKey, c.windowSeconds * 1_000_000, |ValuesOf(inside, c.distinctField)|, inside)
  }

  function DistinctScan(c: DistinctRule, rows: seq<Clean>, n: nat): seq<Alert>
    requires n <= |rows|
  {
    if n == 0 then [] else DistinctScan(c, rows, n - 1) + DistinctFinding(c, rows, n - 1)
  }

  /** The sorted matching rows of group `k`. */
  ghost predicate MatchingRows(c: DistinctRule, rows: seq<Clean>, s: set<Clean>, k: Value) {
    GroupRows(rows, Matching(s, c.filterType), c.groupingKey, k)
  }

  lemma {:induction false} PeersListed(c: DistinctRule, s: set<Clean>, rows: seq<Clean>, k: Value, t: Clean)
    requires MatchingRows(c, rows, s, k) && t in rows
    ensures Lists(InWindow(c, rows, t), Peers(c, s, t))
  {
    assert t in Members(rows);
    var w := c.windowSeconds * 1_000_000;
    var inside := InWindow(c, rows, t);
    AboutWithin(rows, t.micros - w, t.micros);
    forall x ensures x in Members(inside) <==> x in Peers(c, s, t) {
      assert x in rows <==> x in Members(rows);
    }
  }

  lemma {:induction false} PeersShow(c: DistinctRule, s: set<Clean>, inside: seq<Clean>, t: Clean)
    requires Members(inside) == Peers(c, s, t)
    ensures ValuesOf(inside, c.distinctField) == Shown(c, s, t)
  {
    var w, k := c.windowSeconds * 1_000_000, Get(t.row, c.groupingKey);
    forall v | v in ValuesOf(inside, c.distinctField) ensures v in Shown(c, s, t) {
      var x :| x in inside && Get(x.row, c.distinctField) == v;
      assert x in Members(inside);
      var o := ObsOf(c, x);
      assert o in Observations(c, s) && Inside(o, k, t.micros - w, t.micros);
    }
    forall v | v in Shown(c, s, t) ensures v in ValuesOf(inside, c.distinctField) {
      var o :| o in Observations(c, s) && Inside(o, k, t.micros - w, t.micros) && o.value == v;
      var x :| x in Matching(s, c.filterType) && ObsOf(c, x) == o;
      assert x in Members(inside);
    }
  }

  lemma {:induction false} WindowOfRows(c: DistinctRule, s: set<Clean>, rows: seq<Clean>, k: Value, t: Clean)
    requires MatchingRows(c, rows, s, k) && t in rows
    ensures Lists(InWindow(c, rows, t), Peers(c, s, t))
    ensures ValuesOf(InWindow(c, rows, t), c.distinctField) == Shown(c, s, t)
    ensures Breaching(c, rows, t) <==> Breach(Observations(c, s), k, t.micros, c.windowSeconds * 1_000_000, c.threshold)
  {
    assert t in Members(rows);
    PeersListed(c, s, rows, k, t);
    PeersShow(c, s, InWindow(c, rows, t), t);
  }

  function ObsRows(c: DistinctRule, rows: seq<Clean>): (r: seq<Obs>)
    ensures |r| == |rows| && forall i | 0 <= i < |rows| :: r[i] == ObsOf(c, rows[i])
  {
    if rows == [] then [] else ObsRows(c, rows[..|rows| - 1]) + [ObsOf(c, rows[|rows| - 1])]
  }

  /** Scanning one group's rows tests exactly the rising edges of the whole log. */
  lemma {:induction false} ScanTestsEdges(c: DistinctRule, s: set<Clean>, rows: seq<Clean>, k: Value, i: nat)
    requires DistinctIds(s) && MatchingRows(c, rows, s, k) && i < |rows|
    ensures (Breaching(c, rows, rows[i]) && !(i > 0 && Breaching(c, rows, rows[i - 1]))) <==>
            RisingEdge(Observations(c, s), ObsOf(c, rows[i]), c.windowSeconds * 1_000_000, c.threshold)
  {
    var w := c.windowSeconds * 1_000_000;
    var obs := ObsRows(c, rows);
    forall o: Obs | o.group == k ensures o in Members(obs) <==> o in Observations(c, s) {
      if o in Observations(c, s) {
        var x :| x in Matching(s, c.filterType) && ObsOf(c, x) == o;
        assert x in Members(rows);
        var j :| 0 <= j < |rows| && rows[j] == x;
        assert obs[j] == o;
      }
      if o in Members(obs) {
        var j :| 0 <= j < |obs| && obs[j] == o;
        assert rows[j] in Members(rows);
      }
    }
    assert forall r | r in rows :: r in Members(rows);
    GroupObserved(c, rows, k);
    assert ObsOf(c, rows[i]) == obs[i];
    EdgeIsEmitted(obs, k, i, w, c.threshold);
    RisingEdgeLocal(Members(obs), Observations(c, s), obs[i], w, c.threshold);
    WindowOfRows(c, s, rows, k, rows[i]);
    BreachLocal(Members(obs), Observations(c, s), k, rows[i].micros, w, c.threshold);
    if i > 0 {
      WindowOfRows(c, s, rows, k, rows[i - 1]);
      BreachLocal(Members(obs), Observations(c, s), k, rows[i - 1].micros, w, c.threshold);
    }
  }

  lemma {:induction false} GroupObserved(c: DistinctRule, rows: seq<Clean>, k: Value)
    requires StrictlySortedBy(rows, RowKey) && forall r | r in rows :: Get(r.row, c.groupingKey) == k
    ensures SortedBy(ObsRows(c, rows), KeyOf) && OneGroup(ObsRows(c, rows), k)
    ensures forall j | 0 < j < |rows| :: Earlier(ObsRows(c, rows)[j - 1], ObsRows(c, rows)[j])
  {
    var obs := ObsRows(c, rows);
    forall i, j | 0 <= i < j < |obs| ensures Earlier(obs[i], obs[j]) && !KeyLess(KeyOf(obs[j]), KeyOf(obs[i])) {
      KeyLessTotal(RowKey(rows[i]), RowKey(rows[j]));
    }
  }

  lemma {:induction false} PeerAlertIs(c: DistinctRule, s: set<Clean>, t: Clean, inside: seq<Clean>, b: Alert)
    requires t in Matching(s, c.filterType) && Lists(inside, Peers(c, s, t))
    requires RisingEdge(Observations(c, s), ObsOf(c, t), c.windowSeconds * 1_000_000, c.threshold)
    ensures DistinctAlert(c, s, t, b) <==>
            b == MakeAlert(c.behaviour, t, c.groupingKey, c.windowSeconds * 1_000_000, |Shown(c, s, t)|, inside)
  {
    if DistinctAlert(c, s, t, b) {
      var r :| Lists(r, Peers(c, s, t)) && b.evidence == Ids(r);
      ListsUnique(r, inside, Peers(c, s, t));
    }
  }

  lemma {:induction false} DistinctAlertIs(c: DistinctRule, s: set<Clean>, rows: seq<Clean>, k: Value, i: nat, b: Alert)
    requires DistinctIds(s) && MatchingRows(c, rows, s, k) && i < |rows|
    ensures DistinctAlert(c, s, rows[i], b) <==> b in DistinctFinding(c, rows, i)
  {
    var t := rows[i];
    assert t in Members(rows);
    ScanTestsEdges(c, s, rows, k, i);
    WindowOfRows(c, s, rows, k, t);
    if RisingEdge(Observations(c, s), ObsOf(c, t), c.windowSeconds * 1_000_000, c.threshold) {
      PeerAlertIs(c, s, t, InWindow(c, rows, t), b);
    }
  }

  lemma {:induction false} DistinctScanFindsAll(c: DistinctRule, s: set<Clean>, rows: seq<Clean>, k: Value, n: nat)
    requires DistinctIds(s) && MatchingRows(c, rows, s, k) && n <= |rows| && IdsDiffer(rows)
    ensures Progress(DistinctScan(c, rows, n), DistinctAlerts(c, s), IdSet(rows[..n]))
  {
    if n > 0 {
      var t := rows[n - 1];
      assert rows[..n][..n - 1] == rows[..n - 1];
      LastId(rows[..n]);
      DistinctScanFindsAll(c, s, rows, k, n - 1);
      forall b ensures DistinctAlert(c, s, t, b) <==> b in DistinctFinding(c, rows, n - 1) { DistinctAlertIs(c, s, rows, k, n - 1, b); }
      forall b | b in DistinctAlerts(c, s) && b.trigger == Id(t) ensures b in DistinctFinding(c, rows, n - 1) {
        var t' :| DistinctAlert(c, s, t', b);
        assert t in Members(rows);
        assert t' == t;
      }
      forall b | b in DistinctFinding(c, rows, n - 1) ensures b in DistinctAlerts(c, s) && b.trigger == Id(t) {
        assert DistinctAlert(c, s, t, b);
      }
      ProgressStep(DistinctScan(c, rows, n - 1), DistinctFinding(c, rows, n - 1), DistinctAlerts(c, s), IdSet(rows[..n - 1]), {Id(t)});
    }
  }

  lemma {:induction false} DistinctGroupScanned(c: DistinctRule, s: set<Clean>, rows: seq<Clean>, k: Value)
    requires DistinctIds(s) && MatchingRows(c, rows, s, k)
    ensures Progress(DistinctScan(c, rows, |rows|), DistinctAlerts(c, s), IdSet(rows))
  {
    assert rows[..|rows|] == rows;
    assert forall r :: r in rows <==> r in Members(rows);
    SortedIdsDiffer(rows, s);
    DistinctScanFindsAll(c, s, rows, k, |rows|);
  }

  /** The loop over one group: the alerts of its rising edges, each once. */
  method DistinctGroup(c: DistinctRule, rows: seq<Clean>, ghost s: set<Clean>, ghost k: Value) returns (alerts: seq<Alert>)
    requires DistinctIds(s) && MatchingRows(c, rows, s, k)
    ensures alerts == DistinctScan(c, rows, |rows|)
    ensures Progress(alerts, DistinctAlerts(c, s), IdSet(rows))
  {
    alerts := [];
    var previously := false;
    for i := 0 to |rows|
      invariant alerts == DistinctScan(c, rows, i)
      invariant previously <==> i > 0 && Breaching(c, rows, rows[i - 1])
    {
      var r := rows[i];
      var inside := InWindow(c, rows, r);
      var breaching := |ValuesOf(inside, c.distinctField)| >= c.threshold;
      if breaching && !previously {
        alerts := alerts + [IncidentAlert(c, r, inside)];
      }
      previously := breaching;
    }
    DistinctGroupScanned(c, s, rows, k);
  }

  lemma {:induction false} MatchingOfType(rows: seq<Clean>, eventType: string)
    requires NoRepeats(rows)
    ensures NoRepeats(OfType(rows, eventType))
    ensures Members(OfType(rows, eventType)) == Matching(Members(rows), eventType)
  {
    if rows != [] {
      var rest, last := rows[..|rows| - 1], rows[|rows| - 1];
      MatchingOfType(rest, eventType);
      assert rows == rest + [last];
      assert Members(rows) == Members(rest) + {last} && last !in Members(rest);
      assert forall x :: x in OfType(rest, eventType) <==> x in Members(OfType(rest, eventType));
      if TypeOf(last) == Str(eventType) { AppendNew(OfType(rest, eventType), last); }
    }
  }

  method DistinctGroups(c: DistinctRule, matching: seq<Clean>, ghost s: set<Clean>) returns (alerts: seq<Alert>)
    requires NoRepeats(matching) && DistinctIds(s) && Members(matching) == Matching(s, c.filterType)
    ensures AlertList(Sort(alerts, AlertKey), DistinctAlerts(c, s))
  {
    ghost var m := Members(matching);
    var key := (r: Clean) => Get(r.row, c.groupingKey);
    var order, groups := GroupBy(matching, key);
    alerts := [];
    for i := 0 to |order|
      invariant Progress(alerts, DistinctAlerts(c, s), IdsIn(m, c.groupingKey, Members(order[..i])))
    {
      assert order[i] in Members(order);
      var rows := Sort(groups[order[i]], RowKey);
      GroupSorted(matching, c.groupingKey, key, order[i]);
      var more := DistinctGroup(c, rows, s, order[i]);
      NextGroup(m, c.groupingKey, order, i, rows);
      ProgressStep(alerts, more, DistinctAlerts(c, s), IdsIn(m, c.groupingKey, Members(order[..i])), IdSet(rows));
      alerts := alerts + more;
    }
    assert order[..|order|] == order;
    forall a | a in DistinctAlerts(c, s) ensures a in alerts {
      var t :| DistinctAlert(c, s, t, a);
      assert key(t) in Members(order);
    }
    SortedAlerts(alerts, DistinctAlerts(c, s));
  }

  /** The recipe for "N distinct values in a window": one alert per incident. */
  method RunDistinct(c: DistinctRule, events: seq<Row>) returns (res: Attempt<RefResult>)
    ensures res.Done? <==> AllTyped(Survivors(Kept(events, [c.groupingKey, c.distinctField])))
    ensures res.Done? ==> AlertList(res.value.alerts, DistinctAlerts(c, Survivors(Kept(events, [c.groupingKey, c.distinctField]))))
    ensures res.Done? ==> res.value.quarantine == Rejected(events, [c.groupingKey, c.distinctField])
    ensures res.Done? ==> Accounted(res.value.stats, events, [c.groupingKey, c.distinctField])
  {
    var clean, quarantine, stats := Prepare(events, [c.groupingKey, c.distinctField]);
    SurvivorsDistinct(Kept(events, [c.groupingKey, c.distinctField]));
    MatchingOfType(clean, c.filterType);
    if exists r | r in clean :: !Typed(r) {
      assert exists r :: r in Members(clean) && !Typed(r);
      return RaisedKeyError;
    }
    var matching := OfType(clean, c.filterType);
    var alerts := DistinctGroups(c, matching, Members(clean));
    return Done(RefResult(Sort(alerts, AlertKey), quarantine, stats));
  }
}
