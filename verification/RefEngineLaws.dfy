/** What the reference engine promises about a whole log: when arrival order matters, redelivery, and that
    everything downstream depends only on the surviving rows. */
module RefEngineLaws {
  import opened Ordering
  import opened Detection
  import opened Grouping
  import opened RefEngine
  import Timestamps

  // ------------------------------------------------------------------ survivors

  /** No other copy of the event is smaller by (instant, content). */
  ghost predicate Minimal(kept: seq<Clean>, c: Clean) {
    c in kept && forall x | x in kept && Id(x) == Id(c) :: !KeyLess(ContentKey(x), ContentKey(c))
  }

  /** Copies of an event that share instant and content are the same row. */
  ghost predicate TieFree(kept: seq<Clean>) {
    forall a, b | Minimal(kept, a) && Minimal(kept, b) && Id(a) == Id(b) :: a == b
  }

  lemma {:induction false} FirstMinIsMinimal(rows: seq<Clean>)
    requires rows != []
    ensures forall x | x in rows :: !KeyLess(ContentKey(x), ContentKey(FirstMin(rows)))
  {
    KeyLessTotal(ContentKey(rows[|rows| - 1]), ContentKey(rows[|rows| - 1]));
    if |rows| > 1 {
      var rest, last := rows[..|rows| - 1], rows[|rows| - 1];
      FirstMinIsMinimal(rest);
      var m := FirstMin(rest);
      forall x | x in rows ensures !KeyLess(ContentKey(x), ContentKey(FirstMin(rows))) {
        KeyLessTotal(ContentKey(last), ContentKey(m));
        if x != last {
          assert x in rest;
          if KeyLess(ContentKey(last), ContentKey(m)) && KeyLess(ContentKey(x), ContentKey(last)) {
            KeyLessTransitive(ContentKey(x), ContentKey(last), ContentKey(m));
          }
        }
      }
    }
  }

  /** Of equal minima the one that arrived first wins. */
  lemma {:induction false} FirstMinKeepsFirst(rows: seq<Clean>)
    requires rows != []
    requires forall x | x in rows :: !KeyLess(ContentKey(x), ContentKey(rows[0]))
    ensures FirstMin(rows) == rows[0]
  {
    if |rows| > 1 {
      FirstMinKeepsFirst(rows[..|rows| - 1]);
      assert rows[|rows| - 1] in rows;
    }
  }

  lemma {:induction false} SurvivorsAreMinimal(kept: seq<Clean>, c: Clean)
    requires c in Survivors(kept)
    ensures Minimal(kept, c)
  {
    var copies := WithKey(kept, Id, Id(c));
    FirstMinIsMinimal(copies);
    forall x | x in kept && Id(x) == Id(c) ensures !KeyLess(ContentKey(x), ContentKey(c)) {
      InWithKey(kept, Id, Id(c), x);
    }
  }

  /** Without ties the survivors are exactly the minimal rows, wherever they stand. */
  lemma {:induction false} SurvivorsWithoutTies(kept: seq<Clean>, c: Clean)
    requires TieFree(kept)
    ensures c in Survivors(kept) <==> Minimal(kept, c)
  {
    if c in Survivors(kept) { SurvivorsAreMinimal(kept, c); }
    if Minimal(kept, c) {
      InWithKey(kept, Id, Id(c), c);
      var m := FirstMin(WithKey(kept, Id, Id(c)));
      InWithKey(kept, Id, Id(c), m);
      assert m in Survivors(kept);
      SurvivorsAreMinimal(kept, m);
    }
  }

  lemma {:induction false} InKept(events: seq<Row>, keys: seq<string>, c: Clean)
    ensures c in Kept(events, keys) <==>
              c.row in events && Reason(c.row, keys).None? && c.micros == ParseMicros(Get(c.row, "timestamp")).value
  {
    if events != [] {
      var rest, last := events[..|events| - 1], events[|events| - 1];
      InKept(rest, keys, c);
      assert c.row in events <==> c.row in rest || c.row == last;
    }
  }

  lemma {:induction false} KeptAppend(a: seq<Row>, b: seq<Row>, keys: seq<string>)
    ensures Kept(a + b, keys) == Kept(a, keys) + Kept(b, keys)
  {
    if b == [] {
      assert a + b == a;
    } else {
      KeptAppend(a, b[..|b| - 1], keys);
      assert (a + b)[..|a + b| - 1] == a + b[..|b| - 1];
    }
  }

  lemma {:induction false} WithKeyAppend(a: seq<Clean>, b: seq<Clean>, k: Value)
    ensures WithKey(a + b, Id, k) == WithKey(a, Id, k) + WithKey(b, Id, k)
  {
    if b == [] {
      assert a + b == a;
    } else {
      WithKeyAppend(a, b[..|b| - 1], k);
      assert (a + b)[..|a + b| - 1] == a + b[..|b| - 1];
    }
  }

  /** Without ties, neither the order of arrival nor the number of deliveries changes what is evaluated. */
  lemma {:induction false} SameMembersSameSurvivors(a: seq<Row>, b: seq<Row>, keys: seq<string>)
    requires forall r :: r in a <==> r in b
    requires TieFree(Kept(a, keys))
    ensures Survivors(Kept(a, keys)) == Survivors(Kept(b, keys))
  {
    var ka, kb := Kept(a, keys), Kept(b, keys);
    forall c ensures c in ka <==> c in kb { InKept(a, keys, c); InKept(b, keys, c); }
    forall c ensures Minimal(ka, c) <==> Minimal(kb, c) {}
    forall c ensures c in Survivors(ka) <==> c in Survivors(kb) {
      SurvivorsWithoutTies(ka, c);
      SurvivorsWithoutTies(kb, c);
    }
  }

  lemma {:induction false} MoveToFront<T>(s: seq<T>, x: T) returns (rest: seq<T>)
    requires x in s
    ensures multiset([x] + rest) == multiset(s)
  {
    var i :| 0 <= i < |s| && s[i] == x;
    rest := s[..i] + s[i + 1..];
    assert s == s[..i] + [x] + s[i + 1..];
  }

  lemma {:induction false} FirstCopy(c: Clean, later: seq<Clean>)
    requires Minimal([c] + later, c)
    ensures c in Survivors([c] + later)
  {
    var kept := [c] + later;
    var copies := WithKey(kept, Id, Id(c));
    WithKeyAppend([c], later, Id(c));
    assert [c][..0] == [];
    assert copies[0] == c;
    forall x | x in copies ensures !KeyLess(ContentKey(x), ContentKey(c)) { InWithKey(kept, Id, Id(c), x); }
    FirstMinKeepsFirst(copies);
    assert c in kept;
  }

  /** A minimal row that is delivered first is the one that survives. */
  lemma {:induction false} DeliveredFirstSurvives(events: seq<Row>, keys: seq<string>, c: Clean) returns (p: seq<Row>)
    requires Minimal(Kept(events, keys), c)
    ensures multiset(p) == multiset(events)
    ensures c in Survivors(Kept(p, keys))
  {
    InKept(events, keys, c);
    var rest := MoveToFront(events, c.row);
    p := [c.row] + rest;
    SameMembers(p, events);
    forall x ensures x in Kept(p, keys) <==> x in Kept(events, keys) { InKept(p, keys, x); InKept(events, keys, x); }
    KeptAppend([c.row], rest, keys);
    assert [c.row][..0] == [];
    assert Kept([c.row], keys) == [c];
    FirstCopy(c, Kept(rest, keys));
  }

  ghost predicate OrderIrrelevant(events: seq<Row>, keys: seq<string>) {
    forall p | multiset(p) == multiset(events) :: Survivors(Kept(p, keys)) == Survivors(Kept(events, keys))
  }

  /** Arrival order is irrelevant exactly when no event has two different copies that tie on instant and content. */
  lemma {:induction false} ArrivalOrderIrrelevantIffTieFree(events: seq<Row>, keys: seq<string>)
    ensures OrderIrrelevant(events, keys) <==> TieFree(Kept(events, keys))
  {
    var kept := Kept(events, keys);
    if TieFree(kept) {
      forall p | multiset(p) == multiset(events) ensures Survivors(Kept(p, keys)) == Survivors(kept) {
        SameMembers(p, events);
        SameMembersSameSurvivors(events, p, keys);
      }
    }
    if OrderIrrelevant(events, keys) {
      forall a, b | Minimal(kept, a) && Minimal(kept, b) && Id(a) == Id(b) ensures a == b {
        var p := DeliveredFirstSurvives(events, keys, a);
        var q := DeliveredFirstSurvives(events, keys, b);
        assert a in Survivors(kept) && b in Survivors(kept);
        SurvivorsDistinct(kept);
      }
    }
  }

  // ------------------------------------------------------------------ an input whose report depends on arrival order

  /** A login event of one account. */
  function LoginRow(id: string, t: string, eventType: string): Row {
    map["account_id" := Str("u"), "event_id" := Str(id), "event_type" := Str(eventType), "timestamp" := Str(t)]
  }

  /** A damaged copy of it: the event type has slipped into the session column. */
  function SlippedRow(id: string, t: string, eventType: string): Row {
    map["account_id" := Str("u"), "event_id" := Str(id), "event_type" := Null, "session_id" := Str(eventType), "timestamp" := Str(t)]
  }

  lemma {:induction false} ContentOfFour(r: Row, w: string, x: string, y: string, z: string)
    requires (set column | column in r.Keys && r[column] != Null) == {w, x, y, z}
    requires StringLess(w, x) && StringLess(x, y) && StringLess(y, z)
    ensures Content(r) == TextOf(r[w]) + (SEPARATOR + (TextOf(r[x]) + (SEPARATOR + (TextOf(r[y]) + (SEPARATOR + (TextOf(r[z]) + ""))))))
  {
    FirstOfFour(w, x, y, z);
    assert {w, x, y, z} - {w} == {x, y, z} && {x, y, z} - {x} == {y, z} && {y, z} - {y} == {z} && {z} - {z} == {};
    assert ContentOf(r, {z}) == TextOf(r[z]) + "";
    assert ContentOf(r, {y, z}) == TextOf(r[y]) + (SEPARATOR + ContentOf(r, {z}));
    assert ContentOf(r, {x, y, z}) == TextOf(r[x]) + (SEPARATOR + ContentOf(r, {y, z}));
  }

  lemma {:induction false} FirstOfFour(w: string, x: string, y: string, z: string)
    requires StringLess(w, x) && StringLess(x, y) && StringLess(y, z)
    ensures FirstName({w, x, y, z}) == w && FirstName({x, y, z}) == x && FirstName({y, z}) == y && FirstName({z}) == z
    ensures w != x && w != y && w != z && x != y && x != z && y != z
  {
    StringLessTransitive(w, x, y); StringLessTransitive(x, y, z); StringLessTransitive(w, x, z);
    StringLessTotal(w, x); StringLessTotal(w, y); StringLessTotal(w, z);
    StringLessTotal(x, y); StringLessTotal(x, z); StringLessTotal(y, z);
  }

  lemma {:induction false} ContentOfLogin(id: string, t: string, eventType: string)
    ensures Content(LoginRow(id, t, eventType)) == "u" + (SEPARATOR + (id + (SEPARATOR + (eventType + (SEPARATOR + (t + ""))))))
  {
    ContentOfFour(LoginRow(id, t, eventType), "account_id", "event_id", "event_type", "timestamp");
  }

  lemma {:induction false} ContentOfSlipped(id: string, t: string, eventType: string)
    ensures Content(SlippedRow(id, t, eventType)) == "u" + (SEPARATOR + (id + (SEPARATOR + (eventType + (SEPARATOR + (t + ""))))))
  {
    ContentOfFour(SlippedRow(id, t, eventType), "account_id", "event_id", "session_id", "timestamp");
  }

  lemma {:induction false} FirstOfTwo(a: Clean, b: Clean)
    requires ContentKey(a) == ContentKey(b)
    ensures FirstMin([a, b]) == a
  {
    KeyLessTotal(ContentKey(a), ContentKey(b));
    assert [a, b][..1] == [a];
  }

  /** Of two tying copies the one that arrives first is evaluated. */
  lemma {:induction false} FirstOfTie(f: Clean, a: Clean, b: Clean)
    requires Id(a) == Id(b) && Id(f) != Id(a) && ContentKey(a) == ContentKey(b)
    ensures Survivors([f, a, b]) == {f, a}
  {
    CopiesOfThree(f, a, b);
    FirstOfTwo(a, b);
    assert FirstMin([f]) == f;
  }

  lemma {:induction false} CopiesOfThree(f: Clean, a: Clean, b: Clean)
    requires Id(a) == Id(b) && Id(f) != Id(a)
    ensures WithKey([f, a, b], Id, Id(f)) == [f] && WithKey([f, a, b], Id, Id(a)) == [a, b]
  {
    OneCopy(f, Id(f)); OneCopy(f, Id(a));
    WithKeySnoc([f], a, Id, Id(f)); WithKeySnoc([f], a, Id, Id(a));
    WithKeySnoc([f, a], b, Id, Id(f)); WithKeySnoc([f, a], b, Id, Id(a));
    assert [f] + [a] == [f, a] && [f, a] + [b] == [f, a, b] && [] + [a] == [a] && [a] + [b] == [a, b];
  }

  lemma {:induction false} OneCopy(f: Clean, id: Value)
    ensures WithKey([f], Id, id) == if Id(f) == id then [f] else []
  {
    assert [f][..0] == [];
  }

  lemma {:induction false} KeptThree(f: Row, a: Row, b: Row, keys: seq<string>, m: int)
    requires forall r | r in [f, a, b] :: Reason(r, keys).None? && ParseMicros(Get(r, "timestamp")).value == m
    ensures Kept([f, a, b], keys) == [Clean(f, m), Clean(a, m), Clean(b, m)]
  {
    assert f in [f, a, b] && a in [f, a, b] && b in [f, a, b];
    KeptAppend([f], [a], keys);
    KeptAppend([f, a], [b], keys);
    assert [f] + [a] == [f, a] && [f, a] + [b] == [f, a, b];
    assert [f][..0] == [] && [a][..0] == [] && [b][..0] == [];
  }

  /** What is evaluated of a log with two tying copies, in either order of the copies. */
  lemma {:induction false} TieEvaluated(k: string, t: string, f: Row, a: Row, b: Row)
    requires Timestamps.Parse(t).Some? && a == LoginRow("x", t, k) && b == SlippedRow("x", t, k)
    requires f == LoginRow("f", t, "login_failure")
    ensures var m := Timestamps.Parse(t).value;
            && Survivors(Kept([f, a, b], ["account_id"])) == {Clean(f, m), Clean(a, m)}
            && Survivors(Kept([f, b, a], ["account_id"])) == {Clean(f, m), Clean(b, m)}
  {
    var m := Timestamps.Parse(t).value;
    forall r | r in [f, a, b] || r in [f, b, a] ensures Reason(r, ["account_id"]).None? && ParseMicros(Get(r, "timestamp")).value == m {
      assert FirstNull(r, ["account_id"][1..]) == None;
    }
    KeptThree(f, a, b, ["account_id"], m);
    KeptThree(f, b, a, ["account_id"], m);
    ContentOfLogin("x", t, k);
    ContentOfSlipped("x", t, k);
    FirstOfTie(Clean(f, m), Clean(a, m), Clean(b, m));
    FirstOfTie(Clean(f, m), Clean(b, m), Clean(a, m));
  }

  /** The same three rows in two orders: delivered before its damaged copy, the login triggers an alert; delivered after it, the account
      has no trigger left. */
  lemma {:induction false} ReportDependsOnOrder(c: SequenceRule, t: string)
    requires Timestamps.Parse(t).Some? && c.groupingKey == "account_id" && c.countType == "login_failure" && c.triggerType != c.countType
    requires c.threshold == 1 && c.windowSeconds >= 0
    ensures var f, a, b := LoginRow("f", t, c.countType), LoginRow("x", t, c.triggerType), SlippedRow("x", t, c.triggerType);
            && multiset([f, a, b]) == multiset([f, b, a]) && !TieFree(Kept([f, a, b], [c.groupingKey]))
            && (exists found :: found in SequenceAlerts(c, Survivors(Kept([f, a, b], [c.groupingKey]))) && found.trigger == Str("x"))
            && (forall found :: found !in SequenceAlerts(c, Survivors(Kept([f, b, a], [c.groupingKey]))))
  {
    var f, a, b := LoginRow("f", t, c.countType), LoginRow("x", t, c.triggerType), SlippedRow("x", t, c.triggerType);
    var m := Timestamps.Parse(t).value;
    TieEvaluated(c.triggerType, t, f, a, b);
    Swapped(f, a, b);
    TriggerSeen(c, Clean(f, m), Clean(a, m));
    NoTriggerSeen(c, Clean(f, m), Clean(b, m));
    OrderShowsTie([f, a, b], [f, b, a], [c.groupingKey]);
  }

  lemma {:induction false} Swapped<T>(f: T, a: T, b: T)
    ensures multiset([f, a, b]) == multiset([f, b, a])
  {}

  /** If the order decides what is evaluated, there is a tie. */
  lemma {:induction false} OrderShowsTie(x: seq<Row>, y: seq<Row>, keys: seq<string>)
    requires multiset(x) == multiset(y)
    ensures Survivors(Kept(x, keys)) == Survivors(Kept(y, keys)) || !TieFree(Kept(x, keys))
  {
    SameMembers(x, y);
    if TieFree(Kept(x, keys)) { SameMembersSameSurvivors(x, y, keys); }
  }

  lemma {:induction false} TriggerSeen(c: SequenceRule, f: Clean, a: Clean)
    requires c.threshold == 1 && c.windowSeconds >= 0 && f.micros == a.micros && Id(f) != Id(a)
    requires TypeOf(f) == Str(c.countType) && TypeOf(a) == Str(c.triggerType) && Get(f.row, c.groupingKey) == Get(a.row, c.groupingKey)
    ensures exists found :: found in SequenceAlerts(c, {f, a}) && found.trigger == Id(a)
  {
    assert f in Counted(c, {f, a}, a);
    var found := SequenceAlertFor(c, {f, a}, a);
  }

  lemma {:induction false} NoTriggerSeen(c: SequenceRule, f: Clean, b: Clean)
    requires TypeOf(f) != Str(c.triggerType) && TypeOf(b) != Str(c.triggerType)
    ensures forall found :: found !in SequenceAlerts(c, {f, b})
  {}

  /** An alert exists for every trigger that deserves one. */
  lemma {:induction false} SequenceAlertFor(c: SequenceRule, s: set<Clean>, t: Clean) returns (a: Alert)
    requires DistinctIds(s) && t in s && TypeOf(t) == Str(c.triggerType) && |Counted(c, s, t)| >= c.threshold
    ensures a in SequenceAlerts(c, s) && a.groupKey == Get(t.row, c.groupingKey) && a.trigger == Id(t)
  {
    var inside := PeersInOrder(Counted(c, s, t));
    a := TriggerAlert(c, t, inside);
    SequenceAlertIs(c, s, t, inside, a);
    SortedSize(inside);
    assert SequenceAlert(c, s, t, a);
  }

  function Smaller(m: Clean, x: Clean): Clean { if KeyLess(ContentKey(x), ContentKey(m)) then x else m }

  lemma {:induction false} FirstMinSnoc(rest: seq<Clean>, last: Clean)
    requires rest != []
    ensures FirstMin(rest + [last]) == Smaller(FirstMin(rest), last)
  {
    assert (rest + [last])[..|rest|] == rest;
  }

  lemma {:induction false} FirstMinAgain(before: seq<Clean>, c: Clean)
    requires c in before
    ensures FirstMin(before + [c]) == FirstMin(before)
  {
    FirstMinIsMinimal(before);
    FirstMinSnoc(before, c);
  }

  lemma {:induction false} Regroup<T>(a: seq<T>, b: seq<T>)
    requires b != []
    ensures a + b == (a + b[..|b| - 1]) + [b[|b| - 1]]
  {}

  /** Rows with the same first smallest one still have it in common when more rows follow. */
  lemma {:induction false} FirstMinFollowed(a: seq<Clean>, b: seq<Clean>, after: seq<Clean>)
    requires a != [] && b != [] && FirstMin(a) == FirstMin(b)
    ensures FirstMin(a + after) == FirstMin(b + after)
  {
    if after == [] {
      assert a + [] == a && b + [] == b;
    } else {
      var rest, last := after[..|after| - 1], after[|after| - 1];
      FirstMinFollowed(a, b, rest);
      Regroup(a, after);
      Regroup(b, after);
      FirstMinSnoc(a + rest, last);
      FirstMinSnoc(b + rest, last);
    }
  }

  lemma {:induction false} CopiesRepeated(before: seq<Clean>, c: Clean, after: seq<Clean>, id: Value)
    ensures WithKey(before + after, Id, id) == WithKey(before, Id, id) + WithKey(after, Id, id)
    ensures WithKey(before + [c] + after, Id, id)
            == (if Id(c) == id then WithKey(before, Id, id) + [c] else WithKey(before, Id, id)) + WithKey(after, Id, id)
  {
    WithKeyAppend(before, after, id);
    WithKeyAppend(before + [c], after, id);
    WithKeySnoc(before, c, Id, id);
  }

  lemma {:induction false} SurvivorsRepeated(before: seq<Clean>, c: Clean, after: seq<Clean>)
    requires c in before
    ensures Survivors(before + [c] + after) == Survivors(before + after)
  {
    forall x ensures Survives(before + [c] + after, x) <==> Survives(before + after, x) {
      CopiesRepeated(before, c, after, Id(x));
      if Id(c) == Id(x) {
        var copies := WithKey(before, Id, Id(x));
        InWithKey(before, Id, Id(x), c);
        FirstMinAgain(copies, c);
        FirstMinFollowed(copies + [c], copies, WithKey(after, Id, Id(x)));
      }
    }
    assert forall x :: x in before + [c] + after <==> x in before + after;
  }

  /** Redelivering an exact copy of an event, at any later place, never changes what is evaluated, ties or not. */
  lemma {:induction false} RedeliveryChangesNothing(before: seq<Row>, after: seq<Row>, keys: seq<string>, e: Row)
    requires e in before
    ensures Survivors(Kept(before + [e] + after, keys)) == Survivors(Kept(before + after, keys))
  {
    KeptAppend(before + [e], after, keys);
    KeptAppend(before, [e], keys);
    KeptAppend(before, after, keys);
    var extra := Kept([e], keys);
    assert [e][..0] == [];
    if extra != [] {
      InKept(before, keys, extra[0]);
      assert extra == [extra[0]];
      SurvivorsRepeated(Kept(before, keys), extra[0], Kept(after, keys));
    } else {
      assert Kept(before, keys) + [] == Kept(before, keys);
    }
  }

  /** The quarantine report lists the same rows and reasons in any order of arrival. */
  lemma {:induction false} QuarantineOrder(a: seq<Row>, b: seq<Row>, keys: seq<string>)
    requires multiset(a) == multiset(b)
    ensures multiset(Rejected(a, keys)) == multiset(Rejected(b, keys))
    decreases |a|
  {
    SameMembers(a, b);
    if a != [] {
      var x := a[|a| - 1];
      var l, r := SplitAtLast(a, b);
      QuarantineOrder(a[..|a| - 1], l + r, keys);
      RejectedAppend(l + [x], r, keys);
      RejectedAppend(l, [x], keys);
      RejectedAppend(l, r, keys);
      assert [x][..0] == [];
    }
  }

  lemma {:induction false} RejectedSnoc(rest: seq<Row>, x: Row, keys: seq<string>)
    ensures Rejected(rest + [x], keys) == Rejected(rest, keys) + Rejected([x], keys)
  {
    assert (rest + [x])[..|rest|] == rest && [x][..0] == [];
  }

  lemma {:induction false} Associate<T>(a: seq<T>, b: seq<T>, c: seq<T>)
    ensures a + b + c == a + (b + c)
  {}

  lemma {:induction false} RejectedAppend(a: seq<Row>, b: seq<Row>, keys: seq<string>)
    ensures Rejected(a + b, keys) == Rejected(a, keys) + Rejected(b, keys)
  {
    if b == [] {
      assert a + b == a;
    } else {
      var rest, last := b[..|b| - 1], b[|b| - 1];
      RejectedAppend(a, rest, keys);
      Regroup(a, b);
      RejectedSnoc(a + rest, last, keys);
      assert b == rest + [last];
      RejectedSnoc(rest, last, keys);
      Associate(Rejected(a, keys), Rejected(rest, keys), Rejected([last], keys));
    }
  }

  // ------------------------------------------------------------------ whole reports

  /** Shuffled or redelivered logs give the identical sequence-rule report, alert by alert and in order. */
  lemma {:induction false} SequenceReportOrder(c: SequenceRule, a: seq<Row>, b: seq<Row>, ra: seq<Alert>, rb: seq<Alert>)
    requires forall r :: r in a <==> r in b
    requires TieFree(Kept(a, [c.groupingKey]))
    requires AlertList(ra, SequenceAlerts(c, Survivors(Kept(a, [c.groupingKey]))))
    requires AlertList(rb, SequenceAlerts(c, Survivors(Kept(b, [c.groupingKey]))))
    ensures ra == rb
  {
    SameMembersSameSurvivors(a, b, [c.groupingKey]);
    StrictlySortedUnique(ra, rb, AlertKey);
  }

  /** The same for the distinct-count recipe. */
  lemma {:induction false} DistinctReportOrder(c: DistinctRule, a: seq<Row>, b: seq<Row>, ra: seq<Alert>, rb: seq<Alert>)
    requires forall r :: r in a <==> r in b
    requires TieFree(Kept(a, [c.groupingKey, c.distinctField]))
    requires AlertList(ra, DistinctAlerts(c, Survivors(Kept(a, [c.groupingKey, c.distinctField]))))
    requires AlertList(rb, DistinctAlerts(c, Survivors(Kept(b, [c.groupingKey, c.distinctField]))))
    ensures ra == rb
  {
    SameMembersSameSurvivors(a, b, [c.groupingKey, c.distinctField]);
    StrictlySortedUnique(ra, rb, AlertKey);
  }

  /** The same for the rows the policy join visits: event order and policy order drop out of its report. */
  lemma {:induction false} PolicyReportOrder(filterType: string, a: seq<Row>, b: seq<Row>, ra: seq<Clean>, rb: seq<Clean>)
    requires forall r :: r in a <==> r in b
    requires TieFree(Kept(a, ["account_id"]))
    requires Lists(ra, Matching(Survivors(Kept(a, ["account_id"])), filterType))
    requires Lists(rb, Matching(Survivors(Kept(b, ["account_id"])), filterType))
    ensures ra == rb
  {
    SameMembersSameSurvivors(a, b, ["account_id"]);
    ListsUnique(ra, rb, Matching(Survivors(Kept(a, ["account_id"])), filterType));
  }

  /** A group of the distinct-count report has an alert exactly when some closed window, placed anywhere in time,
      shows enough distinct values among the surviving events. */
  lemma {:induction false} DistinctReportComplete(c: DistinctRule, events: seq<Row>, report: seq<Alert>, g: Value)
    requires c.threshold >= 1
    requires AlertList(report, DistinctAlerts(c, Survivors(Kept(events, [c.groupingKey, c.distinctField]))))
    ensures (exists a :: a in report && a.groupKey == g) <==>
            SomeIntervalHolds(Observations(c, Survivors(Kept(events, [c.groupingKey, c.distinctField]))), g,
                              c.windowSeconds * 1_000_000, c.threshold)
  {
    var s := Survivors(Kept(events, [c.groupingKey, c.distinctField]));
    SurvivorsDistinct(Kept(events, [c.groupingKey, c.distinctField]));
    ReportedIffHasAlert(c, s, report, g);
    AlertIffSomeInterval(Observations(c, s), g, c.windowSeconds * 1_000_000, c.threshold);
  }

  lemma {:induction false} ReportedIffHasAlert(c: DistinctRule, s: set<Clean>, report: seq<Alert>, g: Value)
    requires DistinctIds(s) && AlertList(report, DistinctAlerts(c, s))
    ensures (exists a :: a in report && a.groupKey == g) <==>
            HasAlert(Observations(c, s), g, c.windowSeconds * 1_000_000, c.threshold)
  {
    var obs, w := Observations(c, s), c.windowSeconds * 1_000_000;
    if HasAlert(obs, g, w, c.threshold) {
      var o :| o in obs && o.group == g && RisingEdge(obs, o, w, c.threshold);
      var t :| t in Matching(s, c.filterType) && ObsOf(c, t) == o;
      var cited := PeersInOrder(Peers(c, s, t));
      var a := MakeAlert(c.behaviour, t, c.groupingKey, w, |Shown(c, s, t)|, cited);
      PeerAlertIs(c, s, t, cited, a);
      assert a in DistinctAlerts(c, s);
    }
    if a :| a in report && a.groupKey == g {
      var t :| DistinctAlert(c, s, t, a);
      assert ObsOf(c, t).group == g && ObsOf(c, t) in obs;
    }
  }

  /** Any set of rows with distinct ids can be listed in order. */
  lemma {:induction false} PeersInOrder(s: set<Clean>) returns (rows: seq<Clean>)
    requires DistinctIds(s)
    ensures Lists(rows, s)
  {
    var unordered := AsSequence(s);
    SortedGroup(unordered);
    rows := Sort(unordered, RowKey);
  }

  lemma {:induction false} AsSequence(s: set<Clean>) returns (rows: seq<Clean>)
    ensures NoRepeats(rows) && Members(rows) == s
  {
    if s == {} {
      rows := [];
    } else {
      var x :| x in s;
      var rest := AsSequence(s - {x});
      AppendNew(rest, x);
      rows := rest + [x];
    }
  }
}
