/** What the window rules mean, independently of any implementation: closed windows,
    exact distinct counts and rising edges over the observations of a log. */
module Detection {
  import opened Ordering

  /** One event as a window rule sees it. */
  datatype Obs = Obs(id: Value, at: int, group: Value, value: Value)

  function KeyOf(o: Obs): Key { Key(Num(o.at), o.id) }

  predicate Earlier(p: Obs, o: Obs) { KeyLess(KeyOf(p), KeyOf(o)) }

  /** `o` belongs to group `g` and lies in the closed interval `[lo, hi]`. */
  predicate Inside(o: Obs, g: Value, lo: int, hi: int) {
    o.group == g && lo <= o.at <= hi
  }

  /** How many observations of group `g` lie in `[lo, hi]`. */
  function Count(s: seq<Obs>, g: Value, lo: int, hi: int): nat {
    if s == [] then 0
    else Count(s[..|s| - 1], g, lo, hi) + if Inside(s[|s| - 1], g, lo, hi) then 1 else 0
  }

  /** The distinct values group `g` shows in `[lo, hi]`. */
  function Values(s: set<Obs>, g: Value, lo: int, hi: int): set<Value> {
    set o | o in s && Inside(o, g, lo, hi) :: o.value
  }

  /** Group `g` shows at least `n` distinct values in the closed window of length `w` ending at `t`. */
  predicate Breach(s: set<Obs>, g: Value, t: int, w: int, n: int) {
    |Values(s, g, t - w, t)| >= n
  }

  /** `p` comes immediately before `o` in its group, by (instant, id). */
  predicate Precedes(s: set<Obs>, p: Obs, o: Obs) {
    && p in s
    && p.group == o.group
    && Earlier(p, o)
    && forall q | q in s && q.group == o.group :: !(Earlier(p, q) && Earlier(q, o))
  }

  /** `o` breaches and the event immediately before it does not (or there is none). */
  predicate RisingEdge(s: set<Obs>, o: Obs, w: int, n: int) {
    && o in s
    && Breach(s, o.group, o.at, w, n)
    && forall p | p in s && Precedes(s, p, o) :: !Breach(s, p.group, p.at, w, n)
  }

  /** The (group, event id) pairs a distinct-count rule must report: one per incident. */
  function Edges(s: set<Obs>, w: int, n: int): set<(Value, Value)> {
    set o | o in s && RisingEdge(s, o, w, n) :: (o.group, o.id)
  }

  function Members<T>(s: seq<T>): set<T> { set x | x in s }

  // ------------------------------------------------------------------ counting

  lemma {:induction false} CountAppend(a: seq<Obs>, b: seq<Obs>, g: Value, lo: int, hi: int)
    ensures Count(a + b, g, lo, hi) == Count(a, g, lo, hi) + Count(b, g, lo, hi)
  {
    if b == [] {
      assert a + b == a;
    } else {
      CountAppend(a, b[..|b| - 1], g, lo, hi);
      assert (a + b)[..|a + b| - 1] == a + b[..|b| - 1];
    }
  }

  /** Arrival order does not change a count. */
  lemma {:induction false} CountPermuted(a: seq<Obs>, b: seq<Obs>, g: Value, lo: int, hi: int)
    requires multiset(a) == multiset(b)
    ensures Count(a, g, lo, hi) == Count(b, g, lo, hi)
    decreases |a|
  {
    if a == [] {
      assert |multiset(b)| == 0;
    } else {
      var x := a[|a| - 1];
      var l, r := SplitAtLast(a, b);
      CountPermuted(a[..|a| - 1], l + r, g, lo, hi);
      CountAppend(l + [x], r, g, lo, hi);
      CountAppend(l, [x], g, lo, hi);
      CountAppend(l, r, g, lo, hi);
    }
  }

  lemma {:induction false} SplitAtLast<T>(a: seq<T>, b: seq<T>) returns (l: seq<T>, r: seq<T>)
    requires a != [] && multiset(a) == multiset(b)
    ensures b == l + [a[|a| - 1]] + r
    ensures multiset(a[..|a| - 1]) == multiset(l + r)
  {
    var x := a[|a| - 1];
    assert a == a[..|a| - 1] + [x];
    assert x in multiset(b);
    var i :| 0 <= i < |b| && b[i] == x;
    l, r := b[..i], b[i + 1..];
    assert b == l + [x] + r;
    assert multiset(b) == multiset(l) + multiset{x} + multiset(r);
    assert multiset(a[..|a| - 1]) == multiset(a) - multiset{x};
  }

  /** Widening an interval never loses an observation. */
  lemma {:induction false} CountMonotone(s: seq<Obs>, g: Value, lo: int, hi: int, lo': int, hi': int)
    requires lo' <= lo && hi <= hi'
    ensures Count(s, g, lo, hi) <= Count(s, g, lo', hi')
  {
    if s != [] { CountMonotone(s[..|s| - 1], g, lo, hi, lo', hi'); }
  }

  lemma {:induction false} CountZero(s: seq<Obs>, g: Value, lo: int, hi: int)
    requires forall o | o in s :: !Inside(o, g, lo, hi)
    ensures Count(s, g, lo, hi) == 0
  {
    if s != [] { CountZero(s[..|s| - 1], g, lo, hi); }
  }

  lemma {:induction false} SubsetSize<T>(a: set<T>, b: set<T>)
    requires a <= b
    ensures |a| <= |b|
  {
    assert b == a + (b - a);
  }

  /** A group that shows few values never breaches. */
  lemma {:induction false} FewValues(s: set<Obs>, g: Value, t: int, w: int, n: int, allowed: set<Value>)
    requires forall o | o in s && o.group == g :: o.value in allowed
    requires |allowed| < n
    ensures !Breach(s, g, t, w, n)
  {
    assert Values(s, g, t - w, t) <= allowed;
    SubsetSize(Values(s, g, t - w, t), allowed);
  }

  // ------------------------------------------------------------------ groups do not interact

  lemma {:induction false} BreachLocal(a: set<Obs>, b: set<Obs>, g: Value, t: int, w: int, n: int)
    requires forall x: Obs | x.group == g :: x in a <==> x in b
    ensures Breach(a, g, t, w, n) <==> Breach(b, g, t, w, n)
  {
    assert Values(a, g, t - w, t) == Values(b, g, t - w, t);
  }

  /** A rising edge depends only on the members of its own group. */
  lemma {:induction false} RisingEdgeLocal(a: set<Obs>, b: set<Obs>, o: Obs, w: int, n: int)
    requires forall x: Obs | x.group == o.group :: x in a <==> x in b
    ensures RisingEdge(a, o, w, n) <==> RisingEdge(b, o, w, n)
  {
    forall t: int ensures Breach(a, o.group, t, w, n) <==> Breach(b, o.group, t, w, n) {
      BreachLocal(a, b, o.group, t, w, n);
    }
    forall p ensures Precedes(a, p, o) <==> Precedes(b, p, o) {}
  }

  predicate SharesNoGroup(a: set<Obs>, b: set<Obs>) {
    forall x, y | x in a && y in b :: x.group != y.group
  }

  /** Two logs without a common group raise exactly their own alerts when they are mixed. */
  lemma {:induction false} EdgesOfDisjointUnion(a: set<Obs>, b: set<Obs>, w: int, n: int)
    requires SharesNoGroup(a, b)
    ensures Edges(a + b, w, n) == Edges(a, w, n) + Edges(b, w, n)
  {
    forall o | o in a ensures RisingEdge(a + b, o, w, n) <==> RisingEdge(a, o, w, n) { RisingEdgeLocal(a + b, a, o, w, n); }
    forall o | o in b ensures RisingEdge(a + b, o, w, n) <==> RisingEdge(b, o, w, n) { RisingEdgeLocal(a + b, b, o, w, n); }
    forall e ensures e in Edges(a + b, w, n) <==> e in Edges(a, w, n) + Edges(b, w, n) {
      if e in Edges(a + b, w, n) {
        var o :| o in a + b && RisingEdge(a + b, o, w, n) && e == (o.group, o.id);
        if o in a { assert RisingEdge(a, o, w, n); } else { assert RisingEdge(b, o, w, n); }
      }
    }
  }

  // ------------------------------------------------------------------ sorted rows of one group

  predicate OneGroup(rows: seq<Obs>, g: Value) { forall o | o in rows :: o.group == g }

  /** What the detectors test at index `i` of a group's sorted rows. */
  predicate EmitsAt(rows: seq<Obs>, g: Value, i: nat, w: int, n: int)
    requires i < |rows|
  {
    Breach(Members(rows), g, rows[i].at, w, n) && (i == 0 || !Breach(Members(rows), g, rows[i - 1].at, w, n))
  }

  lemma {:induction false} FirstWithKey(rows: seq<Obs>, i: nat) returns (j: nat)
    requires SortedBy(rows, KeyOf) && i < |rows|
    ensures j <= i && KeyOf(rows[j]) == KeyOf(rows[i])
    ensures j == 0 || Earlier(rows[j - 1], rows[j])
  {
    j := i;
    while j > 0 && KeyOf(rows[j - 1]) == KeyOf(rows[j])
      invariant j <= i && KeyOf(rows[j]) == KeyOf(rows[i])
    {
      j := j - 1;
    }
    if j > 0 { KeyLessTotal(KeyOf(rows[j - 1]), KeyOf(rows[j])); }
  }

  lemma {:induction false} NeighbourPrecedes(rows: seq<Obs>, g: Value, j: nat, p: Obs)
    requires SortedBy(rows, KeyOf) && OneGroup(rows, g) && 0 < j < |rows|
    requires Earlier(rows[j - 1], rows[j])
    ensures Precedes(Members(rows), rows[j - 1], rows[j])
    ensures Precedes(Members(rows), p, rows[j]) ==> p.at == rows[j - 1].at
  {
    var a, b := rows[j - 1], rows[j];
    forall q | q in rows ensures !(Earlier(a, q) && Earlier(q, b)) {
      var k :| 0 <= k < |rows| && rows[k] == q;
      if k > j { assert !KeyLess(KeyOf(q), KeyOf(b)); }
      if k < j - 1 { assert !KeyLess(KeyOf(a), KeyOf(q)); }
      KeyLessTotal(KeyOf(q), KeyOf(q));
    }
    if Precedes(Members(rows), p, b) {
      var k :| 0 <= k < |rows| && rows[k] == p;
      KeyLessTotal(KeyOf(p), KeyOf(a));
      KeyLessTotal(KeyOf(b), KeyOf(b));
      assert k <= j - 1;
      assert !KeyLess(KeyOf(a), KeyOf(p)) by { if k < j - 1 {} else { KeyLessTotal(KeyOf(a), KeyOf(a)); } }
      assert !(Earlier(p, a) && Earlier(a, b));
    }
  }

  lemma {:induction false} RisingEdgeSameKey(rows: set<Obs>, a: Obs, b: Obs, w: int, n: int)
    requires a in rows && b in rows && a.group == b.group && KeyOf(a) == KeyOf(b)
    ensures RisingEdge(rows, a, w, n) <==> RisingEdge(rows, b, w, n)
  {
    forall p ensures Precedes(rows, p, a) <==> Precedes(rows, p, b) {}
  }

  lemma {:induction false} EdgeIsEmitted(rows: seq<Obs>, g: Value, j: nat, w: int, n: int)
    requires SortedBy(rows, KeyOf) && OneGroup(rows, g) && j < |rows|
    requires j == 0 || Earlier(rows[j - 1], rows[j])
    ensures RisingEdge(Members(rows), rows[j], w, n) <==> EmitsAt(rows, g, j, w, n)
  {
    if j == 0 {
      forall p | p in rows ensures !Precedes(Members(rows), p, rows[0]) {
        var k :| 0 <= k < |rows| && rows[k] == p;
        KeyLessTotal(KeyOf(p), KeyOf(p));
        if k > 0 { assert !KeyLess(KeyOf(rows[k]), KeyOf(rows[0])); }
      }
    } else {
      NeighbourPrecedes(rows, g, j, rows[j - 1]);
      forall p | p in rows && Precedes(Members(rows), p, rows[j])
        ensures Breach(Members(rows), p.group, p.at, w, n) == Breach(Members(rows), g, rows[j - 1].at, w, n)
      {
        NeighbourPrecedes(rows, g, j, p);
      }
    }
  }

  /** The same test on a group's strictly ascending rows, when they are the whole log. */
  lemma {:induction false} EdgeInOrder(rows: seq<Obs>, s: set<Obs>, g: Value, j: nat, w: int, n: int)
    requires SortedBy(rows, KeyOf) && OneGroup(rows, g) && j < |rows| && Members(rows) == s
    requires j == 0 || Earlier(rows[j - 1], rows[j])
    ensures RisingEdge(s, rows[j], w, n) <==>
              Breach(s, g, rows[j].at, w, n) && (j == 0 || !Breach(s, g, rows[j - 1].at, w, n))
  {
    EdgeIsEmitted(rows, g, j, w, n);
  }

  function Emitted(rows: seq<Obs>, g: Value, w: int, n: int): set<(Value, Value)> {
    set i | 0 <= i < |rows| && EmitsAt(rows, g, i, w, n) :: (g, rows[i].id)
  }

  /** Scanning a group's sorted rows with a "previous row breached" flag reports exactly its rising edges. */
  lemma {:induction false} ScanReportsEdges(rows: seq<Obs>, g: Value, w: int, n: int)
    requires SortedBy(rows, KeyOf) && OneGroup(rows, g)
    ensures Emitted(rows, g, w, n) == Edges(Members(rows), w, n)
  {
    var emitted := Emitted(rows, g, w, n);
    forall e | e in emitted ensures e in Edges(Members(rows), w, n) {
      var i :| 0 <= i < |rows| && EmitsAt(rows, g, i, w, n) && e == (g, rows[i].id);
      if i > 0 {
        KeyLessTotal(KeyOf(rows[i - 1]), KeyOf(rows[i]));
        assert rows[i - 1].at != rows[i].at;
      }
      EdgeIsEmitted(rows, g, i, w, n);
    }
    forall e | e in Edges(Members(rows), w, n) ensures e in emitted {
      var o :| o in rows && RisingEdge(Members(rows), o, w, n) && e == (o.group, o.id);
      var i :| 0 <= i < |rows| && rows[i] == o;
      var j := FirstWithKey(rows, i);
      RisingEdgeSameKey(Members(rows), rows[j], rows[i], w, n);
      EdgeIsEmitted(rows, g, j, w, n);
      assert e == (g, rows[j].id);
    }
  }

  /** Rows `i..j` of a group are a maximal run of breaching events: one incident. */
  ghost predicate Incident(rows: seq<Obs>, g: Value, i: nat, j: nat, w: int, n: int) {
    && i <= j < |rows|
    && (forall k | i <= k <= j :: Breach(Members(rows), g, rows[k].at, w, n))
    && (i > 0 ==> !Breach(Members(rows), g, rows[i - 1].at, w, n))
    && (j + 1 < |rows| ==> !Breach(Members(rows), g, rows[j + 1].at, w, n))
  }

  /** One alert per incident, at its first event: a row is reported exactly when it starts a maximal run. */
  lemma {:induction false} OneAlertPerIncident(rows: seq<Obs>, g: Value, i: nat, w: int, n: int)
    requires i < |rows|
    ensures EmitsAt(rows, g, i, w, n) <==> exists j: nat :: Incident(rows, g, i, j, w, n)
  {
    if EmitsAt(rows, g, i, w, n) {
      var j := i;
      while j + 1 < |rows| && Breach(Members(rows), g, rows[j + 1].at, w, n)
        invariant i <= j < |rows|
        invariant forall k | i <= k <= j :: Breach(Members(rows), g, rows[k].at, w, n)
      {
        j := j + 1;
      }
      assert Incident(rows, g, i, j, w, n);
    }
  }

  // ------------------------------------------------------------------ completeness over all of time

  ghost predicate HasAlert(s: set<Obs>, g: Value, w: int, n: int) {
    exists o :: o in s && o.group == g && RisingEdge(s, o, w, n)
  }

  /** Some closed interval of length `w`, placed anywhere in time, holds `n` distinct values. */
  ghost predicate SomeIntervalHolds(s: set<Obs>, g: Value, w: int, n: int) {
    exists x, y :: y == x + w && |Values(s, g, x, y)| >= n
  }

  lemma {:induction false} LatestInside(s: set<Obs>, g: Value, lo: int, hi: int) returns (o: Obs)
    requires exists p :: p in s && Inside(p, g, lo, hi)
    ensures o in s && Inside(o, g, lo, hi)
    ensures forall p | p in s && Inside(p, g, lo, hi) :: p.at <= o.at
    decreases |s|
  {
    o :| o in s && Inside(o, g, lo, hi);
    if p :| p in s - {o} && Inside(p, g, lo, hi) {
      var q := LatestInside(s - {o}, g, lo, hi);
      if q.at > o.at { o := q; }
    }
  }

  /** Among the breaching events of a group, one has no earlier breaching event. */
  lemma {:induction false} EarliestBreach(s: set<Obs>, t: set<Obs>, g: Value, w: int, n: int) returns (o: Obs)
    requires exists p :: p in t && p.group == g && Breach(s, g, p.at, w, n)
    ensures o in t && o.group == g && Breach(s, g, o.at, w, n)
    ensures forall p | p in t && p.group == g && Breach(s, g, p.at, w, n) :: !Earlier(p, o)
    decreases |t|
  {
    o :| o in t && o.group == g && Breach(s, g, o.at, w, n);
    KeyLessTotal(KeyOf(o), KeyOf(o));
    if p :| p in t - {o} && p.group == g && Breach(s, g, p.at, w, n) {
      var q := EarliestBreach(s, t - {o}, g, w, n);
      if Earlier(q, o) {
        KeyLessTotal(KeyOf(q), KeyOf(o));
        o := q;
      } else {
        forall p | p in t - {o} && p.group == g && Breach(s, g, p.at, w, n) ensures !Earlier(p, o) {
          KeyLessTotal(KeyOf(q), KeyOf(o));
          if Earlier(p, o) && KeyOf(q) != KeyOf(o) { KeyLessTransitive(KeyOf(p), KeyOf(o), KeyOf(q)); }
        }
      }
    }
  }

  /** A group is alerted on exactly when some closed window anywhere in time holds enough distinct values. */
  lemma {:induction false} AlertIffSomeInterval(s: set<Obs>, g: Value, w: int, n: int)
    requires n >= 1
    ensures HasAlert(s, g, w, n) <==> SomeIntervalHolds(s, g, w, n)
  {
    if HasAlert(s, g, w, n) {
      var o :| o in s && o.group == g && RisingEdge(s, o, w, n);
      assert |Values(s, g, o.at - w, o.at)| >= n;
    }
    if SomeIntervalHolds(s, g, w, n) {
      var x, y :| y == x + w && |Values(s, g, x, y)| >= n;
      var v :| v in Values(s, g, x, y);
      var last := LatestInside(s, g, x, y);
      assert Values(s, g, x, y) <= Values(s, g, last.at - w, last.at);
      SubsetSize(Values(s, g, x, y), Values(s, g, last.at - w, last.at));
      assert Breach(s, g, last.at, w, n);
      var o := EarliestBreach(s, s, g, w, n);
      assert RisingEdge(s, o, w, n);
    }
  }

  /** A longer window or a lower threshold never silences a group. */
  lemma {:induction false} AlertMonotone(s: set<Obs>, g: Value, w: int, n: int, w': int, n': int)
    requires w <= w' && 1 <= n' <= n
    requires HasAlert(s, g, w, n)
    ensures HasAlert(s, g, w', n')
  {
    AlertIffSomeInterval(s, g, w, n);
    var x, y :| y == x + w && |Values(s, g, x, y)| >= n;
    var y' := x + w';
    assert Values(s, g, x, y) <= Values(s, g, x, y');
    SubsetSize(Values(s, g, x, y), Values(s, g, x, y'));
    AlertIffSomeInterval(s, g, w', n');
  }
}
