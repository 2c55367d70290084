/** Python's `defaultdict(list)` grouping: keys in order of first appearance, members in arrival order. */
module Grouping {
  import opened Detection

  predicate NoRepeats<T(==)>(s: seq<T>) { forall i, j | 0 <= i < j < |s| :: s[i] != s[j] }

  /** The rows whose key is `k`, in arrival order. */
  function WithKey<T, K(==)>(rows: seq<T>, key: T -> K, k: K): seq<T> {
    if rows == [] then []
    else
      WithKey(rows[..|rows| - 1], key, k)
      + (if key(rows[|rows| - 1]) == k then [rows[|rows| - 1]] else [])
  }

  lemma {:induction false} WithKeySnoc<T, K>(rest: seq<T>, x: T, key: T -> K, k: K)
    ensures WithKey(rest + [x], key, k) == if key(x) == k then WithKey(rest, key, k) + [x] else WithKey(rest, key, k)
  {
    assert (rest + [x])[..|rest|] == rest;
    assert WithKey(rest, key, k) + [] == WithKey(rest, key, k);
  }

  lemma {:induction false} InWithKey<T, K>(rows: seq<T>, key: T -> K, k: K, r: T)
    ensures r in WithKey(rows, key, k) <==> r in rows && key(r) == k
  {
    if rows != [] {
      InWithKey(rows[..|rows| - 1], key, k, r);
      assert r in rows <==> r in rows[..|rows| - 1] || r == rows[|rows| - 1];
    }
  }

  /** Key `k` occurs in a row before which, and in which, `l` does not. */
  ghost predicate AppearsBefore<T, K(!new)>(rows: seq<T>, key: T -> K, k: K, l: K) {
    exists a | 0 <= a < |rows| :: key(rows[a]) == k && forall b | 0 <= b <= a :: key(rows[b]) != l
  }

  ghost predicate InOrderOfAppearance<T, K(!new)>(rows: seq<T>, key: T -> K, order: seq<K>) {
    forall i, j | 0 <= i < j < |order| :: AppearsBefore(rows, key, order[i], order[j])
  }

  lemma {:induction false} StillBefore<T, K(!new)>(rows: seq<T>, i: nat, key: T -> K, k: K, l: K)
    requires i < |rows| && AppearsBefore(rows[..i], key, k, l)
    ensures AppearsBefore(rows[..i + 1], key, k, l)
  {
    var before, next := rows[..i], rows[..i + 1];
    var a :| 0 <= a < |before| && key(before[a]) == k && forall b | 0 <= b <= a :: key(before[b]) != l;
    assert key(next[a]) == k;
    forall b | 0 <= b <= a ensures key(next[b]) != l { assert before[b] == next[b]; }
  }

  lemma {:induction false} NewIsLast<T, K(!new)>(rows: seq<T>, i: nat, key: T -> K, groups: map<K, seq<T>>, k: K, l: K)
    requires i < |rows| && GroupedBy(rows[..i], key, groups) && k in groups && l !in groups
    ensures AppearsBefore(rows[..i], key, k, l)
  {
    var before := rows[..i];
    var r := groups[k][0];
    assert r in groups[k];
    InWithKey(before, key, k, r);
    var a :| 0 <= a < |before| && before[a] == r;
    forall b | 0 <= b <= a ensures key(before[b]) != l { InWithKey(before, key, l, before[b]); }
  }

  lemma {:induction false} AppearanceStep<T, K(!new)>(rows: seq<T>, i: nat, key: T -> K, order: seq<K>, groups: map<K, seq<T>>)
    requires i < |rows| && GroupedBy(rows[..i], key, groups) && Members(order) == groups.Keys && InOrderOfAppearance(rows[..i], key, order)
    ensures InOrderOfAppearance(rows[..i + 1], key, if key(rows[i]) in groups then order else order + [key(rows[i])])
  {
    var l := key(rows[i]);
    var next := if l in groups then order else order + [l];
    forall x, y | 0 <= x < y < |next| ensures AppearsBefore(rows[..i + 1], key, next[x], next[y]) {
      if y == |order| {
        assert order[x] in Members(order);
        NewIsLast(rows, i, key, groups, order[x], l);
      }
      StillBefore(rows, i, key, next[x], next[y]);
    }
  }

  /** Filling a `defaultdict(list)`: keys in order of first appearance, rows in arrival order. */
  method GroupBy<T(==), K(==,!new)>(rows: seq<T>, key: T -> K) returns (order: seq<K>, groups: map<K, seq<T>>)
    ensures NoRepeats(order) && InOrderOfAppearance(rows, key, order)
    ensures Members(order) == groups.Keys == set r | r in rows :: key(r)
    ensures forall k | k in groups :: groups[k] != [] && groups[k] == WithKey(rows, key, k)
  {
    order, groups := [], map[];
    for i := 0 to |rows|
      invariant NoRepeats(order) && Members(order) == groups.Keys
      invariant GroupedBy(rows[..i], key, groups) && InOrderOfAppearance(rows[..i], key, order)
    {
      var r := rows[i];
      var k := key(r);
      GroupStep(rows, i, key, groups);
      AppearanceStep(rows, i, key, order, groups);
      if k !in groups {
        AppendNew(order, k);
        order := order + [k];
        groups := groups[k := []];
      }
      groups := groups[k := groups[k] + [r]];
    }
    assert rows[..|rows|] == rows;
    forall k ensures k in groups <==> k in set r | r in rows :: key(r) {
      if k in groups {
        assert groups[k][0] in groups[k];
        InWithKey(rows, key, k, groups[k][0]);
      }
      if r :| r in rows && key(r) == k { InWithKey(rows, key, k, r); }
    }
  }

  ghost predicate GroupedBy<T, K(!new)>(rows: seq<T>, key: T -> K, groups: map<K, seq<T>>) {
    && (forall k | k !in groups :: WithKey(rows, key, k) == [])
    && (forall k | k in groups :: groups[k] != [] && groups[k] == WithKey(rows, key, k))
  }

  lemma {:induction false} GroupStep<T, K(!new)>(rows: seq<T>, i: nat, key: T -> K, groups: map<K, seq<T>>)
    requires i < |rows| && GroupedBy(rows[..i], key, groups)
    ensures var k := key(rows[i]);
            var before := if k in groups then groups[k] else [];
            GroupedBy(rows[..i + 1], key, groups[k := before + [rows[i]]])
  {
    assert rows[..i + 1][..i] == rows[..i];
    forall k ensures WithKey(rows[..i + 1], key, k) ==
                     WithKey(rows[..i], key, k) + if key(rows[i]) == k then [rows[i]] else [] {}
  }

  lemma {:induction false} AppendNew<T>(s: seq<T>, x: T)
    requires NoRepeats(s) && x !in s
    ensures NoRepeats(s + [x]) && Members(s + [x]) == Members(s) + {x}
  {}

  lemma {:induction false} KeysAtMost<T, K>(rows: seq<T>, key: T -> K)
    ensures |set r | r in rows :: key(r)| <= |rows|
  {
    if rows != [] {
      var rest, last := rows[..|rows| - 1], rows[|rows| - 1];
      KeysAtMost(rest, key);
      assert forall r :: r in rows <==> r in rest || r == last;
      assert (set r | r in rows :: key(r)) == (set r | r in rest :: key(r)) + {key(last)};
    }
  }

  lemma {:induction false} NoRepeatsSize<T>(s: seq<T>)
    requires NoRepeats(s)
    ensures |Members(s)| == |s|
  {
    if s != [] {
      var rest, last := s[..|s| - 1], s[|s| - 1];
      NoRepeatsSize(rest);
      assert Members(s) == Members(rest) + {last};
    }
  }

  lemma {:induction false} WithKeyNoRepeats<T, K>(rows: seq<T>, key: T -> K, k: K)
    requires NoRepeats(rows)
    ensures NoRepeats(WithKey(rows, key, k))
  {
    if rows != [] {
      var rest, last := rows[..|rows| - 1], rows[|rows| - 1];
      WithKeyNoRepeats(rest, key, k);
      InWithKey(rest, key, k, last);
    }
  }

  lemma {:induction false} OccursOnce<T>(a: seq<T>, x: T)
    requires NoRepeats(a)
    ensures multiset(a)[x] <= 1
  {
    if a != [] {
      var rest, last := a[..|a| - 1], a[|a| - 1];
      assert a == rest + [last];
      OccursOnce(rest, x);
    }
  }

  lemma {:induction false} NoRepeatsMultiset<T>(a: seq<T>, b: seq<T>)
    requires NoRepeats(a) && multiset(a) == multiset(b)
    ensures NoRepeats(b)
  {
    forall i, j | 0 <= i < j < |b| ensures b[i] != b[j] {
      if b[i] == b[j] {
        assert b == b[..j] + [b[j]] + b[j + 1..];
        assert b[i] in multiset(b[..j]);
        OccursOnce(a, b[i]);
      }
    }
  }

  lemma {:induction false} MembersAtMost<T>(s: seq<T>)
    ensures |Members(s)| <= |s|
  {
    if s != [] {
      MembersAtMost(s[..|s| - 1]);
      assert s == s[..|s| - 1] + [s[|s| - 1]];
      assert Members(s) == Members(s[..|s| - 1]) + {s[|s| - 1]};
    }
  }
}
