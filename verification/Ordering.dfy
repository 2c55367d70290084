/** Scalar values of a log row, the total order Python's sorts rely on, and insertion
    into a sorted list. */
module Ordering {

  datatype Option<+T> = None | Some(value: T)

  /** A JSON scalar as it appears in an event or policy row. */
  datatype Value = Null | Bool(b: bool) | Num(n: int) | Str(s: string)

  /** Lexicographic order by code point. */
  predicate StringLess(a: string, b: string) {
    b != [] && (a == [] || a[0] < b[0] || (a[0] == b[0] && StringLess(a[1..], b[1..])))
  }

  predicate ValueLess(a: Value, b: Value) {
    match (a, b)
    case (Str(x), Str(y)) => StringLess(x, y)
    case (Num(x), Num(y)) => x < y
    case (Bool(x), Bool(y)) => !x && y
    case _ => Rank(a) < Rank(b)
  }

  function Rank(a: Value): nat {
    match a
    case Null => 0
    case Bool(_) => 1
    case Num(_) => 2
    case Str(_) => 3
  }

  lemma {:induction false} StringLessTotal(a: string, b: string)
    ensures a == b || StringLess(a, b) || StringLess(b, a)
    ensures !(StringLess(a, b) && StringLess(b, a))
    ensures !StringLess(a, a)
  {
    if a != [] {
      StringLessTotal(a[1..], a[1..]);
      if b != [] {
        StringLessTotal(a[1..], b[1..]);
        if a[0] == b[0] && a[1..] == b[1..] {
          assert a == [a[0]] + a[1..] && b == [b[0]] + b[1..];
        }
      }
    }
  }

  lemma {:induction false} StringLessTransitive(a: string, b: string, c: string)
    requires StringLess(a, b) && StringLess(b, c)
    ensures StringLess(a, c)
  {
    if a != [] && a[0] == b[0] == c[0] {
      StringLessTransitive(a[1..], b[1..], c[1..]);
    }
  }

  lemma {:induction false} ValueLessTotal(a: Value, b: Value)
    ensures a == b || ValueLess(a, b) || ValueLess(b, a)
    ensures !(ValueLess(a, b) && ValueLess(b, a))
    ensures !ValueLess(a, a)
  {
    if a.Str? {
      StringLessTotal(a.s, a.s);
      if b.Str? { StringLessTotal(a.s, b.s); }
    }
  }

  lemma {:induction false} ValueLessTransitive(a: Value, b: Value, c: Value)
    requires ValueLess(a, b) && ValueLess(b, c)
    ensures ValueLess(a, c)
  {
    if a.Str? && b.Str? && c.Str? { StringLessTransitive(a.s, b.s, c.s); }
  }

  // ------------------------------------------------------------------ two-part sort keys

  /** A pair used as a sort key: `(instant, event id)` for rows, `(detectedAt, trigger id)` for alerts. */
  datatype Key = Key(major: Value, minor: Value)

  predicate KeyLess(a: Key, b: Key) {
    ValueLess(a.major, b.major) || (a.major == b.major && ValueLess(a.minor, b.minor))
  }

  lemma {:induction false} KeyLessTotal(a: Key, b: Key)
    ensures a == b || KeyLess(a, b) || KeyLess(b, a)
    ensures !(KeyLess(a, b) && KeyLess(b, a))
    ensures !KeyLess(a, a)
  {
    ValueLessTotal(a.major, b.major);
    ValueLessTotal(a.minor, b.minor);
  }

  lemma {:induction false} KeyLessTransitive(a: Key, b: Key, c: Key)
    requires KeyLess(a, b) && KeyLess(b, c)
    ensures KeyLess(a, c)
  {
    if ValueLess(a.major, b.major) && ValueLess(b.major, c.major) {
      ValueLessTransitive(a.major, b.major, c.major);
    } else if a.major == b.major == c.major {
      ValueLessTransitive(a.minor, b.minor, c.minor);
    }
  }

  // ------------------------------------------------------------------ stable sort by key

  predicate SortedBy<T>(s: seq<T>, key: T -> Key) {
    forall i, j :: 0 <= i < j < |s| ==> !KeyLess(key(s[j]), key(s[i]))
  }

  /** Insert before the first element whose key is larger. */
  function Insert<T>(s: seq<T>, x: T, key: T -> Key): (r: seq<T>)
    ensures multiset(r) == multiset(s) + multiset{x}
  {
    if s == [] then [x]
    else if KeyLess(key(x), key(s[0])) then
      assert s == [s[0]] + s[1..];
      [x] + s
    else
      assert s == [s[0]] + s[1..];
      [s[0]] + Insert(s[1..], x, key)
  }

  /** Python's stable `sort(key=...)`. */
  function Sort<T>(s: seq<T>, key: T -> Key): (r: seq<T>)
    ensures multiset(r) == multiset(s)
  {
    if s == [] then []
    else
      assert s == s[..|s| - 1] + [s[|s| - 1]];
      Insert(Sort(s[..|s| - 1], key), s[|s| - 1], key)
  }

  lemma {:induction false} InsertSorted<T>(s: seq<T>, x: T, key: T -> Key)
    requires SortedBy(s, key)
    ensures SortedBy(Insert(s, x, key), key)
  {
    if s != [] {
      var r := Insert(s, x, key);
      if KeyLess(key(x), key(s[0])) {
        forall i, j | 0 <= i < j < |r| ensures !KeyLess(key(r[j]), key(r[i])) {
          if i == 0 && j > 1 {
            if KeyLess(key(r[j]), key(x)) { KeyLessTransitive(key(s[j - 1]), key(x), key(s[0])); }
          } else if i == 0 {
            KeyLessTotal(key(x), key(s[0]));
          }
        }
      } else {
        InsertSorted(s[1..], x, key);
        var t := Insert(s[1..], x, key);
        forall j | 0 <= j < |t| ensures !KeyLess(key(t[j]), key(s[0])) {
          assert t[j] in multiset(t);
          assert t[j] == x || t[j] in s[1..];
        }
      }
    }
  }

  lemma {:induction false} SortSorted<T>(s: seq<T>, key: T -> Key)
    ensures SortedBy(Sort(s, key), key)
  {
    if s != [] {
      SortSorted(s[..|s| - 1], key);
      InsertSorted(Sort(s[..|s| - 1], key), s[|s| - 1], key);
    }
  }

  /** Members of a sequence, as seen through its multiset. */
  lemma {:induction false} SameMembers<T>(a: seq<T>, b: seq<T>)
    requires multiset(a) == multiset(b)
    ensures |a| == |b|
    ensures forall x :: x in a <==> x in b
  {
    assert |multiset(a)| == |multiset(b)|;
    forall x ensures x in a <==> x in b {
      assert x in a <==> x in multiset(a);
      assert x in b <==> x in multiset(b);
    }
  }

  predicate StrictlySortedBy<T>(s: seq<T>, key: T -> Key) {
    forall i, j :: 0 <= i < j < |s| ==> KeyLess(key(s[i]), key(s[j]))
  }

  lemma {:induction false} HasMember<T>(s: seq<T>)
    ensures s == [] || exists x :: x in s
  {
    if s != [] { assert s[0] in s; }
  }

  /** A list strictly ascending by key is determined by its set of members. */
  lemma {:induction false} StrictlySortedUnique<T>(a: seq<T>, b: seq<T>, key: T -> Key)
    requires StrictlySortedBy(a, key) && StrictlySortedBy(b, key)
    requires forall x :: x in a <==> x in b
    ensures a == b
  {
    if a == [] {
      HasMember(b);
    } else {
      assert a[0] in b;
      assert b[0] in a;
      var i :| 0 <= i < |b| && b[i] == a[0];
      var j :| 0 <= j < |a| && a[j] == b[0];
      KeyLessTotal(key(a[0]), key(b[0]));
      assert a[0] == b[0];
      forall x ensures x in a[1..] <==> x in b[1..] {
        KeyLessTotal(key(a[0]), key(a[0]));
        if x in a[1..] { assert x in a; assert x in b; assert x != b[0]; }
        if x in b[1..] { assert x in b; assert x in a; assert x != a[0]; }
      }
      StrictlySortedUnique(a[1..], b[1..], key);
      assert a == [a[0]] + a[1..] && b == [b[0]] + b[1..];
    }
  }
}
