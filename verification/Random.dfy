/** The random choices of the generator: any value the Python call could return, or the ValueError it raises. */
module Random {
  import opened IncidentShapes

  /** A value, or the exception that aborts the build. */
  datatype Outcome<+T> = Success(value: T) | ValueError {
    predicate IsFailure() { ValueError? }
    function PropagateFailure<U>(): Outcome<U>
      requires ValueError?
    {
      ValueError
    }
    function Extract(): T
      requires Success?
    {
      value
    }
  }

  /** `rng.randint(low, high)`. */
  method RandInt(low: int, high: int) returns (r: Outcome<int>)
    ensures r.Success? <==> low <= high
    ensures r.Success? ==> low <= r.value <= high
  {
    if low > high { return ValueError; }
    assert low <= low <= high;
    var x :| low <= x <= high;
    return Success(x);
  }

  /** `rng.choice(items)`. */
  method Choice<T(==)>(items: seq<T>) returns (r: Outcome<T>)
    ensures r.Success? <==> items != []
    ensures r.Success? ==> r.value in items
  {
    if items == [] { return ValueError; }
    assert items[0] in items;
    var x :| x in items;
    return Success(x);
  }

  predicate Drawn(secs: seq<int>, low: int, high: int, n: int) {
    |secs| == n && Ascending(secs) && forall i | 0 <= i < |secs| :: low <= secs[i] <= high
  }

  /** `sorted(rng.sample(range(low, high + 1), n))`: `n` distinct seconds, ascending. */
  method DistinctSeconds(low: int, high: int, n: int) returns (r: Outcome<seq<int>>)
    ensures r.Success? <==> 0 <= n <= (if low <= high then high - low + 1 else 0)
    ensures r.Success? ==> Drawn(r.value, low, high, n)
  {
    if !(0 <= n <= (if low <= high then high - low + 1 else 0)) { return ValueError; }
    ghost var first := seq(n, i => low + i);
    assert Drawn(first, low, high, n);
    var secs: seq<int> := [];
    var next := low;
    while |secs| < n
      invariant |secs| <= n && Drawn(secs, low, next - 1, |secs|)
      invariant low <= next && (|secs| < n ==> next + (n - |secs|) - 1 <= high)
      invariant secs != [] ==> next - 1 <= high
      decreases n - |secs|
    {
      assert next <= next <= high - (n - |secs| - 1);
      var s :| next <= s <= high - (n - |secs| - 1);
      secs := secs + [s];
      next := s + 1;
    }
    return Success(secs);
  }

  /** `rng.shuffle(items)`. */
  method Shuffle<T(==)>(items: seq<T>) returns (r: seq<T>)
    ensures multiset(r) == multiset(items)
  {
    r := [];
    var rest := items;
    while rest != []
      invariant multiset(r) + multiset(rest) == multiset(items)
      decreases |rest|
    {
      assert 0 <= 0 < |rest|;
      var i :| 0 <= i < |rest|;
      assert rest == rest[..i] + [rest[i]] + rest[i + 1..];
      r := r + [rest[i]];
      rest := rest[..i] + rest[i + 1..];
    }
  }
}
