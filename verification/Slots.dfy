/** How a background account's login slots are drawn: rank the day's slots by random keys and take the first few. */
module Slots {
  import opened Detection
  import opened Grouping

  const SLOTS_PER_DAY: int := 288
  const FIRST_HUMAN_SLOT: int := 96
  const AFTER_HUMAN_SLOTS: int := 216

  predicate HumanSlot(slot: int) { FIRST_HUMAN_SLOT <= slot < AFTER_HUMAN_SLOTS }

  predicate Allowed(service: bool, slot: int) { 0 <= slot < SLOTS_PER_DAY && (service || HumanSlot(slot)) }

  function KeyAt(keys: seq<real>, i: int): real { if 0 <= i < |keys| then keys[i] else 0.0 }

  predicate ByKey(order: seq<int>, keys: seq<real>) {
    forall i, j | 0 <= i < j < |order| :: KeyAt(keys, order[i]) <= KeyAt(keys, order[j])
  }

  /** `order` lists the numbers below `n`, each once. */
  ghost predicate Ranks(order: seq<int>, n: nat) {
    |order| == n && NoRepeats(order) && forall i :: i in order <==> 0 <= i < n
  }

  /** `np.argsort` of one row of keys. */
  method ArgSort(keys: seq<real>) returns (order: seq<int>)
    ensures Ranks(order, |keys|) && ByKey(order, keys)
  {
    order := [];
    for n := 0 to |keys|
      invariant Ranks(order, n) && ByKey(order, keys)
    {
      var at := 0;
      while at < n && KeyAt(keys, order[at]) <= keys[n]
        invariant 0 <= at <= n
        invariant forall i | 0 <= i < at :: KeyAt(keys, order[i]) <= keys[n]
      {
        at := at + 1;
      }
      StillRanks(order, n, at);
      StillByKey(order, keys, n, at);
      order := order[..at] + [n] + order[at..];
    }
  }

  lemma {:induction false} StillRanks(order: seq<int>, n: nat, at: nat)
    requires Ranks(order, n) && at <= n
    ensures Ranks(order[..at] + [n] + order[at..], n + 1)
  {
    var after := order[..at] + [n] + order[at..];
    forall i ensures i in after <==> i in order || i == n { assert order == order[..at] + order[at..]; }
    forall i, j | 0 <= i < j < |after| ensures after[i] != after[j] {
      assert after[i] == n <==> i == at by { if i != at { assert after[i] in order; } }
      assert after[j] == n <==> j == at by { if j != at { assert after[j] in order; } }
    }
  }

  lemma {:induction false} StillByKey(order: seq<int>, keys: seq<real>, n: nat, at: nat)
    requires ByKey(order, keys) && at <= |order| && n < |keys|
    requires forall i | 0 <= i < at :: KeyAt(keys, order[i]) <= keys[n]
    requires at == |order| || keys[n] <= KeyAt(keys, order[at])
    ensures ByKey(order[..at] + [n] + order[at..], keys)
  {
    var after := order[..at] + [n] + order[at..];
    forall i, j | 0 <= i < j < |after| ensures KeyAt(keys, after[i]) <= KeyAt(keys, after[j]) {
      if i == at {
        assert KeyAt(keys, order[at]) <= KeyAt(keys, order[j - 1]);
      } else if j > at && i > at {
        assert KeyAt(keys, order[i - 1]) <= KeyAt(keys, order[j - 1]);
      }
    }
  }

  /** The slots from `lo` up to but excluding `hi`. */
  function Interval(lo: int, hi: int): set<int>
    decreases hi - lo
  {
    if lo >= hi then {} else Interval(lo, hi - 1) + {hi - 1}
  }

  lemma {:induction false} AboutInterval(lo: int, hi: int)
    requires lo <= hi
    ensures |Interval(lo, hi)| == hi - lo && forall i :: i in Interval(lo, hi) <==> lo <= i < hi
    decreases hi - lo
  {
    if lo < hi { AboutInterval(lo, hi - 1); }
  }

  predicate KeysApart(keys: seq<real>) {
    forall i | 0 <= i < |keys| :: if HumanSlot(i) then keys[i] < 1.0 else keys[i] >= 2.0
  }

  /** Keys of at least 2 push the slots a human never uses behind every slot they may use. */
  lemma {:induction false} HumanSlotsFirst(keys: seq<real>, order: seq<int>, j: nat)
    requires |keys| == SLOTS_PER_DAY && ByKey(order, keys) && Ranks(order, |keys|) && KeysApart(keys)
    requires j < AFTER_HUMAN_SLOTS - FIRST_HUMAN_SLOT
    ensures HumanSlot(order[j])
  {
    assert order[j] in order;
    if !HumanSlot(order[j]) {
      AboutInterval(FIRST_HUMAN_SLOT, AFTER_HUMAN_SLOTS);
      forall i | i in Interval(FIRST_HUMAN_SLOT, AFTER_HUMAN_SLOTS) ensures i in Members(order[..j]) {
        assert HumanSlot(i) && i in order;
        var at :| 0 <= at < |order| && order[at] == i;
        assert at < j;
        assert order[..j][at] == i;
      }
      SubsetSize(Interval(FIRST_HUMAN_SLOT, AFTER_HUMAN_SLOTS), Members(order[..j]));
      MembersAtMost(order[..j]);
    }
  }

  /** `rng.random()`. */
  method RandomKey() returns (k: real)
    ensures 0.0 <= k < 1.0
  {
    assert 0.0 <= 0.5 < 1.0;
    k :| 0.0 <= k < 1.0;
  }

  /** `m` distinct slots, ranked by random keys; the keys of slots a human never uses are raised by 2. */
  method ChooseSlots(service: bool, m: nat) returns (slots: seq<int>)
    requires m <= if service then SLOTS_PER_DAY else AFTER_HUMAN_SLOTS - FIRST_HUMAN_SLOT
    ensures |slots| == m && NoRepeats(slots) && forall s | s in slots :: Allowed(service, s)
  {
    var keys := new real[SLOTS_PER_DAY];
    for i := 0 to keys.Length
      invariant forall j | 0 <= j < i :: 0.0 <= keys[j] < 1.0
    {
      var k := RandomKey();
      keys[i] := k;
    }
    if !service {
      for i := 0 to keys.Length
        invariant forall j | 0 <= j < i :: if HumanSlot(j) then keys[j] < 1.0 else keys[j] >= 2.0
        invariant forall j | i <= j < keys.Length :: 0.0 <= keys[j] < 1.0
      {
        if !HumanSlot(i) { keys[i] := keys[i] + 2.0; }
      }
    }
    var order := ArgSort(keys[..]);
    slots := order[..m];
    forall s | s in slots ensures Allowed(service, s) {
      var i :| 0 <= i < m && slots[i] == s;
      assert order[i] in order;
      if !service { HumanSlotsFirst(keys[..], order, i); }
    }
  }
}
