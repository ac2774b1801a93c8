/** The order in which storages are visited, and the shared consumer that hands them out. */
module Orderer {
  import opened Types

  // ---------------------------------------------------------------------------------------
  // Selection arithmetic
  // ---------------------------------------------------------------------------------------

  /** `select_from_range_with_start_end_rates` for a range starting at `start`. */
  function Select(start: nat, len: nat, nth: nat, startRate: nat, endRate: nat): int
    requires startRate + endRate > 0
  {
    var cycle := startRate + endRate;
    var cycleIndex := nth % cycle;
    var cycleNum := nth / cycle;
    start + if cycleIndex < startRate then cycleNum * startRate + cycleIndex
            else len - (cycleNum * endRate + cycleIndex - startRate) - 1
  }

  /** Each round of selections takes the next `startRate` ones from the start of the range, going
      up, and then the next `endRate` ones from its end, going down. */
  lemma SelectInRounds(start: nat, len: nat, nth: nat, round: nat, i: nat, startRate: nat, endRate: nat)
    requires i < startRate + endRate && nth == round * (startRate + endRate) + i
    ensures Select(start, len, nth, startRate, endRate) ==
            if i < startRate then start + round * startRate + i
            else start + len - 1 - round * endRate - (i - startRate)
  {
    DivModIs(nth, startRate + endRate, round, i);
  }

  /** Of the first `n` selections, those taken from the start of the range. */
  function FromStart(n: nat, startRate: nat, endRate: nat): int
    requires startRate + endRate > 0
  {
    var cycle := startRate + endRate;
    n / cycle * startRate + if n % cycle < startRate then n % cycle else startRate
  }

  /** Of the first `n` selections, those taken from its end. */
  function FromEnd(n: nat, startRate: nat, endRate: nat): int
    requires startRate + endRate > 0
  {
    var cycle := startRate + endRate;
    n / cycle * endRate + if n % cycle < startRate then 0 else n % cycle - startRate
  }

  lemma NextInCycle(n: nat, cycle: nat)
    requires cycle > 0
    ensures n % cycle + 1 < cycle ==> (n + 1) / cycle == n / cycle && (n + 1) % cycle == n % cycle + 1
    ensures n % cycle + 1 == cycle ==> (n + 1) / cycle == n / cycle + 1 && (n + 1) % cycle == 0
  {
    var q, r := n / cycle, n % cycle;
    assert n == q * cycle + r;
    if r + 1 < cycle {
      DivModIs(n + 1, cycle, q, r + 1);
    } else {
      assert n + 1 == (q + 1) * cycle;
      DivModIs(n + 1, cycle, q + 1, 0);
    }
  }

  lemma AtLeastOnce(a: int, d: nat)
    requires a >= 1
    ensures a * d >= d
  {
    assert a * d == (a - 1) * d + d;
    assert (a - 1) * d >= 0;
  }

  lemma DivModIs(n: nat, d: nat, q: nat, r: nat)
    requires d > 0 && r < d && n == q * d + r
    ensures n / d == q && n % d == r
  {
    var q', r' := n / d, n % d;
    assert n == q' * d + r' && 0 <= r' < d;
    QuotientIs(d, q, r, q', r');
  }

  lemma QuotientIs(d: nat, q: int, r: int, q': int, r': int)
    requires q * d + r == q' * d + r' && 0 <= r < d && 0 <= r' < d
    ensures q == q' && r == r'
  {
    if q > q' {
      AtLeastOnce(q - q', d);
    } else if q < q' {
      AtLeastOnce(q' - q, d);
    }
  }

  /** Each selection takes the next one from the start, or the next one from the end. */
  lemma OneMore(len: nat, n: nat, startRate: nat, endRate: nat)
    requires startRate + endRate > 0
    ensures var a, b := FromStart(n, startRate, endRate), FromEnd(n, startRate, endRate);
            var a', b' := FromStart(n + 1, startRate, endRate), FromEnd(n + 1, startRate, endRate);
            var x := Select(0, len, n, startRate, endRate);
            || (x == a && a' == a + 1 && b' == b)
            || (x == len - b - 1 && a' == a && b' == b + 1)
  {
    var cycle := startRate + endRate;
    var q, r := n / cycle, n % cycle;
    NextInCycle(n, cycle);
    assert (q + 1) * startRate == q * startRate + startRate;
    assert (q + 1) * endRate == q * endRate + endRate;
  }

  lemma {:induction false} Counted(n: nat, startRate: nat, endRate: nat)
    requires startRate + endRate > 0
    ensures FromStart(n, startRate, endRate) >= 0 && FromEnd(n, startRate, endRate) >= 0
    ensures FromStart(n, startRate, endRate) + FromEnd(n, startRate, endRate) == n
  {
    if n == 0 {
      DivModIs(0, startRate + endRate, 0, 0);
    } else {
      Counted(n - 1, startRate, endRate);
      OneMore(n, n - 1, startRate, endRate);
    }
  }

  /** The first `n` selections are the first ones of the range and the last ones. */
  lemma {:induction false} SelectedBefore(len: nat, n: nat, i: nat, startRate: nat, endRate: nat)
    requires startRate + endRate > 0 && i < n
    ensures var x := Select(0, len, i, startRate, endRate);
            || 0 <= x < FromStart(n, startRate, endRate)
            || len - FromEnd(n, startRate, endRate) <= x < len
  {
    OneMore(len, n - 1, startRate, endRate);
    Counted(n - 1, startRate, endRate);
    if i < n - 1 {
      SelectedBefore(len, n - 1, i, startRate, endRate);
    }
  }

  lemma InRange(len: nat, i: nat, startRate: nat, endRate: nat)
    requires startRate + endRate > 0 && i < len
    ensures 0 <= Select(0, len, i, startRate, endRate) < len
  {
    SelectedBefore(len, i + 1, i, startRate, endRate);
    Counted(i + 1, startRate, endRate);
  }

  /** No value is selected twice. */
  lemma Injective(len: nat, i: nat, j: nat, startRate: nat, endRate: nat)
    requires startRate + endRate > 0 && i < j < len
    ensures Select(0, len, i, startRate, endRate) != Select(0, len, j, startRate, endRate)
  {
    SelectedBefore(len, j, i, startRate, endRate);
    OneMore(len, j, startRate, endRate);
    Counted(j, startRate, endRate);
  }

  /** All of `0..n`, each once, in some order. */
  predicate IsPermutation(s: seq<int>, n: nat) {
    && |s| == n
    && (forall i :: 0 <= i < n ==> 0 <= s[i] < n)
    && (forall i, j :: 0 <= i < j < n ==> s[i] != s[j])
  }

  /** Distinct values below `n` are all of them. */
  lemma PermutationHasAll(s: seq<int>, n: nat, x: int)
    requires IsPermutation(s, n) && 0 <= x < n
    ensures x in s
  {
    var values := set i | 0 <= i < |s| :: s[i];
    DistinctSize(s);
    SubsetSize(values, Below(n));
    assert x in values;
  }

  lemma {:induction false} DistinctSize(s: seq<int>)
    requires forall i, j :: 0 <= i < j < |s| ==> s[i] != s[j]
    ensures |set i | 0 <= i < |s| :: s[i]| == |s|
  {
    var values := set i | 0 <= i < |s| :: s[i];
    if s != [] {
      var n := |s| - 1;
      DistinctSize(s[..n]);
      var rest := set i | 0 <= i < |s[..n]| :: s[..n][i];
      assert values == rest + {s[n]};
      assert s[n] !in rest;
    }
  }

  /** Selection is a bijection of the range onto itself. */
  lemma SelectIsBijection(len: nat, startRate: nat, endRate: nat)
    requires startRate + endRate > 0
    ensures IsPermutation(seq(len, i requires 0 <= i < len => Select(0, len, i, startRate, endRate)), len)
  {
    forall i | 0 <= i < len
      ensures 0 <= Select(0, len, i, startRate, endRate) < len
    {
      InRange(len, i, startRate, endRate);
    }
    forall i, j | 0 <= i < j < len
      ensures Select(0, len, i, startRate, endRate) != Select(0, len, j, startRate, endRate)
    {
      Injective(len, i, j, startRate, endRate);
    }
  }

  // ---------------------------------------------------------------------------------------
  // The orderer
  // ---------------------------------------------------------------------------------------

  /** `with_small_to_large_ratio` after the indices have been sorted by size: each one is
      replaced in place. Whatever the order they came in, all storages are still there. */
  method SelectInPlace(indices: array<int>, startRate: nat, endRate: nat)
    requires startRate + endRate > 0
    requires IsPermutation(indices[..], indices.Length)
    modifies indices
    ensures forall i :: 0 <= i < indices.Length ==>
              old(indices[i]) >= 0 && indices[i] == Select(0, indices.Length, old(indices[i]), startRate, endRate)
    ensures IsPermutation(indices[..], indices.Length)
  {
    var len := indices.Length;
    ghost var was := indices[..];
    for i := 0 to len
      invariant forall j :: i <= j < len ==> indices[j] == was[j]
      invariant forall j :: 0 <= j < i ==> was[j] >= 0 && indices[j] == Select(0, len, was[j], startRate, endRate)
    {
      indices[i] := Select(0, len, indices[i], startRate, endRate);
    }
    forall i, j | 0 <= i < len
      ensures 0 <= indices[i] < len
      ensures i < j < len ==> indices[i] != indices[j]
    {
      InRange(len, was[i], startRate, endRate);
      if i < j < len {
        if was[i] < was[j] {
          Injective(len, was[i], was[j], startRate, endRate);
        } else {
          Injective(len, was[j], was[i], startRate, endRate);
        }
      }
    }
  }

  // ---------------------------------------------------------------------------------------
  // The concurrent consumer
  // ---------------------------------------------------------------------------------------

  type Thread = nat

  /** What a call of `next` yields: the position and the index of the storage. */
  datatype NextItem = NextItem(position: nat, originalIndex: int)

  /** A call that took effect: who made it and what it yielded. */
  datatype Taken = Taken(thread: Thread, item: NextItem)

  class Consumer {
    const indices: seq<int>
    var currentPosition: nat
    /** The calls that yielded something, in the order of their increments. */
    ghost var log: seq<Taken>

    ghost predicate Valid()
      reads this
    {
      && IsPermutation(indices, |indices|)
      && |log| == (if currentPosition < |indices| then currentPosition else |indices|)
      && forall i :: 0 <= i < |log| ==> log[i].item == NextItem(i, indices[i])
    }

    constructor (order: seq<int>)
      requires IsPermutation(order, |order|)
      ensures Valid() && indices == order && currentPosition == 0 && log == []
    {
      indices, currentPosition := order, 0;
      log := [];
    }

    /** One atomic `fetch_add`, by any thread. */
    method TakeNext(thread: Thread) returns (r: Option<NextItem>)
      requires Valid()
      modifies this
      ensures Valid() && currentPosition == old(currentPosition) + 1
      ensures r.Some? <==> old(currentPosition) < |indices|
      ensures log == if r.Some? then old(log) + [Taken(thread, r.value)] else old(log)
    {
      var position := currentPosition;
      currentPosition := currentPosition + 1;
      if position < |indices| {
        var item := NextItem(position, indices[position]);
        log := log + [Taken(thread, item)];
        return Some(item);
      }
      return None;
    }
  }

  /** Whoever calls `next`, and in whatever order, no storage is handed out twice. */
  lemma AtMostOnce(c: Consumer, i: nat, j: nat)
    requires c.Valid() && i < j < |c.log|
    ensures c.log[i].item.originalIndex != c.log[j].item.originalIndex
  {
    assert c.indices[i] != c.indices[j];
  }

  /** After as many calls as there are storages, each has been handed out. */
  lemma EachTaken(c: Consumer, x: int)
    requires c.Valid() && c.currentPosition >= |c.indices|
    requires 0 <= x < |c.indices|
    ensures exists i :: 0 <= i < |c.log| && c.log[i].item.originalIndex == x
  {
    PermutationHasAll(c.indices, |c.indices|, x);
    var i :| 0 <= i < |c.indices| && c.indices[i] == x;
    assert c.log[i].item.originalIndex == x;
  }
}
