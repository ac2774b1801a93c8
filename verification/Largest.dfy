/** `load_largest_accounts`: a bounded heap fed by a scan in any order gives the largest
    balances that pass the address filter, largest first. */
module Largest {
  import opened Types
  import opened AncestorSets
  import opened Store
  import opened Invariant
  import opened Scans

  /** An entry of the heap, ordered by lamports and then by pubkey. */
  datatype Balance = Balance(lamports: nat, pubkey: Pubkey)

  predicate Less(x: Balance, y: Balance) {
    x.lamports < y.lamports || (x.lamports == y.lamports && x.pubkey < y.pubkey)
  }

  datatype AddressFilter = Exclude | Include

  predicate Collected(call: Call, filter: AddressFilter, addresses: set<Pubkey>) {
    call.account.lamports != 0 && (filter.Include? <==> call.pubkey in addresses)
  }

  function BalanceOf(call: Call): Balance {
    Balance(call.account.lamports, call.pubkey)
  }

  /** All balances among the calls that pass the filter. */
  ghost function Eligible(calls: seq<Call>, filter: AddressFilter, addresses: set<Pubkey>): set<Balance> {
    set i | 0 <= i < |calls| && Collected(calls[i], filter, addresses) :: BalanceOf(calls[i])
  }

  /** Strictly ascending. The heap pops its smallest entry, which is the first one. */
  predicate Sorted(s: seq<Balance>) {
    forall i, j :: 0 <= i < j < |s| ==> Less(s[i], s[j])
  }

  function Elements(s: seq<Balance>): set<Balance> {
    set b | b in s
  }

  /** The heap holds the `num` largest of `all`, or all of them if there are fewer. */
  ghost predicate Top(heap: seq<Balance>, num: nat, all: set<Balance>) {
    && Sorted(heap) && |heap| <= num
    && Elements(heap) <= all
    && (|heap| < num ==> Elements(heap) == all)
    && (forall x, y :: x in all && x !in heap && y in heap ==> Less(x, y))
  }

  function Push(s: seq<Balance>, x: Balance): (r: seq<Balance>)
    requires Sorted(s) && x !in s
    ensures Sorted(r) && |r| == |s| + 1 && forall y :: y in r <==> y in s || y == x
  {
    if s == [] then [x]
    else
      TailSorted(s);
      if Less(x, s[0]) then
        ConsSorted(x, s);
        [x] + s
      else
        var r := Push(s[1..], x);
        ConsSorted(s[0], r);
        [s[0]] + r
  }

  lemma TailSorted(s: seq<Balance>)
    requires Sorted(s) && s != []
    ensures s == [s[0]] + s[1..] && Sorted(s[1..])
    ensures forall y :: y in s[1..] ==> Less(s[0], y)
  {
  }

  lemma ConsSorted(x: Balance, s: seq<Balance>)
    requires Sorted(s) && forall y :: y in s ==> Less(x, y)
    ensures Sorted([x] + s)
  {
    var r := [x] + s;
    forall i, j | 0 <= i < j < |r|
      ensures Less(r[i], r[j])
    {
      assert r[j] == s[j - 1] && r[j] in s;
    }
  }

  lemma PushTop(heap: seq<Balance>, num: nat, all: set<Balance>, x: Balance)
    requires Top(heap, num, all) && |heap| < num && x !in all
    ensures Top(Push(heap, x), num, all + {x})
  {
  }

  lemma TooSmall(heap: seq<Balance>, num: nat, all: set<Balance>, x: Balance)
    requires Top(heap, num, all) && |heap| == num && num > 0 && x !in all
    requires !Less(heap[0], x)
    ensures Top(heap, num, all + {x})
  {
    forall y | y in heap
      ensures Less(x, y)
    {
      TailSorted(heap);
      assert heap[0] in heap;
    }
  }

  lemma ReplaceTop(heap: seq<Balance>, num: nat, all: set<Balance>, x: Balance)
    requires Top(heap, num, all) && |heap| == num && num > 0 && x !in all
    requires Less(heap[0], x)
    ensures Sorted(heap[1..]) && x !in heap[1..]
    ensures Top(Push(heap[1..], x), num, all + {x})
  {
    TailSorted(heap);
    var heap' := Push(heap[1..], x);
    forall u, v | u in all + {x} && u !in heap' && v in heap'
      ensures Less(u, v)
    {
      assert heap[0] in heap;
      if u in heap {
        assert u == heap[0];
      }
    }
  }

  lemma EligibleNext(calls: seq<Call>, filter: AddressFilter, addresses: set<Pubkey>, i: nat)
    requires i < |calls|
    ensures Eligible(calls[..i + 1], filter, addresses) ==
            Eligible(calls[..i], filter, addresses) + if Collected(calls[i], filter, addresses) then {BalanceOf(calls[i])} else {}
  {
    var before, after := calls[..i], calls[..i + 1];
    forall b | b in Eligible(after, filter, addresses)
      ensures b in Eligible(before, filter, addresses) || (Collected(calls[i], filter, addresses) && b == BalanceOf(calls[i]))
    {
      var j :| 0 <= j < |after| && Collected(after[j], filter, addresses) && BalanceOf(after[j]) == b;
      if j < i {
        assert before[j] == after[j];
      }
    }
    forall b | b in Eligible(before, filter, addresses)
      ensures b in Eligible(after, filter, addresses)
    {
      var j :| 0 <= j < |before| && Collected(before[j], filter, addresses) && BalanceOf(before[j]) == b;
      assert after[j] == before[j];
    }
    if Collected(calls[i], filter, addresses) {
      assert after[i] == calls[i];
    }
  }

  lemma NewBalance(calls: seq<Call>, filter: AddressFilter, addresses: set<Pubkey>, i: nat)
    requires forall j, l :: 0 <= j < l < |calls| ==> calls[j].pubkey != calls[l].pubkey
    requires i < |calls|
    ensures BalanceOf(calls[i]) !in Eligible(calls[..i], filter, addresses)
  {
  }

  /** The heap after the calls of a scan. */
  method CollectLargest(calls: seq<Call>, num: nat, filter: AddressFilter, addresses: set<Pubkey>) returns (heap: seq<Balance>)
    requires num > 0
    requires forall j, l :: 0 <= j < l < |calls| ==> calls[j].pubkey != calls[l].pubkey
    ensures Top(heap, num, Eligible(calls, filter, addresses))
  {
    heap := [];
    assert Eligible(calls[..0], filter, addresses) == {};
    for i := 0 to |calls|
      invariant Top(heap, num, Eligible(calls[..i], filter, addresses))
    {
      ghost var all := Eligible(calls[..i], filter, addresses);
      EligibleNext(calls, filter, addresses, i);
      NewBalance(calls, filter, addresses, i);
      if Collected(calls[i], filter, addresses) {
        var x := BalanceOf(calls[i]);
        if |heap| < num {
          PushTop(heap, num, all, x);
          heap := Push(heap, x);
        } else if !Less(heap[0], x) {
          TooSmall(heap, num, all, x);
        } else {
          ReplaceTop(heap, num, all, x);
          heap := Push(heap[1..], x);
        }
      }
    }
    assert calls[..|calls|] == calls;
  }

  /** `into_sorted_vec` of reversed entries: the largest first. */
  function Reversed(s: seq<Balance>): (r: seq<Balance>)
    ensures |r| == |s| && forall i :: 0 <= i < |s| ==> r[i] == s[|s| - 1 - i]
  {
    if s == [] then [] else Reversed(s[1..]) + [s[0]]
  }

  /** `b` is the balance of an account that passes the filter. */
  ghost predicate Holds(r: Reader, filter: AddressFilter, addresses: set<Pubkey>, b: Balance) {
    var account := Answer(r, b.pubkey);
    account.Some? && account.value.lamports == b.lamports && (filter.Include? <==> b.pubkey in addresses)
  }

  /** `top` are the `num` largest balances the reader would find by loading every account. */
  ghost predicate IsLargest(r: Reader, filter: AddressFilter, addresses: set<Pubkey>, num: nat, top: seq<Balance>) {
    && |top| <= num
    && (forall i, j :: 0 <= i < j < |top| ==> Less(top[j], top[i]))
    && (forall i :: 0 <= i < |top| ==> Holds(r, filter, addresses, top[i]))
    && (forall b :: Holds(r, filter, addresses, b) && b !in top ==>
          |top| == num && forall i :: 0 <= i < |top| ==> Less(b, top[i]))
  }

  lemma EligibleIsHeld(r: Reader, calls: seq<Call>, filter: AddressFilter, addresses: set<Pubkey>, b: Balance)
    requires CallsOk(r, calls) && forall k :: Answer(r, k).Some? ==> Reported(calls, k)
    ensures b in Eligible(calls, filter, addresses) <==> Holds(r, filter, addresses, b)
  {
    if b in Eligible(calls, filter, addresses) {
      var i :| 0 <= i < |calls| && Collected(calls[i], filter, addresses) && BalanceOf(calls[i]) == b;
      assert Reports(r, calls[i].pubkey, Cached(calls[i].slot, calls[i].account));
    }
    if Holds(r, filter, addresses, b) {
      assert Reported(calls, b.pubkey);
      var i :| 0 <= i < |calls| && calls[i].pubkey == b.pubkey;
      assert Reports(r, calls[i].pubkey, Cached(calls[i].slot, calls[i].account));
      AnswerNonZero(r, b.pubkey);
      assert Collected(calls[i], filter, addresses) && BalanceOf(calls[i]) == b;
    }
  }

  lemma AnswerNonZero(r: Reader, k: Pubkey)
    ensures Answer(r, k).Some? ==> Answer(r, k).value.lamports != 0
  {
  }

  lemma TopIsLargest(r: Reader, calls: seq<Call>, filter: AddressFilter, addresses: set<Pubkey>, num: nat, heap: seq<Balance>)
    requires CallsOk(r, calls) && forall k :: Answer(r, k).Some? ==> Reported(calls, k)
    requires Top(heap, num, Eligible(calls, filter, addresses))
    ensures IsLargest(r, filter, addresses, num, Reversed(heap))
  {
    var top := Reversed(heap);
    forall b
      ensures b in Eligible(calls, filter, addresses) <==> Holds(r, filter, addresses, b)
    {
      EligibleIsHeld(r, calls, filter, addresses, b);
    }
    forall b
      ensures b in top <==> b in heap
    {
      if b in heap {
        var i :| 0 <= i < |heap| && heap[i] == b;
        assert top[|heap| - 1 - i] == b;
      }
    }
    forall i | 0 <= i < |top|
      ensures top[i] in heap
    {
      assert top[i] == heap[|heap| - 1 - i];
    }
  }

  /** `load_largest_accounts`, with everything else in the store going on meanwhile. */
  method LoadLargest(db: SharedStore, ancestors: Ancestors, num: nat, addresses: set<Pubkey>, filter: AddressFilter)
    returns (top: seq<Balance>, ghost r: Reader)
    requires Inv(db.st) && db.st.roots != {}
    requires Newest(db.st.roots) in ancestors ==> Consistent(db.st.roots, ancestors)
    modifies db
    ensures r.a == if Newest(old(db.st).roots) in ancestors then ancestors else [Newest(old(db.st).roots)]
    ensures forall k :: Answer(r, k) == Load(old(db.st), r.a, k)
    ensures IsLargest(r, filter, addresses, num, top)
    ensures forall i, j :: 0 <= i < j < |top| ==> top[j].lamports <= top[i].lamports
    ensures forall b, i :: Holds(r, filter, addresses, b) && b !in top && 0 <= i < |top| ==> b.lamports <= top[i].lamports
  {
    if num == 0 {
      ScanBegins(db.st, ancestors);
      r := Reading(BeginScan(db.st), ScanAncestors(Newest(db.st.roots), ancestors));
      PinAnswers(db.st, r);
      return [], r;
    }
    var calls;
    calls, r := ScanAccounts(db, ancestors);
    var heap := CollectLargest(calls, num, filter, addresses);
    TopIsLargest(r, calls, filter, addresses, num, heap);
    top := Reversed(heap);
  }
}
