/** The primary index as a value: for each pubkey the slots it is stored in and where.
    The operations are those of `AccountsIndex` that the background steps use. */
module PrimaryIndex {
  import opened Types

  /** `AccountInfo`: a storage location and whether the account there is zero-lamport. */
  datatype Info = Info(store: StoreId, offset: Offset, zero: bool)

  /** A slot list. A slot occurs at most once, so the list is a map from slots. */
  type SlotList = map<Slot, Info>

  type Index = map<Pubkey, SlotList>

  predicate Has(ix: Index, k: Pubkey, s: Slot) {
    k in ix && s in ix[k]
  }

  function At(ix: Index, k: Pubkey, s: Slot): Info
    requires Has(ix, k, s)
  {
    ix[k][s]
  }

  /** No key is left behind with an empty slot list. */
  ghost predicate NoEmptyLists(ix: Index) {
    forall k :: k in ix ==> ix[k] != map[]
  }

  function ListOf(ix: Index, k: Pubkey): SlotList {
    if k in ix then ix[k] else map[]
  }

  /** `upsert` with `IgnoreReclaims`: overwrite the entry at `s`, keep the others. */
  function UpsertKeepOld(ix: Index, k: Pubkey, s: Slot, info: Info): (r: Index)
    ensures forall k': Pubkey, s': Slot :: Has(r, k', s') <==> Has(ix, k', s') || (k' == k && s' == s)
    ensures forall k': Pubkey, s': Slot :: Has(r, k', s') ==>
              At(r, k', s') == if k' == k && s' == s then info else At(ix, k', s')
    ensures forall k': Pubkey :: k' != k ==> (k' in r <==> k' in ix)
    ensures NoEmptyLists(ix) ==> NoEmptyLists(r)
  {
    var l: SlotList := ListOf(ix, k)[s := info];
    assert s in l;
    ix[k := l]
  }

  /** `upsert` with `ReclaimOldSlots`: the new entry replaces every entry that is not newer. */
  function UpsertReclaimOld(ix: Index, k: Pubkey, s: Slot, info: Info): (r: Index)
    ensures forall k': Pubkey, s': Slot :: Has(r, k', s') <==>
              if k' == k then s' == s || (s' > s && Has(ix, k', s')) else Has(ix, k', s')
    ensures forall k': Pubkey, s': Slot :: Has(r, k', s') ==>
              At(r, k', s') == if k' == k && s' == s then info else At(ix, k', s')
    ensures forall k': Pubkey :: k' != k ==> (k' in r <==> k' in ix)
    ensures NoEmptyLists(ix) ==> NoEmptyLists(r)
  {
    var was := ListOf(ix, k);
    var l: SlotList := (map t | t in was && t > s :: was[t])[s := info];
    assert s in l;
    ix[k := l]
  }

  /** `delete`: the key leaves the index. */
  function Delete(ix: Index, k: Pubkey): (r: Index)
    ensures forall k': Pubkey, s': Slot :: Has(r, k', s') <==> k' != k && Has(ix, k', s')
    ensures forall k': Pubkey, s': Slot :: Has(r, k', s') ==> At(r, k', s') == At(ix, k', s')
    ensures forall k': Pubkey :: k' != k ==> (k' in r <==> k' in ix)
    ensures NoEmptyLists(ix) ==> NoEmptyLists(r)
  {
    ix - {k}
  }

  /** `replace` with equal old and new slot, as shrink uses it. */
  function Replace(ix: Index, k: Pubkey, s: Slot, info: Info): (r: Index)
    requires Has(ix, k, s)
    ensures forall k': Pubkey, s': Slot :: Has(r, k', s') <==> Has(ix, k', s')
    ensures forall k': Pubkey, s': Slot :: Has(r, k', s') ==>
              At(r, k', s') == if k' == k && s' == s then info else At(ix, k', s')
    ensures forall k': Pubkey :: k' != k ==> (k' in r <==> k' in ix)
    ensures NoEmptyLists(ix) ==> NoEmptyLists(r)
  {
    var l: SlotList := ix[k][s := info];
    assert s in l;
    ix[k := l]
  }

  /** The newest slot of the list at or below `bound`, 0 when there is none
      (`purge_older_root_entries`). */
  ghost function NewestUpTo(l: SlotList, bound: Slot): (n: Slot)
    ensures forall t: Slot :: t in l && t <= bound ==> t <= n
    ensures n in l || (n == 0 && forall t: Slot :: t in l ==> t > bound)
    ensures n in l ==> n <= bound || n == 0
  {
    var below := set t: Slot | t in l && t <= bound;
    if below == {} then
      assert forall t: Slot :: t in l ==> t !in below;
      0
    else
      assert forall t: Slot :: t in l && t <= bound ==> t in below;
      Newest(below)
  }

  /** The entries that are not older than `n`. */
  function NotOlder(l: SlotList, n: Slot): SlotList {
    map t | t in l && t >= n :: l[t]
  }

  /** Drop every entry older than the newest one at or below `bound`. */
  ghost function PurgeOlder(l: SlotList, bound: Slot): SlotList {
    NotOlder(l, NewestUpTo(l, bound))
  }

  /** A list whose only entry is a zero-lamport account. */
  predicate LoneZero(l: SlotList) {
    |l| == 1 && forall t: Slot :: t in l ==> l[t].zero
  }

  /** Keep the entries of `k` from `n` on, and drop the key if a lone zero-lamport entry remains. */
  function CleanFrom(ix: Index, k: Pubkey, n: Slot): Index {
    if k !in ix then ix
    else
      var l := NotOlder(ix[k], n);
      if LoneZero(l) then ix - {k} else ix[k := l]
  }

  /** `clean_rooted_entries`. */
  ghost function CleanKey(ix: Index, k: Pubkey, bound: Slot): Index {
    CleanFrom(ix, k, NewestUpTo(ListOf(ix, k), bound))
  }

  type Reclaims = map<(Slot, Offset), Slot>

  /** The entries of `k` in `ix` that are not in `r` any more, each with its mark. */
  function TakenOut(ix: Index, r: Index, k: Pubkey, mark: Slot -> Slot): (m: Reclaims)
    ensures forall s: Slot, o: Offset ::
              (s, o) in m <==> Has(ix, k, s) && !Has(r, k, s) && o == At(ix, k, s).offset
    ensures forall s: Slot, o: Offset :: (s, o) in m ==> m[(s, o)] == mark(s)
  {
    var l := ListOf(ix, k);
    map s: Slot | s in l && !Has(r, k, s) :: (s, l[s].offset) := mark(s)
  }

  /** What `clean_rooted_entries` reclaims: an older entry is marked with the slot of the
      newest entry, the lone zero-lamport entry with its own slot. */
  function ReclaimsFrom(ix: Index, k: Pubkey, n: Slot): Reclaims {
    TakenOut(ix, CleanFrom(ix, k, n), k, s => if s < n then n else s)
  }

  ghost function CleanReclaims(ix: Index, k: Pubkey, bound: Slot): Reclaims {
    ReclaimsFrom(ix, k, NewestUpTo(ListOf(ix, k), bound))
  }

  /** What a clean of one key does to the index. */
  lemma CleanKeyEffect(ix: Index, k: Pubkey, bound: Slot)
    requires NoEmptyLists(ix)
    ensures var r := CleanKey(ix, k, bound);
            var n := NewestUpTo(ListOf(ix, k), bound);
            && NoEmptyLists(r)
            && (forall k': Pubkey :: k' != k ==> (k' in r <==> k' in ix))
            && (k in r ==> k in ix)
            && (forall k': Pubkey, s: Slot :: Has(r, k', s) ==> Has(ix, k', s) && At(r, k', s) == At(ix, k', s))
            && (forall k': Pubkey, s: Slot :: k' != k && Has(ix, k', s) ==> Has(r, k', s))
            && (k in r ==> forall s: Slot :: Has(ix, k, s) && s >= n ==> Has(r, k, s))
            && (forall s: Slot :: Has(r, k, s) ==> s >= n)
  {
    if k in ix {
      var n := NewestUpTo(ix[k], bound);
      var l := PurgeOlder(ix[k], bound);
      var s :| s in ix[k];
      if n in ix[k] {
        assert n in l;
      } else {
        assert s in l;
      }
    }
  }

  /** `z` is the only entry of `k` from slot `n` on, and it is zero-lamport. */
  ghost predicate LoneZeroFrom(ix: Index, k: Pubkey, n: Slot, z: Slot) {
    && Has(ix, k, z) && z >= n && At(ix, k, z).zero
    && forall s: Slot :: Has(ix, k, s) && s >= n ==> s == z
  }

  lemma LoneZeroIs(l: SlotList)
    ensures LoneZero(l) <==> exists z: Slot :: z in l && l[z].zero && forall s: Slot :: s in l ==> s == z
  {
    if LoneZero(l) {
      assert |l.Keys| == 1;
      var z :| z in l;
      forall s: Slot | s in l
        ensures s == z
      {
        SubsetSize({s, z}, l.Keys);
      }
    }
    if z: Slot :| z in l && l[z].zero && forall s: Slot :: s in l ==> s == z {
      assert l.Keys == {z};
    }
  }

  /** A key leaves the index during clean exactly if all that is left of it, once the outdated
      entries are dropped, is one zero-lamport entry. */
  lemma CleanKeyRemoves(ix: Index, k: Pubkey, bound: Slot)
    requires k in ix
    ensures k !in CleanKey(ix, k, bound) <==> exists z: Slot :: LoneZeroFrom(ix, k, NewestUpTo(ix[k], bound), z)
  {
    var n := NewestUpTo(ix[k], bound);
    var l := NotOlder(ix[k], n);
    LoneZeroIs(l);
    if z: Slot :| LoneZeroFrom(ix, k, n, z) {
      assert z in l && l[z].zero;
      forall s: Slot | s in l
        ensures s == z
      {
        assert Has(ix, k, s);
      }
    }
    if LoneZero(l) {
      var z: Slot :| z in l && l[z].zero && forall s: Slot :: s in l ==> s == z;
      forall s: Slot | Has(ix, k, s) && s >= n
        ensures s == z
      {
        assert s in l;
      }
      assert LoneZeroFrom(ix, k, n, z);
    }
  }

  /** No key is left with a lone zero-lamport entry once it was cleaned. */
  lemma CleanKeyLeaves(ix: Index, k: Pubkey, bound: Slot, z: Slot)
    requires NoEmptyLists(ix)
    requires Has(CleanKey(ix, k, bound), k, z) && At(CleanKey(ix, k, bound), k, z).zero
    ensures exists s: Slot :: s != z && Has(CleanKey(ix, k, bound), k, s)
  {
    var r := CleanKey(ix, k, bound);
    CleanKeyEffect(ix, k, bound);
    CleanKeyRemoves(ix, k, bound);
    var n := NewestUpTo(ix[k], bound);
    assert !LoneZeroFrom(ix, k, n, z);
    var s: Slot :| Has(ix, k, s) && s >= n && s != z;
    assert Has(r, k, s);
  }

  /** A key leaves the index during clean only as a lone zero-lamport entry. */
  lemma CleanKeyRemoval(ix: Index, k: Pubkey, bound: Slot) returns (z: Slot)
    requires NoEmptyLists(ix)
    requires k in ix && k !in CleanKey(ix, k, bound)
    ensures Has(ix, k, z) && At(ix, k, z).zero
    ensures forall s: Slot :: Has(ix, k, s) ==> s <= z
    ensures z >= NewestUpTo(ix[k], bound)
    ensures forall s: Slot :: Has(ix, k, s) && s != z ==> s < NewestUpTo(ix[k], bound)
  {
    var l := PurgeOlder(ix[k], bound);
    z :| z in l;
    forall s: Slot | Has(ix, k, s) && s != z
      ensures s < NewestUpTo(ix[k], bound)
    {
      if s in l {
        SubsetSize({s, z}, l.Keys);
      }
    }
  }
}
