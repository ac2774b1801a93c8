/** Slot lists as the index keeps them: unordered vectors changed in place. Each operation does
    to the vector what the index model does to the map. */
module SlotLists {
  import opened Types
  import opened AncestorSets
  import opened PrimaryIndex

  datatype Item = Item(slot: Slot, info: Info)

  ghost predicate DistinctSlots(items: seq<Item>) {
    forall i, j :: 0 <= i < j < |items| ==> items[i].slot != items[j].slot
  }

  ghost predicate Lists(items: seq<Item>, s: Slot) {
    exists i :: 0 <= i < |items| && items[i].slot == s
  }

  /** `items` holds the entries of `m`, in some order. */
  ghost predicate Holds(items: seq<Item>, m: SlotList) {
    && DistinctSlots(items)
    && (forall i :: 0 <= i < |items| ==> items[i].slot in m && m[items[i].slot] == items[i].info)
    && (forall s: Slot :: s in m ==> Lists(items, s))
  }

  // ---------------------------------------------------------------------------------------
  // Lookup
  // ---------------------------------------------------------------------------------------

  /** The newest entry among the slots of `among` is at `r`. */
  ghost predicate NewestAt(items: seq<Item>, among: set<Slot>, r: Option<nat>) {
    if r.None? then forall i :: 0 <= i < |items| ==> items[i].slot !in among
    else
      && r.value < |items| && items[r.value].slot in among
      && forall i :: 0 <= i < |items| && items[i].slot in among ==> items[i].slot <= items[r.value].slot
  }

  ghost function AncestorSlots(items: seq<Item>, a: Ancestors): set<Slot> {
    set i | 0 <= i < |items| && items[i].slot in a :: items[i].slot
  }

  ghost function SlotsUpTo(items: seq<Item>, max: Option<Slot>): set<Slot> {
    set i | 0 <= i < |items| && (max.Some? ==> items[i].slot <= max.value) :: items[i].slot
  }

  method LatestAncestor(items: seq<Item>, a: Ancestors) returns (r: Option<nat>)
    ensures NewestAt(items, AncestorSlots(items, a), r)
  {
    r := None;
    var n := |items|;
    while n > 0
      invariant 0 <= n <= |items|
      invariant r.Some? ==> n <= r.value < |items| && items[r.value].slot in a
      invariant forall i :: n <= i < |items| && items[i].slot in a ==> r.Some? && items[i].slot <= items[r.value].slot
    {
      n := n - 1;
      if (r.None? || items[n].slot > items[r.value].slot) && items[n].slot in a {
        r := Some(n);
      }
    }
  }

  method LatestUpTo(items: seq<Item>, max: Option<Slot>) returns (r: Option<nat>)
    ensures NewestAt(items, SlotsUpTo(items, max), r)
  {
    r := None;
    for n := 0 to |items|
      invariant r.Some? ==> r.value < n && (max.Some? ==> items[r.value].slot <= max.value)
      invariant forall i :: 0 <= i < n && (max.Some? ==> items[i].slot <= max.value) ==>
                  r.Some? && items[i].slot <= items[r.value].slot
    {
      if (max.None? || items[n].slot <= max.value) && (r.None? || items[r.value].slot <= items[n].slot) {
        r := Some(n);
      }
    }
  }

  /** `latest_slot`: an ancestor is preferred over any root, however new. */
  method LatestSlot(a: Ancestors, items: seq<Item>, maxRoot: Option<Slot>) returns (r: Option<nat>)
    ensures if AncestorSlots(items, a) != {} then NewestAt(items, AncestorSlots(items, a), r)
            else NewestAt(items, SlotsUpTo(items, maxRoot), r)
  {
    r := LatestAncestor(items, a);
    if r.None? {
      assert AncestorSlots(items, a) == {};
      r := LatestUpTo(items, maxRoot);
    }
  }

  function MinSlot(a: Ancestors): Option<Slot> {
    if |a| == 0 then None else Some(a[0])
  }

  ghost function SeenSlots(items: seq<Item>, a: Ancestors): set<Slot> {
    set i | 0 <= i < |items| && Sees(a, items[i].slot) :: items[i].slot
  }

  lemma AncestorNotOlder(a: Ancestors, s: Slot)
    requires s in a
    ensures a[0] <= s
  {
  }

  /** Bounded by the oldest ancestor, the ancestors-first search gives the newest slot that is
      an ancestor or not above the oldest one. */
  lemma AncestorsFirst(a: Ancestors, items: seq<Item>, r: Option<nat>)
    requires if AncestorSlots(items, a) != {} then NewestAt(items, AncestorSlots(items, a), r)
             else NewestAt(items, SlotsUpTo(items, MinSlot(a)), r)
    ensures NewestAt(items, SeenSlots(items, a), r)
  {
    forall i | 0 <= i < |items|
      ensures items[i].slot in AncestorSlots(items, a) <==> items[i].slot in a
      ensures items[i].slot in SeenSlots(items, a) <==> Sees(a, items[i].slot)
      ensures items[i].slot in SlotsUpTo(items, MinSlot(a)) <==> (|a| > 0 ==> items[i].slot <= a[0])
    {
    }
    if AncestorSlots(items, a) != {} {
      var x :| x in AncestorSlots(items, a);
      var i :| 0 <= i < |items| && items[i].slot in a && items[i].slot == x;
      AncestorNotOlder(a, items[r.value].slot);
    }
  }

  /** `get_with_and_then`. */
  method GetWith(a: Ancestors, items: seq<Item>) returns (r: Option<Item>)
    ensures r.None? <==> forall i :: 0 <= i < |items| ==> !Sees(a, items[i].slot)
    ensures r.Some? ==> r.value in items && Sees(a, r.value.slot)
    ensures r.Some? ==> forall i :: 0 <= i < |items| && Sees(a, items[i].slot) ==> items[i].slot <= r.value.slot
  {
    var i := LatestSlot(a, items, MinSlot(a));
    AncestorsFirst(a, items, i);
    forall j | 0 <= j < |items|
      ensures items[j].slot in SeenSlots(items, a) <==> Sees(a, items[j].slot)
    {
    }
    return if i.None? then None else Some(items[i.value]);
  }

  // ---------------------------------------------------------------------------------------
  // Changes
  // ---------------------------------------------------------------------------------------

  /** `kept` are the items among the first `n` that are not below `min`, in order. */
  ghost predicate KeptFrom(items: seq<Item>, n: nat, min: Slot, kept: seq<Item>) {
    && n <= |items|
    && DistinctSlots(kept)
    && (forall x :: x in kept ==> x.slot >= min && x in items[..n])
    && (forall i :: 0 <= i < n && items[i].slot >= min ==> items[i] in kept)
  }

  /** `gone` are those below `min`. */
  ghost predicate GoneFrom(items: seq<Item>, n: nat, min: Slot, gone: seq<Item>) {
    && n <= |items|
    && (forall x :: x in gone ==> x.slot < min && x in items[..n])
    && (forall i :: 0 <= i < n && items[i].slot < min ==> items[i] in gone)
  }

  lemma KeepOne(items: seq<Item>, n: nat, min: Slot, kept: seq<Item>, gone: seq<Item>)
    requires DistinctSlots(items) && n < |items|
    requires KeptFrom(items, n, min, kept) && GoneFrom(items, n, min, gone)
    ensures items[n].slot >= min ==> KeptFrom(items, n + 1, min, kept + [items[n]]) && GoneFrom(items, n + 1, min, gone)
    ensures items[n].slot < min ==> KeptFrom(items, n + 1, min, kept) && GoneFrom(items, n + 1, min, gone + [items[n]])
  {
    assert items[..n + 1] == items[..n] + [items[n]];
    forall x | x in kept
      ensures x.slot != items[n].slot
    {
      var i :| 0 <= i < n && items[i] == x;
    }
  }

  /** Keeping what is not below `min`. */
  method RetainFrom(items: seq<Item>, min: Slot) returns (kept: seq<Item>, gone: seq<Item>)
    requires DistinctSlots(items)
    ensures KeptFrom(items, |items|, min, kept) && GoneFrom(items, |items|, min, gone)
  {
    kept, gone := [], [];
    for n := 0 to |items|
      invariant KeptFrom(items, n, min, kept) && GoneFrom(items, n, min, gone)
    {
      KeepOne(items, n, min, kept, gone);
      if items[n].slot < min {
        gone := gone + [items[n]];
      } else {
        kept := kept + [items[n]];
      }
    }
  }

  lemma KeptHolds(items: seq<Item>, m: SlotList, min: Slot, kept: seq<Item>, m': SlotList)
    requires Holds(items, m) && KeptFrom(items, |items|, min, kept)
    requires forall s: Slot :: s in m' <==> s in m && s >= min
    requires forall s: Slot :: s in m' ==> m'[s] == m[s]
    ensures Holds(kept, m')
  {
    assert items[..|items|] == items;
    forall s: Slot | s in m'
      ensures Lists(kept, s)
    {
      var i :| 0 <= i < |items| && items[i].slot == s;
      assert items[i] in kept;
    }
  }

  /** The newest slot at or below `bound`, 0 if there is none. */
  method NewestSlotUpTo(items: seq<Item>, ghost m: SlotList, bound: Slot) returns (newest: Slot)
    requires Holds(items, m)
    ensures newest == NewestUpTo(m, bound)
  {
    newest := 0;
    var found := false;
    for n := 0 to |items|
      invariant !found ==> newest == 0 && forall i :: 0 <= i < n ==> items[i].slot > bound
      invariant found ==> newest <= bound && exists i :: 0 <= i < n && items[i].slot == newest
      invariant found ==> forall i :: 0 <= i < n && items[i].slot <= bound ==> items[i].slot <= newest
    {
      if items[n].slot <= bound && (!found || newest < items[n].slot) {
        newest, found := items[n].slot, true;
      }
    }
    NewestUpToIs(items, m, bound, newest, found);
  }

  lemma NewestUpToIs(items: seq<Item>, m: SlotList, bound: Slot, newest: Slot, found: bool)
    requires Holds(items, m)
    requires !found ==> newest == 0 && forall i :: 0 <= i < |items| ==> items[i].slot > bound
    requires found ==> newest <= bound && Lists(items, newest)
    requires found ==> forall i :: 0 <= i < |items| && items[i].slot <= bound ==> items[i].slot <= newest
    ensures newest == NewestUpTo(m, bound)
  {
    var n := NewestUpTo(m, bound);
    if found {
      assert newest in m;
      assert n in m && n >= newest;
      assert Lists(items, n);
    } else if n in m {
      assert Lists(items, n);
    }
  }

  /** What an update of slot `s` keeps of an entry of another slot. */
  predicate Stays(x: Item, s: Slot, reclaimOld: bool) {
    x.slot != s && (reclaimOld ==> x.slot > s)
  }

  /** The first `n` items after an update of slot `s`. */
  ghost predicate UpdatedUpTo(items: seq<Item>, n: nat, s: Slot, info: Info, reclaimOld: bool, kept: seq<Item>, gone: seq<Item>) {
    && n <= |items|
    && DistinctSlots(kept)
    && (forall x :: x in kept ==> if x.slot == s then x.info == info && Lists(items[..n], s)
                                  else x in items[..n] && Stays(x, s, reclaimOld))
    && (forall i :: 0 <= i < n && Stays(items[i], s, reclaimOld) ==> items[i] in kept)
    && (Lists(items[..n], s) ==> Item(s, info) in kept)
    && (forall x :: x in gone <==> x in items[..n] && reclaimOld && x.slot <= s)
  }

  lemma UpdateOne(items: seq<Item>, n: nat, s: Slot, info: Info, reclaimOld: bool, kept: seq<Item>, gone: seq<Item>)
    requires DistinctSlots(items) && n < |items|
    requires UpdatedUpTo(items, n, s, info, reclaimOld, kept, gone)
    ensures items[n].slot == s ==>
              UpdatedUpTo(items, n + 1, s, info, reclaimOld, kept + [Item(s, info)], if reclaimOld then gone + [items[n]] else gone)
    ensures items[n].slot != s && reclaimOld && items[n].slot < s ==>
              UpdatedUpTo(items, n + 1, s, info, reclaimOld, kept, gone + [items[n]])
    ensures Stays(items[n], s, reclaimOld) ==>
              UpdatedUpTo(items, n + 1, s, info, reclaimOld, kept + [items[n]], gone)
  {
    assert items[..n + 1] == items[..n] + [items[n]];
    ListsNext(items, n, s);
    if items[n].slot == s {
      NotYet(items, n, s);
    }
    forall x | x in kept && x.slot != s
      ensures x.slot != items[n].slot
    {
      var i :| 0 <= i < n && items[i] == x;
    }
  }

  lemma ListsNext(items: seq<Item>, n: nat, s: Slot)
    requires n < |items|
    ensures Lists(items[..n + 1], s) <==> Lists(items[..n], s) || items[n].slot == s
  {
    if Lists(items[..n], s) {
      var i :| 0 <= i < n && items[..n][i].slot == s;
      assert items[..n + 1][i].slot == s;
    }
    if items[n].slot == s {
      assert items[..n + 1][n].slot == s;
    }
    if Lists(items[..n + 1], s) && items[n].slot != s {
      var i :| 0 <= i < n + 1 && items[..n + 1][i].slot == s;
      assert items[..n][i].slot == s;
    }
  }

  lemma NotYet(items: seq<Item>, n: nat, s: Slot)
    requires DistinctSlots(items) && n < |items| && items[n].slot == s
    ensures !Lists(items[..n], s)
  {
  }

  /** `upsert` on the map. */
  ghost function Upserted(m: SlotList, s: Slot, info: Info, reclaimOld: bool): SlotList {
    (map t | t in m && (reclaimOld ==> t > s) :: m[t])[s := info]
  }

  /** The index model's upserts are this, key by key. */
  lemma UpsertedIs(ix: Index, k: Pubkey, s: Slot, info: Info)
    ensures UpsertKeepOld(ix, k, s, info) == ix[k := Upserted(ListOf(ix, k), s, info, false)]
    ensures UpsertReclaimOld(ix, k, s, info) == ix[k := Upserted(ListOf(ix, k), s, info, true)]
  {
    var m := ListOf(ix, k);
    assert m == map t | t in m && (false ==> t > s) :: m[t];
    assert (map t | t in m && t > s :: m[t]) == map t | t in m && (true ==> t > s) :: m[t];
  }

  /** `clean_rooted_entries` on the map. */
  ghost function CleanedEntries(m: SlotList, bound: Slot): SlotList {
    if LoneZero(PurgeOlder(m, bound)) then map[] else PurgeOlder(m, bound)
  }

  ghost function CleanMark(m: SlotList, bound: Slot, s: Slot): Slot {
    if s < NewestUpTo(m, bound) then NewestUpTo(m, bound) else s
  }

  /** The index model's clean of a key is this. A key whose entries are all gone leaves the
      index. */
  lemma CleanedIs(ix: Index, k: Pubkey, bound: Slot)
    requires NoEmptyLists(ix)
    ensures var m := CleanedEntries(ListOf(ix, k), bound);
            CleanKey(ix, k, bound) == if m == map[] then ix - {k} else ix[k := m]
  {
    var m := ListOf(ix, k);
    if k in ix {
      var s := if NewestUpTo(m, bound) in m then NewestUpTo(m, bound) else Newest(m.Keys);
      assert s in PurgeOlder(m, bound);
    } else {
      assert PurgeOlder(m, bound) == map[];
      assert ix - {k} == ix;
    }
  }

  /** And so is what the index model reclaims. */
  lemma CleanReclaimsIs(ix: Index, k: Pubkey, bound: Slot)
    requires NoEmptyLists(ix)
    ensures var m := ListOf(ix, k);
            var reclaims := CleanReclaims(ix, k, bound);
            && (forall s: Slot, o: Offset :: (s, o) in reclaims <==> s in m && s !in CleanedEntries(m, bound) && m[s].offset == o)
            && (forall s: Slot, o: Offset :: (s, o) in reclaims ==> reclaims[(s, o)] == CleanMark(m, bound, s))
  {
    var m' := CleanedEntries(ListOf(ix, k), bound);
    CleanedIs(ix, k, bound);
    forall s: Slot
      ensures Has(CleanKey(ix, k, bound), k, s) <==> s in m'
    {
    }
  }

  lemma UpdatedHolds(items: seq<Item>, m: SlotList, s: Slot, info: Info, reclaimOld: bool, kept: seq<Item>, gone: seq<Item>)
    requires Holds(items, m) && UpdatedUpTo(items, |items|, s, info, reclaimOld, kept, gone)
    requires Item(s, info) in kept
    ensures Holds(kept, Upserted(m, s, info, reclaimOld))
  {
    var m' := Upserted(m, s, info, reclaimOld);
    assert items[..|items|] == items;
    forall t: Slot | t in m'
      ensures Lists(kept, t)
    {
      if t != s {
        assert Lists(items, t);
        var i :| 0 <= i < |items| && items[i].slot == t;
        assert items[i] in kept;
      }
    }
    forall i | 0 <= i < |kept|
      ensures kept[i].slot in m' && m'[kept[i].slot] == kept[i].info
    {
      assert kept[i] in kept;
    }
  }

  lemma AppendNew(items: seq<Item>, s: Slot, info: Info, reclaimOld: bool, kept: seq<Item>, gone: seq<Item>)
    requires UpdatedUpTo(items, |items|, s, info, reclaimOld, kept, gone) && !Lists(items[..|items|], s)
    ensures DistinctSlots(kept + [Item(s, info)])
    ensures forall x :: x in kept ==> x in items && Stays(x, s, reclaimOld)
  {
    assert items[..|items|] == items;
    forall x | x in kept
      ensures x.slot != s
    {
    }
  }

  lemma AppendedHolds(items: seq<Item>, m: SlotList, s: Slot, info: Info, reclaimOld: bool, kept: seq<Item>, gone: seq<Item>)
    requires Holds(items, m) && UpdatedUpTo(items, |items|, s, info, reclaimOld, kept, gone)
    requires !Lists(items[..|items|], s)
    ensures Holds(kept + [Item(s, info)], Upserted(m, s, info, reclaimOld))
  {
    AppendNew(items, s, info, reclaimOld, kept, gone);
    var all := kept + [Item(s, info)];
    var m' := Upserted(m, s, info, reclaimOld);
    forall t: Slot | t in m'
      ensures Lists(all, t)
    {
      if t == s {
        assert all[|kept|].slot == s;
      } else {
        assert Lists(items, t);
        var i :| 0 <= i < |items| && items[i].slot == t;
        assert items[i] in kept;
        var j :| 0 <= j < |kept| && kept[j] == items[i];
        assert all[j].slot == t;
      }
    }
    forall i | 0 <= i < |all|
      ensures all[i].slot in m' && m'[all[i].slot] == all[i].info
    {
      if i < |kept| {
        assert all[i] == kept[i] && kept[i] in kept;
      }
    }
  }

  /** A reclaimed entry and the slot it is marked with. */
  datatype Reclaim = Reclaim(item: Item, mark: Slot)

  /** An entry of the index for one key. */
  class SlotListEntry {
    var items: seq<Item>
    /** The same entries as a map. */
    ghost var entries: SlotList

    ghost predicate Valid()
      reads this
    {
      Holds(items, entries)
    }

    constructor ()
      ensures Valid() && entries == map[]
    {
      items, entries := [], map[];
    }

    /** `update_slot_list`: the entry of `slot` is replaced or appended. Reclaiming takes out all
        entries that are not newer, and gives back what was replaced. */
    method Upsert(slot: Slot, info: Info, reclaimOld: bool) returns (reclaims: seq<Item>)
      requires Valid()
      modifies this
      ensures Valid() && entries == Upserted(old(entries), slot, info, reclaimOld)
      ensures forall x :: x in reclaims <==> x in old(items) && reclaimOld && x.slot <= slot
    {
      reclaims := [];
      var kept, foundSlot := [], false;
      for n := 0 to |items|
        invariant Valid() && items == old(items) && entries == old(entries)
        invariant UpdatedUpTo(items, n, slot, info, reclaimOld, kept, reclaims)
        invariant foundSlot <==> Lists(items[..n], slot)
      {
        UpdateOne(items, n, slot, info, reclaimOld, kept, reclaims);
        ListsNext(items, n, slot);
        if items[n].slot == slot {
          NotYet(items, n, slot);
          assert !foundSlot;
          kept, foundSlot := kept + [Item(slot, info)], true;
          if reclaimOld {
            reclaims := reclaims + [items[n]];
          }
        } else if reclaimOld && items[n].slot < slot {
          reclaims := reclaims + [items[n]];
        } else {
          kept := kept + [items[n]];
        }
      }
      assert items[..|items|] == items;
      if !foundSlot {
        AppendedHolds(items, entries, slot, info, reclaimOld, kept, reclaims);
        kept := kept + [Item(slot, info)];
      } else {
        UpdatedHolds(items, entries, slot, info, reclaimOld, kept, reclaims);
      }
      items, entries := kept, Upserted(entries, slot, info, reclaimOld);
    }

    /** `purge_older_root_entries`. */
    method PurgeOlderEntries(bound: Slot) returns (reclaims: seq<Reclaim>)
      requires Valid()
      modifies this
      ensures Valid() && entries == PurgeOlder(old(entries), bound)
      ensures forall x :: x in reclaims <==>
                x.mark == NewestUpTo(old(entries), bound) && x.item in old(items) && x.item.slot < x.mark
    {
      var newest := NewestSlotUpTo(items, entries, bound);
      var kept, gone := RetainFrom(items, newest);
      KeptHolds(items, entries, newest, kept, PurgeOlder(entries, bound));
      reclaims := MarkAll(gone, newest);
      assert items[..|items|] == items;
      items, entries := kept, PurgeOlder(entries, bound);
    }

    /** `clean_rooted_entries`: a lone zero-lamport entry goes as well, marked with its own slot.
        The result says whether the key leaves the index. */
    method CleanEntries(bound: Slot) returns (reclaims: seq<Reclaim>, empty: bool)
      requires Valid()
      modifies this
      ensures Valid()
      ensures entries == CleanedEntries(old(entries), bound)
      ensures empty <==> entries == map[]
      ensures forall x :: x in reclaims <==>
                x.item in old(items) && x.item.slot !in entries && x.mark == CleanMark(old(entries), bound, x.item.slot)
    {
      ghost var was := items;
      ghost var before := entries;
      reclaims := PurgeOlderEntries(bound);
      LoneIs(items, entries);
      if |items| == 1 && items[0].info.zero {
        OnlyOne(was, before, bound, items);
        reclaims := reclaims + [Reclaim(items[0], items[0].slot)];
        items, entries := [], map[];
      }
      empty := items == [];
    }
  }

  method MarkAll(items: seq<Item>, mark: Slot) returns (r: seq<Reclaim>)
    ensures forall x :: x in r <==> x.item in items && x.mark == mark
  {
    r := [];
    for n := 0 to |items|
      invariant forall x :: x in r <==> x.item in items[..n] && x.mark == mark
    {
      assert items[..n + 1] == items[..n] + [items[n]];
      r := r + [Reclaim(items[n], mark)];
    }
    assert items[..|items|] == items;
  }

  lemma {:induction false} SizeIs(items: seq<Item>, m: SlotList)
    requires Holds(items, m)
    ensures |items| == |m|
  {
    if items == [] {
      assert forall s: Slot :: s !in m;
      assert m == map[];
    } else {
      var n := |items| - 1;
      var rest := m - {items[n].slot};
      forall s: Slot | s in rest
        ensures Lists(items[..n], s)
      {
        var i :| 0 <= i < |items| && items[i].slot == s;
        assert items[..n][i].slot == s;
      }
      SizeIs(items[..n], rest);
      assert m.Keys == rest.Keys + {items[n].slot};
      assert |m.Keys| == |rest.Keys| + 1;
    }
  }

  lemma LoneIs(items: seq<Item>, m: SlotList)
    requires Holds(items, m)
    ensures LoneZero(m) <==> |items| == 1 && items[0].info.zero
    ensures m == map[] <==> items == []
  {
    SizeIs(items, m);
    if |items| == 1 {
      forall s: Slot | s in m
        ensures s == items[0].slot
      {
        assert Lists(items, s);
      }
    }
  }

  /** If one entry survives the purge, all others were older. */
  lemma OnlyOne(was: seq<Item>, m: SlotList, bound: Slot, left: seq<Item>)
    requires Holds(was, m) && Holds(left, PurgeOlder(m, bound)) && |left| == 1
    ensures left[0] in was && left[0].slot >= NewestUpTo(m, bound)
    ensures forall x :: x in was && x != left[0] ==> x.slot < NewestUpTo(m, bound)
  {
    var s := left[0].slot;
    assert s in m;
    assert Lists(was, s);
    forall x | x in was && x.slot >= NewestUpTo(m, bound)
      ensures x == left[0]
    {
      assert x.slot in PurgeOlder(m, bound);
      assert Lists(left, x.slot);
    }
  }
}
