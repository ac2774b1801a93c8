/** What storage holds after a flush of several roots. The reader of a flushed root finds its
    account in the cache before and in storage afterwards, and loads the same. */
module FlushedStorage {
  import opened Types
  import opened AncestorSets
  import opened PrimaryIndex
  import opened Store
  import opened Invariant
  import opened Loads
  import opened Work
  import opened FlushOrder

  /** Before the flush the reader of root `b` finds `k` in the cache of `r`. */
  lemma CachedBefore(st0: State, requested: Option<Slot>, k: Pubkey, r: Slot, b: Slot)
    requires IsFlushed(st0, requested, r) && IsFlushed(st0, requested, b) && r <= b
    requires CachedAt(st0, r, k) && !IsZero(st0.cache[r][k])
    requires forall s: Slot :: IsFlushed(st0, requested, s) && CachedAt(st0, s, k) && s <= b ==> s <= r
    ensures Load(st0, [b], k) == Some(st0.cache[r][k])
  {
    var slots := CacheSlots(st0, [b], k);
    assert CacheSees(st0, [b], k, r);
    forall s | s in slots
      ensures s <= r
    {
      assert CacheSees(st0, [b], k, s);
      assert IsFlushed(st0, requested, s) && CachedAt(st0, s, k);
    }
    NewestUnique(slots, r);
  }

  /** After the flush it finds nothing in the cache, and in the index the entry at `r`. */
  lemma IndexedAfter(st0: State, st: State, requested: Option<Slot>, k: Pubkey, r: Slot, b: Slot)
    requires AllFlushed(st0, st, requested) && IsFlushed(st0, requested, b) && r <= b
    requires Has(st.index, k, r) && forall s: Slot :: Has(st.index, k, s) && s <= b ==> s <= r
    ensures NaiveLoad(st, [b], k) == Loadable(Content(st, k, r))
  {
    forall s: Slot
      ensures !CacheSees(st, [b], k, s)
    {
    }
    assert CacheSlots(st, [b], k) == {};
    var slots := IndexSlots(st, [b], k);
    assert r in slots;
    forall s | s in slots
      ensures s <= r
    {
      assert Has(st.index, k, s) && s <= b;
    }
    NewestUnique(slots, r);
    IndexOnly(st, [b], k);
  }

  lemma LoneRoot(roots: set<Slot>, b: Slot, bound: Slot)
    requires b in roots && bound <= b
    ensures Consistent(roots, [b]) && SeesUpTo(roots, [b], bound)
  {
  }

  /** `b` is the root of a reader for which `r` has the newest version of `k`, before the flush
      in the cache and afterwards in the index. */
  ghost predicate ReadsAt(st0: State, ix: Index, requested: Option<Slot>, k: Pubkey, r: Slot, b: Slot) {
    && IsFlushed(st0, requested, b) && r <= b
    && (forall s: Slot :: IsFlushed(st0, requested, s) && CachedAt(st0, s, k) && s <= b ==> s <= r)
    && Has(ix, k, r) && (forall s: Slot :: Has(ix, k, s) && s <= b ==> s <= r)
  }

  lemma StoredFor(bound: Slot, st0: State, st: State, requested: Option<Slot>, k: Pubkey, r: Slot, b: Slot)
    requires Inv(st0) && Worked(bound, st0, st) && AllFlushed(st0, st, requested)
    requires IsFlushed(st0, requested, r) && CachedAt(st0, r, k) && !IsZero(st0.cache[r][k])
    requires ReadsAt(st0, st.index, requested, k, r, b) && bound <= b
    ensures Content(st, k, r) == Some(st0.cache[r][k])
  {
    LoneRoot(st0.roots, b, bound);
    CachedBefore(st0, requested, k, r, b);
    WorkPreservesLoad(bound, st0, st, [b], k);
    LoadIsNaive(st, [b], k);
    IndexedAfter(st0, st, requested, k, r, b);
  }

  /** The account of `k` at root `r` has to be stored. */
  ghost predicate ToKeep(st0: State, requested: Option<Slot>, should: ShouldClean, k: Pubkey, r: Slot) {
    && IsFlushed(st0, requested, r) && CachedAt(st0, r, k) && !IsZero(st0.cache[r][k])
    && (IsCleaned(should, r) ==> NewestCleaned(st0, requested, should, k, r))
  }

  lemma KeptReader(st0: State, ix: Index, requested: Option<Slot>, should: ShouldClean, bound: Slot, k: Pubkey, r: Slot) returns (b: Slot)
    requires IsBound(st0, requested, should, bound) && ToKeep(st0, requested, should, k, r)
    requires KeyFlushed(st0, ix, requested, should, FlushedRoots(st0, requested), k)
    ensures ReadsAt(st0, ix, requested, k, r, b) && bound <= b
  {
    assert r in FlushedRoots(st0, requested);
    if IsCleaned(should, r) {
      b := bound;
      assert LeftAt(st0, ix, requested, should, k, r);
    } else {
      b := r;
      assert AddsEntry(st0, should, k, r);
    }
  }

  /** Every account that a flush has to store is in the storage of its root, as it was cached. */
  lemma AllStored(bound: Slot, st0: State, st: State, requested: Option<Slot>, should: ShouldClean)
    requires Inv(st0) && Worked(bound, st0, st) && AllFlushed(st0, st, requested)
    requires IsBound(st0, requested, should, bound)
    requires AllKeysFlushed(st0, st.index, requested, should, FlushedRoots(st0, requested))
    ensures forall k, r: Slot :: ToKeep(st0, requested, should, k, r) ==> Content(st, k, r) == Some(st0.cache[r][k])
  {
    forall k, r: Slot | ToKeep(st0, requested, should, k, r)
      ensures Content(st, k, r) == Some(st0.cache[r][k])
    {
      var b := KeptReader(st0, st.index, requested, should, bound, k, r);
      StoredFor(bound, st0, st, requested, k, r, b);
    }
  }
}
