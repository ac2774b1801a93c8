/** A load looks into the write cache, then the read cache, then index and storage, and stops
    at the first hit. In every state of every run, also in the middle of a background step,
    that gives the newest version the reader can see in cache and storage together. */
module Loads {
  import opened Types
  import opened AncestorSets
  import opened Storages
  import opened PrimaryIndex
  import opened Store
  import opened Invariant

  /** The reader sees every root that the running background step cleans up to. */
  ghost predicate Sheltered(st: State, a: Ancestors) {
    && (st.phase.Flushing? && st.phase.clean ==> SeesUpTo(st.roots, a, st.phase.bound))
    && (st.phase.Cleaning? ==> SeesUpTo(st.roots, a, st.phase.bound))
  }

  /** What a visible version in the write cache says about its slot. */
  lemma CachedSlotNewer(st: State, a: Ancestors, k: Pubkey, c: Slot, s: Slot)
    requires SlotsOk(st.roots, st.unflushed, st.cache.Keys, st.storages.Keys, st.phase)
    requires Consistent(st.roots, a)
    requires CacheSees(st, a, k, c) && s in st.storages
    ensures s <= c
  {
    if c !in st.unflushed {
      assert c !in st.roots;
    }
  }

  /** Whatever the cache has is newer than what storage has. */
  lemma CacheFirst(st: State, a: Ancestors, k: Pubkey)
    requires SlotsOk(st.roots, st.unflushed, st.cache.Keys, st.storages.Keys, st.phase)
    requires Resolved(st.index, st.storages, st.shrinking)
    requires Consistent(st.roots, a)
    requires CacheSlots(st, a, k) != {}
    ensures NaiveLoad(st, a, k) == Loadable(LoadFromCache(st, a, k))
  {
    var c := Newest(CacheSlots(st, a, k));
    forall s | s in CacheSlots(st, a, k) + IndexSlots(st, a, k)
      ensures s <= c
    {
      if s in IndexSlots(st, a, k) {
        assert Has(st.index, k, s);
        CachedSlotNewer(st, a, k, c, s);
      }
    }
    NewestUnique(CacheSlots(st, a, k) + IndexSlots(st, a, k), c);
  }

  lemma IndexOnly(st: State, a: Ancestors, k: Pubkey)
    requires CacheSlots(st, a, k) == {}
    ensures NaiveLoad(st, a, k) == Loadable(LoadFromIndex(st, a, k))
  {
    assert CacheSlots(st, a, k) + IndexSlots(st, a, k) == IndexSlots(st, a, k);
  }

  /** An account cached for the newest slot that the reader sees is what the index gives. */
  lemma HitIs(st: State, a: Ancestors, k: Pubkey, c: Cached)
    requires Has(st.index, k, c.slot) && Sees(a, c.slot)
    requires Content(st, k, c.slot) == Some(c.account)
    requires forall t: Slot :: Has(st.index, k, t) && Sees(a, t) ==> t <= c.slot
    ensures LoadFromIndex(st, a, k) == Some(c.account)
  {
    assert c.slot in IndexSlots(st, a, k);
    forall s | s in IndexSlots(st, a, k)
      ensures s <= c.slot
    {
      assert Has(st.index, k, s);
    }
    NewestUnique(IndexSlots(st, a, k), c.slot);
  }

  /** A reader that finds nothing in the write cache does not see the slot being flushed. */
  lemma MissesFlushed(st: State, a: Ancestors, k: Pubkey)
    requires st.phase.Flushing? && FlushSetsOk(st)
    requires k in st.phase.stored
    requires CacheSlots(st, a, k) == {}
    ensures !Sees(a, st.phase.root)
  {
    assert st.phase.root !in CacheSlots(st, a, k);
  }

  /** A read cache hit after a write cache miss is the newest version the reader sees. */
  lemma ReadCacheCoherent(st: State, a: Ancestors, k: Pubkey)
    requires Inv(st) && Sheltered(st, a)
    requires CacheSlots(st, a, k) == {} && ReadCacheHit(st, a, k)
    ensures LoadFromIndex(st, a, k) == Some(st.readCache[k].account)
  {
    var c := st.readCache[k];
    if Current(st.index, st.storages, st.shrinking, k, c) {
      HitIs(st, a, k, c);
    } else {
      assert Outgoing(st.index, st.storages, st.shrinking, st.phase, k, c);
      MissesFlushed(st, a, k);
      assert !st.phase.clean;
      HitIs(st, a, k, c);
    }
  }

  /** The layered load refines the naive one. */
  lemma LoadIsNaive(st: State, a: Ancestors, k: Pubkey)
    requires Inv(st) && Sheltered(st, a)
    requires Consistent(st.roots, a)
    ensures Load(st, a, k) == NaiveLoad(st, a, k)
  {
    if CacheSlots(st, a, k) != {} {
      CacheFirst(st, a, k);
    } else {
      IndexOnly(st, a, k);
      if ReadCacheHit(st, a, k) {
        ReadCacheCoherent(st, a, k);
      }
    }
  }
}
