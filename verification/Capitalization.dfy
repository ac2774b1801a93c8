/** Capitalization computed by walking the index, then correcting for what is only cached. */
module Capitalization {
  import opened Types
  import opened AncestorSets
  import opened Store
  import opened Invariant
  import opened Loads
  import opened Sums
  import opened Duplicates

  /** `cached_pubkeys`. */
  function CachedKeys(st: State): set<Pubkey> {
    set s, k | s in st.cache && k in st.cache[s] :: k
  }

  /** What the index walk counts for a key. */
  ghost function StoredLamports(st: State, a: Ancestors, k: Pubkey): int {
    Lamports(Loadable(LoadFromIndex(st, a, k)))
  }

  ghost function LoadedLamports(st: State, a: Ancestors, k: Pubkey): int {
    Lamports(Load(st, a, k))
  }

  /** `calculate_capitalization_at_startup_from_index`. */
  ghost function CapitalizationFromIndex(st: State, a: Ancestors): int {
    Sum(st.index.Keys, k => StoredLamports(st, a, k))
    + Sum(CachedKeys(st), k => LoadedLamports(st, a, k) - StoredLamports(st, a, k))
  }

  lemma NotCached(st: State, a: Ancestors, k: Pubkey)
    requires Inv(st) && Sheltered(st, a) && Consistent(st.roots, a)
    requires k !in CachedKeys(st)
    ensures LoadedLamports(st, a, k) == StoredLamports(st, a, k)
  {
    forall s
      ensures s !in CacheSlots(st, a, k)
    {
      assert s in st.cache && k in st.cache[s] ==> k in CachedKeys(st);
    }
    assert CacheSlots(st, a, k) == {};
    LoadIsNaive(st, a, k);
    IndexOnly(st, a, k);
  }

  lemma NotIndexed(st: State, a: Ancestors, k: Pubkey)
    requires k !in st.index
    ensures StoredLamports(st, a, k) == 0
  {
    assert IndexSlots(st, a, k) == {};
  }

  /** The walk with its corrections is the sum of what `load` gives for every key. */
  lemma CapitalizationExact(st: State, a: Ancestors)
    requires Inv(st) && Sheltered(st, a) && Consistent(st.roots, a)
    ensures CapitalizationFromIndex(st, a) == Sum(st.index.Keys + CachedKeys(st), k => LoadedLamports(st, a, k))
    ensures CapitalizationFromIndex(st, a) >= 0
  {
    var indexed, cached := st.index.Keys, CachedKeys(st);
    var stored := k => StoredLamports(st, a, k);
    var change := k => LoadedLamports(st, a, k) - StoredLamports(st, a, k);
    var loaded := k => LoadedLamports(st, a, k);
    forall k | k !in indexed
      ensures stored(k) == 0
    {
      NotIndexed(st, a, k);
    }
    forall k | k !in cached
      ensures change(k) == 0
    {
      NotCached(st, a, k);
    }
    SumSupport(indexed, indexed + cached, stored);
    SumSupport(cached, indexed + cached, change);
    SumAdd(indexed + cached, stored, change, loaded);
    SumNonNegative(indexed + cached, loaded);
  }
}
