/** Every step of a clean keeps the invariant. */
module CleanProofs {
  import opened Types
  import opened Storages
  import opened PrimaryIndex
  import opened Store
  import opened Invariant
  import opened FlushProofs

  /** Cleaning `k` takes out its entries older than `n`, or its only remaining entry when that
      is zero-lamport. */
  ghost predicate CleanEffect(ix: Index, ix': Index, k: Pubkey, n: Slot) {
    && NoEmptyLists(ix')
    && (forall k': Pubkey :: k' in ix' ==> k' in ix)
    && (forall k': Pubkey, s: Slot :: Has(ix', k', s) ==> Has(ix, k', s) && At(ix', k', s) == At(ix, k', s))
    && (forall k': Pubkey, s: Slot :: k' != k && Has(ix, k', s) ==> Has(ix', k', s))
    && (k in ix' ==> forall s: Slot :: Has(ix, k, s) && s >= n ==> Has(ix', k, s))
    && (forall s: Slot :: Has(ix', k, s) ==> s >= n)
  }

  /** A key that leaves the index was zero-lamport in its newest slot. */
  ghost predicate LeavesZero(ix: Index, k: Pubkey, n: Slot, z: Slot) {
    && Has(ix, k, z) && At(ix, k, z).zero
    && (forall s: Slot :: Has(ix, k, s) ==> s <= z)
    && (forall s: Slot :: Has(ix, k, s) && s != z ==> s < n)
  }

  ghost predicate CleanPending(ix: Index, ix': Index, p: Reclaims, p': Reclaims, k: Pubkey, n: Slot) {
    && (forall s: Slot, j: Offset :: (s, j) in p' <==>
          (s, j) in p || (Has(ix, k, s) && !Has(ix', k, s) && j == At(ix, k, s).offset))
    && (forall s: Slot, j: Offset :: (s, j) in p' ==>
          if Has(ix, k, s) && !Has(ix', k, s) && j == At(ix, k, s).offset
          then p'[(s, j)] == if s < n then n else s
          else p'[(s, j)] == p[(s, j)])
  }

  ghost function KeptFrom(st: State, k: Pubkey): Slot
    requires CanCleanKey(st, k)
  {
    NewestUpTo(ListOf(st.index, k), st.phase.bound)
  }

  lemma CleanKeyIndex(st: State, k: Pubkey)
    requires CanCleanKey(st, k) && NoEmptyLists(st.index)
    ensures CleanEffect(st.index, CleanOneKey(st, k).index, k, KeptFrom(st, k))
  {
    CleanKeyEffect(st.index, k, st.phase.bound);
  }

  lemma CleanKeyPending(st: State, k: Pubkey)
    requires CanCleanKey(st, k)
    ensures CleanPending(st.index, CleanOneKey(st, k).index, Pending(st), Pending(CleanOneKey(st, k)), k, KeptFrom(st, k))
  {
  }

  lemma CleanedResolved(ix: Index, ix': Index, storages: StorageMap, k: Pubkey, n: Slot)
    requires CleanEffect(ix, ix', k, n)
    requires Resolved(ix, storages, map[])
    ensures Resolved(ix', storages, map[])
    ensures forall k': Pubkey, s: Slot :: Has(ix', k', s) ==>
              ContentIn(ix', storages, map[], k', s) == ContentIn(ix, storages, map[], k', s)
  {
    forall k': Pubkey, s: Slot | Has(ix', k', s)
      ensures s in storages && Points(ix', storages, map[], k', s)
    {
      assert Points(ix, storages, map[], k', s);
    }
  }

  lemma CleanedClaim(ix: Index, ix': Index, storages: StorageMap, phase: Phase, phase': Phase, k: Pubkey, n: Slot, s: Slot, j: Offset)
    requires CleanEffect(ix, ix', k, n)
    requires CleanPending(ix, ix', PendingIn(phase), PendingIn(phase'), k, n)
    requires phase.Cleaning? && phase'.Cleaning?
    requires Resolved(ix, storages, map[])
    requires Rec(storages, s, j) && DistinctKeys(storages[s].records)
    requires ClaimOk(ix, storages, phase, s, j)
    ensures ClaimOk(ix', storages, phase', s, j)
  {
    if Has(ix, k, s) {
      if KeyAt(storages, s, j) == k {
        EntryOffset(ix, storages, k, s, j);
      } else {
        EntryKey(ix, storages, k, s);
      }
    }
  }

  lemma CleanedPartitioned(ix: Index, ix': Index, storages: StorageMap, nextId: StoreId, phase: Phase, phase': Phase, k: Pubkey, n: Slot)
    requires CleanEffect(ix, ix', k, n)
    requires CleanPending(ix, ix', PendingIn(phase), PendingIn(phase'), k, n)
    requires phase.Cleaning? && phase'.Cleaning?
    requires Resolved(ix, storages, map[]) && EachStorageOk(storages, nextId)
    requires Partitioned(ix, storages, phase)
    ensures Partitioned(ix', storages, phase')
  {
    forall s: Slot, j: Offset | Rec(storages, s, j)
      ensures ClaimOk(ix', storages, phase', s, j)
    {
      CleanedClaim(ix, ix', storages, phase, phase', k, n, s, j);
    }
    forall s: Slot, j: Offset | (s, j) in PendingIn(phase')
      ensures Rec(storages, s, j)
    {
      if Has(ix, k, s) {
        EntryKey(ix, storages, k, s);
      }
    }
  }

  lemma CleanedTombstones(ix: Index, ix': Index, storages: StorageMap, k: Pubkey, n: Slot)
    requires CleanEffect(ix, ix', k, n)
    requires TombstonesOk(ix, storages)
    ensures TombstonesOk(ix', storages)
  {
    forall s: Slot, i: Offset, t: Slot |
      Rec(storages, s, i) && i in storages[s].tombstones && Has(ix', KeyAt(storages, s, i), t)
      ensures s < t
    {
      assert Has(ix, KeyAt(storages, s, i), t);
    }
  }

  lemma CleanedReclaims(ix: Index, ix': Index, storages: StorageMap, p: Reclaims, p': Reclaims, k: Pubkey, n: Slot, z: Slot)
    requires CleanEffect(ix, ix', k, n) && CleanPending(ix, ix', p, p', k, n)
    requires k in ix && k !in ix' ==> LeavesZero(ix, k, n, z)
    requires Resolved(ix, storages, map[])
    requires ReclaimsOk(ix, storages, p)
    ensures ReclaimsOk(ix', storages, p')
  {
    forall s: Slot, j: Offset | (s, j) in p' && Rec(storages, s, j)
      ensures s <= p'[(s, j)]
      ensures s == p'[(s, j)] ==>
                IsZero(storages[s].records[j].account) && KeyAt(storages, s, j) !in ix'
    {
      if Has(ix, k, s) && !Has(ix', k, s) && j == At(ix, k, s).offset {
        assert Points(ix, storages, map[], k, s);
      }
    }
  }

  lemma CleanedUncleaned(ix: Index, ix': Index, uncleaned: map<Slot, set<Pubkey>>, maxCleaned: Slot,
                         phase: Phase, phase': Phase, k: Pubkey, n: Slot)
    requires CleanEffect(ix, ix', k, n)
    requires phase.Cleaning? && n == NewestUpTo(ListOf(ix, k), phase.bound)
    requires phase'.Cleaning? && phase' == phase.(keys := phase.keys - {k}, outdated := phase'.outdated)
    requires UncleanedOk(ix, uncleaned, maxCleaned, phase)
    ensures UncleanedOk(ix', uncleaned, maxCleaned, phase')
  {
    forall k': Pubkey, s: Slot, t: Slot | Has(ix', k', s) && Has(ix', k', t) && s < t
      ensures maxCleaned < t && WillClean(uncleaned, phase', t, k')
    {
      assert Has(ix, k', s) && Has(ix, k', t);
    }
  }

  /** A key in the read cache is not removed by clean, and keeps its newest entry. */
  lemma CachedKeyStays(ix: Index, ix': Index, storages: StorageMap, k: Pubkey, n: Slot, z: Slot, c: Cached)
    requires CleanEffect(ix, ix', k, n)
    requires n == 0 || Has(ix, k, n)
    requires k in ix && k !in ix' ==> LeavesZero(ix, k, n, z)
    requires Resolved(ix, storages, map[])
    requires Current(ix, storages, map[], k, c) && !IsZero(c.account)
    ensures Has(ix', k, c.slot)
  {
    assert Has(ix, k, c.slot);
    assert Points(ix, storages, map[], k, c.slot);
  }

  lemma CleanedReadCache(readCache: map<Pubkey, Cached>, ix: Index, ix': Index, storages: StorageMap,
                         phase: Phase, phase': Phase, k: Pubkey, n: Slot, z: Slot)
    requires CleanEffect(ix, ix', k, n)
    requires n == 0 || Has(ix, k, n)
    requires k in ix && k !in ix' ==> LeavesZero(ix, k, n, z)
    requires phase.Cleaning? && Resolved(ix, storages, map[])
    requires forall k': Pubkey, s: Slot :: Has(ix', k', s) ==>
               ContentIn(ix', storages, map[], k', s) == ContentIn(ix, storages, map[], k', s)
    requires ReadCacheOk(readCache, ix, storages, map[], phase)
    ensures ReadCacheOk(readCache, ix', storages, map[], phase')
  {
    forall k' | k' in readCache
      ensures Current(ix', storages, map[], k', readCache[k'])
    {
      var c := readCache[k'];
      assert Current(ix, storages, map[], k', c);
      if k' == k {
        CachedKeyStays(ix, ix', storages, k, n, z, c);
      } else {
        assert Has(ix, k', c.slot);
      }
      assert Has(ix', k', c.slot);
    }
  }

  lemma CleanedFetches(st: State, ix': Index, phase': Phase)
    requires st.phase.Cleaning? && phase'.Cleaning?
    requires FetchesOk(st.fetches, st.index, st.storages, map[], st.roots, st.unflushed, st.phase)
    requires forall k: Pubkey, s: Slot :: Has(ix', k, s) ==> Has(st.index, k, s)
    requires forall k: Pubkey, s: Slot :: Has(ix', k, s) ==>
               ContentIn(ix', st.storages, map[], k, s) == ContentIn(st.index, st.storages, map[], k, s)
    ensures FetchesOk(st.fetches, ix', st.storages, map[], st.roots, st.unflushed, phase')
  {
    forall f | f in st.fetches
      ensures FetchOk(ix', st.storages, map[], st.roots, st.unflushed, phase', f)
    {
      assert FetchOk(st.index, st.storages, map[], st.roots, st.unflushed, st.phase, f);
    }
  }

  lemma ZeroLeaver(st: State, k: Pubkey) returns (z: Slot)
    requires CanCleanKey(st, k) && NoEmptyLists(st.index)
    ensures k in st.index && k !in CleanOneKey(st, k).index ==>
              LeavesZero(st.index, k, KeptFrom(st, k), z)
  {
    if k in st.index && k !in CleanOneKey(st, k).index {
      z := CleanKeyRemoval(st.index, k, st.phase.bound);
    } else {
      z := 0;
    }
  }

  lemma CleanKeyInv(st: State, k: Pubkey)
    requires Inv(st) && CanCleanKey(st, k)
    ensures Inv(CleanOneKey(st, k))
  {
    var st' := CleanOneKey(st, k);
    var n := KeptFrom(st, k);
    var z := ZeroLeaver(st, k);
    CleanKeyIndex(st, k);
    CleanKeyPending(st, k);
    CleanedResolved(st.index, st'.index, st.storages, k, n);
    CleanedPartitioned(st.index, st'.index, st.storages, st.nextId, st.phase, st'.phase, k, n);
    CleanedTombstones(st.index, st'.index, st.storages, k, n);
    CleanedReclaims(st.index, st'.index, st.storages, Pending(st), Pending(st'), k, n, z);
    CleanedUncleaned(st.index, st'.index, st.uncleaned, st.maxCleaned, st.phase, st'.phase, k, n);
    CleanedReadCache(st.readCache, st.index, st'.index, st.storages, st.phase, st'.phase, k, n, z);
    CleanedFetches(st, st'.index, st'.phase);
  }

  lemma BeginCleanUncleaned(st: State, bound: Slot)
    requires st.phase.Idle?
    requires UncleanedOk(st.index, st.uncleaned, st.maxCleaned, st.phase)
    ensures var st' := BeginClean(st, bound);
            UncleanedOk(st'.index, st'.uncleaned, st'.maxCleaned, st'.phase)
  {
    var st' := BeginClean(st, bound);
    forall k: Pubkey, s: Slot, t: Slot | Has(st.index, k, s) && Has(st.index, k, t) && s < t
      ensures st.maxCleaned < t && WillClean(st'.uncleaned, st'.phase, t, k)
    {
      assert Recorded(st.uncleaned, t, k);
    }
  }

  lemma IdlePartitioned(ix: Index, storages: StorageMap, phase: Phase, phase': Phase)
    requires !phase.Flushing? && !phase'.Flushing?
    requires PendingIn(phase) == PendingIn(phase')
    requires Partitioned(ix, storages, phase)
    ensures Partitioned(ix, storages, phase')
  {
    forall s: Slot, i: Offset | Rec(storages, s, i)
      ensures ClaimOk(ix, storages, phase', s, i)
    {
      assert ClaimOk(ix, storages, phase, s, i);
    }
  }

  lemma IdleReaders(st: State, phase': Phase)
    requires !st.phase.Flushing? && !phase'.Flushing?
    requires ReadCacheOk(st.readCache, st.index, st.storages, st.shrinking, st.phase)
    requires FetchesOk(st.fetches, st.index, st.storages, st.shrinking, st.roots, st.unflushed, st.phase)
    ensures ReadCacheOk(st.readCache, st.index, st.storages, st.shrinking, phase')
    ensures FetchesOk(st.fetches, st.index, st.storages, st.shrinking, st.roots, st.unflushed, phase')
  {
    forall f | f in st.fetches
      ensures FetchOk(st.index, st.storages, st.shrinking, st.roots, st.unflushed, phase', f)
    {
      assert FetchOk(st.index, st.storages, st.shrinking, st.roots, st.unflushed, st.phase, f);
    }
  }

  lemma BeginCleanInv(st: State, bound: Slot)
    requires Inv(st) && CanBeginClean(st, bound)
    ensures Inv(BeginClean(st, bound))
  {
    BeginCleanUncleaned(st, bound);
    IdlePartitioned(st.index, st.storages, st.phase, BeginClean(st, bound).phase);
    IdleReaders(st, BeginClean(st, bound).phase);
  }

  lemma EndCleanUncleaned(st: State)
    requires CanEndClean(st) && CleanOk(st)
    requires UncleanedOk(st.index, st.uncleaned, st.maxCleaned, st.phase)
    ensures var st' := EndClean(st);
            UncleanedOk(st'.index, st'.uncleaned, st'.maxCleaned, st'.phase)
  {
    var st' := EndClean(st);
    forall k: Pubkey, s: Slot, t: Slot | Has(st.index, k, s) && Has(st.index, k, t) && s < t
      ensures st'.maxCleaned < t && WillClean(st'.uncleaned, st'.phase, t, k)
    {
      assert WillClean(st.uncleaned, st.phase, t, k);
    }
  }

  lemma EndCleanInv(st: State)
    requires Inv(st) && CanEndClean(st)
    ensures Inv(EndClean(st))
  {
    EndCleanUncleaned(st);
    IdlePartitioned(st.index, st.storages, st.phase, Idle);
    IdleReaders(st, Idle);
  }
}
