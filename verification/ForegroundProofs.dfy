/** Replay, readers and scans keep the invariant at every point of a background step. */
module ForegroundProofs {
  import opened Types
  import opened Storages
  import opened PrimaryIndex
  import opened Store
  import opened Invariant

  /** `PhaseOk` survives when the index, the storages and the cache of every root stay. */
  ghost predicate SameForPhase(st: State, st': State) {
    && st'.index == st.index && st'.storages == st.storages && st'.shrinking == st.shrinking
    && st'.uncleaned == st.uncleaned && st'.phase == st.phase
    && st.roots <= st'.roots
    && st.unflushed <= st'.unflushed
    && (forall r :: r in st'.unflushed && r !in st.unflushed ==> forall t :: t in st.roots ==> t < r)
    && (forall s :: s in st'.scans ==> s in st.scans || forall t :: t in st.roots ==> t <= s)
    && (forall s :: s in st.roots ==>
          (s in st.cache <==> s in st'.cache) && (s in st.cache ==> st'.cache[s] == st.cache[s]))
  }

  lemma SupersededStays(st: State, st': State, r: Slot, bound: Slot, k: Pubkey)
    requires SameForPhase(st, st')
    requires st.unflushed <= st.roots
    requires Superseded(st, r, bound, k)
    ensures Superseded(st', r, bound, k)
  {
    var r' :| r' in st.unflushed && r < r' <= bound && r' in st.cache && k in st.cache[r'];
    assert r' in st'.unflushed && r' in st'.cache && k in st'.cache[r'];
  }

  lemma FlushSetsStay(st: State, st': State)
    requires SameForPhase(st, st')
    requires SlotsOk(st.roots, st.unflushed, st.cache.Keys, st.storages.Keys, st.phase)
    requires st.phase.Flushing? && FlushSetsOk(st)
    ensures FlushSetsOk(st')
  {
  }

  lemma FlushKeysStay(st: State, st': State)
    requires SameForPhase(st, st')
    requires st.unflushed <= st.roots
    requires st.phase.Flushing? && st.phase.root in st.unflushed
    requires st.phase.root in st.cache && FlushKeysOk(st)
    ensures st'.phase.root in st'.cache && FlushKeysOk(st')
  {
    forall k | k in st.cache[st.phase.root] && k !in st.phase.stored
      ensures SkippedKeyOk(st', k)
    {
      assert SkippedKeyOk(st, k);
      if st.phase.clean && Superseded(st, st.phase.root, st.phase.bound, k) {
        SupersededStays(st, st', st.phase.root, st.phase.bound, k);
      }
    }
  }

  lemma CleanStays(st: State, st': State)
    requires SameForPhase(st, st')
    requires st.phase.Cleaning? && CleanOk(st)
    ensures CleanOk(st')
  {
    var r :| r in st.roots && st.phase.bound <= r;
    assert r in st'.roots;
  }

  lemma PhaseStays(st: State, st': State)
    requires SameForPhase(st, st')
    requires SlotsOk(st.roots, st.unflushed, st.cache.Keys, st.storages.Keys, st.phase)
    requires PhaseOk(st)
    ensures PhaseOk(st')
  {
    match st.phase
    case Idle =>
    case Flushing(_, _, _, _, _, _, _) =>
      FlushSetsStay(st, st');
      FlushKeysStay(st, st');
    case Cleaning(_, _, _) =>
      CleanStays(st, st');
    case Shrinking(_, _, _, _) =>
  }

  lemma StoreCachedInv(st: State, s: Slot, k: Pubkey, a: Account)
    requires Inv(st) && CanStore(st, s, a)
    ensures Inv(StoreCached(st, s, k, a))
  {
    PhaseStays(st, StoreCached(st, s, k, a));
  }

  lemma PurgeSlotInv(st: State, s: Slot)
    requires Inv(st) && CanPurgeSlot(st, s)
    ensures Inv(PurgeSlot(st, s))
  {
    PhaseStays(st, PurgeSlot(st, s));
  }

  lemma BoundStays(roots: set<Slot>, unflushed: set<Slot>, bound: Slot, r: Slot)
    requires CleanBoundOk(roots, unflushed, bound)
    requires forall t :: t in roots ==> t < r
    ensures CleanBoundOk(roots + {r}, unflushed + {r}, bound)
  {
    var t :| t in roots && bound <= t;
    assert t in roots + {r};
  }

  lemma AddRootSlots(st: State, r: Slot)
    requires SlotsOk(st.roots, st.unflushed, st.cache.Keys, st.storages.Keys, st.phase)
    requires CanAddRoot(st, r)
    ensures var st' := AddRoot(st, r);
            SlotsOk(st'.roots, st'.unflushed, st'.cache.Keys, st'.storages.Keys, st'.phase)
  {
  }

  lemma AddRootInv(st: State, r: Slot)
    requires Inv(st) && CanAddRoot(st, r)
    ensures Inv(AddRoot(st, r))
  {
    var st' := AddRoot(st, r);
    if st.maxCleaned != 0 {
      BoundStays(st.roots, st.unflushed, st.maxCleaned, r);
    }
    AddRootSlots(st, r);
    assert FetchesOk(st'.fetches, st'.index, st'.storages, st'.shrinking, st'.roots, st'.unflushed, st'.phase);
    if st.phase.Cleaning? {
      BoundStays(st.roots, st.unflushed, st.phase.bound, r);
    } else {
      PhaseStays(st, st');
    }
  }

  /** What the index lists has settled: its slot is stored, or just got its entry. */
  lemma HasSettled(st: State, k: Pubkey, s: Slot)
    requires Inv(st) && Has(st.index, k, s)
    ensures Settled(st.roots, st.unflushed, st.phase, k, s)
  {
    assert s in st.storages;
    if s in st.unflushed {
      assert IsFlushing(st.phase, s);
    }
  }

  lemma FetchInv(st: State, k: Pubkey, s: Slot)
    requires Inv(st) && CanFetch(st, k, s)
    ensures Inv(FetchAccount(st, k, s))
  {
    var st' := FetchAccount(st, k, s);
    HasSettled(st, k, s);
    assert FetchesOk(st'.fetches, st'.index, st'.storages, st'.shrinking, st'.roots, st'.unflushed, st'.phase);
    PhaseStays(st, st');
  }

  lemma PopulateInv(st: State, f: Fetch)
    requires Inv(st) && CanPopulate(st, f)
    ensures Inv(Populate(st, f))
  {
    var st' := Populate(st, f);
    assert FetchOk(st.index, st.storages, st.shrinking, st.roots, st.unflushed, st.phase, f);
    assert Current(st.index, st.storages, st.shrinking, f.pubkey, Cached(f.slot, f.account));
    assert ReadCacheOk(st'.readCache, st'.index, st'.storages, st'.shrinking, st'.phase);
    PhaseStays(st, st');
  }

  lemma DropFetchInv(st: State, f: Fetch)
    requires Inv(st)
    ensures Inv(DropFetch(st, f))
  {
    PhaseStays(st, DropFetch(st, f));
  }

  lemma EvictInv(st: State, k: Pubkey)
    requires Inv(st)
    ensures Inv(Evict(st, k))
  {
    PhaseStays(st, Evict(st, k));
  }

  lemma BeginScanInv(st: State)
    requires Inv(st) && CanBeginScan(st)
    ensures Inv(BeginScan(st))
  {
    PhaseStays(st, BeginScan(st));
  }

  lemma EndScanInv(st: State, root: Slot)
    requires Inv(st)
    ensures Inv(EndScan(st, root))
  {
    PhaseStays(st, EndScan(st, root));
  }

  lemma SetSnapshotInv(st: State, s: Slot)
    requires Inv(st)
    ensures Inv(SetSnapshot(st, s))
  {
    PhaseStays(st, SetSnapshot(st, s));
  }

  lemma QueueInv(st: State, s: Slot)
    requires Inv(st)
    ensures Inv(Queue(st, s))
  {
    PhaseStays(st, Queue(st, s));
  }
}
