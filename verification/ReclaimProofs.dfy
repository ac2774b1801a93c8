/** Recording reclaims and dropping dead storages keeps the invariant. */
module ReclaimProofs {
  import opened Types
  import opened Storages
  import opened PrimaryIndex
  import opened Store
  import opened Invariant

  /** The offsets of `s` that are handled were alive for being reclaimed, and a tombstone's
      key is not in the index. */
  ghost predicate Due(ix: Index, storages: StorageMap, p: Reclaims, s: Slot, offsets: set<Offset>, tombstone: bool) {
    && s in storages
    && offsets <= AliveOffsets(storages[s])
    && (forall o: Offset :: o in offsets ==> (s, o) in p)
    && (tombstone ==> forall o: Offset :: o in offsets && Rec(storages, s, o) ==> KeyAt(storages, s, o) !in ix)
  }

  /** What happens to the storages: that of `s` loses the alive records at `offsets`, and goes
      altogether only if it had no others. */
  ghost predicate StorageEffect(storages: StorageMap, storages': StorageMap, s: Slot, offsets: set<Offset>,
                                tombstone: bool, mark: Slot) {
    && s in storages
    && (forall t :: t != s ==> (t in storages' <==> t in storages))
    && (forall t :: t != s && t in storages ==> storages'[t] == storages[t])
    && (if s in storages' then Reclaimed(storages[s], offsets, tombstone, mark, storages'[s])
        else AliveOffsets(storages[s]) == offsets)
  }

  ghost predicate PendingWithout(p: Reclaims, p': Reclaims, s: Slot, offsets: set<Offset>) {
    && (forall t: Slot, o: Offset :: (t, o) in p' <==> (t, o) in p && !(t == s && o in offsets))
    && (forall t: Slot, o: Offset :: (t, o) in p' ==> p'[(t, o)] == p[(t, o)])
  }

  /** No index entry points at a reclaimed record. */
  lemma NotPointedAt(ix: Index, storages: StorageMap, phase: Phase, s: Slot, offsets: set<Offset>, tombstone: bool, k: Pubkey)
    requires Resolved(ix, storages, map[]) && Partitioned(ix, storages, phase)
    requires Due(ix, storages, PendingIn(phase), s, offsets, tombstone)
    requires Has(ix, k, s)
    ensures At(ix, k, s).offset in AliveOffsets(storages[s]) - offsets
  {
    assert Points(ix, storages, map[], k, s);
    var o := At(ix, k, s).offset;
    assert Rec(storages, s, o);
    assert ClaimOk(ix, storages, phase, s, o);
  }

  lemma HandledPoints(ix: Index, storages: StorageMap, storages': StorageMap, phase: Phase,
                      s: Slot, offsets: set<Offset>, tombstone: bool, mark: Slot, k: Pubkey, t: Slot)
    requires Resolved(ix, storages, map[]) && Partitioned(ix, storages, phase)
    requires Due(ix, storages, PendingIn(phase), s, offsets, tombstone)
    requires StorageEffect(storages, storages', s, offsets, tombstone, mark)
    requires Has(ix, k, t)
    ensures t in storages' && Points(ix, storages', map[], k, t)
    ensures ContentIn(ix, storages', map[], k, t) == ContentIn(ix, storages, map[], k, t)
  {
    assert Points(ix, storages, map[], k, t);
    if t == s {
      NotPointedAt(ix, storages, phase, s, offsets, tombstone, k);
    }
  }

  lemma HandledResolved(ix: Index, storages: StorageMap, storages': StorageMap, phase: Phase,
                        s: Slot, offsets: set<Offset>, tombstone: bool, mark: Slot)
    requires Resolved(ix, storages, map[]) && Partitioned(ix, storages, phase)
    requires Due(ix, storages, PendingIn(phase), s, offsets, tombstone)
    requires StorageEffect(storages, storages', s, offsets, tombstone, mark)
    ensures Resolved(ix, storages', map[])
    ensures forall k: Pubkey, t: Slot :: Has(ix, k, t) ==>
              ContentIn(ix, storages', map[], k, t) == ContentIn(ix, storages, map[], k, t)
  {
    forall k: Pubkey, t: Slot | Has(ix, k, t)
      ensures t in storages' && Points(ix, storages', map[], k, t)
      ensures ContentIn(ix, storages', map[], k, t) == ContentIn(ix, storages, map[], k, t)
    {
      HandledPoints(ix, storages, storages', phase, s, offsets, tombstone, mark, k, t);
    }
  }

  lemma HandledClaim(ix: Index, storages: StorageMap, storages': StorageMap, phase: Phase, phase': Phase,
                     s: Slot, offsets: set<Offset>, tombstone: bool, mark: Slot, i: Offset)
    requires Due(ix, storages, PendingIn(phase), s, offsets, tombstone)
    requires StorageEffect(storages, storages', s, offsets, tombstone, mark)
    requires PendingWithout(PendingIn(phase), PendingIn(phase'), s, offsets)
    requires forall t: Slot, k: Pubkey :: Fresh(phase', t, k) == Fresh(phase, t, k)
    requires Rec(storages', s, i) && ClaimOk(ix, storages, phase, s, i)
    ensures ClaimOk(ix, storages', phase', s, i)
  {
  }

  lemma HandledPartitioned(ix: Index, storages: StorageMap, storages': StorageMap, phase: Phase, phase': Phase,
                           s: Slot, offsets: set<Offset>, tombstone: bool, mark: Slot)
    requires Partitioned(ix, storages, phase)
    requires Due(ix, storages, PendingIn(phase), s, offsets, tombstone)
    requires StorageEffect(storages, storages', s, offsets, tombstone, mark)
    requires PendingWithout(PendingIn(phase), PendingIn(phase'), s, offsets)
    requires forall t: Slot, k: Pubkey :: Fresh(phase', t, k) == Fresh(phase, t, k)
    ensures Partitioned(ix, storages', phase')
  {
    forall t: Slot, i: Offset | Rec(storages', t, i)
      ensures ClaimOk(ix, storages', phase', t, i)
    {
      assert Rec(storages, t, i);
      assert ClaimOk(ix, storages, phase, t, i);
      if t == s {
        HandledClaim(ix, storages, storages', phase, phase', s, offsets, tombstone, mark, i);
      }
    }
    forall t: Slot, i: Offset | (t, i) in PendingIn(phase')
      ensures Rec(storages', t, i)
    {
      assert Rec(storages, t, i);
      assert ClaimOk(ix, storages, phase, t, i);
    }
  }

  lemma HandledTombstones(ix: Index, storages: StorageMap, storages': StorageMap, p: Reclaims,
                          s: Slot, offsets: set<Offset>, tombstone: bool, mark: Slot)
    requires TombstonesOk(ix, storages)
    requires Due(ix, storages, p, s, offsets, tombstone)
    requires StorageEffect(storages, storages', s, offsets, tombstone, mark)
    ensures TombstonesOk(ix, storages')
  {
    forall t: Slot, i: Offset, u: Slot |
      Rec(storages', t, i) && i in storages'[t].tombstones && Has(ix, KeyAt(storages', t, i), u)
      ensures t < u
    {
      assert Rec(storages, t, i) && KeyAt(storages, t, i) == KeyAt(storages', t, i);
    }
  }

  lemma HandledReclaims(ix: Index, storages: StorageMap, storages': StorageMap, p: Reclaims, p': Reclaims,
                        s: Slot, offsets: set<Offset>, tombstone: bool, mark: Slot)
    requires ReclaimsOk(ix, storages, p)
    requires StorageEffect(storages, storages', s, offsets, tombstone, mark)
    requires PendingWithout(p, p', s, offsets)
    ensures ReclaimsOk(ix, storages', p')
  {
    forall t: Slot, i: Offset | (t, i) in p' && Rec(storages', t, i)
      ensures t <= p'[(t, i)]
      ensures t == p'[(t, i)] ==>
                IsZero(storages'[t].records[i].account) && KeyAt(storages', t, i) !in ix
    {
      assert Rec(storages, t, i) && (t, i) in p;
      assert storages[t].records == storages'[t].records;
    }
  }

  lemma HandledBooks(storages: StorageMap, storages': StorageMap, nextId: StoreId,
                     s: Slot, offsets: set<Offset>, tombstone: bool, mark: Slot)
    requires EachStorageOk(storages, nextId)
    requires StorageEffect(storages, storages', s, offsets, tombstone, mark)
    ensures EachStorageOk(storages', nextId)
  {
    forall t | t in storages'
      ensures StorageOk(storages'[t]) && storages'[t].id < nextId
    {
      assert t in storages;
    }
  }

  lemma HandledReadCache(readCache: map<Pubkey, Cached>, ix: Index, storages: StorageMap, storages': StorageMap,
                         phase: Phase, phase': Phase)
    requires ReadCacheOk(readCache, ix, storages, map[], phase)
    requires forall k: Pubkey, t: Slot :: Has(ix, k, t) ==>
               ContentIn(ix, storages', map[], k, t) == ContentIn(ix, storages, map[], k, t)
    requires phase.Flushing? ==> phase.evict == {}
    ensures ReadCacheOk(readCache, ix, storages', map[], phase')
  {
    forall k | k in readCache
      ensures Current(ix, storages', map[], k, readCache[k])
    {
      assert Current(ix, storages, map[], k, readCache[k]);
      assert Has(ix, k, readCache[k].slot);
    }
  }

  lemma HandledFetches(st: State, storages': StorageMap, phase': Phase)
    requires FetchesOk(st.fetches, st.index, st.storages, map[], st.roots, st.unflushed, st.phase)
    requires forall k: Pubkey, t: Slot :: Has(st.index, k, t) ==>
               ContentIn(st.index, storages', map[], k, t) == ContentIn(st.index, st.storages, map[], k, t)
    requires forall k: Pubkey, t: Slot ::
               Settled(st.roots, st.unflushed, st.phase, k, t) ==> Settled(st.roots, st.unflushed, phase', k, t)
    ensures FetchesOk(st.fetches, st.index, storages', map[], st.roots, st.unflushed, phase')
  {
    forall f | f in st.fetches
      ensures FetchOk(st.index, storages', map[], st.roots, st.unflushed, phase', f)
    {
      assert FetchOk(st.index, st.storages, map[], st.roots, st.unflushed, st.phase, f);
    }
  }

  /** The background step has come further only in the reclaims it has handled. */
  ghost predicate SamePhaseButPending(phase: Phase, phase': Phase) {
    && (phase.Flushing? ==> phase.todo == {} && phase.evict == {} && phase'.Flushing?
                            && phase' == phase.(reclaims := phase'.reclaims))
    && (phase.Cleaning? ==> phase'.Cleaning? && phase' == phase.(outdated := phase'.outdated))
    && (phase.Idle? || phase.Shrinking? ==> phase' == phase)
  }

  lemma HandledFlushSets(st: State, st': State, s: Slot, offsets: set<Offset>, tombstone: bool, mark: Slot)
    requires st.phase.Flushing? && SamePhaseButPending(st.phase, st'.phase)
    requires st' == st.(storages := st'.storages, candidates := st'.candidates, phase := st'.phase)
    requires StorageEffect(st.storages, st'.storages, s, offsets, tombstone, mark)
    requires PendingWithout(Pending(st), Pending(st'), s, offsets)
    requires FlushSetsOk(st)
    ensures FlushSetsOk(st')
  {
    if !st.phase.clean && Pending(st') != map[] {
      var q :| q in Pending(st');
      assert (q.0, q.1) in Pending(st);
    }
  }

  lemma HandledFlushKeys(st: State, st': State)
    requires st.phase.Flushing? && SamePhaseButPending(st.phase, st'.phase)
    requires st' == st.(storages := st'.storages, candidates := st'.candidates, phase := st'.phase)
    requires st.phase.root in st.cache && FlushKeysOk(st)
    ensures FlushKeysOk(st')
  {
    var c := st.cache[st.phase.root];
    forall k | k in c && k in st.phase.stored
      ensures FlushedKeyOk(st'.index, st'.phase, k, c[k])
    {
      assert FlushedKeyOk(st.index, st.phase, k, c[k]);
    }
    forall k | k in c && k !in st.phase.stored
      ensures SkippedKeyOk(st', k)
    {
      assert SkippedKeyOk(st, k);
      if Superseded(st, st.phase.root, st.phase.bound, k) {
        assert Superseded(st', st.phase.root, st.phase.bound, k);
      }
    }
  }

  /** Everything that speaks about index and storages. */
  lemma HandledStorages(st: State, st': State, s: Slot, offsets: set<Offset>, tombstone: bool, mark: Slot)
    requires st.shrinking == map[]
    requires Resolved(st.index, st.storages, st.shrinking)
    requires Partitioned(st.index, st.storages, st.phase)
    requires TombstonesOk(st.index, st.storages)
    requires ReclaimsOk(st.index, st.storages, Pending(st))
    requires SamePhaseButPending(st.phase, st'.phase)
    requires st' == st.(storages := st'.storages, candidates := st'.candidates, phase := st'.phase)
    requires Due(st.index, st.storages, Pending(st), s, offsets, tombstone)
    requires StorageEffect(st.storages, st'.storages, s, offsets, tombstone, mark)
    requires PendingWithout(Pending(st), Pending(st'), s, offsets)
    ensures Resolved(st'.index, st'.storages, st'.shrinking)
    ensures Partitioned(st'.index, st'.storages, st'.phase)
    ensures TombstonesOk(st'.index, st'.storages)
    ensures ReclaimsOk(st'.index, st'.storages, Pending(st'))
  {
    HandledResolved(st.index, st.storages, st'.storages, st.phase, s, offsets, tombstone, mark);
    HandledPartitioned(st.index, st.storages, st'.storages, st.phase, st'.phase, s, offsets, tombstone, mark);
    HandledTombstones(st.index, st.storages, st'.storages, Pending(st), s, offsets, tombstone, mark);
    HandledReclaims(st.index, st.storages, st'.storages, Pending(st), Pending(st'), s, offsets, tombstone, mark);
  }

  lemma HandledReaders(st: State, st': State, s: Slot, offsets: set<Offset>, tombstone: bool, mark: Slot)
    requires st.shrinking == map[]
    requires Resolved(st.index, st.storages, st.shrinking)
    requires Partitioned(st.index, st.storages, st.phase)
    requires UncleanedOk(st.index, st.uncleaned, st.maxCleaned, st.phase)
    requires ReadCacheOk(st.readCache, st.index, st.storages, st.shrinking, st.phase)
    requires FetchesOk(st.fetches, st.index, st.storages, st.shrinking, st.roots, st.unflushed, st.phase)
    requires SamePhaseButPending(st.phase, st'.phase)
    requires st' == st.(storages := st'.storages, candidates := st'.candidates, phase := st'.phase)
    requires Due(st.index, st.storages, Pending(st), s, offsets, tombstone)
    requires StorageEffect(st.storages, st'.storages, s, offsets, tombstone, mark)
    ensures UncleanedOk(st'.index, st'.uncleaned, st'.maxCleaned, st'.phase)
    ensures ReadCacheOk(st'.readCache, st'.index, st'.storages, st'.shrinking, st'.phase)
    ensures FetchesOk(st'.fetches, st'.index, st'.storages, st'.shrinking, st'.roots, st'.unflushed, st'.phase)
  {
    HandledResolved(st.index, st.storages, st'.storages, st.phase, s, offsets, tombstone, mark);
    HandledReadCache(st.readCache, st.index, st.storages, st'.storages, st.phase, st'.phase);
    HandledFetches(st, st'.storages, st'.phase);
  }

  lemma HandledInv(st: State, st': State, s: Slot, offsets: set<Offset>, tombstone: bool, mark: Slot)
    requires Inv(st) && st.shrinking == map[]
    requires SamePhaseButPending(st.phase, st'.phase)
    requires st' == st.(storages := st'.storages, candidates := st'.candidates, phase := st'.phase)
    requires Due(st.index, st.storages, Pending(st), s, offsets, tombstone)
    requires StorageEffect(st.storages, st'.storages, s, offsets, tombstone, mark)
    requires PendingWithout(Pending(st), Pending(st'), s, offsets)
    ensures Inv(st')
  {
    HandledStorages(st, st', s, offsets, tombstone, mark);
    HandledReaders(st, st', s, offsets, tombstone, mark);
    HandledBooks(st.storages, st'.storages, st.nextId, s, offsets, tombstone, mark);
    if st.phase.Flushing? {
      HandledFlushSets(st, st', s, offsets, tombstone, mark);
      HandledFlushKeys(st, st');
    }
  }

  /** Reclaims that are due can be recorded: they are alive, and the right kind of tombstone. */
  lemma HandleDue(st: State, s: Slot, offsets: set<Offset>, mark: Slot)
    requires Inv(st) && CanHandle(st, s, offsets, mark)
    ensures s in st.storages && st.shrinking == map[]
    ensures Due(st.index, st.storages, Pending(st), s, offsets, mark == s)
    ensures CanMark(st.storages[s], s, offsets, mark)
  {
    forall o: Offset | o in offsets
      ensures Rec(st.storages, s, o) && o in AliveOffsets(st.storages[s])
    {
      assert (s, o) in Pending(st);
      assert ClaimOk(st.index, st.storages, st.phase, s, o);
    }
  }

  ghost predicate CanMark(t: Storage, slot: Slot, offsets: set<Offset>, mark: Slot) {
    && StorageOk(t)
    && offsets <= AliveOffsets(t) && offsets != {}
    && (mark == slot ==> forall i: Offset :: i in offsets ==> i < |t.records| && IsZero(t.records[i].account))
  }

  lemma GroupEffect(storages: StorageMap, s: Slot, offsets: set<Offset>, mark: Slot, canPurge: bool, r: Option<Storage>)
    requires s in storages && CanMark(storages[s], s, offsets, mark)
    requires r == HandleGroup(storages[s], s, offsets, mark, canPurge)
    ensures StorageEffect(storages, PutBack(storages, s, r), s, offsets, mark == s, mark)
  {
    if r.Some? {
      SomeEffect(storages, s, offsets, mark, canPurge, r.value);
    } else {
      NoneEffect(storages, s, offsets, mark, canPurge);
    }
  }

  lemma SomeEffect(storages: StorageMap, s: Slot, offsets: set<Offset>, mark: Slot, canPurge: bool, t: Storage)
    requires s in storages && CanMark(storages[s], s, offsets, mark)
    requires Some(t) == HandleGroup(storages[s], s, offsets, mark, canPurge)
    ensures StorageEffect(storages, storages[s := t], s, offsets, mark == s, mark)
  {
    HandleGroupOk(storages[s], s, offsets, mark, canPurge);
  }

  lemma NoneEffect(storages: StorageMap, s: Slot, offsets: set<Offset>, mark: Slot, canPurge: bool)
    requires s in storages && CanMark(storages[s], s, offsets, mark)
    requires HandleGroup(storages[s], s, offsets, mark, canPurge) == None
    ensures StorageEffect(storages, storages - {s}, s, offsets, mark == s, mark)
  {
    HandleGroupOk(storages[s], s, offsets, mark, canPurge);
  }

  lemma HandleStorages(st: State, s: Slot, offsets: set<Offset>, mark: Slot)
    requires CanHandle(st, s, offsets, mark)
    requires s in st.storages && CanMark(st.storages[s], s, offsets, mark)
    ensures StorageEffect(st.storages, Handle(st, s, offsets, mark).storages, s, offsets, mark == s, mark)
  {
    GroupEffect(st.storages, s, offsets, mark, CanPurge(st, s),
                HandleGroup(st.storages[s], s, offsets, mark, CanPurge(st, s)));
  }

  lemma HandlePending(st: State, s: Slot, offsets: set<Offset>, mark: Slot)
    requires CanHandle(st, s, offsets, mark) && s in st.storages
    ensures var st' := Handle(st, s, offsets, mark);
            && PendingWithout(Pending(st), Pending(st'), s, offsets)
            && SamePhaseButPending(st.phase, st'.phase)
            && st' == st.(storages := st'.storages, candidates := st'.candidates, phase := st'.phase)
  {
  }

  lemma HandleInv(st: State, s: Slot, offsets: set<Offset>, mark: Slot)
    requires Inv(st) && CanHandle(st, s, offsets, mark)
    ensures Inv(Handle(st, s, offsets, mark))
  {
    HandleDue(st, s, offsets, mark);
    HandleStorages(st, s, offsets, mark);
    HandlePending(st, s, offsets, mark);
    HandledInv(st, Handle(st, s, offsets, mark), s, offsets, mark == s, mark);
  }

  lemma SweepInv(st: State, s: Slot)
    requires Inv(st) && CanSweep(st, s)
    ensures AliveOffsets(st.storages[s]) == {}
    ensures Inv(Sweep(st, s))
  {
    AliveSize(st.storages[s]);
    assert AliveOffsets(st.storages[s]) == {};
    HandledInv(st, Sweep(st, s), s, {}, false, 0);
  }
}
