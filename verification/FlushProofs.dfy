/** Every step of a flush keeps the invariant. */
module FlushProofs {
  import opened Types
  import opened Storages
  import opened PrimaryIndex
  import opened Store
  import opened Invariant

  // ---------------------------------------------------------------------------------------
  // One account enters the index
  // ---------------------------------------------------------------------------------------

  /** What is known about the account of record `i` before it enters the index at `r`. */
  ghost predicate Entering(st: State, r: Slot, i: Offset, k: Pubkey) {
    && IsFlushing(st.phase, r)
    && Rec(st.storages, r, i) && k == KeyAt(st.storages, r, i)
    && k in st.phase.todo && k in st.phase.stored
    && r in st.cache && k in st.cache[r]
    && st.storages[r].records[i].account == st.cache[r][k]
    && st.shrinking == map[]
    && i in AliveOffsets(st.storages[r])
    && DistinctKeys(st.storages[r].records)
    && (r, i) !in Pending(st)
    && (forall s: Slot :: Has(st.index, k, s) ==> s < r)
  }

  lemma FlushKeyClaim(st: State, r: Slot, i: Offset, k: Pubkey)
    requires Partitioned(st.index, st.storages, st.phase)
    requires IsFlushing(st.phase, r) && Rec(st.storages, r, i) && k == KeyAt(st.storages, r, i)
    requires k in st.phase.todo
    ensures i in AliveOffsets(st.storages[r]) && (r, i) !in Pending(st) && !Has(st.index, k, r)
  {
    assert ClaimOk(st.index, st.storages, st.phase, r, i);
  }

  lemma FlushKeyOlder(st: State, r: Slot, k: Pubkey)
    requires SlotsOk(st.roots, st.unflushed, st.cache.Keys, st.storages.Keys, st.phase)
    requires Resolved(st.index, st.storages, st.shrinking)
    requires r in st.unflushed && !Has(st.index, k, r)
    ensures forall s: Slot :: Has(st.index, k, s) ==> s < r
  {
  }

  lemma FlushKeyEntering(st: State, i: Offset) returns (r: Slot, k: Pubkey)
    requires Inv(st) && CanFlushKey(st, i)
    ensures Entering(st, r, i, k)
  {
    r := st.phase.root;
    assert Rec(st.storages, r, i);
    k := KeyAt(st.storages, r, i);
    FlushKeyClaim(st, r, i, k);
    FlushKeyOlder(st, r, k);
  }

  /** What the step does to the index: only `k` changes; it gets its entry at `r`, or leaves
      the index when a clean flush finds it zero-lamport. */
  ghost predicate IndexEffect(ix: Index, ix': Index, k: Pubkey, r: Slot, info: Info, clean: bool) {
    && NoEmptyLists(ix')
    && (forall k': Pubkey :: k' != k ==> (k' in ix' <==> k' in ix))
    && (forall k': Pubkey, s: Slot :: Has(ix', k', s) && !(k' == k && s == r) ==>
          Has(ix, k', s) && At(ix', k', s) == At(ix, k', s))
    && (forall k': Pubkey, s: Slot :: Has(ix, k', s) && (k' != k || !clean) ==> Has(ix', k', s))
    && (if clean && info.zero then k !in ix' else Has(ix', k, r) && At(ix', k, r) == info)
    && (clean ==> forall s: Slot :: Has(ix', k, s) ==> s == r)
  }

  /** Cleaning takes out the older entries of `k`, and a zero-lamport account itself. */
  ghost predicate PendingEffect(ix: Index, p: Reclaims, p': Reclaims, k: Pubkey, r: Slot, info: Info, clean: bool) {
    && (forall s: Slot, j: Offset :: (s, j) in p' <==>
          || (s, j) in p
          || (clean && Has(ix, k, s) && j == At(ix, k, s).offset)
          || (clean && info.zero && s == r && j == info.offset))
    && (forall s: Slot, j: Offset :: (s, j) in p' ==> p'[(s, j)] == r)
  }

  function InfoFor(st: State, r: Slot, i: Offset): Info
    requires Rec(st.storages, r, i)
  {
    Info(st.storages[r].id, i, IsZero(st.storages[r].records[i].account))
  }

  lemma FlushKeyIndex(st: State, r: Slot, i: Offset, k: Pubkey)
    requires CanFlushKey(st, i) && Entering(st, r, i, k)
    requires NoEmptyLists(st.index)
    ensures IndexEffect(st.index, FlushKey(st, i).index, k, r, InfoFor(st, r, i), st.phase.clean)
  {
  }

  /** What the step takes out of the index. */
  ghost function FlushOut(ix: Index, k: Pubkey, r: Slot, info: Info, clean: bool): Reclaims {
    if !clean then map[]
    else if info.zero then TakenOut(ix, Delete(ix, k), k, (_: Slot) => r)[(r, info.offset) := r]
    else TakenOut(ix, UpsertReclaimOld(ix, k, r, info), k, (_: Slot) => r)
  }

  lemma FlushOutIs(ix: Index, p: Reclaims, k: Pubkey, r: Slot, info: Info, clean: bool)
    requires forall s: Slot, j: Offset :: (s, j) in p ==> p[(s, j)] == r
    requires forall s: Slot :: Has(ix, k, s) ==> s < r
    ensures PendingEffect(ix, p, p + FlushOut(ix, k, r, info, clean), k, r, info, clean)
  {
  }

  lemma FlushKeyPending(st: State, r: Slot, i: Offset, k: Pubkey)
    requires CanFlushKey(st, i) && Entering(st, r, i, k)
    requires forall s: Slot, j: Offset :: (s, j) in st.phase.reclaims ==> st.phase.reclaims[(s, j)] == r
    ensures PendingEffect(st.index, Pending(st), Pending(FlushKey(st, i)), k, r, InfoFor(st, r, i), st.phase.clean)
  {
    var info := InfoFor(st, r, i);
    FlushOutIs(st.index, Pending(st), k, r, info, st.phase.clean);
    assert Pending(st) + map[] == Pending(st);
    assert Pending(FlushKey(st, i)) == Pending(st) + FlushOut(st.index, k, r, info, st.phase.clean);
  }

  /** The rest of the state is unchanged. */
  lemma FlushKeyRest(st: State, i: Offset)
    requires CanFlushKey(st, i)
    ensures var st' := FlushKey(st, i);
            var k := st.storages[st.phase.root].records[i].pubkey;
            && st' == st.(index := st'.index, phase := st'.phase)
            && st'.phase == st.phase.(todo := st.phase.todo - {k}, reclaims := Pending(st'))
  {
  }

  /** An index entry of `k` at `s` points at the one record of `k` there. */
  lemma EntryOffset(ix: Index, storages: StorageMap, k: Pubkey, s: Slot, j: Offset)
    requires Resolved(ix, storages, map[])
    requires Has(ix, k, s) && Rec(storages, s, j) && KeyAt(storages, s, j) == k
    requires DistinctKeys(storages[s].records)
    ensures At(ix, k, s).offset == j
  {
    assert Points(ix, storages, map[], k, s);
  }

  /** An index entry at `s` with offset `j` belongs to the key of that record. */
  lemma EntryKey(ix: Index, storages: StorageMap, k: Pubkey, s: Slot)
    requires Resolved(ix, storages, map[])
    requires Has(ix, k, s)
    ensures Rec(storages, s, At(ix, k, s).offset)
    ensures KeyAt(storages, s, At(ix, k, s).offset) == k
  {
    assert Points(ix, storages, map[], k, s);
  }

  lemma FlushKeyResolved(st: State, ix': Index, r: Slot, i: Offset, k: Pubkey)
    requires Entering(st, r, i, k)
    requires Resolved(st.index, st.storages, st.shrinking)
    requires IndexEffect(st.index, ix', k, r, InfoFor(st, r, i), st.phase.clean)
    ensures Resolved(ix', st.storages, st.shrinking)
  {
    forall k': Pubkey, s: Slot | Has(ix', k', s)
      ensures s in st.storages && Points(ix', st.storages, st.shrinking, k', s)
    {
      if k' != k || s != r {
        assert Has(st.index, k', s);
        assert Points(st.index, st.storages, st.shrinking, k', s);
      }
    }
  }

  lemma FlushKeyClaims(st: State, ix': Index, phase': Phase, r: Slot, i: Offset, k: Pubkey, s: Slot, j: Offset)
    requires Entering(st, r, i, k)
    requires Resolved(st.index, st.storages, map[])
    requires Rec(st.storages, s, j) && ClaimOk(st.index, st.storages, st.phase, s, j)
    requires DistinctKeys(st.storages[s].records)
    requires IndexEffect(st.index, ix', k, r, InfoFor(st, r, i), st.phase.clean)
    requires PendingEffect(st.index, Pending(st), PendingIn(phase'), k, r, InfoFor(st, r, i), st.phase.clean)
    requires phase' == st.phase.(todo := st.phase.todo - {k}, reclaims := PendingIn(phase'))
    ensures ClaimOk(ix', st.storages, phase', s, j)
  {
    var k' := KeyAt(st.storages, s, j);
    if k' == k {
      if Has(st.index, k, s) {
        EntryOffset(st.index, st.storages, k, s, j);
      }
    } else {
      if Has(st.index, k, s) {
        EntryKey(st.index, st.storages, k, s);
      }
    }
  }

  lemma FlushKeyPartitioned(st: State, ix': Index, phase': Phase, r: Slot, i: Offset, k: Pubkey)
    requires Entering(st, r, i, k)
    requires Resolved(st.index, st.storages, map[])
    requires Partitioned(st.index, st.storages, st.phase)
    requires EachStorageOk(st.storages, st.nextId)
    requires IndexEffect(st.index, ix', k, r, InfoFor(st, r, i), st.phase.clean)
    requires PendingEffect(st.index, Pending(st), PendingIn(phase'), k, r, InfoFor(st, r, i), st.phase.clean)
    requires phase' == st.phase.(todo := st.phase.todo - {k}, reclaims := PendingIn(phase'))
    ensures Partitioned(ix', st.storages, phase')
  {
    forall s: Slot, j: Offset | Rec(st.storages, s, j)
      ensures ClaimOk(ix', st.storages, phase', s, j)
    {
      FlushKeyClaims(st, ix', phase', r, i, k, s, j);
    }
    forall s: Slot, j: Offset | (s, j) in PendingIn(phase')
      ensures Rec(st.storages, s, j)
    {
      if Has(st.index, k, s) {
        EntryKey(st.index, st.storages, k, s);
      }
    }
  }

  lemma FlushKeyTombstones(st: State, ix': Index, r: Slot, i: Offset, k: Pubkey)
    requires Entering(st, r, i, k)
    requires TombstonesOk(st.index, st.storages)
    requires forall s :: s in st.storages ==> s <= r
    requires IndexEffect(st.index, ix', k, r, InfoFor(st, r, i), st.phase.clean)
    ensures TombstonesOk(ix', st.storages)
  {
    forall s: Slot, j: Offset, u: Slot |
      Rec(st.storages, s, j) && j in st.storages[s].tombstones && Has(ix', KeyAt(st.storages, s, j), u)
      ensures s < u
    {
      if KeyAt(st.storages, s, j) != k || u != r {
        assert Has(st.index, KeyAt(st.storages, s, j), u);
      }
    }
  }

  lemma FlushKeyReclaims(st: State, ix': Index, p': Reclaims, r: Slot, i: Offset, k: Pubkey)
    requires Entering(st, r, i, k)
    requires ReclaimsOk(st.index, st.storages, Pending(st))
    requires forall s: Slot, j: Offset :: (s, j) in Pending(st) ==> Pending(st)[(s, j)] == r
    requires forall s :: s in st.storages ==> s <= r
    requires IndexEffect(st.index, ix', k, r, InfoFor(st, r, i), st.phase.clean)
    requires PendingEffect(st.index, Pending(st), p', k, r, InfoFor(st, r, i), st.phase.clean)
    ensures ReclaimsOk(ix', st.storages, p')
  {
    forall s: Slot, j: Offset | (s, j) in p' && Rec(st.storages, s, j)
      ensures s <= p'[(s, j)]
      ensures s == p'[(s, j)] ==>
                IsZero(st.storages[s].records[j].account) && KeyAt(st.storages, s, j) !in ix'
    {
    }
  }

  lemma FlushKeyUncleaned(st: State, ix': Index, phase': Phase, r: Slot, i: Offset, k: Pubkey)
    requires Entering(st, r, i, k)
    requires UncleanedOk(st.index, st.uncleaned, st.maxCleaned, st.phase)
    requires MaxCleanedOk(st.roots, st.unflushed, st.maxCleaned) && r in st.unflushed
    requires IndexEffect(st.index, ix', k, r, InfoFor(st, r, i), st.phase.clean)
    requires IsFlushing(phase', r) && phase'.clean == st.phase.clean
    ensures UncleanedOk(ix', st.uncleaned, st.maxCleaned, phase')
  {
    forall k': Pubkey, s: Slot, u: Slot | Has(ix', k', s) && Has(ix', k', u) && s < u
      ensures st.maxCleaned < u && WillClean(st.uncleaned, phase', u, k')
    {
      if k' != k || u != r {
        assert Has(st.index, k', u);
        assert Has(st.index, k', s);
      }
    }
  }

  /** Other entries keep their content. */
  lemma FlushKeyContent(st: State, ix': Index, r: Slot, i: Offset, k: Pubkey, k': Pubkey, s: Slot)
    requires Entering(st, r, i, k)
    requires IndexEffect(st.index, ix', k, r, InfoFor(st, r, i), st.phase.clean)
    requires Has(ix', k', s) && !(k' == k && s == r)
    ensures Has(st.index, k', s)
    ensures ContentIn(ix', st.storages, st.shrinking, k', s) == Content(st, k', s)
  {
  }

  lemma FlushKeyReadCacheOne(st: State, ix': Index, phase': Phase, r: Slot, i: Offset, k: Pubkey, k': Pubkey, c: Cached)
    requires Entering(st, r, i, k)
    requires IndexEffect(st.index, ix', k, r, InfoFor(st, r, i), st.phase.clean)
    requires st.phase.evict == st.phase.stored
    requires || Current(st.index, st.storages, st.shrinking, k', c)
             || Outgoing(st.index, st.storages, st.shrinking, st.phase, k', c)
    requires phase' == st.phase.(todo := st.phase.todo - {k}, reclaims := PendingIn(phase'))
    ensures || Current(ix', st.storages, st.shrinking, k', c)
            || Outgoing(ix', st.storages, st.shrinking, phase', k', c)
  {
    if k' == k {
      assert Has(st.index, k, c.slot);
      if !st.phase.clean {
        FlushKeyContent(st, ix', r, i, k, k, c.slot);
      }
      assert Outgoing(ix', st.storages, st.shrinking, phase', k, c);
    } else if Current(st.index, st.storages, st.shrinking, k', c) {
      assert Has(st.index, k', c.slot);
      FlushKeyContent(st, ix', r, i, k, k', c.slot);
    } else {
      if !st.phase.clean {
        assert Has(st.index, k', c.slot);
        FlushKeyContent(st, ix', r, i, k, k', c.slot);
      }
      assert Outgoing(ix', st.storages, st.shrinking, phase', k', c);
    }
  }

  lemma FlushKeyFetched(st: State, ix': Index, phase': Phase, r: Slot, i: Offset, k: Pubkey, f: Fetch)
    requires Entering(st, r, i, k) && r in st.unflushed
    requires IndexEffect(st.index, ix', k, r, InfoFor(st, r, i), st.phase.clean)
    requires FetchOk(st.index, st.storages, st.shrinking, st.roots, st.unflushed, st.phase, f)
    requires phase' == st.phase.(todo := st.phase.todo - {k}, reclaims := PendingIn(phase'))
    ensures FetchOk(ix', st.storages, st.shrinking, st.roots, st.unflushed, phase', f)
  {
    if Has(ix', f.pubkey, f.slot) {
      FlushKeyContent(st, ix', r, i, k, f.pubkey, f.slot);
    }
  }

  lemma FlushKeyFetches(st: State, ix': Index, phase': Phase, r: Slot, i: Offset, k: Pubkey)
    requires Entering(st, r, i, k) && r in st.unflushed
    requires IndexEffect(st.index, ix', k, r, InfoFor(st, r, i), st.phase.clean)
    requires FetchesOk(st.fetches, st.index, st.storages, st.shrinking, st.roots, st.unflushed, st.phase)
    requires phase' == st.phase.(todo := st.phase.todo - {k}, reclaims := PendingIn(phase'))
    ensures FetchesOk(st.fetches, ix', st.storages, st.shrinking, st.roots, st.unflushed, phase')
  {
    forall f | f in st.fetches
      ensures FetchOk(ix', st.storages, st.shrinking, st.roots, st.unflushed, phase', f)
    {
      assert FetchOk(st.index, st.storages, st.shrinking, st.roots, st.unflushed, st.phase, f);
      FlushKeyFetched(st, ix', phase', r, i, k, f);
    }
  }

  lemma FlushKeyFlushed(st: State, ix': Index, phase': Phase, r: Slot, i: Offset, k: Pubkey, k': Pubkey)
    requires Entering(st, r, i, k)
    requires IndexEffect(st.index, ix', k, r, InfoFor(st, r, i), st.phase.clean)
    requires phase' == st.phase.(todo := st.phase.todo - {k}, reclaims := PendingIn(phase'))
    requires k' in st.cache[r] && FlushedKeyOk(st.index, st.phase, k', st.cache[r][k'])
    ensures FlushedKeyOk(ix', phase', k', st.cache[r][k'])
  {
    if k' in ix' {
      forall t | t in ix'[k']
        ensures (k' == k && t == r) || (k' in st.index && t in st.index[k'])
      {
        assert Has(ix', k', t);
      }
      if st.phase.clean && k' == k {
        forall t | t in ix'[k] ensures t == r { assert Has(ix', k, t); }
      }
    }
    if Has(st.index, k', r) {
      assert Has(ix', k', r);
    }
  }

  lemma FlushKeyKeys(st: State, st': State, r: Slot, i: Offset, k: Pubkey)
    requires Entering(st, r, i, k)
    requires IndexEffect(st.index, st'.index, k, r, InfoFor(st, r, i), st.phase.clean)
    requires st' == st.(index := st'.index, phase := st'.phase)
    requires st'.phase == st.phase.(todo := st.phase.todo - {k}, reclaims := Pending(st'))
    requires FlushKeysOk(st)
    ensures FlushKeysOk(st')
  {
    var c := st.cache[r];
    forall k' | k' in c && k' in st.phase.stored
      ensures FlushedKeyOk(st'.index, st'.phase, k', c[k'])
    {
      FlushKeyFlushed(st, st'.index, st'.phase, r, i, k, k');
    }
    forall k' | k' in c && k' !in st.phase.stored
      ensures SkippedKeyOk(st', k')
    {
      assert SkippedKeyOk(st, k');
      if Superseded(st, r, st.phase.bound, k') {
        assert Superseded(st', r, st.phase.bound, k');
      }
    }
  }

  lemma FlushKeySets(st: State, st': State, r: Slot, i: Offset, k: Pubkey)
    requires Entering(st, r, i, k) && FlushSetsOk(st)
    requires PendingEffect(st.index, Pending(st), Pending(st'), k, r, InfoFor(st, r, i), st.phase.clean)
    requires st' == st.(index := st'.index, phase := st'.phase)
    requires st'.phase == st.phase.(todo := st.phase.todo - {k}, reclaims := Pending(st'))
    ensures FlushSetsOk(st')
  {
    if !st.phase.clean && Pending(st') != map[] {
      var p :| p in Pending(st');
      assert (p.0, p.1) in Pending(st);
    }
  }

  lemma FlushKeyInv(st: State, i: Offset)
    requires Inv(st) && CanFlushKey(st, i)
    ensures Inv(FlushKey(st, i))
  {
    var r, k := FlushKeyEntering(st, i);
    var st' := FlushKey(st, i);
    FlushKeyIndex(st, r, i, k);
    FlushKeyPending(st, r, i, k);
    FlushKeyRest(st, i);
    FlushKeyResolved(st, st'.index, r, i, k);
    FlushKeyPartitioned(st, st'.index, st'.phase, r, i, k);
    FlushKeyTombstones(st, st'.index, r, i, k);
    FlushKeyReclaims(st, st'.index, Pending(st'), r, i, k);
    FlushKeyUncleaned(st, st'.index, st'.phase, r, i, k);
    FlushKeyFetches(st, st'.index, st'.phase, r, i, k);
    FlushKeyKeys(st, st', r, i, k);
    FlushKeySets(st, st', r, i, k);
    forall k' | k' in st.readCache
      ensures || Current(st'.index, st.storages, st.shrinking, k', st.readCache[k'])
              || Outgoing(st'.index, st.storages, st.shrinking, st'.phase, k', st.readCache[k'])
    {
      FlushKeyReadCacheOne(st, st'.index, st'.phase, r, i, k, k', st.readCache[k']);
    }
  }

  // ---------------------------------------------------------------------------------------
  // The new storage appears
  // ---------------------------------------------------------------------------------------

  /** `storages` with the storage of slot `r` added. */
  ghost predicate AddsSlot(storages: StorageMap, storages': StorageMap, r: Slot) {
    && r !in storages
    && (forall s :: s in storages ==> s in storages' && storages'[s] == storages[s])
    && (forall s :: s in storages' ==> s in storages || s == r)
  }

  lemma AddedResolved(ix: Index, storages: StorageMap, storages': StorageMap, r: Slot)
    requires AddsSlot(storages, storages', r)
    requires Resolved(ix, storages, map[])
    ensures Resolved(ix, storages', map[])
    ensures forall k: Pubkey :: !Has(ix, k, r)
    ensures forall k: Pubkey, s: Slot :: Has(ix, k, s) ==>
              ContentIn(ix, storages', map[], k, s) == ContentIn(ix, storages, map[], k, s)
  {
    forall k: Pubkey, s: Slot | Has(ix, k, s)
      ensures s in storages' && Points(ix, storages', map[], k, s)
    {
      assert Points(ix, storages, map[], k, s);
    }
  }

  /** A storage just written, all of whose accounts are still to enter the index. */
  ghost predicate Untouched(t: Storage, todo: set<Pubkey>) {
    && t.obsolete == map[] && t.tombstones == {}
    && forall i: Offset :: i < |t.records| ==> t.records[i].pubkey in todo
  }

  lemma AddedClaim(ix: Index, storages': StorageMap, r: Slot, phase': Phase, i: Offset)
    requires r in storages' && IsFlushing(phase', r) && phase'.reclaims == map[]
    requires Untouched(storages'[r], phase'.todo)
    requires Rec(storages', r, i) && !Has(ix, KeyAt(storages', r, i), r)
    ensures ClaimOk(ix, storages', phase', r, i)
  {
    assert i in AliveOffsets(storages'[r]);
  }

  lemma AddedPartitioned(ix: Index, storages: StorageMap, storages': StorageMap, r: Slot, phase': Phase)
    requires AddsSlot(storages, storages', r)
    requires Partitioned(ix, storages, Idle)
    requires forall k: Pubkey :: !Has(ix, k, r)
    requires IsFlushing(phase', r) && phase'.reclaims == map[]
    requires r in storages' ==> Untouched(storages'[r], phase'.todo)
    ensures Partitioned(ix, storages', phase')
  {
    forall s: Slot, i: Offset | Rec(storages', s, i)
      ensures ClaimOk(ix, storages', phase', s, i)
    {
      if s == r {
        AddedClaim(ix, storages', r, phase', i);
      } else {
        assert Rec(storages, s, i);
        assert ClaimOk(ix, storages, Idle, s, i);
      }
    }
  }

  lemma AddedTombstones(ix: Index, storages: StorageMap, storages': StorageMap, r: Slot)
    requires AddsSlot(storages, storages', r)
    requires TombstonesOk(ix, storages)
    requires r in storages' ==> storages'[r].tombstones == {}
    ensures TombstonesOk(ix, storages')
  {
    forall s: Slot, i: Offset, t: Slot |
      Rec(storages', s, i) && i in storages'[s].tombstones && Has(ix, KeyAt(storages', s, i), t)
      ensures s < t
    {
      assert Rec(storages, s, i);
      assert KeyAt(storages, s, i) == KeyAt(storages', s, i);
    }
  }

  lemma AddedReadCache(st: State, storages': StorageMap, r: Slot, phase': Phase)
    requires AddsSlot(st.storages, storages', r)
    requires ReadCacheOk(st.readCache, st.index, st.storages, map[], Idle)
    requires forall k: Pubkey, s: Slot :: Has(st.index, k, s) ==>
               ContentIn(st.index, storages', map[], k, s) == ContentIn(st.index, st.storages, map[], k, s)
    ensures ReadCacheOk(st.readCache, st.index, storages', map[], phase')
  {
    forall k | k in st.readCache
      ensures Current(st.index, storages', map[], k, st.readCache[k])
    {
      assert Current(st.index, st.storages, map[], k, st.readCache[k]);
      assert Has(st.index, k, st.readCache[k].slot);
    }
  }

  lemma FlushedRecordsOk(st: State, r: Slot, keys: set<Pubkey>, records: seq<Record>)
    requires CacheOk(st.cache) && Lists(st, r, keys, records)
    ensures RecordsOk(records)
    ensures forall i :: 0 <= i < |records| ==> records[i].pubkey in keys
  {
    forall i | 0 <= i < |records|
      ensures records[i].pubkey in keys
    {
      assert records[i].pubkey in KeysOf(records);
    }
  }

  lemma BeginFlushSkipped(st: State, r: Slot, clean: bool, bound: Slot, keys: set<Pubkey>, records: seq<Record>, k: Pubkey)
    requires CanBeginFlush(st, r, clean, bound, keys, records)
    requires k in st.cache[r] && k !in KeysOf(records)
    ensures SkippedKeyOk(BeginFlush(st, r, clean, bound, records), k)
  {
    var st' := BeginFlush(st, r, clean, bound, records);
    if k !in keys {
      assert Superseded(st, r, bound, k);
      assert Superseded(st', r, bound, k);
    } else {
      assert k !in ToStore(st, r, keys);
    }
  }

  lemma BeginFlushKeys(st: State, r: Slot, clean: bool, bound: Slot, keys: set<Pubkey>, records: seq<Record>)
    requires CanBeginFlush(st, r, clean, bound, keys, records)
    requires forall k: Pubkey :: !Has(st.index, k, r)
    ensures FlushKeysOk(BeginFlush(st, r, clean, bound, records))
  {
    var st' := BeginFlush(st, r, clean, bound, records);
    forall k | k in st.cache[r] && k !in st'.phase.stored
      ensures SkippedKeyOk(st', k)
    {
      BeginFlushSkipped(st, r, clean, bound, keys, records, k);
    }
  }

  lemma BeginFlushSets(st: State, r: Slot, clean: bool, bound: Slot, keys: set<Pubkey>, records: seq<Record>)
    requires CanBeginFlush(st, r, clean, bound, keys, records)
    requires st.shrinking == map[] && r !in st.storages
    ensures FlushSetsOk(BeginFlush(st, r, clean, bound, records))
  {
    var st' := BeginFlush(st, r, clean, bound, records);
    if records == [] {
      assert st'.phase.stored == {};
    }
  }

  lemma EachStorageAdd(storages: StorageMap, nextId: StoreId, s: Slot, t: Storage)
    requires EachStorageOk(storages, nextId)
    requires StorageOk(t) && t.id == nextId
    ensures EachStorageOk(storages[s := t], nextId + 1)
  {
  }

  lemma NewStorageUntouched(st: State, r: Slot, records: seq<Record>)
    requires CacheOk(st.cache) && Lists(st, r, KeysOf(records), records)
    ensures StorageOk(NewStorage(st.nextId, records))
    ensures Untouched(NewStorage(st.nextId, records), KeysOf(records))
  {
    FlushedRecordsOk(st, r, KeysOf(records), records);
    NewStorageOk(st.nextId, records);
  }

  lemma BeginFlushStorages(st: State, r: Slot, records: seq<Record>)
    requires CacheOk(st.cache) && Lists(st, r, KeysOf(records), records)
    requires EachStorageOk(st.storages, st.nextId)
    ensures EachStorageOk(WithRecords(st.storages, r, st.nextId, records),
                          if records == [] then st.nextId else st.nextId + 1)
  {
    if records != [] {
      NewStorageUntouched(st, r, records);
      EachStorageAdd(st.storages, st.nextId, r, NewStorage(st.nextId, records));
    }
  }

  lemma BeginFlushAdds(st: State, r: Slot, records: seq<Record>)
    requires CacheOk(st.cache) && Lists(st, r, KeysOf(records), records)
    requires r !in st.storages
    ensures var storages' := WithRecords(st.storages, r, st.nextId, records);
            && AddsSlot(st.storages, storages', r)
            && (r in storages' ==> Untouched(storages'[r], KeysOf(records)))
  {
    if records != [] {
      NewStorageUntouched(st, r, records);
    }
  }

  lemma BeginFlushFetches(st: State, storages': StorageMap, phase': Phase)
    requires FetchesOk(st.fetches, st.index, st.storages, map[], st.roots, st.unflushed, Idle)
    requires forall k: Pubkey, s: Slot :: Has(st.index, k, s) ==>
               ContentIn(st.index, storages', map[], k, s) == ContentIn(st.index, st.storages, map[], k, s)
    ensures FetchesOk(st.fetches, st.index, storages', map[], st.roots, st.unflushed, phase')
  {
    forall f | f in st.fetches
      ensures FetchOk(st.index, storages', map[], st.roots, st.unflushed, phase', f)
    {
      assert FetchOk(st.index, st.storages, map[], st.roots, st.unflushed, Idle, f);
    }
  }

  lemma BeginFlushSlots(st: State, r: Slot, clean: bool, bound: Slot, records: seq<Record>)
    requires SlotsOk(st.roots, st.unflushed, st.cache.Keys, st.storages.Keys, Idle)
    requires r in st.unflushed && forall u :: u in st.unflushed ==> r <= u
    ensures r !in st.storages
    ensures var st' := BeginFlush(st, r, clean, bound, records);
            SlotsOk(st'.roots, st'.unflushed, st'.cache.Keys, st'.storages.Keys, st'.phase)
  {
  }

  /** The state with the new storage in place. */
  ghost predicate Begun(st: State, st': State, r: Slot) {
    && st.phase.Idle? && st.shrinking == map[]
    && st' == st.(storages := st'.storages, nextId := st'.nextId, phase := st'.phase)
    && AddsSlot(st.storages, st'.storages, r)
    && IsFlushing(st'.phase, r) && st'.phase.reclaims == map[]
    && (r in st'.storages ==> Untouched(st'.storages[r], st'.phase.todo))
  }

  lemma BegunIndex(st: State, st': State, r: Slot)
    requires Begun(st, st', r)
    requires Resolved(st.index, st.storages, st.shrinking)
    requires Partitioned(st.index, st.storages, st.phase)
    requires TombstonesOk(st.index, st.storages)
    ensures Resolved(st'.index, st'.storages, st'.shrinking)
    ensures Partitioned(st'.index, st'.storages, st'.phase)
    ensures TombstonesOk(st'.index, st'.storages)
    ensures forall k: Pubkey :: !Has(st.index, k, r)
  {
    AddedResolved(st.index, st.storages, st'.storages, r);
    AddedPartitioned(st.index, st.storages, st'.storages, r, st'.phase);
    AddedTombstones(st.index, st.storages, st'.storages, r);
  }

  lemma BegunReaders(st: State, st': State, r: Slot)
    requires Begun(st, st', r)
    requires Resolved(st.index, st.storages, st.shrinking)
    requires ReadCacheOk(st.readCache, st.index, st.storages, st.shrinking, st.phase)
    requires FetchesOk(st.fetches, st.index, st.storages, st.shrinking, st.roots, st.unflushed, st.phase)
    requires UncleanedOk(st.index, st.uncleaned, st.maxCleaned, st.phase)
    ensures ReadCacheOk(st'.readCache, st'.index, st'.storages, st'.shrinking, st'.phase)
    ensures FetchesOk(st'.fetches, st'.index, st'.storages, st'.shrinking, st'.roots, st'.unflushed, st'.phase)
    ensures UncleanedOk(st'.index, st'.uncleaned, st'.maxCleaned, st'.phase)
  {
    AddedResolved(st.index, st.storages, st'.storages, r);
    AddedReadCache(st, st'.storages, r, st'.phase);
    BeginFlushFetches(st, st'.storages, st'.phase);
  }

  lemma BegunInv(st: State, st': State, r: Slot)
    requires Inv(st) && Begun(st, st', r)
    requires SlotsOk(st'.roots, st'.unflushed, st'.cache.Keys, st'.storages.Keys, st'.phase)
    requires EachStorageOk(st'.storages, st'.nextId)
    requires PhaseOk(st')
    ensures Inv(st')
  {
    BegunIndex(st, st', r);
    BegunReaders(st, st', r);
  }

  lemma BeginFlushInv(st: State, r: Slot, clean: bool, bound: Slot, keys: set<Pubkey>, records: seq<Record>)
    requires Inv(st) && CanBeginFlush(st, r, clean, bound, keys, records)
    ensures r !in st.storages
    ensures Inv(BeginFlush(st, r, clean, bound, records))
  {
    var st' := BeginFlush(st, r, clean, bound, records);
    BeginFlushSlots(st, r, clean, bound, records);
    BeginFlushStorages(st, r, records);
    BeginFlushAdds(st, r, records);
    AddedResolved(st.index, st.storages, st'.storages, r);
    BeginFlushKeys(st, r, clean, bound, keys, records);
    BeginFlushSets(st, r, clean, bound, keys, records);
    BegunInv(st, st', r);
  }

  // ---------------------------------------------------------------------------------------
  // Read cache, end
  // ---------------------------------------------------------------------------------------

  lemma FlushEvictReadCache(st: State, k: Pubkey)
    requires st.phase.Flushing?
    requires ReadCacheOk(st.readCache, st.index, st.storages, st.shrinking, st.phase)
    ensures var st' := FlushEvict(st, k);
            ReadCacheOk(st'.readCache, st'.index, st'.storages, st'.shrinking, st'.phase)
  {
    var st' := FlushEvict(st, k);
    forall k' | k' in st'.readCache
      ensures || Current(st.index, st.storages, st.shrinking, k', st'.readCache[k'])
              || Outgoing(st.index, st.storages, st.shrinking, st'.phase, k', st'.readCache[k'])
    {
      if !Current(st.index, st.storages, st.shrinking, k', st.readCache[k']) {
        assert Outgoing(st.index, st.storages, st.shrinking, st.phase, k', st.readCache[k']);
      }
    }
  }

  lemma FlushEvictPhase(st: State, k: Pubkey)
    requires CanFlushEvict(st, k) && FlushSetsOk(st) && FlushKeysOk(st)
    ensures var st' := FlushEvict(st, k); FlushSetsOk(st') && FlushKeysOk(st')
  {
    var st' := FlushEvict(st, k);
    forall k' | k' in st.cache[st.phase.root] && k' !in st.phase.stored
      ensures SkippedKeyOk(st', k')
    {
      assert SkippedKeyOk(st, k');
      if Superseded(st, st.phase.root, st.phase.bound, k') {
        assert Superseded(st', st.phase.root, st.phase.bound, k');
      }
    }
    forall k' | k' in st.cache[st.phase.root] && k' in st.phase.stored
      ensures FlushedKeyOk(st'.index, st'.phase, k', st.cache[st.phase.root][k'])
    {
      assert FlushedKeyOk(st.index, st.phase, k', st.cache[st.phase.root][k']);
    }
  }

  lemma FlushEvictPartitioned(st: State, k: Pubkey)
    requires CanFlushEvict(st, k) && Partitioned(st.index, st.storages, st.phase)
    ensures Partitioned(st.index, st.storages, FlushEvict(st, k).phase)
  {
    forall s: Slot, i: Offset | Rec(st.storages, s, i)
      ensures ClaimOk(st.index, st.storages, FlushEvict(st, k).phase, s, i)
    {
      assert ClaimOk(st.index, st.storages, st.phase, s, i);
    }
  }

  lemma FlushEvictFetches(st: State, k: Pubkey)
    requires CanFlushEvict(st, k)
    requires FetchesOk(st.fetches, st.index, st.storages, st.shrinking, st.roots, st.unflushed, st.phase)
    requires UncleanedOk(st.index, st.uncleaned, st.maxCleaned, st.phase)
    ensures FetchesOk(st.fetches, st.index, st.storages, st.shrinking, st.roots, st.unflushed, FlushEvict(st, k).phase)
    ensures UncleanedOk(st.index, st.uncleaned, st.maxCleaned, FlushEvict(st, k).phase)
  {
    forall f | f in st.fetches
      ensures FetchOk(st.index, st.storages, st.shrinking, st.roots, st.unflushed, FlushEvict(st, k).phase, f)
    {
      assert FetchOk(st.index, st.storages, st.shrinking, st.roots, st.unflushed, st.phase, f);
    }
  }

  lemma FlushEvictInv(st: State, k: Pubkey)
    requires Inv(st) && CanFlushEvict(st, k)
    ensures Inv(FlushEvict(st, k))
  {
    FlushEvictReadCache(st, k);
    FlushEvictPhase(st, k);
    FlushEvictPartitioned(st, k);
    FlushEvictFetches(st, k);
  }

  lemma StoredAtRoot(st: State, k: Pubkey)
    requires Inv(st) && st.phase.Flushing? && Has(st.index, k, st.phase.root)
    ensures k in st.phase.stored
  {
    var r := st.phase.root;
    EntryKey(st.index, st.storages, k, r);
    assert st.storages[r].records[At(st.index, k, r).offset].pubkey in KeysOf(st.storages[r].records);
  }

  /** Pairs known to clean stay known: those of the flushed root are recorded now. */
  lemma RecordedAtEnd(ix: Index, uncleaned: map<Slot, set<Pubkey>>, uncleaned': map<Slot, set<Pubkey>>, maxCleaned: Slot, phase: Phase)
    requires phase.Flushing? && UncleanedOk(ix, uncleaned, maxCleaned, phase)
    requires forall s, k :: Recorded(uncleaned, s, k) ==> Recorded(uncleaned', s, k)
    requires !phase.clean ==> forall k: Pubkey :: Has(ix, k, phase.root) ==> Recorded(uncleaned', phase.root, k)
    ensures UncleanedOk(ix, uncleaned', maxCleaned, Idle)
  {
    forall k: Pubkey, s: Slot, t: Slot | Has(ix, k, s) && Has(ix, k, t) && s < t
      ensures maxCleaned < t && WillClean(uncleaned', Idle, t, k)
    {
      assert WillClean(uncleaned, phase, t, k);
    }
  }

  lemma EndFlushUncleaned(st: State)
    requires Inv(st) && CanEndFlush(st)
    ensures UncleanedOk(st.index, EndFlush(st).uncleaned, st.maxCleaned, Idle)
  {
    forall k: Pubkey | Has(st.index, k, st.phase.root)
      ensures k in st.phase.stored
    {
      StoredAtRoot(st, k);
    }
    RecordedAtEnd(st.index, st.uncleaned, EndFlush(st).uncleaned, st.maxCleaned, st.phase);
  }

  lemma EndFlushSlots(st: State)
    requires Inv(st) && CanEndFlush(st)
    ensures var st' := EndFlush(st);
            SlotsOk(st'.roots, st'.unflushed, st'.cache.Keys, st'.storages.Keys, st'.phase)
  {
  }

  lemma EndFlushPartitioned(st: State)
    requires CanEndFlush(st) && Partitioned(st.index, st.storages, st.phase)
    ensures Partitioned(st.index, st.storages, Idle)
  {
    forall s: Slot, i: Offset | Rec(st.storages, s, i)
      ensures ClaimOk(st.index, st.storages, Idle, s, i)
    {
      assert ClaimOk(st.index, st.storages, st.phase, s, i);
    }
  }

  /** A root without anything left to flush leaves the unflushed ones. */
  lemma UntrackedFetches(st: State, r: Slot)
    requires FetchesOk(st.fetches, st.index, st.storages, st.shrinking, st.roots, st.unflushed, st.phase)
    requires st.phase.Idle? || (CanEndFlush(st) && st.phase.root == r)
    ensures FetchesOk(st.fetches, st.index, st.storages, st.shrinking, st.roots, st.unflushed - {r}, Idle)
  {
    forall f | f in st.fetches
      ensures FetchOk(st.index, st.storages, st.shrinking, st.roots, st.unflushed - {r}, Idle, f)
    {
      assert FetchOk(st.index, st.storages, st.shrinking, st.roots, st.unflushed, st.phase, f);
    }
  }

  lemma EndFlushInv(st: State)
    requires Inv(st) && CanEndFlush(st)
    ensures Inv(EndFlush(st))
  {
    EndFlushSlots(st);
    EndFlushUncleaned(st);
    EndFlushPartitioned(st);
    UntrackedFetches(st, st.phase.root);
  }

  lemma UntrackedSlots(st: State, r: Slot)
    requires SlotsOk(st.roots, st.unflushed, st.cache.Keys, st.storages.Keys, Idle)
    requires MaxCleanedOk(st.roots, st.unflushed, st.maxCleaned)
    requires r !in st.cache
    ensures SlotsOk(st.roots, st.unflushed - {r}, st.cache.Keys, st.storages.Keys, Idle)
    ensures MaxCleanedOk(st.roots, st.unflushed - {r}, st.maxCleaned)
  {
  }

  lemma UntrackInv(st: State, r: Slot)
    requires Inv(st) && CanUntrack(st, r)
    ensures Inv(Untrack(st, r))
  {
    UntrackedSlots(st, r);
    UntrackedFetches(st, r);
  }
}
