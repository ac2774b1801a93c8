/** Every step of a shrink keeps the invariant, and the content of every index entry. */
module ShrinkProofs {
  import opened Types
  import opened Storages
  import opened PrimaryIndex
  import opened Store
  import opened Invariant

  /** Nothing about the index entries changes but where they point; what they say stays. */
  ghost predicate SameEntries(st: State, st': State) {
    && (forall k: Pubkey :: k in st'.index <==> k in st.index)
    && (forall k: Pubkey, s: Slot :: Has(st'.index, k, s) <==> Has(st.index, k, s))
    && (forall k: Pubkey, s: Slot :: Has(st'.index, k, s) ==> Content(st', k, s) == Content(st, k, s))
  }

  /** The step touches index, storages, shrink map and phase, and stays outside a flush. */
  ghost predicate ShrinkStep(st: State, st': State) {
    && !st.phase.Flushing? && !st'.phase.Flushing?
    && !st.phase.Cleaning? && !st'.phase.Cleaning?
    && st' == st.(index := st'.index, storages := st'.storages, shrinking := st'.shrinking,
                  candidates := st'.candidates, nextId := st'.nextId, phase := st'.phase)
    && st'.storages.Keys == st.storages.Keys
  }

  lemma SameReadCache(st: State, st': State)
    requires ShrinkStep(st, st') && SameEntries(st, st')
    requires ReadCacheOk(st.readCache, st.index, st.storages, st.shrinking, st.phase)
    ensures ReadCacheOk(st'.readCache, st'.index, st'.storages, st'.shrinking, st'.phase)
  {
    forall k | k in st.readCache
      ensures Current(st'.index, st'.storages, st'.shrinking, k, st.readCache[k])
    {
      assert Current(st.index, st.storages, st.shrinking, k, st.readCache[k]);
      assert Has(st.index, k, st.readCache[k].slot);
      assert Has(st'.index, k, st.readCache[k].slot);
    }
  }

  lemma SameFetches(st: State, st': State)
    requires ShrinkStep(st, st') && SameEntries(st, st')
    requires FetchesOk(st.fetches, st.index, st.storages, st.shrinking, st.roots, st.unflushed, st.phase)
    ensures FetchesOk(st'.fetches, st'.index, st'.storages, st'.shrinking, st'.roots, st'.unflushed, st'.phase)
  {
    forall f | f in st.fetches
      ensures FetchOk(st'.index, st'.storages, st'.shrinking, st'.roots, st'.unflushed, st'.phase, f)
    {
      assert FetchOk(st.index, st.storages, st.shrinking, st.roots, st.unflushed, st.phase, f);
    }
  }

  lemma SameUncleaned(st: State, st': State)
    requires ShrinkStep(st, st') && SameEntries(st, st')
    requires UncleanedOk(st.index, st.uncleaned, st.maxCleaned, st.phase)
    ensures UncleanedOk(st'.index, st'.uncleaned, st'.maxCleaned, st'.phase)
  {
    forall k: Pubkey, s: Slot, t: Slot | Has(st'.index, k, s) && Has(st'.index, k, t) && s < t
      ensures st.maxCleaned < t && WillClean(st.uncleaned, st'.phase, t, k)
    {
      assert Has(st.index, k, s) && Has(st.index, k, t);
    }
  }

  lemma SameReaders(st: State, st': State)
    requires ShrinkStep(st, st') && SameEntries(st, st')
    requires UncleanedOk(st.index, st.uncleaned, st.maxCleaned, st.phase)
    requires ReadCacheOk(st.readCache, st.index, st.storages, st.shrinking, st.phase)
    requires FetchesOk(st.fetches, st.index, st.storages, st.shrinking, st.roots, st.unflushed, st.phase)
    ensures UncleanedOk(st'.index, st'.uncleaned, st'.maxCleaned, st'.phase)
    ensures ReadCacheOk(st'.readCache, st'.index, st'.storages, st'.shrinking, st'.phase)
    ensures FetchesOk(st'.fetches, st'.index, st'.storages, st'.shrinking, st'.roots, st'.unflushed, st'.phase)
  {
    SameReadCache(st, st');
    SameFetches(st, st');
    SameUncleaned(st, st');
  }

  lemma SameSlots(st: State, st': State)
    requires ShrinkStep(st, st')
    requires SlotsOk(st.roots, st.unflushed, st.cache.Keys, st.storages.Keys, st.phase)
    ensures SlotsOk(st'.roots, st'.unflushed, st'.cache.Keys, st'.storages.Keys, st'.phase)
  {
  }

  /** What is left to show for a shrink step. */
  lemma ShrinkStepInv(st: State, st': State)
    requires Inv(st) && ShrinkStep(st, st') && SameEntries(st, st')
    requires EachStorageOk(st'.storages, st'.nextId) && EachStorageOk(st'.shrinking, st'.nextId)
    requires Resolved(st'.index, st'.storages, st'.shrinking)
    requires Partitioned(st'.index, st'.storages, st'.phase)
    requires TombstonesOk(st'.index, st'.storages)
    requires PhaseOk(st')
    ensures Inv(st')
  {
    SameSlots(st, st');
    SameReaders(st, st');
  }

  lemma SameHasPartitioned(ix: Index, ix': Index, storages: StorageMap, phase: Phase, phase': Phase)
    requires !phase.Flushing? && !phase'.Flushing? && !phase.Cleaning? && !phase'.Cleaning?
    requires forall k: Pubkey, s: Slot :: Has(ix', k, s) <==> Has(ix, k, s)
    requires Partitioned(ix, storages, phase)
    ensures Partitioned(ix', storages, phase')
  {
    forall s: Slot, i: Offset | Rec(storages, s, i)
      ensures ClaimOk(ix', storages, phase', s, i)
    {
      assert ClaimOk(ix, storages, phase, s, i);
    }
  }

  lemma SameHasTombstones(ix: Index, ix': Index, storages: StorageMap)
    requires forall k: Pubkey, s: Slot :: Has(ix', k, s) <==> Has(ix, k, s)
    requires TombstonesOk(ix, storages)
    ensures TombstonesOk(ix', storages)
  {
    forall s: Slot, i: Offset, t: Slot |
      Rec(storages, s, i) && i in storages[s].tombstones && Has(ix', KeyAt(storages, s, i), t)
      ensures s < t
    {
      assert Has(ix, KeyAt(storages, s, i), t);
    }
  }

  // ---------------------------------------------------------------------------------------
  // The new storage is written
  // ---------------------------------------------------------------------------------------

  lemma CollectedRecordsOk(t: Storage, offsets: set<Offset>, records: seq<Record>)
    requires RecordsOk(t.records) && ListsOffsets(t, offsets, records)
    ensures RecordsOk(records)
  {
    forall i | 0 <= i < |records| && IsZero(records[i].account)
      ensures records[i].account.dataLen == 0
    {
      assert Contains(t, offsets, records[i]);
    }
  }

  /** Records of disjoint offsets have different keys. */
  lemma DisjointKeys(t: Storage, a: set<Offset>, b: set<Offset>, x: Record, y: Record)
    requires DistinctKeys(t.records) && a !! b
    requires Contains(t, a, x) && Contains(t, b, y)
    ensures x.pubkey != y.pubkey
  {
    var i: Offset :| i in a && i < |t.records| && t.records[i] == x;
    var j: Offset :| j in b && j < |t.records| && t.records[j] == y;
    assert i < j || j < i;
  }

  lemma CollectedTogether(t: Storage, alive: seq<Record>, carry: seq<Record>)
    requires StorageOk(t)
    requires ListsOffsets(t, AliveOffsets(t), alive)
    requires carry == [] || ListsOffsets(t, t.tombstones, carry)
    ensures RecordsOk(alive) && RecordsOk(alive + carry)
  {
    CollectedRecordsOk(t, AliveOffsets(t), alive);
    if carry == [] {
      assert alive + carry == alive;
    } else {
      CollectedRecordsOk(t, t.tombstones, carry);
      var all := alive + carry;
      forall i, j | 0 <= i < j < |all|
        ensures all[i].pubkey != all[j].pubkey
      {
        if i < |alive| <= j {
          DisjointKeys(t, AliveOffsets(t), t.tombstones, alive[i], carry[j - |alive|]);
        }
      }
    }
  }

  lemma CollectedSame(t: Storage, id: StoreId, alive: seq<Record>)
    requires ListsOffsets(t, AliveOffsets(t), alive)
    ensures SameAccounts(t, NewStorage(id, alive))
  {
    var n := NewStorage(id, alive);
    forall j: Offset | j in AliveOffsets(t) && j < |t.records|
      ensures Contains(n, AliveOffsets(n), t.records[j])
    {
      var i :| 0 <= i < |alive| && alive[i] == t.records[j];
      assert i in AliveOffsets(n) && n.records[i] == t.records[j];
    }
  }

  /** The alive accounts are exactly those the index lists at the slot. */
  lemma CollectedListed(st: State, s: Slot, alive: seq<Record>, k: Pubkey)
    requires st.phase.Idle? && s in st.storages
    requires Resolved(st.index, st.storages, map[])
    requires Partitioned(st.index, st.storages, st.phase)
    requires ListsOffsets(st.storages[s], AliveOffsets(st.storages[s]), alive)
    ensures Has(st.index, k, s) <==> k in KeysOf(alive)
  {
    var t := st.storages[s];
    if Has(st.index, k, s) {
      assert Points(st.index, st.storages, map[], k, s);
      assert t.records[At(st.index, k, s).offset] in alive;
    }
    if k in KeysOf(alive) {
      var i :| 0 <= i < |alive| && alive[i].pubkey == k;
      assert Contains(t, AliveOffsets(t), alive[i]);
      var j: Offset :| j in AliveOffsets(t) && j < |t.records| && t.records[j] == alive[i];
      assert Rec(st.storages, s, j);
      assert ClaimOk(st.index, st.storages, st.phase, s, j);
    }
  }

  /** Entries resolve as before when the new storage has an id of its own. */
  lemma BegunEntries(ix: Index, storages: StorageMap, shrinking': StorageMap)
    requires Resolved(ix, storages, map[])
    ensures Resolved(ix, storages, shrinking')
    ensures forall k: Pubkey, s: Slot :: Has(ix, k, s) ==>
              ContentIn(ix, storages, shrinking', k, s) == ContentIn(ix, storages, map[], k, s)
    ensures forall k: Pubkey, s: Slot :: Has(ix, k, s) ==> At(ix, k, s).store == storages[s].id
  {
    forall k: Pubkey, s: Slot | Has(ix, k, s)
      ensures Points(ix, storages, shrinking', k, s) && At(ix, k, s).store == storages[s].id
    {
      assert Points(ix, storages, map[], k, s);
    }
  }

  lemma BeginShrinkMoved(st: State, s: Slot, alive: seq<Record>, carry: seq<Record>)
    requires Inv(st) && CanBeginShrink(st, s, alive, carry)
    ensures MovedOk(BeginShrink(st, s, alive, carry))
  {
    var st' := BeginShrink(st, s, alive, carry);
    var t := st.storages[s];
    CollectedTogether(t, alive, carry);
    CollectedSame(t, st.nextId, alive);
    BegunEntries(st.index, st.storages, st'.shrinking);
    forall k: Pubkey
      ensures Has(st.index, k, s) <==> k in KeysOf(alive)
    {
      CollectedListed(st, s, alive, k);
    }
  }

  lemma LaterIds(storages: StorageMap, nextId: StoreId)
    requires EachStorageOk(storages, nextId)
    ensures EachStorageOk(storages, nextId + 1)
  {
  }

  lemma OneStorageOk(s: Slot, t: Storage, nextId: StoreId)
    requires StorageOk(t) && t.id < nextId
    ensures EachStorageOk(map[s := t], nextId)
  {
  }

  lemma BeginShrinkBooks(st: State, s: Slot, alive: seq<Record>, carry: seq<Record>)
    requires CanBeginShrink(st, s, alive, carry)
    requires st.shrinking == map[] && EachStorageOk(st.storages, st.nextId)
    ensures var st' := BeginShrink(st, s, alive, carry);
            EachStorageOk(st'.storages, st'.nextId) && EachStorageOk(st'.shrinking, st'.nextId)
  {
    CollectedTogether(st.storages[s], alive, carry);
    NewStorageOk(st.nextId, alive);
    LaterIds(st.storages, st.nextId);
    OneStorageOk(s, NewStorage(st.nextId, alive), st.nextId + 1);
    assert st.shrinking[s := NewStorage(st.nextId, alive)] == map[s := NewStorage(st.nextId, alive)];
  }

  lemma BeginShrinkEntries(st: State, s: Slot, alive: seq<Record>, carry: seq<Record>)
    requires st.shrinking == map[] && Resolved(st.index, st.storages, st.shrinking)
    ensures var st' := BeginShrink(st, s, alive, carry);
            SameEntries(st, st') && Resolved(st'.index, st'.storages, st'.shrinking)
  {
    BegunEntries(st.index, st.storages, BeginShrink(st, s, alive, carry).shrinking);
  }

  lemma BeginShrinkInv(st: State, s: Slot, alive: seq<Record>, carry: seq<Record>)
    requires Inv(st) && CanBeginShrink(st, s, alive, carry)
    ensures Inv(BeginShrink(st, s, alive, carry))
    ensures SameEntries(st, BeginShrink(st, s, alive, carry))
  {
    var st' := BeginShrink(st, s, alive, carry);
    BeginShrinkBooks(st, s, alive, carry);
    BeginShrinkEntries(st, s, alive, carry);
    SameHasPartitioned(st.index, st'.index, st.storages, st.phase, st'.phase);
    BeginShrinkMoved(st, s, alive, carry);
    ShrinkStepInv(st, st');
  }

  // ---------------------------------------------------------------------------------------
  // One account is repointed
  // ---------------------------------------------------------------------------------------

  /** A key's alive record in the new storage is its record in the old one. */
  lemma SameRecord(t: Storage, n: Storage, i: Offset, o: Offset)
    requires DistinctKeys(t.records)
    requires RecordsFrom(n, AliveOffsets(n), t, AliveOffsets(t))
    requires i in AliveOffsets(n) && i < |n.records|
    requires o < |t.records| && t.records[o].pubkey == n.records[i].pubkey
    ensures t.records[o] == n.records[i] && o in AliveOffsets(t)
  {
    assert Contains(t, AliveOffsets(t), n.records[i]);
  }

  lemma Repointed(ix: Index, storages: StorageMap, shrinking: StorageMap, s: Slot, k: Pubkey, i: Offset, ix': Index)
    requires Resolved(ix, storages, shrinking)
    requires Has(ix, k, s) && s in storages && s in shrinking
    requires storages[s].id != shrinking[s].id
    requires At(ix, k, s).store == storages[s].id
    requires DistinctKeys(storages[s].records)
    requires RecordsFrom(shrinking[s], AliveOffsets(shrinking[s]), storages[s], AliveOffsets(storages[s]))
    requires i in AliveOffsets(shrinking[s]) && i < |shrinking[s].records|
    requires shrinking[s].records[i].pubkey == k
    requires Has(ix', k, s)
    requires At(ix', k, s) == Info(shrinking[s].id, i, IsZero(shrinking[s].records[i].account))
    ensures Points(ix', storages, shrinking, k, s)
    ensures ContentIn(ix', storages, shrinking, k, s) == ContentIn(ix, storages, shrinking, k, s)
  {
    assert Points(ix, storages, shrinking, k, s);
    SameRecord(storages[s], shrinking[s], i, At(ix, k, s).offset);
  }

  lemma ShrinkKeyEntries(st: State, i: Offset)
    requires CanShrinkKey(st, i) && MovedOk(st)
    requires Resolved(st.index, st.storages, st.shrinking)
    requires DistinctKeys(st.storages[st.phase.slot].records)
    ensures SameEntries(st, ShrinkKey(st, i))
    ensures Resolved(ShrinkKey(st, i).index, st.storages, st.shrinking)
  {
    var st' := ShrinkKey(st, i);
    var n := st.shrinking[st.phase.slot];
    var k := n.records[i].pubkey;
    assert i in AliveOffsets(n);
    Repointed(st.index, st.storages, st.shrinking, st.phase.slot, k, i, st'.index);
    forall k': Pubkey, s: Slot | Has(st'.index, k', s)
      ensures s in st.storages && Points(st'.index, st.storages, st.shrinking, k', s)
      ensures Content(st', k', s) == Content(st, k', s)
    {
      if k' != k || s != st.phase.slot {
        assert Has(st.index, k', s);
        assert Points(st.index, st.storages, st.shrinking, k', s);
      }
    }
  }

  lemma ShrinkKeyMoved(st: State, i: Offset)
    requires CanShrinkKey(st, i) && MovedOk(st)
    ensures MovedOk(ShrinkKey(st, i))
  {
  }

  lemma ShrinkKeyInv(st: State, i: Offset)
    requires Inv(st) && CanShrinkKey(st, i)
    ensures Inv(ShrinkKey(st, i))
    ensures SameEntries(st, ShrinkKey(st, i))
  {
    var st' := ShrinkKey(st, i);
    ShrinkKeyEntries(st, i);
    ShrinkKeyMoved(st, i);
    SameHasPartitioned(st.index, st'.index, st.storages, st.phase, st'.phase);
    SameHasTombstones(st.index, st'.index, st.storages);
    ShrinkStepInv(st, st');
  }

  // ---------------------------------------------------------------------------------------
  // Tombstones are carried over
  // ---------------------------------------------------------------------------------------

  lemma CarryZero(t: Storage, carry: seq<Record>)
    requires MarksOk(t)
    requires forall i :: 0 <= i < |carry| ==> Contains(t, t.tombstones, carry[i])
    ensures forall i :: 0 <= i < |carry| ==> IsZero(carry[i].account)
  {
    forall i | 0 <= i < |carry|
      ensures IsZero(carry[i].account)
    {
      assert Contains(t, t.tombstones, carry[i]);
    }
  }

  lemma CarryAlive(was: Storage, now: Storage, n: Storage)
    requires SameAccounts(was, now)
    requires now.records <= n.records && AliveOffsets(n) == AliveOffsets(now)
    ensures RecordsFrom(n, AliveOffsets(n), was, AliveOffsets(was))
    ensures RecordsFrom(was, AliveOffsets(was), n, AliveOffsets(n))
  {
    forall j: Offset | j in AliveOffsets(was) && j < |was.records|
      ensures Contains(n, AliveOffsets(n), was.records[j])
    {
      assert Contains(now, AliveOffsets(now), was.records[j]);
      var i: Offset :| i in AliveOffsets(now) && i < |now.records| && now.records[i] == was.records[j];
      assert n.records[i] == now.records[i];
    }
    forall i: Offset | i in AliveOffsets(n) && i < |n.records|
      ensures Contains(was, AliveOffsets(was), n.records[i])
    {
      assert i < |now.records| && n.records[i] == now.records[i];
    }
  }

  lemma CarryTombstones(was: Storage, now: Storage, carry: seq<Record>)
    requires now.tombstones == {}
    requires forall i :: 0 <= i < |carry| ==> Contains(was, was.tombstones, carry[i])
    ensures var n := WithTombstones(now, carry); RecordsFrom(n, n.tombstones, was, was.tombstones)
  {
    var n := WithTombstones(now, carry);
    forall i: Offset | i in n.tombstones && i < |n.records|
      ensures Contains(was, was.tombstones, n.records[i])
    {
      assert n.records[i] == carry[i - |now.records|];
    }
  }

  lemma CarrySame(was: Storage, now: Storage, carry: seq<Record>)
    requires SameAccounts(was, now) && now.tombstones == {}
    requires AliveOffsets(WithTombstones(now, carry)) == AliveOffsets(now)
    requires forall i :: 0 <= i < |carry| ==> Contains(was, was.tombstones, carry[i])
    ensures SameAccounts(was, WithTombstones(now, carry))
  {
    CarryAlive(was, now, WithTombstones(now, carry));
    CarryTombstones(was, now, carry);
  }

  /** `n` extends the storage in the shrink map by records that are not alive. */
  ghost predicate Extends(now: Storage, n: Storage) {
    n.id == now.id && now.records <= n.records && AliveOffsets(n) == AliveOffsets(now)
  }

  lemma CarryOk(st: State)
    requires CanCarry(st) && ShrinkOk(st)
    requires EachStorageOk(st.storages, st.nextId) && EachStorageOk(st.shrinking, st.nextId)
    ensures var n := WithTombstones(st.shrinking[st.phase.slot], st.phase.carry);
            && StorageOk(n)
            && Extends(st.shrinking[st.phase.slot], n)
            && SameAccounts(st.storages[st.phase.slot], n)
  {
    var s := st.phase.slot;
    CarryZero(st.storages[s], st.phase.carry);
    WithTombstonesOk(st.shrinking[s], st.phase.carry);
    CarrySame(st.storages[s], st.shrinking[s], st.phase.carry);
  }

  lemma AppendedPoints(ix: Index, storages: StorageMap, shrinking: StorageMap, shrinking': StorageMap, s: Slot, n: Storage,
                       k: Pubkey, t: Slot)
    requires s in shrinking && Extends(shrinking[s], n) && shrinking' == shrinking[s := n]
    requires Has(ix, k, t) && Points(ix, storages, shrinking, k, t)
    ensures Points(ix, storages, shrinking', k, t)
    ensures ContentIn(ix, storages, shrinking', k, t) == ContentIn(ix, storages, shrinking, k, t)
  {
    var info := At(ix, k, t);
    var found, found' := FindStorage(storages, shrinking, t, info.store), FindStorage(storages, shrinking', t, info.store);
    assert found' == found || (found' == Some(n) && found == Some(shrinking[s]));
    assert found'.value.records[info.offset] == found.value.records[info.offset];
  }

  /** Appending to a storage in the shrink map is not noticed by the entries. */
  lemma AppendedEntries(ix: Index, storages: StorageMap, shrinking: StorageMap, shrinking': StorageMap, s: Slot, n: Storage)
    requires Resolved(ix, storages, shrinking)
    requires s in shrinking && Extends(shrinking[s], n) && shrinking' == shrinking[s := n]
    ensures Resolved(ix, storages, shrinking')
    ensures forall k: Pubkey, t: Slot :: Has(ix, k, t) ==>
              ContentIn(ix, storages, shrinking', k, t) == ContentIn(ix, storages, shrinking, k, t)
  {
    forall k: Pubkey, t: Slot | Has(ix, k, t)
      ensures Points(ix, storages, shrinking', k, t)
      ensures ContentIn(ix, storages, shrinking', k, t) == ContentIn(ix, storages, shrinking, k, t)
    {
      AppendedPoints(ix, storages, shrinking, shrinking', s, n, k, t);
    }
  }

  ghost predicate CarriedTo(st: State, st': State, n: Storage) {
    && CanCarry(st) && Extends(st.shrinking[st.phase.slot], n)
    && st' == st.(shrinking := st.shrinking[st.phase.slot := n], phase := st.phase.(stage := Carried))
  }

  lemma CarryMoved(st: State, st': State, n: Storage)
    requires CarriedTo(st, st', n) && MovedOk(st)
    requires SameAccounts(st.storages[st.phase.slot], n)
    ensures MovedOk(st')
  {
  }

  lemma CarryBooks(st: State, st': State, n: Storage)
    requires CarriedTo(st, st', n) && EachStorageOk(st.shrinking, st.nextId)
    requires StorageOk(n)
    ensures EachStorageOk(st'.shrinking, st.nextId)
  {
  }

  lemma CarryEntries(st: State, st': State, n: Storage)
    requires CarriedTo(st, st', n) && Resolved(st.index, st.storages, st.shrinking)
    ensures SameEntries(st, st')
    ensures Resolved(st'.index, st'.storages, st'.shrinking)
  {
    AppendedEntries(st.index, st.storages, st.shrinking, st'.shrinking, st.phase.slot, n);
    forall k: Pubkey, s: Slot | Has(st'.index, k, s)
      ensures Content(st', k, s) == Content(st, k, s)
    {
      assert ContentIn(st.index, st.storages, st'.shrinking, k, s) == ContentIn(st.index, st.storages, st.shrinking, k, s);
    }
  }

  lemma CarriedInv(st: State, st': State, n: Storage)
    requires Inv(st) && CarriedTo(st, st', n)
    requires StorageOk(n) && SameAccounts(st.storages[st.phase.slot], n)
    ensures Inv(st') && SameEntries(st, st')
  {
    CarryEntries(st, st', n);
    CarryBooks(st, st', n);
    CarryMoved(st, st', n);
    SameHasPartitioned(st.index, st'.index, st.storages, st.phase, st'.phase);
    ShrinkStepInv(st, st');
  }

  lemma CarryInv(st: State)
    requires Inv(st) && CanCarry(st)
    ensures Inv(Carry(st))
    ensures SameEntries(st, Carry(st))
  {
    CarryOk(st);
    CarriedInv(st, Carry(st), WithTombstones(st.shrinking[st.phase.slot], st.phase.carry));
  }

  // ---------------------------------------------------------------------------------------
  // The new storage takes the place of the old one
  // ---------------------------------------------------------------------------------------

  lemma SwappedPoints(ix: Index, storages: StorageMap, shrinking: StorageMap, s: Slot, k: Pubkey, t: Slot)
    requires s in storages && s in shrinking && storages[s].id != shrinking[s].id
    requires Has(ix, k, t) && t in storages && Points(ix, storages, shrinking, k, t)
    requires t == s ==> At(ix, k, s).store == shrinking[s].id
    ensures Points(ix, storages[s := shrinking[s]], shrinking, k, t)
    ensures ContentIn(ix, storages[s := shrinking[s]], shrinking, k, t) == ContentIn(ix, storages, shrinking, k, t)
  {
  }

  lemma SwappedEntries(ix: Index, storages: StorageMap, shrinking: StorageMap, s: Slot)
    requires Resolved(ix, storages, shrinking)
    requires s in storages && s in shrinking && storages[s].id != shrinking[s].id
    requires forall k: Pubkey :: Has(ix, k, s) ==> At(ix, k, s).store == shrinking[s].id
    ensures Resolved(ix, storages[s := shrinking[s]], shrinking)
    ensures forall k: Pubkey, t: Slot :: Has(ix, k, t) ==>
              ContentIn(ix, storages[s := shrinking[s]], shrinking, k, t) == ContentIn(ix, storages, shrinking, k, t)
  {
    var storages' := storages[s := shrinking[s]];
    forall k: Pubkey, t: Slot | Has(ix, k, t)
      ensures t in storages' && Points(ix, storages', shrinking, k, t)
      ensures ContentIn(ix, storages', shrinking, k, t) == ContentIn(ix, storages, shrinking, k, t)
    {
      SwappedPoints(ix, storages, shrinking, s, k, t);
    }
  }

  lemma SwapEntries(st: State)
    requires CanSwap(st) && MovedOk(st)
    requires Resolved(st.index, st.storages, st.shrinking)
    ensures SameEntries(st, Swap(st))
    ensures Resolved(st.index, Swap(st).storages, st.shrinking)
  {
    SwappedEntries(st.index, st.storages, st.shrinking, st.phase.slot);
    var st' := Swap(st);
    forall k: Pubkey, s: Slot | Has(st'.index, k, s)
      ensures Content(st', k, s) == Content(st, k, s)
    {
      assert ContentIn(st.index, st'.storages, st.shrinking, k, s) == ContentIn(st.index, st.storages, st.shrinking, k, s);
    }
  }

  /** An alive record of the new storage belongs to an entry of the slot, since the old
      storage has an alive record of that key. */
  lemma AliveListed(ix: Index, storages: StorageMap, phase: Phase, s: Slot, n: Storage, i: Offset)
    requires phase.Shrinking? && s in storages && Partitioned(ix, storages, phase)
    requires RecordsFrom(n, AliveOffsets(n), storages[s], AliveOffsets(storages[s]))
    requires i in AliveOffsets(n) && i < |n.records|
    ensures Has(ix, n.records[i].pubkey, s)
  {
    var t := storages[s];
    assert Contains(t, AliveOffsets(t), n.records[i]);
    var j: Offset :| j in AliveOffsets(t) && j < |t.records| && t.records[j] == n.records[i];
    assert Rec(storages, s, j);
    assert ClaimOk(ix, storages, phase, s, j);
  }

  /** An entry of the slot points at its key's one record in the new storage. */
  lemma ListedAlive(ix: Index, storages: StorageMap, shrinking: StorageMap, s: Slot, i: Offset)
    requires Resolved(ix, storages, shrinking)
    requires s in storages && s in shrinking && storages[s].id != shrinking[s].id
    requires i < |shrinking[s].records| && DistinctKeys(shrinking[s].records)
    requires Has(ix, shrinking[s].records[i].pubkey, s)
    requires At(ix, shrinking[s].records[i].pubkey, s).store == shrinking[s].id
    ensures i in AliveOffsets(shrinking[s])
  {
    assert Points(ix, storages, shrinking, shrinking[s].records[i].pubkey, s);
  }

  lemma SwapClaim(st: State, i: Offset)
    requires CanSwap(st) && ShrinkOk(st) && Rec(Swap(st).storages, st.phase.slot, i)
    requires Resolved(st.index, st.storages, st.shrinking) && Partitioned(st.index, st.storages, st.phase)
    requires EachStorageOk(st.shrinking, st.nextId)
    ensures ClaimOk(st.index, Swap(st).storages, Swap(st).phase, st.phase.slot, i)
  {
    var s := st.phase.slot;
    var n := st.shrinking[s];
    if i in AliveOffsets(n) {
      AliveListed(st.index, st.storages, st.phase, s, n, i);
    } else if Has(st.index, n.records[i].pubkey, s) {
      ListedAlive(st.index, st.storages, st.shrinking, s, i);
    }
  }

  lemma SwapPartitioned(st: State)
    requires Inv(st) && CanSwap(st)
    ensures Partitioned(st.index, Swap(st).storages, Swap(st).phase)
  {
    var st' := Swap(st);
    forall s: Slot, i: Offset | Rec(st'.storages, s, i)
      ensures ClaimOk(st.index, st'.storages, st'.phase, s, i)
    {
      if s == st.phase.slot {
        SwapClaim(st, i);
      } else {
        assert Rec(st.storages, s, i);
        assert ClaimOk(st.index, st.storages, st.phase, s, i);
      }
    }
  }

  lemma SwappedTombstones(ix: Index, storages: StorageMap, s: Slot, n: Storage)
    requires s in storages && TombstonesOk(ix, storages)
    requires RecordsFrom(n, n.tombstones, storages[s], storages[s].tombstones)
    ensures TombstonesOk(ix, storages[s := n])
  {
    var storages' := storages[s := n];
    forall t: Slot, i: Offset, u: Slot |
      Rec(storages', t, i) && i in storages'[t].tombstones && Has(ix, KeyAt(storages', t, i), u)
      ensures t < u
    {
      if t == s {
        assert Contains(storages[s], storages[s].tombstones, n.records[i]);
        var j: Offset :| j in storages[s].tombstones && j < |storages[s].records| && storages[s].records[j] == n.records[i];
        assert Rec(storages, s, j) && KeyAt(storages, s, j) == KeyAt(storages', s, i);
      } else {
        assert Rec(storages, t, i) && KeyAt(storages, t, i) == KeyAt(storages', t, i);
      }
    }
  }

  lemma SwapPhase(st: State)
    requires PhaseOk(st) && CanSwap(st)
    ensures PhaseOk(Swap(st))
  {
  }

  lemma SwapBooks(st: State)
    requires CanSwap(st) && EachStorageOk(st.storages, st.nextId) && EachStorageOk(st.shrinking, st.nextId)
    ensures EachStorageOk(Swap(st).storages, st.nextId)
  {
  }

  lemma SwapInv(st: State)
    requires Inv(st) && CanSwap(st)
    ensures Inv(Swap(st))
    ensures SameEntries(st, Swap(st))
  {
    SwapEntries(st);
    SwapPartitioned(st);
    SwapPhase(st);
    SwapBooks(st);
    SwappedTombstones(st.index, st.storages, st.phase.slot, st.shrinking[st.phase.slot]);
    ShrinkStepInv(st, Swap(st));
  }

  lemma DroppedPoints(ix: Index, storages: StorageMap, shrinking: StorageMap, s: Slot, k: Pubkey, t: Slot)
    requires shrinking.Keys == {s} && s in storages && shrinking[s] == storages[s]
    requires Has(ix, k, t) && Points(ix, storages, shrinking, k, t)
    ensures Points(ix, storages, shrinking - {s}, k, t)
    ensures ContentIn(ix, storages, shrinking - {s}, k, t) == ContentIn(ix, storages, shrinking, k, t)
  {
  }

  lemma EndShrinkSide(st: State)
    requires Inv(st) && CanEndShrink(st)
    ensures SameEntries(st, EndShrink(st))
    ensures Resolved(st.index, EndShrink(st).storages, EndShrink(st).shrinking)
    ensures Partitioned(st.index, EndShrink(st).storages, EndShrink(st).phase)
  {
    var st' := EndShrink(st);
    forall k: Pubkey, s: Slot | Has(st.index, k, s)
      ensures Points(st.index, st'.storages, st'.shrinking, k, s)
      ensures Content(st', k, s) == Content(st, k, s)
    {
      DroppedPoints(st.index, st.storages, st.shrinking, st.phase.slot, k, s);
    }
    SameHasPartitioned(st.index, st'.index, st.storages, st.phase, st'.phase);
  }

  lemma EndShrinkInv(st: State)
    requires Inv(st) && CanEndShrink(st)
    ensures Inv(EndShrink(st))
    ensures SameEntries(st, EndShrink(st))
  {
    EndShrinkSide(st);
    ShrinkStepInv(st, EndShrink(st));
  }
}
