/** The store after a restart: the newest record of every key is indexed, older ones are
    marked obsolete at the newest slot, and storages without alive records are dropped. The
    result satisfies the invariant, so everything proved about runs holds from there on. */
module Rebuild {
  import opened Types
  import opened Storages
  import opened PrimaryIndex
  import opened Store
  import opened Invariant
  import opened Restart

  /** The files can be loaded: sound storages, no tombstone known yet, ids given out. */
  ghost predicate Loaded(files: StorageMap, nextId: StoreId) {
    EachStorageOk(files, nextId) && forall s :: s in files ==> files[s].tombstones == {}
  }

  ghost predicate Superseding(files: StorageMap, s: Slot, k: Pubkey) {
    SlotsWith(files, k) != {} && s < Newest(SlotsWith(files, k))
  }

  /** The alive records of `s` that a newer slot supersedes. */
  ghost function Older(files: StorageMap, s: Slot): set<Offset>
    requires s in files
  {
    set i | i in AliveOffsets(files[s]) && i < |files[s].records| && Superseding(files, s, files[s].records[i].pubkey)
  }

  /** `mark_obsolete_accounts_at_startup` for one storage. */
  ghost function Settle(files: StorageMap, s: Slot, mark: Slot, canPurge: bool): Option<Storage>
    requires s in files
  {
    if Older(files, s) == {} then Some(files[s]) else HandleGroup(files[s], s, Older(files, s), mark, canPurge)
  }

  /** The newest record of every key. */
  ghost function NewestIndex(files: StorageMap): Index {
    map k | k in KeysIn(files) && SlotsWith(files, k) != {} ::
      map[Newest(SlotsWith(files, k)) := InfoOf(files[Newest(SlotsWith(files, k))], k)]
  }

  lemma NewestIndexHas(files: StorageMap, k: Pubkey, s: Slot)
    ensures Has(NewestIndex(files), k, s) <==> SlotsWith(files, k) != {} && s == Newest(SlotsWith(files, k))
    ensures Has(NewestIndex(files), k, s) ==> s in files && Holds(files[s], k) && At(NewestIndex(files), k, s) == InfoOf(files[s], k)
  {
    KeysInIff(files, k);
  }

  /** A storage keeps exactly its records that are the newest of their key. */
  ghost predicate SettledTo(files: StorageMap, s: Slot, r: Option<Storage>)
    requires s in files
  {
    if r.None? then AliveOffsets(files[s]) == Older(files, s)
    else
      && StorageOk(r.value)
      && r.value.id == files[s].id && r.value.records == files[s].records
      && r.value.tombstones == {}
      && AliveOffsets(r.value) == AliveOffsets(files[s]) - Older(files, s)
  }

  lemma SettleOk(files: StorageMap, s: Slot, mark: Slot, canPurge: bool)
    requires s in files && StorageOk(files[s]) && files[s].tombstones == {}
    requires mark in files && forall t :: t in files ==> t <= mark
    ensures SettledTo(files, s, Settle(files, s, mark, canPurge))
  {
    if Older(files, s) != {} {
      var i :| i in Older(files, s);
      var n := Newest(SlotsWith(files, files[s].records[i].pubkey));
      assert n in files;
      HandleGroupOk(files[s], s, Older(files, s), mark, canPurge);
    }
  }

  /** The one record of a key in its newest slot is not older than anything. */
  lemma NewestKept(files: StorageMap, k: Pubkey, s: Slot)
    requires SlotsWith(files, k) != {} && s == Newest(SlotsWith(files, k))
    ensures s in files && Holds(files[s], k)
    ensures OffsetOf(files[s], k) in AliveOffsets(files[s]) - Older(files, s)
  {
  }

  /** Every alive record that stays is the newest of its key. */
  lemma KeptIsNewest(files: StorageMap, s: Slot, i: Offset)
    requires s in files && i in AliveOffsets(files[s]) - Older(files, s) && i < |files[s].records|
    ensures var k := files[s].records[i].pubkey;
            SlotsWith(files, k) != {} && s == Newest(SlotsWith(files, k))
  {
    var k := files[s].records[i].pubkey;
    assert AliveAt(files[s], i, k);
    assert s in SlotsWith(files, k);
  }

  /** All storages after the startup clean. */
  ghost predicate AllSettled(files: StorageMap, storages: StorageMap) {
    && storages.Keys <= files.Keys
    && (forall s :: s in files && s in storages ==> SettledTo(files, s, Some(storages[s])))
    && (forall s :: s in files && s !in storages ==> SettledTo(files, s, None))
  }

  lemma RebuiltPoints(files: StorageMap, storages: StorageMap, k: Pubkey, s: Slot)
    requires AllSettled(files, storages) && Has(NewestIndex(files), k, s)
    ensures s in storages && Points(NewestIndex(files), storages, map[], k, s)
  {
    NewestIndexHas(files, k, s);
    NewestKept(files, k, s);
    assert SettledTo(files, s, if s in storages then Some(storages[s]) else None);
  }

  lemma RebuiltResolved(files: StorageMap, storages: StorageMap)
    requires AllSettled(files, storages)
    ensures Resolved(NewestIndex(files), storages, map[])
  {
    forall k: Pubkey, s: Slot | Has(NewestIndex(files), k, s)
      ensures s in storages && Points(NewestIndex(files), storages, map[], k, s)
    {
      RebuiltPoints(files, storages, k, s);
    }
    forall k | k in NewestIndex(files)
      ensures NewestIndex(files)[k] != map[]
    {
      assert Newest(SlotsWith(files, k)) in NewestIndex(files)[k];
    }
  }

  lemma RebuiltClaim(files: StorageMap, storages: StorageMap, s: Slot, i: Offset)
    requires AllSettled(files, storages) && Rec(storages, s, i)
    requires DistinctKeys(storages[s].records)
    ensures ClaimOk(NewestIndex(files), storages, Idle, s, i)
  {
    var k := KeyAt(storages, s, i);
    assert SettledTo(files, s, Some(storages[s]));
    NewestIndexHas(files, k, s);
    if i in AliveOffsets(storages[s]) {
      KeptIsNewest(files, s, i);
    }
    if Has(NewestIndex(files), k, s) {
      NewestKept(files, k, s);
      assert OffsetOf(files[s], k) == i;
    }
  }

  lemma RebuiltPartitioned(files: StorageMap, storages: StorageMap)
    requires AllSettled(files, storages)
    ensures Partitioned(NewestIndex(files), storages, Idle)
  {
    forall s: Slot, i: Offset | Rec(storages, s, i)
      ensures ClaimOk(NewestIndex(files), storages, Idle, s, i)
    {
      assert SettledTo(files, s, Some(storages[s]));
      RebuiltClaim(files, storages, s, i);
    }
  }

  lemma RebuiltBooks(files: StorageMap, storages: StorageMap, nextId: StoreId)
    requires AllSettled(files, storages) && EachStorageOk(files, nextId)
    ensures EachStorageOk(storages, nextId)
    ensures TombstonesOk(NewestIndex(files), storages)
  {
    forall s | s in storages
      ensures StorageOk(storages[s]) && storages[s].id < nextId && storages[s].tombstones == {}
    {
      assert SettledTo(files, s, Some(storages[s]));
    }
  }

  lemma RebuiltOnce(files: StorageMap, uncleaned: map<Slot, set<Pubkey>>, maxCleaned: Slot)
    ensures UncleanedOk(NewestIndex(files), uncleaned, maxCleaned, Idle)
  {
    forall k: Pubkey, s: Slot, t: Slot | Has(NewestIndex(files), k, s) && Has(NewestIndex(files), k, t)
      ensures s == t
    {
      NewestIndexHas(files, k, s);
      NewestIndexHas(files, k, t);
    }
  }

  lemma RebuiltSlots(files: StorageMap, storages: StorageMap, mark: Slot)
    requires storages.Keys <= files.Keys
    requires if files == map[] then mark == 0 else mark in files
    ensures SlotsOk(files.Keys, {}, {}, storages.Keys, Idle)
    ensures MaxCleanedOk(files.Keys, {}, mark)
  {
  }

  /** Nothing is cached and nothing is running. */
  predicate Unused(st: State) {
    && st.cache == map[] && st.readCache == map[] && st.fetches == {}
    && st.shrinking == map[] && st.unflushed == {} && st.scans == multiset{} && st.phase == Idle
  }

  lemma UnusedInv(st: State)
    requires Unused(st)
    requires SlotsOk(st.roots, {}, {}, st.storages.Keys, Idle) && MaxCleanedOk(st.roots, {}, st.maxCleaned)
    requires EachStorageOk(st.storages, st.nextId)
    requires Resolved(st.index, st.storages, map[]) && Partitioned(st.index, st.storages, Idle)
    requires TombstonesOk(st.index, st.storages)
    requires UncleanedOk(st.index, st.uncleaned, st.maxCleaned, Idle)
    ensures Inv(st)
  {
    assert st.cache.Keys == {};
  }

  /** `st` is a store made of `files`: newest records indexed, superseded ones marked. */
  ghost predicate StartedFrom(files: StorageMap, st: State) {
    && Unused(st)
    && st.roots == files.Keys
    && st.index == NewestIndex(files)
    && AllSettled(files, st.storages)
    && EachStorageOk(files, st.nextId)
    && (if files == map[] then st.maxCleaned == 0 else st.maxCleaned in files)
  }

  lemma StartedInv(files: StorageMap, st: State)
    requires StartedFrom(files, st)
    ensures Inv(st)
  {
    RebuiltResolved(files, st.storages);
    RebuiltPartitioned(files, st.storages);
    RebuiltBooks(files, st.storages, st.nextId);
    RebuiltOnce(files, st.uncleaned, st.maxCleaned);
    RebuiltSlots(files, st.storages, st.maxCleaned);
    UnusedInv(st);
  }

  lemma StartedShows(files: StorageMap, st: State, k: Pubkey)
    requires StartedFrom(files, st)
    ensures Load(st, [], k) == FileView(files, k)
  {
    StartedInv(files, st);
    LiveView(st, k);
    RebuiltIndexLoad(st, files, k);
  }

  lemma OneEntryLoad(st: State, k: Pubkey, n: Slot)
    requires forall s: Slot :: Has(st.index, k, s) <==> s == n
    ensures LoadFromIndex(st, [], k) == Content(st, k, n)
  {
    forall s: Slot
      ensures s in IndexSlots(st, [], k) <==> s == n
    {
      assert s in IndexSlots(st, [], k) <==> Has(st.index, k, s);
    }
    NewestUnique(IndexSlots(st, [], k), n);
  }

  lemma NoEntryLoad(st: State, k: Pubkey)
    requires forall s: Slot :: !Has(st.index, k, s)
    ensures LoadFromIndex(st, [], k) == None
  {
    forall s: Slot
      ensures s !in IndexSlots(st, [], k)
    {
      assert s in IndexSlots(st, [], k) ==> Has(st.index, k, s);
    }
  }

  lemma RebuiltContent(st: State, files: StorageMap, k: Pubkey, n: Slot)
    requires st.index == NewestIndex(files) && st.shrinking == map[] && AllSettled(files, st.storages)
    requires SlotsWith(files, k) != {} && n == Newest(SlotsWith(files, k))
    ensures Content(st, k, n) == Some(files[n].records[OffsetOf(files[n], k)].account)
  {
    NewestIndexHas(files, k, n);
    RebuiltPoints(files, st.storages, k, n);
    assert SettledTo(files, n, Some(st.storages[n]));
  }

  lemma RebuiltIndexLoad(st: State, files: StorageMap, k: Pubkey)
    requires st.index == NewestIndex(files) && st.shrinking == map[] && AllSettled(files, st.storages)
    ensures Loadable(LoadFromIndex(st, [], k)) == FileView(files, k)
  {
    forall s: Slot
      ensures Has(st.index, k, s) <==> SlotsWith(files, k) != {} && s == Newest(SlotsWith(files, k))
    {
      NewestIndexHas(files, k, s);
    }
    if SlotsWith(files, k) == {} {
      NoEntryLoad(st, k);
    } else {
      OneEntryLoad(st, k, Newest(SlotsWith(files, k)));
      RebuiltContent(st, files, k, Newest(SlotsWith(files, k)));
    }
  }

  /** Key `k` loads the same account from both stores. */
  ghost predicate SameAccount(st: State, st': State, k: Pubkey) {
    Load(st, [], k) == Load(st', [], k)
  }

  lemma RestartShows(st: State, files: StorageMap, st': State, k: Pubkey)
    requires AtRest(st) && FilesOf(st, files) && StartedFrom(files, st')
    ensures SameAccount(st, st', k)
  {
    StartedShows(files, st', k);
    FilesShowLiveView(st, files, k);
  }

  /** Stop and restart: from the files of a store at rest the same accounts come back, and the
      new store is sound. */
  lemma RestartRoundTrip(st: State, files: StorageMap, st': State)
    requires AtRest(st) && FilesOf(st, files) && StartedFrom(files, st')
    ensures Inv(st')
    ensures forall k :: SameAccount(st, st', k)
  {
    forall k
      ensures SameAccount(st, st', k)
    {
      RestartShows(st, files, st', k);
    }
    StartedInv(files, st');
  }
}
