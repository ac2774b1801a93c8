/** A restart rebuilds the index from the storages alone. Whatever obsolete records and
    tombstones the files still contain, the rebuilt store shows the same accounts. */
module Restart {
  import opened Types
  import opened Storages
  import opened PrimaryIndex
  import opened Store
  import opened Invariant
  import opened Loads

  // ---------------------------------------------------------------------------------------
  // What the files say
  // ---------------------------------------------------------------------------------------

  /** Offset `i` of `t` is an alive record of `k`. */
  predicate AliveAt(t: Storage, i: Offset, k: Pubkey) {
    i in AliveOffsets(t) && i < |t.records| && t.records[i].pubkey == k
  }

  ghost predicate Holds(t: Storage, k: Pubkey) {
    exists i: Offset :: AliveAt(t, i, k)
  }

  ghost function OffsetOf(t: Storage, k: Pubkey): (i: Offset)
    requires Holds(t, k)
    ensures AliveAt(t, i, k)
  {
    var i: Offset :| AliveAt(t, i, k);
    i
  }

  ghost function InfoOf(t: Storage, k: Pubkey): Info
    requires Holds(t, k)
  {
    Info(t.id, OffsetOf(t, k), IsZero(t.records[OffsetOf(t, k)].account))
  }

  /** The slots of `files` with an alive record of `k`. */
  ghost function SlotsWith(files: StorageMap, k: Pubkey): set<Slot> {
    set s | s in files.Keys && Holds(files[s], k)
  }

  ghost function KeysIn(files: StorageMap): set<Pubkey> {
    set s, i | s in files.Keys && i in AliveOffsets(files[s]) && i < |files[s].records| :: files[s].records[i].pubkey
  }

  lemma KeysInIff(files: StorageMap, k: Pubkey)
    ensures k in KeysIn(files) <==> SlotsWith(files, k) != {}
  {
    if k in KeysIn(files) {
      var s, i :| s in files.Keys && i in AliveOffsets(files[s]) && i < |files[s].records| && files[s].records[i].pubkey == k;
      assert AliveAt(files[s], i, k);
      assert s in SlotsWith(files, k);
    }
    if SlotsWith(files, k) != {} {
      var s :| s in SlotsWith(files, k);
      var i: Offset :| AliveAt(files[s], i, k);
      assert files[s].records[i].pubkey in KeysIn(files);
    }
  }

  /** The view of `k` that the files give: its record in the newest slot. */
  ghost function FileView(files: StorageMap, k: Pubkey): Option<Account> {
    if SlotsWith(files, k) == {} then None
    else
      var t := files[Newest(SlotsWith(files, k))];
      Loadable(Some(t.records[OffsetOf(t, k)].account))
  }

  // ---------------------------------------------------------------------------------------
  // Files of a store at rest
  // ---------------------------------------------------------------------------------------

  /** `file` holds all alive records of `t`, and of the others at most tombstones. */
  ghost predicate FileOf(t: Storage, file: Storage) {
    && RecordsFrom(t, AliveOffsets(t), file, AliveOffsets(file))
    && RecordsFrom(file, AliveOffsets(file), t, AliveOffsets(t) + t.tombstones)
  }

  /** `files` are what a store at rest leaves behind. Slots without alive records may be missing. */
  ghost predicate FilesOf(st: State, files: StorageMap) {
    && files.Keys <= st.storages.Keys
    && (forall s :: s in st.storages && s !in files ==> AliveOffsets(st.storages[s]) == {})
    && (forall s :: s in files ==> FileOf(st.storages[s], files[s]))
  }

  /** No background work is under way. */
  ghost predicate Calm(st: State) {
    Inv(st) && st.phase.Idle?
  }

  /** Nor is any root waiting to be flushed. */
  ghost predicate AtRest(st: State) {
    Calm(st) && st.unflushed == {}
  }

  /** `m` is the newest entry of `k`. */
  ghost predicate NewestEntry(ix: Index, k: Pubkey, m: Slot) {
    Has(ix, k, m) && forall t: Slot :: Has(ix, k, t) ==> t <= m
  }

  /** `files` have nothing but alive records and tombstones of the storages, and for every key
      the record its newest entry points at is among them. */
  ghost predicate FilesFor(st: State, files: StorageMap) {
    && files.Keys <= st.storages.Keys
    && (forall s :: s in files ==>
          RecordsFrom(files[s], AliveOffsets(files[s]), st.storages[s], AliveOffsets(st.storages[s]) + st.storages[s].tombstones))
    && (forall k: Pubkey, m: Slot :: NewestEntry(st.index, k, m) ==> m in SlotsWith(files, k))
  }

  /** When calm the index lists exactly the alive records. */
  lemma ListedIffAlive(st: State, k: Pubkey, s: Slot)
    requires Calm(st) && s in st.storages
    ensures Has(st.index, k, s) <==> Holds(st.storages[s], k)
  {
    if Has(st.index, k, s) {
      assert Points(st.index, st.storages, map[], k, s);
      assert AliveAt(st.storages[s], At(st.index, k, s).offset, k);
    }
    if Holds(st.storages[s], k) {
      var i: Offset :| AliveAt(st.storages[s], i, k);
      assert Rec(st.storages, s, i);
      assert ClaimOk(st.index, st.storages, st.phase, s, i);
    }
  }

  lemma ListedInFile(st: State, files: StorageMap, k: Pubkey, s: Slot)
    requires Calm(st) && FilesOf(st, files)
    requires Has(st.index, k, s)
    ensures s in SlotsWith(files, k)
  {
    var t := st.storages[s];
    assert Points(st.index, st.storages, map[], k, s);
    var o := At(st.index, k, s).offset;
    assert Contains(files[s], AliveOffsets(files[s]), t.records[o]);
    var i: Offset :| i in AliveOffsets(files[s]) && i < |files[s].records| && files[s].records[i] == t.records[o];
    assert AliveAt(files[s], i, k);
  }

  /** `account` is what the index shows for `k` at `s`, or a deletion older than all it shows. */
  ghost predicate Shown(st: State, k: Pubkey, s: Slot, account: Account) {
    || (Has(st.index, k, s) && Content(st, k, s) == Some(account))
    || (IsZero(account) && forall t: Slot :: Has(st.index, k, t) ==> s < t)
  }

  /** The alive record of a key is the one its entry points at. */
  lemma AliveShown(st: State, s: Slot, j: Offset)
    requires st.phase.Idle? && st.shrinking == map[]
    requires Resolved(st.index, st.storages, map[]) && Partitioned(st.index, st.storages, st.phase)
    requires Rec(st.storages, s, j) && j in AliveOffsets(st.storages[s])
    requires DistinctKeys(st.storages[s].records)
    ensures Has(st.index, KeyAt(st.storages, s, j), s)
    ensures Content(st, KeyAt(st.storages, s, j), s) == Some(st.storages[s].records[j].account)
  {
    var k := KeyAt(st.storages, s, j);
    assert ClaimOk(st.index, st.storages, st.phase, s, j);
    assert Points(st.index, st.storages, map[], k, s);
    assert At(st.index, k, s).offset == j;
  }

  lemma KeptShown(st: State, s: Slot, j: Offset)
    requires Calm(st) && Rec(st.storages, s, j)
    requires j in AliveOffsets(st.storages[s]) + st.storages[s].tombstones
    ensures Shown(st, KeyAt(st.storages, s, j), s, st.storages[s].records[j].account)
  {
    if j in AliveOffsets(st.storages[s]) {
      AliveShown(st, s, j);
    }
  }

  lemma FileRecord(st: State, files: StorageMap, k: Pubkey, s: Slot, i: Offset)
    requires Calm(st) && FilesFor(st, files)
    requires s in files && AliveAt(files[s], i, k)
    ensures Shown(st, k, s, files[s].records[i].account)
  {
    var t := st.storages[s];
    assert Contains(t, AliveOffsets(t) + t.tombstones, files[s].records[i]);
    var j: Offset :| j in AliveOffsets(t) + t.tombstones && j < |t.records| && t.records[j] == files[s].records[i];
    KeptShown(st, s, j);
  }

  /** The files' newest record of a key the index knows is the indexed one. */
  lemma NewestInFiles(st: State, files: StorageMap, k: Pubkey, m: Slot)
    requires Calm(st) && FilesFor(st, files)
    requires NewestEntry(st.index, k, m)
    ensures m in SlotsWith(files, k) && Newest(SlotsWith(files, k)) == m
  {
    forall s | s in SlotsWith(files, k)
      ensures s <= m
    {
      FileSlot(st, files, k, m, s);
    }
    NewestUnique(SlotsWith(files, k), m);
  }

  lemma FileSlot(st: State, files: StorageMap, k: Pubkey, m: Slot, s: Slot)
    requires Calm(st) && FilesFor(st, files)
    requires NewestEntry(st.index, k, m)
    requires s in files && Holds(files[s], k)
    ensures s <= m
  {
    FileRecord(st, files, k, s, OffsetOf(files[s], k));
  }

  lemma NoCacheAtRest(st: State, k: Pubkey)
    requires st.unflushed == {}
    ensures CacheSlots(st, [], k) == {}
  {
  }

  lemma LiveView(st: State, k: Pubkey)
    requires AtRest(st)
    ensures Load(st, [], k) == Loadable(LoadFromIndex(st, [], k))
  {
    NoCacheAtRest(st, k);
    LoadIsNaive(st, [], k);
    IndexOnly(st, [], k);
  }

  lemma IndexedView(st: State, files: StorageMap, k: Pubkey)
    requires Calm(st) && FilesFor(st, files)
    requires IndexSlots(st, [], k) != {}
    ensures FileView(files, k) == Loadable(LoadFromIndex(st, [], k))
  {
    var m := Newest(IndexSlots(st, [], k));
    assert Has(st.index, k, m);
    forall t: Slot | Has(st.index, k, t)
      ensures t <= m
    {
      assert t in IndexSlots(st, [], k);
    }
    NewestInFiles(st, files, k, m);
    FileRecord(st, files, k, m, OffsetOf(files[m], k));
  }

  lemma UnindexedView(st: State, files: StorageMap, k: Pubkey)
    requires Calm(st) && FilesFor(st, files)
    requires forall s: Slot :: !Has(st.index, k, s)
    ensures FileView(files, k) == None
  {
    if SlotsWith(files, k) != {} {
      var s := Newest(SlotsWith(files, k));
      FileRecord(st, files, k, s, OffsetOf(files[s], k));
    }
  }

  lemma NoIndexSlots(st: State, k: Pubkey)
    requires IndexSlots(st, [], k) == {}
    ensures forall s: Slot :: !Has(st.index, k, s)
  {
    forall s: Slot
      ensures !Has(st.index, k, s)
    {
      assert s !in IndexSlots(st, [], k);
    }
  }

  /** Reading such files newest slot first gives what the index gives. */
  lemma FilesShowIndex(st: State, files: StorageMap, k: Pubkey)
    requires Calm(st) && FilesFor(st, files)
    ensures FileView(files, k) == Loadable(LoadFromIndex(st, [], k))
  {
    if IndexSlots(st, [], k) == {} {
      NoIndexSlots(st, k);
      UnindexedView(st, files, k);
    } else {
      IndexedView(st, files, k);
    }
  }

  lemma LeftBehind(st: State, files: StorageMap)
    requires Calm(st) && FilesOf(st, files)
    ensures FilesFor(st, files)
  {
    forall k: Pubkey, m: Slot | NewestEntry(st.index, k, m)
      ensures m in SlotsWith(files, k)
    {
      ListedInFile(st, files, k, m);
    }
  }

  /** The round trip: reading the files newest slot first gives exactly what the live store
      showed, with or without the tombstones. */
  lemma FilesShowLiveView(st: State, files: StorageMap, k: Pubkey)
    requires AtRest(st) && FilesOf(st, files)
    ensures FileView(files, k) == Load(st, [], k)
  {
    LeftBehind(st, files);
    LiveView(st, k);
    FilesShowIndex(st, files, k);
  }

  /** Leaving every tombstone out or keeping every tombstone are both allowed. */
  lemma ExtremeFiles(t: Storage)
    ensures FileOf(t, t)
    ensures FileOf(t, t.(tombstones := {}))
  {
    forall i: Offset | i in AliveOffsets(t) && i < |t.records|
      ensures Contains(t, AliveOffsets(t), t.records[i])
      ensures Contains(t.(tombstones := {}), AliveOffsets(t.(tombstones := {})), t.records[i])
    {
      assert t.records[i] == t.records[i];
    }
    var u := t.(tombstones := {});
    forall i: Offset | i in AliveOffsets(u) && i < |u.records|
      ensures Contains(t, AliveOffsets(t) + t.tombstones, u.records[i])
    {
    }
  }
}
