/** A snapshot of slot `v` is begun when all roots up to `v` are flushed and none after it. Its
    storages are archived later, one by one, while flush, clean and shrink go on; records marked
    at or before `v` are left out. What is archived shows exactly what a reader at `v` saw when the
    snapshot was begun. */
module Snapshots {
  import opened Types
  import opened AncestorSets
  import opened Storages
  import opened PrimaryIndex
  import opened Store
  import opened Invariant
  import opened Machine
  import opened Runs
  import opened Loads
  import opened Restart
  import opened Rebuild
  import opened Marks
  import opened Aging
  import opened Archive

  ghost predicate Ready(st: State, v: Slot) {
    && Calm(st) && MarksFlushed(st) && v in st.roots
    && (forall r :: r in st.roots ==> (r in st.unflushed <==> r > v))
  }

  function FoundIn(st: State, v: Slot, s: Slot): Found
    requires s in st.storages
  {
    Found(st.index, v, s, st.storages[s])
  }

  /** The offsets an archive as of `v` keeps: those not marked at or before `v`, without `left`. */
  function KeptAt(t: Storage, v: Slot, left: set<Offset>): set<Offset> {
    set o | o in AllOffsets(t.records) && o !in left && !(o in t.obsolete && t.obsolete[o] <= v)
  }

  /** `file` holds exactly those records of `t`. */
  ghost predicate Archived(t: Storage, v: Slot, left: set<Offset>, file: Storage) {
    && RecordsFrom(t, KeptAt(t, v, left), file, AliveOffsets(file))
    && RecordsFrom(file, AliveOffsets(file), t, KeptAt(t, v, left))
  }

  /** `t` is the storage of slot `s` at some later time, and `file` is archived from it; tombstones
      known when the snapshot was begun may be left out. */
  ghost predicate ArchivedAs(st: State, v: Slot, s: Slot, t: Storage, left: set<Offset>, file: Storage)
    requires s in st.storages
  {
    Aged(FoundIn(st, v, s), t) && left <= st.storages[s].tombstones && Archived(t, v, left, file)
  }

  ghost predicate ArchivedFrom(st: State, v: Slot, s: Slot, file: Storage)
    requires s in st.storages
  {
    exists t, left :: ArchivedAs(st, v, s, t, left, file)
  }

  ghost predicate SnapshotOf(st: State, v: Slot, files: StorageMap) {
    files.Keys == st.storages.Keys && forall s :: s in files ==> ArchivedFrom(st, v, s, files[s])
  }

  /** All that is stored is at or below the snapshot slot. */
  lemma StoredBelow(st: State, v: Slot, s: Slot)
    requires Ready(st, v) && s in st.storages
    ensures s <= v
  {
  }

  lemma MarkBelow(st: State, v: Slot, s: Slot, o: Offset)
    requires Ready(st, v) && s in st.storages && o in st.storages[s].obsolete
    ensures st.storages[s].obsolete[o] <= v
  {
    assert FlushedRoot(st.roots, st.unflushed, st.phase, st.storages[s].obsolete[o]);
  }

  /** Nothing is archived that was obsolete when the snapshot was begun. */
  lemma NothingStale(st: State, v: Slot, s: Slot, t: Storage, left: set<Offset>, o: Offset)
    requires Ready(st, v) && s in st.storages && Aged(FoundIn(st, v, s), t) && o in KeptAt(t, v, left)
    ensures o in AliveOffsets(st.storages[s]) + st.storages[s].tombstones
  {
    if o in st.storages[s].obsolete {
      MarkBelow(st, v, s, o);
    }
  }

  /** The record of a key's newest entry is archived. */
  lemma NewestArchived(st: State, v: Slot, k: Pubkey, m: Slot, t: Storage, left: set<Offset>)
    requires Ready(st, v) && NewestEntry(st.index, k, m) && m in st.storages
    requires Aged(FoundIn(st, v, m), t) && left <= st.storages[m].tombstones
    ensures At(st.index, k, m).offset in KeptAt(t, v, left)
    ensures At(st.index, k, m).offset < |t.records| && t.records[At(st.index, k, m).offset].pubkey == k
  {
    assert Points(st.index, st.storages, st.shrinking, k, m);
  }

  lemma NewestFiled(st: State, v: Slot, files: StorageMap, k: Pubkey, m: Slot)
    requires Ready(st, v) && SnapshotOf(st, v, files) && NewestEntry(st.index, k, m)
    ensures m in SlotsWith(files, k)
  {
    assert m in st.storages;
    var t, left :| ArchivedAs(st, v, m, t, left, files[m]);
    NewestArchived(st, v, k, m, t, left);
    var o := At(st.index, k, m).offset;
    assert Contains(files[m], AliveOffsets(files[m]), t.records[o]);
    var i: Offset :| i in AliveOffsets(files[m]) && i < |files[m].records| && files[m].records[i] == t.records[o];
    assert AliveAt(files[m], i, k);
  }

  lemma OnlyKept(st: State, v: Slot, files: StorageMap, s: Slot)
    requires Ready(st, v) && SnapshotOf(st, v, files) && s in files
    ensures RecordsFrom(files[s], AliveOffsets(files[s]), st.storages[s], AliveOffsets(st.storages[s]) + st.storages[s].tombstones)
  {
    var was := st.storages[s];
    var t, left :| ArchivedAs(st, v, s, t, left, files[s]);
    forall i: Offset | i in AliveOffsets(files[s]) && i < |files[s].records|
      ensures Contains(was, AliveOffsets(was) + was.tombstones, files[s].records[i])
    {
      assert Contains(t, KeptAt(t, v, left), files[s].records[i]);
      var o: Offset :| o in KeptAt(t, v, left) && o < |t.records| && t.records[o] == files[s].records[i];
      NothingStale(st, v, s, t, left, o);
    }
  }

  lemma SnapshotFiles(st: State, v: Slot, files: StorageMap)
    requires Ready(st, v) && SnapshotOf(st, v, files)
    ensures FilesFor(st, files)
  {
    forall s | s in files
      ensures RecordsFrom(files[s], AliveOffsets(files[s]), st.storages[s], AliveOffsets(st.storages[s]) + st.storages[s].tombstones)
    {
      OnlyKept(st, v, files, s);
    }
    forall k: Pubkey, m: Slot | NewestEntry(st.index, k, m)
      ensures m in SlotsWith(files, k)
    {
      NewestFiled(st, v, files, k, m);
    }
  }

  // ---------------------------------------------------------------------------------------
  // The reader at the snapshot slot
  // ---------------------------------------------------------------------------------------

  lemma NothingCached(st: State, v: Slot, k: Pubkey)
    requires Ready(st, v)
    ensures CacheSlots(st, [v], k) == {}
  {
    forall s
      ensures !CacheSees(st, [v], k, s)
    {
    }
  }

  lemma SeesAllStored(st: State, v: Slot, k: Pubkey)
    requires Ready(st, v)
    ensures IndexSlots(st, [v], k) == IndexSlots(st, [], k)
  {
    forall s: Slot
      ensures s in IndexSlots(st, [v], k) <==> s in IndexSlots(st, [], k)
    {
      if Has(st.index, k, s) {
        StoredBelow(st, v, s);
      }
    }
  }

  lemma ReaderAt(st: State, v: Slot, k: Pubkey)
    requires Ready(st, v)
    ensures Load(st, [v], k) == Loadable(LoadFromIndex(st, [], k))
  {
    SeesAllStored(st, v, k);
    NothingCached(st, v, k);
    LoadIsNaive(st, [v], k);
    IndexOnly(st, [v], k);
  }

  /** The snapshot shows what a reader at its slot saw. */
  lemma SnapshotShowsView(st: State, v: Slot, files: StorageMap, k: Pubkey)
    requires Ready(st, v) && SnapshotOf(st, v, files)
    ensures FileView(files, k) == Load(st, [v], k)
  {
    SnapshotFiles(st, v, files);
    FilesShowIndex(st, files, k);
    ReaderAt(st, v, k);
  }

  /** A validator started from the snapshot shows it too. */
  lemma StartFromSnapshot(st: State, v: Slot, files: StorageMap, st': State, k: Pubkey)
    requires Ready(st, v) && SnapshotOf(st, v, files) && StartedFrom(files, st')
    ensures Load(st', [], k) == Load(st, [v], k)
  {
    SnapshotShowsView(st, v, files, k);
    StartedShows(files, st', k);
  }

  // ---------------------------------------------------------------------------------------
  // Where the files of a snapshot come from
  // ---------------------------------------------------------------------------------------

  /** In a reachable state without background work, a snapshot can be begun. */
  lemma ReachableReady(st: State, v: Slot)
    requires Later(Next, Empty(), st) && st.phase.Idle? && v in st.roots
    requires forall r :: r in st.roots ==> (r in st.unflushed <==> r > v)
    ensures Ready(st, v)
  {
    ReachableInv(st);
    ReachableMarks(st);
  }

  lemma ReadyAges(st: State, v: Slot, s: Slot)
    requires Ready(st, v) && s in st.storages
    ensures Ages(FoundIn(st, v, s), st)
  {
    StoredBelow(st, v, s);
  }

  /** Whatever has happened since, a storage that is still in place can be archived. */
  lemma ArchivedLater(st: State, v: Slot, s: Slot, st': State, left: set<Offset>, file: Storage)
    requires Ready(st, v) && s in st.storages && Later(Next, st, st')
    requires s in st'.storages && st'.storages[s].id == st.storages[s].id
    requires left <= st.storages[s].tombstones && Archived(st'.storages[s], v, left, file)
    ensures ArchivedFrom(st, v, s, file)
  {
    ReadyAges(st, v, s);
    RunAges(FoundIn(st, v, s), st, st');
    assert ArchivedAs(st, v, s, st'.storages[s], left, file);
  }

  /** So can one that has just died: what was recorded last is not held against it. */
  lemma LastMarksAged(x: Found, storages: StorageMap, p: Reclaims, offsets: set<Offset>, mark: Slot)
    requires StorageAged(x, storages, p) && Here(x, storages) && offsets <= AliveOffsets(storages[x.s])
    requires forall o :: o in offsets ==> (x.s, o) in p && p[(x.s, o)] == mark
    ensures Aged(x, RecordReclaims(storages[x.s], x.s, offsets, mark))
  {
  }

  /** The tombstones an archive leaves out. */
  function LeftOut(t: Storage, includeTombstones: bool): set<Offset> {
    if includeTombstones then {} else t.tombstones
  }

  lemma KeptIff(t: Storage, v: Slot, includeTombstones: bool, o: Offset)
    ensures o in KeptAt(t, v, LeftOut(t, includeTombstones)) <==>
            o < |t.records| && o !in ExcludedOffsets(t, Some(v), includeTombstones)
  {
  }

  lemma KeptContained(t: Storage, v: Slot, includeTombstones: bool, rec: Record)
    requires rec in Kept(FileFrom(t, 0), ExcludedOffsets(t, Some(v), includeTombstones))
    ensures Contains(t, KeptAt(t, v, LeftOut(t, includeTombstones)), rec)
  {
    var excluded := ExcludedOffsets(t, Some(v), includeTombstones);
    StorageKept(t, excluded, rec);
    var i: Offset :| i < |t.records| && i !in excluded && t.records[i] == rec;
    KeptIff(t, v, includeTombstones, i);
  }

  /** The archive writer's output is such a file. */
  lemma ArchiveAsOf(t: Storage, file: Storage, v: Slot, includeTombstones: bool)
    requires file.records == Kept(FileFrom(t, 0), ExcludedOffsets(t, Some(v), includeTombstones))
    requires AliveOffsets(file) == AllOffsets(file.records)
    ensures Archived(t, v, LeftOut(t, includeTombstones), file)
  {
    forall i: Offset | i in KeptAt(t, v, LeftOut(t, includeTombstones)) && i < |t.records|
      ensures Contains(file, AliveOffsets(file), t.records[i])
    {
      KeptIff(t, v, includeTombstones, i);
      AliveListed(t, file, ExcludedOffsets(t, Some(v), includeTombstones), i);
    }
    forall j: Offset | j in AliveOffsets(file) && j < |file.records|
      ensures Contains(t, KeptAt(t, v, LeftOut(t, includeTombstones)), file.records[j])
    {
      KeptContained(t, v, includeTombstones, file.records[j]);
    }
  }
}
