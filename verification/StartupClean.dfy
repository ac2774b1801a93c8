/** The startup as a whole: index all records, take the older entries of duplicate keys out of
    the index bin by bin, and mark their records obsolete. For any split of the storages among
    threads and any split of the keys into bins this makes the store the restart theorem is
    about. */
module StartupClean {
  import opened Types
  import opened Storages
  import opened PrimaryIndex
  import opened Store
  import opened Invariant
  import opened Restart
  import opened Rebuild
  import opened Sums
  import opened Startup
  import opened Duplicates
  import opened Lifecycle
  import Reclaim = ReclaimProofs

  // ---------------------------------------------------------------------------------------
  // The books of a loaded storage
  // ---------------------------------------------------------------------------------------

  /** The offsets below `n` that are not marked obsolete. */
  ghost function AliveBelow(obsolete: map<Offset, Slot>, n: nat): set<Offset> {
    Below(n) - obsolete.Keys
  }

  lemma BelowNext(dead: set<Offset>, n: nat)
    ensures Below(n + 1) - dead == if n in dead then Below(n) - dead else Below(n) - dead + {n}
  {
  }

  lemma OneMoreSize(a: set<Offset>, x: Offset)
    requires x !in a
    ensures |a + {x}| == |a| + 1
  {
  }

  lemma AliveBelowNext(obsolete: map<Offset, Slot>, n: nat)
    ensures |AliveBelow(obsolete, n + 1)| == |AliveBelow(obsolete, n)| + if n in obsolete then 0 else 1
  {
    BelowNext(obsolete.Keys, n);
    if n !in obsolete {
      OneMoreSize(AliveBelow(obsolete, n), n);
    }
  }

  lemma LoadedBooks(t: Storage)
    requires t.obsolete.Keys <= AllOffsets(t.records)
    requires t.aliveCount == |AliveBelow(t.obsolete, |t.records|)|
    requires t.aliveBytes == Bytes(t.records, AllOffsets(t.records) - t.obsolete.Keys)
    requires t.storedBytes == t.aliveBytes + Bytes(t.records, t.obsolete.Keys)
    ensures BooksOk(t)
  {
    var all, dead := AllOffsets(t.records), t.obsolete.Keys;
    assert all - dead + dead == all;
    BytesAdd(t.records, all - dead, dead, |t.records|);
    assert |all - dead + dead| == |all - dead| + |dead|;
  }

  /** The counters after the first `n` records. */
  ghost predicate CountedTo(records: seq<Record>, obsolete: map<Offset, Slot>, n: nat, count: nat, alive: nat, dead: nat)
    requires n <= |records|
  {
    && count == |AliveBelow(obsolete, n)|
    && alive == BytesUpTo(records, AllOffsets(records) - obsolete.Keys, n)
    && dead == BytesUpTo(records, obsolete.Keys, n)
  }

  lemma BytesNext(records: seq<Record>, offsets: set<Offset>, n: nat, size: nat)
    requires n < |records| && size == StoredSize(records[n].account.dataLen)
    ensures BytesUpTo(records, offsets, n + 1) == BytesUpTo(records, offsets, n) + if n in offsets then size else 0
  {
  }

  lemma CountedNext(records: seq<Record>, obsolete: map<Offset, Slot>, n: nat, count: nat, alive: nat, dead: nat, size: nat)
    requires n < |records| && CountedTo(records, obsolete, n, count, alive, dead)
    requires size == StoredSize(records[n].account.dataLen)
    ensures if n in obsolete then CountedTo(records, obsolete, n + 1, count, alive, dead + size)
            else CountedTo(records, obsolete, n + 1, count + 1, alive + size, dead)
  {
    AliveBelowNext(obsolete, n);
    BytesNext(records, AllOffsets(records) - obsolete.Keys, n, size);
    BytesNext(records, obsolete.Keys, n, size);
  }

  lemma NothingCounted(records: seq<Record>, obsolete: map<Offset, Slot>)
    ensures CountedTo(records, obsolete, 0, 0, 0, 0)
  {
    assert AliveBelow(obsolete, 0) == {};
  }

  /** The counters of a storage opened from a file and its obsolete marks, as the scan of
      `generate_index_for_slot` sets them. */
  method CountStorage(id: StoreId, records: seq<Record>, obsolete: map<Offset, Slot>) returns (t: Storage)
    requires RecordsOk(records) && obsolete.Keys <= AllOffsets(records)
    ensures StorageOk(t) && t.id == id && t.records == records && t.obsolete == obsolete && t.tombstones == {}
  {
    var count, alive, dead := 0, 0, 0;
    NothingCounted(records, obsolete);
    for n := 0 to |records|
      invariant CountedTo(records, obsolete, n, count, alive, dead)
    {
      var size := StoredSize(records[n].account.dataLen);
      CountedNext(records, obsolete, n, count, alive, dead, size);
      if n in obsolete {
        dead := dead + size;
      } else {
        count, alive := count + 1, alive + size;
      }
    }
    t := Storage(id, records, count, alive, alive + dead, {}, obsolete);
    LoadedBooks(t);
  }

  // ---------------------------------------------------------------------------------------
  // The index
  // ---------------------------------------------------------------------------------------

  /** The older entries of the keys `done` are out of the index, everything else is as before. */
  ghost predicate CleanedFor(ix: Index, ix': Index, done: set<Pubkey>) {
    && ix'.Keys == ix.Keys
    && (forall k :: k in ix && k !in done ==> ix'[k] == ix[k])
    && (forall k :: k in ix && k in done && ix[k] != map[] ==> ix'[k] == map[NewestIn(ix[k]) := ix[k][NewestIn(ix[k])]])
  }

  /** `clean_slot_list_on_startup`: the newest entry stays, all others are reclaimed. */
  method CleanSlotList(l: SlotList, mark: Slot) returns (l': SlotList, reclaims: Reclaims)
    requires l != map[]
    ensures l' == map[NewestIn(l) := l[NewestIn(l)]]
    ensures reclaims.Keys == OlderIn(l, l.Keys) && forall p :: p in reclaims ==> reclaims[p] == mark
  {
    var max := FindMax(l);
    l' := map s | s in l && s >= max :: l[s];
    reclaims := map s | s in l && s < max :: (s, l[s].offset) := mark;
  }

  /** What has been cleaned of a bin: the index, and the reclaims so far. */
  ghost predicate BinCleaned(ix: Index, ix': Index, done: set<Pubkey>, reclaims: Reclaims, mark: Slot) {
    && CleanedFor(ix, ix', done)
    && reclaims.Keys == OlderOf(ix, done)
    && forall p :: p in reclaims ==> reclaims[p] == mark
  }

  lemma NoneCleaned(ix: Index, mark: Slot)
    ensures BinCleaned(ix, ix, {}, map[], mark)
  {
  }

  lemma CleanedForNext(ix: Index, ix': Index, done: set<Pubkey>, k: Pubkey, l: SlotList)
    requires CleanedFor(ix, ix', done) && k in ix && ix[k] != map[]
    requires l == map[NewestIn(ix[k]) := ix[k][NewestIn(ix[k])]]
    ensures CleanedFor(ix, ix'[k := l], done + {k})
  {
  }

  lemma CleanedNext(ix: Index, ix': Index, done: set<Pubkey>, reclaims: Reclaims, mark: Slot, k: Pubkey, l: SlotList, older: Reclaims)
    requires BinCleaned(ix, ix', done, reclaims, mark) && k in ix && ix[k] != map[]
    requires l == map[NewestIn(ix[k]) := ix[k][NewestIn(ix[k])]]
    requires older.Keys == OlderIn(ix[k], ix[k].Keys) && forall p :: p in older ==> older[p] == mark
    ensures BinCleaned(ix, ix'[k := l], done + {k}, reclaims + older, mark)
  {
    CleanedForNext(ix, ix', done, k, l);
    OlderOfNext(ix, done, k);
    assert (reclaims + older).Keys == reclaims.Keys + older.Keys;
  }

  method CleanKeyOnce(ghost ix: Index, ix': Index, ghost done: set<Pubkey>, reclaims: Reclaims, mark: Slot, k: Pubkey)
    returns (ix'': Index, reclaims': Reclaims)
    requires BinCleaned(ix, ix', done, reclaims, mark) && k in ix && k !in done && ix[k] != map[]
    ensures BinCleaned(ix, ix'', done + {k}, reclaims', mark)
  {
    var l, older := CleanSlotList(ix'[k], mark);
    CleanedNext(ix, ix', done, reclaims, mark, k, l, older);
    return ix'[k := l], reclaims + older;
  }

  /** `clean_rooted_entries_by_bin`. */
  method CleanBin(ix: Index, bin: set<Pubkey>, mark: Slot) returns (ix': Index, reclaims: Reclaims)
    requires NoEmptyLists(ix) && bin <= ix.Keys
    ensures BinCleaned(ix, ix', bin, reclaims, mark)
  {
    ix', reclaims := ix, map[];
    var todo := bin;
    assert bin - todo == {};
    NoneCleaned(ix, mark);
    while todo != {}
      invariant todo <= bin && BinCleaned(ix, ix', bin - todo, reclaims, mark)
      decreases |todo|
    {
      var k :| k in todo;
      OneMoreKey(bin, todo, k);
      ix', reclaims := CleanKeyOnce(ix, ix', bin - todo, reclaims, mark, k);
      todo := todo - {k};
    }
    assert bin - todo == bin;
  }

  lemma OneMoreKey(bin: set<Pubkey>, todo: set<Pubkey>, k: Pubkey)
    requires k in todo && todo <= bin
    ensures bin - (todo - {k}) == bin - todo + {k}
  {
  }

  lemma OlderOfNext(ix: Index, done: set<Pubkey>, k: Pubkey)
    requires k in ix && ix[k] != map[]
    ensures OlderOf(ix, done + {k}) == OlderOf(ix, done) + OlderIn(ix[k], ix[k].Keys)
  {
    forall p
      ensures p in OlderOf(ix, done + {k}) <==> p in OlderOf(ix, done) || p in OlderIn(ix[k], ix[k].Keys)
    {
    }
  }

  // ---------------------------------------------------------------------------------------
  // The storages
  // ---------------------------------------------------------------------------------------

  /** The storage `t` of `s` with the records at `offsets` marked. */
  ghost function MarkedAt(t: Storage, s: Slot, offsets: set<Offset>, mark: Slot, canPurge: bool): Option<Storage> {
    if offsets == {} then Some(t) else HandleGroup(t, s, offsets, mark, canPurge)
  }

  function StorageAt(storages: StorageMap, s: Slot): Option<Storage> {
    if s in storages then Some(storages[s]) else None
  }

  /** `r` is what is left of the file of `s` with the superseded records at `offsets` marked. */
  ghost predicate MarkedOk(files: StorageMap, s: Slot, r: Option<Storage>, offsets: set<Offset>, mark: Slot, canPurge: bool) {
    s in files && offsets <= Older(files, s) && r == MarkedAt(files[s], s, offsets, mark, canPurge)
  }

  /** What is left of each storage, and which offsets of it are marked, is as `p` says. */
  ghost predicate Each(storages: StorageMap, marked: map<Slot, set<Offset>>, p: (Slot, Option<Storage>, set<Offset>) -> bool) {
    && (forall s :: s in storages ==> s in marked)
    && (forall s {:trigger marked[s]} :: s in marked ==> p(s, StorageAt(storages, s), marked[s]))
  }

  lemma EachNext(storages: StorageMap, marked: map<Slot, set<Offset>>, p: (Slot, Option<Storage>, set<Offset>) -> bool,
                 s: Slot, r: Option<Storage>, offsets: set<Offset>)
    requires Each(storages, marked, p) && s in marked && p(s, r, offsets)
    ensures Each(PutBack(storages, s, r), marked[s := offsets], p)
  {
    forall t | t in marked && t != s
      ensures StorageAt(PutBack(storages, s, r), t) == StorageAt(storages, t)
    {
    }
  }

  /** Of each file some superseded records have been marked. */
  ghost predicate MarkedSome(files: StorageMap, storages: StorageMap, marked: map<Slot, set<Offset>>,
                             mark: Slot, snapshotSlot: Option<Slot>) {
    && marked.Keys == files.Keys
    && Each(storages, marked, (s: Slot, r: Option<Storage>, o: set<Offset>) => MarkedOk(files, s, r, o, mark, MayPurge(snapshotSlot, s)))
  }

  /** The files are sound, and none is newer than `mark`. */
  ghost predicate SoundUpTo(files: StorageMap, mark: Slot) {
    && (forall s {:trigger StorageOk(files[s])} :: s in files ==> StorageOk(files[s]))
    && (forall s {:trigger StorageOk(files[s])} :: s in files ==> s <= mark)
  }

  lemma CanMarkOlder(files: StorageMap, s: Slot, offsets: set<Offset>, mark: Slot)
    requires s in files && SoundUpTo(files, mark) && offsets <= Older(files, s) && offsets != {}
    ensures Reclaim.CanMark(files[s], s, offsets, mark)
  {
    var i :| i in offsets;
    assert i in Older(files, s);
    var n := Newest(SlotsWith(files, files[s].records[i].pubkey));
    assert n in files && StorageOk(files[n]) && StorageOk(files[s]);
  }

  /** Marking in two groups is marking at once. */
  lemma MarkMore(files: StorageMap, s: Slot, r: Option<Storage>, o1: set<Offset>, o2: set<Offset>, mark: Slot, canPurge: bool)
    requires SoundUpTo(files, mark) && MarkedOk(files, s, r, o1, mark, canPurge)
    requires o2 <= Older(files, s) && o1 !! o2 && o2 != {}
    ensures r.Some? && MarkedOk(files, s, HandleGroup(r.value, s, o2, mark, canPurge), o1 + o2, mark, canPurge)
  {
    CanMarkOlder(files, s, o2, mark);
    if o1 == {} {
      assert o1 + o2 == o2;
    } else {
      CanMarkOlder(files, s, o1, mark);
      GroupsMerge(files[s], s, o1, o2, mark, canPurge);
    }
  }

  lemma MarkedNext(files: StorageMap, storages: StorageMap, marked: map<Slot, set<Offset>>, mark: Slot, snapshotSlot: Option<Slot>,
                   s: Slot, r: Option<Storage>, offsets: set<Offset>)
    requires MarkedSome(files, storages, marked, mark, snapshotSlot) && s in marked
    requires MarkedOk(files, s, r, offsets, mark, MayPurge(snapshotSlot, s))
    ensures MarkedSome(files, PutBack(storages, s, r), marked[s := offsets], mark, snapshotSlot)
  {
    var p := (s: Slot, r: Option<Storage>, o: set<Offset>) => MarkedOk(files, s, r, o, mark, MayPurge(snapshotSlot, s));
    EachNext(storages, marked, p, s, r, offsets);
  }

  lemma MarkedIs(files: StorageMap, storages: StorageMap, marked: map<Slot, set<Offset>>, mark: Slot, snapshotSlot: Option<Slot>, s: Slot)
    requires MarkedSome(files, storages, marked, mark, snapshotSlot) && s in marked
    ensures MarkedOk(files, s, StorageAt(storages, s), marked[s], mark, MayPurge(snapshotSlot, s))
  {
  }

  /** One slot of `handle_reclaims`. */
  method HandleSlot(files: StorageMap, storages: StorageMap, ghost marked: map<Slot, set<Offset>>,
                    s: Slot, offsets: set<Offset>, mark: Slot, snapshotSlot: Option<Slot>) returns (storages': StorageMap)
    requires s in files && SoundUpTo(files, mark)
    requires MarkedSome(files, storages, marked, mark, snapshotSlot)
    requires offsets <= Older(files, s) && marked[s] !! offsets && offsets != {}
    ensures MarkedSome(files, storages', marked[s := marked[s] + offsets], mark, snapshotSlot)
  {
    MarkedIs(files, storages, marked, mark, snapshotSlot, s);
    MarkMore(files, s, StorageAt(storages, s), marked[s], offsets, mark, MayPurge(snapshotSlot, s));
    var r := HandleGroup(storages[s], s, offsets, mark, MayPurge(snapshotSlot, s));
    MarkedNext(files, storages, marked, mark, snapshotSlot, s, r, marked[s] + offsets);
    storages' := PutBack(storages, s, r);
  }

  /** New reclaims: superseded records that have not been marked yet. */
  ghost predicate NewReclaims(files: StorageMap, marked: map<Slot, set<Offset>>, reclaims: Reclaims) {
    forall s, i :: (s, i) in reclaims ==> s in files && s in marked && i in Older(files, s) - marked[s]
  }

  lemma OffsetsDue(files: StorageMap, marked: map<Slot, set<Offset>>, reclaims: Reclaims, s: Slot, i: Offset)
    requires NewReclaims(files, marked, reclaims) && (s, i) in reclaims
    ensures s in files && s in marked && PendingAt(reclaims, s) != {}
    ensures PendingAt(reclaims, s) <= Older(files, s) && PendingAt(reclaims, s) !! marked[s]
  {
    PendingAtHas(reclaims, s, i);
    forall j | j in PendingAt(reclaims, s)
      ensures j in Older(files, s) - marked[s]
    {
      PendingAtHas(reclaims, s, j);
    }
  }

  /** The records marked once the reclaims of the slots `slots` are handled. */
  ghost function WithMarks(marked: map<Slot, set<Offset>>, reclaims: Reclaims, slots: set<Slot>): map<Slot, set<Offset>> {
    map s | s in marked :: if s in slots then marked[s] + PendingAt(reclaims, s) else marked[s]
  }

  lemma WithMarksNext(marked: map<Slot, set<Offset>>, reclaims: Reclaims, slots: set<Slot>, s: Slot)
    requires s in marked && s !in slots
    ensures WithMarks(marked, reclaims, slots)[s := marked[s] + PendingAt(reclaims, s)] == WithMarks(marked, reclaims, slots + {s})
  {
  }

  function SlotsOf(reclaims: Reclaims): (slots: set<Slot>)
    ensures forall s, o :: (s, o) in reclaims ==> s in slots
  {
    set p | p in reclaims.Keys :: p.0
  }

  /** The slots `all` of `handle_reclaims`, in any order. */
  method HandleSlots(files: StorageMap, storages: StorageMap, ghost marked: map<Slot, set<Offset>>, reclaims: Reclaims,
                     all: set<Slot>, mark: Slot, snapshotSlot: Option<Slot>) returns (storages': StorageMap)
    requires SoundUpTo(files, mark)
    requires NewReclaims(files, marked, reclaims) && MarkedSome(files, storages, marked, mark, snapshotSlot)
    requires forall s :: s in all ==> PendingAt(reclaims, s) != {}
    ensures MarkedSome(files, storages', WithMarks(marked, reclaims, all), mark, snapshotSlot)
  {
    storages' := storages;
    var todo := all;
    ghost var slots: set<Slot> := {};
    NoMarksYet(marked, reclaims);
    while todo != {}
      invariant Split(todo, slots, all)
      invariant MarkedSome(files, storages', WithMarks(marked, reclaims, slots), mark, snapshotSlot)
      decreases |todo|
    {
      var s :| s in todo;
      OneMoreSlot(todo, slots, all, s);
      storages' := HandleNext(files, storages', marked, reclaims, slots, s, mark, snapshotSlot);
      slots, todo := slots + {s}, todo - {s};
    }
    assert slots == all;
  }

  /** `handle_reclaims` for the reclaims of one bin. */
  method HandleBin(files: StorageMap, storages: StorageMap, ghost marked: map<Slot, set<Offset>>, reclaims: Reclaims,
                   mark: Slot, snapshotSlot: Option<Slot>) returns (storages': StorageMap)
    requires SoundUpTo(files, mark)
    requires NewReclaims(files, marked, reclaims) && MarkedSome(files, storages, marked, mark, snapshotSlot)
    ensures MarkedSome(files, storages', WithMarks(marked, reclaims, SlotsOf(reclaims)), mark, snapshotSlot)
  {
    forall s | s in SlotsOf(reclaims)
      ensures PendingAt(reclaims, s) != {}
    {
      var p :| p in reclaims && p.0 == s;
      PendingAtHas(reclaims, s, p.1);
    }
    storages' := HandleSlots(files, storages, marked, reclaims, SlotsOf(reclaims), mark, snapshotSlot);
  }

  predicate Split(todo: set<Slot>, done: set<Slot>, all: set<Slot>) {
    todo !! done && todo + done == all
  }

  lemma OneMoreSlot(todo: set<Slot>, done: set<Slot>, all: set<Slot>, s: Slot)
    requires Split(todo, done, all) && s in todo
    ensures Split(todo - {s}, done + {s}, all) && s in all && s !in done && |todo - {s}| < |todo|
  {
  }

  lemma NoMarksYet(marked: map<Slot, set<Offset>>, reclaims: Reclaims)
    ensures WithMarks(marked, reclaims, {}) == marked
  {
  }

  method HandleNext(files: StorageMap, storages: StorageMap, ghost marked: map<Slot, set<Offset>>, reclaims: Reclaims,
                    ghost slots: set<Slot>, s: Slot, mark: Slot, snapshotSlot: Option<Slot>) returns (storages': StorageMap)
    requires SoundUpTo(files, mark)
    requires NewReclaims(files, marked, reclaims) && PendingAt(reclaims, s) != {} && s !in slots
    requires MarkedSome(files, storages, WithMarks(marked, reclaims, slots), mark, snapshotSlot)
    ensures MarkedSome(files, storages', WithMarks(marked, reclaims, slots + {s}), mark, snapshotSlot)
  {
    ghost var o :| o in PendingAt(reclaims, s);
    PendingAtHas(reclaims, s, o);
    OffsetsDue(files, marked, reclaims, s, o);
    storages' := HandleSlot(files, storages, WithMarks(marked, reclaims, slots), s, PendingAt(reclaims, s), mark, snapshotSlot);
    WithMarksNext(marked, reclaims, slots, s);
  }

  // ---------------------------------------------------------------------------------------
  // Bins
  // ---------------------------------------------------------------------------------------

  /** The superseded records of `s` whose key is among `keys`. */
  ghost function OlderFor(files: StorageMap, s: Slot, keys: set<Pubkey>): set<Offset>
    requires s in files
  {
    set i | i in Older(files, s) && i < |files[s].records| && files[s].records[i].pubkey in keys
  }

  ghost function MarksFor(files: StorageMap, keys: set<Pubkey>): map<Slot, set<Offset>> {
    map s | s in files :: OlderFor(files, s, keys)
  }

  /** An index of all records, with sound files. */
  ghost predicate FullIndex(ix: Index, files: StorageMap) {
    Indexes(ix, files, files.Keys) && forall s :: s in files ==> DistinctKeys(files[s].records)
  }

  /** The older entries of some keys are exactly their superseded records. */
  lemma OlderOfKeys(ix: Index, files: StorageMap, keys: set<Pubkey>, s: Slot, i: Offset)
    requires FullIndex(ix, files)
    ensures (s, i) in OlderOf(ix, keys) <==> s in files && i in OlderFor(files, s, keys)
  {
    if (s, i) in OlderOf(ix, keys) {
      var k, t :| k in keys && k in ix && ix[k] != map[] && t in ix[k] && t < NewestIn(ix[k]) && (s, i) == (t, ix[k][t].offset);
      OlderPlaced(ix, files, k, t);
      KeyList(ix, files, k);
      assert Has(ix, k, t) && EntryOf(files[t], k, At(ix, k, t));
    }
    if s in files && i in OlderFor(files, s, keys) {
      OlderIndexed(ix, files, s, i);
    }
  }

  /** The lists of keys that have not been cleaned are as they were. */
  lemma OlderOfRest(ix: Index, ix': Index, done: set<Pubkey>, bin: set<Pubkey>)
    requires CleanedFor(ix, ix', done) && done !! bin
    ensures OlderOf(ix', bin) == OlderOf(ix, bin)
  {
    forall p
      ensures p in OlderOf(ix', bin) <==> p in OlderOf(ix, bin)
    {
    }
  }

  lemma CleanedTogether(ix: Index, ix': Index, ix'': Index, done: set<Pubkey>, bin: set<Pubkey>)
    requires CleanedFor(ix, ix', done) && CleanedFor(ix', ix'', bin) && done !! bin
    ensures CleanedFor(ix, ix'', done + bin)
  {
    forall k | k in ix && k in done + bin && ix[k] != map[]
      ensures ix''[k] == map[NewestIn(ix[k]) := ix[k][NewestIn(ix[k])]]
    {
    }
  }

  lemma BinNew(ix: Index, files: StorageMap, done: set<Pubkey>, bin: set<Pubkey>, reclaims: Reclaims)
    requires FullIndex(ix, files) && done !! bin && reclaims.Keys == OlderOf(ix, bin)
    ensures NewReclaims(files, MarksFor(files, done), reclaims)
  {
    forall s, i | (s, i) in reclaims
      ensures s in files && i in Older(files, s) - OlderFor(files, s, done)
    {
      OlderOfKeys(ix, files, bin, s, i);
    }
  }

  lemma BinOffsets(ix: Index, files: StorageMap, bin: set<Pubkey>, reclaims: Reclaims, s: Slot)
    requires FullIndex(ix, files) && reclaims.Keys == OlderOf(ix, bin) && s in files
    ensures PendingAt(reclaims, s) == OlderFor(files, s, bin)
  {
    forall i
      ensures i in PendingAt(reclaims, s) <==> i in OlderFor(files, s, bin)
    {
      PendingAtHas(reclaims, s, i);
      OlderOfKeys(ix, files, bin, s, i);
    }
  }

  lemma OlderForBoth(files: StorageMap, s: Slot, done: set<Pubkey>, bin: set<Pubkey>)
    requires s in files
    ensures OlderFor(files, s, done + bin) == OlderFor(files, s, done) + OlderFor(files, s, bin)
  {
  }

  lemma NoneAt(reclaims: Reclaims, s: Slot)
    requires s !in SlotsOf(reclaims)
    ensures PendingAt(reclaims, s) == {}
  {
    forall o
      ensures o !in PendingAt(reclaims, s)
    {
      PendingAtHas(reclaims, s, o);
    }
  }

  lemma BinMarks(ix: Index, files: StorageMap, done: set<Pubkey>, bin: set<Pubkey>, reclaims: Reclaims)
    requires FullIndex(ix, files) && reclaims.Keys == OlderOf(ix, bin)
    ensures WithMarks(MarksFor(files, done), reclaims, SlotsOf(reclaims)) == MarksFor(files, done + bin)
  {
    forall s | s in files
      ensures WithMarks(MarksFor(files, done), reclaims, SlotsOf(reclaims))[s] == OlderFor(files, s, done + bin)
    {
      BinOffsets(ix, files, bin, reclaims, s);
      OlderForBoth(files, s, done, bin);
      if s !in SlotsOf(reclaims) {
        NoneAt(reclaims, s);
      }
    }
  }

  /** How far the startup clean has come. */
  ghost predicate CleanedKeys(files: StorageMap, ix: Index, ix': Index, storages: StorageMap, done: set<Pubkey>,
                              mark: Slot, snapshotSlot: Option<Slot>) {
    CleanedFor(ix, ix', done) && MarkedSome(files, storages, MarksFor(files, done), mark, snapshotSlot)
  }

  /** One bin of `mark_obsolete_accounts_at_startup`. */
  method MarkBin(files: StorageMap, ghost ix: Index, ix': Index, storages: StorageMap, ghost done: set<Pubkey>, bin: set<Pubkey>,
                 mark: Slot, snapshotSlot: Option<Slot>) returns (ix'': Index, storages': StorageMap)
    requires FullIndex(ix, files) && SoundUpTo(files, mark) && bin <= ix.Keys && done !! bin
    requires CleanedKeys(files, ix, ix', storages, done, mark, snapshotSlot)
    ensures CleanedKeys(files, ix, ix'', storages', done + bin, mark, snapshotSlot)
  {
    StillListed(ix, ix', done);
    var reclaims;
    ix'', reclaims := CleanBin(ix', bin, mark);
    OlderOfRest(ix, ix', done, bin);
    CleanedTogether(ix, ix', ix'', done, bin);
    BinNew(ix, files, done, bin, reclaims);
    BinMarks(ix, files, done, bin, reclaims);
    storages' := HandleBin(files, storages, MarksFor(files, done), reclaims, mark, snapshotSlot);
  }

  lemma StillListed(ix: Index, ix': Index, done: set<Pubkey>)
    requires NoEmptyLists(ix) && CleanedFor(ix, ix', done)
    ensures NoEmptyLists(ix')
  {
    forall k | k in ix'
      ensures ix'[k] != map[]
    {
      if k in done {
        assert NewestIn(ix[k]) in ix'[k];
      }
    }
  }

  /** The duplicate keys of the bins before `b`. */
  function BinsBefore(duplicates: set<Pubkey>, binOf: Pubkey -> nat, b: nat): set<Pubkey> {
    set k | k in duplicates && binOf(k) < b
  }

  lemma NextBin(duplicates: set<Pubkey>, binOf: Pubkey -> nat, b: nat, bin: set<Pubkey>)
    requires forall k :: k in bin <==> k in duplicates && binOf(k) == b
    ensures BinsBefore(duplicates, binOf, b) !! bin
    ensures BinsBefore(duplicates, binOf, b) + bin == BinsBefore(duplicates, binOf, b + 1)
  {
  }

  lemma NothingCleaned(files: StorageMap, ix: Index, duplicates: set<Pubkey>, binOf: Pubkey -> nat, mark: Slot, snapshotSlot: Option<Slot>)
    ensures CleanedKeys(files, ix, ix, files, BinsBefore(duplicates, binOf, 0), mark, snapshotSlot)
  {
    assert BinsBefore(duplicates, binOf, 0) == {};
    forall s | s in files
      ensures MarkedOk(files, s, StorageAt(files, s), MarksFor(files, {})[s], mark, MayPurge(snapshotSlot, s))
    {
      assert OlderFor(files, s, {}) == {};
    }
  }

  /** `mark_obsolete_accounts_at_startup`, for any way `binOf` puts keys into `bins` bins. */
  method MarkObsoleteAtStartup(files: StorageMap, ix: Index, duplicates: set<Pubkey>, binOf: Pubkey -> nat, bins: nat,
                               mark: Slot, snapshotSlot: Option<Slot>) returns (ix': Index, storages: StorageMap)
    requires FullIndex(ix, files) && SoundUpTo(files, mark) && duplicates <= ix.Keys
    requires forall k :: binOf(k) < bins
    ensures CleanedKeys(files, ix, ix', storages, duplicates, mark, snapshotSlot)
  {
    ix', storages := ix, files;
    NothingCleaned(files, ix, duplicates, binOf, mark, snapshotSlot);
    for b := 0 to bins
      invariant CleanedKeys(files, ix, ix', storages, BinsBefore(duplicates, binOf, b), mark, snapshotSlot)
    {
      var bin := set k | k in duplicates && binOf(k) == b;
      NextBin(duplicates, binOf, b, bin);
      ix', storages := MarkBin(files, ix, ix', storages, BinsBefore(duplicates, binOf, b), bin, mark, snapshotSlot);
    }
    assert BinsBefore(duplicates, binOf, bins) == duplicates;
  }

  // ---------------------------------------------------------------------------------------
  // The started store
  // ---------------------------------------------------------------------------------------

  ghost predicate SameList(ix: Index, ix': Index, k: Pubkey) {
    (k in ix <==> k in ix') && (k in ix && k in ix' ==> ix[k] == ix'[k])
  }

  lemma SameIndex(ix: Index, ix': Index)
    requires forall k :: SameList(ix, ix', k)
    ensures ix == ix'
  {
    assert forall k :: k in ix <==> k in ix' by {
      forall k
        ensures k in ix <==> k in ix'
      {
        assert SameList(ix, ix', k);
      }
    }
    forall k | k in ix
      ensures ix[k] == ix'[k]
    {
      assert SameList(ix, ix', k);
    }
  }

  /** The index lists the newest record of every key. */
  lemma CleanedIsNewest(files: StorageMap, ix: Index, ix': Index, duplicates: set<Pubkey>)
    requires FullIndex(ix, files) && CleanedFor(ix, ix', duplicates)
    requires forall k :: k in ix && |ix[k]| > 1 ==> k in duplicates
    ensures ix' == NewestIndex(files)
  {
    forall k
      ensures SameList(ix', NewestIndex(files), k)
    {
      NewestEntry(files, ix, ix', duplicates, k);
    }
    SameIndex(ix', NewestIndex(files));
  }

  lemma LoneEntry(l: SlotList, n: Slot)
    requires n in l && |l| <= 1
    ensures l == map[n := l[n]]
  {
    SubsetSize({n}, l.Keys);
  }

  lemma ListedKeys(files: StorageMap, ix: Index, k: Pubkey)
    requires FullIndex(ix, files)
    ensures k in ix <==> SlotsWith(files, k) != {}
  {
    if k in ix {
      KeyList(ix, files, k);
    }
    if SlotsWith(files, k) != {} {
      assert Has(ix, k, Newest(SlotsWith(files, k)));
    }
  }

  /** A list that is cleaned, or had only one entry. */
  lemma OneLeft(files: StorageMap, ix: Index, ix': Index, duplicates: set<Pubkey>, k: Pubkey)
    requires FullIndex(ix, files) && CleanedFor(ix, ix', duplicates) && k in ix
    requires |ix[k]| > 1 ==> k in duplicates
    ensures SlotsWith(files, k) != {} && ix[k] != map[]
    ensures var n := Newest(SlotsWith(files, k)); n in ix[k] && ix'[k] == map[n := ix[k][n]]
  {
    KeyList(ix, files, k);
    var n := Newest(SlotsWith(files, k));
    if k in duplicates {
      assert NewestIn(ix[k]) == n;
    } else {
      LoneEntry(ix[k], n);
    }
  }

  lemma NewestEntry(files: StorageMap, ix: Index, ix': Index, duplicates: set<Pubkey>, k: Pubkey)
    requires FullIndex(ix, files) && CleanedFor(ix, ix', duplicates)
    requires k in ix && |ix[k]| > 1 ==> k in duplicates
    ensures SameList(ix', NewestIndex(files), k)
  {
    ListedKeys(files, ix, k);
    KeysInIff(files, k);
    if k in ix {
      OneLeft(files, ix, ix', duplicates, k);
      var n := Newest(SlotsWith(files, k));
      assert Has(ix, k, n) && EntryOf(files[n], k, At(ix, k, n));
      OffsetOfIs(files[n], At(ix, k, n).offset);
    }
  }

  lemma AllOlder(files: StorageMap, ix: Index, duplicates: set<Pubkey>, s: Slot)
    requires FullIndex(ix, files) && s in files
    requires forall k :: k in ix && |ix[k]| > 1 ==> k in duplicates
    ensures OlderFor(files, s, duplicates) == Older(files, s)
  {
    forall i | i in Older(files, s)
      ensures i in OlderFor(files, s, duplicates)
    {
      OlderIndexed(ix, files, s, i);
    }
  }

  lemma MarkedSettles(files: StorageMap, s: Slot, r: Option<Storage>, mark: Slot, canPurge: bool)
    requires s in files && MarkedOk(files, s, r, Older(files, s), mark, canPurge)
    requires StorageOk(files[s]) && files[s].tombstones == {}
    requires mark in files && forall t :: t in files ==> t <= mark
    ensures SettledTo(files, s, r)
  {
    SettleOk(files, s, mark, canPurge);
  }

  /** Once all bins are done every storage keeps exactly its newest records. */
  lemma CleanedSettles(files: StorageMap, ix: Index, storages: StorageMap, duplicates: set<Pubkey>,
                       nextId: StoreId, mark: Slot, snapshotSlot: Option<Slot>)
    requires FullIndex(ix, files) && Loaded(files, nextId)
    requires mark in files && forall t :: t in files ==> t <= mark
    requires forall k :: k in ix && |ix[k]| > 1 ==> k in duplicates
    requires MarkedSome(files, storages, MarksFor(files, duplicates), mark, snapshotSlot)
    ensures AllSettled(files, storages)
  {
    forall s | s in files
      ensures SettledTo(files, s, StorageAt(storages, s))
    {
      MarkedIs(files, storages, MarksFor(files, duplicates), mark, snapshotSlot, s);
      AllOlder(files, ix, duplicates, s);
      MarkedSettles(files, s, StorageAt(storages, s), mark, MayPurge(snapshotSlot, s));
    }
  }

  /** The zero-lamport accounts of a storage, for the first clean to look at. */
  function ZeroKeys(t: Storage): set<Pubkey> {
    set i | i in AliveOffsets(t) && i < |t.records| && IsZero(t.records[i].account) :: t.records[i].pubkey
  }

  lemma LoadedSound(files: StorageMap, nextId: StoreId, mark: Slot)
    requires Loaded(files, nextId) && forall t :: t in files ==> t <= mark
    ensures SoundUpTo(files, mark) && forall s :: s in files ==> DistinctKeys(files[s].records)
  {
  }

  /** The first two passes: all records are indexed, and the older ones are taken out of the total. */
  method IndexAndSum(files: StorageMap, parts: seq<set<Slot>>, w: Weight) returns (ix: Index, duplicates: set<Pubkey>, total: int)
    requires PartsOf(parts, files.Keys) && forall s :: s in files ==> DistinctKeys(files[s].records)
    ensures FullIndex(ix, files)
    ensures duplicates <= ix.Keys && forall k :: k in ix && |ix[k]| > 1 ==> k in duplicates
    ensures total == Sum(KeysIn(files), k => KeyWeight(files, w, k))
  {
    var all;
    ix, all := IndexAll(files, parts, w);
    duplicates := DuplicateKeys(ix);
    var older := VisitDuplicates(files, ix, duplicates, w);
    Conservation(files, w);
    total := all - older;
  }

  /** The third pass: the older records are marked and their entries dropped. */
  method CleanAtStartup(files: StorageMap, ix: Index, duplicates: set<Pubkey>, binOf: Pubkey -> nat, bins: nat,
                        nextId: StoreId, mark: Slot, snapshotSlot: Option<Slot>) returns (ix': Index, storages: StorageMap)
    requires FullIndex(ix, files) && Loaded(files, nextId)
    requires duplicates <= ix.Keys && forall k :: k in ix && |ix[k]| > 1 ==> k in duplicates
    requires mark in files && forall t :: t in files ==> t <= mark
    requires forall k :: binOf(k) < bins
    ensures ix' == NewestIndex(files) && AllSettled(files, storages)
  {
    LoadedSound(files, nextId, mark);
    ix', storages := MarkObsoleteAtStartup(files, ix, duplicates, binOf, bins, mark, snapshotSlot);
    CleanedIsNewest(files, ix, ix', duplicates);
    CleanedSettles(files, ix, storages, duplicates, nextId, mark, snapshotSlot);
  }

  /** Every deleted account in the index is among those the first clean looks at. */
  lemma ZeroRecorded(files: StorageMap, k: Pubkey, s: Slot)
    requires Has(NewestIndex(files), k, s) && At(NewestIndex(files), k, s).zero
    ensures s in files && k in ZeroKeys(files[s])
  {
    NewestIndexHas(files, k, s);
    assert AliveAt(files[s], OffsetOf(files[s], k), k);
  }

  /** `generate_index`: whatever the split of the storages among threads and of the keys into
      bins, the store is started from the files, and the total of any weight is the sum over the
      newest records. Every deleted account that is indexed is recorded for the first clean. */
  method GenerateIndex(files: StorageMap, parts: seq<set<Slot>>, binOf: Pubkey -> nat, bins: nat, w: Weight,
                       nextId: StoreId, snapshotSlot: Option<Slot>) returns (st: State, total: int)
    requires files != map[] && Loaded(files, nextId)
    requires PartsOf(parts, files.Keys) && forall k :: binOf(k) < bins
    ensures StartedFrom(files, st)
    ensures st.nextId == nextId && st.snapshotSlot == snapshotSlot && forall s :: s in files ==> s <= st.maxCleaned
    ensures forall k, s: Slot :: Has(st.index, k, s) && At(st.index, k, s).zero ==> s in st.uncleaned && k in st.uncleaned[s]
    ensures total == Sum(KeysIn(files), k => KeyWeight(files, w, k))
  {
    assert files.Keys != {};
    var mark := FindNewest(files.Keys);
    LoadedSound(files, nextId, mark);
    var ix, duplicates;
    ix, duplicates, total := IndexAndSum(files, parts, w);
    var ix', storages := CleanAtStartup(files, ix, duplicates, binOf, bins, nextId, mark, snapshotSlot);
    st := State(map[], files.Keys, {}, map[], {}, ix', storages, map[], map s | s in files :: ZeroKeys(files[s]),
                mark, snapshotSlot, {}, multiset{}, nextId, Idle);
    forall k, s: Slot | Has(ix', k, s) && At(ix', k, s).zero
      ensures s in files && k in ZeroKeys(files[s])
    {
      ZeroRecorded(files, k, s);
    }
  }

  /** Stop and restart: the store generated from the files of a store at rest is sound and shows
      every key the same account. */
  method RestartFrom(ghost was: State, files: StorageMap, parts: seq<set<Slot>>, binOf: Pubkey -> nat, bins: nat,
                     nextId: StoreId, snapshotSlot: Option<Slot>) returns (st: State)
    requires AtRest(was) && FilesOf(was, files)
    requires files != map[] && Loaded(files, nextId)
    requires PartsOf(parts, files.Keys) && forall k :: binOf(k) < bins
    ensures Inv(st) && forall k :: SameAccount(was, st, k)
  {
    var total;
    st, total := GenerateIndex(files, parts, binOf, bins, (r: Record) => r.account.lamports, nextId, snapshotSlot);
    RestartRoundTrip(was, files, st);
  }
}
