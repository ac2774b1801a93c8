/** Flush, clean, shrink and sweep do not change what a consistent reader loads, as long as
    it sees the roots they clean up to. */
module Meaning {
  import opened Types
  import opened AncestorSets
  import opened Storages
  import opened PrimaryIndex
  import opened Store
  import opened Invariant
  import opened Loads
  import Flush = FlushProofs
  import Reclaim = ReclaimProofs
  import Clean = CleanProofs
  import Shrink = ShrinkProofs

  // ---------------------------------------------------------------------------------------
  // Steps that leave cache and index contents alone
  // ---------------------------------------------------------------------------------------

  /** The versions of `k` in cache and index are the same ones. */
  ghost predicate SameVersions(st: State, st': State, k: Pubkey) {
    && st'.cache == st.cache && st'.unflushed == st.unflushed
    && (forall s: Slot :: Has(st'.index, k, s) <==> Has(st.index, k, s))
    && (forall s: Slot :: Has(st.index, k, s) ==> Content(st', k, s) == Content(st, k, s))
  }

  lemma SameView(st: State, st': State, a: Ancestors, k: Pubkey)
    requires SameVersions(st, st', k)
    ensures NaiveLoad(st', a, k) == NaiveLoad(st, a, k)
  {
    assert CacheSlots(st', a, k) == CacheSlots(st, a, k);
    forall s: Slot
      ensures s in IndexSlots(st', a, k) <==> s in IndexSlots(st, a, k)
    {
      assert Has(st'.index, k, s) <==> Has(st.index, k, s);
    }
    assert IndexSlots(st', a, k) == IndexSlots(st, a, k);
    var slots := CacheSlots(st, a, k) + IndexSlots(st, a, k);
    if slots != {} {
      assert Newest(slots) in CacheSlots(st, a, k) || Has(st.index, k, Newest(slots));
    }
  }

  /** Same index, and every entry still reads the same. */
  lemma SameIndexVersions(st: State, st': State, k: Pubkey)
    requires st'.cache == st.cache && st'.unflushed == st.unflushed && st'.index == st.index
    requires st'.shrinking == st.shrinking == map[]
    requires forall k: Pubkey, s: Slot :: Has(st.index, k, s) ==>
               ContentIn(st.index, st'.storages, map[], k, s) == ContentIn(st.index, st.storages, map[], k, s)
    ensures SameVersions(st, st', k)
  {
    forall s: Slot | Has(st.index, k, s)
      ensures Content(st', k, s) == Content(st, k, s)
    {
      assert ContentIn(st.index, st'.storages, map[], k, s) == ContentIn(st.index, st.storages, map[], k, s);
    }
  }

  lemma BeginFlushVersions(st: State, r: Slot, clean: bool, bound: Slot, keys: set<Pubkey>, records: seq<Record>, k: Pubkey)
    requires Inv(st) && CanBeginFlush(st, r, clean, bound, keys, records)
    ensures SameVersions(st, BeginFlush(st, r, clean, bound, records), k)
  {
    Flush.BeginFlushSlots(st, r, clean, bound, records);
    Flush.BeginFlushAdds(st, r, records);
    Flush.AddedResolved(st.index, st.storages, BeginFlush(st, r, clean, bound, records).storages, r);
    SameIndexVersions(st, BeginFlush(st, r, clean, bound, records), k);
  }

  lemma HandledVersions(st: State, st': State, s: Slot, offsets: set<Offset>, tombstone: bool, mark: Slot, k: Pubkey)
    requires st.shrinking == map[]
    requires Resolved(st.index, st.storages, st.shrinking) && Partitioned(st.index, st.storages, st.phase)
    requires st' == st.(storages := st'.storages, candidates := st'.candidates, phase := st'.phase)
    requires Reclaim.Due(st.index, st.storages, Pending(st), s, offsets, tombstone)
    requires Reclaim.StorageEffect(st.storages, st'.storages, s, offsets, tombstone, mark)
    ensures SameVersions(st, st', k)
  {
    Reclaim.HandledResolved(st.index, st.storages, st'.storages, st.phase, s, offsets, tombstone, mark);
    SameIndexVersions(st, st', k);
  }

  lemma HandleVersions(st: State, s: Slot, offsets: set<Offset>, mark: Slot, k: Pubkey)
    requires Inv(st) && CanHandle(st, s, offsets, mark)
    ensures SameVersions(st, Handle(st, s, offsets, mark), k)
  {
    Reclaim.HandleDue(st, s, offsets, mark);
    Reclaim.HandleStorages(st, s, offsets, mark);
    Reclaim.HandlePending(st, s, offsets, mark);
    HandledVersions(st, Handle(st, s, offsets, mark), s, offsets, mark == s, mark, k);
  }

  lemma SweepVersions(st: State, s: Slot, k: Pubkey)
    requires Inv(st) && CanSweep(st, s)
    ensures SameVersions(st, Sweep(st, s), k)
  {
    Reclaim.SweepInv(st, s);
    HandledVersions(st, Sweep(st, s), s, {}, false, 0, k);
  }

  lemma SameEntriesVersions(st: State, st': State, k: Pubkey)
    requires Shrink.SameEntries(st, st')
    requires st'.cache == st.cache && st'.unflushed == st.unflushed
    ensures SameVersions(st, st', k)
  {
    forall s: Slot | Has(st.index, k, s)
      ensures Content(st', k, s) == Content(st, k, s)
    {
      assert Has(st'.index, k, s);
    }
  }

  // ---------------------------------------------------------------------------------------
  // Flush
  // ---------------------------------------------------------------------------------------

  /** An account enters the index: a reader that sees its slot still has it in the cache. */
  lemma FlushKeyView(st: State, st': State, a: Ancestors, r: Slot, i: Offset, k: Pubkey)
    requires Flush.Entering(st, r, i, k)
    requires Flush.IndexEffect(st.index, st'.index, k, r, Flush.InfoFor(st, r, i), st.phase.clean)
    requires st' == st.(index := st'.index, phase := st'.phase)
    requires r in st.unflushed
    requires st.phase.clean ==> Sees(a, r)
    ensures NaiveLoad(st', a, k) == NaiveLoad(st, a, k)
  {
    assert CacheSlots(st', a, k) == CacheSlots(st, a, k);
    var was := CacheSlots(st, a, k) + IndexSlots(st, a, k);
    var now := CacheSlots(st, a, k) + IndexSlots(st', a, k);
    if Sees(a, r) {
      assert r in CacheSlots(st, a, k);
      EnteredNewest(st, st', a, r, i, k);
    } else {
      forall s: Slot
        ensures s in IndexSlots(st', a, k) <==> s in IndexSlots(st, a, k)
      {
        assert s != r && Has(st.index, k, s) ==> Has(st'.index, k, s);
        assert s != r && Has(st'.index, k, s) ==> Has(st.index, k, s);
      }
      assert IndexSlots(st', a, k) == IndexSlots(st, a, k);
      if was != {} && Newest(was) in IndexSlots(st, a, k) {
        Flush.FlushKeyContent(st, st'.index, r, i, k, k, Newest(was));
      }
    }
  }

  /** If the reader sees `r`, the answer comes from the cache before and after. */
  lemma EnteredNewest(st: State, st': State, a: Ancestors, r: Slot, i: Offset, k: Pubkey)
    requires Flush.Entering(st, r, i, k)
    requires Flush.IndexEffect(st.index, st'.index, k, r, Flush.InfoFor(st, r, i), st.phase.clean)
    requires st' == st.(index := st'.index, phase := st'.phase)
    requires CacheSlots(st', a, k) == CacheSlots(st, a, k) && r in CacheSlots(st, a, k)
    ensures NaiveLoad(st', a, k) == NaiveLoad(st, a, k)
  {
    var c := Newest(CacheSlots(st, a, k));
    forall s | s in IndexSlots(st, a, k)
      ensures s <= c
    {
      assert Has(st.index, k, s);
    }
    forall s | s in IndexSlots(st', a, k)
      ensures s <= c
    {
      assert Has(st'.index, k, s);
    }
    NewestUnique(CacheSlots(st, a, k) + IndexSlots(st, a, k), c);
    NewestUnique(CacheSlots(st, a, k) + IndexSlots(st', a, k), c);
  }

  lemma OtherKeyVersions(st: State, st': State, r: Slot, i: Offset, k: Pubkey, k': Pubkey)
    requires Flush.Entering(st, r, i, k) && k' != k
    requires Flush.IndexEffect(st.index, st'.index, k, r, Flush.InfoFor(st, r, i), st.phase.clean)
    requires st' == st.(index := st'.index, phase := st'.phase)
    ensures SameVersions(st, st', k')
  {
    forall s: Slot | Has(st.index, k', s)
      ensures Content(st', k', s) == Content(st, k', s)
    {
      Flush.FlushKeyContent(st, st'.index, r, i, k, k', s);
    }
  }

  lemma FlushKeyNaive(st: State, i: Offset, a: Ancestors, k: Pubkey)
    requires Inv(st) && CanFlushKey(st, i) && Sheltered(st, a)
    ensures NaiveLoad(FlushKey(st, i), a, k) == NaiveLoad(st, a, k)
  {
    var r, k' := Flush.FlushKeyEntering(st, i);
    Flush.FlushKeyIndex(st, r, i, k');
    Flush.FlushKeyRest(st, i);
    if k == k' {
      FlushKeyView(st, FlushKey(st, i), a, r, i, k);
    } else {
      OtherKeyVersions(st, FlushKey(st, i), r, i, k', k);
      SameView(st, FlushKey(st, i), a, k);
    }
  }

  /** Every visible version in the cache but that of the flushed root is newer than it. */
  lemma OthersNewer(st: State, a: Ancestors, k: Pubkey, c: Slot)
    requires SlotsOk(st.roots, st.unflushed, st.cache.Keys, st.storages.Keys, st.phase)
    requires st.phase.Flushing? && FlushSetsOk(st)
    requires Consistent(st.roots, a)
    requires CacheSees(st, a, k, c) && c != st.phase.root
    ensures st.phase.root < c
  {
    if c !in st.unflushed {
      assert c !in st.roots;
    }
  }

  lemma EndFlushCacheSlots(st: State, a: Ancestors, k: Pubkey)
    requires CanEndFlush(st) && st.phase.root in st.unflushed
    ensures CacheSlots(EndFlush(st), a, k) == CacheSlots(st, a, k) - {st.phase.root}
    ensures IndexSlots(EndFlush(st), a, k) == IndexSlots(st, a, k)
  {
  }

  /** The flushed account in storage is the one in the cache. */
  lemma FlushedContent(st: State, k: Pubkey)
    requires Inv(st) && st.phase.Flushing?
    requires Has(st.index, k, st.phase.root) && k in st.cache[st.phase.root]
    ensures Content(st, k, st.phase.root) == Some(st.cache[st.phase.root][k])
  {
    assert Points(st.index, st.storages, st.shrinking, k, st.phase.root);
  }

  /** A superseded version is not all the reader has in the cache. */
  lemma SupersededVisible(st: State, a: Ancestors, k: Pubkey)
    requires st.unflushed <= st.roots && st.phase.Flushing?
    requires SeesUpTo(st.roots, a, st.phase.bound)
    requires Superseded(st, st.phase.root, st.phase.bound, k)
    ensures CacheSlots(st, a, k) != {st.phase.root}
  {
    var r := st.phase.root;
    var r' :| r' in st.unflushed && r < r' <= st.phase.bound && r' in st.cache && k in st.cache[r'];
    assert r' in CacheSlots(st, a, k);
  }

  /** A flushed version without an index entry is zero-lamport and has nothing to shadow. */
  lemma NotIndexedZero(st: State, a: Ancestors, k: Pubkey)
    requires Inv(st) && CanEndFlush(st) && Sheltered(st, a)
    requires CacheSlots(st, a, k) == {st.phase.root}
    requires !Has(st.index, k, st.phase.root)
    ensures k in st.cache[st.phase.root] && IsZero(st.cache[st.phase.root][k]) && k !in st.index
  {
    var r := st.phase.root;
    assert r in CacheSlots(st, a, k);
    if k in st.phase.stored {
      assert FlushedKeyOk(st.index, st.phase, k, st.cache[r][k]);
    } else {
      assert SkippedKeyOk(st, k);
      if st.phase.clean && Superseded(st, r, st.phase.bound, k) {
        SupersededVisible(st, a, k);
        assert false;
      }
    }
  }

  /** The flushed version is the newest one in storage. */
  lemma FlushedNewest(st: State, a: Ancestors, k: Pubkey)
    requires Inv(st) && st.phase.Flushing?
    requires Has(st.index, k, st.phase.root) && Sees(a, st.phase.root) && k in st.cache[st.phase.root]
    ensures LoadFromIndex(st, a, k) == Some(st.cache[st.phase.root][k])
  {
    var r := st.phase.root;
    FlushedContent(st, k);
    HitIs(st, a, k, Cached(r, st.cache[r][k]));
  }

  /** The reader's answer came from the flushed slot: storage gives the same one. */
  lemma EndFlushFromRoot(st: State, a: Ancestors, k: Pubkey)
    requires Inv(st) && CanEndFlush(st) && Sheltered(st, a)
    requires CacheSlots(st, a, k) == {st.phase.root}
    ensures k in st.cache[st.phase.root]
    ensures Loadable(LoadFromIndex(st, a, k)) == Loadable(Some(st.cache[st.phase.root][k]))
  {
    assert st.phase.root in CacheSlots(st, a, k);
    if Has(st.index, k, st.phase.root) {
      FlushedNewest(st, a, k);
    } else {
      NotIndexedZero(st, a, k);
      assert IndexSlots(st, a, k) == {};
    }
  }

  lemma EndFlushIndexLoad(st: State, a: Ancestors, k: Pubkey)
    requires CanEndFlush(st) && st.phase.root in st.unflushed
    ensures LoadFromIndex(EndFlush(st), a, k) == LoadFromIndex(st, a, k)
  {
    EndFlushCacheSlots(st, a, k);
  }

  lemma EndFlushNaive(st: State, a: Ancestors, k: Pubkey)
    requires Inv(st) && CanEndFlush(st) && Sheltered(st, a)
    requires Consistent(st.roots, a)
    ensures NaiveLoad(EndFlush(st), a, k) == NaiveLoad(st, a, k)
  {
    var r := st.phase.root;
    var st' := EndFlush(st);
    EndFlushCacheSlots(st, a, k);
    Flush.EndFlushInv(st);
    if r !in CacheSlots(st, a, k) {
      assert CacheSlots(st', a, k) == CacheSlots(st, a, k);
    } else if CacheSlots(st, a, k) == {r} {
      NewestUnique({r}, r);
      CacheFirst(st, a, k);
      EndFlushFromRoot(st, a, k);
      EndFlushIndexLoad(st, a, k);
      IndexOnly(st', a, k);
    } else {
      EndFlushNewer(st, a, k);
      CacheFirst(st, a, k);
      CacheFirst(st', a, k);
    }
  }

  lemma EndFlushNewer(st: State, a: Ancestors, k: Pubkey)
    requires Inv(st) && CanEndFlush(st)
    requires Consistent(st.roots, a)
    requires st.phase.root in CacheSlots(st, a, k) && CacheSlots(st, a, k) != {st.phase.root}
    ensures var st' := EndFlush(st);
            && CacheSlots(st', a, k) != {}
            && LoadFromCache(st', a, k) == LoadFromCache(st, a, k)
  {
    var r := st.phase.root;
    var c := Newest(CacheSlots(st, a, k));
    EndFlushCacheSlots(st, a, k);
    var x :| x in CacheSlots(st, a, k) && x != r;
    OthersNewer(st, a, k, x);
    NewestUnique(CacheSlots(st, a, k) - {r}, c);
  }

  // ---------------------------------------------------------------------------------------
  // Clean
  // ---------------------------------------------------------------------------------------

  /** The slots a reader of `k` loses are older than one it keeps. */
  lemma CleanKeepsNewest(st: State, st': State, a: Ancestors, k: Pubkey, n: Slot)
    requires Clean.CleanEffect(st.index, st'.index, k, n) && k in st'.index
    requires n == 0 || (Has(st.index, k, n) && Sees(a, n))
    requires IndexSlots(st, a, k) != {}
    ensures IndexSlots(st', a, k) != {}
    ensures Newest(IndexSlots(st', a, k)) == Newest(IndexSlots(st, a, k))
  {
    var m := Newest(IndexSlots(st, a, k));
    assert Has(st.index, k, m);
    if n > 0 {
      assert n in IndexSlots(st, a, k);
    }
    assert Has(st'.index, k, m);
    forall s | s in IndexSlots(st', a, k)
      ensures s in IndexSlots(st, a, k)
    {
      assert Has(st'.index, k, s);
    }
    assert m in IndexSlots(st', a, k);
    NewestUnique(IndexSlots(st', a, k), m);
  }

  /** Cleaning a key does not change what the index gives a reader. */
  lemma CleanKeptIndex(st: State, st': State, a: Ancestors, k: Pubkey, n: Slot)
    requires Clean.CleanEffect(st.index, st'.index, k, n) && k in st'.index
    requires n == 0 || (Has(st.index, k, n) && Sees(a, n))
    requires st'.storages == st.storages && st'.shrinking == st.shrinking
    ensures LoadFromIndex(st', a, k) == LoadFromIndex(st, a, k)
  {
    if IndexSlots(st, a, k) == {} {
      forall s | s in IndexSlots(st', a, k)
        ensures s in IndexSlots(st, a, k)
      {
        assert Has(st'.index, k, s);
      }
      assert IndexSlots(st', a, k) == {};
    } else {
      CleanKeepsNewest(st, st', a, k, n);
      var m := Newest(IndexSlots(st, a, k));
      assert Has(st'.index, k, m);
    }
  }

  /** A key that leaves the index was absent for the reader already. */
  lemma CleanRemoved(st: State, a: Ancestors, k: Pubkey, n: Slot, z: Slot)
    requires Resolved(st.index, st.storages, st.shrinking)
    requires Clean.LeavesZero(st.index, k, n, z)
    requires n == 0 || (Has(st.index, k, n) && Sees(a, n))
    ensures Loadable(LoadFromIndex(st, a, k)) == None
  {
    if Sees(a, z) {
      assert z in IndexSlots(st, a, k);
      forall s | s in IndexSlots(st, a, k)
        ensures s <= z
      {
        assert Has(st.index, k, s);
      }
      NewestUnique(IndexSlots(st, a, k), z);
      assert Points(st.index, st.storages, st.shrinking, k, z);
    } else {
      forall s | s in IndexSlots(st, a, k)
        ensures false
      {
        assert Has(st.index, k, s);
      }
      assert IndexSlots(st, a, k) == {};
    }
  }

  lemma KeptFromVisible(st: State, a: Ancestors, k: Pubkey)
    requires Inv(st) && CanCleanKey(st, k) && Sheltered(st, a)
    ensures var n := Clean.KeptFrom(st, k);
            n == 0 || (Has(st.index, k, n) && Sees(a, n))
  {
    var n := Clean.KeptFrom(st, k);
    if n > 0 {
      assert Has(st.index, k, n);
      assert n in st.storages;
    }
  }

  /** Cache first, then index: the answer depends on nothing else. */
  lemma NaiveByLayers(st: State, st': State, a: Ancestors, k: Pubkey)
    requires Inv(st) && Inv(st') && Consistent(st.roots, a)
    requires st'.cache == st.cache && st'.unflushed == st.unflushed && st'.roots == st.roots
    requires Loadable(LoadFromIndex(st', a, k)) == Loadable(LoadFromIndex(st, a, k))
    ensures NaiveLoad(st', a, k) == NaiveLoad(st, a, k)
  {
    assert CacheSlots(st', a, k) == CacheSlots(st, a, k);
    if CacheSlots(st, a, k) == {} {
      IndexOnly(st, a, k);
      IndexOnly(st', a, k);
    } else {
      CacheFirst(st, a, k);
      CacheFirst(st', a, k);
    }
  }

  lemma CleanOtherVersions(st: State, st': State, k: Pubkey, n: Slot, k': Pubkey)
    requires Clean.CleanEffect(st.index, st'.index, k, n) && k' != k
    requires st' == st.(index := st'.index, phase := st'.phase)
    ensures SameVersions(st, st', k')
  {
  }

  lemma CleanSameKey(st: State, a: Ancestors, k: Pubkey)
    requires Inv(st) && CanCleanKey(st, k) && Sheltered(st, a)
    ensures Loadable(LoadFromIndex(CleanOneKey(st, k), a, k)) == Loadable(LoadFromIndex(st, a, k))
  {
    var st' := CleanOneKey(st, k);
    var n := Clean.KeptFrom(st, k);
    Clean.CleanKeyIndex(st, k);
    KeptFromVisible(st, a, k);
    if k in st'.index {
      CleanKeptIndex(st, st', a, k, n);
    } else {
      assert IndexSlots(st', a, k) == {};
      if k in st.index {
        var z := Clean.ZeroLeaver(st, k);
        CleanRemoved(st, a, k, n, z);
      } else {
        assert IndexSlots(st, a, k) == {};
      }
    }
  }

  lemma CleanKeyNaive(st: State, k': Pubkey, a: Ancestors, k: Pubkey)
    requires Inv(st) && CanCleanKey(st, k') && Sheltered(st, a)
    requires Consistent(st.roots, a)
    ensures NaiveLoad(CleanOneKey(st, k'), a, k) == NaiveLoad(st, a, k)
  {
    if k == k' {
      CleanSameKey(st, a, k);
      Clean.CleanKeyInv(st, k);
      NaiveByLayers(st, CleanOneKey(st, k), a, k);
    } else {
      Clean.CleanKeyIndex(st, k');
      CleanOtherVersions(st, CleanOneKey(st, k'), k', Clean.KeptFrom(st, k'), k);
      SameView(st, CleanOneKey(st, k'), a, k);
    }
  }
}
