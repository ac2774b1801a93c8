/** What every reachable state of the store satisfies, also between the steps of a flush,
    a clean or a shrink. Each part names only the components it talks about. */
module Invariant {
  import opened Types
  import opened Storages
  import opened PrimaryIndex
  import opened Store

  // ---------------------------------------------------------------------------------------
  // Slots
  // ---------------------------------------------------------------------------------------

  predicate IsFlushing(phase: Phase, s: Slot) {
    phase.Flushing? && phase.root == s
  }

  /** Stored slots are roots that left the cache, or the one being flushed; a root still in
      the cache is not older than any stored slot. */
  ghost predicate SlotsOk(roots: set<Slot>, unflushed: set<Slot>, cached: set<Slot>,
                          stored: set<Slot>, phase: Phase) {
    && unflushed <= roots
    && stored <= roots
    && (forall s :: s in stored && s in unflushed ==> IsFlushing(phase, s))
    && (forall s, u :: s in stored && u in unflushed ==> s <= u)
    && (forall s :: s in cached && s in roots ==> s in unflushed)
  }

  /** Cleaned slots are below every root still in the cache. */
  ghost predicate CleanBoundOk(roots: set<Slot>, unflushed: set<Slot>, bound: Slot) {
    && (forall u :: u in unflushed ==> bound < u)
    && (exists r :: r in roots && bound <= r)
  }

  ghost predicate MaxCleanedOk(roots: set<Slot>, unflushed: set<Slot>, maxCleaned: Slot) {
    maxCleaned == 0 || CleanBoundOk(roots, unflushed, maxCleaned)
  }

  ghost predicate CacheOk(cache: map<Slot, map<Pubkey, Account>>) {
    forall s, k :: s in cache && k in cache[s] && IsZero(cache[s][k]) ==> cache[s][k] == DEFAULT_ACCOUNT
  }

  // ---------------------------------------------------------------------------------------
  // Storages and index
  // ---------------------------------------------------------------------------------------

  ghost predicate EachStorageOk(storages: StorageMap, nextId: StoreId) {
    forall s :: s in storages ==> StorageOk(storages[s]) && storages[s].id < nextId
  }

  /** The entry of `k` at `s` resolves to an alive record of `k`. */
  predicate Points(ix: Index, storages: StorageMap, shrinking: StorageMap, k: Pubkey, s: Slot)
    requires Has(ix, k, s)
  {
    var info := At(ix, k, s);
    var t := FindStorage(storages, shrinking, s, info.store);
    && t.Some?
    && info.offset in AliveOffsets(t.value)
    && t.value.records[info.offset].pubkey == k
    && info.zero == IsZero(t.value.records[info.offset].account)
  }

  ghost predicate Resolved(ix: Index, storages: StorageMap, shrinking: StorageMap) {
    && NoEmptyLists(ix)
    && (forall k: Pubkey, s: Slot :: Has(ix, k, s) ==> s in storages && Points(ix, storages, shrinking, k, s))
  }

  predicate Rec(storages: StorageMap, s: Slot, i: Offset) {
    s in storages && i < |storages[s].records|
  }

  function KeyAt(storages: StorageMap, s: Slot, i: Offset): Pubkey
    requires Rec(storages, s, i)
  {
    storages[s].records[i].pubkey
  }

  /** A record of the storage being flushed that has not entered the index yet. */
  predicate Fresh(phase: Phase, s: Slot, k: Pubkey) {
    IsFlushing(phase, s) && k in phase.todo
  }

  /** A record is alive for exactly one reason: an index entry, a pending reclaim, or because
      it is still to enter the index. */
  predicate ClaimOk(ix: Index, storages: StorageMap, phase: Phase, s: Slot, i: Offset)
    requires Rec(storages, s, i)
  {
    var k := KeyAt(storages, s, i);
    var has := Has(ix, k, s);
    var pending := (s, i) in PendingIn(phase);
    var entering := Fresh(phase, s, k);
    && (i in AliveOffsets(storages[s]) <==> has || pending || entering)
    && !(has && pending) && !(has && entering) && !(pending && entering)
  }

  ghost predicate Partitioned(ix: Index, storages: StorageMap, phase: Phase) {
    && (forall s: Slot, i: Offset :: Rec(storages, s, i) ==> ClaimOk(ix, storages, phase, s, i))
    && (forall s: Slot, i: Offset :: (s, i) in PendingIn(phase) ==> Rec(storages, s, i))
  }

  /** A tombstone is older than everything the index knows about its key. */
  ghost predicate TombstonesOk(ix: Index, storages: StorageMap) {
    forall s: Slot, i: Offset, t: Slot ::
      Rec(storages, s, i) && i in storages[s].tombstones && Has(ix, KeyAt(storages, s, i), t) ==> s < t
  }

  /** A reclaim is marked with a slot that is not older; one marked with its own slot is a
      zero-lamport account whose key has left the index. */
  ghost predicate ReclaimsOk(ix: Index, storages: StorageMap, pending: Reclaims) {
    forall s: Slot, i: Offset :: (s, i) in pending && Rec(storages, s, i) ==>
      && s <= pending[(s, i)]
      && (s == pending[(s, i)] ==>
            IsZero(storages[s].records[i].account) && KeyAt(storages, s, i) !in ix)
  }

  // ---------------------------------------------------------------------------------------
  // Clean
  // ---------------------------------------------------------------------------------------

  predicate Recorded(uncleaned: map<Slot, set<Pubkey>>, s: Slot, k: Pubkey) {
    s in uncleaned && k in uncleaned[s]
  }

  /** Clean will come across the pair of entries of `k` whose newer one is at `s`. */
  predicate WillClean(uncleaned: map<Slot, set<Pubkey>>, phase: Phase, s: Slot, k: Pubkey) {
    || Recorded(uncleaned, s, k)
    || (phase.Cleaning? && s <= phase.bound && k in phase.keys)
    || (IsFlushing(phase, s) && !phase.clean)
  }

  /** Of two entries of a key the newer one is beyond the cleaned slots and known to clean. */
  ghost predicate UncleanedOk(ix: Index, uncleaned: map<Slot, set<Pubkey>>, maxCleaned: Slot, phase: Phase) {
    forall k: Pubkey, s: Slot, t: Slot :: Has(ix, k, s) && Has(ix, k, t) && s < t ==>
      maxCleaned < t && WillClean(uncleaned, phase, t, k)
  }

  // ---------------------------------------------------------------------------------------
  // Read cache
  // ---------------------------------------------------------------------------------------

  /** The cached account is the newest version in the index. */
  ghost predicate Current(ix: Index, storages: StorageMap, shrinking: StorageMap, k: Pubkey, c: Cached) {
    && ContentIn(ix, storages, shrinking, k, c.slot) == Some(c.account)
    && forall t: Slot :: Has(ix, k, t) ==> t <= c.slot
  }

  /** The cached account is being replaced by a flush that will drop it before its slot leaves
      the write cache. Without cleaning it still is the newest version before that slot. */
  ghost predicate Outgoing(ix: Index, storages: StorageMap, shrinking: StorageMap, phase: Phase,
                           k: Pubkey, c: Cached) {
    && phase.Flushing? && k in phase.evict && k !in phase.todo
    && (!phase.clean ==>
          && c.slot < phase.root
          && ContentIn(ix, storages, shrinking, k, c.slot) == Some(c.account)
          && forall t: Slot :: Has(ix, k, t) && t != phase.root ==> t <= c.slot)
  }

  ghost predicate ReadCacheOk(readCache: map<Pubkey, Cached>, ix: Index, storages: StorageMap,
                              shrinking: StorageMap, phase: Phase) {
    forall k :: k in readCache ==>
      && !IsZero(readCache[k].account)
      && (|| Current(ix, storages, shrinking, k, readCache[k])
          || Outgoing(ix, storages, shrinking, phase, k, readCache[k]))
  }

  /** No step will create an index entry of `k` at `s` any more. */
  predicate Settled(roots: set<Slot>, unflushed: set<Slot>, phase: Phase, k: Pubkey, s: Slot) {
    s in roots && (s in unflushed ==> IsFlushing(phase, s) && k !in phase.todo)
  }

  ghost predicate FetchOk(ix: Index, storages: StorageMap, shrinking: StorageMap,
                          roots: set<Slot>, unflushed: set<Slot>, phase: Phase, f: Fetch) {
    && Settled(roots, unflushed, phase, f.pubkey, f.slot)
    && (Has(ix, f.pubkey, f.slot) ==>
          ContentIn(ix, storages, shrinking, f.pubkey, f.slot) == Some(f.account))
  }

  ghost predicate FetchesOk(fetches: set<Fetch>, ix: Index, storages: StorageMap, shrinking: StorageMap,
                            roots: set<Slot>, unflushed: set<Slot>, phase: Phase) {
    forall f :: f in fetches ==> FetchOk(ix, storages, shrinking, roots, unflushed, phase, f)
  }

  // ---------------------------------------------------------------------------------------
  // Progress of the background step
  // ---------------------------------------------------------------------------------------

  /** A flushed account has its index entry, unless cleaning deleted its key. */
  predicate FlushedKeyOk(ix: Index, phase: Phase, k: Pubkey, a: Account)
    requires phase.Flushing?
  {
    if k in phase.todo then !Has(ix, k, phase.root)
    else if phase.clean && IsZero(a) then k !in ix
    else Has(ix, k, phase.root) && (phase.clean ==> forall t :: t in ix[k] ==> t == phase.root)
  }

  /** An account that was not stored does not matter to a reader of the flushed slot. */
  ghost predicate SkippedKeyOk(st: State, k: Pubkey)
    requires st.phase.Flushing? && st.phase.root in st.cache && k in st.cache[st.phase.root]
  {
    || (st.phase.clean && Superseded(st, st.phase.root, st.phase.bound, k))
    || (IsZero(st.cache[st.phase.root][k]) && k !in st.index)
  }

  ghost predicate FlushSetsOk(st: State)
    requires st.phase.Flushing?
  {
    var p := st.phase;
    && p.root in st.unflushed && p.root in st.cache
    && (forall u :: u in st.unflushed ==> p.root <= u)
    && st.shrinking == map[]
    && p.todo <= p.stored && p.evict <= p.stored && p.stored <= st.cache[p.root].Keys
    && (p.todo != {} ==> p.evict == p.stored && p.root in st.storages)
    && (p.root in st.storages ==> Lists(st, p.root, p.stored, st.storages[p.root].records))
    && (!p.clean ==> p.reclaims == map[])
    && (forall s: Slot, i: Offset :: (s, i) in p.reclaims ==> p.reclaims[(s, i)] == p.root)
    && (p.clean ==> p.bound in st.roots && p.root <= p.bound
                    && forall s :: s in st.scans ==> p.bound <= s)
  }

  ghost predicate FlushKeysOk(st: State)
    requires st.phase.Flushing? && st.phase.root in st.cache
  {
    var c := st.cache[st.phase.root];
    && (forall k :: k in c && k in st.phase.stored ==> FlushedKeyOk(st.index, st.phase, k, c[k]))
    && (forall k :: k in c && k !in st.phase.stored ==> SkippedKeyOk(st, k))
  }

  ghost predicate CleanOk(st: State)
    requires st.phase.Cleaning?
  {
    && CleanBoundOk(st.roots, st.unflushed, st.phase.bound)
    && st.shrinking == map[]
    && (forall s :: s in st.uncleaned ==> s > st.phase.bound)
    && (forall s :: s in st.scans ==> st.phase.bound <= s)
  }

  /** Every record of `now` at `from` is a record of `was` at `within`. */
  ghost predicate RecordsFrom(now: Storage, from: set<Offset>, was: Storage, within: set<Offset>) {
    forall i: Offset {:trigger Contains(was, within, now.records[i])} ::
      i in from && i < |now.records| ==> Contains(was, within, now.records[i])
  }

  /** The new storage holds the alive accounts of the old one, and only tombstones besides. */
  ghost predicate SameAccounts(was: Storage, now: Storage) {
    && RecordsFrom(now, AliveOffsets(now), was, AliveOffsets(was))
    && RecordsFrom(was, AliveOffsets(was), now, AliveOffsets(now))
    && RecordsFrom(now, now.tombstones, was, was.tombstones)
    && now.obsolete == map[]
  }

  ghost predicate MovedOk(st: State)
    requires st.phase.Shrinking?
  {
    var s := st.phase.slot;
    && s in st.storages && s in st.shrinking
    && st.storages[s].id < st.shrinking[s].id
    && SameAccounts(st.storages[s], st.shrinking[s])
    && (forall k: Pubkey :: Has(st.index, k, s) ==>
          At(st.index, k, s).store == if k in st.phase.moving then st.storages[s].id else st.shrinking[s].id)
    && (forall k: Pubkey :: k in st.phase.moving ==> Has(st.index, k, s))
    && (st.phase.stage.Moving? ==>
          && st.shrinking[s].tombstones == {}
          && RecordsOk(st.shrinking[s].records + st.phase.carry)
          && (forall i :: 0 <= i < |st.phase.carry| ==>
                Contains(st.storages[s], st.storages[s].tombstones, st.phase.carry[i])))
    && (st.phase.stage.Carried? ==> st.phase.moving == {})
  }

  ghost predicate ShrinkOk(st: State)
    requires st.phase.Shrinking?
  {
    && st.phase.slot in st.storages
    && st.shrinking.Keys == {st.phase.slot}
    && (if st.phase.stage.Swapped? then
          st.phase.moving == {} && st.shrinking[st.phase.slot] == st.storages[st.phase.slot]
        else MovedOk(st))
  }

  ghost predicate PhaseOk(st: State) {
    match st.phase
    case Idle => st.shrinking == map[]
    case Flushing(_, _, _, _, _, _, _) => FlushSetsOk(st) && FlushKeysOk(st)
    case Cleaning(_, _, _) => CleanOk(st)
    case Shrinking(_, _, _, _) => ShrinkOk(st)
  }

  ghost predicate Inv(st: State) {
    && SlotsOk(st.roots, st.unflushed, st.cache.Keys, st.storages.Keys, st.phase)
    && MaxCleanedOk(st.roots, st.unflushed, st.maxCleaned)
    && CacheOk(st.cache)
    && EachStorageOk(st.storages, st.nextId)
    && EachStorageOk(st.shrinking, st.nextId)
    && Resolved(st.index, st.storages, st.shrinking)
    && Partitioned(st.index, st.storages, st.phase)
    && TombstonesOk(st.index, st.storages)
    && ReclaimsOk(st.index, st.storages, Pending(st))
    && UncleanedOk(st.index, st.uncleaned, st.maxCleaned, st.phase)
    && ReadCacheOk(st.readCache, st.index, st.storages, st.shrinking, st.phase)
    && FetchesOk(st.fetches, st.index, st.storages, st.shrinking, st.roots, st.unflushed, st.phase)
    && PhaseOk(st)
  }

  /** A store that has seen nothing yet. */
  function Empty(): State {
    State(map[], {}, {}, map[], {}, map[], map[], map[], map[], 0, None, {}, multiset{}, 0, Idle)
  }

  lemma EmptyOk()
    ensures Inv(Empty())
  {
  }
}
