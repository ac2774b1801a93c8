/** The account store as a state machine. Each step is one action that other threads can
    observe: a write to the cache, the update of one index entry, the swap of one storage.
    Flush, clean and shrink are serial with each other, so one `Phase` records how far the
    running one has come; readers and writers of the cache interleave freely. */
module Store {
  import opened Types
  import opened AncestorSets
  import opened Storages
  import opened PrimaryIndex

  datatype Cached = Cached(slot: Slot, account: Account)

  /** A load that has read an account from storage and may still put it in the read cache. */
  datatype Fetch = Fetch(pubkey: Pubkey, slot: Slot, account: Account)

  datatype Stage = Moving | Carried | Swapped

  datatype Phase =
    | Idle
      /** Flushing the cache of `root`. `stored` are the accounts written to the new storage,
          `todo` those whose index entry is still to be updated, `evict` those still to be
          dropped from the read cache. With `clean` set older versions are reclaimed, and
          accounts superseded at a root up to `bound` were not stored. */
    | Flushing(root: Slot, clean: bool, bound: Slot,
               stored: set<Pubkey>, todo: set<Pubkey>, evict: set<Pubkey>, reclaims: Reclaims)
      /** Cleaning up to `bound`; `keys` are the candidates still to be visited. */
    | Cleaning(bound: Slot, keys: set<Pubkey>, outdated: Reclaims)
      /** Rewriting the storage of `slot`; `moving` are the accounts still to be repointed,
          `carry` the tombstones to rewrite behind them. */
    | Shrinking(slot: Slot, moving: set<Pubkey>, carry: seq<Record>, stage: Stage)

  datatype State = State(
    cache: map<Slot, map<Pubkey, Account>>,
    roots: set<Slot>,
    unflushed: set<Slot>,
    readCache: map<Pubkey, Cached>,
    fetches: set<Fetch>,
    index: Index,
    storages: map<Slot, Storage>,
    shrinking: map<Slot, Storage>,
    uncleaned: map<Slot, set<Pubkey>>,
    maxCleaned: Slot,
    snapshotSlot: Option<Slot>,
    candidates: set<Slot>,
    scans: multiset<Slot>,
    nextId: StoreId,
    phase: Phase)

  /** `can_purge_zero_lamport_accounts`. */
  predicate MayPurge(snapshotSlot: Option<Slot>, s: Slot) {
    snapshotSlot.None? || s <= snapshotSlot.value
  }

  predicate CanPurge(st: State, s: Slot) {
    MayPurge(st.snapshotSlot, s)
  }

  /** Reclaims taken out of the index but not recorded in their storage yet. */
  function PendingIn(phase: Phase): Reclaims {
    match phase
    case Flushing(_, _, _, _, _, _, reclaims) => reclaims
    case Cleaning(_, _, outdated) => outdated
    case _ => map[]
  }

  function Pending(st: State): Reclaims {
    PendingIn(st.phase)
  }

  /** The offsets of slot `s` among the reclaims `p`. */
  function PendingAt(p: Reclaims, s: Slot): set<Offset> {
    set q | q in p.Keys && q.0 == s :: q.1
  }

  lemma PendingAtHas(p: Reclaims, s: Slot, o: Offset)
    ensures o in PendingAt(p, s) <==> (s, o) in p
  {
    if (s, o) in p {
      assert (s, o) in p.Keys && (s, o).0 == s && (s, o).1 == o;
    }
  }

  type StorageMap = map<Slot, Storage>

  /** `get_account_storage_entry`, as one look at both maps. */
  function FindStorage(storages: StorageMap, shrinking: StorageMap, s: Slot, id: StoreId): Option<Storage> {
    if s in storages && storages[s].id == id then Some(storages[s])
    else if s in shrinking && shrinking[s].id == id then Some(shrinking[s])
    else None
  }

  /** The account an index entry points at. */
  function ContentIn(ix: Index, storages: StorageMap, shrinking: StorageMap, k: Pubkey, s: Slot)
    : Option<Account>
  {
    if !Has(ix, k, s) then None
    else
      var info := At(ix, k, s);
      var t := FindStorage(storages, shrinking, s, info.store);
      if t.None? || info.offset >= |t.value.records| then None
      else Some(t.value.records[info.offset].account)
  }

  function Content(st: State, k: Pubkey, s: Slot): Option<Account> {
    ContentIn(st.index, st.storages, st.shrinking, k, s)
  }

  // ---------------------------------------------------------------------------------------
  // Readers
  // ---------------------------------------------------------------------------------------

  /** The cached version of `k` at `s` can be seen by `a`. */
  predicate CacheSees(st: State, a: Ancestors, k: Pubkey, s: Slot) {
    && s in st.cache && k in st.cache[s]
    && (s in a || (s in st.unflushed && Sees(a, s)))
  }

  ghost function CacheSlots(st: State, a: Ancestors, k: Pubkey): set<Slot> {
    set s | s in st.cache.Keys && CacheSees(st, a, k, s)
  }

  ghost function IndexSlots(st: State, a: Ancestors, k: Pubkey): set<Slot> {
    set s | s in ListOf(st.index, k) && Sees(a, s)
  }

  /** The newest visible version in the write cache. */
  ghost function LoadFromCache(st: State, a: Ancestors, k: Pubkey): Option<Account> {
    var slots := CacheSlots(st, a, k);
    if slots == {} then None else Some(st.cache[Newest(slots)][k])
  }

  /** The newest visible version in the index. */
  ghost function LoadFromIndex(st: State, a: Ancestors, k: Pubkey): Option<Account> {
    var slots := IndexSlots(st, a, k);
    if slots == {} then None else Content(st, k, Newest(slots))
  }

  predicate ReadCacheHit(st: State, a: Ancestors, k: Pubkey) {
    k in st.readCache && Sees(a, st.readCache[k].slot)
  }

  /** `do_load`: write cache, then read cache, then index and storage. */
  ghost function DoLoad(st: State, a: Ancestors, k: Pubkey): Option<Account> {
    if CacheSlots(st, a, k) != {} then LoadFromCache(st, a, k)
    else if ReadCacheHit(st, a, k) then Some(st.readCache[k].account)
    else LoadFromIndex(st, a, k)
  }

  /** `load`: zero-lamport accounts are absent. */
  ghost function Load(st: State, a: Ancestors, k: Pubkey): Option<Account> {
    Loadable(DoLoad(st, a, k))
  }

  /** The specification of a load: among all versions the reader can see, in the write cache
      or in storage, the one of the newest slot. */
  ghost function NaiveLoad(st: State, a: Ancestors, k: Pubkey): Option<Account> {
    var slots := CacheSlots(st, a, k) + IndexSlots(st, a, k);
    if slots == {} then None
    else
      var s := Newest(slots);
      Loadable(if s in CacheSlots(st, a, k) then Some(st.cache[s][k]) else Content(st, k, s))
  }

  // ---------------------------------------------------------------------------------------
  // Steps of writers, replay and readers
  // ---------------------------------------------------------------------------------------

  /** `AccountsCache::store`. Rooted slots are frozen. */
  ghost predicate CanStore(st: State, s: Slot, a: Account) {
    s !in st.roots && (IsZero(a) ==> a == DEFAULT_ACCOUNT)
  }

  function StoreCached(st: State, s: Slot, k: Pubkey, a: Account): State {
    var slotCache := if s in st.cache then st.cache[s] else map[];
    st.(cache := st.cache[s := slotCache[k := a]])
  }

  ghost predicate CanAddRoot(st: State, r: Slot) {
    forall t :: t in st.roots ==> t < r
  }

  function AddRoot(st: State, r: Slot): State {
    st.(roots := st.roots + {r}, unflushed := st.unflushed + {r})
  }

  /** `purge_slots_from_cache`: an abandoned fork leaves the cache. */
  ghost predicate CanPurgeSlot(st: State, s: Slot) {
    s !in st.roots
  }

  function PurgeSlot(st: State, s: Slot): State {
    st.(cache := st.cache - {s})
  }

  /** A load has read the entry of `k` at `s`. */
  ghost predicate CanFetch(st: State, k: Pubkey, s: Slot) {
    Content(st, k, s).Some?
  }

  ghost function FetchAccount(st: State, k: Pubkey, s: Slot): State
    requires CanFetch(st, k, s)
  {
    st.(fetches := st.fetches + {Fetch(k, s, Content(st, k, s).value)})
  }

  /** The end of a populating load: the account enters the read cache only while its slot is
      the newest one in the index, and never if it is zero-lamport. */
  ghost predicate CanPopulate(st: State, f: Fetch) {
    && f in st.fetches
    && !IsZero(f.account)
    && Has(st.index, f.pubkey, f.slot)
    && forall t: Slot :: Has(st.index, f.pubkey, t) ==> t <= f.slot
  }

  function Populate(st: State, f: Fetch): State {
    st.(readCache := st.readCache[f.pubkey := Cached(f.slot, f.account)],
        fetches := st.fetches - {f})
  }

  function DropFetch(st: State, f: Fetch): State {
    st.(fetches := st.fetches - {f})
  }

  function Evict(st: State, k: Pubkey): State {
    st.(readCache := st.readCache - {k})
  }

  /** `ScanGuard::try_new` pins the current highest root. */
  ghost predicate CanBeginScan(st: State) {
    st.roots != {}
  }

  ghost function BeginScan(st: State): State
    requires CanBeginScan(st)
  {
    st.(scans := st.scans + multiset{Newest(st.roots)})
  }

  function EndScan(st: State, root: Slot): State {
    st.(scans := st.scans - multiset{root})
  }

  /** `set_latest_full_snapshot_slot`, called between background steps. */
  ghost predicate CanSetSnapshot(st: State, s: Slot) {
    && st.phase.Idle?
    && (st.snapshotSlot.Some? ==> st.snapshotSlot.value <= s)
  }

  function SetSnapshot(st: State, s: Slot): State {
    st.(snapshotSlot := Some(s))
  }

  // ---------------------------------------------------------------------------------------
  // Flush
  // ---------------------------------------------------------------------------------------

  /** The accounts of `keys` that flushing `r` writes: a zero-lamport account that is not in
      the index has nothing to shadow and is skipped. */
  function ToStore(st: State, r: Slot, keys: set<Pubkey>): set<Pubkey>
    requires r in st.cache && keys <= st.cache[r].Keys
  {
    set k | k in keys && !(IsZero(st.cache[r][k]) && k !in st.index)
  }

  /** `records` lists the accounts `keys` of the cache of `r`, in some order. */
  ghost predicate Lists(st: State, r: Slot, keys: set<Pubkey>, records: seq<Record>) {
    && r in st.cache
    && DistinctKeys(records)
    && KeysOf(records) == keys
    && keys <= st.cache[r].Keys
    && forall i :: 0 <= i < |records| && records[i].pubkey in st.cache[r] ==>
         records[i].account == st.cache[r][records[i].pubkey]
  }

  /** `k` is superseded at a root after `r`, not beyond `bound`, that is still in the cache. */
  ghost predicate Superseded(st: State, r: Slot, bound: Slot, k: Pubkey) {
    exists r' :: r' in st.unflushed && r < r' <= bound && r' in st.cache && k in st.cache[r']
  }

  /** Roots are flushed oldest first. With cleaning, the accounts left out are superseded
      within the cleaned roots, and no scan is pinned below them. */
  ghost predicate CanBeginFlush(st: State, r: Slot, clean: bool, bound: Slot,
                                keys: set<Pubkey>, records: seq<Record>) {
    && st.phase.Idle?
    && r in st.unflushed && r in st.cache
    && (forall u :: u in st.unflushed ==> r <= u)
    && keys <= st.cache[r].Keys
    && Lists(st, r, ToStore(st, r, keys), records)
    && (!clean ==> keys == st.cache[r].Keys)
    && (clean ==>
          && bound in st.roots && r <= bound
          && (forall s :: s in st.scans ==> bound <= s)
          && (forall k :: k in st.cache[r] && k !in keys ==> Superseded(st, r, bound, k)))
  }

  /** The storages with one for `records` at `r`; nothing is written if there are none. */
  function WithRecords(storages: StorageMap, r: Slot, id: StoreId, records: seq<Record>): StorageMap {
    if records == [] then storages else storages[r := NewStorage(id, records)]
  }

  /** The new storage is complete and in the map before the index mentions it. */
  function BeginFlush(st: State, r: Slot, clean: bool, bound: Slot, records: seq<Record>): State {
    st.(storages := WithRecords(st.storages, r, st.nextId, records),
        nextId := if records == [] then st.nextId else st.nextId + 1,
        phase := Flushing(r, clean, bound, KeysOf(records), KeysOf(records), KeysOf(records), map[]))
  }

  /** The record at offset `i` of the new storage is the next one to enter the index. */
  ghost predicate CanFlushKey(st: State, i: Offset) {
    && st.phase.Flushing?
    && st.phase.root in st.storages
    && i < |st.storages[st.phase.root].records|
    && st.storages[st.phase.root].records[i].pubkey in st.phase.todo
  }

  /** `update_index_for_flush` for one account. */
  function FlushKey(st: State, i: Offset): State
    requires CanFlushKey(st, i)
  {
    var r := st.phase.root;
    var t := st.storages[r];
    var k := t.records[i].pubkey;
    var info := Info(t.id, i, IsZero(t.records[i].account));
    var todo := st.phase.todo - {k};
    if !st.phase.clean then
      st.(index := UpsertKeepOld(st.index, k, r, info), phase := st.phase.(todo := todo))
    else if info.zero then
      var ix := Delete(st.index, k);
      var out := TakenOut(st.index, ix, k, (_: Slot) => r)[(r, i) := r];
      st.(index := ix, phase := st.phase.(todo := todo, reclaims := st.phase.reclaims + out))
    else
      var ix := UpsertReclaimOld(st.index, k, r, info);
      var out := TakenOut(st.index, ix, k, (_: Slot) => r);
      st.(index := ix, phase := st.phase.(todo := todo, reclaims := st.phase.reclaims + out))
  }

  /** The read cache entry of a flushed account is dropped after the index is updated. */
  ghost predicate CanFlushEvict(st: State, k: Pubkey) {
    st.phase.Flushing? && st.phase.todo == {} && k in st.phase.evict
  }

  function FlushEvict(st: State, k: Pubkey): State
    requires st.phase.Flushing?
  {
    st.(readCache := st.readCache - {k}, phase := st.phase.(evict := st.phase.evict - {k}))
  }

  /** All reclaims are handled, then the slot leaves the cache. */
  ghost predicate CanEndFlush(st: State) {
    st.phase.Flushing? && st.phase.todo == {} && st.phase.evict == {} && st.phase.reclaims == map[]
  }

  function EndFlush(st: State): State
    requires st.phase.Flushing?
  {
    var r := st.phase.root;
    var was := if r in st.uncleaned then st.uncleaned[r] else {};
    st.(cache := st.cache - {r},
        unflushed := st.unflushed - {r},
        uncleaned := if st.phase.clean then st.uncleaned
                     else st.uncleaned[r := was + st.phase.stored],
        phase := Idle)
  }

  /** A flushed root without a cache is only untracked (`remove_unflushed_root`). */
  ghost predicate CanUntrack(st: State, r: Slot) {
    && st.phase.Idle? && r in st.unflushed && r !in st.cache
    && forall u :: u in st.unflushed ==> r <= u
  }

  function Untrack(st: State, r: Slot): State {
    st.(unflushed := st.unflushed - {r})
  }

  // ---------------------------------------------------------------------------------------
  // Reclaims, for flush and clean
  // ---------------------------------------------------------------------------------------

  /** The reclaims of one slot at `offsets` are due, all with the same mark. Flush handles all
      of a slot at once, clean handles them one by one. */
  ghost predicate CanHandle(st: State, s: Slot, offsets: set<Offset>, mark: Slot) {
    && (st.phase.Flushing? ==> st.phase.todo == {} && st.phase.evict == {})
    && (st.phase.Cleaning? ==> st.phase.keys == {})
    && offsets != {}
    && forall o: Offset :: o in offsets ==>
         (s, o) in Pending(st) && Pending(st)[(s, o)] == mark
  }

  /** The background step with the reclaims of `s` at `offsets` done. */
  function WithoutPending(phase: Phase, s: Slot, offsets: set<Offset>): Phase {
    var handled := set o: Offset | o in offsets :: (s, o);
    match phase
    case Flushing(_, _, _, _, _, _, reclaims) => phase.(reclaims := reclaims - handled)
    case Cleaning(_, _, outdated) => phase.(outdated := outdated - handled)
    case _ => phase
  }

  function PutBack(storages: StorageMap, s: Slot, r: Option<Storage>): StorageMap {
    if r.Some? then storages[s := r.value] else storages - {s}
  }

  /** `handle_reclaims`: record the reclaims, drop the storage if the slot is dead. */
  function Handle(st: State, s: Slot, offsets: set<Offset>, mark: Slot): State
    requires CanHandle(st, s, offsets, mark)
  {
    var st' := st.(phase := WithoutPending(st.phase, s, offsets));
    if s !in st.storages then st'
    else
      var r := HandleGroup(st.storages[s], s, offsets, mark, CanPurge(st, s));
      st'.(storages := PutBack(st.storages, s, r),
           candidates := if r.Some? then st.candidates else st.candidates - {s})
  }

  // ---------------------------------------------------------------------------------------
  // Clean
  // ---------------------------------------------------------------------------------------

  /** The clean root is below every root still in the cache, and no scan is pinned below it. */
  ghost predicate CanBeginClean(st: State, bound: Slot) {
    && st.phase.Idle?
    && (forall u :: u in st.unflushed ==> bound < u)
    && (exists r :: r in st.roots && bound <= r)
    && (forall s :: s in st.scans ==> bound <= s)
  }

  function CandidateKeys(st: State, bound: Slot): set<Pubkey> {
    set s, k | s in st.uncleaned && s <= bound && k in st.uncleaned[s] :: k
  }

  /** `construct_candidate_clean_keys`. */
  function BeginClean(st: State, bound: Slot): State {
    st.(uncleaned := map s | s in st.uncleaned && s > bound :: st.uncleaned[s],
        phase := Cleaning(bound, CandidateKeys(st, bound), map[]))
  }

  ghost predicate CanCleanKey(st: State, k: Pubkey) {
    st.phase.Cleaning? && k in st.phase.keys
  }

  ghost function CleanOneKey(st: State, k: Pubkey): State
    requires CanCleanKey(st, k)
  {
    var bound := st.phase.bound;
    st.(index := CleanKey(st.index, k, bound),
        phase := st.phase.(keys := st.phase.keys - {k},
                           outdated := st.phase.outdated + CleanReclaims(st.index, k, bound)))
  }

  ghost predicate CanEndClean(st: State) {
    st.phase.Cleaning? && st.phase.keys == {} && st.phase.outdated == map[]
  }

  function EndClean(st: State): State
    requires st.phase.Cleaning?
  {
    st.(maxCleaned := if st.maxCleaned < st.phase.bound then st.phase.bound else st.maxCleaned,
        phase := Idle)
  }

  /** `has_only_tombstones`. */
  predicate OnlyTombstones(t: Storage) {
    |t.tombstones| > 0 && t.aliveCount == |t.tombstones|
  }

  /** `sweep_slots_after_snapshot` for one slot covered by the full snapshot. */
  ghost predicate CanSweep(st: State, s: Slot) {
    && (st.phase.Idle? || (st.phase.Cleaning? && st.phase.outdated == map[]))
    && st.snapshotSlot.Some? && s <= st.snapshotSlot.value
    && s in st.storages && OnlyTombstones(st.storages[s])
  }

  function Sweep(st: State, s: Slot): State {
    st.(storages := st.storages - {s})
  }

  // ---------------------------------------------------------------------------------------
  // Shrink
  // ---------------------------------------------------------------------------------------

  /** `alive_bytes_after_shrink`. */
  function AliveBytesAfterShrink(t: Storage, canPurge: bool): int {
    if canPurge then
      var rest := t.aliveBytes - |t.tombstones| * StoredSize(0);
      if rest < 0 then 0 else rest
    else t.aliveBytes
  }

  /** `is_shrinking_productive`. */
  predicate Productive(t: Storage, canPurge: bool) {
    AliveBytesAfterShrink(t, canPurge) < t.storedBytes
  }

  /** `queue_shrink_candidates` takes productive storages; which of them also pass the
      configured ratio is left open. */
  ghost predicate CanQueue(st: State, s: Slot) {
    && st.shrinking == map[]
    && s in st.storages && Productive(st.storages[s], CanPurge(st, s))
  }

  function Queue(st: State, s: Slot): State {
    st.(candidates := st.candidates + {s})
  }

  /** `rec` is one of the records of `t` at `offsets`. */
  ghost predicate Contains(t: Storage, offsets: set<Offset>, rec: Record) {
    exists j: Offset :: j in offsets && j < |t.records| && t.records[j] == rec
  }

  /** `records` lists the records of `t` at `offsets`, in some order. */
  ghost predicate ListsOffsets(t: Storage, offsets: set<Offset>, records: seq<Record>) {
    && DistinctKeys(records)
    && (forall i {:trigger Contains(t, offsets, records[i])} :: 0 <= i < |records| ==> Contains(t, offsets, records[i]))
    && (forall j: Offset :: j in offsets && j < |t.records| ==> t.records[j] in records)
  }

  /** `shrink_collect`: the alive accounts, and the tombstones unless they can be purged. */
  ghost predicate Collected(t: Storage, canPurge: bool, alive: seq<Record>, carry: seq<Record>) {
    && ListsOffsets(t, AliveOffsets(t), alive)
    && (if canPurge then carry == [] else ListsOffsets(t, t.tombstones, carry))
  }

  /** The bytes a shrink would write. */
  function RewriteBytes(alive: seq<Record>, carry: seq<Record>): nat {
    Bytes(alive, AllOffsets(alive)) + Bytes(carry, AllOffsets(carry))
  }

  /** `shrink_storage` skips slots in the cache, storages of which nothing would be left, and
      storages that would not get smaller. */
  ghost predicate CanBeginShrink(st: State, s: Slot, alive: seq<Record>, carry: seq<Record>) {
    && st.phase.Idle?
    && s in st.storages && s !in st.cache
    && Collected(st.storages[s], CanPurge(st, s), alive, carry)
    && 0 < RewriteBytes(alive, carry) < st.storages[s].storedBytes
  }

  function BeginShrink(st: State, s: Slot, alive: seq<Record>, carry: seq<Record>): State {
    st.(shrinking := st.shrinking[s := NewStorage(st.nextId, alive)],
        nextId := st.nextId + 1,
        phase := Shrinking(s, KeysOf(alive), carry, Moving))
  }

  ghost predicate CanShrinkKey(st: State, i: Offset) {
    && st.phase.Shrinking? && st.phase.stage.Moving?
    && st.phase.slot in st.shrinking
    && i < |st.shrinking[st.phase.slot].records|
    && st.shrinking[st.phase.slot].records[i].pubkey in st.phase.moving
    && Has(st.index, st.shrinking[st.phase.slot].records[i].pubkey, st.phase.slot)
  }

  /** `update_index_for_shrink` for one account. */
  function ShrinkKey(st: State, i: Offset): State
    requires CanShrinkKey(st, i)
  {
    var s := st.phase.slot;
    var t := st.shrinking[s];
    var k := t.records[i].pubkey;
    st.(index := Replace(st.index, k, s, Info(t.id, i, IsZero(t.records[i].account))),
        phase := st.phase.(moving := st.phase.moving - {k}))
  }

  ghost predicate CanCarry(st: State) {
    && st.phase.Shrinking? && st.phase.stage.Moving? && st.phase.moving == {}
    && st.phase.slot in st.shrinking
  }

  /** `store_tombstones`. */
  function Carry(st: State): State
    requires st.phase.Shrinking? && st.phase.slot in st.shrinking
  {
    var s := st.phase.slot;
    st.(shrinking := st.shrinking[s := WithTombstones(st.shrinking[s], st.phase.carry)],
        phase := st.phase.(stage := Carried))
  }

  ghost predicate CanSwap(st: State) {
    && st.phase.Shrinking? && st.phase.stage.Carried? && st.phase.slot in st.shrinking
  }

  /** First half of dropping `ShrinkInProgress`: the new storage enters the map. */
  function Swap(st: State): State
    requires st.phase.Shrinking? && st.phase.slot in st.shrinking
  {
    var s := st.phase.slot;
    st.(storages := st.storages[s := st.shrinking[s]],
        candidates := st.candidates - {s},
        phase := st.phase.(stage := Swapped))
  }

  ghost predicate CanEndShrink(st: State) {
    st.phase.Shrinking? && st.phase.stage.Swapped?
  }

  /** Second half: the new storage leaves the shrink map. */
  function EndShrink(st: State): State
    requires st.phase.Shrinking?
  {
    st.(shrinking := st.shrinking - {st.phase.slot}, phase := Idle)
  }
}
