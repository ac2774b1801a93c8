/** The background operations as loops over the store: flush, clean, sweep and shrink. Each is
    a run of the machine's steps, so all that is proved about runs holds for it; here it is
    shown that the operations get through to their end, and what they leave behind. */
module AccountsDatabase {
  import opened Types
  import opened Storages
  import opened PrimaryIndex
  import opened Store
  import opened Invariant
  import opened Machine
  import opened Work
  import opened ShrinkSize
  import opened FlushOrder
  import opened FlushedStorage
  import Flush = FlushProofs
  import Reclaim = ReclaimProofs

  // ---------------------------------------------------------------------------------------
  // Flush
  // ---------------------------------------------------------------------------------------

  /** The accounts of `keys`, in any order. */
  method ListAccounts(accounts: map<Pubkey, Account>, keys: set<Pubkey>) returns (records: seq<Record>)
    requires keys <= accounts.Keys
    ensures DistinctKeys(records) && KeysOf(records) == keys
    ensures forall i :: 0 <= i < |records| && records[i].pubkey in accounts ==> records[i].account == accounts[records[i].pubkey]
  {
    records := [];
    var done: set<Pubkey> := {};
    while done != keys
      invariant done <= keys && KeysOf(records) == done
      invariant DistinctKeys(records)
      invariant forall i :: 0 <= i < |records| && records[i].pubkey in accounts ==> records[i].account == accounts[records[i].pubkey]
      decreases |keys - done|
    {
      var k :| k in keys - done;
      KeysOfAppend(records, Record(k, accounts[k]));
      SubsetSize(keys - (done + {k}), keys - done);
      records, done := records + [Record(k, accounts[k])], done + {k};
    }
  }

  lemma KeysOfAppend(records: seq<Record>, rec: Record)
    ensures KeysOf(records + [rec]) == KeysOf(records) + {rec.pubkey}
    ensures DistinctKeys(records) && rec.pubkey !in KeysOf(records) ==> DistinctKeys(records + [rec])
  {
    var all := records + [rec];
    forall k
      ensures k in KeysOf(all) <==> k in KeysOf(records) || k == rec.pubkey
    {
      if k in KeysOf(records) {
        var i :| 0 <= i < |records| && records[i].pubkey == k;
        assert all[i].pubkey == k;
      }
      assert all[|records|] == rec;
    }
    forall i | 0 <= i < |records|
      ensures records[i].pubkey in KeysOf(records)
    {
    }
  }

  lemma KeysOfRest(records: seq<Record>, i: nat)
    requires DistinctKeys(records) && i < |records|
    ensures records[i].pubkey in KeysOf(records[i..])
    ensures KeysOf(records[i..]) - {records[i].pubkey} == KeysOf(records[i + 1..])
  {
    var rest := records[i..];
    assert rest[0] == records[i];
    forall k
      ensures k in KeysOf(rest) <==> k == records[i].pubkey || k in KeysOf(records[i + 1..])
      ensures k == records[i].pubkey ==> k !in KeysOf(records[i + 1..])
    {
      if k in KeysOf(rest) && k != records[i].pubkey {
        var j :| 0 <= j < |rest| && rest[j].pubkey == k;
        assert records[i + 1..][j - 1].pubkey == k;
      }
      if k in KeysOf(records[i + 1..]) {
        var j :| 0 <= j < |records[i + 1..]| && records[i + 1..][j].pubkey == k;
        assert rest[j + 1].pubkey == k && records[i + 1 + j].pubkey == k;
      }
    }
  }

  /** What a flush leaves alone until its end. */
  predicate SameOutside(st: State, st': State) {
    && st'.cache == st.cache && st'.roots == st.roots && st'.unflushed == st.unflushed
    && st'.scans == st.scans && st'.snapshotSlot == st.snapshotSlot && st'.maxCleaned == st.maxCleaned
    && st'.shrinking == st.shrinking
  }

  /** The flush of `root` that stored `records` is under way. */
  predicate Underway(st0: State, st: State, root: Slot, clean: bool, bound: Slot, records: seq<Record>) {
    && SameOutside(st0, st)
    && st.phase.Flushing? && st.phase.root == root && st.phase.clean == clean && st.phase.bound == bound
    && st.phase.stored == KeysOf(records)
  }

  /** In a flush all reclaims of a slot are due at once, since all are marked with its root. */
  lemma FlushDue(st: SoundState, s: Slot, o: Offset)
    requires st.phase.Flushing? && st.phase.todo == {} && st.phase.evict == {}
    requires (s, o) in st.phase.reclaims
    ensures CanHandle(st, s, PendingAt(st.phase.reclaims, s), st.phase.root)
  {
    PendingAtHas(st.phase.reclaims, s, o);
    forall x: Offset | x in PendingAt(st.phase.reclaims, s)
      ensures (s, x) in Pending(st) && Pending(st)[(s, x)] == st.phase.root
    {
      PendingAtHas(st.phase.reclaims, s, x);
    }
  }

  /** Handling reclaims leaves fewer of them. */
  lemma FewerPending(p: Reclaims, p': Reclaims, s: Slot, offsets: set<Offset>, o: Offset)
    requires Reclaim.PendingWithout(p, p', s, offsets) && o in offsets && (s, o) in p
    ensures |p'.Keys| < |p.Keys|
  {
    forall q | q in p'.Keys
      ensures q in p.Keys
    {
      assert (q.0, q.1) in p';
    }
    assert (s, o) in p.Keys && (s, o) !in p'.Keys;
    SubsetSize(p'.Keys, p.Keys);
  }

  // ---------------------------------------------------------------------------------------
  // Clean
  // ---------------------------------------------------------------------------------------

  /** The newest slot at or below `bound`, 0 if there is none. */
  method FindNewestUpTo(l: SlotList, bound: Slot) returns (n: Slot)
    ensures n == NewestUpTo(l, bound)
  {
    n := 0;
    var found := false;
    var done: set<Slot> := {};
    while done != l.Keys
      invariant done <= l.Keys
      invariant !found ==> n == 0 && forall t :: t in done ==> t > bound
      invariant found ==> n in l && n <= bound && forall t :: t in done && t <= bound ==> t <= n
      decreases |l.Keys - done|
    {
      var t :| t in l.Keys - done;
      if t <= bound && (!found || n < t) {
        n, found := t, true;
      }
      SubsetSize(l.Keys - (done + {t}), l.Keys - done);
      done := done + {t};
    }
  }

  /** `clean_rooted_entries` for one candidate: of its versions up to the bound only the newest
      stays, and the key goes if that leaves nothing but a zero-lamport account. */
  method CleanCandidate(st: State, k: Pubkey) returns (st': State)
    requires CanCleanKey(st, k)
    ensures st' == CleanOneKey(st, k)
    ensures k in st.index ==>
              (k !in st'.index <==> exists z: Slot :: LoneZeroFrom(st.index, k, NewestUpTo(st.index[k], st.phase.bound), z))
  {
    if k in st.index {
      CleanKeyRemoves(st.index, k, st.phase.bound);
    }
    var n := FindNewestUpTo(ListOf(st.index, k), st.phase.bound);
    st' := st.(index := CleanFrom(st.index, k, n),
               phase := st.phase.(keys := st.phase.keys - {k},
                                  outdated := st.phase.outdated + ReclaimsFrom(st.index, k, n)));
  }

  /** What a clean leaves alone. */
  predicate SameCache(st: State, st': State) {
    && st'.cache == st.cache && st'.roots == st.roots && st'.unflushed == st.unflushed
    && st'.scans == st.scans && st'.snapshotSlot == st.snapshotSlot && st'.maxCleaned == st.maxCleaned
  }

  predicate CleanUnderway(st0: State, st: State, bound: Slot) {
    SameCache(st0, st) && st.phase.Cleaning? && st.phase.bound == bound
  }

  /** The index after a clean of `keys`: theirs are cleaned, the others as they were. */
  ghost predicate CleanedIndex(ix0: Index, ix: Index, keys: set<Pubkey>, bound: Slot) {
    forall k :: ListOf(ix, k) == if k in keys then ListOf(CleanKey(ix0, k, bound), k) else ListOf(ix0, k)
  }

  lemma NoneCleaned(ix: Index, keys: set<Pubkey>, bound: Slot)
    ensures CleanedIndex(ix, ix, keys - keys, bound)
  {
  }

  lemma CleanOtherKey(ix: Index, k: Pubkey, bound: Slot, k': Pubkey)
    requires k' != k
    ensures ListOf(CleanKey(ix, k, bound), k') == ListOf(ix, k')
  {
  }

  lemma CleanSameKey(ix0: Index, ix: Index, k: Pubkey, bound: Slot)
    requires ListOf(ix, k) == ListOf(ix0, k)
    ensures ListOf(CleanKey(ix, k, bound), k) == ListOf(CleanKey(ix0, k, bound), k)
  {
    var n := NewestUpTo(ListOf(ix, k), bound);
    assert NotOlder(map[], n) == map[];
  }

  lemma CleanedOneMore(ix0: Index, ix: Index, keys: set<Pubkey>, todo: set<Pubkey>, k: Pubkey, bound: Slot)
    requires CleanedIndex(ix0, ix, keys - todo, bound) && k in todo && todo <= keys
    ensures CleanedIndex(ix0, CleanKey(ix, k, bound), keys - (todo - {k}), bound)
  {
    forall k'
      ensures ListOf(CleanKey(ix, k, bound), k') ==
              if k' in keys - (todo - {k}) then ListOf(CleanKey(ix0, k', bound), k') else ListOf(ix0, k')
    {
      if k' == k {
        CleanSameKey(ix0, ix, k, bound);
      } else {
        CleanOtherKey(ix, k, bound, k');
      }
    }
  }

  /** A key that is deleted for good: all that is left of it is one zero-lamport version. */
  ghost predicate LeftDeleted(ix: Index, k: Pubkey) {
    exists z: Slot :: Has(ix, k, z) && At(ix, k, z).zero && forall s: Slot :: Has(ix, k, s) ==> s == z
  }

  /** What a clean is for: of each key a single version up to the bound is left, and no key is
      left as deleted. */
  lemma CleanedKey(ix0: Index, ix: Index, keys: set<Pubkey>, k: Pubkey, bound: Slot)
    requires NoEmptyLists(ix0) && CleanedIndex(ix0, ix, keys, bound) && k in keys
    ensures !LeftDeleted(ix, k)
    ensures forall s: Slot, t: Slot :: Has(ix, k, s) && Has(ix, k, t) && s < t ==> t > bound
  {
    var r := CleanKey(ix0, k, bound);
    CleanKeyEffect(ix0, k, bound);
    forall s: Slot
      ensures Has(ix, k, s) <==> Has(r, k, s)
      ensures Has(ix, k, s) ==> At(ix, k, s) == At(r, k, s)
    {
      assert Has(ix, k, s) <==> s in ListOf(ix, k);
    }
    if z: Slot :| Has(ix, k, z) && At(ix, k, z).zero && forall s: Slot :: Has(ix, k, s) ==> s == z {
      CleanKeyLeaves(ix0, k, bound, z);
    }
  }

  lemma CleanDue(st: SoundState, s: Slot, o: Offset)
    requires st.phase.Cleaning? && st.phase.keys == {} && (s, o) in st.phase.outdated
    ensures CanHandle(st, s, {o}, st.phase.outdated[(s, o)])
  {
  }

  // ---------------------------------------------------------------------------------------
  // Shrink
  // ---------------------------------------------------------------------------------------

  /** The records among the first `n` at `offsets`, in order. */
  function RecordsAt(t: Storage, offsets: set<Offset>, n: nat): seq<Record>
    requires n <= |t.records|
  {
    if n == 0 then []
    else RecordsAt(t, offsets, n - 1) + if n - 1 in offsets then [t.records[n - 1]] else []
  }

  lemma {:induction false} RecordsAtHas(t: Storage, offsets: set<Offset>, n: nat, rec: Record)
    requires n <= |t.records|
    ensures rec in RecordsAt(t, offsets, n) <==> exists j: Offset :: j in offsets && j < n && t.records[j] == rec
  {
    if n > 0 {
      RecordsAtHas(t, offsets, n - 1, rec);
    }
  }

  lemma {:induction false} RecordsAtDistinct(t: Storage, offsets: set<Offset>, n: nat)
    requires DistinctKeys(t.records) && n <= |t.records|
    ensures DistinctKeys(RecordsAt(t, offsets, n))
  {
    if n > 0 {
      RecordsAtDistinct(t, offsets, n - 1);
      var rest := RecordsAt(t, offsets, n - 1);
      forall i | 0 <= i < |rest|
        ensures rest[i].pubkey != t.records[n - 1].pubkey
      {
        RecordsAtHas(t, offsets, n - 1, rest[i]);
      }
    }
  }

  lemma RecordsAtLists(t: Storage, offsets: set<Offset>)
    requires DistinctKeys(t.records)
    ensures ListsOffsets(t, offsets, RecordsAt(t, offsets, |t.records|))
  {
    var records := RecordsAt(t, offsets, |t.records|);
    RecordsAtDistinct(t, offsets, |t.records|);
    forall i | 0 <= i < |records|
      ensures Contains(t, offsets, records[i])
    {
      RecordsAtHas(t, offsets, |t.records|, records[i]);
    }
    forall j: Offset | j in offsets && j < |t.records|
      ensures t.records[j] in records
    {
      RecordsAtHas(t, offsets, |t.records|, t.records[j]);
    }
  }

  /** `shrink_collect`: obsolete records are left out, tombstones set apart. */
  method CollectForShrink(t: Storage, canPurge: bool) returns (alive: seq<Record>, carry: seq<Record>)
    requires DistinctKeys(t.records)
    ensures Collected(t, canPurge, alive, carry)
  {
    alive, carry := [], [];
    for n := 0 to |t.records|
      invariant alive == RecordsAt(t, AliveOffsets(t), n)
      invariant carry == if canPurge then [] else RecordsAt(t, t.tombstones, n)
    {
      if n in t.tombstones {
        if !canPurge {
          carry := carry + [t.records[n]];
        }
      } else if n !in t.obsolete {
        alive := alive + [t.records[n]];
      }
    }
    RecordsAtLists(t, AliveOffsets(t));
    RecordsAtLists(t, t.tombstones);
  }

  method TotalBytes(records: seq<Record>) returns (size: nat)
    ensures size == Bytes(records, AllOffsets(records))
  {
    size := 0;
    for n := 0 to |records|
      invariant size == BytesUpTo(records, AllOffsets(records), n)
    {
      size := size + StoredSize(records[n].account.dataLen);
    }
  }

  /** A shrink of `slot` is under way. */
  predicate ShrinkUnderway(st0: State, st: State, slot: Slot, carry: seq<Record>, stage: Stage) {
    && SameCache(st0, st) && st.uncleaned == st0.uncleaned
    && st.phase.Shrinking? && st.phase.slot == slot && st.phase.carry == carry && st.phase.stage == stage
    && slot in st.shrinking
  }

  /** What a shrink makes of the storage of `slot`. */
  ghost predicate ShrunkTo(st0: State, st: State, slot: Slot)
    requires slot in st0.storages
  {
    && slot in st.storages && st.storages.Keys == st0.storages.Keys
    && SameAccounts(st0.storages[slot], st.storages[slot])
    && st.storages[slot].storedBytes == AliveBytesAfterShrink(st0.storages[slot], CanPurge(st0, slot))
    && st.storages[slot].storedBytes < st0.storages[slot].storedBytes
    && forall t :: t in st0.storages && t != slot ==> st.storages[t] == st0.storages[t]
  }

  lemma KeyMoves(st: SoundState, slot: Slot, i: Offset)
    requires st.phase.Shrinking? && st.phase.stage.Moving? && st.phase.slot == slot
    requires slot in st.shrinking && i < |st.shrinking[slot].records|
    requires st.shrinking[slot].records[i].pubkey in st.phase.moving
    ensures CanShrinkKey(st, i)
  {
    assert ShrinkOk(st);
    assert Has(st.index, st.shrinking[slot].records[i].pubkey, slot);
  }

  lemma CarriedSame(st: State, slot: Slot)
    requires st.phase.Shrinking? && ShrinkOk(st) && st.phase.stage.Carried? && st.phase.slot == slot
    ensures slot in st.storages && slot in st.shrinking && SameAccounts(st.storages[slot], st.shrinking[slot])
  {
  }

  lemma NewStorageSize(st: SoundState, slot: Slot, alive: seq<Record>, carry: seq<Record>)
    requires slot in st.storages && st.storages[slot].records == alive + carry
    ensures st.storages[slot].storedBytes == RewriteBytes(alive, carry)
  {
    BytesTogether(alive, carry);
  }

  /** What a shrink would write, and how much of it. */
  method MeasureShrink(t: Storage, canPurge: bool) returns (alive: seq<Record>, carry: seq<Record>, bytes: nat)
    requires StorageOk(t)
    ensures Collected(t, canPurge, alive, carry)
    ensures bytes == RewriteBytes(alive, carry) == AliveBytesAfterShrink(t, canPurge)
  {
    alive, carry := CollectForShrink(t, canPurge);
    var aliveBytes := TotalBytes(alive);
    var carryBytes := TotalBytes(carry);
    PredictionExact(t, canPurge, alive, carry);
    bytes := aliveBytes + carryBytes;
  }

  class AccountsDb {
    var st: SoundState

    constructor ()
      ensures st == Empty()
    {
      EmptyOk();
      st := Empty();
    }

    /** The index takes up the new storage, account by account. */
    method IndexRecords(ghost st0: State, root: Slot, ghost clean: bool, ghost bound: Slot, records: seq<Record>)
      requires Underway(st0, st, root, clean, bound, records) && Worked(bound, st0, st)
      requires st.phase.todo == KeysOf(records) && st.phase.evict == KeysOf(records)
      requires DistinctKeys(records)
      requires records != [] ==> root in st.storages && st.storages[root].records == records
      modifies this
      ensures Underway(st0, st, root, clean, bound, records) && Worked(bound, st0, st)
      ensures st.phase.todo == {} && st.phase.evict == KeysOf(records)
      ensures st.uncleaned == old(st.uncleaned)
      ensures IndexFrame(old(st).index, st.index, root, clean, KeysOf(records))
    {
      ghost var ix0 := st.index;
      assert records[0..] == records;
      for i := 0 to |records|
        invariant Underway(st0, st, root, clean, bound, records) && Worked(bound, st0, st)
        invariant st.phase.todo == KeysOf(records[i..]) && st.phase.evict == KeysOf(records)
        invariant records != [] ==> root in st.storages && st.storages[root].records == records
        invariant st.uncleaned == old(st.uncleaned)
        invariant IndexFrame(ix0, st.index, root, clean, KeysOf(records))
      {
        KeysOfRest(records, i);
        Flush.FlushKeyRest(st, i);
        FlushKeyFrame(ix0, st, i);
        FlushWork(bound, st0, st, FlushIndex(i), FlushKey(st, i));
        st := FlushKey(st, i);
      }
    }

    /** `read_only_accounts_cache.remove` for the flushed accounts. */
    method EvictRecords(ghost st0: State, root: Slot, ghost clean: bool, ghost bound: Slot, ghost records: seq<Record>)
      requires Underway(st0, st, root, clean, bound, records) && Worked(bound, st0, st)
      requires st.phase.todo == {}
      modifies this
      ensures Underway(st0, st, root, clean, bound, records) && Worked(bound, st0, st)
      ensures st.phase.todo == {} && st.phase.evict == {}
      ensures st.uncleaned == old(st.uncleaned) && st.index == old(st).index
    {
      while st.phase.evict != {}
        invariant Underway(st0, st, root, clean, bound, records) && Worked(bound, st0, st)
        invariant st.phase.todo == {}
        invariant st.uncleaned == old(st.uncleaned) && st.index == old(st).index
        decreases |st.phase.evict|
      {
        var k :| k in st.phase.evict;
        SubsetSize(st.phase.evict - {k}, st.phase.evict);
        FlushWork(bound, st0, st, FlushEvicted(k), FlushEvict(st, k));
        st := FlushEvict(st, k);
      }
    }

    /** `handle_reclaims` of a flush, slot by slot. */
    method HandleFlushReclaims(ghost st0: State, root: Slot, ghost clean: bool, ghost bound: Slot, ghost records: seq<Record>)
      requires Underway(st0, st, root, clean, bound, records) && Worked(bound, st0, st)
      requires st.phase.todo == {} && st.phase.evict == {}
      modifies this
      ensures Underway(st0, st, root, clean, bound, records) && Worked(bound, st0, st)
      ensures st.phase.todo == {} && st.phase.evict == {} && st.phase.reclaims == map[]
      ensures st.uncleaned == old(st.uncleaned) && st.index == old(st).index
    {
      while st.phase.reclaims != map[]
        invariant Underway(st0, st, root, clean, bound, records) && Worked(bound, st0, st)
        invariant st.phase.todo == {} && st.phase.evict == {}
        invariant st.uncleaned == old(st.uncleaned) && st.index == old(st).index
        decreases |st.phase.reclaims.Keys|
      {
        var q :| q in st.phase.reclaims.Keys;
        var s, offsets := q.0, PendingAt(st.phase.reclaims, q.0);
        FlushDue(st, s, q.1);
        PendingAtHas(st.phase.reclaims, s, q.1);
        Reclaim.HandleDue(st, s, offsets, root);
        Reclaim.HandlePending(st, s, offsets, root);
        FewerPending(st.phase.reclaims, Pending(Handle(st, s, offsets, root)), s, offsets, q.1);
        CleanWork(bound, st0, st, HandleReclaims(s, offsets, root), Handle(st, s, offsets, root));
        st := Handle(st, s, offsets, root);
      }
    }

    /** `store_accounts_for_flush`: the new storage, the index, the read cache, the reclaims. */
    method StoreForFlush(root: Slot, clean: bool, bound: Slot, keys: set<Pubkey>) returns (ghost records: seq<Record>)
      requires CanFlushSlot(st, root, clean, bound, keys)
      modifies this
      ensures Underway(old(st), st, root, clean, bound, records) && Worked(bound, old(st), st)
      ensures st.phase.todo == {} && st.phase.evict == {} && st.phase.reclaims == map[]
      ensures KeysOf(records) == ToStore(old(st), root, keys)
      ensures IndexFrame(old(st).index, st.index, root, clean, KeysOf(records))
    {
      ghost var st0 := st;
      NotYetWorked(bound, st0);
      var listed := ListAccounts(st.cache[root], ToStore(st, root, keys));
      FlushWork(bound, st0, st, FlushBegin(root, clean, bound, keys, listed), BeginFlush(st, root, clean, bound, listed));
      st := BeginFlush(st, root, clean, bound, listed);
      records := listed;
      IndexRecords(st0, root, clean, bound, listed);
      EvictRecords(st0, root, clean, bound, records);
      HandleFlushReclaims(st0, root, clean, bound, records);
    }

    /** `do_flush_slot_cache` for a root that is in the cache. Its accounts of `keys` end up in
        storage, and the slot leaves the cache. */
    method FlushSlot(root: Slot, clean: bool, bound: Slot, keys: set<Pubkey>)
      requires CanFlushSlot(st, root, clean, bound, keys)
      modifies this
      ensures Worked(bound, old(st), st)
      ensures st.phase.Idle? && st.roots == old(st).roots && st.scans == old(st).scans
      ensures st.cache == old(st).cache - {root} && st.unflushed == old(st).unflushed - {root}
      ensures TakenUp(old(st).index, st.index, root, clean, old(st).cache[root], keys)
    {
      ghost var st0 := st;
      ghost var _ := StoreForFlush(root, clean, bound, keys);
      StoredTakenUp(st0, st, keys);
      FlushWork(bound, st0, st, FlushEnd, EndFlush(st));
      st := EndFlush(st);
    }

    /** `flush_slot_cache`, and what the flush loop does for a root without a cache. */
    method FlushRoot(root: Slot, clean: bool, bound: Slot, keys: set<Pubkey>)
      requires st.phase.Idle? && root in st.unflushed && forall u :: u in st.unflushed ==> root <= u
      requires root in st.cache ==> CanFlushSlot(st, root, clean, bound, keys)
      modifies this
      ensures Worked(bound, old(st), st)
      ensures st.phase.Idle? && st.roots == old(st).roots && st.scans == old(st).scans
      ensures st.cache == old(st).cache - {root} && st.unflushed == old(st).unflushed - {root}
      ensures if root in old(st).cache then TakenUp(old(st).index, st.index, root, clean, old(st).cache[root], keys)
              else st.index == old(st).index
    {
      if root in st.cache {
        FlushSlot(root, clean, bound, keys);
      } else {
        assert st.cache - {root} == st.cache;
        NotYetWorked(bound, st);
        FlushWork(bound, st, st, FlushNothing(root), Untrack(st, root));
        st := Untrack(st, root);
      }
    }

    /** One round of `flush_rooted_accounts_cache`. */
    method FlushNext(ghost st0: State, roots: seq<Slot>, ghost requested: Option<Slot>, should: ShouldClean, bound: Slot,
                     i: nat, keys: set<Pubkey>)
      requires i < |roots| && ToFlush(st0, roots, requested) && FlushedBefore(st0, st, roots, i) && Worked(bound, st0, st)
      requires SelectedAt(st0, roots, should, i, keys) && ScansSpared(st0, should)
      requires bound == HighestCleaned(roots, should)
      requires AllKeysFlushed(st0, st.index, requested, should, Slots(roots[..i]))
      modifies this
      ensures FlushedBefore(st0, st, roots, i + 1) && Worked(bound, st0, st)
      ensures AllKeysFlushed(st0, st.index, requested, should, Slots(roots[..i + 1]))
    {
      NextIsOldest(st0, st, roots, requested, i);
      if roots[i] in st.cache {
        NextCanFlush(st0, st, roots, requested, should, i, keys);
      }
      ghost var before := st;
      FlushRoot(roots[i], IsCleaned(should, roots[i]), bound, keys);
      FlushedNext(st0, before, st, roots, i);
      KeysFlushedNext(st0, before.index, st.index, roots, requested, should, i, keys);
      WorkTogether(bound, st0, before, st);
    }

    /** The roots, oldest first. */
    method FlushRoots(roots: seq<Slot>, ghost requested: Option<Slot>, should: ShouldClean, bound: Slot, selected: map<Slot, set<Pubkey>>)
      requires st.phase.Idle? && ScansSpared(st, should) && ToFlush(st, roots, requested)
      requires forall i :: 0 <= i < |roots| ==> roots[i] in selected && SelectedAt(st, roots, should, i, selected[roots[i]])
      requires bound == HighestCleaned(roots, should)
      modifies this
      ensures FlushedBefore(old(st), st, roots, |roots|) && Worked(bound, old(st), st)
      ensures AllKeysFlushed(old(st), st.index, requested, should, Slots(roots[..|roots|]))
    {
      ghost var st0 := st;
      NotYetWorked(bound, st0);
      NoneFlushed(st0, roots);
      NoKeyFlushed(st0, requested, should, roots);
      for i := 0 to |roots|
        invariant FlushedBefore(st0, st, roots, i) && Worked(bound, st0, st)
        invariant AllKeysFlushed(st0, st.index, requested, should, Slots(roots[..i]))
      {
        FlushNext(st0, roots, requested, should, bound, i, selected[roots[i]]);
      }
    }

    /** `flush_rooted_accounts_cache`: all roots up to `requested` leave the cache, oldest first.
        `bound` is the highest root up to which older versions are cleaned. A key that cleaned
        roots have is left in the index at the newest of them only, or not at all if its account
        there is zero-lamport; the other roots add an entry for each account; and a key without a
        cleaned root loses no entry. Every account to keep is stored as it was cached. */
    method FlushRootedAccountsCache(requested: Option<Slot>, should: ShouldClean) returns (bound: Slot)
      requires st.phase.Idle? && ScansSpared(st, should)
      modifies this
      ensures Worked(bound, old(st), st)
      ensures AllFlushed(old(st), st, requested)
      ensures IsBound(old(st), requested, should, bound)
      ensures should.Clean? ==>
                forall r: Slot :: r in old(st).unflushed && r > bound ==>
                  (requested.Some? && requested.value < r) || (should.maxCleanRoot.Some? && should.maxCleanRoot.value < r)
      ensures AllKeysFlushed(old(st), st.index, requested, should, FlushedRoots(old(st), requested))
      ensures forall k, r: Slot :: ToKeep(old(st), requested, should, k, r) ==> Content(st, k, r) == Some(old(st).cache[r][k])
    {
      ghost var st0 := st;
      var roots := OldestFirst(FlushedRoots(st, requested));
      var selected := SelectPubkeys(st, roots, should);
      bound := HighestCleaned(roots, should);
      HighestIsBound(st0, roots, requested, should);
      FlushRoots(roots, requested, should, bound, selected);
      FlushIsDone(st0, st, roots, requested);
      RootsAreDone(st0, roots, requested);
      AllStored(bound, st0, st, requested, should);
    }

    /** The candidates, in any order. */
    method CleanCandidates(ghost st0: State, bound: Slot)
      requires CleanUnderway(st0, st, bound) && Worked(bound, st0, st)
      modifies this
      ensures CleanUnderway(st0, st, bound) && Worked(bound, st0, st) && st.phase.keys == {}
      ensures CleanedIndex(old(st).index, st.index, old(st).phase.keys, bound)
    {
      ghost var ix0, keys := st.index, st.phase.keys;
      NoneCleaned(ix0, keys, bound);
      while st.phase.keys != {}
        invariant CleanUnderway(st0, st, bound) && Worked(bound, st0, st)
        invariant st.phase.keys <= keys && CleanedIndex(ix0, st.index, keys - st.phase.keys, bound)
        decreases |st.phase.keys|
      {
        var k :| k in st.phase.keys;
        CleanedOneMore(ix0, st.index, keys, st.phase.keys, k, bound);
        var next := CleanCandidate(st, k);
        CleanWork(bound, st0, st, CleanIndex(k), next);
        st := next;
      }
      assert keys - {} == keys;
    }

    /** `handle_reclaims` of a clean, one by one. */
    method HandleCleanReclaims(ghost st0: State, bound: Slot)
      requires CleanUnderway(st0, st, bound) && Worked(bound, st0, st) && st.phase.keys == {}
      modifies this
      ensures CleanUnderway(st0, st, bound) && Worked(bound, st0, st)
      ensures st.phase.keys == {} && st.phase.outdated == map[] && st.index == old(st).index
    {
      while st.phase.outdated != map[]
        invariant CleanUnderway(st0, st, bound) && Worked(bound, st0, st) && st.phase.keys == {}
        invariant st.index == old(st).index
        decreases |st.phase.outdated.Keys|
      {
        var q :| q in st.phase.outdated.Keys;
        var s, offsets, mark := q.0, {q.1}, st.phase.outdated[q];
        assert q == (s, q.1);
        CleanDue(st, s, q.1);
        Reclaim.HandleDue(st, s, offsets, mark);
        Reclaim.HandlePending(st, s, offsets, mark);
        FewerPending(st.phase.outdated, Pending(Handle(st, s, offsets, mark)), s, offsets, q.1);
        CleanWork(bound, st0, st, HandleReclaims(s, offsets, mark), Handle(st, s, offsets, mark));
        st := Handle(st, s, offsets, mark);
      }
    }

    /** `clean_accounts` up to `bound`: of every key that was recorded for cleaning up to `bound`
        one version up to `bound` is left, and none of them is left as a lone deleted account.
        Other keys are not touched. */
    method CleanAccounts(bound: Slot)
      requires CanBeginClean(st, bound)
      modifies this
      ensures Worked(bound, old(st), st) && st.phase.Idle?
      ensures st.cache == old(st).cache && st.roots == old(st).roots && st.unflushed == old(st).unflushed
      ensures st.maxCleaned >= bound && st.maxCleaned >= old(st).maxCleaned
      ensures CleanedIndex(old(st).index, st.index, CandidateKeys(old(st), bound), bound)
      ensures forall k, s :: s in old(st).uncleaned && s <= bound && k in old(st).uncleaned[s] ==>
                && !LeftDeleted(st.index, k)
                && forall t: Slot, u: Slot :: Has(st.index, k, t) && Has(st.index, k, u) && t < u ==> u > bound
    {
      ghost var st0 := st;
      NotYetWorked(bound, st0);
      CleanWork(bound, st0, st, CleanBegin(bound), BeginClean(st, bound));
      st := BeginClean(st, bound);
      CleanCandidates(st0, bound);
      HandleCleanReclaims(st0, bound);
      CleanWork(bound, st0, st, CleanEnd, EndClean(st));
      st := EndClean(st);
      forall k | k in CandidateKeys(st0, bound) {
        CleanedKey(st0.index, st.index, CandidateKeys(st0, bound), k, bound);
      }
    }

    method SweepOne(ghost st0: State, ghost lastSwept: Slot, s: Slot, suitable: set<Slot>)
      requires SweptTo(st0, st, lastSwept, s, suitable) && Worked(0, st0, st) && s <= st.snapshotSlot.value
      modifies this
      ensures SweptTo(st0, st, lastSwept, s + 1, suitable) && Worked(0, st0, st)
    {
      if s in st.storages && OnlyTombstones(st.storages[s]) {
        SweptOneMore(st0, st, lastSwept, s, suitable);
        CleanWork(0, st0, st, SweepSlot(s), Sweep(st, s));
        st := Sweep(st, s);
      } else {
        PassedOver(st0, st, lastSwept, s, suitable);
        if s in st.storages && Productive(st.storages[s], CanPurge(st, s)) && s in suitable {
          CleanWork(0, st0, st, Enqueue(s), Queue(st, s));
          st := Queue(st, s);
        }
      }
    }

    /** `sweep_slots_after_snapshot` from one snapshot slot to the latest: storages with nothing
        but tombstones go, others that are worth it are queued. Which of those also pass the
        configured ratio is given by `suitable`. */
    method SweepAfterSnapshot(lastSwept: Slot, suitable: set<Slot>) returns (next: Slot)
      requires st.phase.Idle? && st.snapshotSlot.Some?
      modifies this
      ensures Worked(0, old(st), st)
      ensures SweptTo(old(st), st, lastSwept, next, suitable) && st.snapshotSlot == old(st).snapshotSlot
      ensures next > old(st).snapshotSlot.value
      ensures TombstonesGone(old(st).storages, st.storages, lastSwept, old(st).snapshotSlot.value)
    {
      ghost var st0 := st;
      NotYetWorked(0, st0);
      next := lastSwept + 1;
      var latest := st.snapshotSlot.value;
      while next <= latest
        invariant SweptTo(st0, st, lastSwept, next, suitable) && Worked(0, st0, st)
        decreases latest - next
      {
        SweepOne(st0, lastSwept, next, suitable);
        next := next + 1;
      }
      SweptStorages(st0, st, lastSwept, next, suitable);
    }

    /** The entries of the slot are repointed one by one. */
    method RepointAll(ghost st0: State, slot: Slot, alive: seq<Record>, ghost carry: seq<Record>)
      requires ShrinkUnderway(st0, st, slot, carry, Moving) && Worked(0, st0, st)
      requires st.shrinking[slot].records == alive && DistinctKeys(alive) && st.phase.moving == KeysOf(alive)
      modifies this
      ensures ShrinkUnderway(st0, st, slot, carry, Moving) && Worked(0, st0, st)
      ensures st.shrinking == old(st).shrinking && st.storages == old(st).storages && st.phase.moving == {}
    {
      assert alive[0..] == alive;
      for i := 0 to |alive|
        invariant ShrinkUnderway(st0, st, slot, carry, Moving) && Worked(0, st0, st)
        invariant st.shrinking == old(st).shrinking && st.storages == old(st).storages
        invariant st.phase.moving == KeysOf(alive[i..])
      {
        KeysOfRest(alive, i);
        KeyMoves(st, slot, i);
        ShrinkWork(0, st0, st, ShrinkIndex(i), ShrinkKey(st, i));
        st := ShrinkKey(st, i);
      }
    }

    /** Tombstones are carried over. */
    method CarryOver(ghost st0: State, slot: Slot, ghost carry: seq<Record>)
      requires ShrinkUnderway(st0, st, slot, carry, Moving) && Worked(0, st0, st) && st.phase.moving == {}
      modifies this
      ensures ShrinkUnderway(st0, st, slot, carry, Carried) && Worked(0, st0, st)
      ensures st.storages == old(st).storages
      ensures st.shrinking[slot] == WithTombstones(old(st).shrinking[slot], carry)
    {
      ShrinkWork(0, st0, st, ShrinkCarry, Carry(st));
      st := Carry(st);
    }

    /** The new storage takes the place of the old one. */
    method SwapIn(ghost st0: State, slot: Slot, ghost carry: seq<Record>)
      requires ShrinkUnderway(st0, st, slot, carry, Carried) && Worked(0, st0, st)
      modifies this
      ensures SameCache(st0, st) && st.phase.Idle? && Worked(0, st0, st)
      ensures st.storages == old(st).storages[slot := old(st).shrinking[slot]]
    {
      ShrinkWork(0, st0, st, ShrinkSwap, Swap(st));
      st := Swap(st);
      ShrinkWork(0, st0, st, ShrinkEnd, EndShrink(st));
      st := EndShrink(st);
    }

    method FinishShrink(ghost st0: State, slot: Slot, ghost carry: seq<Record>)
      requires ShrinkUnderway(st0, st, slot, carry, Moving) && Worked(0, st0, st) && st.phase.moving == {}
      requires slot in st.storages
      modifies this
      ensures SameCache(st0, st) && st.phase.Idle? && Worked(0, st0, st)
      ensures st.storages == old(st).storages[slot := WithTombstones(old(st).shrinking[slot], carry)]
      ensures SameAccounts(old(st).storages[slot], st.storages[slot])
    {
      CarryOver(st0, slot, carry);
      CarriedSame(st, slot);
      SwapIn(st0, slot, carry);
    }

    /** The accounts collected from the slot are rewritten. */
    method RewriteStorage(slot: Slot, alive: seq<Record>, carry: seq<Record>)
      requires CanBeginShrink(st, slot, alive, carry)
      modifies this
      ensures Worked(0, old(st), st) && st.phase.Idle? && SameCache(old(st), st)
      ensures slot in st.storages && st.storages == old(st).storages[slot := st.storages[slot]]
      ensures SameAccounts(old(st).storages[slot], st.storages[slot])
      ensures st.storages[slot].storedBytes == RewriteBytes(alive, carry)
    {
      ghost var st0 := st;
      NotYetWorked(0, st0);
      ShrinkWork(0, st0, st, ShrinkBegin(slot, alive, carry), BeginShrink(st, slot, alive, carry));
      st := BeginShrink(st, slot, alive, carry);
      RepointAll(st0, slot, alive, carry);
      FinishShrink(st0, slot, carry);
      NewStorageSize(st, slot, alive, carry);
    }

    /** `shrink_storage`. Skipped while the slot is in the cache, when nothing would be left, and
        when nothing would be gained; otherwise the new storage has the predicted size. */
    method ShrinkStorage(slot: Slot) returns (shrunk: bool)
      requires st.phase.Idle? && slot in st.storages
      modifies this
      ensures Worked(0, old(st), st) && st.phase.Idle? && SameCache(old(st), st)
      ensures shrunk <==> WorthShrinking(old(st), slot)
      ensures if shrunk then ShrunkTo(old(st), st, slot) else st == old(st)
    {
      NotYetWorked(0, st);
      if slot in st.cache {
        return false;
      }
      var alive, carry, bytes := MeasureShrink(st.storages[slot], CanPurge(st, slot));
      if bytes == 0 || bytes >= st.storages[slot].storedBytes {
        return false;
      }
      RewriteStorage(slot, alive, carry);
      return true;
    }
  }

  /** Not in the cache, something is left, and less than was written. */
  ghost predicate WorthShrinking(st: State, slot: Slot)
    requires slot in st.storages
  {
    && slot !in st.cache
    && 0 < AliveBytesAfterShrink(st.storages[slot], CanPurge(st, slot)) < st.storages[slot].storedBytes
  }

  /** The counters tell whether there are tombstones in the storage and nothing alive. */
  lemma OnlyTombstonesIs(t: Storage)
    requires StorageOk(t)
    ensures OnlyTombstones(t) <==> t.tombstones != {} && AliveOffsets(t) == {}
  {
    var dead := t.obsolete.Keys + t.tombstones;
    assert |dead| == |t.obsolete.Keys| + |t.tombstones|;
    assert AliveOffsets(t) == AllOffsets(t.records) - dead;
    assert |AllOffsets(t.records) - dead| == |AllOffsets(t.records)| - |dead|;
  }

  /** The storages of nothing but tombstones, as far as the snapshot covers them, are gone. */
  ghost predicate TombstonesGone(storages: StorageMap, storages': StorageMap, lastSwept: Slot, latest: Slot) {
    forall t :: t in storages ==>
      (t !in storages' <==> lastSwept < t <= latest && storages[t].tombstones != {} && AliveOffsets(storages[t]) == {})
  }

  lemma SweptStorages(st0: SoundState, st: State, lastSwept: Slot, next: Slot, suitable: set<Slot>)
    requires SweptTo(st0, st, lastSwept, next, suitable) && st.snapshotSlot.value < next
    ensures TombstonesGone(st0.storages, st.storages, lastSwept, st.snapshotSlot.value)
  {
    forall t | t in st0.storages
      ensures t !in st.storages <==>
                lastSwept < t <= st.snapshotSlot.value && st0.storages[t].tombstones != {} && AliveOffsets(st0.storages[t]) == {}
    {
      OnlyTombstonesIs(st0.storages[t]);
    }
  }

  lemma SweptOneMore(st0: State, st: State, lastSwept: Slot, s: Slot, suitable: set<Slot>)
    requires SweptTo(st0, st, lastSwept, s, suitable) && s <= st.snapshotSlot.value
    requires s in st.storages && OnlyTombstones(st.storages[s])
    ensures SweptTo(st0, Sweep(st, s), lastSwept, s + 1, suitable)
  {
  }

  lemma PassedOver(st0: State, st: State, lastSwept: Slot, s: Slot, suitable: set<Slot>)
    requires SweptTo(st0, st, lastSwept, s, suitable) && s <= st.snapshotSlot.value
    requires s in st.storages ==> !OnlyTombstones(st.storages[s])
    ensures var queued := s in st.storages && Productive(st.storages[s], CanPurge(st, s)) && s in suitable;
            SweptTo(st0, if queued then Queue(st, s) else st, lastSwept, s + 1, suitable)
  {
    assert SweepQueues(st0, s, suitable) <==> s in st.storages && Productive(st.storages[s], CanPurge(st, s)) && s in suitable;
  }

  /** Slot `t`, covered by the snapshot, is worth shrinking. */
  ghost predicate SweepQueues(st: State, t: Slot, suitable: set<Slot>) {
    && t in st.storages && t in suitable
    && !OnlyTombstones(st.storages[t]) && Productive(st.storages[t], true)
  }

  /** Slots after `lastSwept` and before `s` have been swept: of those the snapshot covers,
      exactly the storages of nothing but tombstones are gone, and exactly those worth
      shrinking have been queued. */
  ghost predicate SweptTo(st0: State, st: State, lastSwept: Slot, s: Slot, suitable: set<Slot>) {
    && st.phase.Idle? && SameCache(st0, st) && st.shrinking == st0.shrinking
    && st.snapshotSlot.Some? && lastSwept < s
    && (forall t :: t in st.storages ==> t in st0.storages && st.storages[t] == st0.storages[t])
    && (forall t :: t in st0.storages ==>
          (t !in st.storages <==> lastSwept < t < s && t <= st.snapshotSlot.value && OnlyTombstones(st0.storages[t])))
    && (forall t :: t in st.candidates <==>
          t in st0.candidates || (lastSwept < t < s && t <= st.snapshotSlot.value && SweepQueues(st0, t, suitable)))
  }
}
