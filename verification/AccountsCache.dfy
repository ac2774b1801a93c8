/** The write cache: per-slot caches, an index that counts in how many of them a key is, and
    totals. A lookup uses the index to skip slots, although its highest slot may be stale. */
module AccountsCaches {
  import opened Types
  import opened AncestorSets
  import opened Store
  import opened Sums

  /** One slot's cache with its own size and count. */
  datatype SlotCache = SlotCache(accounts: map<Pubkey, Account>, size: int, count: int)

  /** The highest slot a key was written to, and the number of slot caches it is in. */
  datatype IndexEntry = IndexEntry(maxSlot: Slot, refCount: nat)

  type SlotCaches = map<Slot, SlotCache>
  type CacheIndex = map<Pubkey, IndexEntry>

  // ---------------------------------------------------------------------------------------
  // Sizes
  // ---------------------------------------------------------------------------------------

  function LenOf(m: map<Pubkey, Account>, k: Pubkey): int {
    if k in m then m[k].dataLen else 0
  }

  /** Bytes of account data. */
  ghost function DataSize(m: map<Pubkey, Account>): int {
    Sum(m.Keys, k => LenOf(m, k))
  }

  ghost predicate SlotCacheOk(c: SlotCache) {
    c.count == |c.accounts| && c.size == DataSize(c.accounts)
  }

  lemma DataSizeWithout(m: map<Pubkey, Account>, k: Pubkey)
    ensures DataSize(m) == DataSize(m - {k}) + LenOf(m, k)
  {
    if k in m {
      SumPick(m.Keys, j => LenOf(m, j), k);
      assert m.Keys - {k} == (m - {k}).Keys;
      SumSame((m - {k}).Keys, j => LenOf(m, j), j => LenOf(m - {k}, j));
    } else {
      assert m - {k} == m;
    }
  }

  lemma DataSizeInsert(m: map<Pubkey, Account>, k: Pubkey, a: Account)
    ensures DataSize(m[k := a]) == DataSize(m) - LenOf(m, k) + a.dataLen
    ensures |m[k := a]| == |m| + if k in m then 0 else 1
  {
    DataSizeWithout(m, k);
    DataSizeWithout(m[k := a], k);
    assert m[k := a] - {k} == m - {k};
    if k in m {
      assert m[k := a].Keys == m.Keys;
    } else {
      assert m[k := a].Keys == m.Keys + {k};
    }
  }

  function NoAccounts(): (c: SlotCache)
    ensures SlotCacheOk(c)
  {
    SlotCache(map[], 0, 0)
  }

  function SizeAt(cache: SlotCaches, s: Slot): int {
    if s in cache then cache[s].size else 0
  }

  function CountAt(cache: SlotCaches, s: Slot): int {
    if s in cache then cache[s].count else 0
  }

  ghost predicate TotalsOk(cache: SlotCaches, totalSize: int, totalCount: int) {
    totalSize == Sum(cache.Keys, s => SizeAt(cache, s)) && totalCount == Sum(cache.Keys, s => CountAt(cache, s))
  }

  lemma TotalsWithout(cache: SlotCaches, s: Slot)
    ensures Sum(cache.Keys, t => SizeAt(cache, t)) == Sum((cache - {s}).Keys, t => SizeAt(cache - {s}, t)) + SizeAt(cache, s)
    ensures Sum(cache.Keys, t => CountAt(cache, t)) == Sum((cache - {s}).Keys, t => CountAt(cache - {s}, t)) + CountAt(cache, s)
  {
    var rest := cache - {s};
    if s in cache {
      SumPick(cache.Keys, t => SizeAt(cache, t), s);
      SumPick(cache.Keys, t => CountAt(cache, t), s);
      assert cache.Keys - {s} == rest.Keys;
      SumSame(rest.Keys, t => SizeAt(cache, t), t => SizeAt(rest, t));
      SumSame(rest.Keys, t => CountAt(cache, t), t => CountAt(rest, t));
    } else {
      assert rest == cache;
    }
  }

  lemma TotalsInsert(cache: SlotCaches, s: Slot, c: SlotCache, totalSize: int, totalCount: int)
    requires TotalsOk(cache, totalSize, totalCount)
    ensures TotalsOk(cache[s := c], totalSize - SizeAt(cache, s) + c.size, totalCount - CountAt(cache, s) + c.count)
  {
    TotalsWithout(cache, s);
    TotalsWithout(cache[s := c], s);
    assert cache[s := c] - {s} == cache - {s};
  }

  lemma TotalsRemove(cache: SlotCaches, s: Slot, totalSize: int, totalCount: int)
    requires TotalsOk(cache, totalSize, totalCount)
    ensures TotalsOk(cache - {s}, totalSize - SizeAt(cache, s), totalCount - CountAt(cache, s))
  {
    TotalsWithout(cache, s);
  }

  // ---------------------------------------------------------------------------------------
  // The index
  // ---------------------------------------------------------------------------------------

  /** The slots whose cache holds `k`. */
  ghost function Holders(cache: SlotCaches, k: Pubkey): set<Slot> {
    set s | s in cache.Keys && k in cache[s].accounts
  }

  /** The index counts the holders of every key, those of `extra` once more. */
  ghost predicate EntryOk(cache: SlotCaches, index: CacheIndex, extra: set<Pubkey>, k: Pubkey) {
    var n := |Holders(cache, k)| + if k in extra then 1 else 0;
    && (k in index <==> n > 0)
    && (k in index ==> index[k].refCount == n && forall s :: s in Holders(cache, k) ==> s <= index[k].maxSlot)
  }

  ghost predicate IndexOk(cache: SlotCaches, index: CacheIndex, extra: set<Pubkey>) {
    forall k :: EntryOk(cache, index, extra, k)
  }

  /** `AccountsCacheIndex::insert`. */
  function CountUp(index: CacheIndex, k: Pubkey, s: Slot): CacheIndex {
    if k in index then
      var e := index[k];
      index[k := IndexEntry(if e.maxSlot < s then s else e.maxSlot, e.refCount + 1)]
    else index[k := IndexEntry(s, 1)]
  }

  /** One round of `AccountsCacheIndex::remove`. */
  function CountDown(index: CacheIndex, k: Pubkey): CacheIndex
    requires k in index && index[k].refCount > 0
  {
    var e := index[k];
    if e.refCount == 1 then index - {k} else index[k := e.(refCount := e.refCount - 1)]
  }

  lemma OverwriteKeepsIndex(cache: SlotCaches, index: CacheIndex, s: Slot, c: SlotCache)
    requires IndexOk(cache, index, {})
    requires s in cache && c.accounts.Keys == cache[s].accounts.Keys
    ensures IndexOk(cache[s := c], index, {})
  {
    var cache' := cache[s := c];
    forall k: Pubkey
      ensures EntryOk(cache', index, {}, k)
    {
      assert EntryOk(cache, index, {}, k);
      assert Holders(cache', k) == Holders(cache, k);
    }
  }

  /** The entry of `k` counts one more and has a maximum that covers `s` and nothing more than
      before; all other entries are the same. */
  ghost predicate CountedUp(index: CacheIndex, index': CacheIndex, k: Pubkey, s: Slot) {
    && index'.Keys == index.Keys + {k}
    && (forall j :: j in index && j != k ==> index'[j] == index[j])
    && index'[k].refCount == (if k in index then index[k].refCount else 0) + 1
    && index'[k].maxSlot >= s && (k in index ==> index'[k].maxSlot >= index[k].maxSlot)
    && (index'[k].maxSlot == s || (k in index && index'[k].maxSlot == index[k].maxSlot))
  }

  lemma CountUpOk(cache: SlotCaches, cache': SlotCaches, index: CacheIndex, index': CacheIndex, k: Pubkey, s: Slot)
    requires IndexOk(cache, index, {}) && CountedUp(index, index', k, s)
    requires Holders(cache', k) == Holders(cache, k) + {s} && s !in Holders(cache, k)
    requires forall j :: j != k ==> Holders(cache', j) == Holders(cache, j)
    ensures IndexOk(cache', index', {})
  {
    forall j
      ensures EntryOk(cache', index', {}, j)
    {
      assert EntryOk(cache, index, {}, j);
    }
  }

  lemma NewKeyHolders(cache: SlotCaches, s: Slot, c: SlotCache, k: Pubkey)
    requires c.accounts.Keys == (if s in cache then cache[s].accounts.Keys else {}) + {k}
    requires s in cache ==> k !in cache[s].accounts
    ensures Holders(cache[s := c], k) == Holders(cache, k) + {s} && s !in Holders(cache, k)
    ensures forall j :: j != k ==> Holders(cache[s := c], j) == Holders(cache, j)
  {
    forall j | j != k
      ensures Holders(cache[s := c], j) == Holders(cache, j)
    {
      forall t
        ensures t in Holders(cache[s := c], j) <==> t in Holders(cache, j)
      {
      }
    }
  }

  /** A slot leaves the cache: its keys are counted once too often. */
  lemma RemovedExtra(cache: SlotCaches, index: CacheIndex, s: Slot)
    requires IndexOk(cache, index, {}) && s in cache
    ensures IndexOk(cache - {s}, index, cache[s].accounts.Keys)
  {
    forall k
      ensures EntryOk(cache - {s}, index, cache[s].accounts.Keys, k)
    {
      assert EntryOk(cache, index, {}, k);
      if k in cache[s].accounts {
        assert Holders(cache, k) == Holders(cache - {s}, k) + {s};
      } else {
        assert Holders(cache, k) == Holders(cache - {s}, k);
      }
    }
  }

  lemma CountDownOk(cache: SlotCaches, index: CacheIndex, extra: set<Pubkey>, k: Pubkey)
    requires IndexOk(cache, index, extra) && k in extra
    ensures k in index && index[k].refCount > 0
    ensures IndexOk(cache, CountDown(index, k), extra - {k})
    ensures k !in CountDown(index, k) <==> Holders(cache, k) == {}
  {
    assert EntryOk(cache, index, extra, k);
    forall j
      ensures EntryOk(cache, CountDown(index, k), extra - {k}, j)
    {
      assert EntryOk(cache, index, extra, j);
    }
  }

  // ---------------------------------------------------------------------------------------
  // Ordered roots
  // ---------------------------------------------------------------------------------------

  lemma TailAscending(s: seq<Slot>)
    requires Ascending(s) && s != []
    ensures s == [s[0]] + s[1..]
    ensures Ascending(s[1..])
    ensures forall y :: y in s[1..] ==> s[0] < y
  {
  }

  lemma ConsAscending(x: Slot, s: seq<Slot>)
    requires Ascending(s) && forall y :: y in s ==> x < y
    ensures Ascending([x] + s)
  {
    var r := [x] + s;
    forall i, j | 0 <= i < j < |r|
      ensures r[i] < r[j]
    {
      assert r[j] == s[j - 1];
      assert r[j] in s;
    }
  }

  /** Insertion into the ordered set of roots. */
  function Insert(s: seq<Slot>, x: Slot): (r: seq<Slot>)
    requires Ascending(s)
    ensures Ascending(r)
    ensures forall y :: y in r <==> y in s || y == x
  {
    if s == [] then [x]
    else
      TailAscending(s);
      if x < s[0] then
        ConsAscending(x, s);
        [x] + s
      else if x == s[0] then s
      else
        var r := Insert(s[1..], x);
        ConsAscending(s[0], r);
        [s[0]] + r
  }

  function Remove(s: seq<Slot>, x: Slot): (r: seq<Slot>)
    requires Ascending(s)
    ensures Ascending(r)
    ensures forall y :: y in r <==> y in s && y != x
  {
    if s == [] then []
    else
      TailAscending(s);
      var r := Remove(s[1..], x);
      if s[0] == x then r
      else
        ConsAscending(s[0], r);
        [s[0]] + r
  }

  // ---------------------------------------------------------------------------------------
  // What a reader sees
  // ---------------------------------------------------------------------------------------

  type Contents = map<Slot, map<Pubkey, Account>>

  /** `k` is cached at `s`, and `s` is an ancestor, or a root not above the oldest ancestor. */
  predicate Visible(contents: Contents, roots: seq<Slot>, a: Ancestors, k: Pubkey, s: Slot) {
    && s in contents && k in contents[s]
    && (s in a || (s in roots && (|a| == 0 || s <= a[0])))
  }

  /** The newest visible version, or that there is none. */
  ghost predicate Latest(contents: Contents, roots: seq<Slot>, a: Ancestors, k: Pubkey, r: Option<(Account, Slot)>) {
    if r.None? then forall s: Slot :: !Visible(contents, roots, a, k, s)
    else
      && Visible(contents, roots, a, k, r.value.1)
      && r.value.0 == contents[r.value.1][k]
      && forall s: Slot :: Visible(contents, roots, a, k, s) ==> s <= r.value.1
  }

  /** This is the search of the store model, where the roots are a set. */
  lemma LatestIsLoadFromCache(st: State, roots: seq<Slot>, a: Ancestors, k: Pubkey, r: Option<(Account, Slot)>)
    requires forall s :: s in roots <==> s in st.unflushed
    requires Latest(st.cache, roots, a, k, r)
    ensures LoadFromCache(st, a, k) == if r.None? then None else Some(r.value.0)
  {
    forall s: Slot
      ensures Visible(st.cache, roots, a, k, s) <==> s in CacheSlots(st, a, k)
    {
    }
    if r.None? {
      assert CacheSlots(st, a, k) == {};
    } else {
      NewestUnique(CacheSlots(st, a, k), r.value.1);
    }
  }

  /** The accounts of every slot. */
  ghost function AccountsOf(cache: SlotCaches): Contents {
    map s | s in cache :: cache[s].accounts
  }

  lemma AccountsInsert(cache: SlotCaches, s: Slot, c: SlotCache)
    ensures AccountsOf(cache[s := c]) == AccountsOf(cache)[s := c.accounts]
  {
  }

  /** `contents` with `account` stored under `pubkey` in `slot`. */
  function Stored(contents: Contents, slot: Slot, pubkey: Pubkey, account: Account): Contents {
    contents[slot := (if slot in contents then contents[slot] else map[])[pubkey := account]]
  }

  lemma StoredAccounts(cache: SlotCaches, slot: Slot, c: SlotCache, pubkey: Pubkey, account: Account)
    requires c.accounts == (if slot in cache then cache[slot].accounts else map[])[pubkey := account]
    ensures AccountsOf(cache[slot := c]) == Stored(AccountsOf(cache), slot, pubkey, account)
  {
    AccountsInsert(cache, slot, c);
  }

  lemma StoredTotals(cache: SlotCaches, slot: Slot, c: SlotCache, size: int, count: int, size': int, count': int)
    requires TotalsOk(cache, size, count)
    requires size' == size - SizeAt(cache, slot) + c.size && count' == count - CountAt(cache, slot) + c.count
    ensures TotalsOk(cache[slot := c], size', count')
  {
    TotalsInsert(cache, slot, c, size, count);
  }

  lemma AccountsWithout(cache: SlotCaches, s: Slot)
    ensures AccountsOf(cache - {s}) == AccountsOf(cache) - {s}
  {
  }

  /** No slot caches `k`. */
  ghost predicate Uncached(contents: Contents, k: Pubkey) {
    forall s: Slot :: s in contents ==> k !in contents[s]
  }

  lemma NotHeld(cache: SlotCaches, k: Pubkey)
    ensures Holders(cache, k) == {} <==> Uncached(AccountsOf(cache), k)
  {
    if Holders(cache, k) != {} {
      var s :| s in Holders(cache, k);
      assert s in AccountsOf(cache) && k in AccountsOf(cache)[s];
    } else {
      forall s: Slot | s in AccountsOf(cache)
        ensures k !in AccountsOf(cache)[s]
      {
        assert s !in Holders(cache, k);
      }
    }
  }

  /** What the index says about the slots that have a key cached. */
  lemma HolderBound(cache: SlotCaches, index: CacheIndex, roots: seq<Slot>, a: Ancestors, k: Pubkey, s: Slot)
    requires IndexOk(cache, index, {})
    requires Visible(AccountsOf(cache), roots, a, k, s)
    ensures s in cache && k in cache[s].accounts
    ensures k in index && s <= index[k].maxSlot
  {
    assert EntryOk(cache, index, {}, k);
    assert s in Holders(cache, k);
  }

  lemma CountUpSize(index: CacheIndex, k: Pubkey, s: Slot)
    ensures |CountUp(index, k, s)| == |index| + if k in index then 0 else 1
  {
    if k in index {
      assert CountUp(index, k, s).Keys == index.Keys;
    } else {
      assert CountUp(index, k, s).Keys == index.Keys + {k};
    }
  }

  lemma CountDownSize(index: CacheIndex, k: Pubkey)
    requires k in index && index[k].refCount > 0
    ensures |CountDown(index, k)| == |index| - if k in CountDown(index, k) then 0 else 1
  {
    if index[k].refCount == 1 {
      assert index.Keys == CountDown(index, k).Keys + {k};
    } else {
      assert CountDown(index, k).Keys == index.Keys;
    }
  }

  class AccountsCache {
    var cache: SlotCaches
    var index: CacheIndex
    var numUniquePubkeys: int
    var unflushedRoots: seq<Slot>
    var totalSize: int
    var totalCount: int

    ghost predicate Valid()
      reads this
    {
      && (forall s :: s in cache ==> SlotCacheOk(cache[s]))
      && TotalsOk(cache, totalSize, totalCount)
      && IndexOk(cache, index, {})
      && numUniquePubkeys == |index|
      && Ascending(unflushedRoots)
    }

    ghost function Accounts(): Contents
      reads this
    {
      AccountsOf(cache)
    }

    constructor ()
      ensures Valid() && Accounts() == map[] && unflushedRoots == []
    {
      cache, index, numUniquePubkeys := map[], map[], 0;
      unflushedRoots, totalSize, totalCount := [], 0, 0;
    }

    /** `SlotCache::insert`: the slot's cache and the totals grow or shrink alike. */
    method InsertAccount(c: SlotCache, pubkey: Pubkey, account: Account) returns (c': SlotCache, isNewKey: bool)
      requires SlotCacheOk(c)
      modifies this`totalSize, this`totalCount
      ensures SlotCacheOk(c') && c'.accounts == c.accounts[pubkey := account]
      ensures isNewKey <==> pubkey !in c.accounts
      ensures totalSize == old(totalSize) - c.size + c'.size
      ensures totalCount == old(totalCount) - c.count + c'.count
    {
      DataSizeInsert(c.accounts, pubkey, account);
      isNewKey := pubkey !in c.accounts;
      var accounts := c.accounts[pubkey := account];
      if isNewKey {
        c' := SlotCache(accounts, c.size + account.dataLen, c.count + 1);
        totalSize, totalCount := totalSize + account.dataLen, totalCount + 1;
      } else {
        var oldLen := c.accounts[pubkey].dataLen;
        if oldLen < account.dataLen {
          var grow := account.dataLen - oldLen;
          c' := SlotCache(accounts, c.size + grow, c.count);
          totalSize := totalSize + grow;
        } else {
          var shrink := oldLen - account.dataLen;
          c' := SlotCache(accounts, c.size - shrink, c.count);
          totalSize := totalSize - shrink;
        }
      }
    }

    /** `AccountsCacheIndex::insert`: one more slot holds the key, and the highest slot ever to
        hold it is remembered. */
    method CountUpKey(pubkey: Pubkey, slot: Slot)
      requires numUniquePubkeys == |index|
      modifies this`index, this`numUniquePubkeys
      ensures CountedUp(old(index), index, pubkey, slot) && numUniquePubkeys == |index|
    {
      CountUpSize(index, pubkey, slot);
      if pubkey !in index {
        numUniquePubkeys := numUniquePubkeys + 1;
      }
      index := CountUp(index, pubkey, slot);
    }

    /** The index follows the slot's new cache `c`, whose only new key can be `pubkey`. */
    method CountStored(slot: Slot, pubkey: Pubkey, c: SlotCache, isNewKey: bool)
      requires IndexOk(cache, index, {}) && numUniquePubkeys == |index|
      requires c.accounts.Keys == (if slot in cache then cache[slot].accounts.Keys else {}) + {pubkey}
      requires isNewKey <==> !(slot in cache && pubkey in cache[slot].accounts)
      modifies this`index, this`numUniquePubkeys
      ensures IndexOk(cache[slot := c], index, {}) && numUniquePubkeys == |index|
    {
      if isNewKey {
        NewKeyHolders(cache, slot, c, pubkey);
        ghost var before := index;
        CountUpKey(pubkey, slot);
        CountUpOk(cache, cache[slot := c], before, index, pubkey, slot);
      } else {
        assert c.accounts.Keys == cache[slot].accounts.Keys;
        OverwriteKeepsIndex(cache, index, slot, c);
      }
    }

    /** `AccountsCache::store`. The index is only counted up when the key is new in the slot. */
    method StoreAccount(slot: Slot, pubkey: Pubkey, account: Account)
      requires Valid()
      modifies this`cache, this`index, this`numUniquePubkeys, this`totalSize, this`totalCount
      ensures Valid()
      ensures Accounts() == Stored(old(Accounts()), slot, pubkey, account)
    {
      var c := if slot in cache then cache[slot] else NoAccounts();
      var c', isNewKey := InsertAccount(c, pubkey, account);
      CountStored(slot, pubkey, c', isNewKey);
      StoredTotals(cache, slot, c', old(totalSize), old(totalCount), totalSize, totalCount);
      StoredAccounts(cache, slot, c', pubkey, account);
      cache := cache[slot := c'];
    }

    /** `AccountsCache::add_root`. */
    method AddUnflushedRoot(root: Slot)
      requires Valid()
      modifies this`unflushedRoots
      ensures Valid()
      ensures forall s :: s in unflushedRoots <==> s in old(unflushedRoots) || s == root
    {
      unflushedRoots := Insert(unflushedRoots, root);
    }

    /** `AccountsCacheIndex::remove` for the keys of a slot that has left the cache. */
    method CountDownAll(keys: set<Pubkey>) returns (removed: set<Pubkey>)
      requires IndexOk(cache, index, keys) && numUniquePubkeys == |index|
      modifies this`index, this`numUniquePubkeys
      ensures IndexOk(cache, index, {}) && numUniquePubkeys == |index|
      ensures forall k :: k in removed <==> k in keys && Holders(cache, k) == {}
    {
      removed := {};
      var todo := keys;
      while todo != {}
        invariant todo <= keys
        invariant IndexOk(cache, index, todo) && numUniquePubkeys == |index|
        invariant forall k :: k in removed <==> k in keys - todo && Holders(cache, k) == {}
        decreases |todo|
      {
        var k :| k in todo;
        CountDownOk(cache, index, todo, k);
        CountDownSize(index, k);
        index := CountDown(index, k);
        if k !in index {
          numUniquePubkeys := numUniquePubkeys - 1;
          removed := removed + {k};
        }
        todo := todo - {k};
      }
    }

    /** Takes a slot's cache out; dropping it takes its share out of the totals. The index is not
        updated yet. */
    method TakeSlot(slot: Slot) returns (c: SlotCache)
      requires Valid() && slot in cache
      modifies this`cache, this`totalSize, this`totalCount
      ensures cache == old(cache) - {slot} && c == old(cache)[slot]
      ensures TotalsOk(cache, totalSize, totalCount)
      ensures IndexOk(cache, index, c.accounts.Keys)
    {
      c := cache[slot];
      RemovedExtra(cache, index, slot);
      TotalsRemove(cache, slot, totalSize, totalCount);
      cache := cache - {slot};
      totalSize, totalCount := totalSize - c.size, totalCount - c.count;
    }

    /** `AccountsCache::remove_slot`. The keys returned are exactly those that left the cache. */
    method RemoveSlot(slot: Slot) returns (removed: Option<set<Pubkey>>)
      requires Valid()
      modifies this
      ensures Valid()
      ensures Accounts() == old(Accounts()) - {slot}
      ensures forall s :: s in unflushedRoots <==> s in old(unflushedRoots) && s != slot
      ensures removed.Some? <==> slot in old(Accounts())
      ensures removed.Some? ==>
                forall k :: k in removed.value <==>
                  k in old(Accounts())[slot] && Uncached(Accounts(), k)
    {
      RemoveUnflushedRoot(slot);
      AccountsWithout(cache, slot);
      if slot !in cache {
        assert cache - {slot} == cache;
        return None;
      }
      var c := TakeSlot(slot);
      var keys := CountDownAll(c.accounts.Keys);
      forall k {
        NotHeld(cache, k);
      }
      removed := Some(keys);
    }

    /** `remove_unflushed_root`, for a root that had no cache to flush. */
    method RemoveUnflushedRoot(root: Slot)
      requires Valid()
      modifies this`unflushedRoots
      ensures Valid()
      ensures forall s :: s in unflushedRoots <==> s in old(unflushedRoots) && s != root
    {
      unflushedRoots := Remove(unflushedRoots, root);
    }

    predicate HasAccount(slot: Slot, pubkey: Pubkey)
      reads this
    {
      slot in cache && pubkey in cache[slot].accounts
    }

    /** The newest ancestor not above `max` that has the key cached. */
    method FindAncestor(pubkey: Pubkey, a: Ancestors, max: Slot) returns (r: Option<Slot>)
      ensures r.None? ==> forall s :: s in a && s <= max ==> !HasAccount(s, pubkey)
      ensures r.Some? ==> r.value in a && r.value <= max && HasAccount(r.value, pubkey)
      ensures r.Some? ==> forall s :: s in a && r.value < s <= max ==> !HasAccount(s, pubkey)
    {
      var i := |a|;
      while i > 0 && a[i - 1] > max
        invariant 0 <= i <= |a|
        invariant forall j :: i <= j < |a| ==> a[j] > max
      {
        i := i - 1;
      }
      while i > 0
        invariant 0 <= i <= |a|
        invariant i > 0 ==> a[i - 1] <= max
        invariant forall j :: i <= j < |a| && a[j] <= max ==> !HasAccount(a[j], pubkey)
      {
        i := i - 1;
        if HasAccount(a[i], pubkey) {
          return Some(a[i]);
        }
      }
      return None;
    }

    /** The newest unflushed root up to `max` that has the key cached. */
    method FindRoot(pubkey: Pubkey, max: Slot) returns (r: Option<Slot>)
      requires Ascending(unflushedRoots)
      ensures r.None? ==> forall s :: s in unflushedRoots && s <= max ==> !HasAccount(s, pubkey)
      ensures r.Some? ==> r.value in unflushedRoots && r.value <= max && HasAccount(r.value, pubkey)
      ensures r.Some? ==> forall s :: s in unflushedRoots && r.value < s <= max ==> !HasAccount(s, pubkey)
    {
      r := FindAncestor(pubkey, unflushedRoots, max);
    }

    /** `AccountsCache::load_latest`: ancestors from the newest on, skipping those above the
        index's highest slot, then roots from the newest on. */
    method LoadLatest(pubkey: Pubkey, a: Ancestors) returns (r: Option<(Account, Slot)>)
      requires Valid()
      ensures Latest(Accounts(), unflushedRoots, a, pubkey, r)
    {
      forall s: Slot | Visible(Accounts(), unflushedRoots, a, pubkey, s)
        ensures HasAccount(s, pubkey) && pubkey in index && s <= index[pubkey].maxSlot
      {
        HolderBound(cache, index, unflushedRoots, a, pubkey, s);
      }
      if pubkey !in index {
        return None;
      }
      var max := index[pubkey].maxSlot;
      var ancestor := FindAncestor(pubkey, a, max);
      if ancestor.Some? {
        return Some((cache[ancestor.value].accounts[pubkey], ancestor.value));
      }
      var maxRoot := if |a| == 0 || max < a[0] then max else a[0];
      var root := FindRoot(pubkey, maxRoot);
      if root.Some? {
        return Some((cache[root.value].accounts[pubkey], root.value));
      }
      return None;
    }

    /** `AccountsCache::roots_to_flush`: all unflushed roots up to `maxRoot`, oldest first. */
    method RootsToFlush(maxRoot: Option<Slot>) returns (r: seq<Slot>)
      requires Valid()
      ensures Ascending(r)
      ensures forall s :: s in r <==> s in unflushedRoots && (maxRoot.Some? ==> s <= maxRoot.value)
    {
      if maxRoot.None? {
        return unflushedRoots;
      }
      var n := 0;
      while n < |unflushedRoots| && unflushedRoots[n] <= maxRoot.value
        invariant 0 <= n <= |unflushedRoots|
        invariant forall i :: 0 <= i < n ==> unflushedRoots[i] <= maxRoot.value
      {
        n := n + 1;
      }
      r := unflushedRoots[..n];
      forall s
        ensures s in r <==> s in unflushedRoots && s <= maxRoot.value
      {
        if s in unflushedRoots && s <= maxRoot.value {
          var i :| 0 <= i < |unflushedRoots| && unflushedRoots[i] == s;
          assert i < n;
          assert r[i] == s;
        }
      }
    }
  }
}
