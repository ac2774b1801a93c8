/** A bank writes a batch of accounts to its slot of the cache. Of several versions of one key
    the last counts; a deletion is not even stored when there is nothing to delete. */
module WriteBatch {
  import opened Types
  import opened AncestorSets
  import opened Storages
  import opened PrimaryIndex
  import opened Store
  import opened Invariant
  import opened Loads
  import opened Runs
  import opened Views
  import opened TornLoads
  import opened Work
  import opened Scans
  import Foreground = ForegroundProofs

  /** The last record of `k` from position `n` on. */
  ghost function LastFrom(accounts: seq<Record>, n: nat, k: Pubkey): Option<Account>
    requires n <= |accounts|
    decreases |accounts| - n
  {
    if n == |accounts| then None
    else
      var later := LastFrom(accounts, n + 1, k);
      if later.Some? then later else if accounts[n].pubkey == k then Some(accounts[n].account) else None
  }

  lemma {:induction false} LastFromNone(accounts: seq<Record>, n: nat, k: Pubkey)
    requires n <= |accounts|
    ensures LastFrom(accounts, n, k).None? <==> forall j :: n <= j < |accounts| ==> accounts[j].pubkey != k
    decreases |accounts| - n
  {
    if n < |accounts| {
      LastFromNone(accounts, n + 1, k);
    }
  }

  /** The account at `i` has to be stored: none after it has its key, and it does not delete what
      the bank does not load anyway. */
  ghost predicate HasToBeStored(a: Ancestors, accounts: seq<Record>, i: nat, st0: State)
    requires i < |accounts|
  {
    && (forall j :: i < j < |accounts| ==> accounts[j].pubkey != accounts[i].pubkey)
    && (IsZero(accounts[i].account) ==> Load(st0, a, accounts[i].pubkey) != None)
  }

  /** `stored` says for the accounts from `n` on whether they had to be stored. */
  ghost predicate StoredFrom(a: Ancestors, accounts: seq<Record>, n: nat, st0: State, stored: seq<bool>) {
    && n + |stored| == |accounts|
    && forall j :: 0 <= j < |stored| ==> (stored[j] <==> HasToBeStored(a, accounts, n + j, st0))
  }

  lemma StoredNext(a: Ancestors, accounts: seq<Record>, n: nat, st0: State, stored: seq<bool>, b: bool)
    requires StoredFrom(a, accounts, n + 1, st0, stored) && (b <==> HasToBeStored(a, accounts, n, st0))
    ensures StoredFrom(a, accounts, n, st0, [b] + stored)
  {
    var all := [b] + stored;
    forall j | 0 <= j < |all|
      ensures all[j] <==> HasToBeStored(a, accounts, n + j, st0)
    {
      if j > 0 {
        assert all[j] == stored[j - 1];
        assert n + j == n + 1 + (j - 1);
      }
    }
  }

  lemma StoredAll(a: Ancestors, accounts: seq<Record>, st0: State, stored: seq<bool>)
    requires StoredFrom(a, accounts, 0, st0, stored)
    ensures |stored| == |accounts| && forall i :: 0 <= i < |accounts| ==> (stored[i] <==> HasToBeStored(a, accounts, i, st0))
  {
  }

  /** A bank at `slot` with its own view of the store. */
  ghost predicate IsBank(st: State, slot: Slot, a: Ancestors) {
    && slot !in st.roots && slot in a && (forall t :: t in a ==> t <= slot)
    && Consistent(st.roots, a) && Sheltered(st, a)
  }

  /** What `account_default_if_zero_lamport` makes of an account. */
  function DefaultIfZero(account: Account): Account {
    if IsZero(account) then DEFAULT_ACCOUNT else account
  }

  lemma CachedZero(st: SoundState, a: Ancestors, k: Pubkey)
    requires Sheltered(st, a) && Consistent(st.roots, a) && CacheSlots(st, a, k) != {}
    ensures Load(st, a, k) == Loadable(LoadFromCache(st, a, k))
  {
  }

  lemma IndexedZero(st: SoundState, a: Ancestors, k: Pubkey)
    requires Sheltered(st, a) && Consistent(st.roots, a) && CacheSlots(st, a, k) == {}
    ensures Load(st, a, k) == Loadable(LoadFromIndex(st, a, k))
  {
    LoadIsNaive(st, a, k);
    IndexOnly(st, a, k);
  }

  lemma ZeroFlag(st: SoundState, k: Pubkey, s: Slot)
    requires Has(st.index, k, s)
    ensures Content(st, k, s).Some? && (At(st.index, k, s).zero <==> IsZero(Content(st, k, s).value))
  {
    assert Points(st.index, st.storages, st.shrinking, k, s);
  }

  /** The newest cached version decides, if there is one. */
  method ZeroInCache(st: SoundState, a: Ancestors, k: Pubkey) returns (r: Option<bool>)
    requires Sheltered(st, a) && Consistent(st.roots, a)
    ensures r.None? <==> CacheSlots(st, a, k) == {}
    ensures r.Some? ==> (r.value <==> Load(st, a, k) == None)
  {
    var cached := LatestCached(st, a, k);
    if cached.None? {
      return None;
    }
    CachedZero(st, a, k);
    return Some(cached.value.account.lamports == 0);
  }

  /** Else the flag of the newest entry does. */
  method ZeroInIndex(st: SoundState, a: Ancestors, k: Pubkey) returns (r: Option<bool>)
    requires Sheltered(st, a) && Consistent(st.roots, a) && CacheSlots(st, a, k) == {}
    ensures r.None? || r.value <==> Load(st, a, k) == None
  {
    IndexedZero(st, a, k);
    var s := LatestIndexed(st, a, k);
    if s.None? {
      return None;
    }
    ZeroFlag(st, k, s.value);
    return Some(At(st.index, k, s.value).zero);
  }

  /** The bank loads the same accounts from both stores, and no account it missed in the cache
      has turned up there. */
  ghost predicate Undisturbed(a: Ancestors, st: State, st': State) {
    && (forall k :: Load(st', a, k) == Load(st, a, k))
    && (forall k :: CacheSlots(st, a, k) == {} ==> CacheSlots(st', a, k) == {})
  }

  /** Steps of others lead from `st` to `st'`. */
  ghost predicate Onward(a: Ancestors, st: State, st': State) {
    Later((x, y) => ReadableNext(a, x, y), st, st')
  }

  lemma NotYet(a: Ancestors, st: State)
    ensures Onward(a, st, st)
  {
    NoStep((x, y) => ReadableNext(a, x, y), st);
  }

  lemma OthersShow(a: Ancestors, st: SoundState, st': State)
    requires Onward(a, st, st')
    ensures Undisturbed(a, st, st')
  {
    forall k
      ensures Load(st', a, k) == Load(st, a, k)
    {
      RunPreservesLoad(st, st', a, k);
    }
    forall k | CacheSlots(st, a, k) == {}
      ensures CacheSlots(st', a, k) == {}
    {
      MissedLater(st, st', a, k);
    }
  }

  /** The bank loads the account it wrote, and all others as before. */
  ghost predicate Wrote(a: Ancestors, rec: Record, st: State, st': State) {
    && Load(st', a, rec.pubkey) == Loadable(Some(rec.account))
    && (forall k :: k != rec.pubkey ==> Load(st', a, k) == Load(st, a, k))
  }

  lemma StoredView(st: SoundState, slot: Slot, a: Ancestors, k: Pubkey, account: Account)
    requires IsBank(st, slot, a) && (IsZero(account) ==> account == DEFAULT_ACCOUNT)
    ensures Inv(StoreCached(st, slot, k, account)) && IsBank(StoreCached(st, slot, k, account), slot, a)
    ensures Load(StoreCached(st, slot, k, account), a, k) == Loadable(Some(account))
    ensures forall j :: j != k ==> Load(StoreCached(st, slot, k, account), a, j) == Load(st, a, j)
  {
    var st' := StoreCached(st, slot, k, account);
    Foreground.StoreCachedInv(st, slot, k, account);
    StoreThenLoad(st, slot, k, account, a);
    forall j | j != k
      ensures Load(st', a, j) == Load(st, a, j)
    {
      LoadIsNaive(st, a, j);
      LoadIsNaive(st', a, j);
    }
  }

  class CacheWriter {
    var st: SoundState

    constructor (initial: SoundState)
      ensures st == initial
    {
      st := initial;
    }

    /** Steps of others while the bank is neither rooted nor abandoned. */
    method Others(slot: Slot, a: Ancestors)
      requires IsBank(st, slot, a)
      modifies this
      ensures IsBank(st, slot, a) && Onward(a, old(st), st)
    {
      NotYet(a, st);
    }

    /** None of them disturbs the bank. */
    method Meanwhile(slot: Slot, a: Ancestors)
      requires IsBank(st, slot, a)
      modifies this
      ensures IsBank(st, slot, a) && Undisturbed(a, old(st), st)
    {
      ghost var before := st;
      Others(slot, a);
      OthersShow(a, before, st);
    }

    /** `is_ancestor_zero_lamport`: from the cache, or else from the index alone. */
    method IsAncestorZero(slot: Slot, a: Ancestors, k: Pubkey) returns (r: Option<bool>)
      requires IsBank(st, slot, a)
      modifies this
      ensures IsBank(st, slot, a) && Undisturbed(a, old(st), st)
      ensures r.None? || r.value <==> Load(st, a, k) == None
    {
      r := ZeroInCache(st, a, k);
      if r.None? {
        Meanwhile(slot, a);
        r := ZeroInIndex(st, a, k);
      }
    }

    /** One account of the batch that is not superseded within it. A deletion is skipped if
        there is nothing to delete, and that is still so whatever others do meanwhile. */
    method WriteOne(slot: Slot, a: Ancestors, rec: Record) returns (stored: bool)
      requires IsBank(st, slot, a)
      modifies this
      ensures IsBank(st, slot, a)
      ensures Wrote(a, rec, old(st), st)
      ensures stored <==> !(IsZero(rec.account) && Load(old(st), a, rec.pubkey) == None)
      ensures stored ==> slot in st.cache && rec.pubkey in st.cache[slot] && st.cache[slot][rec.pubkey] == DefaultIfZero(rec.account)
    {
      var account := DefaultIfZero(rec.account);
      if IsZero(account) {
        var zero := IsAncestorZero(slot, a, rec.pubkey);
        if zero.None? || zero.value {
          return false;
        }
      }
      Meanwhile(slot, a);
      StoredView(st, slot, a, rec.pubkey, account);
      st := StoreCached(st, slot, rec.pubkey, account);
      return true;
    }

    /** The account at position `n`, unless a later one of the batch supersedes it. */
    method WriteNext(slot: Slot, a: Ancestors, accounts: seq<Record>, n: nat, seen: set<Pubkey>, ghost st0: State)
      returns (seen': set<Pubkey>, stored: bool)
      requires n < |accounts| && IsBank(st, slot, a) && BatchView(a, accounts, n + 1, st0, st)
      requires SeenFrom(accounts, n + 1, seen)
      modifies this
      ensures IsBank(st, slot, a) && BatchView(a, accounts, n, st0, st) && SeenFrom(accounts, n, seen')
      ensures stored <==> HasToBeStored(a, accounts, n, st0)
    {
      ghost var st1 := st;
      Meanwhile(slot, a);
      BatchUndisturbed(a, accounts, n + 1, st0, st1, st);
      ghost var st2 := st;
      LastFromNone(accounts, n + 1, accounts[n].pubkey);
      if accounts[n].pubkey in seen {
        BatchSkip(a, accounts, n, st0, st2);
        return seen, false;
      }
      stored := WriteOne(slot, a, accounts[n]);
      BatchWrite(a, accounts, n, st0, st2, st);
      seen' := seen + {accounts[n].pubkey};
    }

    /** `write_accounts_to_cache`: the bank then loads the last account of each key of the batch,
        and for all other keys what it loaded before, with others going on all the time. The
        result tells which accounts were stored. */
    method WriteAccountsToCache(slot: Slot, a: Ancestors, accounts: seq<Record>) returns (stored: seq<bool>)
      requires IsBank(st, slot, a)
      modifies this
      ensures IsBank(st, slot, a) && BatchView(a, accounts, 0, old(st), st)
      ensures |stored| == |accounts| && forall i :: 0 <= i < |accounts| ==> (stored[i] <==> HasToBeStored(a, accounts, i, old(st)))
    {
      var n := |accounts|;
      var seen: set<Pubkey> := {};
      stored := [];
      ghost var st0 := st;
      while n > 0
        invariant 0 <= n <= |accounts|
        invariant IsBank(st, slot, a) && BatchView(a, accounts, n, st0, st) && SeenFrom(accounts, n, seen)
        invariant StoredFrom(a, accounts, n, st0, stored)
      {
        n := n - 1;
        var b;
        seen, b := WriteNext(slot, a, accounts, n, seen, st0);
        StoredNext(a, accounts, n, st0, stored, b);
        stored := [b] + stored;
      }
      StoredAll(a, accounts, st0, stored);
    }
  }

  /** `seen` are the keys with a record from position `n` on. */
  ghost predicate SeenFrom(accounts: seq<Record>, n: nat, seen: set<Pubkey>)
    requires n <= |accounts|
  {
    forall k :: k in seen <==> LastFrom(accounts, n, k).Some?
  }

  /** The bank loads the last account of each key from position `n` on, else what it loaded
      from `st0`. */
  ghost predicate BatchView(a: Ancestors, accounts: seq<Record>, n: nat, st0: State, st: State)
    requires n <= |accounts|
  {
    forall k :: Load(st, a, k) ==
      if LastFrom(accounts, n, k).Some? then Loadable(LastFrom(accounts, n, k)) else Load(st0, a, k)
  }

  lemma BatchUndisturbed(a: Ancestors, accounts: seq<Record>, n: nat, st0: State, st: State, st': State)
    requires n <= |accounts| && BatchView(a, accounts, n, st0, st) && Undisturbed(a, st, st')
    ensures BatchView(a, accounts, n, st0, st')
  {
  }

  lemma BatchSkip(a: Ancestors, accounts: seq<Record>, n: nat, st0: State, st: State)
    requires n < |accounts| && BatchView(a, accounts, n + 1, st0, st)
    requires LastFrom(accounts, n + 1, accounts[n].pubkey).Some?
    ensures BatchView(a, accounts, n, st0, st)
  {
  }

  lemma BatchWrite(a: Ancestors, accounts: seq<Record>, n: nat, st0: State, st: State, st': State)
    requires n < |accounts| && BatchView(a, accounts, n + 1, st0, st) && Wrote(a, accounts[n], st, st')
    requires LastFrom(accounts, n + 1, accounts[n].pubkey).None?
    ensures BatchView(a, accounts, n, st0, st')
  {
  }
}
