/** The first clean after a restart: what is left in the index are the accounts that exist. */
module FirstClean {
  import opened Types
  import opened Storages
  import opened PrimaryIndex
  import opened Store
  import opened Work
  import opened Invariant
  import opened Restart
  import opened Rebuild
  import Startup
  import StartupClean
  import opened AccountsDatabase

  /** The key has one entry, at `n`. */
  ghost predicate Alone(ix: Index, k: Pubkey, n: Slot) {
    Has(ix, k, n) && forall s: Slot :: Has(ix, k, s) ==> s == n
  }

  /** The started index has one entry for each key with a record, zero-lamport if the newest
      record is. */
  lemma StartedEntry(files: StorageMap, k: Pubkey)
    ensures k in NewestIndex(files) ==>
              exists n: Slot :: Alone(NewestIndex(files), k, n) && (At(NewestIndex(files), k, n).zero <==> FileView(files, k).None?)
    ensures k !in NewestIndex(files) ==> FileView(files, k).None?
  {
    KeysInIff(files, k);
    if SlotsWith(files, k) != {} {
      var n := Newest(SlotsWith(files, k));
      NewestIndexHas(files, k, n);
      assert Alone(NewestIndex(files), k, n);
    }
  }

  lemma AloneKept(ix: Index, k: Pubkey, n: Slot, bound: Slot)
    requires Alone(ix, k, n)
    ensures n >= NewestUpTo(ix[k], bound)
  {
    var m := NewestUpTo(ix[k], bound);
    assert m in ix[k] ==> Has(ix, k, m);
  }

  lemma LiveKept(ix0: Index, ix: Index, keys: set<Pubkey>, bound: Slot, k: Pubkey, n: Slot)
    requires CleanedIndex(ix0, ix, keys, bound) && Alone(ix0, k, n) && !At(ix0, k, n).zero
    ensures k in ix && forall s: Slot :: Has(ix, k, s) ==> !At(ix, k, s).zero
  {
    var l := NotOlder(ix0[k], NewestUpTo(ix0[k], bound));
    AloneKept(ix0, k, n, bound);
    assert n in l && !LoneZero(l);
    assert n in ListOf(ix, k);
    forall s: Slot | Has(ix, k, s)
      ensures !At(ix, k, s).zero
    {
      assert s in ListOf(ix, k);
      assert Has(ix0, k, s);
    }
  }

  lemma DeletedGone(ix0: Index, ix: Index, keys: set<Pubkey>, bound: Slot, k: Pubkey, n: Slot)
    requires CleanedIndex(ix0, ix, keys, bound) && Alone(ix0, k, n) && At(ix0, k, n).zero && k in keys
    requires NoEmptyLists(ix)
    ensures k !in ix
  {
    CleanKeyRemoves(ix0, k, bound);
    AloneKept(ix0, k, n, bound);
    assert LoneZeroFrom(ix0, k, NewestUpTo(ix0[k], bound), n);
    assert ListOf(ix, k) == map[];
  }

  /** The index lists exactly the accounts that exist. */
  ghost predicate OnlyLive(files: StorageMap, ix: Index, k: Pubkey) {
    && (k in ix <==> FileView(files, k).Some?)
    && forall s: Slot :: Has(ix, k, s) ==> !At(ix, k, s).zero
  }

  lemma CleanedLive(files: StorageMap, ix: Index, keys: set<Pubkey>, bound: Slot, k: Pubkey)
    requires CleanedIndex(NewestIndex(files), ix, keys, bound) && NoEmptyLists(ix)
    requires forall s: Slot :: Has(NewestIndex(files), k, s) && At(NewestIndex(files), k, s).zero ==> k in keys
    ensures OnlyLive(files, ix, k)
  {
    var ix0 := NewestIndex(files);
    StartedEntry(files, k);
    if k in ix0 {
      var n: Slot :| Alone(ix0, k, n) && (At(ix0, k, n).zero <==> FileView(files, k).None?);
      if At(ix0, k, n).zero {
        DeletedGone(ix0, ix, keys, bound, k, n);
      } else {
        LiveKept(ix0, ix, keys, bound, k, n);
      }
    } else {
      NeverIndexed(ix0, ix, keys, bound, k);
    }
  }

  lemma NeverIndexed(ix0: Index, ix: Index, keys: set<Pubkey>, bound: Slot, k: Pubkey)
    requires CleanedIndex(ix0, ix, keys, bound) && k !in ix0 && NoEmptyLists(ix)
    ensures k !in ix
  {
    assert ListOf(ix, k) == map[];
  }

  /** What is recorded for cleaning at slots up to the newest one is looked at. */
  lemma DeletedAreCandidates(files: StorageMap, st: State, bound: Slot, k: Pubkey, s: Slot)
    requires st.index == NewestIndex(files) && forall t :: t in files ==> t <= bound
    requires Has(st.index, k, s) && s in st.uncleaned && k in st.uncleaned[s]
    ensures k in CandidateKeys(st, bound)
  {
    NewestIndexHas(files, k, s);
  }

  /** The keys of all deleted accounts of the index are in `keys`. */
  ghost predicate DeletedAmong(ix: Index, keys: set<Pubkey>) {
    forall k, s: Slot :: Has(ix, k, s) && At(ix, k, s).zero ==> k in keys
  }

  lemma StartedCanClean(st: State, bound: Slot)
    requires Unused(st) && bound in st.roots
    ensures CanBeginClean(st, bound)
  {
    assert exists r :: r in st.roots && bound <= r;
  }

  lemma StartedLoads(files: StorageMap, st: State)
    requires StartedFrom(files, st)
    ensures forall k :: Load(st, [], k) == FileView(files, k)
  {
    forall k
      ensures Load(st, [], k) == FileView(files, k)
    {
      StartedShows(files, st, k);
    }
  }

  /** The started store, with what the first clean needs of it. */
  method Start(files: StorageMap, parts: seq<set<Slot>>, binOf: Pubkey -> nat, bins: nat,
               nextId: StoreId, snapshotSlot: Option<Slot>, newest: Slot) returns (st: State)
    requires files != map[] && Loaded(files, nextId)
    requires Startup.PartsOf(parts, files.Keys) && forall k :: binOf(k) < bins
    requires newest in files && forall s :: s in files ==> s <= newest
    ensures Inv(st) && CanBeginClean(st, newest)
    ensures st.index == NewestIndex(files) && DeletedAmong(st.index, CandidateKeys(st, newest))
    ensures forall k :: Load(st, [], k) == FileView(files, k)
  {
    var total;
    st, total := StartupClean.GenerateIndex(files, parts, binOf, bins, (r: Record) => r.account.lamports, nextId, snapshotSlot);
    StartedInv(files, st);
    StartedCanClean(st, newest);
    StartedLoads(files, st);
    forall k, s: Slot | Has(st.index, k, s) && At(st.index, k, s).zero
      ensures k in CandidateKeys(st, newest)
    {
      DeletedAreCandidates(files, st, newest, k, s);
    }
  }

  lemma CleanedLoads(files: StorageMap, st: State, st': State, bound: Slot)
    requires Inv(st) && Worked(bound, st, st')
    requires forall k :: Load(st, [], k) == FileView(files, k)
    ensures forall k :: Load(st', [], k) == FileView(files, k)
  {
    forall k
      ensures Load(st', [], k) == FileView(files, k)
    {
      WorkPreservesLoad(bound, st, st', [], k);
    }
  }

  lemma AllLive(files: StorageMap, ix: Index, keys: set<Pubkey>, bound: Slot)
    requires CleanedIndex(NewestIndex(files), ix, keys, bound) && NoEmptyLists(ix)
    requires DeletedAmong(NewestIndex(files), keys)
    ensures forall k :: OnlyLive(files, ix, k)
  {
    forall k
      ensures OnlyLive(files, ix, k)
    {
      CleanedLive(files, ix, keys, bound, k);
    }
  }

  /** `generate_index` followed by a clean up to the newest slot: exactly the accounts that exist
      are indexed, none of them zero-lamport, and every load gives what the files hold. */
  method StartAndClean(files: StorageMap, parts: seq<set<Slot>>, binOf: Pubkey -> nat, bins: nat,
                       nextId: StoreId, snapshotSlot: Option<Slot>) returns (db: AccountsDb)
    requires files != map[] && Loaded(files, nextId)
    requires Startup.PartsOf(parts, files.Keys) && forall k :: binOf(k) < bins
    ensures fresh(db) && db.st.phase.Idle?
    ensures forall k :: OnlyLive(files, db.st.index, k)
    ensures forall k :: Load(db.st, [], k) == FileView(files, k)
  {
    assert files.Keys != {};
    var newest := FindNewest(files.Keys);
    var st := Start(files, parts, binOf, bins, nextId, snapshotSlot, newest);
    db := new AccountsDb();
    db.st := st;
    db.CleanAccounts(newest);
    AllLive(files, db.st.index, CandidateKeys(st, newest), newest);
    CleanedLoads(files, st, db.st, newest);
  }
}
