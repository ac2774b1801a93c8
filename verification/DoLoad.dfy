/** `do_load`, look by look, while other threads go on: the write cache, the read cache, the
    index, the storage in up to three places, and from the index again when the storage is
    gone. The answer is that of a load done at once, and the panic on a bad index entry is
    never reached. */
module DoLoads {
  import opened Types
  import opened AncestorSets
  import opened Storages
  import opened PrimaryIndex
  import opened Store
  import opened Invariant
  import opened Loads
  import opened Machine
  import opened Runs
  import opened Views
  import opened Interleaving
  import opened TornLoads
  import opened Scans
  import opened Fetches

  /** The states in which a storage was looked up. */
  datatype Looks = Looks(first: State, second: State, third: State)

  /** Steps that are not the reader's own are steps. */
  lemma ReadableIsNext(a: Ancestors, st: State, st': State)
    requires Later((x, y) => ReadableNext(a, x, y), st, st')
    ensures Later(Next, st, st')
  {
    NoStep(Next, st);
    forall x, y | Later(Next, st, x) && ReadableNext(a, x, y)
      ensures Later(Next, st, y)
    {
      var step: Step :| Takes(x, step, y) && Leaves(step, a);
      OneMore(Next, st, x, y);
    }
    Induction((x, y) => ReadableNext(a, x, y), x => Later(Next, st, x), st, st');
  }

  /** The looks happen one after the other between `st` and `st'`. */
  ghost predicate InOrder(st: State, looks: Looks, st': State) {
    && Later(Next, st, looks.first) && Later(Next, looks.first, looks.second)
    && Later(Next, looks.second, looks.third) && Later(Next, looks.third, st')
  }

  /** The entry of `k` at `s` in the storage `id` will not be seen any more. */
  ghost predicate GoneFor(st: State, k: Pubkey, s: Slot, id: StoreId) {
    forall st' :: Later(Next, st, st') ==> !EntryIn(st', k, s, id)
  }

  lemma LooksFailed(st: State, looks: Looks, st': State, k: Pubkey, s: Slot, id: StoreId)
    requires Inv(st) && EntryIn(st, k, s, id) && InOrder(st, looks, st')
    requires ThreeLooks(looks.first, looks.second, looks.third, s, id).None?
    ensures GoneFor(st', k, s, id)
  {
    forall st'' | Later(Next, st', st'')
      ensures !EntryIn(st'', k, s, id)
    {
      Together(Next, looks.third, st', st'');
      NoBadIndexEntry(st, looks.first, looks.second, looks.third, st'', k, s, id);
    }
  }

  /** Others go on; `st0` is any earlier state. */
  method Meanwhile(db: SharedStore, r: Reader, ghost st0: State)
    requires Reaches(r, db.st) && Later((x, y) => ReadableNext(r.a, x, y), st0, db.st)
    modifies db
    ensures Reaches(r, db.st) && Later((x, y) => ReadableNext(r.a, x, y), st0, db.st)
    ensures Later(Next, old(db.st), db.st)
  {
    db.Others(r);
    ReadableIsNext(r.a, old(db.st), db.st);
    Together((x, y) => ReadableNext(r.a, x, y), st0, old(db.st), db.st);
  }

  /** `get_account_storage_entry`: the map, the shrink map, the map again. */
  method GetStorageEntry(db: SharedStore, r: Reader, ghost st0: State, s: Slot, id: StoreId)
    returns (t: Option<Storage>, ghost looks: Looks)
    requires Reaches(r, db.st) && Later((x, y) => ReadableNext(r.a, x, y), st0, db.st)
    modifies db
    ensures Reaches(r, db.st) && Later((x, y) => ReadableNext(r.a, x, y), st0, db.st)
    ensures InOrder(old(db.st), looks, db.st)
    ensures t == ThreeLooks(looks.first, looks.second, looks.third, s, id)
  {
    Meanwhile(db, r, st0);
    ghost var first := db.st;
    NoStep(Next, first);
    if s in db.st.storages && db.st.storages[s].id == id {
      return Some(db.st.storages[s]), Looks(first, first, first);
    }
    Meanwhile(db, r, st0);
    ghost var second := db.st;
    NoStep(Next, second);
    if s in db.st.shrinking && db.st.shrinking[s].id == id {
      return Some(db.st.shrinking[s]), Looks(first, second, second);
    }
    Meanwhile(db, r, st0);
    NoStep(Next, db.st);
    looks := Looks(first, second, db.st);
    t := if s in db.st.storages && db.st.storages[s].id == id then Some(db.st.storages[s]) else None;
  }

  /** The account an entry points at, read some time after the entry. If its storage is not
      found, the entry is gone for good. */
  method ReadEntryAccount(db: SharedStore, r: Reader, k: Pubkey, s: Slot, info: Info) returns (account: Option<Account>)
    requires Reaches(r, db.st) && Has(db.st.index, k, s) && At(db.st.index, k, s) == info
    modifies db
    ensures Reaches(r, db.st) && Later((x, y) => ReadableNext(r.a, x, y), old(db.st), db.st)
    ensures if account.Some? then account == Content(old(db.st), k, s) else GoneFor(db.st, k, s, info.store)
  {
    ghost var st0 := db.st;
    NoStep((x, y) => ReadableNext(r.a, x, y), st0);
    ReachesReadable(r, st0);
    var t, looks := GetStorageEntry(db, r, st0, s, info.store);
    if t.Some? {
      FoundRecord(st0, looks.first, looks.second, looks.third, k, s, info.store);
      return Some(t.value.records[info.offset].account);
    }
    LooksFailed(st0, looks, db.st, k, s, info.store);
    return None;
  }

  lemma EntryAnswers(r: Reader, st: State, k: Pubkey, s: Slot)
    requires Reaches(r, st) && CacheSlots(st, r.a, k) == {}
    requires IndexSlots(st, r.a, k) != {} && s == Newest(IndexSlots(st, r.a, k))
    ensures Content(st, k, s).Some? && Answer(r, k) == Loadable(Content(st, k, s))
  {
    IndexAnswers(r, k, st);
    assert s in IndexSlots(st, r.a, k);
    EntryContent(r, st, k, s);
  }

  /** `c` was read for `k`: its entry, if still there, says the same account. */
  ghost predicate Read(k: Pubkey, c: Cached, st: State) {
    Fetched(Fetch(k, c.slot, c.account), st)
  }

  /** `s` is the newest entry of `k` the reader sees, if any, and the write cache has none. */
  ghost predicate Newly(r: Reader, k: Pubkey, s: Option<Slot>, st: State) {
    && Reaches(r, st) && CacheSlots(st, r.a, k) == {}
    && (s.None? <==> IndexSlots(st, r.a, k) == {})
    && (s.Some? ==> Has(st.index, k, s.value) && s.value == Newest(IndexSlots(st, r.a, k)))
  }

  method ReadIndex(db: SharedStore, r: Reader, k: Pubkey) returns (s: Option<Slot>)
    requires Reaches(r, db.st) && CacheSlots(db.st, r.a, k) == {}
    ensures Newly(r, k, s, db.st)
  {
    s := LatestIndexed(db.st, r.a, k);
  }

  lemma ReadStaysGood(r: Reader, k: Pubkey, s: Slot, st: State, st': State)
    requires Newly(r, k, Some(s), st) && Later((x, y) => ReadableNext(r.a, x, y), st, st')
    ensures CacheSlots(st', r.a, k) == {}
    ensures Content(st, k, s).Some? && Loadable(Content(st, k, s)) == Answer(r, k)
    ensures Read(k, Cached(s, Content(st, k, s).value), st')
  {
    ReachesReadable(r, st);
    EntryAnswers(r, st, k, s);
    MissedLater(st, st', r.a, k);
    ReadableIsNext(r.a, st, st');
    EntryFetched(st, k, s);
    FetchedLater(Fetch(k, s, Content(st, k, s).value), st, st');
  }

  /** One round of `retry_to_get_account_accessor`: the account, or another entry to try. The
      panic on a bad index entry is not reached: the same slot and storage do not come back. */
  method TryEntry(db: SharedStore, r: Reader, k: Pubkey, slot: Slot) returns (account: Option<Cached>, s: Option<Slot>)
    requires Newly(r, k, Some(slot), db.st)
    modifies db
    ensures Reaches(r, db.st)
    ensures account.Some? ==> Loadable(Some(account.value.account)) == Answer(r, k) && Read(k, account.value, db.st)
    ensures account.None? ==> Newly(r, k, s, db.st)
    ensures account.None? && s == Some(slot) ==> At(db.st.index, k, slot).store != old(At(db.st.index, k, slot).store)
  {
    ghost var st0 := db.st;
    var info := At(db.st.index, k, slot);
    var read := ReadEntryAccount(db, r, k, slot, info);
    ReadStaysGood(r, k, slot, st0, db.st);
    if read.Some? {
      return Some(Cached(slot, read.value)), None;
    }
    ghost var st1 := db.st;
    db.Others(r);
    ReachesReadable(r, st1);
    MissedLater(st1, db.st, r.a, k);
    StaysGone(r.a, st1, db.st, k, slot, info.store);
    s := ReadIndex(db, r, k);
    account := None;
  }

  lemma StaysGone(a: Ancestors, st: State, st': State, k: Pubkey, s: Slot, id: StoreId)
    requires GoneFor(st, k, s, id) && Later((x, y) => ReadableNext(a, x, y), st, st')
    ensures !EntryIn(st', k, s, id)
  {
    ReadableIsNext(a, st, st');
  }

  /** `retry_to_get_account_accessor`: after `limit` failures the storage is looked up while
      the entry is locked. */
  method LoadFromStorage(db: SharedStore, r: Reader, k: Pubkey, limit: nat) returns (account: Option<Cached>)
    requires Reaches(r, db.st) && CacheSlots(db.st, r.a, k) == {}
    modifies db
    ensures Reaches(r, db.st)
    ensures AnswersWith(r, k, account, db.st)
  {
    var s := ReadIndex(db, r, k);
    var failed := 0;
    while s.Some?
      invariant Newly(r, k, s, db.st) && failed <= limit
      decreases limit - failed, s.Some?
    {
      account, s := TryEntry(db, r, k, s.value);
      if account.Some? {
        return;
      }
      if s.Some? {
        if failed == limit {
          EntryAnswers(r, db.st, k, s.value);
          ReachesReadable(r, db.st);
          EntryFetched(db.st, k, s.value);
          return Some(Cached(s.value, Content(db.st, k, s.value).value));
        }
        failed := failed + 1;
      }
    }
    IndexAnswers(r, k, db.st);
    return None;
  }

  /** What a load found answers for the reader. */
  ghost predicate AnswersWith(r: Reader, k: Pubkey, found: Option<Cached>, st: State) {
    && Answer(r, k) == (if found.Some? then Loadable(Some(found.value.account)) else None)
    && (found.Some? ==> Read(k, found.value, st))
  }

  lemma ReadCacheAnswers(r: Reader, st: State, k: Pubkey)
    requires Reaches(r, st) && CacheSlots(st, r.a, k) == {} && ReadCacheHit(st, r.a, k)
    ensures Loadable(Some(st.readCache[k].account)) == Answer(r, k)
  {
    ReachesReadable(r, st);
    ReadCacheCoherent(st, r.a, k);
    IndexAnswers(r, k, st);
  }

  // ---------------------------------------------------------------------------------------
  // The read cache
  // ---------------------------------------------------------------------------------------

  /** A read of the reader's own is one of the steps it may find. */
  lemma OwnRead(a: Ancestors, st: State, step: ReadStep, st': State)
    requires ReaderOk(a, st) && HasRead(st, step, st')
    requires step.ReadEntry? || step.CacheRead?
    ensures ReadableNext(a, st, st')
  {
    assert Takes(st, Reads(step), st') && Leaves(Reads(step), a);
  }

  lemma ReadReaches(r: Reader, st: State, step: ReadStep, st': State)
    requires Reaches(r, st) && HasRead(st, step, st')
    requires step.ReadEntry? || step.CacheRead?
    ensures Reaches(r, st')
  {
    ReachesReadable(r, st);
    OwnRead(r.a, st, step, st');
    OneMore((x, y) => ReadableNext(r.a, x, y), r.start, st, st');
  }

  /** The account read for `k` is not zero-lamport and its slot is the newest one. */
  ghost predicate WorthCaching(st: State, k: Pubkey, c: Cached) {
    !IsZero(c.account) && Has(st.index, k, c.slot) && forall t: Slot :: Has(st.index, k, t) ==> t <= c.slot
  }

  lemma NewestIs(st: State, k: Pubkey, newest: Option<Slot>, s: Slot)
    requires newest.None? <==> IndexSlots(st, [], k) == {}
    requires newest.Some? ==> Has(st.index, k, newest.value) && newest.value == Newest(IndexSlots(st, [], k))
    ensures newest == Some(s) <==> Has(st.index, k, s) && forall t: Slot :: Has(st.index, k, t) ==> t <= s
  {
    forall t: Slot
      ensures Has(st.index, k, t) <==> t in IndexSlots(st, [], k)
    {
    }
  }

  /** Populating is reading the entry and storing what was read, under the entry's lock. */
  lemma PopulateReaches(r: Reader, st: State, k: Pubkey, c: Cached)
    requires Reaches(r, st) && Read(k, c, st) && WorthCaching(st, k, c)
    ensures Reaches(r, Populate(st, Fetch(k, c.slot, c.account)))
  {
    var f := Fetch(k, c.slot, c.account);
    var st' := FetchAccount(st, k, c.slot);
    ReadReaches(r, st, ReadEntry(k, c.slot), st');
    ReadReaches(r, st', CacheRead(f), Populate(st', f));
    assert st'.fetches - {f} == st.fetches - {f};
  }

  /** The account is cached while its slot is the newest one; `seen` is the store at that time. */
  method PopulateReadCache(db: SharedStore, r: Reader, k: Pubkey, c: Cached) returns (ghost seen: State)
    requires Reaches(r, db.st) && Read(k, c, db.st)
    modifies db
    ensures Reaches(r, db.st) && Later((x, y) => ReadableNext(r.a, x, y), old(db.st), seen)
    ensures db.st == if WorthCaching(seen, k, c) then Populate(seen, Fetch(k, c.slot, c.account)) else seen
  {
    db.Others(r);
    seen := db.st;
    ReadStays(r, k, c, old(db.st), seen);
    var newest := LatestIndexed(db.st, [], k);
    NewestIs(seen, k, newest, c.slot);
    if newest == Some(c.slot) && !IsZero(c.account) {
      PopulateReaches(r, seen, k, c);
      db.st := Populate(db.st, Fetch(k, c.slot, c.account));
    }
  }

  lemma ReadStays(r: Reader, k: Pubkey, c: Cached, st: State, st': State)
    requires Reaches(r, st) && Read(k, c, st) && Later((x, y) => ReadableNext(r.a, x, y), st, st')
    ensures Read(k, c, st')
  {
    ReachesReadable(r, st);
    ReadableIsNext(r.a, st, st');
    FetchedLater(Fetch(k, c.slot, c.account), st, st');
  }

  /** Where a load found its answer, and the store at that time. */
  datatype Source = WriteCache(at: State) | ReadCache(at: State) | Storages(found: Cached, at: State) | Nowhere

  /** The answer is the newest one of the write cache, or else that of the read cache, or else
      one from storage, which is then cached while its slot is the newest one. */
  ghost predicate FoundAt(r: Reader, k: Pubkey, account: Option<Account>, source: Source, st: State) {
    match source
    case WriteCache(at) => Reaches(r, at) && account.Some? && account == LoadFromCache(at, r.a, k)
    case ReadCache(at) =>
      && Reaches(r, at) && CacheSlots(at, r.a, k) == {}
      && ReadCacheHit(at, r.a, k) && account == Some(at.readCache[k].account)
    case Storages(c, at) =>
      && account == Some(c.account)
      && st == if WorthCaching(at, k, c) then Populate(at, Fetch(k, c.slot, c.account)) else at
    case Nowhere => account.None?
  }

  /** `do_load`, populating the read cache. */
  method DoLoad(db: SharedStore, r: Reader, k: Pubkey, limit: nat) returns (account: Option<Account>, ghost source: Source)
    requires Reaches(r, db.st)
    modifies db
    ensures Reaches(r, db.st)
    ensures Loadable(account) == Answer(r, k) && FoundAt(r, k, account, source, db.st)
  {
    db.Others(r);
    var cached := LatestCached(db.st, r.a, k);
    if cached.Some? {
      CachedAnswers(r, k, db.st);
      return Some(cached.value.account), WriteCache(db.st);
    }
    ReachesReadable(r, db.st);
    ghost var st1 := db.st;
    db.Others(r);
    MissedLater(st1, db.st, r.a, k);
    if ReadCacheHit(db.st, r.a, k) {
      ReadCacheAnswers(r, db.st, k);
      return Some(db.st.readCache[k].account), ReadCache(db.st);
    }
    ReachesReadable(r, db.st);
    ghost var st2 := db.st;
    db.Others(r);
    MissedLater(st2, db.st, r.a, k);
    var found := LoadFromStorage(db, r, k, limit);
    if found.None? {
      return None, Nowhere;
    }
    ghost var seen := PopulateReadCache(db, r, k, found.value);
    account := Some(found.value.account);
    source := Storages(found.value, seen);
  }
}
