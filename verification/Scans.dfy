/** `scan_accounts` looks at the cache first, walks the index, then adds what was only cached.
    None of this is atomic, yet every account the reader sees is reported exactly once. */
module Scans {
  import opened Types
  import opened AncestorSets
  import opened PrimaryIndex
  import opened Store
  import opened Invariant
  import opened Loads
  import opened Machine
  import opened Runs
  import opened Views
  import opened TornLoads
  import opened Capitalization
  import Flush = FlushProofs
  import Clean = CleanProofs
  import Foreground = ForegroundProofs

  // ---------------------------------------------------------------------------------------
  // No version appears that the reader could not see before
  // ---------------------------------------------------------------------------------------

  /** An entry that is new in the index was visible in the cache. */
  ghost predicate FromCache(st: State, st': State, k: Pubkey) {
    forall s: Slot :: Has(st'.index, k, s) ==>
      Has(st.index, k, s) || (s in st.unflushed && s in st.cache && k in st.cache[s])
  }

  lemma FlushFromCache(st: State, step: FlushStep, st': State, k: Pubkey)
    requires Inv(st) && Flushed(st, step, st')
    ensures FromCache(st, st', k)
  {
    if step.FlushIndex? {
      var r, k' := Flush.FlushKeyEntering(st, step.offset);
      Flush.FlushKeyIndex(st, r, step.offset, k');
    }
  }

  lemma CleanFromCache(st: State, step: CleanStep, st': State, k: Pubkey)
    requires Inv(st) && Cleaned(st, step, st')
    ensures FromCache(st, st', k)
  {
    if step.CleanIndex? {
      Clean.CleanKeyIndex(st, step.pubkey);
    }
  }

  lemma ShrinkFromCache(st: State, step: ShrinkStep, st': State, k: Pubkey)
    requires Shrunk(st, step, st')
    ensures FromCache(st, st', k)
  {
  }

  lemma ReplayFromCache(st: State, step: ReplayStep, st': State, k: Pubkey)
    requires Replayed(st, step, st')
    ensures FromCache(st, st', k)
  {
  }

  lemma ReadFromCache(st: State, step: ReadStep, st': State, k: Pubkey)
    requires HasRead(st, step, st')
    ensures FromCache(st, st', k)
  {
  }

  lemma StepFromCache(st: State, step: Step, st': State, k: Pubkey)
    requires Inv(st) && Takes(st, step, st')
    ensures FromCache(st, st', k)
  {
    match step
    case Replays(x) => ReplayFromCache(st, x, st', k);
    case Reads(x) => ReadFromCache(st, x, st', k);
    case Flushes(x) => FlushFromCache(st, x, st', k);
    case Cleans(x) => CleanFromCache(st, x, st', k);
    case Shrinks(x) => ShrinkFromCache(st, x, st', k);
  }

  /** All versions of `k` that the reader sees are at or below slot `c`. */
  ghost predicate Within(a: Ancestors, k: Pubkey, c: Slot, st: State) {
    && Inv(st)
    && (forall s: Slot :: CacheSees(st, a, k, s) ==> s <= c)
    && (forall s: Slot :: Has(st.index, k, s) && Sees(a, s) ==> s <= c)
  }

  lemma StaysWithin(st: State, st': State, a: Ancestors, k: Pubkey, c: Slot)
    requires Within(a, k, c, st) && ReadableNext(a, st, st')
    ensures Within(a, k, c, st')
  {
    var step: Step :| Takes(st, step, st') && Leaves(step, a);
    TakenKeepsInv(st, step, st');
    StepShows(st, step, st', a, k);
    StepFromCache(st, step, st', k);
    forall s: Slot | Has(st'.index, k, s) && Sees(a, s)
      ensures s <= c
    {
      if !Has(st.index, k, s) {
        assert CacheSees(st, a, k, s);
      }
    }
  }

  // ---------------------------------------------------------------------------------------
  // A reader at work
  // ---------------------------------------------------------------------------------------

  /** A reader and the state it began in. */
  datatype Reading = Reading(start: State, a: Ancestors)

  type Reader = r: Reading | Inv(r.start) && ReaderOk(r.a, r.start) ghost witness Reading(Empty(), [])

  /** `st` is a state the reader may find later on. */
  ghost predicate Reaches(r: Reader, st: State) {
    Later((x, y) => ReadableNext(r.a, x, y), r.start, st)
  }

  ghost predicate Readable(a: Ancestors, st: State) {
    Inv(st) && ReaderOk(a, st)
  }

  lemma NextReadable(a: Ancestors, st: State, st': State)
    requires Readable(a, st) && ReadableNext(a, st, st')
    ensures Readable(a, st')
  {
    var step: Step :| Takes(st, step, st') && Leaves(step, a);
    TakenKeepsInv(st, step, st');
  }

  lemma ReachesReadable(r: Reader, st: State)
    requires Reaches(r, st)
    ensures Readable(r.a, st)
  {
    forall x, y | Readable(r.a, x) && ReadableNext(r.a, x, y)
      ensures Readable(r.a, y)
    {
      NextReadable(r.a, x, y);
    }
    Induction((x, y) => ReadableNext(r.a, x, y), x => Readable(r.a, x), r.start, st);
  }

  /** What a load gives the reader all along. */
  ghost function Answer(r: Reader, k: Pubkey): Option<Account> {
    Load(r.start, r.a, k)
  }

  lemma AnswerStays(r: Reader, st: State, k: Pubkey)
    requires Reaches(r, st)
    ensures Load(st, r.a, k) == Answer(r, k)
  {
    RunPreservesLoad(r.start, st, r.a, k);
  }

  lemma WithinLater(r: Reader, st: State, st': State, k: Pubkey, c: Slot)
    requires Within(r.a, k, c, st) && Later((x, y) => ReadableNext(r.a, x, y), st, st')
    ensures Within(r.a, k, c, st')
  {
    forall x, y | Within(r.a, k, c, x) && ReadableNext(r.a, x, y)
      ensures Within(r.a, k, c, y)
    {
      StaysWithin(x, y, r.a, k, c);
    }
    Induction((x, y) => ReadableNext(r.a, x, y), x => Within(r.a, k, c, x), st, st');
  }

  // ---------------------------------------------------------------------------------------
  // What is known about a key while the scan goes on
  // ---------------------------------------------------------------------------------------

  /** `c` is the newest version of `k` that the reader sees in `st`. */
  ghost predicate IsNewest(a: Ancestors, k: Pubkey, c: Cached, st: State) {
    && (|| (CacheSees(st, a, k, c.slot) && st.cache[c.slot][k] == c.account)
        || (Sees(a, c.slot) && Content(st, k, c.slot) == Some(c.account)))
    && (forall s: Slot :: CacheSees(st, a, k, s) ==> s <= c.slot)
    && (forall s: Slot :: Has(st.index, k, s) && Sees(a, s) ==> s <= c.slot)
  }

  /** `c` answers for `k`: a load gives its account, and when the reader found it, it was the
      newest version the reader could see. */
  ghost predicate Reports(r: Reader, k: Pubkey, c: Cached) {
    Loadable(Some(c.account)) == Answer(r, k) && exists st :: Reaches(r, st) && IsNewest(r.a, k, c, st)
  }

  /** A version taken from the cache answers for its key, and nothing newer can turn up. */
  ghost predicate VersionOk(r: Reader, k: Pubkey, c: Cached, st: State) {
    Reports(r, k, c) && Within(r.a, k, c.slot, st)
  }

  /** What is known about the keys that have not been reported: `versions` were found in the
      cache, of the others, unless `open`, nothing is there. */
  ghost predicate Prepared(r: Reader, versions: map<Pubkey, Cached>, open: set<Pubkey>, st: State) {
    && (forall k :: k in versions ==> VersionOk(r, k, versions[k], st))
    && (forall k :: k !in versions && k !in open ==> Missed(r.a, k, st))
  }

  lemma MissedIs(a: Ancestors, k: Pubkey, st: State)
    ensures (forall s :: !CacheSees(st, a, k, s)) <==> CacheSlots(st, a, k) == {}
  {
    if CacheSlots(st, a, k) == {} {
      forall s
        ensures !CacheSees(st, a, k, s)
      {
        assert s !in CacheSlots(st, a, k);
      }
    }
  }

  lemma StaysPrepared(r: Reader, versions: map<Pubkey, Cached>, open: set<Pubkey>, st: State, st': State)
    requires Prepared(r, versions, open, st) && Later((x, y) => ReadableNext(r.a, x, y), st, st')
    requires Reaches(r, st')
    ensures Prepared(r, versions, open, st')
  {
    ReachesReadable(r, st');
    forall k | k in versions
      ensures VersionOk(r, k, versions[k], st')
    {
      assert VersionOk(r, k, versions[k], st);
      WithinLater(r, st, st', k, versions[k].slot);
    }
    forall k | k !in versions && k !in open
      ensures Missed(r.a, k, st')
    {
      assert Missed(r.a, k, st);
      MissedIs(r.a, k, st);
      MissedLater(st, st', r.a, k);
      MissedIs(r.a, k, st');
    }
  }

  /** The newest version in the cache answers. */
  lemma CachedAnswers(r: Reader, k: Pubkey, st: State)
    requires Reaches(r, st) && CacheSlots(st, r.a, k) != {}
    ensures var c := Newest(CacheSlots(st, r.a, k));
            VersionOk(r, k, Cached(c, st.cache[c][k]), st)
  {
    ReachesReadable(r, st);
    AnswerStays(r, st, k);
    CachedWithin(r.a, k, st);
    LoadIsNaive(st, r.a, k);
    var c := Newest(CacheSlots(st, r.a, k));
    assert IsNewest(r.a, k, Cached(c, st.cache[c][k]), st);
  }

  lemma CachedWithin(a: Ancestors, k: Pubkey, st: State)
    requires Inv(st) && Consistent(st.roots, a) && CacheSlots(st, a, k) != {}
    ensures Within(a, k, Newest(CacheSlots(st, a, k)), st)
  {
    var c := Newest(CacheSlots(st, a, k));
    forall s: Slot | CacheSees(st, a, k, s)
      ensures s <= c
    {
      assert s in CacheSlots(st, a, k);
    }
    forall s: Slot | Has(st.index, k, s) && Sees(a, s)
      ensures s <= c
    {
      CachedSlotNewer(st, a, k, c, s);
    }
  }

  /** With nothing in the cache, the index answers. */
  lemma IndexAnswers(r: Reader, k: Pubkey, st: State)
    requires Reaches(r, st) && CacheSlots(st, r.a, k) == {}
    ensures Answer(r, k) == Loadable(LoadFromIndex(st, r.a, k))
  {
    ReachesReadable(r, st);
    AnswerStays(r, st, k);
    LoadIsNaive(st, r.a, k);
    IndexOnly(st, r.a, k);
  }

  // ---------------------------------------------------------------------------------------
  // Looking at one key
  // ---------------------------------------------------------------------------------------

  /** `load_latest` of the write cache. */
  method LatestCached(st: State, a: Ancestors, k: Pubkey) returns (r: Option<Cached>)
    ensures r.None? <==> CacheSlots(st, a, k) == {}
    ensures r.Some? ==> r.value.slot == Newest(CacheSlots(st, a, k)) && r.value.account == st.cache[r.value.slot][k]
  {
    r := None;
    var done: set<Slot> := {};
    while done != st.cache.Keys
      invariant done <= st.cache.Keys
      invariant r.None? ==> forall s :: s in done ==> !CacheSees(st, a, k, s)
      invariant r.Some? ==> r.value.slot in done && CacheSees(st, a, k, r.value.slot) && r.value.account == st.cache[r.value.slot][k]
      invariant r.Some? ==> forall s :: s in done && CacheSees(st, a, k, s) ==> s <= r.value.slot
      decreases |st.cache.Keys - done|
    {
      var s :| s in st.cache.Keys - done;
      if CacheSees(st, a, k, s) && (r.None? || r.value.slot < s) {
        r := Some(Cached(s, st.cache[s][k]));
      }
      SubsetSize(st.cache.Keys - (done + {s}), st.cache.Keys - done);
      done := done + {s};
    }
    if r.Some? {
      assert r.value.slot in CacheSlots(st, a, k);
      NewestUnique(CacheSlots(st, a, k), r.value.slot);
    }
  }

  /** `latest_slot` of a slot list. */
  method LatestIndexed(st: State, a: Ancestors, k: Pubkey) returns (r: Option<Slot>)
    ensures r.None? <==> IndexSlots(st, a, k) == {}
    ensures r.Some? ==> Has(st.index, k, r.value) && r.value == Newest(IndexSlots(st, a, k))
  {
    r := None;
    var l := ListOf(st.index, k);
    var done: set<Slot> := {};
    while done != l.Keys
      invariant done <= l.Keys
      invariant r.None? ==> forall s :: s in done ==> !Sees(a, s)
      invariant r.Some? ==> r.value in done && Sees(a, r.value)
      invariant r.Some? ==> forall s :: s in done && Sees(a, s) ==> s <= r.value
      decreases |l.Keys - done|
    {
      var s :| s in l.Keys - done;
      if Sees(a, s) && (r.None? || r.value < s) {
        r := Some(s);
      }
      SubsetSize(l.Keys - (done + {s}), l.Keys - done);
      done := done + {s};
    }
    if r.Some? {
      assert r.value in IndexSlots(st, a, k);
      NewestUnique(IndexSlots(st, a, k), r.value);
    }
  }

  // ---------------------------------------------------------------------------------------
  // The scan
  // ---------------------------------------------------------------------------------------

  /** A call of the scan's callback. */
  datatype Call = Call(pubkey: Pubkey, account: Account, slot: Slot)

  predicate Reported(calls: seq<Call>, k: Pubkey) {
    exists i :: 0 <= i < |calls| && calls[i].pubkey == k
  }

  /** No key is reported twice, and each with the account a load gives and its slot. */
  ghost predicate CallsOk(r: Reader, calls: seq<Call>) {
    && (forall i, j :: 0 <= i < j < |calls| ==> calls[i].pubkey != calls[j].pubkey)
    && (forall i :: 0 <= i < |calls| ==> Reports(r, calls[i].pubkey, Cached(calls[i].slot, calls[i].account)))
  }

  /** Every key but the open ones is reported, or there is nothing to report. */
  ghost predicate ReportedBut(r: Reader, calls: seq<Call>, todo: set<Pubkey>, versions: map<Pubkey, Cached>) {
    forall k ::
      if k in todo || k in versions then !Reported(calls, k)
      else Reported(calls, k) || Answer(r, k) == None
  }

  lemma ReportedNext(calls: seq<Call>, call: Call, k: Pubkey)
    ensures Reported(calls + [call], k) <==> Reported(calls, k) || k == call.pubkey
  {
    var calls' := calls + [call];
    if Reported(calls, k) {
      var i :| 0 <= i < |calls| && calls[i].pubkey == k;
      assert calls'[i].pubkey == k;
    }
    assert calls'[|calls|] == call;
  }

  lemma CallsNext(r: Reader, calls: seq<Call>, call: Call)
    requires CallsOk(r, calls) && !Reported(calls, call.pubkey)
    requires Reports(r, call.pubkey, Cached(call.slot, call.account))
    ensures CallsOk(r, calls + [call])
  {
    forall i | 0 <= i < |calls|
      ensures calls[i].pubkey != call.pubkey
    {
      assert Reported(calls, calls[i].pubkey);
    }
  }

  lemma ReportedButNext(r: Reader, calls: seq<Call>, todo: set<Pubkey>, versions: map<Pubkey, Cached>, call: Call)
    requires ReportedBut(r, calls, todo, versions)
    ensures ReportedBut(r, calls + [call], todo - {call.pubkey}, versions - {call.pubkey})
  {
    forall k
      ensures Reported(calls + [call], k) <==> Reported(calls, k) || k == call.pubkey
    {
      ReportedNext(calls, call, k);
    }
  }

  lemma ReportOne(r: Reader, calls: seq<Call>, todo: set<Pubkey>, versions: map<Pubkey, Cached>, call: Call)
    requires CallsOk(r, calls) && ReportedBut(r, calls, todo, versions)
    requires call.pubkey in todo || call.pubkey in versions
    requires Reports(r, call.pubkey, Cached(call.slot, call.account))
    ensures CallsOk(r, calls + [call])
    ensures ReportedBut(r, calls + [call], todo - {call.pubkey}, versions - {call.pubkey})
  {
    CallsNext(r, calls, call);
    ReportedButNext(r, calls, todo, versions, call);
  }

  lemma SkipOne(r: Reader, calls: seq<Call>, todo: set<Pubkey>, versions: map<Pubkey, Cached>, k: Pubkey)
    requires ReportedBut(r, calls, todo, versions) && k in todo
    requires k in versions || Answer(r, k) == None
    ensures ReportedBut(r, calls, todo - {k}, versions)
  {
  }

  /** The reader has pinned `root`, which it sees, and nothing else shelters it. */
  ghost predicate Pinned(r: Reader, root: Slot, st: State) {
    Reaches(r, st) && root in st.roots && Sees(r.a, root) && ScanOk(r.a, root, st)
  }

  lemma StaysPinned(r: Reader, root: Slot, st: State, st': State)
    requires Pinned(r, root, st) && ScanOk(r.a, root, st')
    requires Later((x, y) => ScanNext(r.a, root, x, y), st, st')
    ensures Pinned(r, root, st') && Later((x, y) => ReadableNext(r.a, x, y), st, st')
  {
    ReachesReadable(r, st);
    PinnedIsReadable(st, st', r.a, root);
    Together((x, y) => ReadableNext(r.a, x, y), r.start, st, st');
  }

  /** A store that other threads keep changing. */
  class SharedStore {
    var st: State

    constructor (initial: State)
      ensures st == initial
    {
      st := initial;
    }

    /** Steps of others happen, as many as they like. */
    method Others(r: Reader)
      requires Reaches(r, st)
      modifies this
      ensures Later((x, y) => ReadableNext(r.a, x, y), old(st), st) && Reaches(r, st)
    {
      NoStep((x, y) => ReadableNext(r.a, x, y), st);
      Together((x, y) => ReadableNext(r.a, x, y), r.start, st, st);
    }

    /** Steps of others that leave the pin of a scan and keep its reader consistent. */
    method OthersPinned(a: Ancestors, root: Slot)
      requires ScanOk(a, root, st)
      modifies this
      ensures Later((x, y) => ScanNext(a, root, x, y), old(st), st) && ScanOk(a, root, st)
    {
      NoStep((x, y) => ScanNext(a, root, x, y), st);
    }

    /** The same while a scan has prepared some keys. */
    method OthersWhile(r: Reader, root: Slot, ghost versions: map<Pubkey, Cached>, ghost open: set<Pubkey>)
      requires Pinned(r, root, st) && Prepared(r, versions, open, st)
      modifies this
      ensures Pinned(r, root, st) && Prepared(r, versions, open, st)
    {
      ghost var before := st;
      OthersPinned(r.a, root);
      StaysPinned(r, root, before, st);
      StaysPrepared(r, versions, open, before, st);
    }
  }

  lemma NothingPrepared(r: Reader, st: State)
    requires Reaches(r, st)
    ensures Prepared(r, map[], CachedKeys(st), st)
  {
    ReachesReadable(r, st);
    forall k | k !in CachedKeys(st)
      ensures Missed(r.a, k, st)
    {
      forall s
        ensures !CacheSees(st, r.a, k, s)
      {
        assert s in st.cache && k in st.cache[s] ==> k in CachedKeys(st);
      }
    }
  }

  lemma PrepareFound(r: Reader, versions: map<Pubkey, Cached>, open: set<Pubkey>, st: State, k: Pubkey, c: Cached)
    requires Prepared(r, versions, open, st) && VersionOk(r, k, c, st)
    ensures Prepared(r, versions[k := c], open - {k}, st)
  {
  }

  lemma PrepareMissed(r: Reader, versions: map<Pubkey, Cached>, open: set<Pubkey>, st: State, k: Pubkey)
    requires Prepared(r, versions, open, st) && Missed(r.a, k, st)
    ensures Prepared(r, versions, open - {k}, st)
  {
  }

  lemma PrepareOne(r: Reader, versions: map<Pubkey, Cached>, open: set<Pubkey>, st: State, k: Pubkey, c: Option<Cached>)
    requires Reaches(r, st) && Prepared(r, versions, open, st) && k in open && k !in versions
    requires c.None? <==> CacheSlots(st, r.a, k) == {}
    requires c.Some? ==> c.value.slot == Newest(CacheSlots(st, r.a, k)) && c.value.account == st.cache[c.value.slot][k]
    ensures Prepared(r, if c.Some? then versions[k := c.value] else versions, open - {k}, st)
  {
    if c.Some? {
      CachedAnswers(r, k, st);
      PrepareFound(r, versions, open, st, k, c.value);
    } else {
      ReachesReadable(r, st);
      MissedIs(r.a, k, st);
      PrepareMissed(r, versions, open, st, k);
    }
  }

  /** Step 1: the newest visible cached version of each cached key. */
  method CollectCached(db: SharedStore, r: Reader, root: Slot) returns (versions: map<Pubkey, Cached>)
    requires Pinned(r, root, db.st)
    modifies db
    ensures Pinned(r, root, db.st) && Prepared(r, versions, {}, db.st)
  {
    versions := map[];
    var todo := CachedKeys(db.st);
    NothingPrepared(r, db.st);
    while todo != {}
      invariant Pinned(r, root, db.st) && Prepared(r, versions, todo, db.st) && todo !! versions.Keys
      decreases |todo|
    {
      var k :| k in todo;
      db.OthersWhile(r, root, versions, todo);
      var c := LatestCached(db.st, r.a, k);
      PrepareOne(r, versions, todo, db.st, k, c);
      if c.Some? {
        versions := versions[k := c.value];
      }
      todo := todo - {k};
    }
  }

  lemma CachedHit(r: Reader, versions: map<Pubkey, Cached>, open: set<Pubkey>, st: State, k: Pubkey)
    requires Prepared(r, versions, open, st) && k in versions
    ensures Reports(r, k, versions[k])
    ensures forall s: Slot :: Has(st.index, k, s) && Sees(r.a, s) ==> s <= versions[k].slot
  {
    assert VersionOk(r, k, versions[k], st);
  }

  lemma IndexHit(r: Reader, versions: map<Pubkey, Cached>, open: set<Pubkey>, st: State, k: Pubkey)
    requires Reaches(r, st) && Prepared(r, versions, open, st) && k !in versions && k !in open
    ensures Answer(r, k) == Loadable(LoadFromIndex(st, r.a, k))
    ensures forall s: Slot :: !CacheSees(st, r.a, k, s)
  {
    assert Missed(r.a, k, st);
    MissedIs(r.a, k, st);
    IndexAnswers(r, k, st);
  }

  lemma EntryContent(r: Reader, st: State, k: Pubkey, s: Slot)
    requires Reaches(r, st) && Has(st.index, k, s)
    ensures Content(st, k, s).Some?
  {
    ReachesReadable(r, st);
    assert Points(st.index, st.storages, st.shrinking, k, s);
  }

  lemma IndexReports(r: Reader, st: State, k: Pubkey, s: Slot)
    requires Reaches(r, st) && IndexSlots(st, r.a, k) != {} && s == Newest(IndexSlots(st, r.a, k))
    requires Answer(r, k) == Loadable(LoadFromIndex(st, r.a, k))
    requires forall t: Slot :: !CacheSees(st, r.a, k, t)
    ensures Content(st, k, s).Some? && Reports(r, k, Cached(s, Content(st, k, s).value))
  {
    assert s in IndexSlots(st, r.a, k);
    EntryContent(r, st, k, s);
    forall t: Slot | Has(st.index, k, t) && Sees(r.a, t)
      ensures t <= s
    {
      assert t in IndexSlots(st, r.a, k);
    }
    assert IsNewest(r.a, k, Cached(s, Content(st, k, s).value), st);
  }

  /** What the walk reports for a key it finds in the index. */
  method ReportIndexed(st: State, r: Reader, versions: map<Pubkey, Cached>, ghost open: set<Pubkey>, k: Pubkey, s: Slot)
    returns (call: Call)
    requires Reaches(r, st) && Prepared(r, versions, open, st) && k !in open
    requires IndexSlots(st, r.a, k) != {} && s == Newest(IndexSlots(st, r.a, k))
    ensures call.pubkey == k && Reports(r, k, Cached(call.slot, call.account))
  {
    assert s in IndexSlots(st, r.a, k);
    if k in versions {
      CachedHit(r, versions, open, st, k);
    } else {
      IndexHit(r, versions, open, st, k);
      IndexReports(r, st, k, s);
    }
    if k in versions && versions[k].slot >= s {
      return Call(k, versions[k].account, versions[k].slot);
    }
    return Call(k, Content(st, k, s).value, s);
  }

  lemma DropVersion(r: Reader, versions: map<Pubkey, Cached>, open: set<Pubkey>, st: State, k: Pubkey)
    requires Prepared(r, versions, open, st)
    ensures Prepared(r, versions - {k}, open + {k}, st)
  {
  }

  lemma StartWalk(r: Reader, versions: map<Pubkey, Cached>, st: State)
    requires Reaches(r, st) && Prepared(r, versions, {}, st)
    ensures ReportedBut(r, [], st.index.Keys, versions)
  {
    forall k | k !in st.index && k !in versions
      ensures Answer(r, k) == None
    {
      IndexHit(r, versions, {}, st, k);
      assert IndexSlots(st, r.a, k) == {};
    }
  }

  /** One key of the walk. */
  method WalkOne(st: State, r: Reader, calls: seq<Call>, ghost todo: set<Pubkey>, versions: map<Pubkey, Cached>,
                 ghost open: set<Pubkey>, k: Pubkey)
    returns (calls': seq<Call>, versions': map<Pubkey, Cached>, ghost open': set<Pubkey>)
    requires Reaches(r, st) && Prepared(r, versions, open, st)
    requires k in todo && k !in open
    requires CallsOk(r, calls) && ReportedBut(r, calls, todo, versions)
    ensures Prepared(r, versions', open', st) && open' <= open + {k}
    ensures CallsOk(r, calls') && ReportedBut(r, calls', todo - {k}, versions')
  {
    calls', versions', open' := calls, versions, open;
    var s := LatestIndexed(st, r.a, k);
    if s.Some? {
      var call := ReportIndexed(st, r, versions, open, k, s.value);
      ReportOne(r, calls, todo, versions, call);
      DropVersion(r, versions, open, st, k);
      calls', versions', open' := calls + [call], versions - {k}, open + {k};
    } else {
      if k !in versions {
        IndexHit(r, versions, open, st, k);
      }
      SkipOne(r, calls, todo, versions, k);
    }
  }

  /** Step 2: the index, in any order. */
  method WalkIndex(db: SharedStore, r: Reader, root: Slot, cached: map<Pubkey, Cached>)
    returns (calls: seq<Call>, versions: map<Pubkey, Cached>)
    requires Pinned(r, root, db.st) && Prepared(r, cached, {}, db.st)
    modifies db
    ensures Pinned(r, root, db.st)
    ensures CallsOk(r, calls) && ReportedBut(r, calls, {}, versions)
    ensures forall k :: k in versions ==> Reports(r, k, versions[k])
  {
    calls, versions := [], cached;
    ghost var open: set<Pubkey> := {};
    db.OthersWhile(r, root, versions, open);
    var todo := db.st.index.Keys;
    StartWalk(r, versions, db.st);
    while todo != {}
      invariant Pinned(r, root, db.st) && Prepared(r, versions, open, db.st) && todo !! open
      invariant CallsOk(r, calls) && ReportedBut(r, calls, todo, versions)
      decreases |todo|
    {
      var k :| k in todo;
      db.OthersWhile(r, root, versions, open);
      calls, versions, open := WalkOne(db.st, r, calls, todo, versions, open, k);
      todo := todo - {k};
    }
    forall k | k in versions {
      CachedHit(r, versions, open, db.st, k);
    }
  }

  /** Step 3: what was only in the cache. */
  method ReportCached(r: Reader, calls: seq<Call>, cached: map<Pubkey, Cached>) returns (calls': seq<Call>)
    requires CallsOk(r, calls) && ReportedBut(r, calls, {}, cached)
    requires forall k :: k in cached ==> Reports(r, k, cached[k])
    ensures CallsOk(r, calls') && ReportedBut(r, calls', {}, map[])
  {
    calls' := calls;
    var versions := cached;
    while versions != map[]
      invariant CallsOk(r, calls') && ReportedBut(r, calls', {}, versions)
      invariant forall k :: k in versions ==> Reports(r, k, versions[k])
      decreases |versions.Keys|
    {
      var k :| k in versions;
      var call := Call(k, versions[k].account, versions[k].slot);
      ReportOne(r, calls', {}, versions, call);
      SubsetSize((versions - {k}).Keys, versions.Keys);
      calls', versions := calls' + [call], versions - {k};
    }
  }

  // ---------------------------------------------------------------------------------------
  // Pinning
  // ---------------------------------------------------------------------------------------

  /** `ScanGuard::should_use_ancestors`: a fork without the pinned root is replaced by that
      root alone. */
  function ScanAncestors(root: Slot, ancestors: Ancestors): Ancestors {
    if root in ancestors then ancestors else [root]
  }

  /** A reader of its pinned root alone is consistent whatever is rooted later. */
  lemma LoneRootConsistent(roots: set<Slot>, root: Slot)
    requires root in roots
    ensures Consistent(roots, [root])
  {
  }

  /** The reader a scan becomes by pinning the highest root. */
  lemma ScanBegins(st: State, ancestors: Ancestors)
    requires Inv(st) && st.roots != {}
    requires Newest(st.roots) in ancestors ==> Consistent(st.roots, ancestors)
    ensures var root := Newest(st.roots);
            var a := ScanAncestors(root, ancestors);
            && Inv(BeginScan(st)) && ReaderOk(a, BeginScan(st))
            && Pinned(Reading(BeginScan(st), a), root, BeginScan(st))
  {
    var root := Newest(st.roots);
    var a := ScanAncestors(root, ancestors);
    Foreground.BeginScanInv(st);
    if root !in ancestors {
      LoneRootConsistent(st.roots, root);
    }
    ScanSheltered(BeginScan(st), a, root);
    NoStep((x, y) => ReadableNext(a, x, y), BeginScan(st));
  }

  /** Pinning changes nothing that is loaded. */
  lemma PinShows(st: State, a: Ancestors, k: Pubkey)
    requires st.roots != {}
    ensures Load(BeginScan(st), a, k) == Load(st, a, k)
  {
    var st' := BeginScan(st);
    assert CacheSlots(st', a, k) == CacheSlots(st, a, k);
    assert IndexSlots(st', a, k) == IndexSlots(st, a, k);
  }

  lemma PinAnswers(st: State, r: Reader)
    requires st.roots != {} && r.start == BeginScan(st)
    ensures forall k :: Answer(r, k) == Load(st, r.a, k)
  {
    forall k
      ensures Answer(r, k) == Load(st, r.a, k)
    {
      PinShows(st, r.a, k);
    }
  }

  /** The three steps of a scan whose root is pinned. */
  method ScanPinned(db: SharedStore, r: Reader, root: Slot) returns (calls: seq<Call>)
    requires Pinned(r, root, db.st)
    modifies db
    ensures Pinned(r, root, db.st) && CallsOk(r, calls)
    ensures forall k :: Answer(r, k).Some? ==> Reported(calls, k)
  {
    var cached := CollectCached(db, r, root);
    var versions;
    calls, versions := WalkIndex(db, r, root, cached);
    calls := ReportCached(r, calls, versions);
  }

  lemma ScanEnds(r: Reader, root: Slot, st: State)
    requires Pinned(r, root, st)
    ensures Inv(EndScan(st, root))
  {
    ReachesReadable(r, st);
    Foreground.EndScanInv(st, root);
  }

  /** `scan_accounts` run to completion while others go on. Its pin is all that shelters it. Every
      account the reader saw at the beginning is reported exactly once, with the account and the
      slot of its newest version; beyond those at most deleted accounts are reported. The reader is
      the caller's fork if that has the highest root, and otherwise that root alone. */
  method ScanAccounts(db: SharedStore, ancestors: Ancestors) returns (calls: seq<Call>, ghost r: Reader)
    requires Inv(db.st) && db.st.roots != {}
    requires Newest(db.st.roots) in ancestors ==> Consistent(db.st.roots, ancestors)
    modifies db
    ensures r.start == BeginScan(old(db.st))
    ensures r.a == if Newest(old(db.st).roots) in ancestors then ancestors else [Newest(old(db.st).roots)]
    ensures Inv(db.st) && CallsOk(r, calls)
    ensures forall k :: Answer(r, k).Some? ==> Reported(calls, k)
    ensures forall k :: Answer(r, k) == Load(old(db.st), r.a, k)
    ensures forall i :: 0 <= i < |calls| ==> Loadable(Some(calls[i].account)) == Load(old(db.st), r.a, calls[i].pubkey)
  {
    var root := FindNewest(db.st.roots);
    ScanBegins(db.st, ancestors);
    ghost var st0 := db.st;
    db.st := db.st.(scans := db.st.scans + multiset{root});
    var reader: Reader := Reading(db.st, ScanAncestors(root, ancestors));
    r := reader;
    calls := ScanPinned(db, reader, root);
    ScanEnds(reader, root, db.st);
    db.st := EndScan(db.st, root);
    PinAnswers(st0, reader);
  }
}
