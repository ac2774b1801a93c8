/** What a reader loads stays the same over whole runs, however its loads interleave with
    flush, clean, shrink, sweep and the work of other forks. */
module Views {
  import opened Types
  import opened AncestorSets
  import opened PrimaryIndex
  import opened Store
  import opened Invariant
  import opened Loads
  import opened Meaning
  import opened Machine
  import opened Runs
  import Shrink = ShrinkProofs
  import Foreground = ForegroundProofs

  /** The step is none of the reader's own: it writes or abandons another slot, and roots a
      slot of the reader's fork or one the reader does not see. */
  predicate Leaves(step: Step, a: Ancestors) {
    match step
    case Replays(Write(s, _, _)) => s !in a
    case Replays(Root(r)) => r in a || !Sees(a, r)
    case Replays(Abandon(s)) => s !in a
    case _ => true
  }

  // ---------------------------------------------------------------------------------------
  // One step
  // ---------------------------------------------------------------------------------------

  /** The cache shows the reader the same versions. */
  lemma SameCacheView(st: State, st': State, a: Ancestors, k: Pubkey)
    requires forall s :: CacheSees(st', a, k, s) <==> CacheSees(st, a, k, s)
    requires forall s :: CacheSees(st, a, k, s) && CacheSees(st', a, k, s) ==> st'.cache[s][k] == st.cache[s][k]
    requires st'.index == st.index && st'.storages == st.storages && st'.shrinking == st.shrinking
    ensures NaiveLoad(st', a, k) == NaiveLoad(st, a, k)
  {
    assert CacheSlots(st', a, k) == CacheSlots(st, a, k);
    assert IndexSlots(st', a, k) == IndexSlots(st, a, k);
  }

  lemma ReplayNaive(st: State, step: ReplayStep, st': State, a: Ancestors, k: Pubkey)
    requires Replayed(st, step, st') && Leaves(Replays(step), a)
    requires st.unflushed <= st.roots
    ensures NaiveLoad(st', a, k) == NaiveLoad(st, a, k)
  {
    SameCacheView(st, st', a, k);
  }

  lemma ReadNaive(st: State, step: ReadStep, st': State, a: Ancestors, k: Pubkey)
    requires HasRead(st, step, st')
    ensures NaiveLoad(st', a, k) == NaiveLoad(st, a, k)
  {
    SameCacheView(st, st', a, k);
  }

  lemma FlushNaive(st: State, step: FlushStep, st': State, a: Ancestors, k: Pubkey)
    requires Inv(st) && Flushed(st, step, st')
    requires Consistent(st.roots, a) && Sheltered(st, a)
    ensures NaiveLoad(st', a, k) == NaiveLoad(st, a, k)
  {
    match step
    case FlushBegin(r, clean, bound, keys, records) =>
      BeginFlushVersions(st, r, clean, bound, keys, records, k);
      SameView(st, st', a, k);
    case FlushIndex(i) => FlushKeyNaive(st, i, a, k);
    case FlushEvicted(_) => SameCacheView(st, st', a, k);
    case FlushEnd => EndFlushNaive(st, a, k);
    case FlushNothing(_) => SameCacheView(st, st', a, k);
  }

  lemma CleanNaive(st: State, step: CleanStep, st': State, a: Ancestors, k: Pubkey)
    requires Inv(st) && Cleaned(st, step, st')
    requires Consistent(st.roots, a) && Sheltered(st, a)
    ensures NaiveLoad(st', a, k) == NaiveLoad(st, a, k)
  {
    match step
    case CleanBegin(_) => SameCacheView(st, st', a, k);
    case CleanIndex(k') => CleanKeyNaive(st, k', a, k);
    case CleanEnd => SameCacheView(st, st', a, k);
    case HandleReclaims(s, offsets, mark) =>
      HandleVersions(st, s, offsets, mark, k);
      SameView(st, st', a, k);
    case SweepSlot(s) =>
      SweepVersions(st, s, k);
      SameView(st, st', a, k);
    case Enqueue(_) => SameCacheView(st, st', a, k);
  }

  /** A shrink is not even noticed by readers that see none of the cleaned roots. */
  lemma ShrinkNaive(st: State, step: ShrinkStep, st': State, a: Ancestors, k: Pubkey)
    requires Inv(st) && Shrunk(st, step, st')
    ensures NaiveLoad(st', a, k) == NaiveLoad(st, a, k)
  {
    match step {
      case ShrinkBegin(s, alive, carry) => Shrink.BeginShrinkInv(st, s, alive, carry);
      case ShrinkIndex(i) => Shrink.ShrinkKeyInv(st, i);
      case ShrinkCarry => Shrink.CarryInv(st);
      case ShrinkSwap => Shrink.SwapInv(st);
      case ShrinkEnd => Shrink.EndShrinkInv(st);
    }
    SameEntriesVersions(st, st', k);
    SameView(st, st', a, k);
  }

  lemma StepNaive(st: State, step: Step, st': State, a: Ancestors, k: Pubkey)
    requires Inv(st) && Takes(st, step, st') && Leaves(step, a)
    requires Consistent(st.roots, a) && Sheltered(st, a)
    ensures NaiveLoad(st', a, k) == NaiveLoad(st, a, k)
  {
    match step
    case Replays(s) => ReplayNaive(st, s, st', a, k);
    case Reads(s) => ReadNaive(st, s, st', a, k);
    case Flushes(s) => FlushNaive(st, s, st', a, k);
    case Cleans(s) => CleanNaive(st, s, st', a, k);
    case Shrinks(s) => ShrinkNaive(st, s, st', a, k);
  }

  /** A consistent reader that sees the cleaned roots loads the same before and after any step
      of a background operation, or of another fork. */
  lemma StepPreservesLoad(st: State, step: Step, st': State, a: Ancestors, k: Pubkey)
    requires Inv(st) && Takes(st, step, st') && Leaves(step, a)
    requires Consistent(st.roots, a) && Consistent(st'.roots, a)
    requires Sheltered(st, a) && Sheltered(st', a)
    ensures Load(st', a, k) == Load(st, a, k)
  {
    StepNaive(st, step, st', a, k);
    TakenKeepsInv(st, step, st');
    LoadIsNaive(st, a, k);
    LoadIsNaive(st', a, k);
  }

  // ---------------------------------------------------------------------------------------
  // Whole runs
  // ---------------------------------------------------------------------------------------

  /** Some step that is not the reader's own. */
  ghost predicate NextFor(a: Ancestors, st: State, st': State) {
    exists step: Step :: Takes(st, step, st') && Leaves(step, a)
  }

  ghost predicate ReaderOk(a: Ancestors, st: State) {
    Consistent(st.roots, a) && Sheltered(st, a)
  }

  /** A step of others while the reader is consistent and sees the roots being cleaned. */
  ghost predicate ReadableNext(a: Ancestors, st: State, st': State) {
    NextFor(a, st, st') && ReaderOk(a, st) && ReaderOk(a, st')
  }

  ghost predicate Answers(a: Ancestors, k: Pubkey, account: Option<Account>, st: State) {
    Inv(st) && Load(st, a, k) == account
  }

  lemma NextForPreserves(st: State, st': State, a: Ancestors, k: Pubkey)
    requires Inv(st) && ReadableNext(a, st, st')
    ensures Inv(st') && Load(st', a, k) == Load(st, a, k)
  {
    var step: Step :| Takes(st, step, st') && Leaves(step, a);
    TakenKeepsInv(st, step, st');
    StepPreservesLoad(st, step, st', a, k);
  }

  /** What the reader loads is the same in every state of the run. */
  lemma RunPreservesLoad(st: State, st': State, a: Ancestors, k: Pubkey)
    requires Inv(st) && Later((x, y) => ReadableNext(a, x, y), st, st')
    ensures Inv(st') && Load(st', a, k) == Load(st, a, k)
  {
    var account := Load(st, a, k);
    forall x, y | Answers(a, k, account, x) && ReadableNext(a, x, y)
      ensures Answers(a, k, account, y)
    {
      NextForPreserves(x, y, a, k);
    }
    Induction((x, y) => ReadableNext(a, x, y), x => Answers(a, k, account, x), st, st');
  }

  lemma ReplayGrowsRoots(st: State, step: ReplayStep, st': State)
    requires Replayed(st, step, st')
    ensures st.roots <= st'.roots
  {
  }

  lemma ReadKeepsRoots(st: State, step: ReadStep, st': State)
    requires HasRead(st, step, st')
    ensures st'.roots == st.roots
  {
  }

  lemma FlushKeepsRoots(st: State, step: FlushStep, st': State)
    requires Flushed(st, step, st')
    ensures st'.roots == st.roots
  {
  }

  lemma CleanKeepsRoots(st: State, step: CleanStep, st': State)
    requires Cleaned(st, step, st')
    ensures st'.roots == st.roots
  {
  }

  lemma ShrinkKeepsRoots(st: State, step: ShrinkStep, st': State)
    requires Shrunk(st, step, st')
    ensures st'.roots == st.roots
  {
  }

  lemma RootsGrow(st: State, step: Step, st': State)
    requires Takes(st, step, st')
    ensures st.roots <= st'.roots
  {
    match step
    case Replays(s) => ReplayGrowsRoots(st, s, st');
    case Reads(s) => ReadKeepsRoots(st, s, st');
    case Flushes(s) => FlushKeepsRoots(st, s, st');
    case Cleans(s) => CleanKeepsRoots(st, s, st');
    case Shrinks(s) => ShrinkKeepsRoots(st, s, st');
  }

  /** While a scan is registered at `root`, no background step cleans beyond it. */
  lemma ScanSheltered(st: State, a: Ancestors, root: Slot)
    requires Inv(st) && root in st.scans
    requires root in st.roots && Sees(a, root) && Consistent(st.roots, a)
    ensures Sheltered(st, a)
  {
    SeesDownward(st.roots, a, root);
  }

  ghost predicate ScanOk(a: Ancestors, root: Slot, st: State) {
    Consistent(st.roots, a) && root in st.scans
  }

  /** A step of others while a scan is registered at `root`. */
  ghost predicate ScanNext(a: Ancestors, root: Slot, st: State, st': State) {
    NextFor(a, st, st') && ScanOk(a, root, st) && ScanOk(a, root, st')
  }

  ghost predicate ScanAnswers(a: Ancestors, root: Slot, k: Pubkey, account: Option<Account>, st: State) {
    Inv(st) && root in st.roots && Load(st, a, k) == account
  }

  lemma ScanStep(st: State, st': State, a: Ancestors, root: Slot, k: Pubkey)
    requires Inv(st) && ScanNext(a, root, st, st')
    requires root in st.roots && Sees(a, root)
    ensures Inv(st') && root in st'.roots && Load(st', a, k) == Load(st, a, k)
  {
    var step: Step :| Takes(st, step, st') && Leaves(step, a);
    TakenKeepsInv(st, step, st');
    RootsGrow(st, step, st');
    ScanSheltered(st, a, root);
    ScanSheltered(st', a, root);
    StepPreservesLoad(st, step, st', a, k);
  }

  /** A registered scan sees one unchanging snapshot from its first to its last load. */
  lemma ScanIsolated(st: State, st': State, a: Ancestors, root: Slot, k: Pubkey)
    requires Inv(st) && root in st.roots && Sees(a, root)
    requires Later((x, y) => ScanNext(a, root, x, y), st, st')
    ensures Load(st', a, k) == Load(st, a, k)
  {
    var account := Load(st, a, k);
    forall x, y | ScanAnswers(a, root, k, account, x) && ScanNext(a, root, x, y)
      ensures ScanAnswers(a, root, k, account, y)
    {
      ScanStep(x, y, a, root, k);
    }
    Induction((x, y) => ScanNext(a, root, x, y), x => ScanAnswers(a, root, k, account, x), st, st');
  }

  /** The pin is what shelters a scan: a step of others that leaves it is one the reader of the
      pinned root may find. */
  lemma PinnedStep(st: State, st': State, a: Ancestors, root: Slot)
    requires Inv(st) && ScanNext(a, root, st, st')
    requires root in st.roots && Sees(a, root)
    ensures Inv(st') && root in st'.roots && ReadableNext(a, st, st')
  {
    var step: Step :| Takes(st, step, st') && Leaves(step, a);
    TakenKeepsInv(st, step, st');
    RootsGrow(st, step, st');
    ScanSheltered(st, a, root);
    ScanSheltered(st', a, root);
  }

  ghost predicate PinnedSince(a: Ancestors, root: Slot, st0: State, st: State) {
    Inv(st) && root in st.roots && Later((x, y) => ReadableNext(a, x, y), st0, st)
  }

  lemma PinnedNext(a: Ancestors, root: Slot, st0: State, st: State, st': State)
    requires PinnedSince(a, root, st0, st) && ScanNext(a, root, st, st') && Sees(a, root)
    ensures PinnedSince(a, root, st0, st')
  {
    PinnedStep(st, st', a, root);
    OneMore((x, y) => ReadableNext(a, x, y), st0, st, st');
  }

  /** Every run that leaves the pin is one in which the reader stays sheltered, and the pinned
      slot stays a root. */
  lemma PinnedIsReadable(st: State, st': State, a: Ancestors, root: Slot)
    requires Inv(st) && root in st.roots && Sees(a, root)
    requires Later((x, y) => ScanNext(a, root, x, y), st, st')
    ensures Later((x, y) => ReadableNext(a, x, y), st, st') && root in st'.roots
  {
    NoStep((x, y) => ReadableNext(a, x, y), st);
    forall x, y | PinnedSince(a, root, st, x) && ScanNext(a, root, x, y)
      ensures PinnedSince(a, root, st, y)
    {
      PinnedNext(a, root, st, x, y);
    }
    Induction((x, y) => ScanNext(a, root, x, y), x => PinnedSince(a, root, st, x), st, st');
  }

  // ---------------------------------------------------------------------------------------
  // The reader's own writes
  // ---------------------------------------------------------------------------------------

  /** A bank reads back what it has just written to its own slot. */
  lemma StoreThenLoad(st: State, s: Slot, k: Pubkey, account: Account, a: Ancestors)
    requires Inv(st) && CanStore(st, s, account)
    requires Consistent(st.roots, a)
    requires s in a && forall t :: t in a ==> t <= s
    ensures DoLoad(StoreCached(st, s, k, account), a, k) == Some(account)
    ensures forall k' :: k' != k ==>
              NaiveLoad(StoreCached(st, s, k, account), a, k') == NaiveLoad(st, a, k')
  {
    var st' := StoreCached(st, s, k, account);
    assert s in CacheSlots(st', a, k);
    forall t | t in CacheSlots(st', a, k)
      ensures t <= s
    {
      if t !in a {
        assert t in st.roots;
      }
    }
    NewestUnique(CacheSlots(st', a, k), s);
    forall k' | k' != k
      ensures NaiveLoad(st', a, k') == NaiveLoad(st, a, k')
    {
      SameCacheView(st, st', a, k');
    }
  }

  /** The slots before the last one: the fork of the parent. */
  function Parent(a: Ancestors): Ancestors
    requires |a| > 1
  {
    a[..|a| - 1]
  }

  lemma ParentSees(a: Ancestors, t: Slot)
    requires |a| > 1
    ensures t in a <==> t in Parent(a) || t == a[|a| - 1]
    ensures Sees(a, t) <==> Sees(Parent(a), t) || t == a[|a| - 1]
    ensures a[|a| - 1] !in Parent(a) && Parent(a)[0] == a[0]
  {
    if t in a {
      var i :| 0 <= i < |a| && a[i] == t;
      assert i < |a| - 1 ==> Parent(a)[i] == t;
    }
  }

  lemma ParentReader(st: State, a: Ancestors)
    requires SlotsOk(st.roots, st.unflushed, st.cache.Keys, st.storages.Keys, st.phase)
    requires |a| > 1 && a[|a| - 1] !in st.roots && Consistent(st.roots, a) && Sheltered(st, a)
    ensures Consistent(st.roots, Parent(a)) && Sheltered(st, Parent(a))
  {
    forall t
      ensures t in a <==> t in Parent(a) || t == a[|a| - 1]
      ensures Sees(a, t) <==> Sees(Parent(a), t) || t == a[|a| - 1]
    {
      ParentSees(a, t);
    }
  }

  lemma ParentSlots(st: State, a: Ancestors, k: Pubkey)
    requires SlotsOk(st.roots, st.unflushed, st.cache.Keys, st.storages.Keys, st.phase)
    requires Resolved(st.index, st.storages, st.shrinking)
    requires |a| > 1 && a[|a| - 1] !in st.roots
    ensures var st' := PurgeSlot(st, a[|a| - 1]);
            && CacheSlots(st', a, k) == CacheSlots(st, Parent(a), k)
            && IndexSlots(st', a, k) == IndexSlots(st, Parent(a), k)
  {
    var st' := PurgeSlot(st, a[|a| - 1]);
    forall t
      ensures CacheSees(st', a, k, t) <==> CacheSees(st, Parent(a), k, t)
      ensures Has(st.index, k, t) ==> (Sees(a, t) <==> Sees(Parent(a), t))
    {
      ParentSees(a, t);
    }
  }

  /** Once a fork is abandoned no reader finds its slot in the cache, and its bank loads what the
      parent loads. */
  lemma AbandonedShowsParent(st: State, s: Slot, a: Ancestors, k: Pubkey)
    requires Inv(st) && CanPurgeSlot(st, s)
    requires |a| > 1 && a[|a| - 1] == s && Consistent(st.roots, a) && Sheltered(st, a)
    ensures forall a': Ancestors :: !CacheSees(PurgeSlot(st, s), a', k, s)
    ensures Load(PurgeSlot(st, s), a, k) == Load(st, Parent(a), k)
  {
    Foreground.PurgeSlotInv(st, s);
    ParentReader(st, a);
    ParentSlots(st, a, k);
    LoadIsNaive(PurgeSlot(st, s), a, k);
    LoadIsNaive(st, Parent(a), k);
  }
}
