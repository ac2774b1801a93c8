/** `do_load` looks at the write cache, the read cache and the index at three different
    times. The answer is still that of a load done at once. */
module TornLoads {
  import opened Types
  import opened AncestorSets
  import opened Storages
  import opened Store
  import opened Invariant
  import opened Loads
  import opened Machine
  import opened Runs
  import opened Views
  import Flush = FlushProofs

  /** A load whose three looks happen in the states `st1`, `st2` and `st3`. */
  ghost function TornLoad(st1: State, st2: State, st3: State, a: Ancestors, k: Pubkey): Option<Account> {
    if CacheSlots(st1, a, k) != {} then LoadFromCache(st1, a, k)
    else if ReadCacheHit(st2, a, k) then Some(st2.readCache[k].account)
    else LoadFromIndex(st3, a, k)
  }

  /** The cache shows the reader nothing it did not show before. */
  ghost predicate ShowsLess(a: Ancestors, k: Pubkey, st: State, st': State) {
    forall s :: CacheSees(st', a, k, s) ==> CacheSees(st, a, k, s)
  }

  lemma ReplayShows(st: State, step: ReplayStep, st': State, a: Ancestors, k: Pubkey)
    requires Replayed(st, step, st') && Leaves(Replays(step), a)
    requires st.unflushed <= st.roots
    ensures ShowsLess(a, k, st, st')
  {
  }

  lemma ReadShows(st: State, step: ReadStep, st': State, a: Ancestors, k: Pubkey)
    requires HasRead(st, step, st')
    ensures ShowsLess(a, k, st, st')
  {
  }

  lemma FlushShows(st: State, step: FlushStep, st': State, a: Ancestors, k: Pubkey)
    requires Flushed(st, step, st')
    ensures ShowsLess(a, k, st, st')
  {
    match step
    case FlushBegin(_, _, _, _, _) =>
    case FlushIndex(i) => Flush.FlushKeyRest(st, i);
    case FlushEvicted(_) =>
    case FlushEnd =>
    case FlushNothing(_) =>
  }

  lemma CleanShows(st: State, step: CleanStep, st': State, a: Ancestors, k: Pubkey)
    requires Cleaned(st, step, st')
    ensures ShowsLess(a, k, st, st')
  {
  }

  lemma ShrinkShows(st: State, step: ShrinkStep, st': State, a: Ancestors, k: Pubkey)
    requires Shrunk(st, step, st')
    ensures ShowsLess(a, k, st, st')
  {
  }

  lemma StepShows(st: State, step: Step, st': State, a: Ancestors, k: Pubkey)
    requires Takes(st, step, st') && Leaves(step, a)
    requires st.unflushed <= st.roots
    ensures ShowsLess(a, k, st, st')
  {
    match step
    case Replays(s) => ReplayShows(st, s, st', a, k);
    case Reads(s) => ReadShows(st, s, st', a, k);
    case Flushes(s) => FlushShows(st, s, st', a, k);
    case Cleans(s) => CleanShows(st, s, st', a, k);
    case Shrinks(s) => ShrinkShows(st, s, st', a, k);
  }

  /** The reader has missed the write cache. */
  ghost predicate Missed(a: Ancestors, k: Pubkey, st: State) {
    Inv(st) && forall s :: !CacheSees(st, a, k, s)
  }

  lemma StaysMissed(st: State, st': State, a: Ancestors, k: Pubkey)
    requires Missed(a, k, st) && ReadableNext(a, st, st')
    ensures Missed(a, k, st')
  {
    var step: Step :| Takes(st, step, st') && Leaves(step, a);
    TakenKeepsInv(st, step, st');
    StepShows(st, step, st', a, k);
  }

  lemma MissedLater(st: State, st': State, a: Ancestors, k: Pubkey)
    requires Inv(st) && CacheSlots(st, a, k) == {}
    requires Later((x, y) => ReadableNext(a, x, y), st, st')
    ensures CacheSlots(st', a, k) == {}
  {
    forall s
      ensures !CacheSees(st, a, k, s)
    {
      assert s !in CacheSlots(st, a, k);
    }
    forall x, y | Missed(a, k, x) && ReadableNext(a, x, y)
      ensures Missed(a, k, y)
    {
      StaysMissed(x, y, a, k);
    }
    Induction((x, y) => ReadableNext(a, x, y), x => Missed(a, k, x), st, st');
  }

  /** However many steps of others come between the looks, a load that sees the cleaned roots
      gives what a load at its beginning would have given. */
  lemma TornLoadIsLoad(st1: State, st2: State, st3: State, a: Ancestors, k: Pubkey)
    requires Inv(st1) && ReaderOk(a, st1) && ReaderOk(a, st2) && ReaderOk(a, st3)
    requires Later((x, y) => ReadableNext(a, x, y), st1, st2)
    requires Later((x, y) => ReadableNext(a, x, y), st2, st3)
    ensures Loadable(TornLoad(st1, st2, st3, a, k)) == Load(st1, a, k)
  {
    if CacheSlots(st1, a, k) == {} {
      MissedLater(st1, st2, a, k);
      RunPreservesLoad(st1, st2, a, k);
      LoadIsNaive(st2, a, k);
      if !ReadCacheHit(st2, a, k) {
        MissedLater(st2, st3, a, k);
        RunPreservesLoad(st2, st3, a, k);
        LoadIsNaive(st3, a, k);
        IndexOnly(st3, a, k);
      }
    }
  }
}
