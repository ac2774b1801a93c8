/** An account read from storage stays good for the read cache: whatever happens meanwhile, if
    its entry is still in the index then it still says the same account. */
module Fetches {
  import opened Types
  import opened Storages
  import opened PrimaryIndex
  import opened Store
  import opened Invariant
  import opened Machine
  import opened Runs
  import Foreground = ForegroundProofs
  import Flush = FlushProofs

  ghost predicate Fetched(f: Fetch, st: State) {
    FetchOk(st.index, st.storages, st.shrinking, st.roots, st.unflushed, st.phase, f)
  }

  /** The store if `f` were among the loads under way. */
  function WithFetch(f: Fetch, st: State): State {
    st.(fetches := st.fetches + {f})
  }

  lemma WithFetchInv(f: Fetch, st: State)
    requires Inv(st) && Fetched(f, st)
    ensures Inv(WithFetch(f, st))
  {
    var st' := WithFetch(f, st);
    assert FetchesOk(st'.fetches, st'.index, st'.storages, st'.shrinking, st'.roots, st'.unflushed, st'.phase);
    Foreground.PhaseStays(st, st');
  }

  // No step but those of loads looks at the loads under way.

  lemma ReplayWithFetch(f: Fetch, st: State, step: ReplayStep, st': State)
    requires Replayed(st, step, st')
    ensures Replayed(WithFetch(f, st), step, WithFetch(f, st'))
  {
  }

  lemma FlushKeyKeepsFetched(f: Fetch, st: State, i: Offset)
    requires Inv(st) && CanFlushKey(st, i) && Fetched(f, st)
    ensures Fetched(f, FlushKey(st, i))
  {
    var r, k := Flush.FlushKeyEntering(st, i);
    Flush.FlushKeyIndex(st, r, i, k);
    Flush.FlushKeyRest(st, i);
    Flush.FlushKeyFetched(st, FlushKey(st, i).index, FlushKey(st, i).phase, r, i, k, f);
  }

  lemma FlushWithFetch(f: Fetch, st: State, step: FlushStep, st': State)
    requires Flushed(st, step, st') && !step.FlushIndex?
    ensures Flushed(WithFetch(f, st), step, WithFetch(f, st'))
  {
  }

  lemma HandleWithFetch(f: Fetch, st: State, s: Slot, offsets: set<Offset>, mark: Slot)
    requires CanHandle(st, s, offsets, mark)
    ensures CanHandle(WithFetch(f, st), s, offsets, mark)
    ensures WithFetch(f, Handle(st, s, offsets, mark)) == Handle(WithFetch(f, st), s, offsets, mark)
  {
    assert Pending(WithFetch(f, st)) == Pending(st) && CanPurge(WithFetch(f, st), s) == CanPurge(st, s);
  }

  lemma CleanWithFetch(f: Fetch, st: State, step: CleanStep, st': State)
    requires Cleaned(st, step, st')
    ensures Cleaned(WithFetch(f, st), step, WithFetch(f, st'))
  {
    if step.HandleReclaims? {
      HandleWithFetch(f, st, step.slot, step.offsets, step.mark);
    }
  }

  lemma ShrinkWithFetch(f: Fetch, st: State, step: ShrinkStep, st': State)
    requires Shrunk(st, step, st')
    ensures Shrunk(WithFetch(f, st), step, WithFetch(f, st'))
  {
  }

  lemma ReadKeepsFetched(f: Fetch, st: State, step: ReadStep, st': State)
    requires HasRead(st, step, st') && Fetched(f, st)
    ensures Fetched(f, st')
  {
  }

  lemma TakenKeepsFetched(f: Fetch, st: State, step: Step, st': State)
    requires Inv(st) && Takes(st, step, st') && Fetched(f, st)
    ensures Fetched(f, st')
  {
    match step
    case Reads(x) => ReadKeepsFetched(f, st, x, st');
    case Replays(x) => ReplayWithFetch(f, st, x, st'); TakenWithFetch(f, st, step, st');
    case Flushes(FlushIndex(i)) => FlushKeyKeepsFetched(f, st, i);
    case Flushes(x) => FlushWithFetch(f, st, x, st'); TakenWithFetch(f, st, step, st');
    case Cleans(x) => CleanWithFetch(f, st, x, st'); TakenWithFetch(f, st, step, st');
    case Shrinks(x) => ShrinkWithFetch(f, st, x, st'); TakenWithFetch(f, st, step, st');
  }

  lemma TakenWithFetch(f: Fetch, st: State, step: Step, st': State)
    requires Inv(st) && Fetched(f, st)
    requires Takes(WithFetch(f, st), step, WithFetch(f, st'))
    ensures Fetched(f, st')
  {
    WithFetchInv(f, st);
    TakenKeepsInv(WithFetch(f, st), step, WithFetch(f, st'));
    assert f in WithFetch(f, st').fetches;
  }

  ghost predicate InvFetched(f: Fetch, st: State) {
    Inv(st) && Fetched(f, st)
  }

  lemma NextKeepsFetched(f: Fetch, st: State, st': State)
    requires InvFetched(f, st) && Next(st, st')
    ensures InvFetched(f, st')
  {
    var step: Step :| Takes(st, step, st');
    TakenKeepsFetched(f, st, step, st');
    TakenKeepsInv(st, step, st');
  }

  lemma EntryFetched(st: State, k: Pubkey, s: Slot)
    requires Inv(st) && Content(st, k, s).Some?
    ensures Fetched(Fetch(k, s, Content(st, k, s).value), st)
  {
    Foreground.HasSettled(st, k, s);
  }

  /** However late a load comes to the read cache, an account whose entry is still there is the
      one it has read. */
  lemma FetchedLater(f: Fetch, st: State, st': State)
    requires Inv(st) && Later(Next, st, st') && Fetched(f, st)
    ensures Fetched(f, st')
  {
    forall x, y | InvFetched(f, x) && Next(x, y)
      ensures InvFetched(f, y)
    {
      NextKeepsFetched(f, x, y);
    }
    Induction(Next, x => InvFetched(f, x), st, st');
  }
}
