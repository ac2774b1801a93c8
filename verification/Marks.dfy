/** Every obsolete mark names a root that is flushed, or is just being flushed. */
module Marks {
  import opened Types
  import opened Storages
  import opened PrimaryIndex
  import opened Store
  import opened Invariant
  import opened Machine
  import opened Runs
  import Flush = FlushProofs
  import Reclaim = ReclaimProofs
  import Clean = CleanProofs

  predicate FlushedRoot(roots: set<Slot>, unflushed: set<Slot>, phase: Phase, m: Slot) {
    m in roots && (m in unflushed ==> IsFlushing(phase, m))
  }

  ghost predicate StorageMarks(storages: StorageMap, roots: set<Slot>, unflushed: set<Slot>, phase: Phase) {
    forall s, o :: s in storages && o in storages[s].obsolete ==>
      FlushedRoot(roots, unflushed, phase, storages[s].obsolete[o])
  }

  ghost predicate PendingMarks(p: Reclaims, roots: set<Slot>, unflushed: set<Slot>, phase: Phase) {
    forall q :: q in p ==> FlushedRoot(roots, unflushed, phase, p[q])
  }

  ghost predicate MarksFlushed(st: State) {
    && StorageMarks(st.storages, st.roots, st.unflushed, st.phase)
    && PendingMarks(Pending(st), st.roots, st.unflushed, st.phase)
    && (forall s :: s in st.shrinking ==> st.shrinking[s].obsolete == map[])
  }

  lemma ReplayMarks(st: State, step: ReplayStep, st': State)
    requires MarksFlushed(st) && Replayed(st, step, st')
    ensures MarksFlushed(st')
  {
  }

  lemma ReadMarks(st: State, step: ReadStep, st': State)
    requires MarksFlushed(st) && HasRead(st, step, st')
    ensures MarksFlushed(st')
  {
  }

  lemma EnteredMarks(st: State, st': State, r: Slot, i: Offset, k: Pubkey)
    requires MarksFlushed(st) && Flush.Entering(st, r, i, k) && r in st.roots
    requires Flush.PendingEffect(st.index, Pending(st), Pending(st'), k, r, Flush.InfoFor(st, r, i), st.phase.clean)
    requires st' == st.(index := st'.index, phase := st'.phase)
    requires st'.phase.Flushing? && st'.phase.root == r
    ensures MarksFlushed(st')
  {
    forall q | q in Pending(st')
      ensures FlushedRoot(st'.roots, st'.unflushed, st'.phase, Pending(st')[q])
    {
      assert q == (q.0, q.1);
    }
  }

  lemma FlushKeyMarks(st: State, i: Offset)
    requires Inv(st) && MarksFlushed(st) && CanFlushKey(st, i)
    ensures MarksFlushed(FlushKey(st, i))
  {
    var r, k := Flush.FlushKeyEntering(st, i);
    Flush.FlushKeyPending(st, r, i, k);
    Flush.FlushKeyRest(st, i);
    EnteredMarks(st, FlushKey(st, i), r, i, k);
  }

  lemma FlushMarks(st: State, step: FlushStep, st': State)
    requires Inv(st) && MarksFlushed(st) && Flushed(st, step, st')
    ensures MarksFlushed(st')
  {
    if step.FlushIndex? {
      FlushKeyMarks(st, step.offset);
    }
  }

  lemma CleanedMarks(ix: Index, ix': Index, p: Reclaims, p': Reclaims, k: Pubkey, n: Slot, roots: set<Slot>, unflushed: set<Slot>, phase: Phase)
    requires PendingMarks(p, roots, unflushed, phase) && Clean.CleanPending(ix, ix', p, p', k, n)
    requires forall s: Slot :: Has(ix, k, s) ==> FlushedRoot(roots, unflushed, phase, s)
    requires (exists s: Slot :: Has(ix, k, s) && s < n) ==> Has(ix, k, n)
    ensures PendingMarks(p', roots, unflushed, phase)
  {
    forall q | q in p'
      ensures FlushedRoot(roots, unflushed, phase, p'[q])
    {
      assert q == (q.0, q.1);
    }
  }

  lemma CleanKeyMarks(st: State, k: Pubkey)
    requires Inv(st) && MarksFlushed(st) && CanCleanKey(st, k)
    ensures MarksFlushed(CleanOneKey(st, k))
  {
    var st' := CleanOneKey(st, k);
    Clean.CleanKeyPending(st, k);
    forall s: Slot | Has(st.index, k, s)
      ensures FlushedRoot(st.roots, st.unflushed, st.phase, s)
    {
      assert s in st.storages;
    }
    CleanedMarks(st.index, st'.index, Pending(st), Pending(st'), k, Clean.KeptFrom(st, k), st.roots, st.unflushed, st.phase);
  }

  lemma HandledMarks(st: State, st': State, t: Slot, offsets: set<Offset>, tombstone: bool, mark: Slot)
    requires MarksFlushed(st)
    requires st' == st.(storages := st'.storages, candidates := st'.candidates, phase := st'.phase)
    requires Reclaim.StorageEffect(st.storages, st'.storages, t, offsets, tombstone, mark)
    requires Reclaim.PendingWithout(Pending(st), Pending(st'), t, offsets)
    requires Reclaim.SamePhaseButPending(st.phase, st'.phase)
    requires FlushedRoot(st.roots, st.unflushed, st.phase, mark)
    ensures MarksFlushed(st')
  {
    forall q | q in Pending(st')
      ensures FlushedRoot(st'.roots, st'.unflushed, st'.phase, Pending(st')[q])
    {
      assert q == (q.0, q.1);
    }
  }

  lemma HandleMarks(st: State, t: Slot, offsets: set<Offset>, mark: Slot)
    requires Inv(st) && MarksFlushed(st) && CanHandle(st, t, offsets, mark)
    ensures MarksFlushed(Handle(st, t, offsets, mark))
  {
    Reclaim.HandleDue(st, t, offsets, mark);
    Reclaim.HandleStorages(st, t, offsets, mark);
    Reclaim.HandlePending(st, t, offsets, mark);
    var o :| o in offsets;
    assert Pending(st)[(t, o)] == mark;
    HandledMarks(st, Handle(st, t, offsets, mark), t, offsets, mark == t, mark);
  }

  lemma BeginCleanMarks(st: State, bound: Slot)
    requires MarksFlushed(st) && st.phase.Idle?
    ensures MarksFlushed(BeginClean(st, bound))
  {
  }

  lemma EndCleanMarks(st: State)
    requires MarksFlushed(st) && CanEndClean(st)
    ensures MarksFlushed(EndClean(st))
  {
  }

  lemma CleanMarks(st: State, step: CleanStep, st': State)
    requires Inv(st) && MarksFlushed(st) && Cleaned(st, step, st')
    ensures MarksFlushed(st')
  {
    match step
    case CleanBegin(bound) => BeginCleanMarks(st, bound);
    case CleanIndex(k) => CleanKeyMarks(st, k);
    case CleanEnd => EndCleanMarks(st);
    case HandleReclaims(t, offsets, mark) => HandleMarks(st, t, offsets, mark);
    case SweepSlot(_) =>
    case Enqueue(_) =>
  }

  lemma ShrinkMarks(st: State, step: ShrinkStep, st': State)
    requires MarksFlushed(st) && Shrunk(st, step, st')
    ensures MarksFlushed(st')
  {
  }

  lemma TakenMarks(st: State, step: Step, st': State)
    requires Inv(st) && MarksFlushed(st) && Takes(st, step, st')
    ensures MarksFlushed(st')
  {
    match step
    case Replays(y) => ReplayMarks(st, y, st');
    case Reads(y) => ReadMarks(st, y, st');
    case Flushes(y) => FlushMarks(st, y, st');
    case Cleans(y) => CleanMarks(st, y, st');
    case Shrinks(y) => ShrinkMarks(st, y, st');
  }

  ghost predicate InvMarks(st: State) {
    Inv(st) && MarksFlushed(st)
  }

  lemma NextMarks(st: State, st': State)
    requires InvMarks(st) && Next(st, st')
    ensures InvMarks(st')
  {
    var step: Step :| Takes(st, step, st');
    TakenMarks(st, step, st');
    TakenKeepsInv(st, step, st');
  }

  lemma RunMarks(st: State, st': State)
    requires InvMarks(st) && Later(Next, st, st')
    ensures InvMarks(st')
  {
    forall y, z | InvMarks(y) && Next(y, z)
      ensures InvMarks(z)
    {
      NextMarks(y, z);
    }
    Induction(Next, InvMarks, st, st');
  }

  /** In every reachable state no record is marked with anything but a flushed root. */
  lemma ReachableMarks(st: State)
    requires Later(Next, Empty(), st)
    ensures MarksFlushed(st)
  {
    EmptyOk();
    RunMarks(Empty(), st);
  }
}
