/** All steps together, and runs: any interleaving of replay, readers, scans and one
    background operation at a time. The invariant holds in every state of every run. */
module Machine {
  import opened Types
  import opened Storages
  import opened Store
  import opened Invariant
  import opened Runs
  import Foreground = ForegroundProofs
  import Flush = FlushProofs
  import Reclaim = ReclaimProofs
  import Clean = CleanProofs
  import Shrink = ShrinkProofs

  datatype ReplayStep =
    | Write(slot: Slot, pubkey: Pubkey, account: Account)
    | Root(slot: Slot)
    | Abandon(slot: Slot)
    | Snapshot(slot: Slot)

  datatype ReadStep =
    | ReadEntry(pubkey: Pubkey, slot: Slot)
    | CacheRead(fetch: Fetch)
    | Forget(fetch: Fetch)
    | EvictRead(pubkey: Pubkey)
    | ScanBegin
    | ScanEnd(root: Slot)

  datatype FlushStep =
    | FlushBegin(root: Slot, clean: bool, bound: Slot, keys: set<Pubkey>, records: seq<Record>)
    | FlushIndex(offset: Offset)
    | FlushEvicted(pubkey: Pubkey)
    | FlushEnd
    | FlushNothing(root: Slot)

  datatype CleanStep =
    | CleanBegin(bound: Slot)
    | CleanIndex(pubkey: Pubkey)
    | CleanEnd
    | HandleReclaims(slot: Slot, offsets: set<Offset>, mark: Slot)
    | SweepSlot(slot: Slot)
    | Enqueue(slot: Slot)

  datatype ShrinkStep =
    | ShrinkBegin(slot: Slot, alive: seq<Record>, carry: seq<Record>)
    | ShrinkIndex(offset: Offset)
    | ShrinkCarry
    | ShrinkSwap
    | ShrinkEnd

  datatype Step =
    | Replays(replay: ReplayStep)
    | Reads(read: ReadStep)
    | Flushes(flush: FlushStep)
    | Cleans(cleaning: CleanStep)
    | Shrinks(shrink: ShrinkStep)

  ghost predicate Replayed(st: State, step: ReplayStep, st': State) {
    match step
    case Write(s, k, a) => CanStore(st, s, a) && st' == StoreCached(st, s, k, a)
    case Root(r) => CanAddRoot(st, r) && st' == AddRoot(st, r)
    case Abandon(s) => CanPurgeSlot(st, s) && st' == PurgeSlot(st, s)
    case Snapshot(s) => CanSetSnapshot(st, s) && st' == SetSnapshot(st, s)
  }

  ghost predicate HasRead(st: State, step: ReadStep, st': State) {
    match step
    case ReadEntry(k, s) => CanFetch(st, k, s) && st' == FetchAccount(st, k, s)
    case CacheRead(f) => CanPopulate(st, f) && st' == Populate(st, f)
    case Forget(f) => st' == DropFetch(st, f)
    case EvictRead(k) => st' == Evict(st, k)
    case ScanBegin => CanBeginScan(st) && st' == BeginScan(st)
    case ScanEnd(r) => st' == EndScan(st, r)
  }

  ghost predicate Flushed(st: State, step: FlushStep, st': State) {
    match step
    case FlushBegin(r, clean, bound, keys, records) =>
      CanBeginFlush(st, r, clean, bound, keys, records) && st' == BeginFlush(st, r, clean, bound, records)
    case FlushIndex(i) => CanFlushKey(st, i) && st' == FlushKey(st, i)
    case FlushEvicted(k) => CanFlushEvict(st, k) && st' == FlushEvict(st, k)
    case FlushEnd => CanEndFlush(st) && st' == EndFlush(st)
    case FlushNothing(r) => CanUntrack(st, r) && st' == Untrack(st, r)
  }

  ghost predicate Cleaned(st: State, step: CleanStep, st': State) {
    match step
    case CleanBegin(bound) => CanBeginClean(st, bound) && st' == BeginClean(st, bound)
    case CleanIndex(k) => CanCleanKey(st, k) && st' == CleanOneKey(st, k)
    case CleanEnd => CanEndClean(st) && st' == EndClean(st)
    case HandleReclaims(s, offsets, mark) => CanHandle(st, s, offsets, mark) && st' == Handle(st, s, offsets, mark)
    case SweepSlot(s) => CanSweep(st, s) && st' == Sweep(st, s)
    case Enqueue(s) => CanQueue(st, s) && st' == Queue(st, s)
  }

  ghost predicate Shrunk(st: State, step: ShrinkStep, st': State) {
    match step
    case ShrinkBegin(s, alive, carry) =>
      CanBeginShrink(st, s, alive, carry) && st' == BeginShrink(st, s, alive, carry)
    case ShrinkIndex(i) => CanShrinkKey(st, i) && st' == ShrinkKey(st, i)
    case ShrinkCarry => CanCarry(st) && st' == Carry(st)
    case ShrinkSwap => CanSwap(st) && st' == Swap(st)
    case ShrinkEnd => CanEndShrink(st) && st' == EndShrink(st)
  }

  lemma ReplayKeepsInv(st: State, step: ReplayStep, st': State)
    requires Inv(st) && Replayed(st, step, st')
    ensures Inv(st')
  {
    match step
    case Write(s, k, a) => Foreground.StoreCachedInv(st, s, k, a);
    case Root(r) => Foreground.AddRootInv(st, r);
    case Abandon(s) => Foreground.PurgeSlotInv(st, s);
    case Snapshot(s) => Foreground.SetSnapshotInv(st, s);
  }

  lemma ReadKeepsInv(st: State, step: ReadStep, st': State)
    requires Inv(st) && HasRead(st, step, st')
    ensures Inv(st')
  {
    match step
    case ReadEntry(k, s) => Foreground.FetchInv(st, k, s);
    case CacheRead(f) => Foreground.PopulateInv(st, f);
    case Forget(f) => Foreground.DropFetchInv(st, f);
    case EvictRead(k) => Foreground.EvictInv(st, k);
    case ScanBegin => Foreground.BeginScanInv(st);
    case ScanEnd(r) => Foreground.EndScanInv(st, r);
  }

  lemma FlushKeepsInv(st: State, step: FlushStep, st': State)
    requires Inv(st) && Flushed(st, step, st')
    ensures Inv(st')
  {
    match step
    case FlushBegin(r, clean, bound, keys, records) => Flush.BeginFlushInv(st, r, clean, bound, keys, records);
    case FlushIndex(i) => Flush.FlushKeyInv(st, i);
    case FlushEvicted(k) => Flush.FlushEvictInv(st, k);
    case FlushEnd => Flush.EndFlushInv(st);
    case FlushNothing(r) => Flush.UntrackInv(st, r);
  }

  lemma CleanKeepsInv(st: State, step: CleanStep, st': State)
    requires Inv(st) && Cleaned(st, step, st')
    ensures Inv(st')
  {
    match step
    case CleanBegin(bound) => Clean.BeginCleanInv(st, bound);
    case CleanIndex(k) => Clean.CleanKeyInv(st, k);
    case CleanEnd => Clean.EndCleanInv(st);
    case HandleReclaims(s, offsets, mark) => Reclaim.HandleInv(st, s, offsets, mark);
    case SweepSlot(s) => Reclaim.SweepInv(st, s);
    case Enqueue(s) => Foreground.QueueInv(st, s);
  }

  lemma ShrinkKeepsInv(st: State, step: ShrinkStep, st': State)
    requires Inv(st) && Shrunk(st, step, st')
    ensures Inv(st')
  {
    match step
    case ShrinkBegin(s, alive, carry) => Shrink.BeginShrinkInv(st, s, alive, carry);
    case ShrinkIndex(i) => Shrink.ShrinkKeyInv(st, i);
    case ShrinkCarry => Shrink.CarryInv(st);
    case ShrinkSwap => Shrink.SwapInv(st);
    case ShrinkEnd => Shrink.EndShrinkInv(st);
  }

  /** `st'` results from `st` by `step`. */
  ghost predicate Takes(st: State, step: Step, st': State) {
    match step
    case Replays(s) => Replayed(st, s, st')
    case Reads(s) => HasRead(st, s, st')
    case Flushes(s) => Flushed(st, s, st')
    case Cleans(s) => Cleaned(st, s, st')
    case Shrinks(s) => Shrunk(st, s, st')
  }

  lemma TakenKeepsInv(st: State, step: Step, st': State)
    requires Inv(st) && Takes(st, step, st')
    ensures Inv(st')
  {
    match step
    case Replays(s) => ReplayKeepsInv(st, s, st');
    case Reads(s) => ReadKeepsInv(st, s, st');
    case Flushes(s) => FlushKeepsInv(st, s, st');
    case Cleans(s) => CleanKeepsInv(st, s, st');
    case Shrinks(s) => ShrinkKeepsInv(st, s, st');
  }

  ghost predicate Next(st: State, st': State) {
    exists step: Step :: Takes(st, step, st')
  }

  lemma NextKeepsInv(st: State, st': State)
    requires Inv(st) && Next(st, st')
    ensures Inv(st')
  {
    var step: Step :| Takes(st, step, st');
    TakenKeepsInv(st, step, st');
  }

  /** Every state that any interleaving of any steps can produce satisfies the invariant. */
  lemma RunKeepsInv(st: State, st': State)
    requires Inv(st) && Later(Next, st, st')
    ensures Inv(st')
  {
    forall x, y | Inv(x) && Next(x, y)
      ensures Inv(y)
    {
      NextKeepsInv(x, y);
    }
    Induction(Next, Inv, st, st');
  }

  lemma ReachableInv(st: State)
    requires Later(Next, Empty(), st)
    ensures Inv(st)
  {
    EmptyOk();
    RunKeepsInv(Empty(), st);
  }
}
