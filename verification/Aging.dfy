/** What becomes of a storage after a snapshot was begun. Its records stay, and so do its marks.
    A record that was alive is marked only for a reason: with a slot after the snapshot, or with
    a slot that holds a newer version which the snapshot has as well. */
module Aging {
  import opened Types
  import opened Storages
  import opened PrimaryIndex
  import opened Store
  import opened Invariant
  import opened Machine
  import opened Runs
  import Flush = FlushProofs
  import Reclaim = ReclaimProofs
  import Clean = CleanProofs

  /** What a snapshot of slot `v` found: the index, and the storage `t` of slot `s`. */
  datatype Found = Found(index: Index, v: Slot, s: Slot, t: Storage)

  /** Mark `m` for the record at `o` does not take anything from the snapshot. */
  ghost predicate MarkOk(x: Found, o: Offset, m: Slot) {
    m > x.v || (o < |x.t.records| && x.s < m && Has(x.index, x.t.records[o].pubkey, m))
  }

  /** The storage is still in place. */
  predicate Here(x: Found, storages: StorageMap) {
    x.s in storages && storages[x.s].id == x.t.id
  }

  /** Nothing has entered the index at or below the snapshot slot. */
  ghost predicate IndexAged(x: Found, ix: Index) {
    forall k: Pubkey, n: Slot :: Has(ix, k, n) && n <= x.v ==> Has(x.index, k, n)
  }

  ghost predicate PendingAged(x: Found, p: Reclaims) {
    forall o: Offset :: (x.s, o) in p ==> p[(x.s, o)] == x.s || MarkOk(x, o, p[(x.s, o)])
  }

  ghost predicate Aged(x: Found, t: Storage) {
    && t.records == x.t.records
    && (forall o :: o in x.t.obsolete ==> o in t.obsolete && t.obsolete[o] == x.t.obsolete[o])
    && (forall o :: o in t.obsolete && o !in x.t.obsolete ==> MarkOk(x, o, t.obsolete[o]))
  }

  ghost predicate StorageAged(x: Found, storages: StorageMap, p: Reclaims) {
    Here(x, storages) ==> Aged(x, storages[x.s]) && PendingAged(x, p)
  }

  /** The roots up to the snapshot are flushed, and the storage's id does not come back. */
  ghost predicate Behind(x: Found, st: State) {
    && x.s <= x.v && x.v in st.roots && (forall u :: u in st.unflushed ==> u > x.v)
    && x.t.id < st.nextId && (x.s in st.shrinking ==> st.shrinking[x.s].id != x.t.id)
  }

  ghost predicate Ages(x: Found, st: State) {
    IndexAged(x, st.index) && StorageAged(x, st.storages, Pending(st)) && Behind(x, st)
  }

  lemma ReplayAges(x: Found, st: State, step: ReplayStep, st': State)
    requires Ages(x, st) && Replayed(st, step, st')
    ensures Ages(x, st')
  {
  }

  lemma ReadAges(x: Found, st: State, step: ReadStep, st': State)
    requires Ages(x, st) && HasRead(st, step, st')
    ensures Ages(x, st')
  {
  }

  lemma EnteredAges(x: Found, st: State, st': State, r: Slot, i: Offset, k: Pubkey)
    requires Ages(x, st) && Flush.Entering(st, r, i, k) && r in st.unflushed
    requires Flush.IndexEffect(st.index, st'.index, k, r, Flush.InfoFor(st, r, i), st.phase.clean)
    requires Flush.PendingEffect(st.index, Pending(st), Pending(st'), k, r, Flush.InfoFor(st, r, i), st.phase.clean)
    requires st' == st.(index := st'.index, phase := st'.phase)
    ensures Ages(x, st')
  {
  }

  lemma FlushKeyAges(x: Found, st: State, i: Offset)
    requires Inv(st) && Ages(x, st) && CanFlushKey(st, i)
    ensures Ages(x, FlushKey(st, i))
  {
    var r, k := Flush.FlushKeyEntering(st, i);
    Flush.FlushKeyIndex(st, r, i, k);
    Flush.FlushKeyPending(st, r, i, k);
    Flush.FlushKeyRest(st, i);
    EnteredAges(x, st, FlushKey(st, i), r, i, k);
  }

  lemma BeginFlushAges(x: Found, st: State, r: Slot, clean: bool, bound: Slot, records: seq<Record>)
    requires Ages(x, st) && r in st.unflushed && st.phase.Idle?
    ensures Ages(x, BeginFlush(st, r, clean, bound, records))
  {
  }

  lemma FlushAges(x: Found, st: State, step: FlushStep, st': State)
    requires Inv(st) && Ages(x, st) && Flushed(st, step, st')
    ensures Ages(x, st')
  {
    match step
    case FlushBegin(r, clean, bound, keys, records) => BeginFlushAges(x, st, r, clean, bound, records);
    case FlushIndex(i) => FlushKeyAges(x, st, i);
    case FlushEvicted(_) =>
    case FlushEnd =>
    case FlushNothing(_) =>
  }

  /** The reclaims of a clean key: an older version is marked with the slot of the one kept. */
  lemma CleanedAges(x: Found, ix: Index, ix': Index, storages: StorageMap, p: Reclaims, p': Reclaims, k: Pubkey, n: Slot)
    requires IndexAged(x, ix) && StorageAged(x, storages, p)
    requires Resolved(ix, storages, map[])
    requires Clean.CleanEffect(ix, ix', k, n) && Clean.CleanPending(ix, ix', p, p', k, n)
    requires (exists s: Slot :: Has(ix, k, s) && s < n) ==> Has(ix, k, n)
    ensures IndexAged(x, ix') && StorageAged(x, storages, p')
  {
    if Here(x, storages) {
      forall o: Offset | (x.s, o) in p'
        ensures p'[(x.s, o)] == x.s || MarkOk(x, o, p'[(x.s, o)])
      {
        if (x.s, o) !in p {
          assert Has(ix, k, x.s) && o == At(ix, k, x.s).offset;
          assert Points(ix, storages, map[], k, x.s);
        }
      }
    }
  }

  lemma HandledAges(x: Found, st: State, st': State, t: Slot, offsets: set<Offset>, tombstone: bool, mark: Slot)
    requires Ages(x, st)
    requires st' == st.(storages := st'.storages, candidates := st'.candidates, phase := st'.phase)
    requires Reclaim.StorageEffect(st.storages, st'.storages, t, offsets, tombstone, mark)
    requires Reclaim.PendingWithout(Pending(st), Pending(st'), t, offsets)
    requires tombstone <==> mark == t
    requires forall o :: o in offsets ==> (t, o) in Pending(st) && Pending(st)[(t, o)] == mark
    ensures Ages(x, st')
  {
  }

  lemma HandleAges(x: Found, st: State, t: Slot, offsets: set<Offset>, mark: Slot)
    requires Inv(st) && Ages(x, st) && CanHandle(st, t, offsets, mark)
    ensures Ages(x, Handle(st, t, offsets, mark))
  {
    Reclaim.HandleDue(st, t, offsets, mark);
    Reclaim.HandleStorages(st, t, offsets, mark);
    Reclaim.HandlePending(st, t, offsets, mark);
    HandledAges(x, st, Handle(st, t, offsets, mark), t, offsets, mark == t, mark);
  }

  lemma CleanKeyAges(x: Found, st: State, k: Pubkey)
    requires Inv(st) && Ages(x, st) && CanCleanKey(st, k)
    ensures Ages(x, CleanOneKey(st, k))
  {
    var st' := CleanOneKey(st, k);
    Clean.CleanKeyIndex(st, k);
    Clean.CleanKeyPending(st, k);
    CleanedAges(x, st.index, st'.index, st.storages, Pending(st), Pending(st'), k, Clean.KeptFrom(st, k));
  }

  lemma SweepAges(x: Found, st: State, t: Slot)
    requires Ages(x, st)
    ensures Ages(x, Sweep(st, t))
  {
  }

  lemma CleanAges(x: Found, st: State, step: CleanStep, st': State)
    requires Inv(st) && Ages(x, st) && Cleaned(st, step, st')
    ensures Ages(x, st')
  {
    match step
    case CleanBegin(_) =>
    case CleanIndex(k) => CleanKeyAges(x, st, k);
    case CleanEnd =>
    case HandleReclaims(t, offsets, mark) => HandleAges(x, st, t, offsets, mark);
    case SweepSlot(t) => SweepAges(x, st, t);
    case Enqueue(_) =>
  }

  lemma BeginShrinkAges(x: Found, st: State, t: Slot, alive: seq<Record>, carry: seq<Record>)
    requires Ages(x, st) && st.phase.Idle?
    ensures Ages(x, BeginShrink(st, t, alive, carry))
  {
  }

  lemma ShrinkKeyAges(x: Found, st: State, i: Offset)
    requires Ages(x, st) && CanShrinkKey(st, i)
    ensures Ages(x, ShrinkKey(st, i))
  {
  }

  lemma CarryAges(x: Found, st: State)
    requires Ages(x, st) && CanCarry(st)
    ensures Ages(x, Carry(st))
  {
  }

  lemma SwapAges(x: Found, st: State)
    requires Ages(x, st) && CanSwap(st)
    ensures Ages(x, Swap(st))
  {
  }

  lemma EndShrinkAges(x: Found, st: State)
    requires Ages(x, st) && CanEndShrink(st)
    ensures Ages(x, EndShrink(st))
  {
  }

  lemma ShrinkAges(x: Found, st: State, step: ShrinkStep, st': State)
    requires Ages(x, st) && Shrunk(st, step, st')
    ensures Ages(x, st')
  {
    match step
    case ShrinkBegin(t, alive, carry) => BeginShrinkAges(x, st, t, alive, carry);
    case ShrinkIndex(i) => ShrinkKeyAges(x, st, i);
    case ShrinkCarry => CarryAges(x, st);
    case ShrinkSwap => SwapAges(x, st);
    case ShrinkEnd => EndShrinkAges(x, st);
  }

  lemma TakenAges(x: Found, st: State, step: Step, st': State)
    requires Inv(st) && Ages(x, st) && Takes(st, step, st')
    ensures Ages(x, st')
  {
    match step
    case Replays(y) => ReplayAges(x, st, y, st');
    case Reads(y) => ReadAges(x, st, y, st');
    case Flushes(y) => FlushAges(x, st, y, st');
    case Cleans(y) => CleanAges(x, st, y, st');
    case Shrinks(y) => ShrinkAges(x, st, y, st');
  }

  ghost predicate InvAges(x: Found, st: State) {
    Inv(st) && Ages(x, st)
  }

  lemma NextAges(x: Found, st: State, st': State)
    requires InvAges(x, st) && Next(st, st')
    ensures InvAges(x, st')
  {
    var step: Step :| Takes(st, step, st');
    TakenAges(x, st, step, st');
    TakenKeepsInv(st, step, st');
  }

  /** Over every run a storage that is still in place has only aged. */
  lemma RunAges(x: Found, st: State, st': State)
    requires Inv(st) && Ages(x, st) && Later(Next, st, st')
    ensures Here(x, st'.storages) ==> Aged(x, st'.storages[x.s])
  {
    forall y, z | InvAges(x, y) && Next(y, z)
      ensures InvAges(x, z)
    {
      NextAges(x, y, z);
    }
    Induction(Next, y => InvAges(x, y), st, st');
  }
}
