/** A tombstone records that an account was deleted. It leaves its storage only once a full
    snapshot covers its slot, or while no snapshot slot is set. */
module Deletions {
  import opened Types
  import opened Storages
  import opened PrimaryIndex
  import opened Store
  import opened Invariant
  import opened Machine
  import opened Runs
  import Flush = FlushProofs
  import Reclaim = ReclaimProofs

  predicate TombstoneAt(storages: StorageMap, s: Slot, i: Offset, k: Pubkey) {
    Rec(storages, s, i) && i in storages[s].tombstones && KeyAt(storages, s, i) == k
  }

  /** Slot `s` holds a tombstone of `k`. */
  ghost predicate Deleted(storages: StorageMap, s: Slot, k: Pubkey) {
    exists i: Offset :: TombstoneAt(storages, s, i, k)
  }

  /** A shrink of a slot that cannot be purged takes along every tombstone. */
  ghost predicate CarriesAll(st: State) {
    st.phase.Shrinking? && !CanPurge(st, st.phase.slot) && st.phase.slot in st.storages && st.phase.slot in st.shrinking ==>
      var t, n := st.storages[st.phase.slot], st.shrinking[st.phase.slot];
      && (st.phase.stage.Moving? ==> forall i: Offset :: i in t.tombstones && i < |t.records| ==> t.records[i] in st.phase.carry)
      && (st.phase.stage.Carried? ==> RecordsFrom(t, t.tombstones, n, n.tombstones))
  }

  /** The snapshot slot does not move backwards, and no tombstone is lost unless it may be. */
  ghost predicate KeepsDeleted(st: State, st': State, s: Slot, k: Pubkey) {
    && (st.snapshotSlot.Some? ==> st'.snapshotSlot.Some? && st.snapshotSlot.value <= st'.snapshotSlot.value)
    && (Deleted(st.storages, s, k) && !CanPurge(st, s) ==> Deleted(st'.storages, s, k))
  }

  // ---------------------------------------------------------------------------------------
  // One step
  // ---------------------------------------------------------------------------------------

  lemma ReplayDeletions(st: State, step: ReplayStep, st': State, s: Slot, k: Pubkey)
    requires Replayed(st, step, st') && CarriesAll(st)
    ensures KeepsDeleted(st, st', s, k) && CarriesAll(st')
  {
  }

  lemma ReadDeletions(st: State, step: ReadStep, st': State, s: Slot, k: Pubkey)
    requires HasRead(st, step, st') && CarriesAll(st)
    ensures KeepsDeleted(st, st', s, k) && CarriesAll(st')
  {
  }

  lemma SameStoragesDeleted(storages: StorageMap, storages': StorageMap, s: Slot, k: Pubkey)
    requires s in storages ==> s in storages' && storages'[s] == storages[s]
    requires Deleted(storages, s, k)
    ensures Deleted(storages', s, k)
  {
    var i: Offset :| TombstoneAt(storages, s, i, k);
    assert TombstoneAt(storages', s, i, k);
  }

  lemma BeginFlushDeletions(st: State, r: Slot, clean: bool, bound: Slot, keys: set<Pubkey>, records: seq<Record>, s: Slot, k: Pubkey)
    requires Inv(st) && CanBeginFlush(st, r, clean, bound, keys, records)
    ensures KeepsDeleted(st, BeginFlush(st, r, clean, bound, records), s, k)
  {
    Flush.BeginFlushSlots(st, r, clean, bound, records);
    if Deleted(st.storages, s, k) {
      SameStoragesDeleted(st.storages, BeginFlush(st, r, clean, bound, records).storages, s, k);
    }
  }

  lemma FlushDeletions(st: State, step: FlushStep, st': State, s: Slot, k: Pubkey)
    requires Inv(st) && Flushed(st, step, st')
    ensures KeepsDeleted(st, st', s, k) && CarriesAll(st')
  {
    match step
    case FlushBegin(r, clean, bound, keys, records) =>
      BeginFlushDeletions(st, r, clean, bound, keys, records, s, k);
    case FlushIndex(i) => Flush.FlushKeyRest(st, i);
    case FlushEvicted(_) =>
    case FlushEnd =>
    case FlushNothing(_) =>
  }

  lemma HandledDeleted(storages: StorageMap, storages': StorageMap, t: Slot, offsets: set<Offset>, tombstone: bool, mark: Slot,
                       s: Slot, k: Pubkey)
    requires Reclaim.StorageEffect(storages, storages', t, offsets, tombstone, mark)
    requires t in storages'
    requires Deleted(storages, s, k)
    ensures Deleted(storages', s, k)
  {
    var i: Offset :| TombstoneAt(storages, s, i, k);
    assert TombstoneAt(storages', s, i, k);
  }

  /** A dead slot is dropped with tombstones in it only if they may be purged. */
  lemma DroppedPurged(st: State, t: Slot, offsets: set<Offset>, mark: Slot)
    requires Inv(st) && CanHandle(st, t, offsets, mark) && t in st.storages
    ensures t !in Handle(st, t, offsets, mark).storages ==> CanPurge(st, t) || st.storages[t].tombstones == {}
  {
    Reclaim.HandleDue(st, t, offsets, mark);
    HandleGroupOk(st.storages[t], t, offsets, mark, CanPurge(st, t));
  }

  lemma HandleDeletions(st: State, t: Slot, offsets: set<Offset>, mark: Slot, s: Slot, k: Pubkey)
    requires Inv(st) && CanHandle(st, t, offsets, mark)
    ensures KeepsDeleted(st, Handle(st, t, offsets, mark), s, k)
    ensures CarriesAll(Handle(st, t, offsets, mark))
  {
    var st' := Handle(st, t, offsets, mark);
    Reclaim.HandleDue(st, t, offsets, mark);
    Reclaim.HandleStorages(st, t, offsets, mark);
    Reclaim.HandlePending(st, t, offsets, mark);
    DroppedPurged(st, t, offsets, mark);
    HandledKeepsDeleted(st, st', t, offsets, mark == t, mark, s, k);
  }

  lemma HandledKeepsDeleted(st: State, st': State, t: Slot, offsets: set<Offset>, tombstone: bool, mark: Slot, s: Slot, k: Pubkey)
    requires st' == st.(storages := st'.storages, candidates := st'.candidates, phase := st'.phase)
    requires Reclaim.StorageEffect(st.storages, st'.storages, t, offsets, tombstone, mark)
    requires t !in st'.storages ==> CanPurge(st, t) || st.storages[t].tombstones == {}
    ensures KeepsDeleted(st, st', s, k)
  {
    if Deleted(st.storages, s, k) && !CanPurge(st, s) {
      if t in st'.storages {
        HandledDeleted(st.storages, st'.storages, t, offsets, tombstone, mark, s, k);
      } else if s != t {
        SameStoragesDeleted(st.storages, st'.storages, s, k);
      }
    }
  }

  lemma CleanDeletions(st: State, step: CleanStep, st': State, s: Slot, k: Pubkey)
    requires Inv(st) && Cleaned(st, step, st') && CarriesAll(st)
    ensures KeepsDeleted(st, st', s, k) && CarriesAll(st')
  {
    match step
    case CleanBegin(_) =>
    case CleanIndex(_) =>
    case CleanEnd =>
    case HandleReclaims(t, offsets, mark) => HandleDeletions(st, t, offsets, mark, s, k);
    case SweepSlot(t) =>
      if Deleted(st.storages, s, k) && s != t {
        SameStoragesDeleted(st.storages, st'.storages, s, k);
      }
    case Enqueue(_) =>
  }

  lemma BeginShrinkCarries(st: State, t: Slot, alive: seq<Record>, carry: seq<Record>)
    requires CanBeginShrink(st, t, alive, carry)
    ensures CarriesAll(BeginShrink(st, t, alive, carry))
  {
  }

  /** All tombstones are among the ones appended to the new storage. */
  lemma CarriedAll(t: Storage, now: Storage, carry: seq<Record>)
    requires forall i: Offset :: i in t.tombstones && i < |t.records| ==> t.records[i] in carry
    ensures RecordsFrom(t, t.tombstones, WithTombstones(now, carry), WithTombstones(now, carry).tombstones)
  {
    var n := WithTombstones(now, carry);
    forall i: Offset | i in t.tombstones && i < |t.records|
      ensures Contains(n, n.tombstones, t.records[i])
    {
      var j :| 0 <= j < |carry| && carry[j] == t.records[i];
      var o := |now.records| + j;
      assert o in n.tombstones && n.records[o] == t.records[i];
    }
  }

  lemma CarryCarries(st: State)
    requires Inv(st) && CanCarry(st) && CarriesAll(st)
    ensures CarriesAll(Carry(st))
  {
    if !CanPurge(st, st.phase.slot) {
      CarriedAll(st.storages[st.phase.slot], st.shrinking[st.phase.slot], st.phase.carry);
    }
  }

  lemma SwappedDeleted(storages: StorageMap, s: Slot, n: Storage, k: Pubkey)
    requires s in storages && RecordsFrom(storages[s], storages[s].tombstones, n, n.tombstones)
    requires Deleted(storages, s, k)
    ensures Deleted(storages[s := n], s, k)
  {
    var i: Offset :| TombstoneAt(storages, s, i, k);
    assert Contains(n, n.tombstones, storages[s].records[i]);
    var j: Offset :| j in n.tombstones && j < |n.records| && n.records[j] == storages[s].records[i];
    assert TombstoneAt(storages[s := n], s, j, k);
  }

  lemma SwapDeletions(st: State, s: Slot, k: Pubkey)
    requires CanSwap(st) && CarriesAll(st) && st.phase.slot in st.storages
    ensures KeepsDeleted(st, Swap(st), s, k)
  {
    if Deleted(st.storages, s, k) && !CanPurge(st, s) {
      if s == st.phase.slot {
        SwappedDeleted(st.storages, s, st.shrinking[s], k);
      } else {
        SameStoragesDeleted(st.storages, Swap(st).storages, s, k);
      }
    }
  }

  lemma ShrinkDeletions(st: State, step: ShrinkStep, st': State, s: Slot, k: Pubkey)
    requires Inv(st) && Shrunk(st, step, st') && CarriesAll(st)
    ensures KeepsDeleted(st, st', s, k) && CarriesAll(st')
  {
    match step
    case ShrinkBegin(t, alive, carry) => BeginShrinkCarries(st, t, alive, carry);
    case ShrinkIndex(_) =>
    case ShrinkCarry => CarryCarries(st);
    case ShrinkSwap => SwapDeletions(st, s, k);
    case ShrinkEnd =>
  }

  /** A tombstone disappears in a step only if its slot may be purged. */
  lemma StepKeepsDeleted(st: State, step: Step, st': State, s: Slot, k: Pubkey)
    requires Inv(st) && Takes(st, step, st') && CarriesAll(st)
    ensures KeepsDeleted(st, st', s, k) && CarriesAll(st')
  {
    match step
    case Replays(x) => ReplayDeletions(st, x, st', s, k);
    case Reads(x) => ReadDeletions(st, x, st', s, k);
    case Flushes(x) => FlushDeletions(st, x, st', s, k);
    case Cleans(x) => CleanDeletions(st, x, st', s, k);
    case Shrinks(x) => ShrinkDeletions(st, x, st', s, k);
  }

  // ---------------------------------------------------------------------------------------
  // Runs
  // ---------------------------------------------------------------------------------------

  ghost predicate Remembers(s: Slot, k: Pubkey, st: State) {
    && Inv(st) && CarriesAll(st)
    && st.snapshotSlot.Some?
    && (s <= st.snapshotSlot.value || Deleted(st.storages, s, k))
  }

  lemma NextRemembers(st: State, st': State, s: Slot, k: Pubkey)
    requires Remembers(s, k, st) && Next(st, st')
    ensures Remembers(s, k, st')
  {
    var step: Step :| Takes(st, step, st');
    TakenKeepsInv(st, step, st');
    StepKeepsDeleted(st, step, st', s, k);
  }

  /** Once a snapshot slot is set, a tombstone is there until a full snapshot covers its slot,
      whatever the run does: shrink carries it along, sweep and dead-slot purging spare it. */
  lemma DeletionSurvives(st: State, st': State, s: Slot, k: Pubkey)
    requires Inv(st) && CarriesAll(st) && st.snapshotSlot.Some?
    requires Deleted(st.storages, s, k)
    requires Later(Next, st, st')
    ensures st'.snapshotSlot.Some?
    ensures s > st'.snapshotSlot.value ==> Deleted(st'.storages, s, k)
  {
    forall x, y | Remembers(s, k, x) && Next(x, y)
      ensures Remembers(s, k, y)
    {
      NextRemembers(x, y, s, k);
    }
    Induction(Next, x => Remembers(s, k, x), st, st');
  }

  ghost predicate Carrying(st: State) {
    Inv(st) && CarriesAll(st)
  }

  lemma NextCarries(st: State, st': State)
    requires Carrying(st) && Next(st, st')
    ensures Carrying(st')
  {
    var step: Step :| Takes(st, step, st');
    TakenKeepsInv(st, step, st');
    StepKeepsDeleted(st, step, st', 0, 0);
  }

  /** The same from the start of the store. */
  lemma ReachableCarries(st: State)
    requires Later(Next, Empty(), st)
    ensures Inv(st) && CarriesAll(st)
  {
    EmptyOk();
    forall x, y | Carrying(x) && Next(x, y)
      ensures Carrying(y)
    {
      NextCarries(x, y);
    }
    Induction(Next, Carrying, Empty(), st);
  }
}
