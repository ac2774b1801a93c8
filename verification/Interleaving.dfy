/** A load is not atomic: it reads the index, then looks for the storage up to three times,
    and other steps happen in between. The storage it needs is found unless the index entry
    has changed since, and what it finds is the record the entry pointed at. */
module Interleaving {
  import opened Types
  import opened Storages
  import opened PrimaryIndex
  import opened Store
  import opened Invariant
  import opened Machine
  import opened Runs
  import Flush = FlushProofs
  import Reclaim = ReclaimProofs
  import Clean = CleanProofs

  /** `get_account_storage_entry`: the map, the shrink map, the map again, each at its time. */
  function ThreeLooks(st1: State, st2: State, st3: State, s: Slot, id: StoreId): Option<Storage> {
    if s in st1.storages && st1.storages[s].id == id then Some(st1.storages[s])
    else if s in st2.shrinking && st2.shrinking[s].id == id then Some(st2.shrinking[s])
    else if s in st3.storages && st3.storages[s].id == id then Some(st3.storages[s])
    else None
  }

  /** The index says that `k` at `s` is in the storage `id`. */
  predicate EntryIn(st: State, k: Pubkey, s: Slot, id: StoreId) {
    Has(st.index, k, s) && At(st.index, k, s).store == id
  }

  /** The storage `id` is in place and `k` is about to get its entry there. */
  predicate Coming(st: State, k: Pubkey, s: Slot, id: StoreId) {
    || (Fresh(st.phase, s, k) && s in st.storages && st.storages[s].id == id)
    || (&& st.phase.Shrinking? && st.phase.slot == s && k in st.phase.moving
        && s in st.shrinking && st.shrinking[s].id == id)
  }

  /** The storage `id` is not the one a shrink of `s` is writing. */
  predicate NotShrinkingTo(st: State, s: Slot, id: StoreId) {
    s in st.shrinking ==> st.shrinking[s].id != id
  }

  /** Wherever the storage `id` of slot `s` is, its first records are `records`. */
  ghost predicate Wrote(st: State, s: Slot, id: StoreId, records: seq<Record>) {
    && (s in st.storages && st.storages[s].id == id ==> records <= st.storages[s].records)
    && (s in st.shrinking && st.shrinking[s].id == id ==> records <= st.shrinking[s].records)
  }

  /** What no step does to an id that has been given out: make an entry in it that was not
      coming, start a shrink to it, or change what was written to it. */
  ghost predicate Keeps(st: State, st': State, k: Pubkey, s: Slot, id: StoreId) {
    && st.nextId <= st'.nextId
    && (EntryIn(st', k, s, id) ==> EntryIn(st, k, s, id) || Coming(st, k, s, id))
    && (Coming(st', k, s, id) ==> Coming(st, k, s, id))
    && (NotShrinkingTo(st, s, id) ==> NotShrinkingTo(st', s, id))
    && (forall records :: Wrote(st, s, id, records) ==> Wrote(st', s, id, records))
  }

  // ---------------------------------------------------------------------------------------
  // One step
  // ---------------------------------------------------------------------------------------

  lemma EnteredKeeps(st: State, st': State, r: Slot, i: Offset, k': Pubkey, k: Pubkey, s: Slot, id: StoreId)
    requires Flush.Entering(st, r, i, k')
    requires Flush.IndexEffect(st.index, st'.index, k', r, Flush.InfoFor(st, r, i), st.phase.clean)
    requires st' == st.(index := st'.index, phase := st'.phase)
    requires st'.phase.Flushing? && st'.phase.root == r && st'.phase.todo <= st.phase.todo
    ensures Keeps(st, st', k, s, id)
  {
  }

  lemma FlushKeyKeeps(st: State, i: Offset, k: Pubkey, s: Slot, id: StoreId)
    requires Inv(st) && CanFlushKey(st, i)
    ensures Keeps(st, FlushKey(st, i), k, s, id)
  {
    var r, k' := Flush.FlushKeyEntering(st, i);
    Flush.FlushKeyIndex(st, r, i, k');
    Flush.FlushKeyRest(st, i);
    EnteredKeeps(st, FlushKey(st, i), r, i, k', k, s, id);
  }

  lemma FlushKeeps(st: State, step: FlushStep, st': State, k: Pubkey, s: Slot, id: StoreId)
    requires Inv(st) && Flushed(st, step, st') && id < st.nextId
    ensures Keeps(st, st', k, s, id)
  {
    match step
    case FlushBegin(r, clean, bound, keys, records) =>
      Flush.BeginFlushSlots(st, r, clean, bound, records);
    case FlushIndex(i) => FlushKeyKeeps(st, i, k, s, id);
    case FlushEvicted(_) =>
    case FlushEnd =>
    case FlushNothing(_) =>
  }

  lemma CleanKeyKeeps(st: State, k': Pubkey, k: Pubkey, s: Slot, id: StoreId)
    requires Inv(st) && CanCleanKey(st, k')
    ensures Keeps(st, CleanOneKey(st, k'), k, s, id)
  {
    Clean.CleanKeyIndex(st, k');
  }

  lemma HandledKeeps(st: State, st': State, t: Slot, offsets: set<Offset>, tombstone: bool, mark: Slot,
                     k: Pubkey, s: Slot, id: StoreId)
    requires st' == st.(storages := st'.storages, candidates := st'.candidates, phase := st'.phase)
    requires Reclaim.StorageEffect(st.storages, st'.storages, t, offsets, tombstone, mark)
    requires Reclaim.SamePhaseButPending(st.phase, st'.phase)
    ensures Keeps(st, st', k, s, id)
  {
  }

  lemma HandleKeeps(st: State, t: Slot, offsets: set<Offset>, mark: Slot, k: Pubkey, s: Slot, id: StoreId)
    requires Inv(st) && CanHandle(st, t, offsets, mark)
    ensures Keeps(st, Handle(st, t, offsets, mark), k, s, id)
  {
    Reclaim.HandleDue(st, t, offsets, mark);
    Reclaim.HandleStorages(st, t, offsets, mark);
    Reclaim.HandlePending(st, t, offsets, mark);
    HandledKeeps(st, Handle(st, t, offsets, mark), t, offsets, mark == t, mark, k, s, id);
  }

  lemma SweepKeeps(st: State, t: Slot, k: Pubkey, s: Slot, id: StoreId)
    requires CanSweep(st, t)
    ensures Keeps(st, Sweep(st, t), k, s, id)
  {
  }

  lemma CleanKeeps(st: State, step: CleanStep, st': State, k: Pubkey, s: Slot, id: StoreId)
    requires Inv(st) && Cleaned(st, step, st')
    ensures Keeps(st, st', k, s, id)
  {
    match step
    case CleanBegin(_) =>
    case CleanIndex(k') => CleanKeyKeeps(st, k', k, s, id);
    case CleanEnd =>
    case HandleReclaims(t, offsets, mark) => HandleKeeps(st, t, offsets, mark, k, s, id);
    case SweepSlot(t) => SweepKeeps(st, t, k, s, id);
    case Enqueue(_) =>
  }

  lemma ShrinkKeyKeeps(st: State, i: Offset, k: Pubkey, s: Slot, id: StoreId)
    requires CanShrinkKey(st, i)
    ensures Keeps(st, ShrinkKey(st, i), k, s, id)
  {
  }

  lemma SwapKeeps(st: State, k: Pubkey, s: Slot, id: StoreId)
    requires CanSwap(st)
    ensures Keeps(st, Swap(st), k, s, id)
  {
  }

  lemma ShrinkKeeps(st: State, step: ShrinkStep, st': State, k: Pubkey, s: Slot, id: StoreId)
    requires Inv(st) && Shrunk(st, step, st') && id < st.nextId
    ensures Keeps(st, st', k, s, id)
  {
    match step
    case ShrinkBegin(_, _, _) =>
    case ShrinkIndex(i) => ShrinkKeyKeeps(st, i, k, s, id);
    case ShrinkCarry => CarryKeeps(st, k, s, id);
    case ShrinkSwap => SwapKeeps(st, k, s, id);
    case ShrinkEnd =>
  }

  lemma CarryKeeps(st: State, k: Pubkey, s: Slot, id: StoreId)
    requires CanCarry(st)
    ensures Keeps(st, Carry(st), k, s, id)
  {
    var t := st.phase.slot;
    var n := WithTombstones(st.shrinking[t], st.phase.carry);
    assert n.id == st.shrinking[t].id && st.shrinking[t].records <= n.records;
  }

  lemma ReplayKeeps(st: State, step: ReplayStep, st': State, k: Pubkey, s: Slot, id: StoreId)
    requires Replayed(st, step, st')
    ensures Keeps(st, st', k, s, id)
  {
  }

  lemma ReadKeeps(st: State, step: ReadStep, st': State, k: Pubkey, s: Slot, id: StoreId)
    requires HasRead(st, step, st')
    ensures Keeps(st, st', k, s, id)
  {
  }

  lemma StepKeeps(st: State, step: Step, st': State, k: Pubkey, s: Slot, id: StoreId)
    requires Inv(st) && Takes(st, step, st') && id < st.nextId
    ensures Keeps(st, st', k, s, id)
  {
    match step
    case Replays(x) => ReplayKeeps(st, x, st', k, s, id);
    case Reads(x) => ReadKeeps(st, x, st', k, s, id);
    case Flushes(x) => FlushKeeps(st, x, st', k, s, id);
    case Cleans(x) => CleanKeeps(st, x, st', k, s, id);
    case Shrinks(x) => ShrinkKeeps(st, x, st', k, s, id);
  }

  // ---------------------------------------------------------------------------------------
  // Runs
  // ---------------------------------------------------------------------------------------

  lemma EntryNotFresh(st: State, k: Pubkey, s: Slot)
    requires Inv(st) && Has(st.index, k, s)
    ensures !Fresh(st.phase, s, k)
  {
    if IsFlushing(st.phase, s) {
      Flush.StoredAtRoot(st, k);
      assert FlushedKeyOk(st.index, st.phase, k, st.cache[s][k]);
    }
  }

  lemma EntryId(ix: Index, storages: StorageMap, shrinking: StorageMap, nextId: StoreId, k: Pubkey, s: Slot)
    requires Resolved(ix, storages, shrinking) && Has(ix, k, s)
    requires EachStorageOk(storages, nextId) && EachStorageOk(shrinking, nextId)
    ensures At(ix, k, s).store < nextId
  {
    assert Points(ix, storages, shrinking, k, s);
  }

  lemma ShrinkNotComing(st: State, k: Pubkey, s: Slot, id: StoreId)
    requires st.phase.Shrinking? && ShrinkOk(st) && EntryIn(st, k, s, id)
    ensures st.phase.slot == s && k in st.phase.moving && s in st.shrinking ==> st.shrinking[s].id != id
  {
  }

  /** An entry in place is not also coming, and its storage has been given out. */
  lemma EntryNotComing(st: State, k: Pubkey, s: Slot, id: StoreId)
    requires Inv(st) && EntryIn(st, k, s, id)
    ensures !Coming(st, k, s, id) && id < st.nextId
  {
    EntryId(st.index, st.storages, st.shrinking, st.nextId, k, s);
    EntryNotFresh(st, k, s);
    if st.phase.Shrinking? {
      ShrinkNotComing(st, k, s, id);
    }
  }

  lemma NextKeeps(st: State, st': State, k: Pubkey, s: Slot, id: StoreId)
    requires Inv(st) && Next(st, st') && id < st.nextId
    ensures Keeps(st, st', k, s, id)
  {
    var step: Step :| Takes(st, step, st');
    StepKeeps(st, step, st', k, s, id);
  }

  lemma KeepsTogether(st: State, st': State, st'': State, k: Pubkey, s: Slot, id: StoreId)
    requires Keeps(st, st', k, s, id) && Keeps(st', st'', k, s, id)
    ensures Keeps(st, st'', k, s, id)
  {
  }

  /** `st'` comes later than `st` and keeps what has been given out. */
  ghost predicate InvKeeps(st: State, k: Pubkey, s: Slot, id: StoreId, st': State) {
    Inv(st') && Keeps(st, st', k, s, id)
  }

  lemma ThenKeeps(st: State, mid: State, st': State, k: Pubkey, s: Slot, id: StoreId)
    requires InvKeeps(st, k, s, id, mid) && id < st.nextId
    requires Next(mid, st')
    ensures InvKeeps(st, k, s, id, st')
  {
    NextKeepsInv(mid, st');
    NextKeeps(mid, st', k, s, id);
    KeepsTogether(st, mid, st', k, s, id);
  }

  lemma LaterKeeps(st: State, st': State, k: Pubkey, s: Slot, id: StoreId)
    requires Inv(st) && Later(Next, st, st') && id < st.nextId
    ensures InvKeeps(st, k, s, id, st')
  {
    forall x, y | InvKeeps(st, k, s, id, x) && Next(x, y)
      ensures InvKeeps(st, k, s, id, y)
    {
      ThenKeeps(st, x, y, k, s, id);
    }
    Induction(Next, x => InvKeeps(st, k, s, id, x), st, st');
  }

  /** An entry that is the same at both ends of a run was there all the time. */
  lemma EntryThroughout(st: State, mid: State, st': State, k: Pubkey, s: Slot, id: StoreId)
    requires Inv(st) && Later(Next, st, mid) && Later(Next, mid, st')
    requires EntryIn(st, k, s, id) && EntryIn(st', k, s, id)
    ensures Inv(mid) && EntryIn(mid, k, s, id)
  {
    EntryNotComing(st, k, s, id);
    LaterKeeps(st, mid, k, s, id);
    LaterKeeps(mid, st', k, s, id);
  }

  /** The storage of an entry is in the map, or a shrink is just writing it. */
  lemma EntryFound(st: State, k: Pubkey, s: Slot, id: StoreId)
    requires Inv(st) && EntryIn(st, k, s, id)
    ensures FindStorage(st.storages, st.shrinking, s, id).Some?
  {
    assert Points(st.index, st.storages, st.shrinking, k, s);
  }

  /** With its entry still there, a storage is found by the second look in the shrink map or by
      the third one in the map. */
  lemma LooksSucceed(st2: State, st3: State, st4: State, k: Pubkey, s: Slot, id: StoreId)
    requires Inv(st2) && Later(Next, st2, st3) && Later(Next, st3, st4)
    requires EntryIn(st2, k, s, id) && EntryIn(st4, k, s, id)
    ensures (s in st2.shrinking && st2.shrinking[s].id == id) || (s in st3.storages && st3.storages[s].id == id)
  {
    EntryThroughout(st2, st3, st4, k, s, id);
    EntryFound(st2, k, s, id);
    EntryFound(st3, k, s, id);
    EntryNotComing(st2, k, s, id);
    LaterKeeps(st2, st3, k, s, id);
  }

  /** If the three looks fail, the entry read before them has changed for good: no later read
      of the index gives the same slot and storage. The check that panics with "Bad index
      entry" never succeeds. */
  lemma NoBadIndexEntry(st0: State, st1: State, st2: State, st3: State, st4: State,
                        k: Pubkey, s: Slot, id: StoreId)
    requires Inv(st0)
    requires Later(Next, st0, st1) && Later(Next, st1, st2) && Later(Next, st2, st3) && Later(Next, st3, st4)
    requires EntryIn(st0, k, s, id)
    requires ThreeLooks(st1, st2, st3, s, id).None?
    ensures !EntryIn(st4, k, s, id)
  {
    if EntryIn(st4, k, s, id) {
      Together(Next, st0, st1, st2);
      Together(Next, st2, st3, st4);
      EntryThroughout(st0, st2, st4, k, s, id);
      LooksSucceed(st2, st3, st4, k, s, id);
      assert false;
    }
  }

  /** A record written to a storage stays where it is. */
  lemma StillWritten(st: State, st': State, k: Pubkey, s: Slot, id: StoreId)
    requires Inv(st) && Later(Next, st, st') && EntryIn(st, k, s, id)
    requires FindStorage(st.storages, st.shrinking, s, id).Some?
    ensures Wrote(st', s, id, FindStorage(st.storages, st.shrinking, s, id).value.records)
  {
    EntryNotComing(st, k, s, id);
    WroteNow(st, k, s, id);
    LaterKeeps(st, st', k, s, id);
  }

  lemma WroteNow(st: State, k: Pubkey, s: Slot, id: StoreId)
    requires PhaseOk(st) && EntryIn(st, k, s, id)
    requires FindStorage(st.storages, st.shrinking, s, id).Some?
    ensures Wrote(st, s, id, FindStorage(st.storages, st.shrinking, s, id).value.records)
  {
  }

  /** The record an entry points at, in the storage it points into. */
  lemma EntryRecord(st: State, k: Pubkey, s: Slot, id: StoreId)
    requires Inv(st) && EntryIn(st, k, s, id)
    ensures var t := FindStorage(st.storages, st.shrinking, s, id);
            var offset := At(st.index, k, s).offset;
            && t.Some? && offset < |t.value.records|
            && t.value.records[offset].pubkey == k
            && Content(st, k, s) == Some(t.value.records[offset].account)
  {
    assert Points(st.index, st.storages, st.shrinking, k, s);
  }

  /** Whatever storage the looks return holds, at the offset read before, the account the
      entry stood for when it was read, even if it has been superseded since. */
  lemma FoundRecord(st0: State, st1: State, st2: State, st3: State, k: Pubkey, s: Slot, id: StoreId)
    requires Inv(st0)
    requires Later(Next, st0, st1) && Later(Next, st1, st2) && Later(Next, st2, st3)
    requires EntryIn(st0, k, s, id)
    requires ThreeLooks(st1, st2, st3, s, id).Some?
    ensures var records := ThreeLooks(st1, st2, st3, s, id).value.records;
            var offset := At(st0.index, k, s).offset;
            && offset < |records|
            && records[offset].pubkey == k
            && Content(st0, k, s) == Some(records[offset].account)
  {
    EntryRecord(st0, k, s, id);
    Together(Next, st0, st1, st2);
    Together(Next, st0, st2, st3);
    StillWritten(st0, st1, k, s, id);
    StillWritten(st0, st2, k, s, id);
    StillWritten(st0, st3, k, s, id);
    assert FindStorage(st0.storages, st0.shrinking, s, id).value.records
        <= ThreeLooks(st1, st2, st3, s, id).value.records;
  }
}
