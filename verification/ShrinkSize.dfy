/** How much a shrink will write is predicted from counters. The prediction is exact, and a
    storage queued for shrinking stays worth shrinking until it is shrunk. */
module ShrinkSize {
  import opened Types
  import opened Storages
  import opened PrimaryIndex
  import opened Store
  import opened Invariant
  import opened Machine
  import opened Runs
  import Flush = FlushProofs
  import Reclaim = ReclaimProofs

  // ---------------------------------------------------------------------------------------
  // The prediction
  // ---------------------------------------------------------------------------------------

  /** What is left of a storage by a shrink. */
  function Remaining(t: Storage, canPurge: bool): set<Offset> {
    if canPurge then AliveOffsets(t) else AliveOffsets(t) + t.tombstones
  }

  lemma TombstoneBytes(t: Storage)
    requires RecordsOk(t.records) && MarksOk(t)
    ensures Bytes(t.records, t.tombstones) == |t.tombstones| * StoredSize(0)
  {
    BytesUniform(t.records, t.tombstones, 0, |t.records|);
  }

  lemma AliveBytesAre(t: Storage)
    requires MarksOk(t) && BooksOk(t)
    ensures t.aliveBytes == Bytes(t.records, AliveOffsets(t) + t.tombstones)
  {
    BytesSubset(t.records, t.obsolete.Keys, AllOffsets(t.records));
    assert AllOffsets(t.records) - t.obsolete.Keys == AliveOffsets(t) + t.tombstones;
  }

  /** The counters give exactly the bytes of the records that remain. */
  lemma PredictionIs(t: Storage, canPurge: bool)
    requires StorageOk(t)
    ensures AliveBytesAfterShrink(t, canPurge) == Bytes(t.records, Remaining(t, canPurge))
  {
    AliveBytesAre(t);
    TombstoneBytes(t);
    BytesAdd(t.records, AliveOffsets(t), t.tombstones, |t.records|);
  }

  lemma SingleBytes(records: seq<Record>, j: Offset, n: nat)
    requires n <= |records| && j < |records|
    ensures BytesUpTo(records, {j}, n) == if j < n then StoredSize(records[j].account.dataLen) else 0
  {
    if n > 0 {
      SingleBytes(records, j, n - 1);
    }
  }

  lemma LastBytes(records: seq<Record>)
    requires |records| > 0
    ensures var n := |records| - 1;
            Bytes(records, AllOffsets(records)) ==
            Bytes(records[..n], AllOffsets(records[..n])) + StoredSize(records[n].account.dataLen)
  {
    var n := |records| - 1;
    assert records == records[..n] + [records[n]];
    BytesPrefix(records[..n], [records[n]], AllOffsets(records), n);
    BytesIgnoreHigh(records[..n], AllOffsets(records), AllOffsets(records[..n]), n);
  }

  lemma ListedElsewhere(t: Storage, offsets: set<Offset>, records: seq<Record>, j: Offset)
    requires DistinctKeys(t.records) && offsets <= AllOffsets(t.records)
    requires ListsOffsets(t, offsets, records) && |records| > 0
    requires j in offsets && t.records[j] == records[|records| - 1]
    ensures ListsOffsets(t, offsets - {j}, records[..|records| - 1])
  {
    var n := |records| - 1;
    var rest := records[..n];
    forall i | 0 <= i < |rest|
      ensures Contains(t, offsets - {j}, rest[i])
    {
      assert Contains(t, offsets, records[i]);
      var o: Offset :| o in offsets && o < |t.records| && t.records[o] == records[i];
      assert records[i].pubkey != records[n].pubkey;
    }
    forall o: Offset | o in offsets - {j} && o < |t.records|
      ensures t.records[o] in rest
    {
      assert t.records[o] in records;
      assert o < j || j < o;
    }
  }

  lemma OneMoreBytes(records: seq<Record>, offsets: set<Offset>, j: Offset)
    requires j in offsets && j < |records|
    ensures Bytes(records, offsets) == Bytes(records, offsets - {j}) + StoredSize(records[j].account.dataLen)
  {
    BytesAdd(records, offsets - {j}, {j}, |records|);
    assert offsets - {j} + {j} == offsets;
    SingleBytes(records, j, |records|);
  }

  lemma NothingListed(t: Storage, offsets: set<Offset>)
    requires offsets <= AllOffsets(t.records) && ListsOffsets(t, offsets, [])
    ensures offsets == {}
  {
    assert forall o :: o in offsets ==> o < |t.records| && t.records[o] in [];
  }

  /** A list of some records of a storage weighs as much as those records. */
  lemma {:induction false} ListedBytes(t: Storage, offsets: set<Offset>, records: seq<Record>)
    requires DistinctKeys(t.records) && offsets <= AllOffsets(t.records)
    requires ListsOffsets(t, offsets, records)
    ensures Bytes(records, AllOffsets(records)) == Bytes(t.records, offsets)
    decreases |records|
  {
    if records == [] {
      NothingListed(t, offsets);
      BytesOfEmpty(t.records, |t.records|);
    } else {
      var n := |records| - 1;
      assert Contains(t, offsets, records[n]);
      var j: Offset :| j in offsets && j < |t.records| && t.records[j] == records[n];
      ListedElsewhere(t, offsets, records, j);
      ListedBytes(t, offsets - {j}, records[..n]);
      LastBytes(records);
      OneMoreBytes(t.records, offsets, j);
    }
  }

  lemma EmptyBytes()
    ensures Bytes([], AllOffsets([])) == 0
  {
  }

  /** The counter-based prediction equals the bytes gathered by scanning the storage. */
  lemma PredictionExact(t: Storage, canPurge: bool, alive: seq<Record>, carry: seq<Record>)
    requires StorageOk(t) && Collected(t, canPurge, alive, carry)
    ensures RewriteBytes(alive, carry) == AliveBytesAfterShrink(t, canPurge)
  {
    PredictionIs(t, canPurge);
    ListedBytes(t, AliveOffsets(t), alive);
    if canPurge {
      EmptyBytes();
    } else {
      ListedBytes(t, t.tombstones, carry);
      BytesAdd(t.records, AliveOffsets(t), t.tombstones, |t.records|);
    }
  }

  lemma AppendedBytes(records: seq<Record>, r: Record)
    ensures Bytes(records + [r], AllOffsets(records + [r])) == Bytes(records, AllOffsets(records)) + StoredSize(r.account.dataLen)
  {
    LastBytes(records + [r]);
    assert (records + [r])[..|records|] == records;
  }

  lemma LastApart<T>(a: seq<T>, b: seq<T>)
    requires |b| > 0
    ensures var rest, r := b[..|b| - 1], b[|b| - 1];
            b == rest + [r] && a + b == (a + rest) + [r]
  {
  }

  lemma {:induction false} BytesTogether(a: seq<Record>, b: seq<Record>)
    ensures Bytes(a + b, AllOffsets(a + b)) == RewriteBytes(a, b)
    decreases |b|
  {
    if b == [] {
      assert a + b == a;
      EmptyBytes();
    } else {
      var rest, r := b[..|b| - 1], b[|b| - 1];
      BytesTogether(a, rest);
      AppendedBytes(a + rest, r);
      AppendedBytes(rest, r);
      LastApart(a, b);
    }
  }

  // ---------------------------------------------------------------------------------------
  // Candidates
  // ---------------------------------------------------------------------------------------

  predicate CandidateOk(st: State, s: Slot) {
    && s in st.roots
    && (s in st.unflushed ==> IsFlushing(st.phase, s))
    && (s in st.storages ==> Productive(st.storages[s], CanPurge(st, s)))
  }

  /** Every slot queued for shrinking, if it still has a storage, is worth it. */
  ghost predicate CandidatesOk(st: State) {
    forall s :: s in st.candidates ==> CandidateOk(st, s)
  }

  /** The first snapshot slot takes purging away from newer slots; any other change of it only
      allows more. */
  predicate NotFirst(st: State, st': State) {
    st.snapshotSlot.None? ==> st'.snapshotSlot.None?
  }

  lemma MorePurge(t: Storage)
    requires StorageOk(t) && Productive(t, false)
    ensures Productive(t, true)
  {
    PredictionIs(t, true);
    PredictionIs(t, false);
    BytesSubset(t.records, AliveOffsets(t), AliveOffsets(t) + t.tombstones);
  }

  lemma SnapshotCandidates(st: State, v: Slot)
    requires EachStorageOk(st.storages, st.nextId) && CanSetSnapshot(st, v) && st.snapshotSlot.Some?
    requires CandidatesOk(st)
    ensures CandidatesOk(SetSnapshot(st, v))
  {
    forall s | s in st.candidates
      ensures CandidateOk(SetSnapshot(st, v), s)
    {
      assert CandidateOk(st, s);
      if s in st.storages && !CanPurge(st, s) {
        MorePurge(st.storages[s]);
      }
    }
  }

  lemma ReplayCandidates(st: State, step: ReplayStep, st': State)
    requires Inv(st) && Replayed(st, step, st') && NotFirst(st, st') && CandidatesOk(st)
    ensures CandidatesOk(st')
  {
    if step.Snapshot? {
      SnapshotCandidates(st, step.slot);
    } else {
      forall s | s in st'.candidates
        ensures CandidateOk(st', s)
      {
        assert CandidateOk(st, s);
      }
    }
  }

  /** Reclaims leave less of a storage. */
  lemma ReclaimedProductive(t: Storage, offsets: set<Offset>, tombstone: bool, mark: Slot, r: Storage, canPurge: bool)
    requires StorageOk(t) && Reclaimed(t, offsets, tombstone, mark, r) && offsets <= AliveOffsets(t)
    requires Productive(t, canPurge)
    ensures Productive(r, canPurge)
  {
    PredictionIs(t, canPurge);
    PredictionIs(r, canPurge);
    BytesSubset(t.records, Remaining(r, canPurge), Remaining(t, canPurge));
  }

  lemma HandleCandidates(st: State, t: Slot, offsets: set<Offset>, mark: Slot)
    requires Inv(st) && CanHandle(st, t, offsets, mark) && CandidatesOk(st)
    ensures CandidatesOk(Handle(st, t, offsets, mark))
  {
    var st' := Handle(st, t, offsets, mark);
    Reclaim.HandleDue(st, t, offsets, mark);
    Reclaim.HandleStorages(st, t, offsets, mark);
    Reclaim.HandlePending(st, t, offsets, mark);
    forall s | s in st'.candidates
      ensures CandidateOk(st', s)
    {
      assert CandidateOk(st, s);
      if s == t && s in st'.storages {
        ReclaimedProductive(st.storages[s], offsets, mark == s, mark, st'.storages[s], CanPurge(st, s));
      }
    }
  }

  lemma CleanCandidates(st: State, step: CleanStep, st': State)
    requires Inv(st) && Cleaned(st, step, st') && CandidatesOk(st)
    ensures CandidatesOk(st')
  {
    if step.HandleReclaims? {
      HandleCandidates(st, step.slot, step.offsets, step.mark);
    } else {
      forall s | s in st'.candidates
        ensures CandidateOk(st', s)
      {
        assert s in st.candidates ==> CandidateOk(st, s);
      }
    }
  }

  lemma FlushCandidates(st: State, step: FlushStep, st': State)
    requires Inv(st) && Flushed(st, step, st') && CandidatesOk(st)
    ensures CandidatesOk(st')
  {
    if step.FlushIndex? {
      Flush.FlushKeyRest(st, step.offset);
    }
    forall s | s in st'.candidates
      ensures CandidateOk(st', s)
    {
      assert CandidateOk(st, s);
    }
  }

  lemma ReadCandidates(st: State, step: ReadStep, st': State)
    requires HasRead(st, step, st') && CandidatesOk(st)
    ensures CandidatesOk(st')
  {
    forall s | s in st'.candidates
      ensures CandidateOk(st', s)
    {
      assert CandidateOk(st, s);
    }
  }

  lemma ShrinkCandidates(st: State, step: ShrinkStep, st': State)
    requires Shrunk(st, step, st') && CandidatesOk(st)
    ensures CandidatesOk(st')
  {
    forall s | s in st'.candidates
      ensures CandidateOk(st', s)
    {
      assert CandidateOk(st, s);
    }
  }

  lemma StepCandidates(st: State, step: Step, st': State)
    requires Inv(st) && Takes(st, step, st') && NotFirst(st, st') && CandidatesOk(st)
    ensures CandidatesOk(st')
  {
    match step
    case Replays(x) => ReplayCandidates(st, x, st');
    case Reads(x) => ReadCandidates(st, x, st');
    case Flushes(x) => FlushCandidates(st, x, st');
    case Cleans(x) => CleanCandidates(st, x, st');
    case Shrinks(x) => ShrinkCandidates(st, x, st');
  }

  // ---------------------------------------------------------------------------------------
  // Runs
  // ---------------------------------------------------------------------------------------

  ghost predicate SteadyNext(st: State, st': State) {
    Next(st, st') && NotFirst(st, st')
  }

  ghost predicate Queued(st: State) {
    Inv(st) && CandidatesOk(st)
  }

  lemma NextQueued(st: State, st': State)
    requires Queued(st) && SteadyNext(st, st')
    ensures Queued(st')
  {
    var step: Step :| Takes(st, step, st');
    TakenKeepsInv(st, step, st');
    StepCandidates(st, step, st');
  }

  /** While the snapshot slot does not move backwards, what a queued storage's scan gathers is
      less than what was written to it: the branch that reports an unexpected shrink is not
      reached. */
  lemma NoUnexpectedShrink(st: State, st': State, s: Slot, alive: seq<Record>, carry: seq<Record>)
    requires Inv(st) && CandidatesOk(st) && Later(SteadyNext, st, st')
    requires s in st'.candidates && s in st'.storages
    requires Collected(st'.storages[s], CanPurge(st', s), alive, carry)
    ensures RewriteBytes(alive, carry) < st'.storages[s].storedBytes
  {
    forall x, y | Queued(x) && SteadyNext(x, y)
      ensures Queued(y)
    {
      NextQueued(x, y);
    }
    Induction(SteadyNext, Queued, st, st');
    assert CandidateOk(st', s);
    PredictionExact(st'.storages[s], CanPurge(st', s), alive, carry);
  }

  /** Some record is dead exactly if fewer bytes are alive than written. */
  lemma DeadBytes(t: Storage)
    requires MarksOk(t) && BooksOk(t)
    ensures t.aliveBytes < t.storedBytes <==> t.obsolete != map[]
  {
    if t.obsolete != map[] {
      var o :| o in t.obsolete;
      OneMoreBytes(t.records, t.obsolete.Keys, o);
    } else {
      assert t.obsolete.Keys == {};
      BytesOfEmpty(t.records, |t.records|);
    }
  }

  /** The first snapshot slot keeps a candidate worth shrinking exactly if it covers the slot or
      something besides tombstones is dead there. */
  lemma FirstSnapshotCandidate(st: State, v: Slot, s: Slot)
    requires Inv(st) && CandidatesOk(st) && CanSetSnapshot(st, v) && st.snapshotSlot.None?
    requires s in st.candidates && s in st.storages
    ensures CandidateOk(SetSnapshot(st, v), s) <==> s <= v || st.storages[s].obsolete != map[]
  {
    assert CandidateOk(st, s);
    DeadBytes(st.storages[s]);
  }

}
