/** The life of a storage: what its alive count counts, when its slot is dead, and that the
    order in which reclaims are handled does not matter. */
module Lifecycle {
  import opened Types
  import opened Storages
  import opened PrimaryIndex
  import opened Store
  import opened Invariant
  import opened Machine
  import opened Runs
  import Reclaim = ReclaimProofs

  // ---------------------------------------------------------------------------------------
  // The alive count
  // ---------------------------------------------------------------------------------------

  /** The keys the index lists at slot `s`. */
  ghost function EntryKeys(ix: Index, s: Slot): set<Pubkey> {
    set k | k in ix.Keys && Has(ix, k, s)
  }

  /** The keys of the storage being flushed that have not entered the index yet. */
  ghost function EnteringAt(phase: Phase, s: Slot): set<Pubkey> {
    if IsFlushing(phase, s) then phase.todo else {}
  }

  function KeysAt(records: seq<Record>, offsets: set<Offset>): set<Pubkey>
    requires forall i :: i in offsets ==> i < |records|
  {
    set i | i in offsets :: records[i].pubkey
  }

  /** Different offsets have different keys. */
  lemma KeysAtSize(records: seq<Record>, offsets: set<Offset>)
    requires DistinctKeys(records)
    requires forall i :: i in offsets ==> i < |records|
    ensures |KeysAt(records, offsets)| == |offsets|
  {
    if offsets != {} {
      var i :| i in offsets;
      var rest := offsets - {i};
      KeysAtSize(records, rest);
      assert KeysAt(records, offsets) == KeysAt(records, rest) + {records[i].pubkey};
      forall j | j in rest
        ensures records[j].pubkey != records[i].pubkey
      {
        assert i < j || j < i;
      }
    }
  }

  lemma MovedEntry(st: State, k: Pubkey, s: Slot) returns (i: Offset)
    requires PhaseOk(st) && Has(st.index, k, s)
    requires s in st.storages && Points(st.index, st.storages, st.shrinking, k, s)
    requires st.storages[s].id != At(st.index, k, s).store
    ensures Rec(st.storages, s, i) && KeyAt(st.storages, s, i) == k
  {
    var t, n := st.storages[s], st.shrinking[s];
    var o := At(st.index, k, s).offset;
    assert RecordsFrom(n, AliveOffsets(n), t, AliveOffsets(t));
    assert Contains(t, AliveOffsets(t), n.records[o]);
    i :| i in AliveOffsets(t) && i < |t.records| && t.records[i] == n.records[o];
  }

  /** Every entry of a slot has a record in the slot's storage, also during a shrink. */
  lemma EntryHasRecord(st: State, k: Pubkey, s: Slot) returns (i: Offset)
    requires Inv(st) && Has(st.index, k, s)
    ensures Rec(st.storages, s, i) && KeyAt(st.storages, s, i) == k
  {
    assert Points(st.index, st.storages, st.shrinking, k, s);
    if st.storages[s].id == At(st.index, k, s).store {
      i := At(st.index, k, s).offset;
    } else {
      i := MovedEntry(st, k, s);
    }
  }

  /** The alive records of a slot, by the reason why they are alive. */
  ghost function ListedOffsets(st: State, s: Slot): set<Offset>
    requires s in st.storages
  {
    set i | i in AliveOffsets(st.storages[s]) && i < |st.storages[s].records|
            && Has(st.index, st.storages[s].records[i].pubkey, s)
  }

  ghost function EnteringOffsets(st: State, s: Slot): set<Offset>
    requires s in st.storages
  {
    set i | i in AliveOffsets(st.storages[s]) && i < |st.storages[s].records|
            && Fresh(st.phase, s, st.storages[s].records[i].pubkey)
  }

  lemma AliveReason(st: State, s: Slot, i: Offset)
    requires Partitioned(st.index, st.storages, st.phase) && s in st.storages
    ensures i in AliveOffsets(st.storages[s]) <==>
              i in ListedOffsets(st, s) || i in PendingAt(Pending(st), s) || i in EnteringOffsets(st, s)
    ensures !(i in ListedOffsets(st, s) && i in PendingAt(Pending(st), s))
    ensures !(i in ListedOffsets(st, s) && i in EnteringOffsets(st, s))
    ensures !(i in PendingAt(Pending(st), s) && i in EnteringOffsets(st, s))
  {
    PendingAtHas(Pending(st), s, i);
    if Rec(st.storages, s, i) {
      assert ClaimOk(st.index, st.storages, st.phase, s, i);
    }
  }

  lemma AliveSplit(st: State, s: Slot)
    requires Partitioned(st.index, st.storages, st.phase) && s in st.storages
    ensures AliveOffsets(st.storages[s]) == ListedOffsets(st, s) + PendingAt(Pending(st), s) + EnteringOffsets(st, s)
    ensures ListedOffsets(st, s) !! PendingAt(Pending(st), s)
    ensures ListedOffsets(st, s) + PendingAt(Pending(st), s) !! EnteringOffsets(st, s)
  {
    forall i: Offset {
      AliveReason(st, s, i);
    }
  }

  lemma ListedKeys(st: State, s: Slot)
    requires Inv(st) && s in st.storages
    ensures KeysAt(st.storages[s].records, ListedOffsets(st, s)) == EntryKeys(st.index, s)
  {
    forall k | k in EntryKeys(st.index, s)
      ensures k in KeysAt(st.storages[s].records, ListedOffsets(st, s))
    {
      var i := EntryHasRecord(st, k, s);
      assert ClaimOk(st.index, st.storages, st.phase, s, i);
      assert i in ListedOffsets(st, s);
    }
  }

  lemma EnteringKeys(st: State, s: Slot)
    requires Inv(st) && s in st.storages
    ensures KeysAt(st.storages[s].records, EnteringOffsets(st, s)) == EnteringAt(st.phase, s)
  {
    forall k | k in EnteringAt(st.phase, s)
      ensures k in KeysAt(st.storages[s].records, EnteringOffsets(st, s))
    {
      assert k in KeysOf(st.storages[s].records);
      var i: Offset :| i < |st.storages[s].records| && st.storages[s].records[i].pubkey == k;
      assert Rec(st.storages, s, i);
      assert ClaimOk(st.index, st.storages, st.phase, s, i);
      assert i in EnteringOffsets(st, s);
    }
  }

  /** The alive count of a storage is the number of index entries of its slot, plus the
      reclaims collected but not handled, plus what a running flush is still to index, plus
      the tombstones. */
  lemma AliveCountExact(st: State, s: Slot)
    requires Inv(st) && s in st.storages
    ensures st.storages[s].aliveCount ==
            |EntryKeys(st.index, s)| + |PendingAt(Pending(st), s)| + |EnteringAt(st.phase, s)|
            + |st.storages[s].tombstones|
  {
    var t := st.storages[s];
    var listed, pending, entering := ListedOffsets(st, s), PendingAt(Pending(st), s), EnteringOffsets(st, s);
    AliveSplit(st, s);
    AliveSize(t);
    assert |listed + pending| == |listed| + |pending|;
    assert |listed + pending + entering| == |listed + pending| + |entering|;
    KeysAtSize(t.records, listed);
    KeysAtSize(t.records, entering);
    ListedKeys(st, s);
    EnteringKeys(st, s);
  }

  // ---------------------------------------------------------------------------------------
  // Handling reclaims
  // ---------------------------------------------------------------------------------------

  /** The assertions of `remove_accounts` hold whenever reclaims are handled. */
  lemma HandleFits(st: State, s: Slot, offsets: set<Offset>, mark: Slot)
    requires Inv(st) && CanHandle(st, s, offsets, mark)
    ensures s in st.storages
    ensures |offsets| <= st.storages[s].aliveCount
    ensures Bytes(st.storages[s].records, offsets) <= st.storages[s].aliveBytes
  {
    Reclaim.HandleDue(st, s, offsets, mark);
    ReclaimsFit(st.storages[s], offsets);
  }

  /** A slot is dead exactly when the index lists nothing in it, no other reclaim of it is
      pending, and what tombstones it has may be purged. */
  lemma DeadIff(st: State, s: Slot, offsets: set<Offset>, mark: Slot)
    requires Inv(st) && CanHandle(st, s, offsets, mark)
    ensures s in st.storages
    ensures s !in Handle(st, s, offsets, mark).storages <==>
              && EntryKeys(st.index, s) == {}
              && PendingAt(Pending(st), s) == offsets
              && (st.snapshotSlot.None? || s <= st.snapshotSlot.value || (mark != s && st.storages[s].tombstones == {}))
  {
    Reclaim.HandleDue(st, s, offsets, mark);
    HandleGroupOk(st.storages[s], s, offsets, mark, CanPurge(st, s));
    DueArePending(Pending(st), s, offsets);
    NothingElse(st, s, offsets);
  }

  lemma ListedNone(st: State, s: Slot)
    requires Inv(st) && s in st.storages
    ensures ListedOffsets(st, s) == {} <==> EntryKeys(st.index, s) == {}
  {
    ListedKeys(st, s);
    var records, listed := st.storages[s].records, ListedOffsets(st, s);
    if listed != {} {
      var i :| i in listed;
      assert records[i].pubkey in KeysAt(records, listed);
    }
  }

  lemma EnteringNone(st: State, s: Slot)
    requires s in st.storages && (st.phase.Flushing? ==> st.phase.todo == {})
    ensures EnteringOffsets(st, s) == {}
  {
  }

  lemma NothingElse(st: State, s: Slot, offsets: set<Offset>)
    requires Inv(st) && s in st.storages && (st.phase.Flushing? ==> st.phase.todo == {})
    requires offsets <= PendingAt(Pending(st), s)
    ensures AliveOffsets(st.storages[s]) == offsets <==>
              EntryKeys(st.index, s) == {} && PendingAt(Pending(st), s) == offsets
  {
    ListedNone(st, s);
    EnteringNone(st, s);
    AliveSplit(st, s);
    var listed, pending := ListedOffsets(st, s), PendingAt(Pending(st), s);
    assert AliveOffsets(st.storages[s]) == listed + pending;
    assert listed + pending == offsets <==> listed == {} && pending == offsets;
  }

  lemma DueArePending(p: Reclaims, s: Slot, offsets: set<Offset>)
    requires forall o: Offset :: o in offsets ==> (s, o) in p
    ensures offsets <= PendingAt(p, s)
  {
    forall o | o in offsets
      ensures o in PendingAt(p, s)
    {
      PendingAtHas(p, s, o);
    }
  }

  /** A dropped slot has no index entry and no pending reclaim left. */
  lemma DeadIsGone(st: State, s: Slot)
    requires Inv(st) && s !in st.storages
    ensures EntryKeys(st.index, s) == {} && PendingAt(Pending(st), s) == {}
  {
    forall i: Offset
      ensures i !in PendingAt(Pending(st), s)
    {
      PendingAtHas(Pending(st), s, i);
      assert (s, i) in Pending(st) ==> Rec(st.storages, s, i);
    }
  }

  function MarkAll(obsolete: map<Offset, Slot>, offsets: set<Offset>, mark: Slot): map<Offset, Slot> {
    map o | o in obsolete.Keys + offsets :: if o in offsets then mark else obsolete[o]
  }

  /** Reclaims recorded in a storage that survives them. */
  function Marked(t: Storage, slot: Slot, offsets: set<Offset>, mark: Slot): Storage {
    if mark == slot then t.(tombstones := t.tombstones + offsets)
    else t.(aliveCount := t.aliveCount - |offsets|,
            aliveBytes := t.aliveBytes - Bytes(t.records, offsets),
            obsolete := MarkAll(t.obsolete, offsets, mark))
  }

  lemma SurvivorIsMarked(t: Storage, slot: Slot, offsets: set<Offset>, mark: Slot, canPurge: bool)
    ensures var r := HandleGroup(t, slot, offsets, mark, canPurge);
            r.Some? ==> r.value == Marked(t, slot, offsets, mark)
  {
  }

  lemma MarkAllCommutes(obsolete: map<Offset, Slot>, o1: set<Offset>, m1: Slot, o2: set<Offset>, m2: Slot)
    requires o1 !! o2
    ensures MarkAll(MarkAll(obsolete, o1, m1), o2, m2) == MarkAll(MarkAll(obsolete, o2, m2), o1, m1)
  {
  }

  lemma ObsoleteCommutes(t: Storage, slot: Slot, o1: set<Offset>, m1: Slot, o2: set<Offset>, m2: Slot)
    requires o1 !! o2 && m1 != slot && m2 != slot
    ensures Marked(Marked(t, slot, o1, m1), slot, o2, m2) == Marked(Marked(t, slot, o2, m2), slot, o1, m1)
  {
    MarkAllCommutes(t.obsolete, o1, m1, o2, m2);
  }

  lemma MixedCommutes(t: Storage, slot: Slot, o1: set<Offset>, o2: set<Offset>, m2: Slot)
    requires m2 != slot
    ensures Marked(Marked(t, slot, o1, slot), slot, o2, m2) == Marked(Marked(t, slot, o2, m2), slot, o1, slot)
  {
  }

  lemma TombstonesCommute(t: Storage, slot: Slot, o1: set<Offset>, o2: set<Offset>)
    ensures Marked(Marked(t, slot, o1, slot), slot, o2, slot) == Marked(Marked(t, slot, o2, slot), slot, o1, slot)
  {
    assert t.tombstones + o1 + o2 == t.tombstones + o2 + o1;
  }

  lemma MarksCommute(t: Storage, slot: Slot, o1: set<Offset>, m1: Slot, o2: set<Offset>, m2: Slot)
    requires o1 !! o2
    ensures Marked(Marked(t, slot, o1, m1), slot, o2, m2) == Marked(Marked(t, slot, o2, m2), slot, o1, m1)
  {
    if m1 == slot && m2 == slot {
      TombstonesCommute(t, slot, o1, o2);
    } else if m1 == slot {
      MixedCommutes(t, slot, o1, o2, m2);
    } else if m2 == slot {
      MixedCommutes(t, slot, o2, o1, m1);
    } else {
      ObsoleteCommutes(t, slot, o1, m1, o2, m2);
    }
  }

  /** A group that leaves other reclaims pending does not kill the storage, and the others can
      still be marked. */
  lemma FirstGroup(t: Storage, slot: Slot, o1: set<Offset>, m1: Slot, o2: set<Offset>, m2: Slot, canPurge: bool)
    requires Reclaim.CanMark(t, slot, o1, m1) && Reclaim.CanMark(t, slot, o2, m2)
    requires o1 !! o2
    ensures var r := HandleGroup(t, slot, o1, m1, canPurge);
            && r == Some(Marked(t, slot, o1, m1))
            && Reclaimed(t, o1, m1 == slot, m1, r.value)
            && Reclaim.CanMark(r.value, slot, o2, m2)
  {
    HandleGroupOk(t, slot, o1, m1, canPurge);
    SurvivorIsMarked(t, slot, o1, m1, canPurge);
  }

  lemma LeftOver<T>(alive: set<T>, o1: set<T>, o2: set<T>)
    requires o1 <= alive && o2 <= alive - o1
    ensures alive - o1 == o2 <==> alive == o1 + o2
  {
  }

  /** The second of two groups kills the storage under a condition that is the same for
      either order. */
  lemma SecondDies(t: Storage, r1: Storage, slot: Slot, o1: set<Offset>, m1: Slot, o2: set<Offset>, m2: Slot, canPurge: bool)
    requires Reclaimed(t, o1, m1 == slot, m1, r1) && Reclaim.CanMark(r1, slot, o2, m2)
    requires o1 != {} && o1 <= AliveOffsets(t)
    ensures HandleGroup(r1, slot, o2, m2, canPurge).None? <==> BothKill(t, slot, o1, m1, o2, m2, canPurge)
  {
    HandleGroupOk(r1, slot, o2, m2, canPurge);
    LeftOver(AliveOffsets(t), o1, o2);
    if m1 == slot {
      assert o1 <= r1.tombstones;
    }
  }

  /** Whether two groups of reclaims together kill a storage. */
  ghost predicate BothKill(t: Storage, slot: Slot, o1: set<Offset>, m1: Slot, o2: set<Offset>, m2: Slot, canPurge: bool) {
    AliveOffsets(t) == o1 + o2 && (canPurge || (m1 != slot && m2 != slot && t.tombstones == {}))
  }

  lemma BothKillEither(t: Storage, slot: Slot, o1: set<Offset>, m1: Slot, o2: set<Offset>, m2: Slot, canPurge: bool)
    ensures BothKill(t, slot, o1, m1, o2, m2, canPurge) == BothKill(t, slot, o2, m2, o1, m1, canPurge)
  {
    assert o1 + o2 == o2 + o1;
  }

  /** One group after the other. */
  lemma TwoGroups(t: Storage, slot: Slot, o1: set<Offset>, m1: Slot, o2: set<Offset>, m2: Slot, canPurge: bool)
    requires Reclaim.CanMark(t, slot, o1, m1) && Reclaim.CanMark(t, slot, o2, m2)
    requires o1 !! o2
    ensures HandleGroup(t, slot, o1, m1, canPurge) == Some(Marked(t, slot, o1, m1))
    ensures HandleGroup(Marked(t, slot, o1, m1), slot, o2, m2, canPurge) ==
            if BothKill(t, slot, o1, m1, o2, m2, canPurge) then None
            else Some(Marked(Marked(t, slot, o1, m1), slot, o2, m2))
  {
    FirstGroup(t, slot, o1, m1, o2, m2, canPurge);
    var r1 := Marked(t, slot, o1, m1);
    SecondDies(t, r1, slot, o1, m1, o2, m2, canPurge);
    SurvivorIsMarked(r1, slot, o2, m2, canPurge);
  }

  /** Two groups of reclaims of one storage can be handled in either order. */
  lemma GroupsCommute(t: Storage, slot: Slot, o1: set<Offset>, m1: Slot, o2: set<Offset>, m2: Slot, canPurge: bool)
    requires Reclaim.CanMark(t, slot, o1, m1) && Reclaim.CanMark(t, slot, o2, m2)
    requires o1 !! o2
    ensures var r1 := HandleGroup(t, slot, o1, m1, canPurge);
            var r2 := HandleGroup(t, slot, o2, m2, canPurge);
            && r1.Some? && r2.Some?
            && HandleGroup(r1.value, slot, o2, m2, canPurge) == HandleGroup(r2.value, slot, o1, m1, canPurge)
  {
    TwoGroups(t, slot, o1, m1, o2, m2, canPurge);
    TwoGroups(t, slot, o2, m2, o1, m1, canPurge);
    BothKillEither(t, slot, o1, m1, o2, m2, canPurge);
    MarksCommute(t, slot, o1, m1, o2, m2);
  }

  lemma MarkAllMerges(obsolete: map<Offset, Slot>, o1: set<Offset>, o2: set<Offset>, mark: Slot)
    ensures MarkAll(MarkAll(obsolete, o1, mark), o2, mark) == MarkAll(obsolete, o1 + o2, mark)
  {
  }

  lemma MarksMerge(t: Storage, slot: Slot, o1: set<Offset>, o2: set<Offset>, mark: Slot)
    requires o1 !! o2
    ensures Marked(Marked(t, slot, o1, mark), slot, o2, mark) == Marked(t, slot, o1 + o2, mark)
  {
    if mark == slot {
      assert t.tombstones + o1 + o2 == t.tombstones + (o1 + o2);
    } else {
      MarkAllMerges(t.obsolete, o1, o2, mark);
      BytesAdd(t.records, o1, o2, |t.records|);
      assert |o1 + o2| == |o1| + |o2|;
    }
  }

  /** Handling the reclaims of a slot together, as flush does, or one after the other, as
      clean does, is the same. */
  lemma GroupsMerge(t: Storage, slot: Slot, o1: set<Offset>, o2: set<Offset>, mark: Slot, canPurge: bool)
    requires Reclaim.CanMark(t, slot, o1, mark) && Reclaim.CanMark(t, slot, o2, mark)
    requires o1 !! o2
    ensures var r1 := HandleGroup(t, slot, o1, mark, canPurge);
            && r1.Some?
            && HandleGroup(r1.value, slot, o2, mark, canPurge) == HandleGroup(t, slot, o1 + o2, mark, canPurge)
  {
    TwoGroups(t, slot, o1, mark, o2, mark, canPurge);
    MarksMerge(t, slot, o1, o2, mark);
    HandleGroupOk(t, slot, o1 + o2, mark, canPurge);
    SurvivorIsMarked(t, slot, o1 + o2, mark, canPurge);
  }

  lemma PendingCommutes(phase: Phase, s1: Slot, o1: set<Offset>, s2: Slot, o2: set<Offset>)
    ensures WithoutPending(WithoutPending(phase, s1, o1), s2, o2) == WithoutPending(WithoutPending(phase, s2, o2), s1, o1)
  {
    var h1 := set o: Offset | o in o1 :: (s1, o);
    var h2 := set o: Offset | o in o2 :: (s2, o);
    var p := PendingIn(phase);
    assert p - h1 - h2 == p - h2 - h1;
  }

  lemma StillDue(st: State, s1: Slot, o1: set<Offset>, m1: Slot, s2: Slot, o2: set<Offset>, m2: Slot)
    requires CanHandle(st, s1, o1, m1) && CanHandle(st, s2, o2, m2)
    requires s1 in st.storages && (s1 == s2 ==> o1 !! o2)
    ensures CanHandle(Handle(st, s1, o1, m1), s2, o2, m2)
  {
    Reclaim.HandlePending(st, s1, o1, m1);
  }

  /** What handling reclaims of `s1` and then of `s2` does to the storages. */
  function TwoPutBack(storages: StorageMap, s1: Slot, r1: Option<Storage>, s2: Slot, r2: Option<Storage>): StorageMap {
    PutBack(PutBack(storages, s1, r1), s2, r2)
  }

  lemma PutBackCommutes(storages: StorageMap, s1: Slot, r1: Option<Storage>, s2: Slot, r2: Option<Storage>)
    requires s1 != s2
    ensures TwoPutBack(storages, s1, r1, s2, r2) == TwoPutBack(storages, s2, r2, s1, r1)
  {
  }

  lemma HandleIs(st: State, s: Slot, offsets: set<Offset>, mark: Slot, r: Option<Storage>)
    requires CanHandle(st, s, offsets, mark) && s in st.storages
    requires r == HandleGroup(st.storages[s], s, offsets, mark, CanPurge(st, s))
    ensures Handle(st, s, offsets, mark) ==
            st.(phase := WithoutPending(st.phase, s, offsets),
                storages := PutBack(st.storages, s, r),
                candidates := if r.Some? then st.candidates else st.candidates - {s})
  {
  }

  /** The final state does not depend on the order in which reclaims are handled. */
  lemma HandlesCommute(st: State, s1: Slot, o1: set<Offset>, m1: Slot, s2: Slot, o2: set<Offset>, m2: Slot)
    requires Inv(st) && CanHandle(st, s1, o1, m1) && CanHandle(st, s2, o2, m2)
    requires s1 == s2 ==> o1 !! o2
    ensures s1 in st.storages && s2 in st.storages
    ensures CanHandle(Handle(st, s1, o1, m1), s2, o2, m2) && CanHandle(Handle(st, s2, o2, m2), s1, o1, m1)
    ensures Handle(Handle(st, s1, o1, m1), s2, o2, m2) == Handle(Handle(st, s2, o2, m2), s1, o1, m1)
  {
    Reclaim.HandleDue(st, s1, o1, m1);
    Reclaim.HandleDue(st, s2, o2, m2);
    StillDue(st, s1, o1, m1, s2, o2, m2);
    StillDue(st, s2, o2, m2, s1, o1, m1);
    PendingCommutes(st.phase, s1, o1, s2, o2);
    if s1 == s2 {
      SameSlotCommutes(st, s1, o1, m1, o2, m2);
    } else {
      OtherSlotCommutes(st, s1, o1, m1, s2, o2, m2);
    }
  }

  lemma OtherSlotCommutes(st: State, s1: Slot, o1: set<Offset>, m1: Slot, s2: Slot, o2: set<Offset>, m2: Slot)
    requires CanHandle(st, s1, o1, m1) && CanHandle(st, s2, o2, m2)
    requires s1 in st.storages && s2 in st.storages && s1 != s2
    requires CanHandle(Handle(st, s1, o1, m1), s2, o2, m2) && CanHandle(Handle(st, s2, o2, m2), s1, o1, m1)
    requires WithoutPending(WithoutPending(st.phase, s1, o1), s2, o2) == WithoutPending(WithoutPending(st.phase, s2, o2), s1, o1)
    ensures Handle(Handle(st, s1, o1, m1), s2, o2, m2) == Handle(Handle(st, s2, o2, m2), s1, o1, m1)
  {
    var r1 := HandleGroup(st.storages[s1], s1, o1, m1, CanPurge(st, s1));
    var r2 := HandleGroup(st.storages[s2], s2, o2, m2, CanPurge(st, s2));
    HandleIs(st, s1, o1, m1, r1);
    HandleIs(st, s2, o2, m2, r2);
    HandleIs(Handle(st, s1, o1, m1), s2, o2, m2, r2);
    HandleIs(Handle(st, s2, o2, m2), s1, o1, m1, r1);
    PutBackCommutes(st.storages, s1, r1, s2, r2);
    assert st.candidates - {s1} - {s2} == st.candidates - {s2} - {s1};
  }

  lemma SameSlotCommutes(st: State, s: Slot, o1: set<Offset>, m1: Slot, o2: set<Offset>, m2: Slot)
    requires CanHandle(st, s, o1, m1) && CanHandle(st, s, o2, m2)
    requires s in st.storages && o1 !! o2
    requires Reclaim.CanMark(st.storages[s], s, o1, m1) && Reclaim.CanMark(st.storages[s], s, o2, m2)
    requires CanHandle(Handle(st, s, o1, m1), s, o2, m2) && CanHandle(Handle(st, s, o2, m2), s, o1, m1)
    requires WithoutPending(WithoutPending(st.phase, s, o1), s, o2) == WithoutPending(WithoutPending(st.phase, s, o2), s, o1)
    ensures Handle(Handle(st, s, o1, m1), s, o2, m2) == Handle(Handle(st, s, o2, m2), s, o1, m1)
  {
    var t, canPurge := st.storages[s], CanPurge(st, s);
    GroupsCommute(t, s, o1, m1, o2, m2, canPurge);
    var r1 := HandleGroup(t, s, o1, m1, canPurge).value;
    var r2 := HandleGroup(t, s, o2, m2, canPurge).value;
    SameSlotBy(st, s, o1, m1, o2, m2, r1, r2, HandleGroup(r1, s, o2, m2, canPurge));
  }

  lemma SameSlotBy(st: State, s: Slot, o1: set<Offset>, m1: Slot, o2: set<Offset>, m2: Slot,
                   r1: Storage, r2: Storage, r: Option<Storage>)
    requires CanHandle(st, s, o1, m1) && CanHandle(st, s, o2, m2) && s in st.storages
    requires CanHandle(Handle(st, s, o1, m1), s, o2, m2) && CanHandle(Handle(st, s, o2, m2), s, o1, m1)
    requires WithoutPending(WithoutPending(st.phase, s, o1), s, o2) == WithoutPending(WithoutPending(st.phase, s, o2), s, o1)
    requires HandleGroup(st.storages[s], s, o1, m1, CanPurge(st, s)) == Some(r1)
    requires HandleGroup(st.storages[s], s, o2, m2, CanPurge(st, s)) == Some(r2)
    requires HandleGroup(r1, s, o2, m2, CanPurge(st, s)) == r
    requires HandleGroup(r2, s, o1, m1, CanPurge(st, s)) == r
    ensures Handle(Handle(st, s, o1, m1), s, o2, m2) == Handle(Handle(st, s, o2, m2), s, o1, m1)
  {
    HandledTwice(st, s, o1, m1, o2, m2, r1, r);
    HandledTwice(st, s, o2, m2, o1, m1, r2, r);
  }

  /** Two groups of one slot, the first leaving `r1`: only what the second leaves remains. */
  lemma HandledTwice(st: State, s: Slot, o1: set<Offset>, m1: Slot, o2: set<Offset>, m2: Slot, r1: Storage, r: Option<Storage>)
    requires CanHandle(st, s, o1, m1) && s in st.storages
    requires HandleGroup(st.storages[s], s, o1, m1, CanPurge(st, s)) == Some(r1)
    requires CanHandle(Handle(st, s, o1, m1), s, o2, m2)
    requires HandleGroup(r1, s, o2, m2, CanPurge(st, s)) == r
    ensures Handle(Handle(st, s, o1, m1), s, o2, m2) ==
            st.(phase := WithoutPending(WithoutPending(st.phase, s, o1), s, o2),
                storages := PutBack(st.storages, s, r),
                candidates := if r.Some? then st.candidates else st.candidates - {s})
  {
    HandleIs(st, s, o1, m1, Some(r1));
    HandleIs(Handle(st, s, o1, m1), s, o2, m2, r);
    PutBackTwice(st.storages, s, r1, r);
  }

  lemma PutBackTwice(storages: StorageMap, s: Slot, r1: Storage, r: Option<Storage>)
    ensures PutBack(PutBack(storages, s, Some(r1)), s, r) == PutBack(storages, s, r)
  {
    assert storages[s := r1] - {s} == storages - {s};
  }

  // ---------------------------------------------------------------------------------------
  // Cleaned slots
  // ---------------------------------------------------------------------------------------

  /** In every reachable state a key has at most one entry at or below `max_cleaned_root`. */
  lemma CleanedOnce(st: State, k: Pubkey, s: Slot, t: Slot)
    requires Later(Next, Empty(), st)
    requires Has(st.index, k, s) && Has(st.index, k, t)
    requires s <= st.maxCleaned && t <= st.maxCleaned
    ensures s == t
  {
    ReachableInv(st);
  }

}
