/** The steps of a run in which key 2 is written in slot 3 and deleted in slot 5, where key 1 is
    written too; both slots are flushed, the second with cleaning. Slot 5 ends up with one account
    and one tombstone, and nothing in it is marked obsolete. */
module SnapshotRun {
  import opened Types
  import opened Storages
  import opened PrimaryIndex
  import opened Store

  const PAID := Account(1, 0, 0)

  function Older(): Storage {
    NewStorage(0, [Record(2, PAID)])
  }

  const RECORDS := [Record(1, PAID), Record(2, DEFAULT_ACCOUNT)]

  function Newer(): Storage {
    NewStorage(1, RECORDS)
  }

  function Shadowed(): Storage {
    Newer().(tombstones := {1})
  }

  const FIRST: Index := map[2 := map[3 := Info(0, 0, false)]]
  const BOTH: Index := FIRST[1 := map[5 := Info(1, 0, false)]]
  const LAST: Index := map[1 := map[5 := Info(1, 0, false)]]

  /** A state in which nothing was read, shrunk, cleaned or snapshotted yet. */
  function Plain(cache: map<Slot, map<Pubkey, Account>>, roots: set<Slot>, unflushed: set<Slot>, index: Index,
                 storages: StorageMap, uncleaned: map<Slot, set<Pubkey>>, nextId: StoreId, phase: Phase): State {
    State(cache, roots, unflushed, map[], {}, index, storages, map[], uncleaned, 0, None, {}, multiset{}, nextId, phase)
  }

  // ---------------------------------------------------------------------------------------
  // Slot 3
  // ---------------------------------------------------------------------------------------

  function Written3(): State {
    Plain(map[3 := map[2 := PAID]], {3}, {3}, map[], map[], map[], 0, Idle)
  }

  function Flushing3(index: Index, todo: set<Pubkey>, evict: set<Pubkey>): State {
    Plain(map[3 := map[2 := PAID]], {3}, {3}, index, map[3 := Older()], map[], 1, Flushing(3, false, 0, {2}, todo, evict, map[]))
  }

  function Flushed3(): State {
    Plain(map[], {3}, {}, FIRST, map[3 := Older()], map[3 := {2}], 1, Idle)
  }

  lemma KeysOfOne(r: Record)
    ensures KeysOf([r]) == {r.pubkey}
  {
    assert [r][0] == r;
  }

  lemma KeysOfTwo(r1: Record, r2: Record)
    ensures KeysOf([r1, r2]) == {r1.pubkey, r2.pubkey}
  {
    assert [r1, r2][0] == r1 && [r1, r2][1] == r2;
  }

  lemma Begin3()
    ensures CanBeginFlush(Written3(), 3, false, 0, {2}, [Record(2, PAID)])
    ensures BeginFlush(Written3(), 3, false, 0, [Record(2, PAID)]) == Flushing3(map[], {2}, {2})
  {
    KeysOfOne(Record(2, PAID));
    assert ToStore(Written3(), 3, {2}) == {2};
    assert Lists(Written3(), 3, {2}, [Record(2, PAID)]);
  }

  lemma Index3()
    ensures CanFlushKey(Flushing3(map[], {2}, {2}), 0)
    ensures FlushKey(Flushing3(map[], {2}, {2}), 0) == Flushing3(FIRST, {}, {2})
  {
    assert UpsertKeepOld(map[], 2, 3, Info(0, 0, false)) == FIRST;
    assert Flushing3(map[], {2}, {2}).phase.todo - {2} == {};
  }

  lemma End3()
    ensures FlushEvict(Flushing3(FIRST, {}, {2}), 2) == Flushing3(FIRST, {}, {})
    ensures EndFlush(Flushing3(FIRST, {}, {})) == Flushed3()
  {
    var st := Flushing3(FIRST, {}, {2});
    assert st.phase.evict - {2} == {} && st.readCache - {2} == map[];
    assert st.cache - {3} == map[] && st.unflushed - {3} == {};
    assert map[][3 := {} + {2}] == map[3 := {2}];
  }

  // ---------------------------------------------------------------------------------------
  // Slot 5
  // ---------------------------------------------------------------------------------------

  function Written5(): State {
    Plain(map[5 := map[1 := PAID, 2 := DEFAULT_ACCOUNT]], {3, 5}, {5}, FIRST, map[3 := Older()], map[3 := {2}], 1, Idle)
  }

  function Flushing5(index: Index, storages: StorageMap, todo: set<Pubkey>, evict: set<Pubkey>, reclaims: Reclaims): State {
    Plain(map[5 := map[1 := PAID, 2 := DEFAULT_ACCOUNT]], {3, 5}, {5}, index, storages, map[3 := {2}], 2,
          Flushing(5, true, 5, {1, 2}, todo, evict, reclaims))
  }

  function Flushed5(): State {
    Plain(map[], {3, 5}, {}, LAST, map[5 := Shadowed()], map[3 := {2}], 2, Idle)
  }

  function Stored(): StorageMap {
    map[3 := Older(), 5 := Newer()]
  }

  const RECLAIMS: Reclaims := map[(3, 0) := 5, (5, 1) := 5]
  const RECLAIM: Reclaims := map[(5, 1) := 5]

  lemma Write5()
    ensures AddRoot(StoreCached(StoreCached(Flushed3(), 5, 1, PAID), 5, 2, DEFAULT_ACCOUNT), 5) == Written5()
  {
  }

  lemma Begin5()
    ensures CanBeginFlush(Written5(), 5, true, 5, {1, 2}, RECORDS)
    ensures BeginFlush(Written5(), 5, true, 5, RECORDS) == Flushing5(FIRST, Stored(), {1, 2}, {1, 2}, map[])
  {
    KeysOfTwo(RECORDS[0], RECORDS[1]);
    assert ToStore(Written5(), 5, {1, 2}) == {1, 2};
    assert Lists(Written5(), 5, {1, 2}, RECORDS);
  }

  lemma EnterFirst5()
    ensures UpsertReclaimOld(FIRST, 1, 5, Info(1, 0, false)) == BOTH
    ensures TakenOut(FIRST, BOTH, 1, (_: Slot) => 5) == map[]
  {
  }

  lemma EnterSecond5()
    ensures Delete(BOTH, 2) == LAST
    ensures TakenOut(BOTH, LAST, 2, (_: Slot) => 5) == map[(3, 0) := 5]
  {
    assert Has(BOTH, 2, 3) && !Has(LAST, 2, 3) && At(BOTH, 2, 3).offset == 0;
  }

  lemma IndexFirst5()
    ensures CanFlushKey(Flushing5(FIRST, Stored(), {1, 2}, {1, 2}, map[]), 0)
    ensures FlushKey(Flushing5(FIRST, Stored(), {1, 2}, {1, 2}, map[]), 0) == Flushing5(BOTH, Stored(), {2}, {1, 2}, map[])
  {
    var st := Flushing5(FIRST, Stored(), {1, 2}, {1, 2}, map[]);
    EnterFirst5();
    assert st.phase.todo - {1} == {2};
    assert st.phase.reclaims + map[] == map[];
  }

  lemma IndexSecond5()
    ensures CanFlushKey(Flushing5(BOTH, Stored(), {2}, {1, 2}, map[]), 1)
    ensures FlushKey(Flushing5(BOTH, Stored(), {2}, {1, 2}, map[]), 1) == Flushing5(LAST, Stored(), {}, {1, 2}, RECLAIMS)
  {
    var st := Flushing5(BOTH, Stored(), {2}, {1, 2}, map[]);
    EnterSecond5();
    assert st.phase.todo - {2} == {};
    assert st.phase.reclaims + map[(3, 0) := 5][(5, 1) := 5] == RECLAIMS;
  }

  lemma Evict5()
    ensures FlushEvict(FlushEvict(Flushing5(LAST, Stored(), {}, {1, 2}, RECLAIMS), 1), 2) == Flushing5(LAST, Stored(), {}, {}, RECLAIMS)
  {
    var st := Flushing5(LAST, Stored(), {}, {1, 2}, RECLAIMS);
    assert st.phase.evict - {1} - {2} == {} && st.readCache - {1} - {2} == map[];
  }

  /** The superseded version was all that slot 3 held. */
  lemma HandleFirst5()
    ensures CanHandle(Flushing5(LAST, Stored(), {}, {}, RECLAIMS), 3, {0}, 5)
    ensures Handle(Flushing5(LAST, Stored(), {}, {}, RECLAIMS), 3, {0}, 5) == Flushing5(LAST, map[5 := Newer()], {}, {}, RECLAIM)
  {
    var st := Flushing5(LAST, Stored(), {}, {}, RECLAIMS);
    assert HandleGroup(Older(), 3, {0}, 5, true) == None;
    assert WithoutPending(st.phase, 3, {0}) == Flushing(5, true, 5, {1, 2}, {}, {}, RECLAIM);
    assert Stored() - {3} == map[5 := Newer()];
  }

  /** The deletion becomes a tombstone. */
  lemma HandleSecond5()
    ensures CanHandle(Flushing5(LAST, map[5 := Newer()], {}, {}, RECLAIM), 5, {1}, 5)
    ensures Handle(Flushing5(LAST, map[5 := Newer()], {}, {}, RECLAIM), 5, {1}, 5)
            == Flushing5(LAST, map[5 := Shadowed()], {}, {}, map[])
  {
    var st := Flushing5(LAST, map[5 := Newer()], {}, {}, RECLAIM);
    assert Newer().tombstones + {1} == {1};
    assert HandleGroup(Newer(), 5, {1}, 5, true) == Some(Shadowed());
    assert WithoutPending(st.phase, 5, {1}) == Flushing(5, true, 5, {1, 2}, {}, {}, map[]);
  }

  lemma End5()
    ensures EndFlush(Flushing5(LAST, map[5 := Shadowed()], {}, {}, map[])) == Flushed5()
  {
  }

  // ---------------------------------------------------------------------------------------
  // Worth shrinking, and not any more
  // ---------------------------------------------------------------------------------------

  lemma NewerBytes()
    ensures StoredSize(0) == 136 && Bytes(RECORDS, AllOffsets(RECORDS)) == 272
  {
    BytesUniform(RECORDS, AllOffsets(RECORDS), 0, 2);
  }

  lemma WorthWhile()
    ensures Productive(Shadowed(), true) && !Productive(Shadowed(), false)
  {
    NewerBytes();
    assert |Shadowed().tombstones| == 1;
  }
}
