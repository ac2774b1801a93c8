/** A reachable store with a queued shrink candidate that the first full snapshot makes
    pointless: rewriting it then would not make it smaller. */
module FirstSnapshot {
  import opened Types
  import opened Storages
  import opened Store
  import opened Invariant
  import opened Machine
  import opened Runs
  import opened ShrinkSize
  import opened SnapshotRun

  ghost predicate Reached(st: State) {
    Later(Next, Empty(), st)
  }

  lemma ReachBy(st: State, step: Step, st': State)
    requires Reached(st) && Takes(st, step, st')
    ensures Reached(st')
  {
    OneMore(Next, Empty(), st, st');
  }

  lemma ReachWritten3()
    ensures Reached(Written3())
  {
    NoStep(Next, Empty());
    var st := StoreCached(Empty(), 3, 2, PAID);
    ReachBy(Empty(), Replays(Write(3, 2, PAID)), st);
    ReachBy(st, Replays(Root(3)), Written3());
  }

  lemma ReachFlushed3()
    ensures Reached(Flushed3())
  {
    ReachWritten3();
    Begin3();
    Index3();
    End3();
    ReachBy(Written3(), Flushes(FlushBegin(3, false, 0, {2}, [Record(2, PAID)])), Flushing3(map[], {2}, {2}));
    ReachBy(Flushing3(map[], {2}, {2}), Flushes(FlushIndex(0)), Flushing3(FIRST, {}, {2}));
    ReachBy(Flushing3(FIRST, {}, {2}), Flushes(FlushEvicted(2)), Flushing3(FIRST, {}, {}));
    ReachBy(Flushing3(FIRST, {}, {}), Flushes(FlushEnd), Flushed3());
  }

  lemma ReachWritten5()
    ensures Reached(Written5())
  {
    ReachFlushed3();
    Write5();
    var st1 := StoreCached(Flushed3(), 5, 1, PAID);
    var st2 := StoreCached(st1, 5, 2, DEFAULT_ACCOUNT);
    ReachBy(Flushed3(), Replays(Write(5, 1, PAID)), st1);
    ReachBy(st1, Replays(Write(5, 2, DEFAULT_ACCOUNT)), st2);
    ReachBy(st2, Replays(Root(5)), Written5());
  }

  lemma ReachIndexed5()
    ensures Reached(Flushing5(LAST, Stored(), {}, {1, 2}, RECLAIMS))
  {
    ReachWritten5();
    Begin5();
    IndexFirst5();
    IndexSecond5();
    var st1 := Flushing5(FIRST, Stored(), {1, 2}, {1, 2}, map[]);
    var st2 := Flushing5(BOTH, Stored(), {2}, {1, 2}, map[]);
    ReachBy(Written5(), Flushes(FlushBegin(5, true, 5, {1, 2}, RECORDS)), st1);
    ReachBy(st1, Flushes(FlushIndex(0)), st2);
    ReachBy(st2, Flushes(FlushIndex(1)), Flushing5(LAST, Stored(), {}, {1, 2}, RECLAIMS));
  }

  lemma ReachEvicted5()
    ensures Reached(Flushing5(LAST, Stored(), {}, {}, RECLAIMS))
  {
    ReachIndexed5();
    Evict5();
    var st1 := Flushing5(LAST, Stored(), {}, {1, 2}, RECLAIMS);
    var st2 := FlushEvict(st1, 1);
    ReachBy(st1, Flushes(FlushEvicted(1)), st2);
    ReachBy(st2, Flushes(FlushEvicted(2)), Flushing5(LAST, Stored(), {}, {}, RECLAIMS));
  }

  lemma ReachFlushed5()
    ensures Reached(Flushed5())
  {
    ReachEvicted5();
    HandleFirst5();
    HandleSecond5();
    End5();
    var st1 := Flushing5(LAST, Stored(), {}, {}, RECLAIMS);
    var st2 := Flushing5(LAST, map[5 := Newer()], {}, {}, RECLAIM);
    var st3 := Flushing5(LAST, map[5 := Shadowed()], {}, {}, map[]);
    ReachBy(st1, Cleans(HandleReclaims(3, {0}, 5)), st2);
    ReachBy(st2, Cleans(HandleReclaims(5, {1}, 5)), st3);
    ReachBy(st3, Flushes(FlushEnd), Flushed5());
  }

  /** Slot 5 is queued for shrinking. */
  function Candidate(): State {
    Queue(Flushed5(), 5)
  }

  lemma ReachCandidate()
    ensures Reached(Candidate()) && CandidatesOk(Candidate())
  {
    ReachFlushed5();
    WorthWhile();
    ReachBy(Flushed5(), Cleans(Enqueue(5)), Candidate());
  }

  /** Whatever lists a shrink collects, it would write as many bytes as there are. */
  lemma NothingSaved(alive: seq<Record>, carry: seq<Record>)
    requires Collected(Shadowed(), false, alive, carry)
    ensures RewriteBytes(alive, carry) >= Shadowed().storedBytes
  {
    ReachCandidate();
    ReachableInv(Candidate());
    assert StorageOk(Candidate().storages[5]);
    WorthWhile();
    PredictionExact(Shadowed(), false, alive, carry);
  }

  /** Shrinking slot `s` would not make its storage smaller. */
  ghost predicate Pointless(st: State, s: Slot)
    requires s in st.storages
  {
    forall alive, carry :: Collected(st.storages[s], CanPurge(st, s), alive, carry) ==>
      RewriteBytes(alive, carry) >= st.storages[s].storedBytes
  }

  /** The first full snapshot, of slot 3: the candidate is not worth it any more, and a shrink of
      it does what the source calls unexpected. */
  lemma FirstSnapshotSpoils()
    ensures Reached(Candidate()) && CandidatesOk(Candidate())
    ensures CanSetSnapshot(Candidate(), 3) && Reached(SetSnapshot(Candidate(), 3))
    ensures var st := SetSnapshot(Candidate(), 3);
            5 in st.candidates && 5 in st.storages && !CandidateOk(st, 5) && Pointless(st, 5)
  {
    ReachCandidate();
    ReachBy(Candidate(), Replays(Snapshot(3)), SetSnapshot(Candidate(), 3));
    WorthWhile();
    forall alive, carry | Collected(Shadowed(), false, alive, carry)
      ensures RewriteBytes(alive, carry) >= Shadowed().storedBytes
    {
      NothingSaved(alive, carry);
    }
  }
}
