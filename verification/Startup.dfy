/** Index generation at startup. One pass over all storages builds the index and adds up
    every record; a second pass takes out what newer records supersede. Whatever the order of
    the storages and their split over threads, the newest record of each key is counted once. */
module Startup {
  import opened Types
  import opened Storages
  import opened PrimaryIndex
  import opened Store
  import opened Restart
  import opened Rebuild
  import opened Sums

  /** What is added up: lamports, data length, or one lane of the accounts hash. */
  type Weight = Record -> int

  // ---------------------------------------------------------------------------------------
  // Sums over records
  // ---------------------------------------------------------------------------------------

  function OffsetWeight(t: Storage, w: Weight, i: Offset): int {
    if i < |t.records| then w(t.records[i]) else 0
  }

  ghost function StorageSum(t: Storage, w: Weight, offsets: set<Offset>): int {
    Sum(offsets, i => OffsetWeight(t, w, i))
  }

  type Place = (Slot, Offset)

  ghost function PlaceWeight(files: StorageMap, w: Weight): Place -> int {
    (p: Place) => if p.0 in files then OffsetWeight(files[p.0], w, p.1) else 0
  }

  ghost function PlacesAt(s: Slot, offsets: set<Offset>): set<Place> {
    set i | i in offsets :: (s, i)
  }

  /** All alive records in the storages of `slots`. */
  ghost function Places(files: StorageMap, slots: set<Slot>): set<Place> {
    set s, i | s in slots && s in files && i in AliveOffsets(files[s]) :: (s, i)
  }

  /** All alive records that a newer slot supersedes. */
  ghost function OlderPlaces(files: StorageMap): set<Place> {
    set s, i | s in files && i in Older(files, s) :: (s, i)
  }

  ghost function Total(files: StorageMap, w: Weight, slots: set<Slot>): int {
    Sum(Places(files, slots), PlaceWeight(files, w))
  }

  lemma PlacesAtSum(files: StorageMap, w: Weight, s: Slot, offsets: set<Offset>)
    requires s in files
    ensures Sum(PlacesAt(s, offsets), PlaceWeight(files, w)) == StorageSum(files[s], w, offsets)
  {
    forall p | p in PlacesAt(s, offsets)
      ensures exists i :: i in offsets && (s, i) == p
    {
      assert p.1 in offsets && (s, p.1) == p;
    }
    SumAlong(offsets, PlacesAt(s, offsets), (i: Offset) => (s, i), (i: Offset) => OffsetWeight(files[s], w, i), PlaceWeight(files, w));
    SumSame(offsets, (i: Offset) => OffsetWeight(files[s], w, i), i => OffsetWeight(files[s], w, i));
  }

  lemma PlacesGrow(files: StorageMap, w: Weight, slots: set<Slot>, s: Slot)
    requires s in files && s !in slots
    ensures Total(files, w, slots + {s}) ==
            Total(files, w, slots) + StorageSum(files[s], w, AliveOffsets(files[s]))
  {
    assert Places(files, slots + {s}) == Places(files, slots) + PlacesAt(s, AliveOffsets(files[s]));
    SumUnion(Places(files, slots), PlacesAt(s, AliveOffsets(files[s])), PlaceWeight(files, w));
    PlacesAtSum(files, w, s, AliveOffsets(files[s]));
  }

  // ---------------------------------------------------------------------------------------
  // Conservation
  // ---------------------------------------------------------------------------------------

  /** The newest record of `k`. */
  ghost function NewestRecord(files: StorageMap, k: Pubkey): Record
    requires SlotsWith(files, k) != {}
  {
    var t := files[Newest(SlotsWith(files, k))];
    t.records[OffsetOf(t, k)]
  }

  ghost function NewestPlace(files: StorageMap, k: Pubkey): Place {
    if SlotsWith(files, k) == {} then (0, 0)
    else (Newest(SlotsWith(files, k)), OffsetOf(files[Newest(SlotsWith(files, k))], k))
  }

  ghost function KeyWeight(files: StorageMap, w: Weight, k: Pubkey): int {
    if SlotsWith(files, k) == {} then 0 else w(NewestRecord(files, k))
  }

  lemma NewestPlaceKept(files: StorageMap, w: Weight, k: Pubkey)
    requires k in KeysIn(files)
    ensures NewestPlace(files, k) in Places(files, files.Keys) - OlderPlaces(files)
    ensures KeyWeight(files, w, k) == PlaceWeight(files, w)(NewestPlace(files, k))
    ensures var p := NewestPlace(files, k);
            p.0 in files && p.1 < |files[p.0].records| && files[p.0].records[p.1].pubkey == k
  {
    KeysInIff(files, k);
    NewestKept(files, k, Newest(SlotsWith(files, k)));
  }

  lemma OffsetOfIs(t: Storage, i: Offset)
    requires DistinctKeys(t.records) && i in AliveOffsets(t) && i < |t.records|
    ensures Holds(t, t.records[i].pubkey) && OffsetOf(t, t.records[i].pubkey) == i
  {
    var k := t.records[i].pubkey;
    assert AliveAt(t, i, k);
    var j := OffsetOf(t, k);
    assert AliveAt(t, j, k);
  }

  lemma KeptPlaceNewest(files: StorageMap, p: Place)
    requires forall s :: s in files ==> DistinctKeys(files[s].records)
    requires p in Places(files, files.Keys) - OlderPlaces(files)
    ensures p.0 in files && p.1 < |files[p.0].records|
    ensures var k := files[p.0].records[p.1].pubkey; k in KeysIn(files) && NewestPlace(files, k) == p
  {
    var s, i := p.0, p.1;
    assert i in Older(files, s) ==> (s, i) in OlderPlaces(files);
    KeptIsNewest(files, s, i);
    OffsetOfIs(files[s], i);
  }

  /** The alive records are the superseded ones and, one for each key, the newest ones. So the
      two passes of the startup give the right total in any commutative group, the lanes of the
      accounts hash included. */
  lemma PlacesSplit(files: StorageMap)
    requires forall s :: s in files ==> DistinctKeys(files[s].records)
    ensures OlderPlaces(files) <= Places(files, files.Keys)
    ensures forall k :: k in KeysIn(files) ==> NewestPlace(files, k) in Places(files, files.Keys) - OlderPlaces(files)
    ensures forall j, k :: j in KeysIn(files) && k in KeysIn(files) && NewestPlace(files, j) == NewestPlace(files, k) ==> j == k
    ensures forall p :: p in Places(files, files.Keys) - OlderPlaces(files) ==>
              exists k :: k in KeysIn(files) && NewestPlace(files, k) == p
  {
    var w: Weight := (r: Record) => 0;
    forall k | k in KeysIn(files)
      ensures NewestPlace(files, k) in Places(files, files.Keys) - OlderPlaces(files)
    {
      NewestPlaceKept(files, w, k);
    }
    forall j, k | j in KeysIn(files) && k in KeysIn(files) && NewestPlace(files, j) == NewestPlace(files, k)
      ensures j == k
    {
      NewestPlaceKept(files, w, j);
      NewestPlaceKept(files, w, k);
    }
    forall p | p in Places(files, files.Keys) - OlderPlaces(files)
      ensures exists k :: k in KeysIn(files) && NewestPlace(files, k) == p
    {
      KeptPlaceNewest(files, p);
    }
  }

  /** Everything minus what is superseded is the newest record of every key, once. */
  lemma Conservation(files: StorageMap, w: Weight)
    requires forall s :: s in files ==> DistinctKeys(files[s].records)
    ensures Total(files, w, files.Keys) - Sum(OlderPlaces(files), PlaceWeight(files, w))
            == Sum(KeysIn(files), k => KeyWeight(files, w, k))
  {
    var all, older := Places(files, files.Keys), OlderPlaces(files);
    PlacesSplit(files);
    SumMinus(all, older, PlaceWeight(files, w));
    forall k | k in KeysIn(files)
      ensures KeyWeight(files, w, k) == PlaceWeight(files, w)(NewestPlace(files, k))
    {
      NewestPlaceKept(files, w, k);
    }
    SumAlong(KeysIn(files), all - older, k => NewestPlace(files, k), k => KeyWeight(files, w, k), PlaceWeight(files, w));
  }

  // ---------------------------------------------------------------------------------------
  // First pass
  // ---------------------------------------------------------------------------------------

  /** The index lists exactly the alive records of `slots`. */
  ghost predicate Indexes(ix: Index, files: StorageMap, slots: set<Slot>) {
    && NoEmptyLists(ix)
    && (forall k: Pubkey, s: Slot :: Has(ix, k, s) <==> s in slots && s in files && Holds(files[s], k))
    && (forall k: Pubkey, s: Slot :: Has(ix, k, s) && s in files ==> EntryOf(files[s], k, At(ix, k, s)))
  }

  predicate EntryOf(t: Storage, k: Pubkey, info: Info) {
    AliveAt(t, info.offset, k) && info == Info(t.id, info.offset, IsZero(t.records[info.offset].account))
  }

  /** `k` has an alive record among the first `n` of `t`. */
  ghost predicate HoldsBefore(t: Storage, k: Pubkey, n: nat) {
    exists i: Offset :: i < n && AliveAt(t, i, k)
  }

  ghost predicate IndexedUpTo(ix: Index, ix': Index, s: Slot, t: Storage, n: nat) {
    && NoEmptyLists(ix')
    && (forall k: Pubkey, u: Slot :: u != s ==> (Has(ix', k, u) <==> Has(ix, k, u)))
    && (forall k: Pubkey, u: Slot :: u != s && Has(ix, k, u) && Has(ix', k, u) ==> At(ix', k, u) == At(ix, k, u))
    && (forall k: Pubkey :: Has(ix', k, s) <==> HoldsBefore(t, k, n))
    && (forall k: Pubkey :: Has(ix', k, s) ==> EntryOf(t, k, At(ix', k, s)))
  }

  ghost function AliveBefore(t: Storage, n: nat): set<Offset> {
    AliveOffsets(t) * Below(n)
  }

  lemma SkipOne(ix: Index, ix': Index, s: Slot, t: Storage, n: nat)
    requires IndexedUpTo(ix, ix', s, t, n) && n !in AliveOffsets(t)
    ensures IndexedUpTo(ix, ix', s, t, n + 1)
    ensures AliveBefore(t, n + 1) == AliveBefore(t, n)
  {
    forall k: Pubkey
      ensures HoldsBefore(t, k, n + 1) <==> HoldsBefore(t, k, n)
    {
      if HoldsBefore(t, k, n + 1) {
        var i: Offset :| i < n + 1 && AliveAt(t, i, k);
        assert i < n;
      }
    }
  }

  lemma HoldsOneMore(t: Storage, n: nat, k: Pubkey)
    requires n < |t.records| && n in AliveOffsets(t)
    ensures HoldsBefore(t, k, n + 1) <==> HoldsBefore(t, k, n) || k == t.records[n].pubkey
  {
    if k == t.records[n].pubkey {
      assert AliveAt(t, n, k);
    } else if HoldsBefore(t, k, n + 1) {
      var i: Offset :| i < n + 1 && AliveAt(t, i, k);
      assert i < n;
    }
    if HoldsBefore(t, k, n) {
      var i: Offset :| i < n && AliveAt(t, i, k);
      assert i < n + 1;
    }
  }

  lemma TakeOne(ix: Index, ix': Index, s: Slot, t: Storage, n: nat)
    requires IndexedUpTo(ix, ix', s, t, n) && n < |t.records| && n in AliveOffsets(t)
    ensures IndexedUpTo(ix, UpsertKeepOld(ix', t.records[n].pubkey, s, Info(t.id, n, IsZero(t.records[n].account))), s, t, n + 1)
  {
    var info := Info(t.id, n, IsZero(t.records[n].account));
    var ix'' := UpsertKeepOld(ix', t.records[n].pubkey, s, info);
    forall k: Pubkey
      ensures Has(ix'', k, s) <==> HoldsBefore(t, k, n + 1)
      ensures Has(ix'', k, s) ==> EntryOf(t, k, At(ix'', k, s))
    {
      HoldsOneMore(t, n, k);
    }
  }

  /** The check that an account is stored once per slot does not fail. */
  lemma OncePerSlot(ix: Index, ix': Index, s: Slot, t: Storage, n: nat)
    requires IndexedUpTo(ix, ix', s, t, n) && n < |t.records| && DistinctKeys(t.records)
    ensures !Has(ix', t.records[n].pubkey, s)
  {
  }

  lemma SumOneMore(t: Storage, w: Weight, n: nat)
    requires n < |t.records| && n in AliveOffsets(t)
    ensures StorageSum(t, w, AliveBefore(t, n + 1)) == StorageSum(t, w, AliveBefore(t, n)) + w(t.records[n])
  {
    assert AliveBefore(t, n + 1) - {n} == AliveBefore(t, n);
    SumPick(AliveBefore(t, n + 1), i => OffsetWeight(t, w, i), n);
  }

  /** The first `n` records, one after the other. */
  function ScanSum(t: Storage, w: Weight, n: nat): int
    requires n <= |t.records|
  {
    if n == 0 then 0 else ScanSum(t, w, n - 1) + if n - 1 in AliveOffsets(t) then w(t.records[n - 1]) else 0
  }

  lemma SumStep(t: Storage, w: Weight, n: nat)
    requires n < |t.records|
    ensures StorageSum(t, w, AliveBefore(t, n + 1)) ==
            StorageSum(t, w, AliveBefore(t, n)) + if n in AliveOffsets(t) then w(t.records[n]) else 0
  {
    if n in AliveOffsets(t) {
      SumOneMore(t, w, n);
    } else {
      assert AliveBefore(t, n + 1) == AliveBefore(t, n);
    }
  }

  lemma {:induction false} ScanSumIs(t: Storage, w: Weight, n: nat)
    requires n <= |t.records|
    ensures ScanSum(t, w, n) == StorageSum(t, w, AliveBefore(t, n))
  {
    if n == 0 {
      assert AliveBefore(t, 0) == {};
    } else {
      ScanSumIs(t, w, n - 1);
      SumStep(t, w, n - 1);
    }
  }

  lemma ScanAllIs(t: Storage, w: Weight)
    ensures ScanSum(t, w, |t.records|) == StorageSum(t, w, AliveOffsets(t))
  {
    ScanSumIs(t, w, |t.records|);
    assert AliveBefore(t, |t.records|) == AliveOffsets(t);
  }

  /** `generate_index_for_slot`: every record that is neither obsolete nor a tombstone is
      indexed and added up. */
  method IndexStorage(ix: Index, s: Slot, t: Storage, w: Weight) returns (ix': Index, total: int)
    requires NoEmptyLists(ix) && DistinctKeys(t.records)
    requires forall k: Pubkey :: !Has(ix, k, s)
    ensures IndexedUpTo(ix, ix', s, t, |t.records|)
    ensures total == StorageSum(t, w, AliveOffsets(t))
  {
    ix', total := ix, 0;
    for n := 0 to |t.records|
      invariant IndexedUpTo(ix, ix', s, t, n)
      invariant total == ScanSum(t, w, n)
    {
      if n in t.obsolete || n in t.tombstones {
        SkipOne(ix, ix', s, t, n);
      } else {
        OncePerSlot(ix, ix', s, t, n);
        TakeOne(ix, ix', s, t, n);
        ix' := UpsertKeepOld(ix', t.records[n].pubkey, s, Info(t.id, n, IsZero(t.records[n].account)));
        total := total + w(t.records[n]);
      }
    }
    ScanAllIs(t, w);
  }

  lemma StorageIndexed(ix: Index, ix': Index, files: StorageMap, slots: set<Slot>, s: Slot)
    requires s in files && s !in slots
    requires Indexes(ix, files, slots)
    requires IndexedUpTo(ix, ix', s, files[s], |files[s].records|)
    ensures Indexes(ix', files, slots + {s})
  {
    forall k: Pubkey
      ensures HoldsBefore(files[s], k, |files[s].records|) <==> Holds(files[s], k)
    {
      if Holds(files[s], k) {
        var i: Offset :| AliveAt(files[s], i, k);
        assert i < |files[s].records|;
      }
    }
  }

  lemma StillToDo(done: set<Slot>, part: set<Slot>, todo: set<Slot>, s: Slot)
    requires s in todo && todo <= part && done !! part
    ensures done + part - (todo - {s}) == (done + part - todo) + {s}
  {
  }

  /** One thread's share of the first pass, in any order. */
  method IndexPart(ix: Index, files: StorageMap, ghost done: set<Slot>, part: set<Slot>, w: Weight)
    returns (ix': Index, total: int)
    requires part <= files.Keys && done !! part
    requires forall s :: s in files ==> DistinctKeys(files[s].records)
    requires Indexes(ix, files, done)
    ensures Indexes(ix', files, done + part)
    ensures total == Total(files, w, done + part) - Total(files, w, done)
  {
    ix', total := ix, 0;
    var todo := part;
    assert done + part - todo == done;
    while todo != {}
      invariant todo <= part
      invariant Indexes(ix', files, done + part - todo)
      invariant total == Total(files, w, done + part - todo) - Total(files, w, done)
      decreases |todo|
    {
      var s :| s in todo;
      ghost var before := done + part - todo;
      StillToDo(done, part, todo, s);
      var next, sum := IndexStorage(ix', s, files[s], w);
      StorageIndexed(ix', next, files, before, s);
      PlacesGrow(files, w, before, s);
      ix', total, todo := next, total + sum, todo - {s};
    }
    assert done + part - todo == done + part;
  }

  ghost predicate PartsOf(parts: seq<set<Slot>>, slots: set<Slot>) {
    && (forall i, j :: 0 <= i < j < |parts| ==> parts[i] !! parts[j])
    && (forall s :: s in slots <==> exists i :: 0 <= i < |parts| && s in parts[i])
  }

  function UnionUpTo(parts: seq<set<Slot>>, n: nat): set<Slot>
    requires n <= |parts|
  {
    if n == 0 then {} else UnionUpTo(parts, n - 1) + parts[n - 1]
  }

  lemma UnionHas(parts: seq<set<Slot>>, n: nat, s: Slot)
    requires n <= |parts|
    ensures s in UnionUpTo(parts, n) <==> exists i :: 0 <= i < n && s in parts[i]
  {
  }

  lemma NextPart(parts: seq<set<Slot>>, slots: set<Slot>, n: nat)
    requires PartsOf(parts, slots) && n < |parts|
    ensures UnionUpTo(parts, n) !! parts[n] && parts[n] <= slots
  {
    forall s: Slot
      ensures s in UnionUpTo(parts, n) ==> s !in parts[n]
    {
      UnionHas(parts, n, s);
    }
  }

  lemma AllParts(parts: seq<set<Slot>>, slots: set<Slot>)
    requires PartsOf(parts, slots)
    ensures UnionUpTo(parts, |parts|) == slots
  {
    forall s: Slot
      ensures s in UnionUpTo(parts, |parts|) <==> s in slots
    {
      UnionHas(parts, |parts|, s);
    }
  }

  lemma NothingIndexed(files: StorageMap, w: Weight)
    ensures Indexes(map[], files, {})
    ensures Total(files, w, {}) == 0
  {
    assert Places(files, {}) == {};
  }

  /** The first pass of `generate_index`, split over threads. */
  method IndexAll(files: StorageMap, parts: seq<set<Slot>>, w: Weight) returns (ix: Index, total: int)
    requires PartsOf(parts, files.Keys)
    requires forall s :: s in files ==> DistinctKeys(files[s].records)
    ensures Indexes(ix, files, files.Keys)
    ensures total == Total(files, w, files.Keys)
  {
    ix, total := map[], 0;
    ghost var done: set<Slot> := {};
    NothingIndexed(files, w);
    for n := 0 to |parts|
      invariant done == UnionUpTo(parts, n)
      invariant Indexes(ix, files, done)
      invariant total == Total(files, w, done)
    {
      NextPart(parts, files.Keys, n);
      var sum;
      ix, sum := IndexPart(ix, files, done, parts[n], w);
      total, done := total + sum, done + parts[n];
    }
    AllParts(parts, files.Keys);
  }
}
