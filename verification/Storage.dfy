/** One account storage as a value: the records of its file, in file order, and
    the accounting kept next to it. The offset of a record is its position.

    `HandleGroup` is what `remove_dead_accounts` does to a single storage. */
module Storages {
  import opened Types

  datatype Record = Record(pubkey: Pubkey, account: Account)

  const STORE_META_OVERHEAD := 136

  /** Bytes taken by an account with `dataLen` bytes of data, rounded up to 8. */
  function StoredSize(dataLen: nat): nat {
    (STORE_META_OVERHEAD + dataLen + 7) / 8 * 8
  }

  /** The least multiple of 8 that holds the account and what is stored beside it. */
  lemma StoredSizeIs(dataLen: nat, size: nat)
    ensures StoredSize(dataLen) % 8 == 0 && StoredSize(dataLen) >= STORE_META_OVERHEAD + dataLen
    ensures size % 8 == 0 && size >= STORE_META_OVERHEAD + dataLen ==> size >= StoredSize(dataLen)
  {
  }

  datatype Storage = Storage(
    id: StoreId,
    records: seq<Record>,
    aliveCount: int,
    aliveBytes: int,
    storedBytes: nat,
    tombstones: set<Offset>,
    obsolete: map<Offset, Slot>)

  /** Bytes of the records among the first `n` whose offset is in `offsets`. */
  function BytesUpTo(records: seq<Record>, offsets: set<Offset>, n: nat): nat
    requires n <= |records|
  {
    if n == 0 then 0
    else
      BytesUpTo(records, offsets, n - 1)
      + if n - 1 in offsets then StoredSize(records[n - 1].account.dataLen) else 0
  }

  function Bytes(records: seq<Record>, offsets: set<Offset>): nat {
    BytesUpTo(records, offsets, |records|)
  }

  function AllOffsets(records: seq<Record>): set<Offset> {
    Below(|records|)
  }

  lemma BytesAdd(records: seq<Record>, a: set<Offset>, b: set<Offset>, n: nat)
    requires n <= |records|
    requires a !! b
    ensures BytesUpTo(records, a + b, n) == BytesUpTo(records, a, n) + BytesUpTo(records, b, n)
  {
    if n > 0 {
      BytesAdd(records, a, b, n - 1);
    }
  }

  lemma BytesSubset(records: seq<Record>, a: set<Offset>, b: set<Offset>)
    requires a <= b
    ensures Bytes(records, a) <= Bytes(records, b)
    ensures Bytes(records, b - a) == Bytes(records, b) - Bytes(records, a)
  {
    BytesAdd(records, a, b - a, |records|);
    assert a + (b - a) == b;
  }

  lemma BytesOfEmpty(records: seq<Record>, n: nat)
    requires n <= |records|
    ensures BytesUpTo(records, {}, n) == 0
  {
    if n > 0 {
      BytesOfEmpty(records, n - 1);
    }
  }

  lemma OneMoreTime(n: nat, size: nat)
    ensures (n + 1) * size == n * size + size
  {
  }

  /** Equal-sized records weigh the same wherever they are. */
  lemma BytesUniform(records: seq<Record>, offsets: set<Offset>, dataLen: nat, n: nat)
    requires n <= |records|
    requires forall i :: i in offsets ==> i < n && records[i].account.dataLen == dataLen
    ensures BytesUpTo(records, offsets, n) == |offsets| * StoredSize(dataLen)
  {
    if n == 0 {
      assert offsets == {};
    } else if n - 1 in offsets {
      var rest := offsets - {n - 1};
      BytesUniform(records, rest, dataLen, n - 1);
      BytesIgnoreHigh(records, offsets, rest, n - 1);
      assert |offsets| == |rest| + 1;
      OneMoreTime(|rest|, StoredSize(dataLen));
    } else {
      BytesUniform(records, offsets, dataLen, n - 1);
    }
  }

  lemma BytesIgnoreHigh(records: seq<Record>, a: set<Offset>, b: set<Offset>, n: nat)
    requires n <= |records|
    requires forall i :: 0 <= i < n ==> (i in a <==> i in b)
    ensures BytesUpTo(records, a, n) == BytesUpTo(records, b, n)
  {
    if n > 0 {
      BytesIgnoreHigh(records, a, b, n - 1);
    }
  }

  predicate DistinctKeys(records: seq<Record>) {
    forall i, j :: 0 <= i < j < |records| ==> records[i].pubkey != records[j].pubkey
  }

  /** The account of a pubkey occurs at most once, zero-lamport accounts carry no data. */
  predicate RecordsOk(records: seq<Record>) {
    && DistinctKeys(records)
    && (forall i :: 0 <= i < |records| && IsZero(records[i].account) ==>
          records[i].account.dataLen == 0)
  }

  function KeysOf(records: seq<Record>): (s: set<Pubkey>) {
    set i | 0 <= i < |records| :: records[i].pubkey
  }

  /** Offsets neither obsolete nor a tombstone. */
  function AliveOffsets(t: Storage): set<Offset> {
    AllOffsets(t.records) - t.obsolete.Keys - t.tombstones
  }

  /** Tombstones and obsolete marks name records of the file, never the same one twice. */
  ghost predicate MarksOk(t: Storage) {
    && t.tombstones <= AllOffsets(t.records)
    && t.obsolete.Keys <= AllOffsets(t.records)
    && t.tombstones !! t.obsolete.Keys
    && (forall i :: i in t.tombstones ==> IsZero(t.records[i].account))
  }

  /** The three counters are exact. */
  ghost predicate BooksOk(t: Storage) {
    && t.aliveCount + |t.obsolete.Keys| == |t.records|
    && t.storedBytes == Bytes(t.records, AllOffsets(t.records))
    && t.aliveBytes + Bytes(t.records, t.obsolete.Keys) == t.storedBytes
  }

  ghost predicate StorageOk(t: Storage) {
    RecordsOk(t.records) && MarksOk(t) && BooksOk(t)
  }

  /** A storage just written with `records`, nothing of it dead. */
  function NewStorage(id: StoreId, records: seq<Record>): Storage {
    var bytes := Bytes(records, AllOffsets(records));
    Storage(id, records, |records|, bytes, bytes, {}, map[])
  }

  lemma NewStorageOk(id: StoreId, records: seq<Record>)
    requires RecordsOk(records)
    ensures StorageOk(NewStorage(id, records))
    ensures AliveOffsets(NewStorage(id, records)) == AllOffsets(records)
  {
    BytesOfEmpty(records, |records|);
  }

  /** Append tombstone records to a storage, as `store_tombstones` does. */
  function WithTombstones(t: Storage, tombs: seq<Record>): Storage {
    var records := t.records + tombs;
    var added := Below(|records|) - Below(|t.records|);
    t.(records := records,
       aliveCount := t.aliveCount + |tombs|,
       aliveBytes := t.aliveBytes + Bytes(records, added),
       storedBytes := t.storedBytes + Bytes(records, added),
       tombstones := t.tombstones + added)
  }

  lemma BytesPrefix(records: seq<Record>, more: seq<Record>, offsets: set<Offset>, n: nat)
    requires n <= |records|
    ensures BytesUpTo(records + more, offsets, n) == BytesUpTo(records, offsets, n)
  {
    if n > 0 {
      BytesPrefix(records, more, offsets, n - 1);
    }
  }

  lemma BytesBeyond(records: seq<Record>, offsets: set<Offset>, m: nat, n: nat)
    requires m <= n <= |records|
    requires forall i :: i in offsets ==> i < m
    ensures BytesUpTo(records, offsets, n) == BytesUpTo(records, offsets, m)
  {
    if n > m {
      BytesBeyond(records, offsets, m, n - 1);
    }
  }

  lemma BytesOfPrefix(records: seq<Record>, more: seq<Record>, offsets: set<Offset>)
    requires offsets <= AllOffsets(records)
    ensures Bytes(records + more, offsets) == Bytes(records, offsets)
  {
    BytesBeyond(records + more, offsets, |records|, |records + more|);
    BytesPrefix(records, more, offsets, |records|);
  }

  lemma AppendedBooks(t: Storage, tombs: seq<Record>)
    requires MarksOk(t) && BooksOk(t)
    ensures BooksOk(WithTombstones(t, tombs))
  {
    var records := t.records + tombs;
    var all := AllOffsets(t.records);
    var added := Below(|records|) - Below(|t.records|);
    assert AllOffsets(records) == all + added;
    BytesOfPrefix(t.records, tombs, all);
    BytesOfPrefix(t.records, tombs, t.obsolete.Keys);
    BytesAdd(records, all, added, |records|);
  }

  lemma AppendedMarks(t: Storage, tombs: seq<Record>)
    requires MarksOk(t)
    requires forall i :: 0 <= i < |tombs| ==> IsZero(tombs[i].account)
    ensures MarksOk(WithTombstones(t, tombs))
    ensures AliveOffsets(WithTombstones(t, tombs)) == AliveOffsets(t)
  {
    var r := WithTombstones(t, tombs);
    forall i | i in r.tombstones
      ensures IsZero(r.records[i].account)
    {
      assert i < |t.records| || r.records[i] == tombs[i - |t.records|];
    }
  }

  lemma WithTombstonesOk(t: Storage, tombs: seq<Record>)
    requires StorageOk(t)
    requires RecordsOk(t.records + tombs)
    requires forall i :: 0 <= i < |tombs| ==> IsZero(tombs[i].account)
    ensures StorageOk(WithTombstones(t, tombs))
    ensures AliveOffsets(WithTombstones(t, tombs)) == AliveOffsets(t)
  {
    AppendedBooks(t, tombs);
    AppendedMarks(t, tombs);
  }

  /** `remove_accounts`. Its assertion, that no more is removed than is alive, is `ReclaimsFit`. */
  function RemoveAccounts(t: Storage, bytes: int, count: nat): Storage {
    t.(aliveCount := t.aliveCount - count, aliveBytes := t.aliveBytes - bytes)
  }

  /** The storage after the reclaims at `offsets` are recorded with mark `mark`. A reclaim
      marked with the storage's own slot becomes a tombstone. */
  function RecordReclaims(t: Storage, slot: Slot, offsets: set<Offset>, mark: Slot): Storage {
    if mark == slot then
      t.(tombstones := t.tombstones + offsets)
    else if |offsets| == t.aliveCount then
      RemoveAccounts(t, t.aliveBytes, |offsets|)
    else
      RemoveAccounts(t, Bytes(t.records, offsets), |offsets|)
        .(obsolete := map o | o in t.obsolete.Keys + offsets ::
                        if o in offsets then mark else t.obsolete[o])
  }

  predicate IsDead(t: Storage, canPurge: bool) {
    t.aliveCount == 0 || (t.aliveCount == |t.tombstones| && canPurge)
  }

  /** What is left of a storage after recording the reclaims at `offsets`; `None` when the
      whole slot is dead and its storage is dropped. */
  function HandleGroup(t: Storage, slot: Slot, offsets: set<Offset>, mark: Slot, canPurge: bool)
    : Option<Storage>
  {
    var t' := RecordReclaims(t, slot, offsets, mark);
    if IsDead(t', canPurge) then None else Some(t')
  }

  /** Reclaims never ask for more than is alive: the assertion in `remove_accounts` holds. */
  lemma ReclaimsFit(t: Storage, offsets: set<Offset>)
    requires StorageOk(t)
    requires offsets <= AliveOffsets(t)
    ensures |offsets| + |t.tombstones| <= t.aliveCount
    ensures |offsets| + |t.tombstones| == t.aliveCount ==> offsets == AliveOffsets(t)
    ensures Bytes(t.records, offsets) <= t.aliveBytes
    ensures |offsets| == t.aliveCount ==> Bytes(t.records, offsets) == t.aliveBytes
  {
    var all := AllOffsets(t.records);
    var dead := t.obsolete.Keys + t.tombstones;
    assert |dead| == |t.obsolete.Keys| + |t.tombstones|;
    var used := dead + offsets;
    assert |used| == |dead| + |offsets|;
    SubsetSize(used, all);
    if |offsets| + |t.tombstones| == t.aliveCount {
      assert used == all;
    }
    BytesSubset(t.records, t.obsolete.Keys, all);
    BytesSubset(t.records, offsets, all - t.obsolete.Keys);
    if |offsets| == t.aliveCount {
      assert t.tombstones == {};
      assert offsets == all - t.obsolete.Keys;
    }
  }

  /** What `HandleGroup` promises about a storage that survives with value `r`. */
  ghost predicate Reclaimed(t: Storage, offsets: set<Offset>, tombstone: bool, mark: Slot, r: Storage) {
    && StorageOk(r)
    && r.id == t.id
    && r.records == t.records
    && AliveOffsets(r) == AliveOffsets(t) - offsets
    && r.tombstones == (if tombstone then t.tombstones + offsets else t.tombstones)
    && r.obsolete.Keys == (if tombstone then t.obsolete.Keys else t.obsolete.Keys + offsets)
    && (forall o :: o in t.obsolete ==> r.obsolete[o] == t.obsolete[o])
    && (!tombstone ==> forall o :: o in offsets ==> r.obsolete[o] == mark)
  }

  lemma TombstoneBooks(t: Storage, offsets: set<Offset>)
    requires StorageOk(t)
    requires offsets <= AliveOffsets(t)
    requires forall i :: i in offsets ==> IsZero(t.records[i].account)
    ensures Reclaimed(t, offsets, true, 0, t.(tombstones := t.tombstones + offsets))
  {
    assert AliveOffsets(t.(tombstones := t.tombstones + offsets)) == AliveOffsets(t) - offsets;
  }

  lemma TombstonesDie(t: Storage, slot: Slot, offsets: set<Offset>, canPurge: bool)
    requires StorageOk(t)
    requires offsets <= AliveOffsets(t) && offsets != {}
    ensures HandleGroup(t, slot, offsets, slot, canPurge) ==
            if AliveOffsets(t) == offsets && canPurge then None else Some(t.(tombstones := t.tombstones + offsets))
  {
    AliveSize(t);
    SubsetSize(offsets, AliveOffsets(t));
    assert |t.tombstones + offsets| == |t.tombstones| + |offsets|;
  }

  /** Reclaims marked with the storage's own slot. */
  lemma TombstonesRecorded(t: Storage, slot: Slot, offsets: set<Offset>, canPurge: bool)
    requires StorageOk(t)
    requires offsets <= AliveOffsets(t) && offsets != {}
    requires forall i :: i in offsets ==> IsZero(t.records[i].account)
    ensures var r := HandleGroup(t, slot, offsets, slot, canPurge);
            && (r.None? <==> AliveOffsets(t) == offsets && canPurge)
            && (r.Some? ==> Reclaimed(t, offsets, true, 0, r.value))
  {
    TombstonesDie(t, slot, offsets, canPurge);
    TombstoneBooks(t, offsets);
  }

  lemma ObsoleteBooks(t: Storage, slot: Slot, offsets: set<Offset>, mark: Slot)
    requires StorageOk(t)
    requires offsets <= AliveOffsets(t)
    requires mark != slot && |offsets| != t.aliveCount
    ensures Reclaimed(t, offsets, false, mark, RecordReclaims(t, slot, offsets, mark))
  {
    var t' := RecordReclaims(t, slot, offsets, mark);
    BytesAdd(t.records, t.obsolete.Keys, offsets, |t.records|);
    assert t'.obsolete.Keys == t.obsolete.Keys + offsets;
    assert |t'.obsolete.Keys| == |t.obsolete.Keys| + |offsets|;
    assert AliveOffsets(t') == AliveOffsets(t) - offsets;
  }

  lemma ObsoleteDie(t: Storage, slot: Slot, offsets: set<Offset>, mark: Slot, canPurge: bool)
    requires StorageOk(t)
    requires offsets <= AliveOffsets(t) && offsets != {}
    requires mark != slot
    ensures HandleGroup(t, slot, offsets, mark, canPurge) ==
            if AliveOffsets(t) == offsets && (t.tombstones == {} || canPurge) then None
            else Some(RecordReclaims(t, slot, offsets, mark))
    ensures |offsets| == t.aliveCount ==> AliveOffsets(t) == offsets && t.tombstones == {}
  {
    AliveSize(t);
    SubsetSize(offsets, AliveOffsets(t));
  }

  /** Reclaims marked with a newer slot. */
  lemma ObsoleteRecorded(t: Storage, slot: Slot, offsets: set<Offset>, mark: Slot, canPurge: bool)
    requires StorageOk(t)
    requires offsets <= AliveOffsets(t) && offsets != {}
    requires mark != slot
    ensures var r := HandleGroup(t, slot, offsets, mark, canPurge);
            && (r.None? <==> AliveOffsets(t) == offsets && (t.tombstones == {} || canPurge))
            && (r.Some? ==> Reclaimed(t, offsets, false, mark, r.value))
  {
    ObsoleteDie(t, slot, offsets, mark, canPurge);
    if |offsets| != t.aliveCount {
      ObsoleteBooks(t, slot, offsets, mark);
    }
  }

  /** A surviving storage keeps exact books, the reclaimed offsets are no longer alive and
      nothing else changes; a storage is dropped exactly when nothing but purgeable
      tombstones is left in it. */
  lemma HandleGroupOk(t: Storage, slot: Slot, offsets: set<Offset>, mark: Slot, canPurge: bool)
    requires StorageOk(t)
    requires offsets <= AliveOffsets(t) && offsets != {}
    requires mark == slot ==> forall i :: i in offsets ==> IsZero(t.records[i].account)
    ensures var r := HandleGroup(t, slot, offsets, mark, canPurge);
            && (r.None? <==> AliveOffsets(t) == offsets
                             && (canPurge || (mark != slot && t.tombstones == {})))
            && (r.Some? ==> Reclaimed(t, offsets, mark == slot, mark, r.value))
  {
    if mark == slot {
      TombstonesRecorded(t, slot, offsets, canPurge);
    } else {
      ObsoleteRecorded(t, slot, offsets, mark, canPurge);
    }
  }

  lemma DisjointSize<T>(all: set<T>, a: set<T>, b: set<T>)
    requires a <= all && b <= all && a !! b
    ensures |all| == |all - a - b| + |a| + |b|
  {
    var rest := all - a - b;
    assert |rest + a| == |rest| + |a|;
    assert |rest + a + b| == |rest + a| + |b|;
    assert rest + a + b == all;
  }

  /** Alive records are the live ones plus the tombstones. */
  lemma AliveSize(t: Storage)
    requires StorageOk(t)
    ensures t.aliveCount == |AliveOffsets(t)| + |t.tombstones|
  {
    DisjointSize(AllOffsets(t.records), t.obsolete.Keys, t.tombstones);
  }
}
