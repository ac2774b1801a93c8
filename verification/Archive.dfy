/** Writing a storage to a snapshot archive: one scan over the file, skipping the records on a
    descending list of excluded offsets by popping it. */
module Archive {
  import opened Types
  import opened Storages
  import opened Store
  import opened Restart

  /** A record and where it is in its file. */
  datatype Entry = Entry(offset: Offset, record: Record)

  datatype ArchiveError = ExceedsArchiveSize | IncompleteScan

  datatype Outcome = Written | Failed(error: ArchiveError)

  // ---------------------------------------------------------------------------------------
  // Specification
  // ---------------------------------------------------------------------------------------

  /** The records whose offset is not excluded, in file order. */
  function Kept(file: seq<Entry>, excluded: set<Offset>): seq<Record> {
    if file == [] then []
    else (if file[0].offset in excluded then [] else [file[0].record]) + Kept(file[1..], excluded)
  }

  function Size(records: seq<Record>): nat {
    if records == [] then 0 else StoredSize(records[0].account.dataLen) + Size(records[1..])
  }

  ghost predicate AscendingOffsets(file: seq<Entry>) {
    forall i, j :: 0 <= i < j < |file| ==> file[i].offset < file[j].offset
  }

  ghost predicate Descending(s: seq<Offset>) {
    forall i, j :: 0 <= i < j < |s| ==> s[i] > s[j]
  }

  ghost predicate Occurs(file: seq<Entry>, o: Offset) {
    exists i :: 0 <= i < |file| && file[i].offset == o
  }

  function Offsets(s: seq<Offset>): set<Offset> {
    set o | o in s
  }

  lemma SizeAdd(a: seq<Record>, b: seq<Record>)
    ensures Size(a + b) == Size(a) + Size(b)
  {
    if a == [] {
      assert a + b == b;
    } else {
      assert (a + b)[1..] == a[1..] + b;
      SizeAdd(a[1..], b);
    }
  }

  /** Excluding an offset that does not occur changes nothing. */
  lemma KeptIgnores(file: seq<Entry>, excluded: set<Offset>, o: Offset)
    requires forall i :: 0 <= i < |file| ==> file[i].offset != o
    ensures Kept(file, excluded) == Kept(file, excluded - {o})
  {
    if file != [] {
      KeptIgnores(file[1..], excluded, o);
    }
  }

  // ---------------------------------------------------------------------------------------
  // The scan
  // ---------------------------------------------------------------------------------------

  /** Between two records: the excluded offsets still on the list are ahead in the file. */
  ghost predicate Ahead(file: seq<Entry>, stack: seq<Offset>) {
    && AscendingOffsets(file) && Descending(stack)
    && forall o :: o in stack ==> Occurs(file, o)
  }

  lemma TailOf(file: seq<Entry>)
    requires file != [] && AscendingOffsets(file)
    ensures AscendingOffsets(file[1..])
    ensures forall i :: 0 <= i < |file[1..]| ==> file[0].offset < file[1..][i].offset
  {
  }

  /** The next record is excluded exactly if it is the last on the list. */
  lemma ExcludedIsLast(file: seq<Entry>, stack: seq<Offset>)
    requires Ahead(file, stack) && file != []
    ensures file[0].offset in stack <==> stack != [] && stack[|stack| - 1] == file[0].offset
  {
    if stack != [] && file[0].offset in stack {
      var last := stack[|stack| - 1];
      assert Occurs(file, last);
      var i :| 0 <= i < |stack| && stack[i] == file[0].offset;
      var j :| 0 <= j < |file| && file[j].offset == last;
    }
  }

  /** The list and the size fit the rest of the file. */
  ghost predicate Fits(file: seq<Entry>, stack: seq<Offset>, remaining: nat) {
    Ahead(file, stack) && remaining == Size(Kept(file, Offsets(stack)))
  }

  lemma PoppedKept(file: seq<Entry>, stack: seq<Offset>)
    requires AscendingOffsets(file) && file != [] && stack != [] && stack[|stack| - 1] == file[0].offset
    requires Ahead(file[1..], stack[..|stack| - 1])
    ensures Kept(file, Offsets(stack)) == Kept(file[1..], Offsets(stack[..|stack| - 1]))
  {
    TailOf(file);
    var rest := stack[..|stack| - 1];
    assert Offsets(stack) == Offsets(rest) + {file[0].offset};
    KeptIgnores(file[1..], Offsets(stack), file[0].offset);
    KeptIgnores(file[1..], Offsets(rest), file[0].offset);
    assert Offsets(stack) - {file[0].offset} == Offsets(rest) - {file[0].offset};
  }

  lemma PoppedAhead(file: seq<Entry>, stack: seq<Offset>)
    requires AscendingOffsets(file) && file != [] && stack != [] && stack[|stack| - 1] == file[0].offset
    ensures Ahead(file, stack) <==> Ahead(file[1..], stack[..|stack| - 1])
  {
    TailOf(file);
    var rest := stack[..|stack| - 1];
    if Ahead(file, stack) {
      forall o | o in rest
        ensures Occurs(file[1..], o)
      {
        assert o in stack && Occurs(file, o);
        var i :| 0 <= i < |file| && file[i].offset == o;
        assert file[1..][i - 1].offset == o;
      }
    }
    if Ahead(file[1..], rest) {
      forall o | o in rest
        ensures file[0].offset < o && Occurs(file, o)
      {
        assert Occurs(file[1..], o);
        var i :| 0 <= i < |file[1..]| && file[1..][i].offset == o;
        assert file[i + 1].offset == o;
      }
      assert Occurs(file, file[0].offset);
      forall i, j | 0 <= i < j < |stack|
        ensures stack[i] > stack[j]
      {
        assert stack[i] == rest[i] && rest[i] in rest;
      }
    }
  }

  lemma PassedAhead(file: seq<Entry>, stack: seq<Offset>)
    requires AscendingOffsets(file) && file != []
    requires stack == [] || stack[|stack| - 1] != file[0].offset
    ensures Ahead(file, stack) <==> Ahead(file[1..], stack)
    ensures Ahead(file, stack) ==> file[0].offset !in stack
  {
    TailOf(file);
    if Ahead(file, stack) {
      ExcludedIsLast(file, stack);
      forall o | o in stack
        ensures Occurs(file[1..], o)
      {
        var i :| 0 <= i < |file| && file[i].offset == o;
        assert file[1..][i - 1].offset == o;
      }
    }
    if Ahead(file[1..], stack) {
      forall o | o in stack
        ensures Occurs(file, o)
      {
        var i :| 0 <= i < |file[1..]| && file[1..][i].offset == o;
        assert file[i + 1].offset == o;
      }
    }
  }

  lemma HasMember(s: seq<Offset>)
    requires s != []
    ensures exists o :: o in s
  {
    assert s[0] in s;
  }

  lemma NothingAhead(stack: seq<Offset>)
    requires Ahead([], stack)
    ensures stack == []
  {
    if stack != [] {
      HasMember(stack);
    }
  }

  /** Where the scan stands: whether the list is good shows in what is left of it, and if it is,
      output and rest make up the `target`. Nothing of the size is lost. */
  ghost predicate Scanning(good: bool, target: seq<Record>, len: nat, rest: seq<Entry>, stack: seq<Offset>, remaining: nat, output: seq<Record>) {
    && (good <==> Ahead(rest, stack))
    && (good ==> output + Kept(rest, Offsets(stack)) == target)
    && Size(output) + remaining == len
  }

  lemma ScanPops(good: bool, target: seq<Record>, len: nat, rest: seq<Entry>, stack: seq<Offset>, remaining: nat, output: seq<Record>)
    requires AscendingOffsets(rest) && rest != [] && stack != [] && stack[|stack| - 1] == rest[0].offset
    requires Scanning(good, target, len, rest, stack, remaining, output)
    ensures Scanning(good, target, len, rest[1..], stack[..|stack| - 1], remaining, output)
  {
    PoppedAhead(rest, stack);
    if good {
      PoppedKept(rest, stack);
    }
  }

  lemma ScanPasses(good: bool, target: seq<Record>, len: nat, rest: seq<Entry>, stack: seq<Offset>, remaining: nat, output: seq<Record>)
    requires AscendingOffsets(rest) && rest != [] && (stack == [] || stack[|stack| - 1] != rest[0].offset)
    requires Scanning(good, target, len, rest, stack, remaining, output)
    ensures var size := StoredSize(rest[0].record.account.dataLen);
            if size > remaining then good ==> Size(target) > len
            else Scanning(good, target, len, rest[1..], stack, remaining - size, output + [rest[0].record])
  {
    PassedAhead(rest, stack);
    var output' := output + [rest[0].record];
    SizeAdd(output, [rest[0].record]);
    assert Size([rest[0].record]) == StoredSize(rest[0].record.account.dataLen);
    if good {
      var later := Kept(rest[1..], Offsets(stack));
      assert Kept(rest, Offsets(stack)) == [rest[0].record] + later;
      assert output + ([rest[0].record] + later) == output' + later;
      SizeAdd(output', later);
    }
  }

  /** `write_to`: an ascending scan succeeds exactly if the list is descending, all its offsets
      occur, and the size is that of the other records; those are then written, in order. With
      such a list a size that is too small is told from one that is too large. */
  method WriteTo(file: seq<Entry>, sortedExcluded: seq<Offset>, lenForArchive: nat) returns (r: Outcome, output: seq<Record>)
    requires AscendingOffsets(file)
    ensures r == Written <==> Fits(file, sortedExcluded, lenForArchive)
    ensures r == Written ==> output == Kept(file, Offsets(sortedExcluded)) && Size(output) == lenForArchive
    ensures Ahead(file, sortedExcluded) ==>
              (r == Failed(ExceedsArchiveSize) <==> lenForArchive < Size(Kept(file, Offsets(sortedExcluded))))
  {
    output := [];
    var stack, remaining := sortedExcluded, lenForArchive;
    var exceeded := false;
    ghost var good := Ahead(file, sortedExcluded);
    ghost var target := Kept(file, Offsets(sortedExcluded));
    assert file[0..] == file && [] + target == target;
    for i := 0 to |file|
      invariant if exceeded then good ==> Size(target) > lenForArchive
                else Scanning(good, target, lenForArchive, file[i..], stack, remaining, output)
    {
      if !exceeded {
        assert file[i..][1..] == file[i + 1..];
        if stack != [] && stack[|stack| - 1] == file[i].offset {
          ScanPops(good, target, lenForArchive, file[i..], stack, remaining, output);
          stack := stack[..|stack| - 1];
        } else {
          ScanPasses(good, target, lenForArchive, file[i..], stack, remaining, output);
          var storedSize := StoredSize(file[i].record.account.dataLen);
          if storedSize > remaining {
            exceeded := true;
          } else {
            output := output + [file[i].record];
            remaining := remaining - storedSize;
          }
        }
      }
    }
    assert file[|file|..] == [] && output + [] == output;
    AtEnd(stack);
    if exceeded {
      r := Failed(ExceedsArchiveSize);
    } else if remaining != 0 || stack != [] {
      r := Failed(IncompleteScan);
    } else {
      r := Written;
    }
  }

  lemma AtEnd(stack: seq<Offset>)
    ensures Ahead([], stack) <==> stack == []
  {
    if Ahead([], stack) {
      NothingAhead(stack);
    }
  }

  // ---------------------------------------------------------------------------------------
  // A storage as a file
  // ---------------------------------------------------------------------------------------

  function FileFrom(t: Storage, i: nat): seq<Entry>
    requires i <= |t.records|
    decreases |t.records| - i
  {
    if i == |t.records| then [] else [Entry(i, t.records[i])] + FileFrom(t, i + 1)
  }

  lemma {:induction false} FileFromAt(t: Storage, i: nat, j: nat)
    requires i <= j < |t.records|
    ensures |FileFrom(t, i)| == |t.records| - i && FileFrom(t, i)[j - i] == Entry(j, t.records[j])
    decreases |t.records| - i
  {
    if i < j {
      FileFromAt(t, i + 1, j);
    } else if i + 1 < |t.records| {
      FileFromAt(t, i + 1, i + 1);
    }
  }

  lemma FileIs(t: Storage)
    ensures |FileFrom(t, 0)| == |t.records|
    ensures forall j :: 0 <= j < |t.records| ==> FileFrom(t, 0)[j] == Entry(j, t.records[j])
  {
    forall j | 0 <= j < |t.records|
      ensures |FileFrom(t, 0)| == |t.records| && FileFrom(t, 0)[j] == Entry(j, t.records[j])
    {
      FileFromAt(t, 0, j);
    }
    if |t.records| > 0 {
      FileFromAt(t, 0, 0);
    }
  }

  /** The members of `s` below `n`, largest first: what sorting them in reverse gives. */
  function SortedDescending(s: set<Offset>, n: nat): (r: seq<Offset>)
    ensures forall o :: o in r <==> o in s && o < n
  {
    if n == 0 then []
    else if n - 1 in s then [n - 1] + SortedDescending(s, n - 1)
    else SortedDescending(s, n - 1)
  }

  lemma {:induction false} SortedIsDescending(s: set<Offset>, n: nat)
    ensures Descending(SortedDescending(s, n))
  {
    if n > 0 {
      SortedIsDescending(s, n - 1);
      var rest := SortedDescending(s, n - 1);
      var r := SortedDescending(s, n);
      if n - 1 in s {
        forall i, j | 0 <= i < j < |r|
          ensures r[i] > r[j]
        {
          assert r[j] == rest[j - 1] && r[j] in rest;
        }
      }
    }
  }

  /** What `AccountStorageReader::new` excludes: records marked obsolete at or before the
      snapshot slot, and on request the tombstones. */
  function ExcludedOffsets(t: Storage, snapshotSlot: Option<Slot>, includeTombstones: bool): set<Offset> {
    (set o | o in t.obsolete.Keys && (snapshotSlot.None? || t.obsolete[o] <= snapshotSlot.value))
    + if includeTombstones then {} else t.tombstones
  }

  /** The kept records weigh what is stored minus what is excluded. */
  lemma {:induction false} KeptSize(t: Storage, excluded: set<Offset>, i: nat)
    requires i <= |t.records|
    ensures Size(Kept(FileFrom(t, i), excluded)) ==
            BytesUpTo(t.records, AllOffsets(t.records) - excluded, |t.records|) - BytesUpTo(t.records, AllOffsets(t.records) - excluded, i)
    decreases |t.records| - i
  {
    if i < |t.records| {
      KeptSize(t, excluded, i + 1);
      var file := FileFrom(t, i);
      assert file[1..] == FileFrom(t, i + 1);
      var rest := Kept(file[1..], excluded);
      if i in excluded {
        assert Kept(file, excluded) == rest;
      } else {
        assert Kept(file, excluded) == [t.records[i]] + rest;
        SizeAdd([t.records[i]], rest);
        assert Size([t.records[i]]) == StoredSize(t.records[i].account.dataLen);
      }
    }
  }

  lemma ExcludedFits(t: Storage, snapshotSlot: Option<Slot>, includeTombstones: bool)
    requires StorageOk(t)
    ensures var excluded := ExcludedOffsets(t, snapshotSlot, includeTombstones);
            && excluded <= AllOffsets(t.records)
            && Bytes(t.records, excluded) <= t.storedBytes
            && Size(Kept(FileFrom(t, 0), excluded)) == t.storedBytes - Bytes(t.records, excluded)
  {
    var excluded := ExcludedOffsets(t, snapshotSlot, includeTombstones);
    BytesSubset(t.records, excluded, AllOffsets(t.records));
    KeptSize(t, excluded, 0);
  }

  /** The summed sizes of the excluded accounts: obsolete ones by their data length, tombstones
      as accounts without data. */
  method ExcludedSize(t: Storage, excluded: set<Offset>) returns (size: nat)
    requires RecordsOk(t.records) && MarksOk(t)
    requires excluded <= t.obsolete.Keys + t.tombstones
    ensures size == Bytes(t.records, excluded)
  {
    size := 0;
    for i := 0 to |t.records|
      invariant size == BytesUpTo(t.records, excluded, i)
    {
      if i in excluded {
        size := size + StoredSize(if i in t.obsolete then t.records[i].account.dataLen else 0);
      }
    }
  }

  /** `AccountStorageReader::new` and `write_to` on a storage with sound books: the size is
      computed without underflow, and the scan writes exactly what is not excluded. */
  method ArchiveStorage(t: Storage, snapshotSlot: Option<Slot>, includeTombstones: bool)
    returns (r: Outcome, output: seq<Record>)
    requires StorageOk(t)
    ensures r == Written
    ensures var excluded := ExcludedOffsets(t, snapshotSlot, includeTombstones);
            && output == Kept(FileFrom(t, 0), excluded)
            && Size(output) == t.storedBytes - Bytes(t.records, excluded)
    ensures forall rec :: rec in output <==> exists i: Offset :: IsArchived(t, snapshotSlot, includeTombstones, i) && t.records[i] == rec
  {
    var excluded := ExcludedOffsets(t, snapshotSlot, includeTombstones);
    ExcludedFits(t, snapshotSlot, includeTombstones);
    var excludedSize := ExcludedSize(t, excluded);
    var lenForArchive := t.storedBytes - excludedSize;
    var sortedExcluded := SortedDescending(excluded, |t.records|);
    StorageAhead(t, excluded);
    r, output := WriteTo(FileFrom(t, 0), sortedExcluded, lenForArchive);
    forall rec
      ensures rec in output <==> exists i: Offset :: IsArchived(t, snapshotSlot, includeTombstones, i) && t.records[i] == rec
    {
      ArchivedIs(t, snapshotSlot, includeTombstones, rec);
    }
  }

  /** The record at `i` belongs into the archive: it was not obsolete yet at the snapshot slot,
      and tombstones are left out unless asked for. */
  ghost predicate IsArchived(t: Storage, snapshotSlot: Option<Slot>, includeTombstones: bool, i: Offset) {
    && i < |t.records|
    && (i in t.obsolete ==> snapshotSlot.Some? && snapshotSlot.value < t.obsolete[i])
    && (i in t.tombstones ==> includeTombstones)
  }

  lemma ArchivedIs(t: Storage, snapshotSlot: Option<Slot>, includeTombstones: bool, rec: Record)
    ensures rec in Kept(FileFrom(t, 0), ExcludedOffsets(t, snapshotSlot, includeTombstones)) <==>
              exists i: Offset :: IsArchived(t, snapshotSlot, includeTombstones, i) && t.records[i] == rec
  {
    var excluded := ExcludedOffsets(t, snapshotSlot, includeTombstones);
    StorageKept(t, excluded, rec);
    forall i: Offset
      ensures i < |t.records| && i !in excluded <==> IsArchived(t, snapshotSlot, includeTombstones, i)
    {
    }
  }

  lemma StorageAhead(t: Storage, excluded: set<Offset>)
    requires excluded <= AllOffsets(t.records)
    ensures Ahead(FileFrom(t, 0), SortedDescending(excluded, |t.records|))
    ensures Offsets(SortedDescending(excluded, |t.records|)) == excluded
  {
    var sortedExcluded := SortedDescending(excluded, |t.records|);
    SortedIsDescending(excluded, |t.records|);
    FileIs(t);
    forall o | o in sortedExcluded
      ensures Occurs(FileFrom(t, 0), o)
    {
      assert FileFrom(t, 0)[o].offset == o;
    }
  }

  // ---------------------------------------------------------------------------------------
  // Archives and restart
  // ---------------------------------------------------------------------------------------

  /** A record is kept exactly if some offset of it is not excluded. */
  lemma {:induction false} KeptHas(file: seq<Entry>, excluded: set<Offset>, rec: Record)
    ensures rec in Kept(file, excluded) <==> exists i :: 0 <= i < |file| && file[i].offset !in excluded && file[i].record == rec
  {
    if file != [] {
      KeptHas(file[1..], excluded, rec);
      if i :| 0 <= i < |file| && file[i].offset !in excluded && file[i].record == rec {
        if i > 0 {
          assert file[1..][i - 1] == file[i];
        }
      }
      if i :| 0 <= i < |file[1..]| && file[1..][i].offset !in excluded && file[1..][i].record == rec {
        assert file[i + 1] == file[1..][i];
      }
    }
  }

  lemma StorageKept(t: Storage, excluded: set<Offset>, rec: Record)
    ensures rec in Kept(FileFrom(t, 0), excluded) <==> exists i: Offset :: i < |t.records| && i !in excluded && t.records[i] == rec
  {
    KeptHas(FileFrom(t, 0), excluded, rec);
    FileIs(t);
    if i: Offset :| i < |t.records| && i !in excluded && t.records[i] == rec {
      assert FileFrom(t, 0)[i].record == rec;
    }
  }

  /** A storage unpacked from an archive of all that is not obsolete is a file of the store at
      rest, so a restart from it shows the same accounts. */
  lemma ArchiveIsFile(t: Storage, id: StoreId, includeTombstones: bool)
    requires StorageOk(t)
    ensures FileOf(t, NewStorage(id, Kept(FileFrom(t, 0), ExcludedOffsets(t, None, includeTombstones))))
  {
    var excluded := ExcludedOffsets(t, None, includeTombstones);
    ListedIsFile(t, NewStorage(id, Kept(FileFrom(t, 0), excluded)), excluded);
  }

  lemma ListedIsFile(t: Storage, file: Storage, excluded: set<Offset>)
    requires excluded !! AliveOffsets(t) && t.obsolete.Keys <= excluded
    requires file.records == Kept(FileFrom(t, 0), excluded) && AliveOffsets(file) == AllOffsets(file.records)
    ensures FileOf(t, file)
  {
    forall i: Offset | i in AliveOffsets(t) && i < |t.records|
      ensures Contains(file, AliveOffsets(file), t.records[i])
    {
      AliveListed(t, file, excluded, i);
    }
    forall j: Offset | j in AliveOffsets(file) && j < |file.records|
      ensures Contains(t, AliveOffsets(t) + t.tombstones, file.records[j])
    {
      ListedAlive(t, file, excluded, j);
    }
  }

  lemma AliveListed(t: Storage, file: Storage, excluded: set<Offset>, i: Offset)
    requires file.records == Kept(FileFrom(t, 0), excluded) && AliveOffsets(file) == AllOffsets(file.records)
    requires i !in excluded && i < |t.records|
    ensures Contains(file, AliveOffsets(file), t.records[i])
  {
    StorageKept(t, excluded, t.records[i]);
    var j: Offset :| j < |file.records| && file.records[j] == t.records[i];
    assert j in AliveOffsets(file);
  }

  lemma ListedAlive(t: Storage, file: Storage, excluded: set<Offset>, j: Offset)
    requires file.records == Kept(FileFrom(t, 0), excluded) && t.obsolete.Keys <= excluded
    requires j < |file.records|
    ensures Contains(t, AliveOffsets(t) + t.tombstones, file.records[j])
  {
    StorageKept(t, excluded, file.records[j]);
    var i: Offset :| i < |t.records| && i !in excluded && t.records[i] == file.records[j];
    assert i in AliveOffsets(t) + t.tombstones;
  }
}
