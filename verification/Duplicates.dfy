/** The second pass of index generation: what newer records supersede is taken out again. */
module Duplicates {
  import opened Types
  import opened Storages
  import opened PrimaryIndex
  import opened Store
  import opened Restart
  import opened Rebuild
  import opened Sums
  import opened Startup

  /** The entries of a slot list other than the newest, where they point. */
  ghost function OlderIn(l: SlotList, slots: set<Slot>): set<Place>
    requires l != map[]
  {
    set s | s in slots && s in l && s < NewestIn(l) :: (s, l[s].offset)
  }

  ghost function NewestIn(l: SlotList): Slot
    requires l != map[]
  {
    assert exists s :: s in l;
    Newest(l.Keys)
  }

  /** Every entry resolves in `files`. */
  ghost predicate PointsInto(l: SlotList, files: StorageMap) {
    forall s :: s in l ==> s in files && l[s].store == files[s].id && l[s].offset < |files[s].records|
  }

  method FindMax(l: SlotList) returns (max: Slot)
    requires l != map[]
    ensures max == NewestIn(l)
  {
    assert exists s :: s in l;
    max := FindNewest(l.Keys);
  }

  lemma OlderGrows(l: SlotList, files: StorageMap, w: Weight, done: set<Slot>, s: Slot)
    requires l != map[] && PointsInto(l, files) && s in l && s !in done
    ensures Sum(OlderIn(l, done + {s}), PlaceWeight(files, w)) ==
            Sum(OlderIn(l, done), PlaceWeight(files, w))
            + if s == NewestIn(l) then 0 else w(files[s].records[l[s].offset])
  {
    if s == NewestIn(l) {
      assert OlderIn(l, done + {s}) == OlderIn(l, done);
    } else {
      var p := (s, l[s].offset);
      assert OlderIn(l, done + {s}) == OlderIn(l, done) + {p};
      SumUnion(OlderIn(l, done), {p}, PlaceWeight(files, w));
      SumOne(p, PlaceWeight(files, w));
    }
  }

  /** One key of `visit_duplicate_pubkeys_during_startup`. */
  method VisitKey(l: SlotList, files: StorageMap, w: Weight) returns (sum: int)
    requires l != map[] && PointsInto(l, files)
    ensures sum == Sum(OlderIn(l, l.Keys), PlaceWeight(files, w))
  {
    sum := 0;
    var max := FindMax(l);
    var todo := l.Keys;
    assert l.Keys - todo == {};
    assert OlderIn(l, {}) == {};
    while todo != {}
      invariant todo <= l.Keys
      invariant sum == Sum(OlderIn(l, l.Keys - todo), PlaceWeight(files, w))
      decreases |todo|
    {
      var s :| s in todo;
      OlderGrows(l, files, w, l.Keys - todo, s);
      if s != max {
        sum := sum + w(files[s].records[l[s].offset]);
      }
      assert l.Keys - (todo - {s}) == l.Keys - todo + {s};
      todo := todo - {s};
    }
    assert l.Keys - todo == l.Keys;
  }

  /** The superseded entries of `keys`. */
  ghost function OlderOf(ix: Index, keys: set<Pubkey>): set<Place> {
    set k, s | k in keys && k in ix && ix[k] != map[] && s in ix[k] && s < NewestIn(ix[k]) :: (s, ix[k][s].offset)
  }

  lemma KeyList(ix: Index, files: StorageMap, k: Pubkey)
    requires Indexes(ix, files, files.Keys) && k in ix
    ensures ix[k] != map[] && PointsInto(ix[k], files)
    ensures ix[k].Keys == SlotsWith(files, k)
  {
    forall s: Slot
      ensures s in ix[k] <==> s in SlotsWith(files, k)
    {
      assert Has(ix, k, s) <==> s in ix[k];
    }
    forall s | s in ix[k]
      ensures s in files && EntryOf(files[s], k, ix[k][s])
    {
      assert Has(ix, k, s);
    }
  }

  /** Different keys are stored in different places. */
  lemma OtherPlaces(ix: Index, files: StorageMap, keys: set<Pubkey>, k: Pubkey)
    requires Indexes(ix, files, files.Keys) && k in ix && k !in keys && ix[k] != map[]
    ensures OlderOf(ix, keys) !! OlderIn(ix[k], ix[k].Keys)
  {
    forall p | p in OlderOf(ix, keys) && p in OlderIn(ix[k], ix[k].Keys)
      ensures false
    {
      var j, s :| j in keys && j in ix && ix[j] != map[] && s in ix[j] && s < NewestIn(ix[j]) && p == (s, ix[j][s].offset);
      assert Has(ix, j, s) && Has(ix, k, s);
    }
  }

  ghost function OlderSum(ix: Index, files: StorageMap, w: Weight, keys: set<Pubkey>): int {
    Sum(OlderOf(ix, keys), PlaceWeight(files, w))
  }

  lemma NoneVisited(ix: Index, files: StorageMap, w: Weight)
    ensures OlderSum(ix, files, w, {}) == 0
  {
    assert OlderOf(ix, {}) == {};
  }

  lemma OlderOfGrows(ix: Index, files: StorageMap, w: Weight, keys: set<Pubkey>, k: Pubkey)
    requires Indexes(ix, files, files.Keys) && k in ix && k !in keys && ix[k] != map[]
    ensures OlderSum(ix, files, w, keys + {k}) ==
            OlderSum(ix, files, w, keys) + Sum(OlderIn(ix[k], ix[k].Keys), PlaceWeight(files, w))
  {
    OtherPlaces(ix, files, keys, k);
    assert OlderOf(ix, keys + {k}) == OlderOf(ix, keys) + OlderIn(ix[k], ix[k].Keys);
    SumUnion(OlderOf(ix, keys), OlderIn(ix[k], ix[k].Keys), PlaceWeight(files, w));
  }

  lemma OlderIndexed(ix: Index, files: StorageMap, s: Slot, i: Offset)
    requires Indexes(ix, files, files.Keys)
    requires forall s :: s in files ==> DistinctKeys(files[s].records)
    requires s in files && i in Older(files, s)
    ensures var k := files[s].records[i].pubkey;
            && k in ix && ix[k] != map[] && s in ix[k] && s < NewestIn(ix[k]) && ix[k][s].offset == i
            && |ix[k]| > 1
  {
    var k := files[s].records[i].pubkey;
    assert AliveAt(files[s], i, k);
    assert Has(ix, k, s);
    KeyList(ix, files, k);
    assert EntryOf(files[s], k, At(ix, k, s));
    SubsetSize({s, NewestIn(ix[k])}, ix[k].Keys);
  }

  lemma OlderPlaced(ix: Index, files: StorageMap, k: Pubkey, s: Slot)
    requires Indexes(ix, files, files.Keys)
    requires k in ix && ix[k] != map[] && s in ix[k] && s < NewestIn(ix[k])
    ensures s in files && ix[k][s].offset in Older(files, s)
  {
    KeyList(ix, files, k);
    assert Has(ix, k, s);
    assert EntryOf(files[s], k, At(ix, k, s));
    assert Superseding(files, s, k);
  }

  /** What the duplicates pass visits is exactly what is superseded. */
  lemma OlderOfIs(ix: Index, files: StorageMap, keys: set<Pubkey>)
    requires Indexes(ix, files, files.Keys)
    requires forall s :: s in files ==> DistinctKeys(files[s].records)
    requires forall k :: k in ix && |ix[k]| > 1 ==> k in keys
    ensures OlderOf(ix, keys) == OlderPlaces(files)
  {
    forall p | p in OlderOf(ix, keys)
      ensures p in OlderPlaces(files)
    {
      var k, s :| k in keys && k in ix && ix[k] != map[] && s in ix[k] && s < NewestIn(ix[k]) && p == (s, ix[k][s].offset);
      OlderPlaced(ix, files, k, s);
    }
    forall p | p in OlderPlaces(files)
      ensures p in OlderOf(ix, keys)
    {
      OlderIndexed(ix, files, p.0, p.1);
    }
  }

  method VisitNext(files: StorageMap, ix: Index, done: set<Pubkey>, k: Pubkey, sum: int, w: Weight) returns (sum': int)
    requires Indexes(ix, files, files.Keys)
    requires k in ix && k !in done && sum == OlderSum(ix, files, w, done)
    ensures sum' == OlderSum(ix, files, w, done + {k})
  {
    KeyList(ix, files, k);
    var older := VisitKey(ix[k], files, w);
    OlderOfGrows(ix, files, w, done, k);
    sum' := sum + older;
  }

  /** `visit_duplicate_pubkeys_during_startup` over all keys with several entries. */
  method VisitDuplicates(files: StorageMap, ix: Index, keys: set<Pubkey>, w: Weight) returns (sum: int)
    requires Indexes(ix, files, files.Keys)
    requires forall s :: s in files ==> DistinctKeys(files[s].records)
    requires keys <= ix.Keys && forall k :: k in ix && |ix[k]| > 1 ==> k in keys
    ensures sum == Sum(OlderPlaces(files), PlaceWeight(files, w))
  {
    sum := 0;
    var done: set<Pubkey> := {};
    NoneVisited(ix, files, w);
    while done != keys
      invariant done <= keys && sum == OlderSum(ix, files, w, done)
      decreases |keys - done|
    {
      var k :| k in keys - done;
      sum := VisitNext(files, ix, done, k, sum, w);
      assert keys - (done + {k}) < keys - done;
      SubsetSize(keys - (done + {k}), keys - done);
      done := done + {k};
    }
    OlderOfIs(ix, files, keys);
  }

  method DuplicateKeys(ix: Index) returns (keys: set<Pubkey>)
    ensures keys <= ix.Keys && forall k :: k in ix ==> (k in keys <==> |ix[k]| > 1)
  {
    keys := set k | k in ix && |ix[k]| > 1;
  }

  /** Taking the duplicates out of a sum of non-negative amounts does not underflow. */
  lemma NoUnderflow(files: StorageMap, w: Weight)
    requires forall s :: s in files ==> DistinctKeys(files[s].records)
    requires forall r: Record :: w(r) >= 0
    ensures Sum(OlderPlaces(files), PlaceWeight(files, w)) <= Total(files, w, files.Keys)
  {
    Conservation(files, w);
    SumNonNegative(KeysIn(files), k => KeyWeight(files, w, k));
  }

  /** For lamports the total is what the rebuilt store shows: deleted accounts count nothing. */
  lemma CapitalizationIsView(files: StorageMap)
    ensures Sum(KeysIn(files), k => KeyWeight(files, (r: Record) => r.account.lamports, k)) ==
            Sum(KeysIn(files), k => Lamports(FileView(files, k)))
  {
    var w := (r: Record) => r.account.lamports;
    SumSame(KeysIn(files), k => KeyWeight(files, w, k), k => Lamports(FileView(files, k)));
  }

  function Lamports(a: Option<Account>): nat {
    if a.Some? then a.value.lamports else 0
  }
}
