/** Account locks of transaction batches. Conflicts are checked against the locks held before
    a batch, so transactions of one batch may share a key; different batches never do when one
    of them writes. */
module AccountLocks {
  import opened Types
  import opened Sums

  datatype Use = Use(key: Pubkey, writable: bool)

  datatype LockError = AccountInUse | TooManyAccountLocks | AccountLoadedTwice | Earlier(code: nat)

  datatype Result<+T> = Ok(value: T) | Err(error: LockError)

  type Counts = map<Pubkey, nat>
  type BatchId = nat

  // ---------------------------------------------------------------------------------------
  // Validation
  // ---------------------------------------------------------------------------------------

  ghost predicate Duplicated(keys: seq<Pubkey>) {
    exists i, j :: 0 <= i < j < |keys| && keys[i] == keys[j]
  }

  const USE_ACCOUNT_LOCK_SET_SIZE := 32

  method HasDuplicatesBySet(keys: seq<Pubkey>) returns (r: bool)
    ensures r <==> Duplicated(keys)
  {
    var seen: set<Pubkey> := {};
    for i := 0 to |keys|
      invariant forall k :: k in seen <==> exists j :: 0 <= j < i && keys[j] == k
      invariant forall j, l :: 0 <= j < l < i ==> keys[j] != keys[l]
    {
      if keys[i] in seen {
        return true;
      }
      seen := seen + {keys[i]};
    }
    return false;
  }

  method HasDuplicatesByPairs(keys: seq<Pubkey>) returns (r: bool)
    ensures r <==> Duplicated(keys)
  {
    for i := 0 to |keys|
      invariant forall j, l :: 0 <= j < i && j < l < |keys| ==> keys[j] != keys[l]
    {
      for j := i + 1 to |keys|
        invariant forall l :: i < l < j ==> keys[i] != keys[l]
      {
        if keys[i] == keys[j] {
          return true;
        }
      }
    }
    return false;
  }

  /** Pairs are compared in short lists, a set is used for long ones. */
  method HasDuplicates(keys: seq<Pubkey>) returns (r: bool)
    ensures r <==> Duplicated(keys)
  {
    if |keys| >= USE_ACCOUNT_LOCK_SET_SIZE {
      r := HasDuplicatesBySet(keys);
    } else {
      r := HasDuplicatesByPairs(keys);
    }
  }

  function KeysOf(uses: seq<Use>): seq<Pubkey> {
    seq(|uses|, i requires 0 <= i < |uses| => uses[i].key)
  }

  /** `validate_account_locks`. */
  method Validate(keys: seq<Pubkey>, limit: nat) returns (r: Result<()>)
    ensures r.Ok? <==> |keys| <= limit && !Duplicated(keys)
    ensures r.Err? ==> r.error == if |keys| > limit then TooManyAccountLocks else AccountLoadedTwice
  {
    if |keys| > limit {
      return Err(TooManyAccountLocks);
    }
    var duplicates := HasDuplicates(keys);
    return if duplicates then Err(AccountLoadedTwice) else Ok(());
  }

  // ---------------------------------------------------------------------------------------
  // Counting
  // ---------------------------------------------------------------------------------------

  function CountOf(locks: Counts, k: Pubkey): nat {
    if k in locks then locks[k] else 0
  }

  /** The two maps count the outstanding uses, and list no key with count zero. */
  ghost predicate Counted(writeLocks: Counts, readonlyLocks: Counts, total: multiset<Use>) {
    && (forall k :: k in writeLocks ==> writeLocks[k] > 0)
    && (forall k :: k in readonlyLocks ==> readonlyLocks[k] > 0)
    && (forall k :: CountOf(writeLocks, k) == total[Use(k, true)])
    && (forall k :: CountOf(readonlyLocks, k) == total[Use(k, false)])
  }

  function Increment(locks: Counts, k: Pubkey): Counts {
    locks[k := CountOf(locks, k) + 1]
  }

  function Decrement(locks: Counts, k: Pubkey): Counts
    requires k in locks && locks[k] > 0
  {
    if locks[k] == 1 then locks - {k} else locks[k := locks[k] - 1]
  }

  /** What may be locked next to the outstanding uses. */
  predicate Free(total: multiset<Use>, u: Use) {
    Use(u.key, true) !in total && (u.writable ==> Use(u.key, false) !in total)
  }

  ghost predicate AllFree(total: multiset<Use>, uses: seq<Use>) {
    forall i :: 0 <= i < |uses| ==> Free(total, uses[i])
  }

  // ---------------------------------------------------------------------------------------
  // Batches
  // ---------------------------------------------------------------------------------------

  type Held = map<BatchId, multiset<Use>>

  function HeldBy(held: Held, b: BatchId, u: Use): int {
    if b in held then held[b][u] else 0
  }

  /** All outstanding uses are held by some batch. */
  ghost predicate Totals(held: Held, total: multiset<Use>) {
    forall u :: total[u] == Sum(held.Keys, b => HeldBy(held, b, u))
  }

  /** If a batch has write-locked a key, no other batch holds that key at all. */
  ghost predicate Exclusive(held: Held) {
    forall b, c, k, w ::
      b in held && c in held && b != c && Use(k, true) in held[b] ==> Use(k, w) !in held[c]
  }

  lemma HeldWithin(held: Held, total: multiset<Use>, b: BatchId, u: Use)
    requires Totals(held, total) && b in held
    ensures held[b][u] <= total[u]
  {
    SumPick(held.Keys, c => HeldBy(held, c, u), b);
    SumNonNegative(held.Keys - {b}, c => HeldBy(held, c, u));
  }

  lemma TotalsChange(held: Held, total: multiset<Use>, b: BatchId, m: multiset<Use>, total': multiset<Use>)
    requires Totals(held, total)
    requires forall u :: total'[u] == total[u] - HeldBy(held, b, u) + m[u]
    ensures Totals(held[b := m], total')
  {
    var held' := held[b := m];
    forall u
      ensures total'[u] == Sum(held'.Keys, c => HeldBy(held', c, u))
    {
      var rest := held.Keys - {b};
      assert held'.Keys - {b} == rest;
      SumPick(held'.Keys, c => HeldBy(held', c, u), b);
      SumSame(rest, c => HeldBy(held', c, u), c => HeldBy(held, c, u));
      if b in held {
        SumPick(held.Keys, c => HeldBy(held, c, u), b);
      } else {
        assert held.Keys == rest;
      }
    }
  }

  /** A batch that only takes what is free does not touch what other batches hold. */
  lemma StaysExclusive(held: Held, total: multiset<Use>, b: BatchId, m: multiset<Use>)
    requires Totals(held, total) && Exclusive(held) && b !in held
    requires forall u :: u in m ==> Free(total, u)
    ensures Exclusive(held[b := m])
  {
    var held' := held[b := m];
    forall c, d, k, w | c in held' && d in held' && c != d && Use(k, true) in held'[c]
      ensures Use(k, w) !in held'[d]
    {
      if c == b {
        HeldWithin(held, total, d, Use(k, w));
        assert Free(total, Use(k, true));
      } else if d == b {
        HeldWithin(held, total, c, Use(k, true));
        assert Use(k, w) in m ==> Free(total, Use(k, w));
      }
    }
  }

  lemma ReleaseExclusive(held: Held, b: BatchId, m: multiset<Use>)
    requires Exclusive(held) && b in held && m <= held[b]
    ensures Exclusive(held[b := m])
  {
    var held' := held[b := m];
    forall c, d, k, w | c in held' && d in held' && c != d && Use(k, true) in held'[c]
      ensures Use(k, w) !in held'[d]
    {
      assert Use(k, true) in held[c];
      assert Use(k, w) !in held[d];
    }
  }

  /** The uses of the transactions that got their locks. */
  ghost function Granted(batch: seq<Result<seq<Use>>>): multiset<Use> {
    if batch == [] then multiset{}
    else (if batch[0].Ok? then multiset(batch[0].value) else multiset{}) + Granted(batch[1..])
  }

  lemma {:induction false} GrantedFree(total: multiset<Use>, batch: seq<Result<seq<Use>>>, u: Use)
    requires forall i :: 0 <= i < |batch| && batch[i].Ok? ==> AllFree(total, batch[i].value)
    requires u in Granted(batch)
    ensures Free(total, u)
  {
    if batch[0].Ok? && u in multiset(batch[0].value) {
      var i :| 0 <= i < |batch[0].value| && batch[0].value[i] == u;
    } else {
      GrantedFree(total, batch[1..], u);
    }
  }

  lemma TakeLast<T>(s: seq<T>, i: nat)
    requires i < |s|
    ensures multiset(s[..i + 1]) == multiset(s[..i]) + multiset{s[i]}
  {
    assert s[..i + 1] == s[..i] + [s[i]];
  }

  lemma PrefixWithin<T>(s: seq<T>, i: nat)
    requires i <= |s|
    ensures multiset(s[..i]) <= multiset(s)
  {
    assert s == s[..i] + s[i..];
  }

  /** After giving back the first `i` uses, the next one is still there to be given back. */
  lemma StillHeld(total: multiset<Use>, uses: seq<Use>, i: nat)
    requires multiset(uses) <= total && i < |uses|
    ensures uses[i] in total - multiset(uses[..i])
    ensures total - multiset(uses[..i + 1]) == total - multiset(uses[..i]) - multiset{uses[i]}
  {
    TakeLast(uses, i);
    PrefixWithin(uses, i + 1);
    assert multiset(uses[..i + 1])[uses[i]] <= total[uses[i]];
  }

  /** Nothing outstanding, nothing in the maps. */
  lemma EmptyWhenReleased(writeLocks: Counts, readonlyLocks: Counts, held: Held, total: multiset<Use>)
    requires Counted(writeLocks, readonlyLocks, total) && Totals(held, total)
    requires forall b :: b in held ==> held[b] == multiset{}
    ensures writeLocks == map[] && readonlyLocks == map[]
  {
    forall u: Use
      ensures total[u] == 0
    {
      SumZero(held.Keys, b => HeldBy(held, b, u));
    }
    forall k
      ensures k !in writeLocks && k !in readonlyLocks
    {
      assert CountOf(writeLocks, k) == total[Use(k, true)];
      assert CountOf(readonlyLocks, k) == total[Use(k, false)];
    }
  }

  class Locks {
    var writeLocks: Counts
    var readonlyLocks: Counts
    /** All outstanding uses, and who holds them. */
    ghost var total: multiset<Use>
    ghost var held: Held

    ghost predicate Valid()
      reads this
    {
      Counted(writeLocks, readonlyLocks, total) && Totals(held, total) && Exclusive(held)
    }

    constructor ()
      ensures Valid() && held == map[] && writeLocks == map[] && readonlyLocks == map[]
    {
      writeLocks, readonlyLocks := map[], map[];
      total, held := multiset{}, map[];
    }

    predicate CanWriteLock(k: Pubkey)
      reads this
    {
      CountOf(readonlyLocks, k) == 0 && CountOf(writeLocks, k) == 0
    }

    predicate CanReadLock(k: Pubkey)
      reads this
    {
      CountOf(writeLocks, k) == 0
    }

    /** `can_lock_accounts`. */
    method CanLockAccounts(uses: seq<Use>) returns (r: Result<()>)
      requires Counted(writeLocks, readonlyLocks, total)
      ensures r.Ok? <==> AllFree(total, uses)
      ensures r.Err? ==> r.error == AccountInUse
    {
      for i := 0 to |uses|
        invariant forall j :: 0 <= j < i ==> Free(total, uses[j])
      {
        var k := uses[i].key;
        assert CountOf(writeLocks, k) == total[Use(k, true)] && CountOf(readonlyLocks, k) == total[Use(k, false)];
        var free := if uses[i].writable then CanWriteLock(k) else CanReadLock(k);
        assert free <==> Free(total, uses[i]);
        if !free {
          return Err(AccountInUse);
        }
      }
      return Ok(());
    }

    method LockOne(u: Use)
      requires Counted(writeLocks, readonlyLocks, total)
      modifies this`writeLocks, this`readonlyLocks, this`total
      ensures Counted(writeLocks, readonlyLocks, total) && total == old(total) + multiset{u}
    {
      if u.writable {
        writeLocks := Increment(writeLocks, u.key);
      } else {
        readonlyLocks := Increment(readonlyLocks, u.key);
      }
      total := total + multiset{u};
    }

    /** `lock_accounts`. */
    method LockAccounts(uses: seq<Use>)
      requires Counted(writeLocks, readonlyLocks, total)
      modifies this`writeLocks, this`readonlyLocks, this`total
      ensures Counted(writeLocks, readonlyLocks, total) && total == old(total) + multiset(uses)
    {
      for i := 0 to |uses|
        invariant Counted(writeLocks, readonlyLocks, total)
        invariant total == old(total) + multiset(uses[..i])
      {
        TakeLast(uses, i);
        LockOne(uses[i]);
      }
      assert uses[..|uses|] == uses;
    }

    /** First round: which transactions can be locked next to the locks held so far. */
    method CheckBatch(batch: seq<Result<seq<Use>>>) returns (checked: seq<Result<seq<Use>>>)
      requires Counted(writeLocks, readonlyLocks, total)
      ensures CheckedFrom(total, batch, checked)
    {
      checked := [];
      for i := 0 to |batch|
        invariant |checked| == i
        invariant forall j :: 0 <= j < i ==>
                    checked[j] == if batch[j].Ok? && !AllFree(total, batch[j].value) then Err(AccountInUse) else batch[j]
      {
        var r := batch[i];
        if r.Ok? {
          var can := CanLockAccounts(r.value);
          if can.Err? {
            r := Err(can.error);
          }
        }
        checked := checked + [r];
      }
    }

    /** Second round: lock what passed the first one. */
    method LockBatch(checked: seq<Result<seq<Use>>>) returns (results: seq<Result<()>>)
      requires Counted(writeLocks, readonlyLocks, total)
      modifies this`writeLocks, this`readonlyLocks, this`total
      ensures Counted(writeLocks, readonlyLocks, total) && total == old(total) + Granted(checked)
      ensures |results| == |checked|
      ensures forall i :: 0 <= i < |checked| ==> results[i] == if checked[i].Ok? then Ok(()) else Err(checked[i].error)
    {
      results := [];
      assert checked[0..] == checked;
      for i := 0 to |checked|
        invariant |results| == i
        invariant Counted(writeLocks, readonlyLocks, total)
        invariant total + Granted(checked[i..]) == old(total) + Granted(checked)
        invariant forall j :: 0 <= j < i ==> results[j] == if checked[j].Ok? then Ok(()) else Err(checked[j].error)
      {
        assert checked[i..][1..] == checked[i + 1..];
        if checked[i].Ok? {
          LockAccounts(checked[i].value);
          results := results + [Ok(())];
        } else {
          results := results + [Err(checked[i].error)];
        }
      }
    }

    /** `try_lock_transaction_batch`, for a batch `b` that holds nothing yet. A transaction is
        locked exactly if it is valid and conflicts with no lock held before the batch. */
    method TryLockBatch(ghost b: BatchId, batch: seq<Result<seq<Use>>>) returns (results: seq<Result<()>>)
      requires Valid() && b !in held
      modifies this
      ensures Valid()
      ensures |results| == |batch|
      ensures forall i :: 0 <= i < |batch| ==>
                results[i] == if batch[i].Err? then Err(batch[i].error)
                              else if AllFree(old(total), batch[i].value) then Ok(()) else Err(AccountInUse)
      ensures held == old(held)[b := Granted(Passed(batch, results))]
    {
      var checked := CheckBatch(batch);
      results := LockBatch(checked);
      BatchLocked(held, old(total), b, checked);
      PassedSame(old(total), batch, checked, results);
      held := held[b := Granted(checked)];
    }

    /** `Accounts::lock_accounts`: transactions that failed before or do not validate take no
        locks, the others are tried as one batch. */
    method LockTransactions(ghost b: BatchId, txs: seq<seq<Use>>, prior: seq<Result<()>>, limit: nat)
      returns (results: seq<Result<()>>)
      requires Valid() && b !in held && |prior| == |txs|
      modifies this
      ensures Valid()
      ensures |results| == |txs|
      ensures forall i :: 0 <= i < |txs| ==>
                results[i] == if prior[i].Err? then prior[i]
                              else if |txs[i]| > limit then Err(TooManyAccountLocks)
                              else if Duplicated(KeysOf(txs[i])) then Err(AccountLoadedTwice)
                              else if AllFree(old(total), txs[i]) then Ok(()) else Err(AccountInUse)
      ensures held == old(held)[b := Holding(txs, results)]
    {
      var batch: seq<Result<seq<Use>>> := [];
      for i := 0 to |txs|
        invariant held == old(held) && total == old(total) && Valid()
        invariant |batch| == i
        invariant forall j :: 0 <= j < i ==>
                    batch[j] == if prior[j].Err? then Err(prior[j].error)
                                else if |txs[j]| > limit then Err(TooManyAccountLocks)
                                else if Duplicated(KeysOf(txs[j])) then Err(AccountLoadedTwice) else Ok(txs[j])
      {
        if prior[i].Err? {
          batch := batch + [Err(prior[i].error)];
        } else {
          var valid := Validate(KeysOf(txs[i]), limit);
          batch := batch + [if valid.Ok? then Ok(txs[i]) else Err(valid.error)];
        }
      }
      results := TryLockBatch(b, batch);
      HoldingIsGranted(txs, batch, results);
    }

    /** `Accounts::unlock_accounts`: unlocking exactly the Ok results leaves the batch nothing. */
    method UnlockTransactions(ghost b: BatchId, txs: seq<seq<Use>>, results: seq<Result<()>>)
      requires Valid() && b in held && |results| == |txs|
      requires held[b] == Holding(txs, results)
      modifies this
      ensures Valid()
      ensures held == old(held)[b := multiset{}]
    {
      assert txs[0..] == txs && results[0..] == results;
      for i := 0 to |txs|
        invariant Valid() && b in held && held == old(held)[b := held[b]]
        invariant held[b] == Holding(txs[i..], results[i..])
      {
        assert txs[i..][1..] == txs[i + 1..] && results[i..][1..] == results[i + 1..];
        if results[i].Ok? {
          UnlockAccounts(b, txs[i]);
        }
      }
    }

    method UnlockOne(u: Use)
      requires Counted(writeLocks, readonlyLocks, total) && u in total
      modifies this`writeLocks, this`readonlyLocks, this`total
      ensures Counted(writeLocks, readonlyLocks, total) && total == old(total) - multiset{u}
    {
      assert CountOf(writeLocks, u.key) == total[Use(u.key, true)];
      assert CountOf(readonlyLocks, u.key) == total[Use(u.key, false)];
      if u.writable {
        writeLocks := Decrement(writeLocks, u.key);
      } else {
        readonlyLocks := Decrement(readonlyLocks, u.key);
      }
      total := total - multiset{u};
    }

    /** `unlock_accounts`: every key is found in the map it is looked up in. */
    method UnlockAll(uses: seq<Use>)
      requires Counted(writeLocks, readonlyLocks, total) && multiset(uses) <= total
      modifies this`writeLocks, this`readonlyLocks, this`total
      ensures Counted(writeLocks, readonlyLocks, total) && total == old(total) - multiset(uses)
    {
      for i := 0 to |uses|
        invariant total == old(total) - multiset(uses[..i])
        invariant Counted(writeLocks, readonlyLocks, total)
      {
        StillHeld(old(total), uses, i);
        UnlockOne(uses[i]);
      }
      assert uses[..|uses|] == uses;
    }

    /** `unlock_accounts` for one transaction of batch `b` that holds its locks. */
    method UnlockAccounts(ghost b: BatchId, uses: seq<Use>)
      requires Valid() && b in held && multiset(uses) <= held[b]
      modifies this
      ensures Valid()
      ensures held == old(held)[b := old(held)[b] - multiset(uses)]
    {
      forall u {
        HeldWithin(held, total, b, u);
      }
      ReleaseExclusive(held, b, held[b] - multiset(uses));
      TotalsChange(held, total, b, held[b] - multiset(uses), total - multiset(uses));
      UnlockAll(uses);
      held := held[b := held[b] - multiset(uses)];
    }
  }

  /** What a batch of transactions with these results holds. */
  ghost function Holding(txs: seq<seq<Use>>, results: seq<Result<()>>): multiset<Use>
    requires |results| == |txs|
  {
    if txs == [] then multiset{}
    else (if results[0].Ok? then multiset(txs[0]) else multiset{}) + Holding(txs[1..], results[1..])
  }

  lemma {:induction false} HoldingIsGranted(txs: seq<seq<Use>>, batch: seq<Result<seq<Use>>>, results: seq<Result<()>>)
    requires |results| == |txs| == |batch|
    requires forall i :: 0 <= i < |txs| && results[i].Ok? ==> batch[i] == Ok(txs[i])
    ensures Holding(txs, results) == Granted(Passed(batch, results))
    decreases |txs|
  {
    if txs != [] {
      HoldingIsGranted(txs[1..], batch[1..], results[1..]);
      assert Passed(batch, results)[1..] == Passed(batch[1..], results[1..]);
    }
  }

  /** The transactions of `batch` whose result is Ok. */
  ghost function Passed(batch: seq<Result<seq<Use>>>, results: seq<Result<()>>): seq<Result<seq<Use>>>
    requires |results| == |batch|
  {
    seq(|batch|, i requires 0 <= i < |batch| => if results[i].Ok? then batch[i] else Err(AccountInUse))
  }

  ghost predicate GrantedSame(p: seq<Result<seq<Use>>>, q: seq<Result<seq<Use>>>) {
    |p| == |q| && forall i :: 0 <= i < |p| ==> (p[i].Ok? <==> q[i].Ok?) && (p[i].Ok? ==> p[i] == q[i])
  }

  ghost predicate CheckedFrom(total: multiset<Use>, batch: seq<Result<seq<Use>>>, checked: seq<Result<seq<Use>>>) {
    && |checked| == |batch|
    && forall i :: 0 <= i < |batch| ==>
         checked[i] == if batch[i].Ok? && !AllFree(total, batch[i].value) then Err(AccountInUse) else batch[i]
  }

  lemma PassedSame(total: multiset<Use>, batch: seq<Result<seq<Use>>>, checked: seq<Result<seq<Use>>>, results: seq<Result<()>>)
    requires CheckedFrom(total, batch, checked) && |results| == |batch|
    requires forall i :: 0 <= i < |checked| ==> (results[i].Ok? <==> checked[i].Ok?)
    ensures Granted(Passed(batch, results)) == Granted(checked)
  {
    SameGrants(Passed(batch, results), checked);
  }

  /** Granting what was checked keeps the totals and the exclusion. */
  lemma BatchLocked(held: Held, total: multiset<Use>, b: BatchId, checked: seq<Result<seq<Use>>>)
    requires Totals(held, total) && Exclusive(held) && b !in held
    requires forall i :: 0 <= i < |checked| && checked[i].Ok? ==> AllFree(total, checked[i].value)
    ensures Totals(held[b := Granted(checked)], total + Granted(checked))
    ensures Exclusive(held[b := Granted(checked)])
  {
    var granted := Granted(checked);
    forall u | u in granted
      ensures Free(total, u)
    {
      GrantedFree(total, checked, u);
    }
    StaysExclusive(held, total, b, granted);
    TotalsChange(held, total, b, granted, total + granted);
  }

  lemma {:induction false} SameGrants(p: seq<Result<seq<Use>>>, q: seq<Result<seq<Use>>>)
    requires GrantedSame(p, q)
    ensures Granted(p) == Granted(q)
  {
    if p != [] {
      SameGrants(p[1..], q[1..]);
    }
  }
}
