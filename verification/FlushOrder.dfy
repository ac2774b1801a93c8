/** A flush of several roots: which accounts of each root are stored, in which order the roots
    go, and what the index lists afterwards. */
module FlushOrder {
  import opened Types
  import opened AncestorSets
  import opened PrimaryIndex
  import opened Store
  import opened Invariant
  import opened Work
  import Caches = AccountsCaches

  // ---------------------------------------------------------------------------------------
  // Which accounts to store
  // ---------------------------------------------------------------------------------------

  /** `FlushShouldClean`. */
  datatype ShouldClean = Keep | Clean(maxCleanRoot: Option<Slot>)

  predicate IsCleaned(should: ShouldClean, root: Slot) {
    should.Clean? && (should.maxCleanRoot.None? || root <= should.maxCleanRoot.value)
  }

  predicate CachedAt(st: State, root: Slot, k: Pubkey) {
    root in st.cache && k in st.cache[root]
  }

  /** A later root of the flush that is cleaned has `k` cached as well. */
  ghost predicate NewerIn(st: State, roots: seq<Slot>, should: ShouldClean, i: nat, k: Pubkey) {
    exists j :: i < j < |roots| && IsCleaned(should, roots[j]) && CachedAt(st, roots[j], k)
  }

  /** `keys` are the accounts of `roots[i]` to store: all, or with cleaning the newest ones. */
  ghost predicate SelectedAt(st: State, roots: seq<Slot>, should: ShouldClean, i: nat, keys: set<Pubkey>)
    requires i < |roots|
  {
    forall k :: k in keys <==>
      CachedAt(st, roots[i], k) && (IsCleaned(should, roots[i]) ==> !NewerIn(st, roots, should, i, k))
  }

  function CachedKeysAt(st: State, root: Slot): set<Pubkey> {
    if root in st.cache then st.cache[root].Keys else {}
  }

  /** Keys cached at a cleaned root from position `n` on. */
  ghost predicate SeenFrom(st: State, roots: seq<Slot>, should: ShouldClean, n: nat, seen: set<Pubkey>) {
    forall k :: k in seen <==> exists j :: n <= j < |roots| && IsCleaned(should, roots[j]) && CachedAt(st, roots[j], k)
  }

  lemma SeenOneMore(st: State, roots: seq<Slot>, should: ShouldClean, n: nat, seen: set<Pubkey>)
    requires n < |roots| && SeenFrom(st, roots, should, n + 1, seen)
    ensures IsCleaned(should, roots[n]) ==>
              && SeenFrom(st, roots, should, n, seen + CachedKeysAt(st, roots[n]))
              && SelectedAt(st, roots, should, n, CachedKeysAt(st, roots[n]) - seen)
    ensures !IsCleaned(should, roots[n]) ==>
              && SeenFrom(st, roots, should, n, seen)
              && SelectedAt(st, roots, should, n, CachedKeysAt(st, roots[n]))
  {
    forall k
      ensures (exists j :: n <= j < |roots| && IsCleaned(should, roots[j]) && CachedAt(st, roots[j], k)) <==>
                k in seen || (IsCleaned(should, roots[n]) && CachedAt(st, roots[n], k))
      ensures NewerIn(st, roots, should, n, k) <==> k in seen
    {
      if k in seen {
        var j :| n + 1 <= j < |roots| && IsCleaned(should, roots[j]) && CachedAt(st, roots[j], k);
      }
    }
  }

  /** `select_pubkeys_to_store`, from the newest root to the oldest. */
  method SelectPubkeys(st: State, roots: seq<Slot>, should: ShouldClean) returns (selected: map<Slot, set<Pubkey>>)
    requires Ascending(roots)
    ensures forall i :: 0 <= i < |roots| ==> roots[i] in selected && SelectedAt(st, roots, should, i, selected[roots[i]])
  {
    selected := map[];
    var written: set<Pubkey> := {};
    var n := |roots|;
    while n > 0
      invariant 0 <= n <= |roots|
      invariant SeenFrom(st, roots, should, n, written)
      invariant forall i :: n <= i < |roots| ==> roots[i] in selected && SelectedAt(st, roots, should, i, selected[roots[i]])
    {
      n := n - 1;
      SeenOneMore(st, roots, should, n, written);
      var keys := CachedKeysAt(st, roots[n]);
      if IsCleaned(should, roots[n]) {
        selected := selected[roots[n] := keys - written];
        written := written + keys;
      } else {
        selected := selected[roots[n] := keys];
      }
    }
  }

  /** The members of a set of slots, oldest first. */
  method OldestFirst(slots: set<Slot>) returns (sorted: seq<Slot>)
    ensures Ascending(sorted)
    ensures forall s :: s in sorted <==> s in slots
  {
    sorted := [];
    var todo := slots;
    while todo != {}
      invariant Ascending(sorted) && todo <= slots
      invariant forall s :: s in sorted <==> s in slots - todo
      decreases |todo|
    {
      var s :| s in todo;
      sorted := Caches.Insert(sorted, s);
      todo := todo - {s};
    }
  }

  /** The highest root that is cleaned, 0 if there is none. */
  function HighestCleaned(roots: seq<Slot>, should: ShouldClean): (r: Slot)
    ensures r == 0 || (r in roots && IsCleaned(should, r))
    ensures forall i :: 0 <= i < |roots| && IsCleaned(should, roots[i]) ==> roots[i] <= r
  {
    if roots == [] then 0
    else
      var n := |roots| - 1;
      var rest := HighestCleaned(roots[..n], should);
      if IsCleaned(should, roots[n]) && rest < roots[n] then roots[n] else rest
  }

  function Slots(roots: seq<Slot>): set<Slot> {
    set r | r in roots
  }

  /** Where the flush of `roots` stands before the one at position `i`. */
  ghost predicate FlushedBefore(st0: State, st: State, roots: seq<Slot>, i: nat)
    requires i <= |roots|
  {
    && st.phase.Idle? && st.roots == st0.roots && st.scans == st0.scans
    && st.cache == st0.cache - Slots(roots[..i])
    && st.unflushed == st0.unflushed - Slots(roots[..i])
  }

  ghost predicate ToFlush(st0: State, roots: seq<Slot>, requested: Option<Slot>) {
    && Ascending(roots)
    && forall r :: r in roots <==> r in st0.unflushed && (requested.Some? ==> r <= requested.value)
  }

  /** The next root is the oldest unflushed one. */
  lemma NextIsOldest(st0: State, st: State, roots: seq<Slot>, requested: Option<Slot>, i: nat)
    requires i < |roots| && ToFlush(st0, roots, requested) && FlushedBefore(st0, st, roots, i)
    ensures roots[i] in st.unflushed && forall u :: u in st.unflushed ==> roots[i] <= u
    ensures forall j :: i <= j < |roots| ==> roots[j] in st.unflushed && (roots[j] in st.cache <==> roots[j] in st0.cache)
  {
    forall j | i <= j < |roots|
      ensures roots[j] !in roots[..i] && roots[j] in st0.unflushed
    {
      assert roots[j] in roots;
    }
    forall u | u in st.unflushed
      ensures roots[i] <= u
    {
      assert roots[i] in roots;
      if u in roots {
        var j :| 0 <= j < |roots| && roots[j] == u;
      }
    }
  }

  /** No scan is pinned below what is cleaned. */
  ghost predicate ScansSpared(st: State, should: ShouldClean) {
    forall s :: s in st.scans && should.Clean? ==> should.maxCleanRoot.Some? && should.maxCleanRoot.value <= s
  }

  lemma NextCanFlush(st0: State, st: SoundState, roots: seq<Slot>, requested: Option<Slot>, should: ShouldClean, i: nat, keys: set<Pubkey>)
    requires i < |roots| && ToFlush(st0, roots, requested) && FlushedBefore(st0, st, roots, i)
    requires SelectedAt(st0, roots, should, i, keys) && ScansSpared(st0, should)
    requires roots[i] in st.cache
    ensures CanFlushSlot(st, roots[i], IsCleaned(should, roots[i]), HighestCleaned(roots, should), keys)
  {
    NextIsOldest(st0, st, roots, requested, i);
    var root, bound := roots[i], HighestCleaned(roots, should);
    assert st.cache[root] == st0.cache[root];
    if IsCleaned(should, root) {
      CleanedBound(st0, st, roots, requested, should, i);
      forall k | k in st.cache[root] && k !in keys
        ensures Superseded(st, root, bound, k)
      {
        assert CachedAt(st0, root, k);
        assert NewerIn(st0, roots, should, i, k);
        var j :| i < j < |roots| && IsCleaned(should, roots[j]) && CachedAt(st0, roots[j], k);
        assert roots[j] in st.unflushed && roots[j] in st.cache && k in st.cache[roots[j]];
      }
    }
  }

  lemma CleanedBound(st0: State, st: SoundState, roots: seq<Slot>, requested: Option<Slot>, should: ShouldClean, i: nat)
    requires i < |roots| && ToFlush(st0, roots, requested) && FlushedBefore(st0, st, roots, i)
    requires IsCleaned(should, roots[i]) && ScansSpared(st0, should)
    ensures var bound := HighestCleaned(roots, should);
            bound in st.roots && roots[i] <= bound && forall s :: s in st.scans ==> bound <= s
  {
    var bound := HighestCleaned(roots, should);
    NextIsOldest(st0, st, roots, requested, i);
    if bound in roots {
      var j :| 0 <= j < |roots| && roots[j] == bound;
      assert i <= j;
      assert roots[j] in st.unflushed;
    }
  }

  lemma FlushedNext(st0: State, before: State, st: State, roots: seq<Slot>, i: nat)
    requires i < |roots| && FlushedBefore(st0, before, roots, i)
    requires st.phase.Idle? && st.roots == before.roots && st.scans == before.scans
    requires st.cache == before.cache - {roots[i]} && st.unflushed == before.unflushed - {roots[i]}
    ensures FlushedBefore(st0, st, roots, i + 1)
  {
    assert roots[..i + 1] == roots[..i] + [roots[i]];
    assert Slots(roots[..i + 1]) == Slots(roots[..i]) + {roots[i]};
    assert st0.cache - Slots(roots[..i]) - {roots[i]} == st0.cache - Slots(roots[..i + 1]);
  }

  lemma NoneFlushed(st0: State, roots: seq<Slot>)
    requires st0.phase.Idle?
    ensures FlushedBefore(st0, st0, roots, 0)
  {
    assert Slots(roots[..0]) == {};
    assert st0.cache - {} == st0.cache;
  }

  /** The roots up to `requested` have left the cache, everything else is still in it. */
  ghost predicate AllFlushed(st0: State, st: State, requested: Option<Slot>) {
    && st.phase.Idle? && st.roots == st0.roots && st.scans == st0.scans
    && (forall r :: r in st.unflushed <==> r in st0.unflushed && requested.Some? && requested.value < r)
    && (forall s :: s in st.cache <==> s in st0.cache && !(s in st0.unflushed && (requested.Some? ==> s <= requested.value)))
    && (forall s :: s in st.cache ==> st.cache[s] == st0.cache[s])
  }

  lemma FlushIsDone(st0: State, st: State, roots: seq<Slot>, requested: Option<Slot>)
    requires ToFlush(st0, roots, requested) && FlushedBefore(st0, st, roots, |roots|)
    ensures AllFlushed(st0, st, requested)
  {
    assert roots[..|roots|] == roots;
  }

  /** The accounts `keys` of the oldest unflushed root can be flushed. */
  ghost predicate CanFlushSlot(st: State, root: Slot, clean: bool, bound: Slot, keys: set<Pubkey>) {
    && st.phase.Idle?
    && root in st.unflushed && root in st.cache
    && (forall u :: u in st.unflushed ==> root <= u)
    && keys <= st.cache[root].Keys
    && (!clean ==> keys == st.cache[root].Keys)
    && (clean ==>
          && bound in st.roots && root <= bound
          && (forall s :: s in st.scans ==> bound <= s)
          && (forall k :: k in st.cache[root] && k !in keys ==> Superseded(st, root, bound, k)))
  }

  // ---------------------------------------------------------------------------------------
  // What the index lists afterwards
  // ---------------------------------------------------------------------------------------

  /** Indexing the accounts `stored` at `root` leaves other keys alone, and without cleaning all
      other slots as well. */
  ghost predicate IndexFrame(ix0: Index, ix: Index, root: Slot, clean: bool, stored: set<Pubkey>) {
    forall k, s: Slot :: k !in stored || (!clean && s != root) ==> (Has(ix, k, s) <==> Has(ix0, k, s))
  }

  lemma FlushKeyOthers(st: State, i: Offset)
    requires CanFlushKey(st, i)
    ensures var k := st.storages[st.phase.root].records[i].pubkey;
            forall k', s: Slot :: k' != k || (!st.phase.clean && s != st.phase.root) ==>
              (Has(FlushKey(st, i).index, k', s) <==> Has(st.index, k', s))
  {
    var r := st.phase.root;
    var k := st.storages[r].records[i].pubkey;
    var info := Info(st.storages[r].id, i, IsZero(st.storages[r].records[i].account));
    if !st.phase.clean {
      assert FlushKey(st, i).index == UpsertKeepOld(st.index, k, r, info);
    } else if info.zero {
      assert FlushKey(st, i).index == Delete(st.index, k);
    } else {
      assert FlushKey(st, i).index == UpsertReclaimOld(st.index, k, r, info);
    }
  }

  lemma FlushKeyFrame(ix0: Index, st: State, i: Offset)
    requires CanFlushKey(st, i) && st.phase.todo <= st.phase.stored
    requires IndexFrame(ix0, st.index, st.phase.root, st.phase.clean, st.phase.stored)
    ensures IndexFrame(ix0, FlushKey(st, i).index, st.phase.root, st.phase.clean, st.phase.stored)
  {
    FlushKeyOthers(st, i);
  }

  /** What storing the accounts `keys` of `c` at `root` makes of the index. With cleaning a key
      has one entry, or none if its account is zero-lamport; without, an entry is added, unless
      there is nothing a zero-lamport account could hide. */
  ghost predicate TakenUp(ix0: Index, ix: Index, root: Slot, clean: bool, c: map<Pubkey, Account>, keys: set<Pubkey>) {
    forall k, s: Slot ::
      Has(ix, k, s) <==>
        if k !in keys || k !in c then Has(ix0, k, s)
        else if clean then s == root && !IsZero(c[k])
        else Has(ix0, k, s) || (s == root && (IsZero(c[k]) ==> k in ix0))
  }

  lemma StoredTakenUp(st0: State, st: State, keys: set<Pubkey>)
    requires Inv(st0) && Inv(st) && st.phase.Flushing? && st.phase.todo == {}
    requires st.cache == st0.cache && st.phase.root in st0.cache && keys <= st0.cache[st.phase.root].Keys
    requires st.phase.stored == ToStore(st0, st.phase.root, keys)
    requires IndexFrame(st0.index, st.index, st.phase.root, st.phase.clean, st.phase.stored)
    ensures TakenUp(st0.index, st.index, st.phase.root, st.phase.clean, st0.cache[st.phase.root], keys)
  {
    var root, c := st.phase.root, st0.cache[st.phase.root];
    forall k, s: Slot
      ensures Has(st.index, k, s) <==>
                if k !in keys || k !in c then Has(st0.index, k, s)
                else if st.phase.clean then s == root && !IsZero(c[k])
                else Has(st0.index, k, s) || (s == root && (IsZero(c[k]) ==> k in st0.index))
    {
      if k in st.phase.stored {
        assert FlushedKeyOk(st.index, st.phase, k, c[k]);
      }
    }
  }

  /** `r` is one of the roots to flush. */
  predicate IsFlushed(st0: State, requested: Option<Slot>, r: Slot) {
    r in st0.unflushed && (requested.Some? ==> r <= requested.value)
  }

  function FlushedRoots(st0: State, requested: Option<Slot>): set<Slot> {
    set r | r in st0.unflushed && IsFlushed(st0, requested, r)
  }

  lemma RootsAreDone(st0: State, roots: seq<Slot>, requested: Option<Slot>)
    requires ToFlush(st0, roots, requested)
    ensures Slots(roots[..|roots|]) == FlushedRoots(st0, requested)
  {
    assert roots[..|roots|] == roots;
  }

  /** After the flush `n` is the one place of `k`, unless later roots that are not cleaned have
      it too. If the account at `n` is zero-lamport, there is not even that. */
  ghost predicate LeftAt(st0: State, ix: Index, requested: Option<Slot>, should: ShouldClean, k: Pubkey, n: Slot)
    requires CachedAt(st0, n, k)
  {
    && (Has(ix, k, n) <==> !IsZero(st0.cache[n][k]))
    && forall s: Slot :: Has(ix, k, s) && s != n ==> s > n && IsFlushed(st0, requested, s) && !IsCleaned(should, s) && CachedAt(st0, s, k)
  }

  /** Among the roots to flush, `n` is the newest cleaned one with `k`. */
  ghost predicate NewestCleaned(st0: State, requested: Option<Slot>, should: ShouldClean, k: Pubkey, n: Slot) {
    && IsFlushed(st0, requested, n) && IsCleaned(should, n) && CachedAt(st0, n, k)
    && forall r: Slot :: IsFlushed(st0, requested, r) && IsCleaned(should, r) && CachedAt(st0, r, k) ==> r <= n
  }

  /** The entries of `k` once the roots `done` are flushed: where a cleaned root has it, all that
      is left is at the newest of them; roots that are not cleaned add an entry; and without a
      cleaned root nothing goes. */
  ghost predicate KeyFlushed(st0: State, ix: Index, requested: Option<Slot>, should: ShouldClean, done: set<Slot>, k: Pubkey) {
    && (forall n: Slot :: n in done && NewestCleaned(st0, requested, should, k, n) ==> LeftAt(st0, ix, requested, should, k, n))
    && (forall r :: r in done && AddsEntry(st0, should, k, r) ==> Has(ix, k, r))
    && (NoneCleans(st0, should, done, k) ==> forall s: Slot :: Has(st0.index, k, s) ==> Has(ix, k, s))
  }

  ghost predicate AddsEntry(st0: State, should: ShouldClean, k: Pubkey, r: Slot) {
    !IsCleaned(should, r) && CachedAt(st0, r, k) && !IsZero(st0.cache[r][k])
  }

  ghost predicate NoneCleans(st0: State, should: ShouldClean, done: set<Slot>, k: Pubkey) {
    forall r :: r in done && IsCleaned(should, r) ==> !CachedAt(st0, r, k)
  }

  /** What the flush of root `r` does to the entries of `k`. */
  ghost predicate KeyTakenUp(st0: State, ix: Index, ix': Index, should: ShouldClean, r: Slot, k: Pubkey, selected: bool) {
    forall s: Slot ::
      Has(ix', k, s) <==>
        if !selected || !CachedAt(st0, r, k) then Has(ix, k, s)
        else if IsCleaned(should, r) then s == r && !IsZero(st0.cache[r][k])
        else Has(ix, k, s) || (s == r && (IsZero(st0.cache[r][k]) ==> k in ix))
  }

  /** Later roots that are cleaned do not have the key any more, so what is left at `n` stays. */
  lemma LeftStays(st0: State, ix: Index, ix': Index, requested: Option<Slot>, should: ShouldClean, r: Slot, k: Pubkey,
                  selected: bool, n: Slot)
    requires NewestCleaned(st0, requested, should, k, n) && LeftAt(st0, ix, requested, should, k, n)
    requires IsFlushed(st0, requested, r) && n < r
    requires KeyTakenUp(st0, ix, ix', should, r, k, selected)
    ensures LeftAt(st0, ix', requested, should, k, n)
  {
  }

  lemma KeyFlushedNext(st0: State, ix: Index, ix': Index, requested: Option<Slot>, should: ShouldClean, done: set<Slot>,
                       r: Slot, k: Pubkey, selected: bool)
    requires KeyFlushed(st0, ix, requested, should, done, k) && KeyTakenUp(st0, ix, ix', should, r, k, selected)
    requires IsFlushed(st0, requested, r) && forall d :: d in done ==> d < r
    requires NewestCleaned(st0, requested, should, k, r) || AddsEntry(st0, should, k, r) ==> selected
    ensures KeyFlushed(st0, ix', requested, should, done + {r}, k)
  {
    var done' := done + {r};
    forall n | n in done' && NewestCleaned(st0, requested, should, k, n)
      ensures LeftAt(st0, ix', requested, should, k, n)
    {
      if n in done {
        LeftStays(st0, ix, ix', requested, should, r, k, selected, n);
      }
    }
    forall d | d in done' && AddsEntry(st0, should, k, d)
      ensures Has(ix', k, d)
    {
      assert d in done ==> Has(ix, k, d) && !IsCleaned(should, r);
    }
    if NoneCleans(st0, should, done', k) {
      assert r in done';
      assert NoneCleans(st0, should, done, k);
    }
  }

  ghost predicate AllKeysFlushed(st0: State, ix: Index, requested: Option<Slot>, should: ShouldClean, done: set<Slot>) {
    forall k :: KeyFlushed(st0, ix, requested, should, done, k)
  }

  /** What the flush of the root at position `i` made of the index. */
  ghost predicate RootTakenUp(st0: State, ix: Index, ix': Index, should: ShouldClean, r: Slot, keys: set<Pubkey>) {
    if r in st0.cache then TakenUp(ix, ix', r, IsCleaned(should, r), st0.cache[r], keys) else ix' == ix
  }

  lemma SelectedSome(st0: State, roots: seq<Slot>, requested: Option<Slot>, should: ShouldClean, i: nat, keys: set<Pubkey>, k: Pubkey)
    requires i < |roots| && ToFlush(st0, roots, requested) && SelectedAt(st0, roots, should, i, keys)
    ensures NewestCleaned(st0, requested, should, k, roots[i]) || AddsEntry(st0, should, k, roots[i]) ==> k in keys
  {
    if NewestCleaned(st0, requested, should, k, roots[i]) && NewerIn(st0, roots, should, i, k) {
      var j :| i < j < |roots| && IsCleaned(should, roots[j]) && CachedAt(st0, roots[j], k);
      assert roots[j] in roots;
      assert IsFlushed(st0, requested, roots[j]);
    }
  }

  lemma DoneNext(roots: seq<Slot>, i: nat)
    requires Ascending(roots) && i < |roots|
    ensures Slots(roots[..i + 1]) == Slots(roots[..i]) + {roots[i]}
    ensures forall d :: d in Slots(roots[..i]) ==> d < roots[i]
  {
    assert roots[..i + 1] == roots[..i] + [roots[i]];
  }

  lemma KeysFlushedNext(st0: State, ix: Index, ix': Index, roots: seq<Slot>, requested: Option<Slot>, should: ShouldClean,
                        i: nat, keys: set<Pubkey>)
    requires i < |roots| && ToFlush(st0, roots, requested) && SelectedAt(st0, roots, should, i, keys)
    requires AllKeysFlushed(st0, ix, requested, should, Slots(roots[..i]))
    requires RootTakenUp(st0, ix, ix', should, roots[i], keys)
    ensures AllKeysFlushed(st0, ix', requested, should, Slots(roots[..i + 1]))
  {
    var r, done := roots[i], Slots(roots[..i + 1]);
    DoneNext(roots, i);
    assert r in roots;
    forall k
      ensures KeyFlushed(st0, ix', requested, should, done, k)
    {
      SelectedSome(st0, roots, requested, should, i, keys, k);
      assert KeyTakenUp(st0, ix, ix', should, r, k, k in keys);
      KeyFlushedNext(st0, ix, ix', requested, should, Slots(roots[..i]), r, k, k in keys);
    }
  }

  lemma NoKeyFlushed(st0: State, requested: Option<Slot>, should: ShouldClean, roots: seq<Slot>)
    ensures AllKeysFlushed(st0, st0.index, requested, should, Slots(roots[..0]))
  {
  }

  /** `bound` is the highest root that is cleaned, 0 if there is none. */
  ghost predicate IsBound(st0: State, requested: Option<Slot>, should: ShouldClean, bound: Slot) {
    && (bound == 0 || (IsFlushed(st0, requested, bound) && IsCleaned(should, bound)))
    && forall r: Slot :: IsFlushed(st0, requested, r) && IsCleaned(should, r) ==> r <= bound
  }

  lemma HighestIsBound(st0: State, roots: seq<Slot>, requested: Option<Slot>, should: ShouldClean)
    requires ToFlush(st0, roots, requested)
    ensures IsBound(st0, requested, should, HighestCleaned(roots, should))
  {
    forall r: Slot | IsFlushed(st0, requested, r) && IsCleaned(should, r)
      ensures r <= HighestCleaned(roots, should)
    {
      assert r in roots;
      var i :| 0 <= i < |roots| && roots[i] == r;
    }
  }
}
