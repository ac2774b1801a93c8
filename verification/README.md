# Verified model of the accounts database

The accounts database keeps the state of a validator. New versions of accounts go to a write
cache per slot. Once a slot is rooted, its cache is *flushed* to a storage file and the primary
index is pointed at it. *Clean* takes outdated versions out of the index, *shrink* rewrites a
storage without its dead records, and a storage whose records are all dead is dropped. A load
looks in the write cache, then in a read cache, then in the index and the storage it names, while
all of this goes on. Deleted accounts live on as *tombstones* until a full snapshot covers them.

The project models that machinery and proves that none of it can be observed:

* `Store` is a state machine whose steps are the actions that other threads can see: one cache
  write, one index entry, one storage swap. Flush, clean and shrink are serial with each other (one
  background thread runs them); loads, scans and replay interleave with them at every step.
  `Invariant` is what every step keeps, `Machine` proves it for every run.
* `Loads`, `Meaning` and `Views` prove that a load answers like the naive reader "the newest version
  the reader can see", and that background work never changes the answer. `Interleaving`,
  `TornLoads` and `Fetches` prove the same for a load whose lookups happen at different times, and
  `DoLoads` is that load, lookup by lookup, with its retries.
* `Lifecycle`, `Deletions` and `ShrinkSize` prove the bookkeeping of storages: exact alive counters,
  when a storage dies, that deletions outlive every run, and the predicted size of a shrink.
* `Restart`, `Rebuild`, `Startup`, `Duplicates`, `StartupClean`, `FirstClean` and `Capitalization`
  prove that a restart from the files shows the same accounts, that the first clean leaves only those
  that exist in the index, and that the totals computed at startup are the sums over that view. `Aging`, `Marks` and `Snapshots` prove that storages archived long after a
  snapshot was begun still show the view at its slot.
* `AccountsCaches`, `AccountLocks`, `Orderer`, `Archive`, `SlotLists`, `Scans`, `Largest`,
  `WriteBatch` and `AccountsDatabase` are the imperative parts: classes and loops over mutable
  state, proved against the specifications above. `FlushOrder` and `FlushedStorage` prove what a
  flush of many roots leaves in the index and in storage.

`dafny verify dfyconfig.toml` checks everything.

Modelling choices:

* Keys, slots, offsets and storage ids are natural numbers. An offset is the position of a record;
  `StoredSize` gives the aligned number of bytes a record takes. Lamports and counters are unbounded.
* An account's content is one number; a zero-lamport account is the default account, as it is
  when written (`accounts-db/src/storable_accounts.rs:133-148`).
* A reader is its list of ancestors. It is `Consistent` with the roots: what it sees of the roots is
  closed downward. It is `Sheltered` when it sees every root the running clean or cleaning flush
  goes up to. A scan is sheltered because it pins its root (`ScanSheltered`); a reader that is
  neither on the cleaned fork nor pinned gets no promise from the source either.
* Choices made by heuristics, timers or hash order (which root to flush next to a limit, which
  slots to shrink, in which order reclaims are handled) are arbitrary, so the theorems hold for
  all of them.
* `SharedStore.Others` and `CacheWriter.Others` stand for the steps of all other threads between two
  actions of a load or of a bank's write. `SharedStore.OthersPinned` is the same for a scan, where
  only the pin is assumed to stay and the sheltering is proved from it.
* `Held`, `total` and batch names in `Locks` and the log of a `Consumer` are ghost records of who
  holds or took what.

Where code and comments differ, the code is followed. Two results are not what one would
expect from the text alone:

* `FirstSnapshot.FirstSnapshotSpoils`: the first full snapshot can turn a queued shrink candidate
  into one that does not get smaller; the lemma is a run from the empty database that ends there.
  `ShrinkSize.FirstSnapshotCandidate` gives the exact condition for a candidate to stay worth
  shrinking. Every later change of the snapshot slot is harmless (`NoUnexpectedShrink`).
* `SlotLists.LatestSlot` prefers ancestors over newer roots; this equals "newest visible" because
  only roots older than every ancestor are considered (`AncestorsFirst`).

## Model

| member | source | states |
|---|---|---|
| `Invariant.EmptyOk` | accounts-db/src/accounts_db.rs:911-1015 | a new database satisfies the invariant |
| `Machine.TakenKeepsInv` | accounts-db/src/accounts_db.rs:3715-3829 | every step of replay, reads, flush, clean and shrink keeps the invariant: entries resolve, every alive record has exactly one reason to be alive, books are exact, caches are coherent |
| `Machine.RunKeepsInv` | accounts-db/src/accounts_db.rs:1503-1663 | so does every run of any length and interleaving |
| `Machine.ReachableInv` | accounts-db/src/accounts_db.rs:911-1015 | every state reachable from the empty database satisfies the invariant |
| `ForegroundProofs.StoreCachedInv` | accounts-db/src/accounts_cache.rs:287-312 | writing an account to an unrooted slot's cache keeps the invariant in every phase of the background work |
| `ForegroundProofs.PurgeSlotInv` | accounts-db/src/accounts_db.rs:3165-3203 | abandoning an unrooted slot keeps the invariant |
| `ForegroundProofs.AddRootInv` | accounts-db/src/accounts_db.rs:4794-4804 | rooting a slot keeps the invariant, also while older roots are being flushed or cleaned |
| `ForegroundProofs.FetchInv` | accounts-db/src/accounts_db.rs:3036-3051 | an account read from storage may be held by a load while everything else goes on |
| `ForegroundProofs.PopulateInv` | accounts-db/src/accounts_db.rs:3052-3075 | storing a fetched account in the read cache late cannot bring back an outdated version |
| `ForegroundProofs.BeginScanInv` | accounts-db/src/accounts_scan.rs:122-170 | pinning the newest root keeps the invariant |
| `ForegroundProofs.SetSnapshotInv` | accounts-db/src/accounts_db.rs:4834-4838 | a newer full snapshot slot keeps the invariant |
| `FlushProofs.BeginFlushInv` | accounts-db/src/accounts_db.rs:4512-4532 | the new storage is complete and in the map before any index entry mentions it |
| `FlushProofs.FlushKeyInv` | accounts-db/src/accounts_db.rs:4154-4197 | moving one index entry to the new storage, or taking a deleted key out, keeps the invariant; the versions it replaces become pending reclaims |
| `FlushProofs.FlushEvictInv` | accounts-db/src/accounts_db.rs:4538-4546 | dropping a flushed account from the read cache keeps the invariant |
| `FlushProofs.EndFlushInv` | accounts-db/src/accounts_db.rs:3793-3829 | dropping the slot from the write cache after its reclaims are handled keeps the invariant, and every pair of versions left behind is recorded for a later clean |
| `FlushProofs.UntrackInv` | accounts-db/src/accounts_db.rs:3655-3667 | a root without a cache only leaves the set of unflushed roots |
| `CleanProofs.BeginCleanInv` | accounts-db/src/accounts_db.rs:1284-1374 | collecting the clean candidates keeps the invariant: no pair of versions is forgotten |
| `CleanProofs.CleanKeyInv` | accounts-db/src/accounts_db.rs:1566-1632 | cleaning one key keeps the invariant |
| `CleanProofs.EndCleanInv` | accounts-db/src/accounts_db.rs:1655-1663 | when a clean ends, no key has two versions at or below the cleaned root |
| `ReclaimProofs.HandleInv` | accounts-db/src/accounts_db.rs:4275-4377 | recording the pending reclaims of one slot, and dropping its storage if dead, keeps the invariant |
| `ReclaimProofs.SweepInv` | accounts-db/src/accounts_db.rs:1384-1418 | dropping a storage of tombstones that a full snapshot covers keeps the invariant |
| `ShrinkProofs.BeginShrinkInv` | accounts-db/src/account_storage.rs:203-239 | putting the new storage in the shrink map keeps the invariant |
| `ShrinkProofs.ShrinkKeyInv` | accounts-db/src/accounts_db.rs:4205-4217 | repointing one entry to the storage being written keeps the invariant |
| `ShrinkProofs.CarryInv` | accounts-db/src/accounts_db.rs:4494-4505 | appending the tombstones keeps the invariant |
| `ShrinkProofs.SwapInv` | accounts-db/src/account_storage.rs:313-333 | swapping the storages keeps the invariant: no entry points into the old one any more |
| `ShrinkProofs.EndShrinkInv` | accounts-db/src/account_storage.rs:313-333 | leaving the shrink map keeps the invariant |
| `PrimaryIndex.UpsertKeepOld` | accounts-db/src/accounts_index/in_mem_accounts_index.rs:745-798 | the entry at the slot is the new one, every other entry stays |
| `PrimaryIndex.UpsertReclaimOld` | accounts-db/src/accounts_index/in_mem_accounts_index.rs:745-798 | the new entry replaces all entries of the key that are not newer, newer ones and other keys stay |
| `PrimaryIndex.Replace` | accounts-db/src/accounts_index/in_mem_accounts_index.rs:577-606 | the same entries exist, only the one replaced changes |
| `PrimaryIndex.Delete` | accounts-db/src/accounts_index/in_mem_accounts_index.rs:373-399 | the key is gone, all others stay |
| `PrimaryIndex.CleanKeyEffect` | accounts-db/src/accounts_index.rs:880-940 | after cleaning a key nothing older than the newest version up to the bound is left, everything from it on stays unless the key is removed, other keys are untouched |
| `PrimaryIndex.CleanKeyRemoves` | accounts-db/src/accounts_index.rs:915-940 | a key is removed if and only if one entry is left from the newest one up to the bound on, and it is zero-lamport |
| `PrimaryIndex.CleanKeyLeaves` | accounts-db/src/accounts_index.rs:915-940 | a zero-lamport entry that a clean leaves is not the only one of its key |
| `Storages.StoredSizeIs` | accounts-db/src/append_vec.rs:797-799 | the stored size of an account is the least multiple of 8 that holds its data and its meta data |
| `Storages.ReclaimsFit` | accounts-db/src/account_storage_entry.rs:235-255 | reclaims of alive records never exceed the alive count or the alive bytes, so the assertion in `remove_accounts` holds; the count runs out exactly when all alive records are reclaimed |
| `Storages.HandleGroupOk` | accounts-db/src/accounts_db.rs:4275-4377 | after recording reclaims the books are exact, exactly the reclaimed records stopped being alive, and the storage is dropped if and only if nothing but purgeable tombstones is left |
| `Storages.AliveSize` | accounts-db/src/account_storage_entry.rs:118-131 | the alive counter counts the alive records plus the tombstones |
| `Storages.WithTombstonesOk` | accounts-db/src/accounts_db.rs:4494-4505 | appending tombstones keeps the books and the set of alive records |
| `Loads.CacheFirst` | accounts-db/src/accounts_db.rs:2989-3013 | a visible version in the write cache is never older than any visible version in the index |
| `Loads.ReadCacheCoherent` | accounts-db/src/accounts_db.rs:3015-3034 | a hit in the read cache is what the index and the storage would give |
| `Loads.LoadIsNaive` | accounts-db/src/accounts_db.rs:2989-3088 | in every sound state `load` returns the newest version the reader can see, and nothing for a zero-lamport one |
| `Meaning.FlushKeyNaive` | accounts-db/src/accounts_db.rs:4154-4197 | while a flush updates the index, entry by entry, no reader sees a difference |
| `Meaning.EndFlushNaive` | accounts-db/src/accounts_db.rs:3793-3801 | removing the flushed slot from the cache is not seen, although accounts superseded in newer roots were never stored |
| `Meaning.CleanKeyNaive` | accounts-db/src/accounts_db.rs:1566-1632 | removing outdated versions, and deleted keys entirely, is not seen |
| `Views.StepPreservesLoad` | accounts-db/src/accounts_db.rs:2719-2735 | no step other than the reader's own changes what any key loads |
| `Views.RunPreservesLoad` | accounts-db/src/accounts_db.rs:2719-2735 | neither does any run of such steps |
| `Views.ScanSheltered` | accounts-db/src/accounts_db.rs:1243-1255 | a pinned root keeps every clean and every cleaning flush at or below what the scan sees |
| `Views.PinnedIsReadable` | accounts-db/src/accounts_scan.rs:122-170 | every run that leaves the pin and keeps the reader consistent is one in which the reader stays sheltered: the pin alone suffices |
| `Views.ScanIsolated` | accounts-db/src/accounts_scan.rs:122-170 | from pinning its root to releasing it, a scan sees one unchanged view, whatever runs meanwhile |
| `Views.StoreThenLoad` | accounts-db/src/accounts_cache.rs:287-312 | a bank loads what it stored last, and its other accounts are unchanged |
| `Views.AbandonedShowsParent` | accounts-db/src/accounts_db.rs:3165-3203 | once a slot is abandoned no reader finds it in the cache, and its bank loads what its parent loads |
| `Interleaving.StepKeeps` | accounts-db/src/account_storage.rs:52-72 | no step makes an entry into a storage id given out before, starts a shrink to it or changes what was written to it |
| `Interleaving.EntryThroughout` | accounts-db/src/accounts_db.rs:2752-2987 | an entry that names the same storage before and after a run named it all the time |
| `Interleaving.NoBadIndexEntry` | accounts-db/src/accounts_db.rs:2752-2987 | if the map, the shrink map and the map again all miss a storage, the entry read before has changed by the next look at the index: the load never panics with a bad index entry |
| `Interleaving.FoundRecord` | accounts-db/src/account_storage.rs:52-72 | if one of the three lookups succeeds, however late, the record found there is the one the entry pointed at |
| `TornLoads.MissedLater` | accounts-db/src/accounts_db.rs:2989-3088 | a key missed in the write cache does not appear there for this reader |
| `TornLoads.TornLoadIsLoad` | accounts-db/src/accounts_db.rs:2989-3088 | a load whose lookups of write cache, read cache and index happen at three different times answers like a load done at once |
| `Fetches.FetchedLater` | accounts-db/src/accounts_db.rs:3052-3075 | however many steps later, if the entry a load has read is still in the index it still says the account the load has read |
| `DoLoads.GetStorageEntry` | accounts-db/src/account_storage.rs:52-72 | the three lookups, with any steps of others in between |
| `DoLoads.ReadEntryAccount` | accounts-db/src/accounts_db.rs:3091-3106 | the account an entry points at, read some time after the entry; if its storage is not found the entry never comes back |
| `DoLoads.TryEntry` | accounts-db/src/accounts_db.rs:2862-2985 | one round of the retry loop: the right account, or another entry to try; the same slot and storage do not come back, so the panic on a bad index entry is not reached |
| `DoLoads.LoadFromStorage` | accounts-db/src/accounts_db.rs:2752-2987 | the retry loop with its limit and its lookup under the entry's lock ends with the right answer |
| `DoLoads.PopulateReadCache` | accounts-db/src/accounts_db.rs:3052-3075 | the account read is cached exactly if its slot is the newest in the index by then and it is not zero-lamport |
| `DoLoads.DoLoad` | accounts-db/src/accounts_db.rs:2989-3088 | the whole load, with any steps of others between its actions, answers like a load done at once at its beginning; the answer is from the write cache, else from the read cache, else from storage, and in that case it has been put in the read cache if its slot was the newest one and it is not zero-lamport |
| `Lifecycle.AliveCountExact` | accounts-db/src/account_storage_entry.rs:118-131 | in every sound state the alive counter of a storage is the number of its index entries, pending reclaims, entries still to come and tombstones |
| `Lifecycle.HandleFits` | accounts-db/src/account_storage_entry.rs:235-255 | handling reclaims finds its storage and never takes a counter below zero |
| `Lifecycle.DeadIff` | accounts-db/src/accounts_db.rs:4275-4377 | handling reclaims drops a storage if and only if no entry points into it, all pending reclaims are handled and its tombstones may be purged |
| `Lifecycle.DeadIsGone` | accounts-db/src/accounts_db.rs:1823-1847 | a slot without storage has no entries and no reclaims |
| `Lifecycle.GroupsCommute` | accounts-db/src/accounts_db.rs:1806-1822 | two groups of reclaims of one storage can be recorded in either order |
| `Lifecycle.GroupsMerge` | accounts-db/src/accounts_db.rs:4275-4377 | recording them together or one after the other is the same |
| `Lifecycle.HandlesCommute` | accounts-db/src/accounts_db.rs:1806-1822 | handling the reclaims of any two groups, of the same or of different slots, commutes on the whole state |
| `Lifecycle.CleanedOnce` | accounts-db/src/accounts_db.rs:1064-1089 | in a reachable state a key has at most one version at or below the highest cleaned root |
| `Deletions.StepKeepsDeleted` | accounts-db/src/accounts_db.rs:2075-2181 | no step loses a tombstone that a full snapshot does not cover |
| `Deletions.DeletionSurvives` | accounts-db/src/accounts_db.rs:4224-4227 | over every run a tombstone newer than the last full snapshot is still in its slot |
| `Deletions.ReachableCarries` | accounts-db/src/accounts_db.rs:1942-2040 | in every reachable state a storage being rewritten carries all tombstones that may not be purged |
| `ShrinkSize.PredictionIs` | accounts-db/src/accounts_db.rs:4230-4239 | the predicted size of a shrink is the size of the records that remain |
| `ShrinkSize.PredictionExact` | accounts-db/src/accounts_db.rs:1942-2040 | the prediction from counters equals what collecting the records finds |
| `ShrinkSize.StepCandidates` | accounts-db/src/accounts_db.rs:1093-1114 | a queued candidate stays worth shrinking under every step but the first snapshot |
| `ShrinkSize.NoUnexpectedShrink` | accounts-db/src/accounts_db.rs:2075-2181 | over every such run rewriting a queued storage makes it smaller |
| `ShrinkSize.FirstSnapshotCandidate` | accounts-db/src/accounts_db.rs:4241-4259 | the first snapshot leaves a candidate worth shrinking if and only if the snapshot covers it or it has obsolete records |
| `FirstSnapshot.FirstSnapshotSpoils` | accounts-db/src/accounts_db.rs:2096-2120 | a reachable store whose queued candidate the first snapshot makes pointless: whatever a shrink collects is no smaller than the storage |
| `Restart.ListedIffAlive` | accounts-db/src/accounts_db.rs:4855-4996 | without background work the index lists exactly the alive records |
| `Restart.FilesShowIndex` | accounts-db/src/accounts_db.rs:4998-5344 | files that hold the record of every newest entry, and otherwise only alive records and tombstones, show what the index shows |
| `Restart.FilesShowLiveView` | accounts-db/src/accounts_db.rs:4998-5344 | reading the files newest slot first gives exactly what the live database showed, with any of the tombstones and dead slots left out |
| `Restart.ExtremeFiles` | accounts-db/src/account_storage_entry.rs:257-268 | keeping all tombstones and leaving all of them out are both allowed |
| `Rebuild.StartedInv` | accounts-db/src/accounts_db.rs:4998-5344 | a started store satisfies the invariant, so all theorems about runs hold after a restart |
| `Rebuild.StartedShows` | accounts-db/src/accounts_db.rs:4998-5344 | a started store shows what the files say |
| `Rebuild.RestartRoundTrip` | accounts-db/src/accounts_db.rs:4998-5344 | from the files of a store at rest a started store loads every key as before, and is sound |
| `Startup.IndexStorage` | accounts-db/src/accounts_db.rs:4855-4996 | one storage is indexed record by record: exactly its alive records get entries, and the total is their sum |
| `Startup.IndexAll` | accounts-db/src/accounts_db.rs:4998-5183 | all storages, split in any way among threads, are indexed, and the totals add up |
| `Startup.PlacesSplit` | accounts-db/src/accounts_db.rs:5222-5273 | the alive records are the superseded ones and exactly one newest one per key, which gives the totals in any commutative group |
| `Startup.Conservation` | accounts-db/src/accounts_db.rs:5222-5273 | for integer weights: everything stored minus what is superseded is the newest record of every key, once |
| `Duplicates.FindMax` | accounts-db/src/accounts_db.rs:5390-5445 | the newest slot of a list |
| `Duplicates.VisitKey` | accounts-db/src/accounts_db.rs:5390-5445 | the older entries of one key, added up |
| `Duplicates.VisitDuplicates` | accounts-db/src/accounts_db.rs:5390-5445 | visiting the keys with several entries finds exactly what is superseded |
| `StartupClean.CountStorage` | accounts-db/src/accounts_db.rs:4959-4973 | the counters set by the startup scan are exact |
| `StartupClean.CleanSlotList` | accounts-db/src/accounts_index/in_mem_accounts_index.rs:521-549 | the newest entry stays, all others are reclaimed |
| `StartupClean.CleanBin` | accounts-db/src/accounts_index.rs:940-956 | the keys of a bin are cleaned, and the reclaims are exactly their older entries |
| `StartupClean.HandleBin` | accounts-db/src/accounts_db.rs:5359-5366 | the reclaims of a bin are recorded slot by slot in any order, on top of those of earlier bins |
| `StartupClean.MarkObsoleteAtStartup` | accounts-db/src/accounts_db.rs:5348-5376 | for any division of the keys into bins all duplicate keys end up cleaned and their older records marked, as if at once |
| `StartupClean.GenerateIndex` | accounts-db/src/accounts_db.rs:4998-5344 | the whole startup: for any split of the storages among threads and of the keys into bins the result is a started store, the total of any weight is the sum over the newest record of every key, and every deleted account in the index is recorded for the first clean |
| `FirstClean.StartAndClean` | accounts-db/src/accounts_db.rs:4974-4981 | after startup and a clean up to the newest slot the index lists exactly the accounts that exist, none of them zero-lamport, and every load gives what the files hold |
| `StartupClean.RestartFrom` | accounts-db/src/accounts_db.rs:4998-5344 | stop and restart by that code: a sound store in which every key loads the same account |
| `Duplicates.NoUnderflow` | accounts-db/src/accounts_db.rs:5267-5273 | the subtraction of the duplicates never goes below zero |
| `Duplicates.CapitalizationIsView` | accounts-db/src/accounts_db.rs:5330-5344 | for lamports that total is the sum of what the files show |
| `Capitalization.CapitalizationExact` | accounts-db/src/accounts_db.rs:4026-4089 | the capitalization from the index, corrected by the cached accounts, is the sum of what every key loads |
| `SlotLists.LatestSlot` | accounts-db/src/accounts_index.rs:417-451 | the newest entry at an ancestor, else the newest one up to the given root |
| `SlotLists.AncestorsFirst` | accounts-db/src/accounts_index.rs:274-301 | with the oldest ancestor as that root this is the newest entry the reader can see |
| `SlotLists.GetWith` | accounts-db/src/accounts_index.rs:274-301 | the newest visible entry, none exactly if none is visible |
| `SlotLists.SlotListEntry.Upsert` | accounts-db/src/accounts_index/in_mem_accounts_index.rs:745-798 | one pass over a slot list updates it as specified and reclaims exactly what it replaced |
| `SlotLists.SlotListEntry.PurgeOlderEntries` | accounts-db/src/accounts_index.rs:880-912 | entries older than the newest one up to the bound go, marked with its slot |
| `SlotLists.SlotListEntry.CleanEntries` | accounts-db/src/accounts_index.rs:915-940 | as above, and a lone zero-lamport entry goes too, marked with its own slot |
| `SlotLists.UpsertedIs` | accounts-db/src/accounts_index.rs:800-826 | the slot list operation is the index operation of the state machine |
| `SlotLists.CleanedIs` | accounts-db/src/accounts_index.rs:915-940 | cleaning a slot list is the clean of a key of the state machine, and the key leaves the index if its list gets empty |
| `SlotLists.CleanReclaimsIs` | accounts-db/src/accounts_index.rs:880-940 | the entries reclaimed and their marks are those of the state machine |
| `AccountsCaches.AccountsCache.constructor` | accounts-db/src/accounts_cache.rs:252-263 | an empty cache |
| `AccountsCaches.AccountsCache.InsertAccount` | accounts-db/src/accounts_cache.rs:101-135 | the slot's size and count and the totals change alike, for a new key and for an overwrite by a larger or smaller account |
| `AccountsCaches.AccountsCache.CountUpKey` | accounts-db/src/accounts_cache.rs:191-207 | one more holder is counted, the maximal slot covers the new one and nothing more, other keys are untouched and the number of distinct keys follows |
| `AccountsCaches.AccountsCache.StoreAccount` | accounts-db/src/accounts_cache.rs:287-312 | the account is stored; totals, index and counts stay exact |
| `AccountsCaches.AccountsCache.AddUnflushedRoot` | accounts-db/src/accounts_cache.rs:381-383 | the root is tracked |
| `AccountsCaches.AccountsCache.RemoveSlot` | accounts-db/src/accounts_cache.rs:321-333 | the slot is gone from cache and roots, and the keys returned are exactly those no other slot holds |
| `AccountsCaches.AccountsCache.CountDownAll` | accounts-db/src/accounts_cache.rs:209-228 | counting down the keys of a removed slot makes the index exact again |
| `AccountsCaches.AccountsCache.RemoveUnflushedRoot` | accounts-db/src/accounts_cache.rs:447-449 | the root is not tracked any more |
| `AccountsCaches.AccountsCache.LoadLatest` | accounts-db/src/accounts_cache.rs:335-375 | the newest visible cached version, although the search starts at an upper bound and skips slots |
| `AccountsCaches.LatestIsLoadFromCache` | accounts-db/src/accounts_cache.rs:335-375 | that is the cache reader of the state machine |
| `AccountsCaches.AccountsCache.RootsToFlush` | accounts-db/src/accounts_cache.rs:397-406 | exactly the tracked roots up to the limit, oldest first |
| `AccountLocks.HasDuplicates` | accounts-db/src/account_locks.rs:161-182 | true exactly if some key occurs twice, by pairs for short lists and by a set for long ones |
| `AccountLocks.Validate` | accounts-db/src/account_locks.rs:143-158 | succeeds exactly for few enough and distinct keys, and reports too many before duplicates |
| `AccountLocks.Locks.CanLockAccounts` | accounts-db/src/account_locks.rs:56-71 | succeeds exactly if every use is compatible with the locks held |
| `AccountLocks.Locks.LockAccounts` | accounts-db/src/account_locks.rs:73-82 | every use is counted once |
| `AccountLocks.Locks.TryLockBatch` | accounts-db/src/account_locks.rs:22-44 | a transaction is locked exactly if it is valid and compatible with the locks held before the batch; batches stay exclusive |
| `AccountLocks.Locks.LockTransactions` | accounts-db/src/accounts.rs:464-484 | the outcome of every transaction: its earlier error, too many locks, a key twice, locked, or in use, in this order; and what the batch then holds |
| `AccountLocks.Locks.UnlockAll` | accounts-db/src/account_locks.rs:46-54 | every use is given back once; no counter is missing |
| `AccountLocks.Locks.UnlockAccounts` | accounts-db/src/account_locks.rs:46-54 | the batch holds that much less, the locks stay exact and exclusive |
| `AccountLocks.Locks.UnlockTransactions` | accounts-db/src/accounts.rs:486-502 | unlocking the successful results leaves the batch nothing |
| `AccountLocks.StaysExclusive` | accounts-db/src/account_locks.rs:93-101 | granting compatible uses keeps every written key exclusive to one batch |
| `AccountLocks.EmptyWhenReleased` | accounts-db/src/account_locks.rs:111-140 | when nobody holds a lock both maps are empty |
| `Orderer.SelectIsBijection` | accounts-db/src/account_storage.rs:496-513 | picking from both ends at any two rates visits every position once |
| `Orderer.SelectInRounds` | accounts-db/src/account_storage.rs:496-513 | each round picks the next ones from the start going up, as many as the start rate says, and then the next ones from the end going down |
| `Orderer.SelectInPlace` | accounts-db/src/account_storage.rs:359-373 | mapping the sorted indices in place is that permutation again |
| `Orderer.Consumer.TakeNext` | accounts-db/src/account_storage.rs:447-461 | the next item while there is one |
| `Orderer.AtMostOnce` | accounts-db/src/account_storage.rs:437-461 | no two calls of any threads get the same storage |
| `Orderer.EachTaken` | accounts-db/src/account_storage.rs:437-461 | once the calls are used up every storage was taken |
| `Archive.WriteTo` | accounts-db/src/account_storage_reader.rs:167-206 | succeeds exactly if the excluded offsets are found in order and the sizes add up; the output is the file without them; with a good list, the error for a size that is too small is given exactly then |
| `Archive.ArchiveStorage` | accounts-db/src/account_storage_reader.rs:114-165 | archiving a sound storage succeeds, its length is the stored bytes minus what is excluded, and it holds exactly the records not obsolete at the snapshot slot, with tombstones only on request |
| `Archive.ExcludedSize` | accounts-db/src/account_storage_entry.rs:152-161 | the size of the excluded records, counted from data lengths |
| `Archive.ArchiveIsFile` | accounts-db/src/account_storage_entry.rs:257-268 | an archive without a snapshot slot is a file of the storage in the sense of the restart theorem |
| `Marks.ReachableMarks` | accounts-db/src/obsolete_accounts.rs:19-36 | in every reachable state obsolete marks name only roots that are flushed or just being flushed |
| `Aging.RunAges` | accounts-db/src/obsolete_accounts.rs:38-66 | over every run a storage found by a snapshot keeps its records and marks, and new marks are after the snapshot or at a newer version the snapshot has as well |
| `Snapshots.ArchiveAsOf` | accounts-db/src/account_storage_reader.rs:114-158 | what the archive writer writes as of a slot are exactly the records not marked at or before it |
| `Snapshots.ArchivedLater` | accounts-db/src/account_storage_reader.rs:114-158 | a storage still in place may be archived at any later time |
| `Snapshots.LastMarksAged` | accounts-db/src/accounts_db.rs:4310-4352 | and so may one that has just died |
| `Snapshots.SnapshotShowsView` | accounts-db/src/account_storage_entry.rs:136-160 | storages archived as of the snapshot slot, each at its own later time, together show exactly what a reader at that slot saw when the snapshot was begun |
| `Snapshots.StartFromSnapshot` | accounts-db/src/accounts_db.rs:4998-5344 | and so does a store started from them |
| `Scans.LatestCached` | accounts-db/src/accounts_cache.rs:335-375 | the newest visible cached version |
| `Scans.LatestIndexed` | accounts-db/src/accounts_index.rs:417-451 | the newest visible entry |
| `Scans.CollectCached` | accounts-db/src/accounts_db.rs:2501-2517 | what is collected from the cache covers every key the index does not answer, with others running in between and only the pin to rely on |
| `Scans.WalkIndex` | accounts-db/src/accounts_db.rs:2518-2547 | every key met in the index is answered as of the start of the scan |
| `Scans.ReportCached` | accounts-db/src/accounts_db.rs:2549-2556 | the rest comes from the collected versions |
| `Scans.ScanAccounts` | accounts-db/src/accounts_db.rs:2474-2566 | from pinning to releasing the root, the reader is the given fork if it has the highest root, else that root alone: every account it loaded at the beginning is reported exactly once with its value and the slot of its newest version; beyond those at most deleted accounts are reported |
| `Largest.CollectLargest` | accounts-db/src/accounts.rs:264-311 | the heap holds the largest balances seen |
| `Largest.TopIsLargest` | accounts-db/src/accounts.rs:264-311 | from a complete scan these are the largest of the reader's view |
| `Largest.LoadLargest` | accounts-db/src/accounts.rs:264-311 | the requested number of largest accounts that the given fork loaded at the beginning, or the highest root if the fork does not have it; largest first, ties by key, under either address filter |
| `Work.WorkPreservesLoad` | accounts-db/src/accounts_db.rs:3489-3595 | any amount of background work up to a bound leaves every reader that sees the bound its answers |
| `FlushOrder.SelectPubkeys` | accounts-db/src/accounts_db.rs:3677-3713 | walking the roots newest first selects per root the accounts not superseded within the cleaned roots |
| `AccountsDatabase.AccountsDb.FlushSlot` | accounts-db/src/accounts_db.rs:3715-3829 | flushing one slot is background work and ends with the slot out of the cache; cleaned, each selected key is left with one entry, or none if it is zero-lamport; otherwise an entry is added, unless a deleted account has nothing to hide |
| `AccountsDatabase.AccountsDb.HandleFlushReclaims` | accounts-db/src/accounts_db.rs:1806-1847 | all reclaims of a flush are handled |
| `AccountsDatabase.AccountsDb.FlushRootedAccountsCache` | accounts-db/src/accounts_db.rs:3624-3671 | all roots up to the request are flushed and nothing else leaves the cache; the highest cleaned root is returned; a key of cleaned roots is left at the newest of them only, or not at all if deleted there; other roots add entries, and a key without a cleaned root loses none; every account to keep is in storage as it was cached |
| `FlushOrder.KeysFlushedNext` | accounts-db/src/accounts_db.rs:3652-3667 | each further root keeps what was said about the entries of the roots before it |
| `FlushedStorage.AllStored` | accounts-db/src/accounts_db.rs:3715-3801 | a flush that cleans up to its highest cleaned root leaves every account to keep in the storage of its root, unchanged |

| `AccountsDatabase.CleanCandidate` | accounts-db/src/accounts_db.rs:1038-1058 | visiting one candidate is the clean step of the state machine; the key goes if and only if all that is left of it from its newest version up to the bound on is one zero-lamport entry |
| `AccountsDatabase.AccountsDb.HandleCleanReclaims` | accounts-db/src/accounts_db.rs:1806-1847 | all reclaims of a clean are handled, one mark and one slot at a time |
| `AccountsDatabase.AccountsDb.CleanAccounts` | accounts-db/src/accounts_db.rs:1503-1663 | cleaning up to a root is background work, terminates, and leaves the cleaned root on record; of every key recorded as uncleaned up to it one version up to it is left, and no such key is left with a lone zero-lamport version; other keys are untouched |
| `AccountsDatabase.AccountsDb.SweepAfterSnapshot` | accounts-db/src/accounts_db.rs:1384-1418 | between the last swept and the latest snapshot slot exactly the storages of nothing but tombstones are dropped, and exactly those worth shrinking that pass the given ratio are queued |
| `AccountsDatabase.CollectForShrink` | accounts-db/src/accounts_db.rs:1942-2040 | the alive records, and the tombstones that may not be purged, each once |
| `AccountsDatabase.AccountsDb.RewriteStorage` | accounts-db/src/accounts_db.rs:2075-2181 | the slot has a new storage with the same accounts and the predicted size, all other storages are untouched |
| `AccountsDatabase.AccountsDb.ShrinkStorage` | accounts-db/src/accounts_db.rs:2075-2181 | a storage is rewritten exactly if that leaves something and makes it smaller; otherwise nothing changes |
| `WriteBatch.CacheWriter.IsAncestorZero` | accounts-db/src/accounts_db.rs:4595-4608 | tells from cache and index alone, looked at one after the other with others running, whether the account loads as nothing |
| `WriteBatch.CacheWriter.WriteOne` | accounts-db/src/accounts_db.rs:4615-4663 | after storing or skipping an account the bank loads it, and all others as before, whatever others do between the check and the store; it is skipped exactly if it deletes what the bank does not load |
| `WriteBatch.CacheWriter.WriteAccountsToCache` | accounts-db/src/accounts_db.rs:4615-4663 | after a batch, with others running throughout, every key loads its last account in the batch, else what it loaded before: skipped deletions cannot be seen; the result marks exactly the last account of each key that does not delete nothing |

## Left out

- Files: byte formats, memory maps, alignment beyond the stored size of a record, and reading them back.
- The disk half of the index, its bins, eviction, aging and write-through; an index lookup is one atomic step.
- Secondary indexes, geyser notifications, metrics and thread pools.
- The hash function of accounts; a lane of the accounts hash is one of the weights of the startup totals, without its wrap-around.
- Ancient storages: packing and combining old slots.
- Ratios in floating point that choose shrink candidates; any choice is allowed instead.
- Integer widths: counters, sizes and lamports do not wrap; `Storages.ReclaimsFit`, `Lifecycle.HandleFits` and `Duplicates.NoUnderflow` show that the subtractions stay non-negative.
- Readers whose root is below the cleaned one and not pinned by a scan; the source makes them no promise.
- Load filters, which only drop a finished load, and the load hint without a limit on retries: a round of that loop is `DoLoads.TryEntry`.
- Scan abort and removal of the scanned bank.
- The frozen flag of a slot cache and the maximal flushed root, which only feed assertions and statistics.
- Sharing of storages and slot caches through reference counts: they are values in maps.
- Snapshots.SnapshotShowsView: an archive may leave out the tombstones known when the snapshot was begun; archives that also leave out deletions recorded later are not covered.
- Sort and shuffle routines of the standard library, which are represented by their results.
- Orderer.SelectInPlace: does not model the sorting by size and the claim that small and large storages alternate.
- AccountsDatabase.AccountsDb.CleanAccounts: runs without foreground steps in between; interleavings are the subject of the step and run theorems.
- AccountsDatabase.AccountsDb.FlushRootedAccountsCache: runs without foreground steps in between, as above.
- AccountsDatabase.AccountsDb.ShrinkStorage: runs without foreground steps in between, as above.
