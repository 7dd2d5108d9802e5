# A verified model of go-zenon's store, pool, download queue, consensus time, contract receives and reorganisation

go-zenon is a node of a momentum chain: accounts have their own chains of blocks,
momentums confirm them, pillars take turns to produce momentums. This project
models, in Dafny, the parts of the node whose correctness spans several operations
or a whole run, and proves what they promise.

| module | models |
|---|---|
| `Bytes`, `Sets` | byte strings, `bytes.Compare`, big-endian integers; sizes of sets |
| `Patches` | forward, rollback and without-override replay of patches |
| `VersionedDb` | the store as a list of states; what rebuilding a past state reads |
| `LdbManager` | the LevelDB manager with its two caches of shared overlays |
| `MergedIterator` | the merging and tombstone-skipping iterators |
| `DownloadQueue` | the block download scheduler |
| `MomentumRange` | the search for the last momentum before a time |
| `ChainTicker` | election periods on the chain: their heads and content |
| `ConsensusPoints` | period and epoch statistics and their stores |
| `Election` | the choice of producers |
| `AccountPool` | the in-memory manager and the pool of unconfirmed blocks |
| `MomentumContent` | the choice of a momentum's content and the check of it |
| `EmbeddedVm` | contract receives on a snapshot, refunds, generated blocks |
| `Reorg` | inserting a batch of momentums and rolling back for it |

Objects that the program updates in place are classes (`LdbManager.Manager`,
`MergedIterator.Merged`, `DownloadQueue.Queue`, `ConsensusPoints.PeriodPoints`,
`AccountPool.Pool`, `EmbeddedVm.VmContext`, `Reorg.MomentumPool`, …); their methods
are proved against functions on values, and the theorems are about those functions.

Abstractions: a hash is a byte string and equal hashes mean equal blocks; in
`ChainTicker` a momentum stands for its own hash. Stored blocks are written by a
codec with an inverse. The pseudo-random permutation, contract code, the validity of
a momentum and which entries an LRU cache evicts are parameters, so every theorem
holds for all of them. Locked operations are single steps. Clocks are parameters.
Heights, plasma products and seeds wrap at 64 bits where the code lets them.

## Where the code does less than its documentation or shape suggests

Each of these has a member that gives an instance or a family of instances, and one
whose contract says exactly when the code does what is expected.

* A cached overlay that is extended after its recorded frontier was popped and
  replaced misreads the past state, whatever the replacement wrote:
  `LdbManager.StaleReading` makes the calls. An overlay built on one line reads
  correctly if and only if the recorded and the live chain are on one branch
  (`VersionedDb.OneBranchExactly`, `LdbManager.SingleHoldsExactly`); any overlay, if
  and only if it holds the hash-index keys of the live steps
  (`VersionedDb.HeldExactly`, `LdbManager.RunReadsExactly`).
* `ldbManager.Add` on a `previous` that is on the chain but not its frontier leaves a
  store that belongs to no chain: `VersionedDb.StaleAddBreaks`,
  `VersionedDb.ReAddBreaks`, `VersionedDb.AddKeepsHistoryExactly`.
* A delivery with a wanted block outside the cache loses what it has not merged: those
  hashes stay in the pool and are neither queued nor requested until the queue is
  reset (`DownloadQueue.LostRequest` is an instance, `DownloadQueue.Queue.Deliver` the
  exact condition, `DownloadQueue.Drive` the later calls).
* A wanted block of a height that is cached, or delivered twice, overwrites the earlier
  block, which counts as downloaded and is neither taken nor asked for until its hash
  is inserted again or the queue is reset: `DownloadQueue.Overwritten`,
  `DownloadQueue.KeptExactly`, `DownloadQueue.Drive`.
* A hash that is downloaded and not yet taken can be scheduled again and then is in two
  places: `DownloadQueue.TwicePlaced`, exactly as `DownloadQueue.Queue.Insert` says.
* An offset moved over cached blocks leaves them in wrong slots:
  `DownloadQueue.MovedOver`, exactly as `DownloadQueue.Queue.Prepare` says.
* `GetMomentumBeforeTime` never returns for some queries inside a second:
  `MomentumRange.HangingQueryExists`, `MomentumRange.EndsExactly`. Every caller in the
  repository passes whole seconds, which never hang.
* A stored epoch point can differ from the regenerated one:
  `ConsensusPoints.StoredEpochCanDiffer`, `ConsensusPoints.StoredEpochIsCurrent`.
* At height 1 of an account the first block to arrive stays, whatever its priority:
  `AccountPool.FirstArrivalStays`, `AccountPool.OrderMattersAtHeightOne`.
* A receive whose method no longer exists is meant to be rolled back with a refund;
  the snapshot it rolls back to was never taken, so it panics:
  `EmbeddedVm.VmContext.RollbackEmbedded`, `EmbeddedVm.GeneratedExactly`.
* Contract code that sends more of the zero token than there is panics, where any other
  token is refused: `EmbeddedVm.ZeroTokenCrashes`, `EmbeddedVm.BreaksExactly`.
* `ldbManager.Pop` on an empty chain replays a patch that is not there and panics, and
  only then: `LdbManager.Manager.Pop`.
* A failing `InsertChain` can leave the node on a shorter chain:
  `Reorg.FailureCanLower`, `Reorg.LoweredExactly`.
* `InsertChain` uses the momentum below the batch without asking whether we have it, so
  a batch that does not sit next to our chain panics: `Reorg.GapCrashes`,
  `Reorg.CrashExactly`.
* The content check of a momentum uses a prefetched block before asking whether it is
  there, so a header without a block panics: `MomentumContent.MissingBlockCrashes`,
  `MomentumContent.CrashExactly`, `MomentumContent.CompleteNeverCrashes`.

## Model

| member | source | states |
|---|---|---|
| `Bytes.LessIsTransitive` | common/db/merged.go:110-158 | the byte order the iterators compare keys with is transitive |
| `Bytes.LessIsTotal` | common/db/merged.go:110-158 | of two different byte strings one is smaller |
| `Bytes.LessExactly` | common/db/merged.go:110-158 | smaller means: equal up to a place where it ends first or has the smaller byte |
| `Bytes.BigEndianRoundTrip` | common/bytes.go:24-31 | reading back a big-endian number of any width gives the number |
| `Bytes.Uint64BytesOrder` | common/bytes.go:24-28 | the byte order of encoded heights is the order of the heights, and encoding is injective |
| `Patches.ApplyPatch` | common/db/patch.go:178-187 | replaying a patch into tombstone-encoded bytes decodes to the entries applied in order, deletions and repeated keys included |
| `Patches.RollbackPatch` | common/db/patch.go:198-208 | the loop records, per entry, what the database answered for that key |
| `Patches.RollbackUndoes` | common/db/patch.go:45-63 | for every state and patch, applying the patch and then its rollback patch gives back the state |
| `Patches.ApplyRollbackReads` | common/db/patch.go:45-63 | on any state, a rollback patch sets the touched keys to their old values and leaves the rest |
| `Patches.ApplyWithoutOverride` | common/db/patch.go:188-197 | the replay that never overwrites a key, deletions written as present-but-empty |
| `Patches.OverlayReads` | common/db/patch.go:92-116 | after replaying a rollback patch an overlay holds its old keys unchanged and, new, the touched ones with the values before the patch |
| `VersionedDb.SerializeRoundTrip` | common/types/hash_height.go:41-46 | an identifier survives its stored form |
| `VersionedDb.StepReads` | common/db/store.go:20-31 | what each bookkeeping key reads after a transaction is committed |
| `VersionedDb.FrontierOfChain` | common/db/store.go:33-42 | the frontier key names the last committed step, after any chain |
| `VersionedDb.HashIndexExact` | common/db/store.go:43-53 | the hash index answers an identifier if and only if it is on the chain |
| `VersionedDb.RunRepresents` | common/db/versioned_db.go:324-391 | after every run of Adds on the frontier and Pops the store holds the state of the resulting chain and patches for exactly heights 1 to the frontier |
| `VersionedDb.AddsThenPopsIsIdentity` | common/db/versioned_db.go:324-391 | n Adds followed by n Pops restore every reading, the frontier identifier and both patch logs |
| `VersionedDb.RebuiltViewReads` | common/db/versioned_db.go:221-247 | key by key, what a view rebuilt from rollback patches reads |
| `VersionedDb.RebuiltViewIsPastState` | common/db/versioned_db.go:221-290 | for every chain and height the rebuilt view reads every key as the state right after that height, absent and empty identified |
| `VersionedDb.MissingStepMisreads` | common/db/versioned_db.go:248-279 | a live step whose hash-index key the overlay lacks is found in the view, where the past state has nothing |
| `VersionedDb.HeldExactly` | common/db/versioned_db.go:248-279 | a cached overlay, extended to the live frontier, reads the past state if and only if it holds the hash-index keys of the live steps below its recorded height |
| `VersionedDb.OneBranchExactly` | common/db/versioned_db.go:248-279 | an overlay built on one chain and met again on another reads its version if and only if one chain continues the other |
| `VersionedDb.StaleAddBreaks` | common/db/versioned_db.go:324-375 | after an Add below the frontier with a new hash the store represents no chain |
| `VersionedDb.ReAddBreaks` | common/db/versioned_db.go:324-375 | adding the last step once more on a view that already knows it leaves a store of no chain |
| `VersionedDb.AddKeepsHistoryExactly` | common/db/versioned_db.go:324-375 | for any known previous and any step, new or already on the chain, the store after Add represents some chain if and only if previous is the live frontier or the only step of the chain is added again |
| `LdbManager.Manager.constructor` | common/db/versioned_db.go:196-211 | the empty chain, empty caches, no overlay, nothing handed out |
| `LdbManager.Manager.Extend` | common/db/versioned_db.go:259-269 | the extension loop replays exactly the rollback patches between the recorded and the live height |
| `LdbManager.Manager.Stretch` | common/db/versioned_db.go:248-279 | the shared overlay is extended in place from its recorded height; it turns stale unless it was right and holds the live steps |
| `LdbManager.Manager.Rebuild` | common/db/versioned_db.go:221-290 | the new ledger in full: overlay found or opened, extended, put into the caches with the live frontier, handed out; new overlays are new objects |
| `LdbManager.Manager.Get` | common/db/versioned_db.go:221-290 | empty, missing, live or historical view, each exactly for its identifiers; the overlay is the cached one, first cache first, and goes with the live frontier into the cache its distance calls for; from an overlay that is not stale the view reads the past state if and only if the overlay holds the live steps, and for one built on one line if and only if recorded and live chain are on one branch |
| `LdbManager.Manager.GetPatch` | common/db/versioned_db.go:291-310 | the forward patch of the identifier's height, whatever its hash, and nil outside the chain |
| `LdbManager.Manager.Pop` | common/db/versioned_db.go:376-391 | the chain loses its last step and the store follows, caches and views stay; panics if and only if the chain is empty |
| `LdbManager.Manager.Add` | common/db/versioned_db.go:324-375 | on the live frontier the chain grows by the step and caches and views stay; on another known previous the view is served and the store written over it all the same; refused exactly for unknown previous |
| `LdbManager.IssuedViewReads` | common/db/versioned_db.go:248-290 | every view in circulation whose overlay is not stale reads its past state |
| `LdbManager.ExtensionKeeps` | common/db/versioned_db.go:259-269 | in-place extension keeps every overlay, cache entry and view in order and covers the live chain |
| `LdbManager.ServedReads` | common/db/versioned_db.go:221-290 | a view served from an overlay that is not stale reads its version if and only if the overlay holds the live steps, and turns stale exactly otherwise |
| `LdbManager.SingleHoldsExactly` | common/db/versioned_db.go:221-290 | an overlay built on one line holds the live steps if and only if recorded and live chain are on one branch |
| `LdbManager.ServedSingle` | common/db/versioned_db.go:221-290 | a new overlay is built on one line and stays so while its recorded chain grows |
| `LdbManager.NextKeeps` | common/db/versioned_db.go:221-391 | every Get, Add on the frontier and Pop keeps store, caches, overlays and views in order |
| `LdbManager.RunViewsRead` | common/db/versioned_db.go:221-391 | in every run of safe calls every view ever handed out still reads, at the end, the state its identifier had |
| `LdbManager.RunReadsExactly` | common/db/versioned_db.go:221-391 | over every run, all views are right when handed out if and only if all calls are safe |
| `LdbManager.BranchIsSafe` | common/db/versioned_db.go:221-290 | a Get whose cached overlay was recorded on the live branch is safe |
| `LdbManager.BranchRunIsSafe` | common/db/versioned_db.go:221-391 | in every run from a manager without stale overlays, if each overlay found was recorded on the branch live at that moment, every call is safe |
| `LdbManager.ViewNames` | common/db/versioned_db.go:324-340 | whatever view answers for an identifier names it as its frontier, stale or not, so the check in Add never fails |
| `LdbManager.Run` | common/db/versioned_db.go:221-391 | calls made one after the other on a manager are such a run |
| `LdbManager.StaleReading` | common/db/versioned_db.go:221-391 | a view, Pop, Add of a replacement and the view again: the second view answers a key the past state never held |
| `MergedIterator.MergeReads` | common/db/merged.go:18-27 | the layered lookup is a lookup in the union of the layers |
| `MergedIterator.TopmostWins` | common/db/merged.go:18-27 | the value comes from the first layer that has the key |
| `MergedIterator.MergedHas` | common/db/merged.go:28-37 | a key is there if and only if some layer has it |
| `MergedIterator.Merged.Next` | common/db/merged.go:110-158 | each step moves to the least key above the last one over all layers, with the value a lookup gives, or ends when there is none |
| `MergedIterator.Collect` | common/db/merged.go:68-158 | over any number of layers the iterator yields every key once, ascending, with the value of the topmost layer |
| `MergedIterator.SkipDeleted.Next` | common/db/skip_deleted.go:15-25 | moves to the next key that is not a tombstone |
| `MergedIterator.CollectVisible` | common/db/skip_deleted.go:15-25 | the listing without tombstones |
| `MergedIterator.ListView` | common/db/versioned_db.go:281-290 | the listing of a historical view under a layer of new writes |
| `MergedIterator.ViewListing` | common/db/versioned_db.go:281-290 | a view that reads a past state lists exactly that state's non-empty keys, ascending |
| `DownloadQueue.Queue.constructor` | protocol/downloader/queue.go:66-93 | an empty queue: nothing queued, pending or downloaded, an empty cache |
| `DownloadQueue.Queue.Prepare` | protocol/downloader/queue.go:373-380 | the offset only grows; the queue stays in order if and only if it did not move or the cache is empty |
| `DownloadQueue.Queue.Throttle` | protocol/downloader/queue.go:119-130 | requests and cached blocks never fill more than half the cache, so a queue with a cache never throttles |
| `DownloadQueue.Queue.Insert` | protocol/downloader/queue.go:148-172 | exactly the hashes not in the pool are scheduled, once each and in their order, behind what was scheduled before; the queue stays in order if and only if none of them is downloaded |
| `DownloadQueue.Queue.Reserve` | protocol/downloader/queue.go:231-280 | the hashes looked at are the best of the queue, as many as half the cache has room for unless the request is full or the queue empty; the request is exactly those not ignored, with their priorities, and none if there are none |
| `DownloadQueue.Queue.Cancel` | protocol/downloader/queue.go:283-291 | the peer's hashes return to the queue with their priorities, and the schedule stays |
| `DownloadQueue.Queue.Expire` | protocol/downloader/queue.go:295-314 | exactly the requests older than the timeout return to the queue, and the schedule stays |
| `DownloadQueue.Queue.Deliver` | protocol/downloader/queue.go:317-370 | the whole state after: the blocks before the first wanted one without a slot are merged; without such a one the rest is back in the queue and the error says how many were strays; with it the chain is invalid, the queue is as before and exactly the rest is lost; every registered block is in its slot if and only if it was so and no wanted block met another; honest heights never give an invalid chain |
| `DownloadQueue.Queue.TakeBlocks` | protocol/downloader/queue.go:204-227 | takes the full prefix of the cache at consecutive heights, and the whole state after; successive calls emit the scheduled hashes in order; overwritten blocks stay so |
| `DownloadQueue.OnePlace` | protocol/downloader/queue.go:51-63 | whatever was inserted, reserved, cancelled, expired, delivered and taken, honest heights or not, a hash is exactly one of queued, requested from one peer, registered as downloaded and lost, and was scheduled as often as it is there or was taken; while no block was overwritten the registered ones are the cached ones |
| `DownloadQueue.VerdictExactly` | protocol/downloader/queue.go:355-370 | no error if and only if every block was wanted, stale if and only if there are blocks and none was |
| `DownloadQueue.StoredExactly` | protocol/downloader/queue.go:334-354 | exactly the requested hashes that were delivered are registered, each with its first block's height; the others are left of the request |
| `DownloadQueue.FilledExactly` | protocol/downloader/queue.go:349-354 | a slot holds after a delivery the last wanted block for its height, marked with the peer, or what was there |
| `DownloadQueue.KeptExactly` | protocol/downloader/queue.go:349-354 | after a delivery every registered block is in its slot if and only if it was so before and the wanted blocks have different heights and free slots |
| `DownloadQueue.KeptIsNoneGone` | protocol/downloader/queue.go:349-354 | that is so if and only if every hash registered as downloaded is cached |
| `DownloadQueue.OrderedIsKept` | protocol/downloader/queue.go:317-370 | in first-in-first-out runs with honest heights no block is overwritten |
| `DownloadQueue.Drive` | protocol/downloader/queue.go:94-380 | over every sequence of calls without a reset, insertions of registered hashes and moves of the offset over cached blocks left out, no request asks for a lost or overwritten hash, no overwritten one is taken, and all of them stay so |
| `DownloadQueue.Queue.Reset` | protocol/downloader/queue.go:77-90 | the state of a new queue |
| `DownloadQueue.LostRequest` | protocol/downloader/queue.go:344-347 | two hashes asked for, one delivered beyond the cache: both are lost, cannot be inserted again and are not asked for |
| `DownloadQueue.Overwritten` | protocol/downloader/queue.go:349-354 | two blocks of one request with one height: no error, only the second is taken, the first stays registered |
| `DownloadQueue.TwicePlaced` | protocol/downloader/queue.go:148-172 | a downloaded hash inserted again is queued and registered at once |
| `DownloadQueue.MovedOver` | protocol/downloader/queue.go:373-380 | an offset moved by two over a cached block |
| `DownloadQueue.NextIsInWindow` | protocol/downloader/queue.go:231-280 | in first-in-first-out runs with honest heights the queued hash with the highest priority is less than half a cache ahead of the offset |
| `DownloadQueue.RequestedInRange` | protocol/downloader/queue.go:317-370 | every requested block lies within half the cache of the offset |
| `DownloadQueue.HeadIsNext` | protocol/downloader/queue.go:204-227 | a cached block is the scheduled hash of its height |
| `DownloadQueue.PutBackKeeps` | protocol/downloader/queue.go:264-267 | returning skipped hashes keeps each hash in one place with its priority and keeps the order |
| `MomentumRange.TimestampsSpread` | chain/momentum/range.go:12-81 | momentums are at least a second apart per height |
| `MomentumRange.TwoTurnsBracket` | chain/momentum/range.go:31-69 | unless the query hangs, two turns of the estimate loop find momentums on either side of it |
| `MomentumRange.EndsExactly` | chain/momentum/range.go:31-69 | the loop ends if and only if the query does not hang; whole seconds never hang |
| `MomentumRange.HangingQueryExists` | chain/momentum/range.go:31-69 | a chain of ten momentums and a query that never returns |
| `MomentumRange.Estimate` | chain/momentum/range.go:31-69 | the loop, with its boundaries on either side of the query |
| `MomentumRange.BinarySearchBeforeTime` | chain/momentum/range.go:82-118 | the last momentum before the query, between the boundaries |
| `MomentumRange.GetMomentumBeforeTime` | chain/momentum/range.go:12-81 | exactly the last momentum strictly before the query, nil if and only if genesis is not before it |
| `ChainTicker.SearchFinds` | chain/momentum/range.go:12-81 | for a whole second the search finds exactly the momentum that ends a period |
| `ChainTicker.EndBlockNests` | consensus/chain_ticker.go:51-64 | the head of a period only depends on the head of any later one |
| `ChainTicker.EndBlockExactly` | consensus/chain_ticker.go:51-64 | the momentums up to the head of a period are exactly those before its end |
| `ChainTicker.ContentSpans` | consensus/chain_ticker.go:66-113 | a period's momentums run from right above its start block to its end block |
| `ChainTicker.ContentExactly` | consensus/chain_ticker.go:66-113 | a period's momentums are exactly those, genesis apart, from its first second up to the next period's |
| `ConsensusPoints.ElectionExactly` | consensus/election.go:90-145 | the producers of a period are those elected by the head two periods back, in the first two periods by genesis |
| `ConsensusPoints.ElectionIsSettled` | consensus/election.go:90-145 | chains that share the head two periods back share the producers of a period |
| `ConsensusPoints.GeneratePointFromChain` | consensus/points.go:275-335 | the three counting loops build the period's point |
| `ConsensusPoints.PeriodCounts` | consensus/points.go:275-335 | per pillar, in the election by the head two periods back or by genesis: as many expected as slots, as many produced as momentums it signed, its delegated weight |
| `ConsensusPoints.PeriodNames` | consensus/points.go:275-335 | a period's point lists exactly who was elected, had weight or signed |
| `ConsensusPoints.PeriodWeighs` | consensus/points.go:275-335 | the total is the weight of all listed pillars, and the point goes from the head of the period before to its own |
| `ConsensusPoints.NameOfExactly` | consensus/points.go:275-300 | a producing address has the name of the last producer with it, or none |
| `ConsensusPoints.PeriodProduced` | consensus/points.go:275-335 | over all pillars every momentum of the period is counted once |
| `ConsensusPoints.PointOfEndBlock` | consensus/points.go:234-274 | two chains with the same head of a period have the same point for it, election included |
| `ConsensusPoints.AcceptedIsCurrent` | consensus/points.go:248-259 | a stored point that passes the end-hash check is the point of the current chain |
| `ConsensusPoints.PeriodPoints.GetPoint` | consensus/points.go:234-274 | over every history of chains, the point read is the one regenerated from the current chain, nil before the period; stored once the period is over, dropped when its end hash differs |
| `ConsensusPoints.EpochTimes` | common/ticker.go:33-52 | an epoch starts with its first period and ends with its last |
| `ConsensusPoints.LeftAppend` | consensus/storage/point.go:98-116 | refused if and only if the points do not meet; otherwise pillars are merged or copied |
| `ConsensusPoints.GeneratePointFromLower` | consensus/points.go:181-215 | the backward fold stops at the first period, never fails a link check, divides by a positive count |
| `ConsensusPoints.EpochReads` | consensus/points.go:181-215 | per pillar the sums over the started periods and the weight averaged over them; listed exactly who is listed in one of them; in all, every non-genesis momentum of the epoch |
| `ConsensusPoints.PresentExactly` | consensus/points.go:187-205 | the averaging counts exactly the started periods |
| `ConsensusPoints.FoldedReads` | consensus/points.go:187-205 | the fold adds each pillar's numbers over the started periods |
| `ConsensusPoints.FoldedProduced` | consensus/points.go:187-205 | produced numbers over any stretch of periods are the heights between its ends |
| `ConsensusPoints.StoredEpochIsCurrent` | consensus/points.go:140-180 | a stored epoch point equals the regenerated one if and only if the epoch's last period has started on the current chain |
| `ConsensusPoints.StoredEpochCanDiffer` | consensus/points.go:140-180 | a chain, a rollback to genesis, and the two points that differ |
| `ConsensusPoints.EpochPoints.GetPoint` | consensus/points.go:140-180 | nil before the epoch; the regenerated point once its last period has started; otherwise one that was stored, with the same end block; stored once the epoch is over |
| `Election.SortIsUnique` | common/types/pillar_delegation.go:62-69 | weight then name orders a uniquely named list in one way only |
| `Election.SortedIsOrdered` | common/types/pillar_delegation.go:62-69 | the same pillars, none before a heavier one, nor before one of equal weight and smaller name |
| `Election.FilterByWeight` | consensus/election_algorithm.go:65-75 | the list in two parts that together are it, the first of node-count size, nothing in the second heavier than anything in the first |
| `Election.FilterRandom` | consensus/election_algorithm.go:78-119 | filling up, or the top part and the drawn part |
| `Election.SelectProducers` | consensus/election_algorithm.go:42-62 | the selection, shuffled |
| `Election.SelectionIgnoresOrder` | consensus/election_algorithm.go:42-119 | the same pillars in any order give the same producers in the same slots |
| `Election.EnoughPillars` | consensus/election_algorithm.go:78-119 | with at least as many pillars as slots no pillar is taken twice and all but the drawn slots go to the heaviest |
| `Election.FewPillars` | consensus/election_algorithm.go:86-96 | with fewer, every pillar gets the floor or the ceiling of an equal share |
| `Election.SlotExactly` | consensus/election_algorithm.go:42-119 | who gets each slot: the heaviest in their shuffled order, and for the drawn ones, with the next seed, the lighter and the passed over |
| `Election.FewSlotExactly` | consensus/election_algorithm.go:86-96 | with fewer pillars than slots they repeat in their shuffled order |
| `AccountPool.StoreReads` | chain/account/account_block.go:35-43 | an account's database answers exactly its blocks by height, and its last one as frontier |
| `AccountPool.MemdbManager.constructor` | common/db/versioned_db.go:69-80 | a manager over the confirmed database |
| `AccountPool.MemdbManager.Get` | common/db/versioned_db.go:87-95 | a state for exactly the identifiers from the confirmed one up |
| `AccountPool.MemdbManager.GetPatch` | common/db/versioned_db.go:96-100 | a patch with the block's effect for exactly the unconfirmed identifiers |
| `AccountPool.MemdbManager.Add` | common/db/versioned_db.go:101-153 | accepted if and only if it names the frontier; bookkeeping entries already in the changes do no harm |
| `AccountPool.MemdbManager.Pop` | common/db/versioned_db.go:154-171 | back by one block, refused on the confirmed one |
| `AccountPool.BeatsExactly` | chain/account_pool.go:84-92 | within the plasma limit the 64-bit comparison is by plasma ratio, then by hash, and says which of the two it was |
| `AccountPool.BeatsIsStrict` | chain/account_pool.go:84-92 | of two blocks with different hashes exactly one has priority |
| `AccountPool.BeatsIsTransitive` | chain/account_pool.go:84-92 | priority is transitive under cross-multiplication |
| `AccountPool.CanRollback` | chain/account_pool.go:48-82 | refused below the confirmed height, at height 1, and off our blocks; otherwise allowed |
| `AccountPool.RollBack` | chain/account_pool.go:146-159 | the rollback loop ends exactly at the named previous block |
| `AccountPool.InsertInto` | chain/account_pool.go:110-163 | insertion on the manager's maps does to the chain what `Insertion` does; a rival is compared only where there is one |
| `AccountPool.InsertionExactly` | chain/account_pool.go:48-163 | each outcome exactly: in on top, or as a rival above the confirmed height that sits on one of ours and is forced or has priority, with the chain cut right below it; known, too old, without previous or refused otherwise |
| `AccountPool.InsertionKeepsConfirmed` | chain/account_pool.go:48-163 | forced or not, blocks up to the confirmed height stay, the result is linked, and the chain ends in the block on its previous or is unchanged |
| `AccountPool.ArrivalOrderIsIrrelevant` | chain/account_pool.go:84-163 | above height 1 every arrival order of the same rivals leaves the same chain |
| `AccountPool.FirstArrivalStays` | chain/account_pool.go:48-82 | at height 1 the first block to arrive stays |
| `AccountPool.OrderMattersAtHeightOne` | chain/account_pool.go:48-163 | two rivals may arrive in either order with the same result if and only if there is a block below them |
| `AccountPool.Pool.GetAccountManager` | chain/account_pool.go:39-46 | opened over the confirmed database when missing, as a new object; no account changes |
| `AccountPool.Pool.GetFrontierAccountStore` | chain/account_pool.go:203-205 | the database of the account's confirmed and pooled blocks; no account changes |
| `AccountPool.Pool.AddAccountBlockTransaction` | chain/account_pool.go:94-163 | one account changes as `Insertion` says, every other is untouched, managers it opens are new |
| `AccountPool.Arrive` | chain/account_pool.go:94-163 | blocks arriving at the pool one after the other do to their account what the arrivals do to its chain, so the claims on arrival order hold of the pool |
| `AccountPool.RebuildAccount` | chain/account_pool.go:221-269 | the pooled blocks re-applied, with their patches, on the newly confirmed database |
| `AccountPool.Pool.Rebuild` | chain/account_pool.go:221-269 | when a momentum confirms a prefix of each account's blocks, every account keeps its blocks in order, so its frontier and all readings, and exactly those with blocks left keep a manager |
| `MomentumContent.FilterBlocksToCommit` | chain/account_pool.go:274-288 | the longest prefix of at most 100 blocks that leaves no contract send open |
| `MomentumContent.ChosenAreBatches` | chain/account_pool.go:274-288 | at most 100 blocks, whole batches, per account from the bottom up, and the next batch would not fit |
| `MomentumContent.BatchCloses` | chain/nom/account_block.go:127-135 | the receive's previous is the account's head below the whole batch |
| `MomentumContent.OrderedByHeight` | common/types/account_header.go:41-46 | within an account the byte order of headers is the order of heights |
| `MomentumContent.HeaderOrder` | common/types/account_header.go:41-46 | headers are ordered by address, then height, then hash |
| `MomentumContent.NewMomentumContent` | chain/nom/momentum_content.go:41-55 | a permutation of the blocks' headers in byte order |
| `MomentumContent.Content` | verifier/momentum.go:158-210 | the check with its maps gives the verdict of the first header that is missing or out of order |
| `MomentumContent.VerdictExactly` | verifier/momentum.go:158-210 | each verdict exactly: more than 100 headers; another number of blocks; all fine, that is per account the listed blocks outside batches continue its frontier one by one; or behind fine headers a missing block or a gap |
| `MomentumContent.LookupExactly` | verifier/momentum.go:163-170 | of several blocks with one identifier the last answers |
| `MomentumContent.GapIsRefused` | verifier/momentum.go:202-204 | one header whose block does not sit on the account's frontier |
| `MomentumContent.CrashExactly` | verifier/momentum.go:180-202 | panics if and only if some header has no block and those before it are in order |
| `MomentumContent.CompleteNeverCrashes` | verifier/momentum.go:158-210 | no panic when every header's identifier is among the prefetched blocks |
| `MomentumContent.MissingBlockCrashes` | verifier/momentum.go:158-210 | one header and one block with another identifier pass the size test and panic |
| `MomentumContent.ChosenContentPasses` | verifier/momentum.go:158-210 | whatever the pool holds, content chosen and sorted this way passes the check |
| `EmbeddedVm.ChangesApply` | common/db/enable_delete.go:64-90 | applying a layer's changes lays the layer over the database |
| `EmbeddedVm.ChangesInOrder` | common/db/enable_delete.go:64-90 | each key of the layer once, in key order |
| `EmbeddedVm.BigIntRoundTrip` | common/bytes.go:33-46 | an amount of any size survives its stored form |
| `EmbeddedVm.VmContext.Save` | vm/vm_context/lifecycle.go:7-11 | writes go to a new layer, the account is put aside |
| `EmbeddedVm.VmContext.Reset` | vm/vm_context/lifecycle.go:12-15 | back to what was put aside, if anything was |
| `EmbeddedVm.VmContext.Done` | vm/vm_context/lifecycle.go:16-20 | the account is left as if the layer's writes had been made to it |
| `EmbeddedVm.ExecutionMerges` | vm/vm.go:174-193 | running funds, code and sends on a snapshot and merging it is running them without one: same success, same sends, same database and changes |
| `EmbeddedVm.SuccessReads` | vm/vm.go:159-194 | after a success every key but balances reads as the code wrote it on what it found; balances are what they were, plus the amount received, less what was sent; the sequencer is one further |
| `EmbeddedVm.ChangesAreDone` | vm/vm.go:226-273 | the changes of a generated block, applied to what was below, give what is there after |
| `EmbeddedVm.SendsDebit` | vm/vm.go:118-140 | the sends take exactly their amounts, token by token, and touch nothing else |
| `EmbeddedVm.RefundRestores` | vm/vm.go:195-222 | a refund fails if and only if the sender is a contract that takes no plain transfer; otherwise every balance and other key is as before |
| `EmbeddedVm.VmContext.ApplyAll` | vm/vm.go:183-189 | the sends in order, stopped by the first failure |
| `EmbeddedVm.VmContext.RollbackEmbedded` | vm/vm.go:195-225 | panics if and only if nothing was put aside; otherwise refunds on the store put aside |
| `EmbeddedVm.VmContext.FinalizeEmbedded` | vm/vm.go:226-273 | numbers the sends and the receive onto the frontier |
| `EmbeddedVm.FinalizedLinks` | vm/vm.go:226-273 | consecutive heights from the frontier, each block naming the one before and hashed so, the receive on top |
| `EmbeddedVm.VmContext.GenerateEmbeddedReceive` | vm/vm.go:159-194 | equals the run without Save on success and the refund on the state before it on failure |
| `EmbeddedVm.FailureOnlyRefunds` | vm/vm.go:159-225 | a failed receive leaves every balance and key, advances the sequencer by one, and sends back to the sender exactly the received amount; refund and receive are linked to the frontier |
| `EmbeddedVm.SuccessLinks` | vm/vm.go:159-273 | a successful receive and its sends sit on the account's frontier with consecutive heights, each naming the block before it |
| `EmbeddedVm.GeneratedExactly` | vm/vm.go:159-225 | each outcome exactly, from what the code returns on the account with the sequencer one further and the amount received: success when it returns and all its sends can be afforded, a refunded failure, a failure that cannot be refunded, and a panic when there is no such method or a passing send overdraws the zero token |
| `EmbeddedVm.BreaksExactly` | vm/vm.go:118-140 | sends go through if and only if each passes its check and what is sent of its token up to it is there; the first that does not panics if it passes and is of the zero token, and otherwise is refused |
| `EmbeddedVm.ZeroTokenCrashes` | vm/vm.go:159-194 | contract code that sends one unit of a zero token it does not have |
| `Reorg.MomentumPool.RollbackTo` | chain/momentum_pool.go:78-120 | exactly the momentums above the identifier go; refused when it is not ours |
| `Reorg.MomentumPool.InsertChain` | protocol/chain_bridge.go:113-213 | every outcome with the chain it leaves |
| `Reorg.InsertedExactly` | protocol/chain_bridge.go:113-213 | each outcome exactly, from the first momentum that is not ours: a panic, the three refusals, and otherwise our chain below it and the momentums that apply in turn, with the index of the one that does not |
| `Reorg.SucceedsExactly` | protocol/chain_bridge.go:113-213 | success if and only if all of the batch is ours, or from the first new one on it continues our frontier, or forks at most thirty below and ends higher, and all apply in turn |
| `Reorg.NothingNewIsFine` | protocol/chain_bridge.go:121-142 | a batch of known momentums changes nothing |
| `Reorg.ReplaceForks` | protocol/chain_bridge.go:153-180 | a side chain replaces ours from the highest common momentum on, at most thirty, and is longer |
| `Reorg.InsertionLinks` | protocol/chain_bridge.go:113-213 | the chain stays linked, keeps all but at most thirty momentums, and continues with the batch; refusals and panics change nothing |
| `Reorg.SuccessEndsAtTail` | protocol/chain_bridge.go:113-213 | success leaves the chain alone when all was known and otherwise makes it strictly longer, ending in the batch's last momentum |
| `Reorg.LoweredExactly` | protocol/chain_bridge.go:113-213 | the height drops if and only if a side chain is taken up and one of as many of its first momentums as are rolled back for it does not apply |
| `Reorg.CrashExactly` | protocol/chain_bridge.go:150-160 | panics if and only if the first unknown momentum is at height 1 or more than one above our frontier |
| `Reorg.GapCrashes` | protocol/chain_bridge.go:150-160 | one momentum of ours and a batch two above it panic |
| `Reorg.FailureCanLower` | protocol/chain_bridge.go:176-209 | a two-momentum chain that a failing side chain leaves with one |

## Left out

- LevelDB, mutexes and goroutines: each locked operation is one step over maps.
- `common/db/subdb.go` prefix views: they only rename keys.
- Protobuf, JSON and block hashing: a codec with an inverse, and hashes that name one block.
- VersionedDb.SerializeRoundTrip: a plain concatenation stands for the protobuf form of an identifier.
- LdbManager.Manager.Get: which entries the LRU caches evict is an argument, not the LRU policy.
- LdbManager.Manager.Add: a hash names one block and its predecessors, so a step added on the frontier is not one of another known chain; transactions have one commit, and a momentum transaction never has more.
- MergedIterator.ListView: iterators start at the beginning; prefix ranges are not modelled.
- DownloadQueue.Queue.Insert: priorities are integers, where the program rounds them to 32-bit floats above 2^24 insertions.
- DownloadQueue.Queue.Cancel: the request cancelled is the peer's pending one, as for its only caller (protocol/downloader/downloader.go:695); another one would put hashes twice into the program's priority queue, which here is a map.
- MomentumRange.GetMomentumBeforeTime: not called on the queries that never return, which EndsExactly names.
- ConsensusPoints.PeriodCounts: expected and produced numbers are unbounded, where the program has 32 bits.
- Election of the producers of a tick inside ConsensusPoints: any function of the proof momentum's state.
- Election.SelectProducers: not called on an empty list, for which the fill loop never ends; the sort is any ordered permutation, which SortIsUnique shows is one.
- AccountPool.Pool.AddAccountBlockTransaction: blocks without descendants; intermediate commits of a batch stay in the manager's maps after a Pop and are not modelled.
- AccountPool.Pool.Rebuild: a momentum that confirms blocks the pool does not hold is not modelled; the node inserts them in the pool first.
- AccountPool.ArrivalOrderIsIrrelevant: forced insertion, where the last block wins, is part of Insertion but not of this claim.
- MomentumContent.NewMomentumContent: the program's comparer answers true for equal headers; headers are distinct, so any sort order is covered by ChosenContentPasses.
- EmbeddedVm.VmContext.GenerateEmbeddedReceive: the receive's own hash, version, chain identifier and acknowledged momentum are not modelled.
- EmbeddedVm.SuccessLinks: contract code is taken not to write the account's frontier key.
- Plasma accounting, sporks and the contracts' own methods: contract code is an arbitrary function from what it reads to writes and sends.
- Reorg.MomentumPool.InsertChain: account blocks put into the pool before a momentum fails stay there; the model follows the momentum chain only. The batch links, and the program exits the process on an unimplemented spork.
- The slot times of a period, signature and proof-of-work checks, networking, RPC and wallets.
