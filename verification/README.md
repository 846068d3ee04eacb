# Chainweave: a verified model of the reorg engine and its durable side

Chainweave follows a blockchain, keeps a canonical chain of headers in Postgres, and tells
consumers about every block it applies or rolls back. This project models the closed loop at
its centre and proves what the parts promise one another.

* **Transition machine** (`Chain`, `ChainTheory`, `Fork`). An observed head is walked back
  through a bounded first-in-first-out cache and a resolver to the nearest canonical block; the
  result is a batch of rollbacks, descendant first, and applies, ancestor first.
* **Durable writer** (`Store`, `StoreTheory`). One batch is one transaction over blocks, logs,
  checkpoint and outbox, with the schema's constraints and a crash possible at every gate.
* **The loop between the two** (`ClosedLoop`, `Fork`, `Replay`, `Reconcile`). Batches computed from the
  checkpoint always commit; the second reconciliation algorithm, which walks by height, agrees
  with the first, which walks by hash; and it is settled which batches may be run again.
* **Backfill** (`Backfill`, `Fetch`, `Budget`, `Scheduler`, `FetchBudget`, `Committer`,
  `RangeSink`, `OneChain`, `FetchLoop`).
  Concurrent fetches of adaptively sized ranges complete in any order, are split or thrown
  away, and are still committed in order without gaps.
* **Live tracker** (`LiveSink`, `Live`). One pass against a source whose answers may change on
  every call, with cancellation and ambiguous commits.
* **Outbox dispatcher** (`Dispatch`) and **the whole** (`EndToEnd`). Interleaved dispatchers,
  failed, ambiguous and late sends, lost locks and crashes, and a consumer that deduplicates by
  event id.

`Headers` holds the shared vocabulary: linked runs of headers and `Play`, the fold of a journal
of applies and rollbacks. Code that changes state in place is a class whose methods are proved
equal to a function on values; the theory modules then prove what those functions mean.

## How the main results fit together

The fold `Play` is used three times: a batch fits a chain when it plays on it, the outbox is a
history when it plays from the empty chain, and the consumer's view is a prefix of that history.
`ClosedLoop.HeadCommits` discharges the first use for every batch the transition machine computes
from a checkpoint, `Committer.RangeExtends` for every fetched range, `Reconcile.PlanFits` for every
height-walk plan; `StoreTheory.BatchCommits`
turns it into the second, and `Dispatch.DeliveryInOrder` with `EndToEnd.ConsumerSeesTheChain` into
the third, over all runs and interleavings.

## Assumptions

* A hash determines its header. This is the ghost map `World`; `Genuine(w, h)` says that `h` is
  the header its hash determines. Without it the machine can cache a wrong header for the tip's
  hash (`crates/chainweave-core/src/chain.rs:274-276`).
* There is one writer per chain and one chain per database, so event ids grow in commit order.
* Heights that are stored fit `i64`; backfill targets are below `u64::MAX`. Heights are otherwise
  unbounded.
* The canonical rows start as one linked segment ending at the checkpoint, or there are none.
  A historical backfill into a populated store from any other anchor does not keep this.
* A source answers with genuine headers. Its answers may be missing, fail, change from call to
  call, or name another height or hash than the one asked for. The walk by height also assumes
  that a genuine header is one above the genuine header it names as its parent, since the code
  checks only the hash there (`crates/chainweave-sink/src/postgres.rs:1181-1195`).

## Where the code differs from what one might expect

* A batch that only rolls back leaves the in-memory tip where it was and empties the local
  segment, while the durable checkpoint does move. `ClosedLoop.TipCanStayBehind` is a concrete
  case and `ClosedLoop.TipFollowsHead` says exactly when it happens.
* The extension path does not check finality. It needs no check: it rolls nothing back.
* The later branch that turns an empty event list into a duplicate cannot be reached past the
  first duplicate check: the batch in `ClosedLoop.HeadShape` is never empty.
* Running a committed batch again changes nothing exactly when it names no hash twice
  (`Replay.ReplayExactly`). Batches from a head and height-walk plans name a block twice exactly when
  the first block they apply is the stored one above the ancestor (`Replay.HeadOnceExactly`,
  `Reconcile.PlanOnceExactly`), and running one of those again keeps the outbox a history only when
  all it applies is the start of what it rolled back (`Replay.RetryKeepsHistory`). A canonical read
  that fails can make a head's batch such a one (`Replay.HeadCanRepeat`), and so can a source that
  changes between the calls of a height walk (`Reconcile.PlanCanRepeat`).
* A canonical read that fails comes back as an absent header. The store still stays one linked
  chain. When the checkpoint read just before a head is applied fails, the pass ends without an error
  and without having followed the head (`Live.ReadyWithoutFollowing`); when the second checkpoint
  read of the pass fails and no start is configured, the pass halts as if there were no checkpoint.
  `Live.LiveTracker.ApplyChainState` and `Live.LiveTracker.RunWithCancellation` name the reads.
* A source that asks to start over while the tracker catches up on its own path sends what is left
  through the transition machine, which halts if that is deeper than the reorg bound, although nothing
  was reorganised. `Live.LiveTracker.RunWithCancellation` says exactly when, through
  `Live.Resumed` and `Live.HaltOf`.
* Two different logs with one index leave one row in the log table, the first, while the outbox row
  carries both (`StoreTheory.SecondLogIsLost`).
* A duplicate range is reported as an error but still replaces the parked one.
* A consumer that restarts forgets what it has seen. That goes unnoticed exactly when no event id is
  read again (`Dispatch.RestartUnnoticed`).
* The final `max` in the range sizer's success step never has an effect.
* With at least one worker the backfill loop never ends with an incomplete coordinator, so the
  error for that case is dead. The command line refuses zero workers.
* The identity sequence behind event ids is not rolled back: crashes leave gaps in the ids.
* A dispatcher that still holds its lock never finds its row marked already.

## Model

| member | source | states |
|---|---|---|
| Chain.HeaderCache.Insert | crates/chainweave-core/src/chain.rs:553-569 | the new header is cached, every other cached header is one that was there before, eviction happens only at capacity and only of the oldest; keys stay the duplicate-free order, within capacity |
| Chain.ChainState.New | crates/chainweave-core/src/chain.rs:163-183 | a state exists exactly for a nonzero cache and a nonzero depth, and starts empty |
| Chain.ChainState.Apply | crates/chainweave-core/src/chain.rs:268-345 | result, maps, tip and cache are those of the specification functions that the theory lemmas below are about; an error changes nothing |
| Chain.ChainState.ResolveCommonAncestor | crates/chainweave-core/src/chain.rs:347-369 | the in-place walk finds the ancestor and the replacement headers of the specified walk, or fails with its error; which error that is `Fork.SwitchIsDiff`, `Fork.NoForkFails` and `ChainTheory.DepthRefusalIsHonest` say |
| Chain.ChainState.RollbackPath | crates/chainweave-core/src/chain.rs:371-397 | the in-place walk collects the rollbacks of the specified walk |
| Chain.ChainState.CommitBatch | crates/chainweave-core/src/chain.rs:493-509 | maps, hashes, tip and cache after a batch |
| ChainTheory.ApplySound | crates/chainweave-core/src/chain.rs:268-336 | every batch replaces a linked run down from the tip by a linked branch up to the head, both on the named ancestor and each within the depth bound; finality is not crossed |
| ChainTheory.ApplyKeepsView | crates/chainweave-core/src/chain.rs:475-509 | the maps stay exactly one contiguous linked segment with the tip on top after every head; only a batch without applies empties it |
| ChainTheory.RunKeepsInvariant | crates/chainweave-core/src/chain.rs:268-345 | the same, and the cache invariant, over every sequence of heads and answers |
| ChainTheory.StepKeepsFinal | crates/chainweave-core/src/chain.rs:315-319 | no batch rolls back at or below the finalized height and no entry there is lost |
| ChainTheory.RunKeepsFinal | crates/chainweave-core/src/chain.rs:455-465 | the same over every run with a fixed finalized height |
| ChainTheory.ApplyTransparent | crates/chainweave-core/src/chain.rs:423-453 | whatever the caches hold, a resolver that knows some set of headers, among them what is held locally, gives the same result, and the batch names only known headers |
| ChainTheory.RunTransparent | crates/chainweave-core/src/chain.rs:553-573 | over every sequence of heads and a source that may learn of blocks but never forgets one, states that differ only in cache capacity and contents give the same results and the same view |
| ChainTheory.HeadIsCached | crates/chainweave-core/src/chain.rs:268-279 | a known head, and the head that an accepted batch ends with, is cached afterwards |
| ChainTheory.CachedWalkIsFree | crates/chainweave-core/src/chain.rs:423-453 | a branch whose headers are all cached is walked down to its canonical root without asking the source for anything |
| ChainTheory.DepthRefusalIsHonest | crates/chainweave-core/src/chain.rs:347-397 | whatever the resolver answers, a depth refusal names the bound, and one header more than it lies, linked, on the way down from the head without being canonical or on the way down from the tip; a finality refusal names the boundary and an ancestor below it |
| Fork.ForkIsUnique | crates/chainweave-core/src/chain.rs:347-369 | a path and a chain have at most one highest shared header |
| Fork.SharedHasFork | crates/chainweave-core/src/chain.rs:347-369 | and they have one as soon as they share anything |
| Fork.SwitchIsDiff | crates/chainweave-core/src/chain.rs:311-336 | past duplicates and extensions, a head is accepted exactly when its fork is within the depth and finality limits, and then as the minimal diff; a refusal names the limit that is hit first: the branch above the depth bound, then finality, then the rollbacks above the depth bound |
| Fork.NoForkFails | crates/chainweave-core/src/chain.rs:347-369 | a head that shares nothing with the chain is refused: for its depth if the whole path is above the bound, otherwise for the missing parent of its first header |
| Fork.ApplyIsDiff | crates/chainweave-core/src/chain.rs:268-336 | a head is accepted if and only if it extends the tip or its fork is allowed, and then the batch is the minimal diff with its kind of transition: nearest canonical ancestor, exactly the canonical headers above it rolled back, exactly the path above it applied; otherwise the error is the one its fork, or the lack of one, calls for |
| Fork.ApplyAccepts | crates/chainweave-core/src/chain.rs:268-336 | a head above genesis is accepted exactly when it extends the tip or its fork is allowed |
| ClosedLoop.TipViewOk | crates/chainweave-core/src/chain.rs:189-200 | a state seeded from a checkpoint satisfies the invariant |
| ClosedLoop.HeadShape | crates/chainweave-core/src/chain.rs:315-336 | a batch from the checkpoint is never empty past the duplicate check, rolls back exactly a suffix of the stored chain and applies a linked branch, all of it new to the chain unless a canonical lookup went missing |
| ClosedLoop.HeadReplays | crates/chainweave-core/src/live.rs:422-449 | the batch replays on the stored chain, ends at the head, applies every block once and loses nothing finalized; with all lookups answered it names no hash twice |
| ClosedLoop.HeadCommits | crates/chainweave-core/src/live.rs:422-469 | the batch commits: no missing rollback row, no canonical-height clash, no non-canonical checkpoint; the tables describe the new chain, whose top is the head and the checkpoint |
| ClosedLoop.PairingCarries | crates/chainweave-sink/src/postgres.rs:274-307 | pairing payloads by hash keeps the batch's headers and order |
| ClosedLoop.TipFollowsHead | crates/chainweave-core/src/chain.rs:501-508 | after an accepted head the tip is the head, except exactly when the head is canonical already, is not the tip and is not taken as an extension |
| ClosedLoop.TipCanStayBehind | crates/chainweave-core/src/chain.rs:501-508 | a concrete store, resolver and head, the tip cached as after seeding: a rollback-only batch after which the tip is stale |
| ClosedLoop.TipStaysBehind | crates/chainweave-core/src/chain.rs:501-508 | in every store of genesis and one block, the genesis head leaves the tip stale while the durable checkpoint moves to genesis |
| Store.FromChainBatch | crates/chainweave-sink/src/postgres.rs:274-307 | pairing succeeds exactly when the payloads are those of the applied hashes, each applied once; it keeps order and uses the last of several payloads with one hash; a refusal names an applied hash or a payload that was not asked for |
| Store.Transaction.RollbackBlock | crates/chainweave-sink/src/postgres.rs:514-554 | fails exactly for an unknown hash or an unstorable height, and says which; otherwise flips the row exactly if it was canonical at that height, and touches no other row or index entry |
| Store.Transaction.UpsertBlock | crates/chainweave-sink/src/postgres.rs:556-588 | a canonical row is left alone; otherwise the retained or new header becomes canonical at a free height and no other row or index entry changes; a refusal is for the height or for a row at that height |
| Store.Transaction.UpsertBlockLogs | crates/chainweave-sink/src/postgres.rs:590-645 | the log table after all upserts of a block; nothing else changes |
| Store.Transaction.AppendOutbox | crates/chainweave-sink/src/postgres.rs:726-781 | one row at the end under the drawn id, or a foreign-key refusal that uses up the id; nothing else changes |
| Store.Transaction.PlaceCheckpoint | crates/chainweave-sink/src/postgres.rs:826-870 | moves exactly when the row exists, is canonical and has that height; nothing else changes |
| Store.Transaction.Perform | crates/chainweave-sink/src/postgres.rs:431-470 | one event; an outbox row appears exactly when the block row changed, and the report counts it under its kind and all logs of the block |
| Store.Writer.PerformAll | crates/chainweave-sink/src/postgres.rs:431-472 | all events in order, or stopped at the crash gate asked for; the report counts the apply rows and the rollback rows that were appended, and the logs of all applied blocks |
| Store.Writer.ApplyBatch | crates/chainweave-sink/src/postgres.rs:416-511 | all or nothing at every crash gate: refusals and early crashes leave the tables, success and late crashes leave the whole batch; a batch that can commit crashes exactly when its gate is reached; a finished batch reports exactly the apply rows and the rollback rows it appended to the outbox |
| StoreTheory.CanonicalIsChain | crates/chainweave-sink/src/postgres.rs:897-944 | canonical rows and both canonical lookups answer exactly from the chain |
| StoreTheory.EventsCommit | crates/chainweave-sink/src/postgres.rs:431-472 | events that replay on the chain commit, one id each, and append exactly themselves to the journal |
| StoreTheory.EventsKeepIds | migrations/20260831000000_postgres_chain_state.sql:57-69 | event ids strictly increase in journal order whatever a batch contains |
| StoreTheory.BatchCommits | crates/chainweave-sink/src/postgres.rs:416-481 | a batch that fits always commits; rows, index, checkpoint and journal describe the new chain |
| StoreTheory.CommittedBatch | crates/chainweave-sink/src/postgres.rs:416-481 | a batch that fits and did commit leaves the new chain, with nothing assumed about its values |
| StoreTheory.CommittedIsStorable | crates/chainweave-sink/src/postgres.rs:590-645 | whatever committed was within the column types |
| StoreTheory.LogsStoredLogForLog | crates/chainweave-sink/src/postgres.rs:590-645 | a block without stored logs leaves its logs row for row exactly when no two different logs share an index; the keys are stored either way, every other row is left alone, the outbox row carries every log |
| StoreTheory.SecondLogIsLost | crates/chainweave-sink/src/postgres.rs:590-645 | of two logs with one index the table keeps the first, the outbox both |
| StoreTheory.LastDecodingWins | crates/chainweave-sink/src/postgres.rs:590-645 | a retained log keeps its decoded value until the same raw log comes with a new one, and of several the last stays |
| StoreTheory.RunKeepsGood | crates/chainweave-sink/src/postgres.rs:416-491 | every run of batches, refusals, crashes and retries of batches that name no hash twice keeps the invariant |
| StoreTheory.OutboxIsHistory | crates/chainweave-sink/src/postgres.rs:431-481 | over every run every prefix of the outbox folds to a linked chain, and all of it to exactly the canonical rows with the checkpoint on top |
| StoreTheory.ReplayIsIdentity | crates/chainweave-sink/src/postgres.rs:556-645 | a committed batch that names no hash twice changes nothing when run again |
| StoreTheory.RetryCanBreak | crates/chainweave-sink/src/postgres.rs:431-481 | a family of batches that commit twice and after the second time leave an outbox that is no history |
| StoreTheory.CrashesAreInvisible | crates/chainweave-sink/src/postgres.rs:416-491 | any number of crashed attempts before a finished one end like one clean run, ids aside |
| Replay.ReplayExactly | crates/chainweave-sink/src/postgres.rs:416-491 | a committed batch changes nothing when run again if and only if it names no hash twice |
| Replay.ReplacementOnce | crates/chainweave-core/src/chain.rs:321-336 | a batch that replaces the chain above a position by a branch names a block twice exactly when the branch starts with the block it rolled back there |
| Replay.HeadOnceExactly | crates/chainweave-core/src/live.rs:422-449 | a head's batch names a block twice exactly when its branch starts with the stored block above the ancestor, for any lookups that went missing |
| Replay.HeadCanRepeat | crates/chainweave-cli/src/live_runtime.rs:475-494 | a stored chain, a head and one block whose lookups fail, for which the batch rolls that block back and applies it again |
| Replay.RetryKeepsHistory | crates/chainweave-sink/src/postgres.rs:431-481 | running a committed replacement again leaves an outbox that folds if and only if the branch starts differently or is only the start of what it replaced |
| Reconcile.Reconciler.FindCommonAncestor | crates/chainweave-sink/src/postgres.rs:1229-1265 | the in-place walk by height is the specified one, with its errors |
| Reconcile.Reconciler.ReconcileToHead | crates/chainweave-sink/src/postgres.rs:1150-1227 | runs exactly the planned batch, or leaves the tables alone when the head cannot be read or planning or committing fails; the summary counts the rollback rows and the apply rows that the call appended to the outbox |
| Reconcile.PlanFits | crates/chainweave-sink/src/postgres.rs:1150-1216 | whatever an honest source answers, also for other heights than asked, a plan that is made replays on the stored chain |
| Reconcile.PlanCommits | crates/chainweave-sink/src/postgres.rs:1150-1227 | a plan commits if the columns can hold it, and a plan that commits leaves the store the linked chain it replays to, checkpoint on top |
| Reconcile.PlanOnceExactly | crates/chainweave-sink/src/postgres.rs:1150-1227 | for any honest source, a plan names a block twice exactly when the first block it collected is the stored one above the ancestor |
| Reconcile.FirstPlanIsOnce | crates/chainweave-sink/src/postgres.rs:1150-1227 | a plan on an empty store names every block once |
| Reconcile.PlanCanRepeat | crates/chainweave-sink/src/postgres.rs:1150-1227 | a source that changes between calls, and a store, for which the plan names a block twice and running it again breaks the history |
| Reconcile.PlanIsDiff | crates/chainweave-sink/src/postgres.rs:1229-1265 | against a steady source a plan exists exactly when the fork is within the walk-back limit, and it is the minimal diff, a reorg exactly if it rolls anything back; past the limit the error names it, and when nothing is shared it is the limit or the height below the stored chain |
| Reconcile.FirstPlanIsPath | crates/chainweave-sink/src/postgres.rs:1150-1216 | on an empty store a plan against a steady source always exists and applies exactly the whole path |
| Reconcile.PlanIsCounted | crates/chainweave-sink/src/postgres.rs:1150-1227 | against a steady source the summary of a committed plan counts the canonical headers above the fork as rolled back and the path above it as applied |
| Reconcile.SteadyPlanIsOnce | crates/chainweave-sink/src/postgres.rs:1150-1216 | against a steady source a plan names no hash twice, so it is safe to run again |
| Reconcile.HashWalkIsDiff | crates/chainweave-core/src/chain.rs:347-397 | a hash walk from the checkpoint that succeeds computes the diff at the fork |
| Reconcile.WalksAgree | crates/chainweave-sink/src/postgres.rs:1150-1265 | whenever both algorithms succeed they give the same ancestor and the same rollbacks and applies in the same order |
| Backfill.NewFetched | crates/chainweave-core/src/backfill.rs:686-715 | a range is accepted exactly when its headers cover it, one linked header per height; a refusal names a count, a height or a link that is really wrong |
| Backfill.Coordinator.New | crates/chainweave-core/src/backfill.rs:441-472 | exists exactly for an ordered range with a fitting parent: none at zero, the header just below otherwise; each refusal has its own error |
| Backfill.Coordinator.InsertPending | crates/chainweave-core/src/backfill.rs:552-570 | beyond-target, stale and duplicate refusals; a duplicate still replaces the parked range |
| Backfill.Coordinator.TakeReady | crates/chainweave-core/src/backfill.rs:572-599 | the next range leaves the parked ones; a broken parent link empties them |
| RangeSink.PushRange | crates/chainweave-core/src/backfill.rs:487-498 | one push of any assembled range over the store: coordinator and sink do as specified, wherever the writer crashes; unless the commit itself failed, the store holds exactly what the coordinator stands on |
| RangeSink.DrainReady | crates/chainweave-core/src/backfill.rs:531-550 | commits parked ranges in height order into the store until one is missing or fails, as specified |
| Backfill.DrainKeepsRun | crates/chainweave-core/src/backfill.rs:531-550 | whatever is parked, also overlapping ranges, what is committed stays one gap-free linked run on the given parent, failures included, and nothing is taken back |
| Backfill.PushKeepsRun | crates/chainweave-core/src/backfill.rs:487-599 | the same for a push of any range: stale, beyond the target, overlapping, duplicate, not linked, or refused by the sink |
| Backfill.EveryRunIsLinked | crates/chainweave-core/src/backfill.rs:487-599 | over every sequence of pushes into a new coordinator the committed ranges are one gap-free linked run on its parent |
| Backfill.DrainCounts | crates/chainweave-core/src/backfill.rs:531-550 | the report is exactly the progress made: ranges, blocks, payloads and the last height; nothing committable stays parked |
| Backfill.DrainFails | crates/chainweave-core/src/backfill.rs:572-599 | a drain fails only in the sink or on a broken link; the latter asks for the suffix from the next height, never zero |
| Backfill.PushKeepsOk | crates/chainweave-core/src/backfill.rs:487-599 | a range that fits beside the parked ones is never refused, and the parked ranges stay apart |
| Backfill.AnyOrderCommitsAll | crates/chainweave-core/src/backfill.rs:487-599 | any permutation of linked ranges that tile start to target commits the same ascending sequence and completes |
| Fetch.GroupByHeight | crates/chainweave-cli/src/main.rs:1006-1015 | each height's group is exactly its logs, in fetch order |
| Fetch.Assemble | crates/chainweave-cli/src/main.rs:854-879 | succeeds exactly when headers cover the range and attached logs carry their block's hash |
| Fetch.LogsConserved | crates/chainweave-cli/src/main.rs:854-879 | every in-range log occurs in the blocks exactly as often as it was fetched |
| Fetch.LogsInPlace | crates/chainweave-cli/src/main.rs:854-879 | and sits in the block of its height, whose hash it carries |
| Budget.RpcBudget.Record | crates/chainweave-core/src/backfill.rs:308-326 | admitted exactly when both caps cover it, with 64-bit saturation; a refusal changes nothing |
| Budget.WindowedLiveBudget.RecordAt | crates/chainweave-cli/src/live_runtime.rs:1280-1308 | admitted exactly when the window's total allows it; a caller that waits the returned delay is admitted if the cap covers the method |
| Budget.RateBound | crates/chainweave-cli/src/live_runtime.rs:1280-1308 | any interval of one window length admits at most twice the cap |
| Budget.RunRateBound | crates/chainweave-cli/src/live_runtime.rs:1280-1308 | over every run of requests in time order, any interval of one window length admits at most twice the cap |
| Budget.RateBoundIsTight | crates/chainweave-cli/src/live_runtime.rs:1280-1308 | a run of single-unit requests that reaches the bound |
| Scheduler.ChunksTile | crates/chainweave-cli/src/main.rs:1052-1079 | chunks partition their range exactly |
| Scheduler.ChunksSized | crates/chainweave-cli/src/main.rs:1052-1079 | every chunk but the last has the whole size, and the last is not longer |
| Scheduler.LogRangeSizer.RecordSuccess | crates/chainweave-core/src/backfill.rs:136-142 | doubles up to the maximum |
| Scheduler.LogRangeSizer.RecordProviderLimit | crates/chainweave-core/src/backfill.rs:144-146 | halves down to the minimum |
| Scheduler.LogRangeSizer.NextRange | crates/chainweave-core/src/backfill.rs:149-159 | a nonempty range at the given start, of the current size or up to the target, exactly while any height is left |
| Scheduler.LaunchFresh | crates/chainweave-cli/src/main.rs:827-842 | taking a fresh range keeps the heights partitioned |
| Scheduler.SplitTask | crates/chainweave-cli/src/main.rs:777-795 | a provider limit keeps the heights partitioned |
| Scheduler.DrainKeepsTiles | crates/chainweave-core/src/backfill.rs:531-550 | commits leave the front of the partition |
| Scheduler.InFlightFits | crates/chainweave-core/src/backfill.rs:552-570 | a range in flight is never stale, beyond the target or overlapping a parked one |
| Scheduler.LowestIsParked | crates/chainweave-cli/src/main.rs:807-812 | with nothing in flight, queued or unallocated, the lowest uncommitted height starts a parked range |
| FetchBudget.ChunksNeed | crates/chainweave-cli/src/main.rs:1052-1079 | cutting a range up costs no more than was set aside for the range, and a request for logs less once it is really cut |
| FetchBudget.SplitPays | crates/chainweave-cli/src/main.rs:777-795 | a request for logs that was too long is paid for by the cut, or by the halved size if the range was within it already |
| OneChain.DrainOnTruth | crates/chainweave-core/src/backfill.rs:531-550 | if only parts of one chain are parked and the sink takes what the columns can hold, a drain never fails and what is committed stays the beginning of that chain |
| FetchLoop.Loop.FillWindow | crates/chainweave-cli/src/main.rs:817-843 | the queue is taken first and in order, fresh ranges only once it is empty and of the whole size or up to the target; on return the window is full or no work is left |
| FetchLoop.Loop.EnqueueChunksFront | crates/chainweave-cli/src/main.rs:1052-1079 | the chunks go to the front of the queue in order |
| FetchLoop.Loop.PayLogs | crates/chainweave-cli/src/main.rs:886-888 | a fetch pays for its request for logs before it is made, or ends exactly because a cap does not cover it |
| FetchLoop.Loop.PayHeader | crates/chainweave-cli/src/main.rs:940-942 | the same for every header of the range, before the headers are fetched |
| FetchLoop.Loop.HearLogs | crates/chainweave-cli/src/main.rs:889-930 | with the logs a fetch goes on to the headers; a provider limit ends it; a failure is tried again up to the last attempt unless it is for good |
| FetchLoop.Loop.HearHeaders | crates/chainweave-cli/src/main.rs:943-973 | with the headers a fetch ends with its assembled range, or with a failure if they do not fit together; a failure to get them is tried again up to the last attempt, and paid for again |
| FetchLoop.Loop.JoinNext | crates/chainweave-cli/src/main.rs:854-974 | whichever fetch ends next after any number of steps of all of them, it has paid for a request for logs unless it failed; it fails only when a cap is used up, after its last attempt, or for good; with a provider that serves one chain it does not fail, and what is left to do stays within both caps |
| FetchLoop.Loop.PushOne | crates/chainweave-cli/src/main.rs:736-741 | the report is exactly the progress made, the partition loses what was committed, only a sink error or an invalidated suffix can fail, and the store holds what the coordinator stands on unless the sink failed; a part of the one chain that is served always goes through |
| FetchLoop.Loop.Accept | crates/chainweave-cli/src/main.rs:733-776 | a landed fetch keeps the loop invariant, the store included, through commits and through an invalidated suffix; the only error is the sink's |
| FetchLoop.Loop.Invalidate | crates/chainweave-cli/src/main.rs:742-775 | a broken parent link throws away what is in flight and queued, and requeues everything from the next height in chunks of the current size; what the push had committed first is still reported |
| FetchLoop.Loop.SplitAndRequeue | crates/chainweave-cli/src/main.rs:777-795 | a provider limit halves the size, not below its minimum, and puts the range back to the front of the queue in chunks of that size; the loop invariant is kept, and with a provider that serves one chain what is left to do stays within both caps |
| FetchLoop.Loop.Turn | crates/chainweave-cli/src/main.rs:731-805 | every turn keeps the partition, the gap-free run, the store, the progress count and the budget accounting; a fetch that ended with its range doubles the range size and a provider limit halves it, within their bounds; with a provider that serves one chain it does not fail |
| FetchLoop.Loop.Run | crates/chainweave-cli/src/main.rs:708-815 | over the store, with refusals and crashes: terminates within both budget caps however the provider behaves; success means everything is committed; stale, duplicate, beyond-target and incomplete errors never occur, and a failed fetch means a used-up cap, a last attempt or a final refusal; on every exit the store is the chain it held extended by exactly the committed ranges, after a refused commit possibly by the one interrupted range; with a provider that serves one storable chain for ranges up to some length not below the minimum size and limits longer ones, no crash, and caps of 4n - 1 + log2(size) requests and 16n - 5 + 5 log2(size) units for n heights, it succeeds in every schedule, extends the store by exactly that chain, and reports it exactly |
| Committer.BackfillCommitter.CommitRange | crates/chainweave-sink/src/postgres.rs:1292-1325 | one batch per range, all or nothing; the anchor moves exactly on a known commit |
| Committer.RangeExtends | crates/chainweave-sink/src/postgres.rs:1292-1325 | a range that follows the stored chain extends it by exactly its headers |
| Committer.AssembledIsCarried | crates/chainweave-cli/src/main.rs:854-879 | an assembled range carries exactly the blocks of its headers, as the committer needs |
| Committer.CommitStep | crates/chainweave-sink/src/postgres.rs:1292-1325 | the store holds the chain with or without the range, success says with, and it succeeds exactly when the columns can hold the range and no crash point is reached |
| RangeSink.Sink.CommitRange | crates/chainweave-sink/src/postgres.rs:1292-1325 | the sink accepts exactly as the columns and the crash points allow; after a refusal the store holds what was known and at most that one range more |
| RangeSink.CommitNext | crates/chainweave-core/src/backfill.rs:531-550 | one ready range: taken, committed and moved past, or the drain ends as specified |
| Committer.BackfillExtends | crates/chainweave-sink/src/postgres.rs:1292-1325 | committing linked ranges one after the other always succeeds and extends the chain by all of them |
| Committer.CoordinatorExtendsStore | crates/chainweave-core/src/backfill.rs:487-550 | the ranges any coordinator run from the checkpoint has committed can be committed to a store one after the other without a refusal, and extend it by exactly them |
| LiveSink.PostgresSink.CheckpointIsTop | crates/chainweave-cli/src/live_runtime.rs:1175-1186 | the checkpoint header read back is the top of the chain |
| LiveSink.PostgresSink.PushOnAnchor | crates/chainweave-cli/src/live_runtime.rs:1224-1239 | the nested coordinator lets a block through exactly when it sits on the anchor |
| LiveSink.PostgresSink.CommitRange | crates/chainweave-cli/src/live_runtime.rs:456-471 | success adds the block and moves the anchor; any failure leaves the old chain or that one block more; a storable block on the anchor fails only by an interruption |
| LiveSink.PostgresSink.CommitBatch | crates/chainweave-cli/src/live_runtime.rs:496-508 | success leaves the replayed chain, the anchor re-read and absent exactly when that read fails; with fitting, storable payloads only an interruption can fail |
| Live.GatheredFit | crates/chainweave-core/src/live.rs:446-464 | payloads gathered event by event are exactly what the durable batch asks for |
| Live.LiveTracker.ValidateOrRefetchNumber | crates/chainweave-core/src/live.rs:472-501 | a block with matching logs is taken; otherwise it is fetched once more and taken exactly if then its logs match |
| Live.LiveTracker.ValidateOrRefetchHash | crates/chainweave-core/src/live.rs:503-531 | the payload has exactly the expected header and came with matching logs, at once or when fetched once more, or the step fails |
| Live.LiveTracker.GatherPayloads | crates/chainweave-core/src/live.rs:446-464 | one payload per applied header, in order, each delivered with matching logs for its hash; every event is preceded by a poll for a cancellation |
| Live.LiveTracker.ApplyChainState | crates/chainweave-core/src/live.rs:408-470 | a halt writes nothing; the call does nothing and succeeds when its checkpoint read fails, and only then can it succeed without the head on top; a failure leaves the old chain or that new one; against an undisturbed source it halts exactly when the fork is too deep or below finality, with that reason, fails exactly when there is no such reason and the head is not accepted, and otherwise puts the head on top |
| Live.LiveTracker.FetchAndPushHeight | crates/chainweave-core/src/live.rs:352-384 | success adds exactly the asked height; a failure that asks for a reconciliation changed nothing; against a steady source it succeeds exactly when the block continues the chain, unless the source asks to start over |
| Live.LiveTracker.ReconcileCurrentHead | crates/chainweave-core/src/live.rs:386-406 | success puts a head observed in this pass on top, except exactly when the checkpoint read fails, when nothing is done; against an undisturbed source it halts, fails or succeeds as the fork of the head says |
| Live.LiveTracker.CatchUpFromCheckpoint | crates/chainweave-core/src/live.rs:313-350 | reaches the head's height or a head seen later, unless the checkpoint read of the reconciliation fails; a halt leaves exactly the completed blocks; against an undisturbed source it ends at the head if the chain is on its path, and otherwise as the fork of the head says |
| Live.LiveTracker.CatchUpFromStart | crates/chainweave-core/src/live.rs:289-311 | only a start at zero on an empty sink can succeed, and against a steady source that does not ask to start over it does; on a chain whose checkpoint could not be read nothing gets in |
| Live.LiveTracker.FollowLowerHead | crates/chainweave-core/src/live.rs:240-258 | a lower head is left alone exactly when source and store agree at its height and that read did not fail; otherwise it is applied, or nothing is done exactly when the checkpoint read fails; against an undisturbed source it is left alone exactly when it is stored |
| Live.LiveTracker.RunWithCancellation | crates/chainweave-core/src/live.rs:186-287 | whatever the source answers and whichever reads fail, every exit leaves one linked chain with its checkpoint on top and everything finalized in it; a halt commits nothing but completed catch-up blocks; a pass without a halt caught up with a head it saw, or saw a stale one and did nothing, or lost one named checkpoint read; the missing-start halt has its exact condition; a disagreement is reported exactly when the verifier disagreed on the observed head, and the pass is ready exactly if it did not and the head was not left alone; it polls for a cancellation before every block it commits and ends with a cancellation or a failed answer; against an undisturbed source, also one that repeats an answer or asks to start over, it halts with the depth or the finality reason exactly when the fork of the head is outside that limit, and otherwise ends at the head, leaves a stored head alone, or fails for want of a fork or a start |
| Live.ReadyWithoutFollowing | crates/chainweave-core/src/live.rs:260-274 | a concrete pass with one failed read that ends ready with the store unchanged and the reported head not followed |
| Dispatch.RunConsumer | crates/chainweave-cli/src/main.rs:618-645 | from an offset on, messages without payload are skipped, each event id read is shown once, and it stops at its limit or at the end |
| Dispatch.RestartUnnoticed | crates/chainweave-cli/src/main.rs:618-645 | a restart goes unnoticed exactly when no event id is read before and after it |
| Dispatch.MoveKeepsSound | crates/chainweave-sink/src/kafka.rs:254-315 | every move of any dispatcher keeps the order invariant |
| Dispatch.MarkKeepsSound | crates/chainweave-sink/src/kafka.rs:290-303 | a holder that still has its lock marks exactly the next row, which was not marked before |
| Dispatch.DeliveryInOrder | crates/chainweave-sink/src/kafka.rs:254-315 | over all interleavings the deduplicated log is a prefix of the outbox, every marked row was sent, and with nothing unpublished it is the outbox |
| Dispatch.Dispatcher.DispatchOnce | crates/chainweave-sink/src/kafka.rs:254-315 | one dispatch makes exactly the listed moves; idle exactly when nothing is unpublished; its result names the lowest unpublished row |
| Dispatch.Dispatcher.DispatchSound | crates/chainweave-sink/src/kafka.rs:254-315 | one undisturbed dispatch sends and marks the lowest unpublished row exactly if there is one and the send is acknowledged, and errs exactly if there is one and it is not |
| Dispatch.Dispatcher.RunUntilCancelled | crates/chainweave-sink/src/kafka.rs:211-232 | started with p published rows of n, after k polls exactly the first min(n, p + k) are published and those from p on are what was sent; it stops at the first poll that is cancelled or at which a row is left and its send is not acknowledged, with the publish error for that row exactly in the second case |
| Dispatch.PublishedGrows | crates/chainweave-sink/src/kafka.rs:290-303 | nothing published is ever taken back |
| Dispatch.CanDrain | crates/chainweave-sink/src/kafka.rs:211-232 | from every reachable state with the next row unlocked, the outbox can be drained and the consumer then has all of it |
| EndToEnd.StepKeepsAllSound | crates/chainweave-sink/src/postgres.rs:431-481 | heads, reconciliations, ranges, refusals, retries, crashes and dispatcher moves all keep the combined invariant |
| EndToEnd.ConsumerSeesTheChain | crates/chainweave-cli/src/main.rs:618-645 | over every run from an empty store the consumer's view folds to a linked chain, and when nothing is unpublished to exactly the canonical rows with the checkpoint on top |

## Left out

- RPC transport, JSON, WebSocket subscriptions, the Kafka and Postgres clients: replaced by oracles indexed by call and by an abstract transactional store.
- ABI decoding and the redecoding of retained logs: decoder columns are opaque optional values; how an upsert merges them is modelled.
- Configuration, command line, health server, metrics, tracing, task supervision, reconnect flags and shutdown signals: plumbing around the loop.
- RetryPolicy and RangePlanner: a failed attempt of a fetch is worth another one or not, up to the last; the delays between attempts and the classification of failures are not modelled, and planning is not part of the adaptive loop.
- SerializedWriter: a queue in front of the writer; a single writer is assumed instead.
- Timestamps, block status and status source, chain id and identity table: constant for one chain or not read by the loop.
- Error classification from messages: the class of a failure is an input.
- Live.LiveTracker.RunWithCancellation: the tracker's own window budget is not modelled; when it runs out the readiness drops to unavailable until the end of the pass, so a pass that is not ready there may be unavailable instead of degraded. The recorded apply and rollback orders and the list of readiness transitions are not modelled either.
- FetchLoop.Loop.JoinNext: which fetch makes its next step is left open instead of modelling the runtime; requests that fetches pay for while the loop commits are counted when the next one is awaited.
- FetchLoop.Loop.Invalidate: the numbers of ranges and payloads in a report that includes a partial commit, which the source counts loosely; blocks and last height are exact.
- FetchLoop.Loop.Run: success is claimed for a provider whose only failures are limits on long ranges; with other failures it depends on how often they come, and only what a failure means is stated.
- Store.Writer.ApplyBatch: row locks and isolation levels, since there is one writer; the report's log count is the number of logs in the batch, whether or not they changed a row.
- Dispatch.DispatchMoves: the errors for rows that cannot be turned into a message; stored hashes and heights are always well formed here.
- The handling of a backfill into a populated store from an anchor that is not its checkpoint: it does not keep the contiguous segment, so the results start from an empty store or the checkpoint.
- Dispatch.DeliveryInOrder: the consumer in it reads the whole log without restarting; `Dispatch.RestartUnnoticed` says what a restart changes.
- Heights above `i64::MAX` in canonical lookups: the source fails there, the model's lookups answer that nothing is stored.
