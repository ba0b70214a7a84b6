# Verified models of the batcher, proxyd and the pre-image channels

Four parts of the repository are modelled, each in the form the source has: what the source updates in
place is a class whose methods change the same fields and loop over the same collections, proved against
functions on values; the properties the source is for are lemmas about those functions and about whole runs.

1. **The batcher's channel pipeline** (`bl-batcher/batcher`). `channelBuilder` keeps deadlines and a frame
   queue, `channel` moves every frame between waiting, in flight and confirmed, `channelManager` packs
   accepted L2 blocks into channels and hands frames out, and the driver loads blocks, publishes, and starts
   over on a reorg. A run is any sequence of the manager's public calls: receipts, failures and timeouts
   interleave at will. Channels are numbered in the order of their creation; `derive.ChannelOut` is a function
   of a channel's number and of the blocks it was fed.
2. **proxyd's consensus poller and its shared tracker**. The poller is a state machine per backend, a group
   step with filters and minima, and a walk back to the highest common block. The tracker is a leader election
   over a shared store: every store operation of every node is a step, requests and replies may be lost, and
   keys may expire at any moment.
3. **proxyd's batch path**: rewriting block tags, forwarding to a backend group, sorting the reply, splicing,
   and answering a JSON-RPC batch slot by slot.
4. **The pre-image and hint channels** over byte streams, with every interleaving of single-byte transfers.

Where a property one would expect does not hold of the code, the model keeps the code as it is, a lemma gives
the input that breaks it, and another lemma says exactly when it holds: the order of blocks (`OrderCanBeLost`,
`InOrderIffOrderly`), clearing idle channels on `Close` (`IdleSurvivesClose`, `CloseClearsIdleIff`), the end of
the publish loop (`StuckIsReached`, `EndlessWhenRejected`, `PublishLoopEndsIff`), the group minima
(`MinimumExactIff`, `MinimaInOrderIff`), the walk back (`WalkEndsIff`, `WalkWraps`), bans (`BanHoldsIff`), leader
flags (`TwoLeadersPossible`, `OneLeaderIff`, `LeadersHoldIff`), the check before a takeover (`UncheckedIsPosted`,
`PostMayLeadIff`), the block range check (`RangeCheckSoundIff`) and
long hints (`HintIntactIff`, `SendAll`).

Two places where the documentation and the code differ, and the model follows the code: `Close` is documented
to clear all channels without submitted transactions, but its loop removes from the slice it ranges over; and
the comment on `AddL2Block` speaks of blocks loaded, while after a block with the zero hash there is no parent
check either.

## Files

| file | contents |
|---|---|
| `Common.dfy`, `Sentinel.dfy` | optional values, 64-bit words; the running minimum in which 0 means "none" |
| `BatcherTypes.dfy`, `ChannelBuilder.dfy`, `Channel.dfy` | blocks, frames, configuration; builder and channel, as values and as classes |
| `CloseSweep.dfy` | the removal loop of `Close` |
| `ManagerSpec.dfy`, `ManagerRuns.dfy`, `ManagerOrder.dfy`, `ManagerPublish.dfy`, `ManagerFrames.dfy`, `ManagerDeadlines.dfy`, `ManagerClose.dfy`, `ManagerOutcomes.dfy`, `ManagerExample.dfy` | the manager as functions, its invariant, and the theorems about runs |
| `ChannelManager.dfy` | the manager as a class |
| `DriverSpec.dfy`, `DriverLoading.dfy`, `Driver.dfy` | the driver, as functions on histories and as a class |
| `PollerBackend.dfy`, `PollerGroup.dfy`, `ConsensusPoller.dfy` | the consensus poller |
| `ConsensusTracker.dfy`, `TrackerLeaders.dfy`, `TrackerViews.dfy` | the shared tracker, its leader flags, and what the nodes see of each other |
| `Rewriter.dfy`, `BatchForward.dfy`, `BatchRPC.dfy` | the batch path |
| `Wire.dfy`, `Preimage.dfy`, `PreimageChannels.dfy` | the byte channels |

## Model

| member | source | states |
|---|---|---|
| `ManagerRuns.NoBlockIsLost` | bl-batcher/batcher/channel_manager.go:76-129 | on every run, while the manager is not closed, every block accepted since `Clear` is pending, in a queued channel, or in a channel that left the queue fully submitted and in time |
| `ManagerRuns.NothingIsInvented` | bl-batcher/batcher/channel_manager.go:228-274 | on every run only accepted blocks are pending or in channels since `Clear` |
| `ManagerRuns.ConfirmEffect` | bl-batcher/batcher/channel_manager.go:95-104 | a confirmation changes one channel, and puts that channel's blocks in front of the pending ones exactly when it has timed out |
| `ManagerRuns.TxDataMoves` | bl-batcher/batcher/channel_manager.go:147-191 | a request moves a prefix of the pending blocks to the newest channel (or only copies it, when a broken block cuts it short), or leaves all blocks where they are |
| `ManagerOrder.ExactlyOnceInOrder` | bl-batcher/batcher/channel_manager.go:95-104 | on runs of orderly calls, the blocks of the channels that have not timed out followed by the pending ones are exactly the accepted blocks, each once and in order, at every moment |
| `ManagerOrder.InOrderIffOrderly` | bl-batcher/batcher/channel_manager.go:228-274 | between distinct blocks the order is kept throughout a run if and only if every call was orderly: no timeout beside a later channel with blocks, no second confirmation of a timed-out channel, no broken block behind good ones |
| `ManagerOrder.ConfirmKeepsOrderIff` | bl-batcher/batcher/channel.go:66-94 | exactly when one confirmation keeps the order |
| `ManagerExample.OrderCanBeLost` | bl-batcher/batcher/channel_manager.go:95-104 | a run of seven calls after which two distinct blocks stand in the wrong order: an older channel times out beside a newer one |
| `ManagerFrames.FramesAreConserved` | bl-batcher/batcher/channel.go:47-80 | on every run, the frames a channel ever put out are split without overlap into waiting, in flight and confirmed ones, with their bytes, and the three sizes sum up to the frame counter |
| `ManagerFrames.NeverHandedOutTwice` | bl-batcher/batcher/channel.go:130-140 | on every run a transaction handed out is in flight and confirmed nowhere, and carries the frame its channel produced under that number |
| `ManagerFrames.RetiredChannels` | bl-batcher/batcher/channel.go:75-120 | on every run without closing, a channel that left the queue has timed out, or is closed and drained with every frame confirmed and all inclusion blocks less than the timeout apart |
| `ManagerFrames.TimedOutForGood` | bl-batcher/batcher/channel.go:99-115 | no call makes a timed-out channel valid again |
| `ManagerFrames.RetiredForGood` | bl-batcher/batcher/channel_manager.go:113-129 | no call changes a channel that left the queue fully submitted |
| `ManagerOutcomes.ServesFirst` | bl-batcher/batcher/channel_manager.go:147-164 | a request hands out the frame that has waited longest in the oldest queued channel with a frame waiting, and changes nothing else |
| `ManagerOutcomes.FramesInOrder` | bl-batcher/batcher/channel.go:130-140 | on every run without failures the n-th frame a channel hands out is its frame number n |
| `ManagerOutcomes.FailureEffect` | bl-batcher/batcher/channel.go:47-60 | the frame of a failed transaction waits again, behind the others of its channel, with nothing else changed but the queue |
| `ManagerOutcomes.FailureQueue` | bl-batcher/batcher/channel_manager.go:76-89 | a failure takes a channel out of the queue if and only if the manager is closed and the failed transaction was all the channel had in flight or confirmed |
| `ManagerOutcomes.NeverSentAgain` | bl-batcher/batcher/channel_manager.go:113-129 | on every run, nothing of a channel that left the queue is ever handed out again, whatever is called |
| `ManagerOutcomes.FailedAfterClose` | bl-batcher/batcher/channel_manager.go:80-85 | so after closing, once the only transaction of a channel without confirmations fails, none of its frames is ever sent again |
| `ManagerOutcomes.ConfirmationOutcome` | bl-batcher/batcher/channel.go:66-120 | a channel's blocks come back if and only if with this confirmation two lie the timeout or more apart; it leaves the queue if and only if that is so or it is closed with nothing waiting and nothing else in flight |
| `ManagerOutcomes.CloseOutcome` | bl-batcher/batcher/channel_manager.go:341-364 | closing drops no channel with a transaction in flight or confirmed, and no block |
| `ManagerOutcomes.CloseStops` | bl-batcher/batcher/channel_manager.go:358-364 | every channel still queued after closing takes no more blocks, and an open one has put out all its frames with the closing one |
| `ManagerOutcomes.CloseFailsIff` | bl-batcher/batcher/channel_manager.go:341-364 | closing reports an error if and only if the current channel has submitted something and was closed before, being full |
| `ManagerOutcomes.FillOutputs` | bl-batcher/batcher/channel_builder.go:334-371 | a request that fills a channel puts out the ready frames, or all that are left with the closing one if the channel is full by then |
| `Channels.FramesAddUp` | bl-batcher/batcher/channel_builder.go:376-402 | disjointness and coverage of the three parts give the sum of their sizes |
| `Channels.RetiredIsComplete` | bl-batcher/batcher/channel.go:117-120 | full, drained and nothing in flight means that every frame number below the counter is confirmed |
| `Channels.TimedOutIsPermanent` | bl-batcher/batcher/channel.go:75-85 | a further confirmation keeps a timed-out channel timed out |
| `ManagerPublish.PublishLoopEndsIff` | bl-batcher/batcher/driver.go:281-311 | for pending blocks that convert into batches and that either fit into every fresh channel or are turned down by every channel, as by size, the publish loop ends with io.EOF if and only if the manager is closed or no pending block is of the second kind, whatever the L1 heads |
| `ManagerPublish.PublishLoopEnds` | bl-batcher/batcher/driver.go:281-311 | if the manager is closed or its pending blocks fit into fresh channels, repeated requests end; if closed, or with no broken block pending, they end with io.EOF and then nothing is left to send |
| `ManagerPublish.TxDataProgress` | bl-batcher/batcher/channel_manager.go:147-191 | if the manager is closed or its first pending block fits into a fresh channel, a request that hands out a transaction lowers, lexicographically, pending blocks, then whether the current channel is open, then waiting frames |
| `ManagerPublish.OversizedHandsOut` | bl-batcher/batcher/channel_manager.go:193-251 | while a block that no channel takes is pending, wherever it stands, and none is broken, an open manager always hands out another transaction and keeps the block pending |
| `ManagerPublish.FailureIsBroken` | bl-batcher/batcher/channel_manager.go:236-241 | a request fails only over a broken block, which stays pending |
| `ManagerPublish.EOFMeansDrained` | bl-batcher/batcher/channel_manager.go:132-140 | io.EOF is answered only when no queued channel has a frame and, unless closed, no block is pending |
| `ManagerPublish.ClosedTxData` | bl-batcher/batcher/channel_manager.go:162-164 | after `Close` no channel is created and no block moves; each request takes one waiting frame or there was none |
| `ManagerPublish.EndlessWhenRejected` | bl-batcher/batcher/channel_manager.go:196-214 | a block that only fresh channels turn down does the same from the front of the queue when no channel is open: any number of requests in a row hands out transactions |
| `ManagerPublish.StuckIsReached` | bl-batcher/batcher/channel_manager.go:313-325 | such a state is one accepted block away from the start |
| `ManagerRuns.Run` | bl-batcher/batcher/channel_manager.go:27-48 | in every reachable state the queue has no duplicates, the current channel is nil or its newest and last element, all other queued channels are closed, and `txChannels` maps exactly the ids in flight since `Clear` to their channels |
| `ManagerRuns.StepInv` | bl-batcher/batcher/channel_manager.go:60-364 | every public call keeps that structure |
| `ManagerSpec.TxConfirmedInv` | bl-batcher/batcher/channel_manager.go:95-129 | a confirmation keeps the structure and takes a channel from the queue exactly when it is then settled |
| `ManagerSpec.TxFailedInv` | bl-batcher/batcher/channel_manager.go:76-89 | a failure keeps the structure |
| `ManagerSpec.TxDataInv` | bl-batcher/batcher/channel_manager.go:147-274 | a request keeps the structure |
| `ManagerSpec.CloseInv` | bl-batcher/batcher/channel_manager.go:341-364 | closing keeps the structure |
| `ChannelManagers.PendingOwn` | bl-batcher/batcher/channel_builder.go:446-453 | a known transaction is pending in the channel it maps to and carries a frame of that channel, so neither the "unknown transaction" branch nor the panic of `PushFrame` is reached |
| `CloseSweep.SweepKeepsSurvivors` | bl-batcher/batcher/channel_manager.go:351-355 | the loop that removes from the array it ranges over leaves exactly the survivors, described without the array |
| `ManagerClose.CloseClearsIdleIff` | bl-batcher/batcher/channel_manager.go:341-355 | `Close` clears every channel without submitted transactions if and only if no two neighbours in the queue, the second not the last channel, have both submitted nothing |
| `ManagerClose.IdleSurvivesClose` | bl-batcher/batcher/channel_manager.go:341-355 | for every number of channels from three on there is a run (blocks sent one by one, whose transactions then all fail) after which all channels are idle and `Close` leaves one of them |
| `CloseSweep.AllIdleCleared` | bl-batcher/batcher/channel_manager.go:350-355 | the same of the queue that the loop leaves |
| `CloseSweep.SurvivorsKeepSubmitted` | bl-batcher/batcher/channel_manager.go:351-355 | no channel with submitted transactions is removed and the order is kept |
| `CloseSweep.IdleChannelSurvives` | bl-batcher/batcher/channel_manager.go:351-355 | with three idle channels the middle one survives |
| `ChannelManagers.ChannelManager.AddL2Block` | bl-batcher/batcher/channel_manager.go:313-325 | the object accepts or refuses a block as specified |
| `ChannelManagers.ChannelManager.TxData` | bl-batcher/batcher/channel_manager.go:147-191 | the object's request has the specified result and new state |
| `ChannelManagers.ChannelManager.TxFailed` | bl-batcher/batcher/channel_manager.go:76-89 | the object's failure handling has the specified new state |
| `ChannelManagers.ChannelManager.TxConfirmed` | bl-batcher/batcher/channel_manager.go:95-110 | the object's confirmation handling has the specified new state |
| `ChannelManagers.ChannelManager.RemovePendingChannel` | bl-batcher/batcher/channel_manager.go:113-129 | the channel leaves the queue, the rest keeps its order |
| `ChannelManagers.ChannelManager.FeedBlocks` | bl-batcher/batcher/channel_manager.go:228-251 | the loop feeds blocks until they run out, the channel is full or a block is broken |
| `ChannelManagers.ChannelManager.SweepLoop` | bl-batcher/batcher/channel_manager.go:351-355 | the loop of `Close` over the shifted backing array |
| `ChannelManagers.ChannelManager.Close` | bl-batcher/batcher/channel_manager.go:341-364 | the object's closing has the specified result and new state |
| `ChannelManagers.ChannelManager.Clear` | bl-batcher/batcher/channel_manager.go:62-72 | everything but the channels ever created is forgotten |
| `Channels.Channel.IsTimedOut` | bl-batcher/batcher/channel.go:99-115 | the min/max loop decides whether two confirmations lie at least the timeout apart |
| `Channels.Channel.TxConfirmed` | bl-batcher/batcher/channel.go:66-94 | the object's confirmation: new state, done flag and returned blocks |
| `Channels.Channel.TxFailed` | bl-batcher/batcher/channel.go:47-60 | the frame of a failed transaction waits again |
| `ChannelBuilders.DeadlineIsFirstLeast` | bl-batcher/batcher/channel_builder.go:237-282 | with positive deadlines the builder holds, on every run, the least deadline brought so far and the reason of the first event that brought it |
| `ManagerDeadlines.EventsBuild` | bl-batcher/batcher/channel_manager.go:60-364 | on every run of the manager the builder of every channel is where the events lead that the calls of the run bring to it |
| `ManagerDeadlines.ChannelDeadlines` | bl-batcher/batcher/channel_builder.go:220-282 | on every run the deadline of a channel is the zero-sentinel minimum of all deadlines the calls bring to it; with positive ones it is the least, for the reason of the first to attain it, and not after the one of any inclusion block or any of its blocks |
| `ManagerDeadlines.OpenAfterFilling` | bl-batcher/batcher/channel_manager.go:177-188 | a channel that a request fills and that is still open afterwards lies, with positive deadlines, strictly before every deadline brought to it, with the request's L1 head |
| `ManagerDeadlines.OpenInTime` | bl-batcher/batcher/channel_builder.go:231-282 | on every run, a channel filled at an L1 head and still open can be sent in time: the head plus the safety margin lies before the end of the sequencing window of each block and before the timeout from each confirmation, and the head before the maximal duration from every head the channel was filled at |
| `ChannelBuilders.TimeoutIsFold` | bl-batcher/batcher/channel_builder.go:277-282 | with any deadlines, wrapped or 0, it is the zero-sentinel minimum |
| `ChannelBuilders.OpenMeansBeforeEveryDeadline` | bl-batcher/batcher/channel_builder.go:286-296 | a channel still open right after an L1 block was registered lies strictly before every deadline brought |
| `ChannelBuilders.FullWhy` | bl-batcher/batcher/channel_builder.go:204-408 | a channel becomes full once: for the reason its output gives with a block, for its deadline's reason when an L1 block reaches it, or by being closed; a block is taken in exactly when it is not full and the output takes it |
| `SentinelMin.FoldExact` | bl-batcher/batcher/channel_builder.go:277-282 | the value of the zero-sentinel minimum for every list of offers: a 0 forgets what came before |
| `ChannelBuilders.ChannelBuilder.OutputFrames` | bl-batcher/batcher/channel_builder.go:334-371 | the two output loops append exactly the frames specified |
| `ChannelBuilders.ChannelBuilder.AddBlock` | bl-batcher/batcher/channel_builder.go:204-229 | the object's new state and result |
| `DriverSpec.OneBranchAtATime` | bl-batcher/batcher/channel_manager.go:313-325 | on every run of the driver the accepted blocks form a parent-hash chain that ends at the tip, and all pending blocks and all channels since `Clear` hold blocks of that chain only |
| `DriverSpec.ReorgStartsOver` | bl-batcher/batcher/driver.go:256-265 | after a non-extending block, whatever was published on the way, the manager is empty, open and without a tip, nothing counts as accepted and the last stored block is forgotten |
| `DriverSpec.ReorgIffRefused` | bl-batcher/batcher/driver.go:149-171 | loading reports a reorg if and only if some block of the range was fetched and refused after all before it were fetched and accepted |
| `DriverSpec.LoadedTip` | bl-batcher/batcher/driver.go:171-172 | after a successful load the driver remembers the last block of the range and the manager waits for its child |
| `DriverSpec.LoadedIffAccepted` | bl-batcher/batcher/driver.go:161-173 | loading succeeds if and only if every block of the range was fetched and accepted |
| `DriverSpec.LoadingIsAccepting` | bl-batcher/batcher/driver.go:185-200 | loading is a sequence of `AddL2Block` calls, so the theorems about runs apply to the driver |
| `DriverSpec.RangeStart` | bl-batcher/batcher/driver.go:203-231 | the range starts at the last stored block, or at the safe head when there is none or it lags behind |
| `DriverLoading.TickLoads` | bl-batcher/batcher/driver.go:149-183 | a tick fetches the blocks from the one after the last stored one (or the safe head) one number after the other; the manager took in the first k in order, and these are all up to the unsafe head, or the next could not be fetched, or it does not follow |
| `DriverLoading.LoadedRange` | bl-batcher/batcher/driver.go:158-173 | after a successful tick exactly the blocks after that one up to the unsafe head were handed over and are pending, none left out and none twice |
| `DriverLoading.LoadedIffFollow` | bl-batcher/batcher/driver.go:149-183 | a tick succeeds if and only if there is work and all blocks of the range can be fetched and follow each other and the tip, so such a range is never taken for a reorg |
| `DriverLoading.OnlyReorgsClose` | bl-batcher/batcher/driver.go:254-267 | a tick that meets no reorg only hands over blocks and publishes: it closes and clears nothing |
| `DriverLoading.ShutdownDrains` | bl-batcher/batcher/driver.go:270-276 | after a shutdown no pending block gets into a channel any more |
| `DriverLoading.ReorgDrains` | bl-batcher/batcher/driver.go:256-265 | nor does one on a reorg, from the closing to the clearing |
| `BatchSubmitters.BatchSubmitter.Tick` | bl-batcher/batcher/driver.go:254-267 | one tick of the object makes exactly the calls of the manager that the specification says, reorg path included, and runs the publish loop to its end, draining it on a reorg |
| `BatchSubmitters.AcceptedCanEnd` | bl-batcher/batcher/driver.go:281-311 | what the publish loop needs holds whenever all accepted blocks fit into fresh channels |
| `BatchSubmitters.BatchSubmitter.Shutdown` | bl-batcher/batcher/driver.go:270-276 | shutting down closes the manager, runs the publish loop to its end and drains it |
| `BatchSubmitters.BatchSubmitter.PublishStateToL1` | bl-batcher/batcher/driver.go:281-311 | from a closed manager or one whose blocks fit, the loop ends although receipts come in between, for a stated reason: nothing left to send, an unknown L1 head, or a broken pending block; the receipts are handled in order, and when draining those left over are handled after the last request |
| `BatchSubmitters.BatchSubmitter.LoadRange` | bl-batcher/batcher/driver.go:149-173 | the loading loop has the specified result, new state and calls |
| `BatchSubmitters.BatchSubmitter.CalculateL2BlockRangeToStore` | bl-batcher/batcher/driver.go:203-231 | the range and the last stored block |
| `BatchSubmitters.EventIsStep` | bl-batcher/batcher/driver.go:244-278 | what the object does on an event is a step of the driver's specification |
| `PollerBackend.TagsOrderedIff` | proxyd/consensus_poller.go:322-355 | finalized <= safe <= latest holds of a backend on every run if and only if it is not a forced candidate |
| `PollerBackend.TagsGrowBetweenBans` | proxyd/consensus_poller.go:343-355 | safe and finalized never decrease between bans |
| `PollerBackend.BanForgets` | proxyd/consensus_poller.go:492-506 | every ban, also one an update leads to, leaves no tag standing and lasts the ban period |
| `PollerBackend.BanHoldsIff` | proxyd/consensus_poller.go:641-655 | on every run a banned backend that nobody unbans is no candidate before an accepted update, if and only if the ban period exceeds the update threshold |
| `PollerBackend.ReportOutcome` | proxyd/consensus_poller.go:290-355 | a complete report is taken over block by block if its blocks are in order and neither safe nor finalized went back, or the backend is forced; otherwise it bans the backend |
| `PollerBackend.FailedFetches` | proxyd/consensus_poller.go:266-304 | what could not be fetched counts as block 0, no peers, or not in sync |
| `PollerBackend.NotAsked` | proxyd/consensus_poller.go:254-271 | a banned backend is not updated, an unhealthy one is banned unless forced |
| `PollerBackend.CandidateAfterReport` | proxyd/consensus_poller.go:635-658 | after an accepted report a backend is a candidate exactly while it is healthy and the report is fresh, if it reported to be in sync with peers enough |
| `PollerBackend.BansAndCandidates` | proxyd/consensus_poller.go:492-520 | a forced backend is never banned and always a candidate, a banned one never before the ban ends, and unbanning ends it |
| `PollerGroup.CandidatesIff` | proxyd/consensus_poller.go:632-683 | the candidates are the backends fit for it whose latest block is within the lag of that of every other one |
| `PollerGroup.HashOfFirstLowest` | proxyd/consensus_poller.go:372-377 | the hash kept is that of the first candidate met with the lowest block |
| `PollerGroup.GroupMinimum` | proxyd/consensus_poller.go:660-682 | when the highest latest block exceeds the tolerated lag, the fold yields the true minimum of the remaining candidates with a matching hash, positive and within the lag, in whatever order they are met |
| `PollerGroup.MinimumExactIff` | proxyd/consensus_poller.go:372-383 | every order yields the true minimum of a tag if and only if it is nowhere 0 or everywhere 0 |
| `PollerGroup.MinimaInOrderIff` | proxyd/consensus_poller.go:372-383 | for candidates with two tags in order, the two minima come out in order under every order if and only if no candidate has only the lower tag 0 while a positive higher tag lies below a lower one |
| `PollerGroup.WalkIsOptimal` | proxyd/consensus_poller.go:397-433 | the walk ends at the greatest block not above its start that all responding candidates report with one hash, at the start the cached one, if there is any |
| `PollerGroup.WalkEndsIff` | proxyd/consensus_poller.go:398-432 | the walk ends if and only if the responding candidates agree on some block number at all |
| `PollerGroup.WalkWraps` | proxyd/consensus_poller.go:428 | without agreement at or below the start the number wraps below 0, and the walk ends at the greatest agreed number above |
| `PollerGroup.BrokenIff` | proxyd/consensus_poller.go:409-419 | for answers with the number asked, consensus was broken on the way if and only if the walk ends below both its start and the previous consensus block |
| `ConsensusPollers.ConsensusPoller.UpdateBackend` | proxyd/consensus_poller.go:254-341 | the object's update has the specified new state |
| `ConsensusPollers.ConsensusPoller.Ban` | proxyd/consensus_poller.go:492-506 | the object's ban has the specified new state |
| `ConsensusPollers.ConsensusPoller.GetConsensusCandidates` | proxyd/consensus_poller.go:632-683 | the three loops yield the specified candidates, in whatever order maps are ranged over |
| `ConsensusPollers.ConsensusPoller.LowestOf` | proxyd/consensus_poller.go:368-383 | the loop over the candidates computes the three folds and the hash, along the order in which it met them |
| `ConsensusPollers.ConsensusPoller.Round` | proxyd/consensus_poller.go:399-423 | a round succeeds if and only if all responding candidates report the number with one hash, in whatever order they are asked |
| `ConsensusPollers.ConsensusPoller.Walk` | proxyd/consensus_poller.go:396-433 | the loop ends in the first round that agrees, and flags broken consensus exactly when a failed round tried a number not above the previous consensus block |
| `ConsensusPollers.ConsensusPoller.UpdateBackendGroupConsensus` | proxyd/consensus_poller.go:358-467 | the group step stores the folded safe and finalized blocks, the block the walk ends at and the group in backend order, and tells the listeners exactly when consensus was broken |
| `ConsensusPollers.GroupMinima` | proxyd/consensus_poller.go:372-383 | when no candidate reports 0, the safe and finalized blocks stored are the lowest any of them reports, in order if all reports are |
| `ConsensusPollers.GroupLatest` | proxyd/consensus_poller.go:385-442 | the latest block stored is one that all responding candidates report with one hash, and not above any candidate's latest, unless they agree on none there |
| `ConsensusTracker.OneWriterPerEpoch` | proxyd/consensus_tracker.go:272-283 | under every interleaving, loss and expiry: each `state:<v>` holds a triple posted under `v`, only the node that acquired `v` posts under it, and no two nodes hold one lock value |
| `ConsensusTracker.FollowersReadTheHolder` | proxyd/consensus_tracker.go:223-248 | a follower's remote triple was posted by the node that acquired the lock value it read |
| `ConsensusTracker.TakeoverNotBehind` | proxyd/consensus_tracker.go:255-283 | a takeover that posts the triple it checked posts a valid one that is not behind the remote view it was checked against, if that is valid; `CheckedIsPosted` says when it does |
| `ConsensusTracker.ViewAtTakeover` | proxyd/consensus_tracker.go:260-283 | that view is still the node's when it posts |
| `ConsensusTracker.EpochsNeverGoBack` | proxyd/consensus_tracker.go:189-285 | a node's view never goes back to an earlier lock value |
| `ConsensusTracker.RunInv` | proxyd/consensus_tracker.go:189-285 | the invariant behind these, among it that a leader has a lock object to extend or release |
| `ConsensusTracker.TwoLeadersPossible` | proxyd/consensus_tracker.go:208-220 | two leader flags may be up at once when a lock expires |
| `TrackerLeaders.OneLeaderStepIff` | proxyd/consensus_tracker.go:274-282 | from at most one leader flag a step leads to at most one, if and only if it is not a lock taken while another node's flag is up |
| `TrackerLeaders.OneLeaderIff` | proxyd/consensus_tracker.go:189-285 | on every run there never were two leader flags if and only if no step was such a takeover |
| `TrackerLeaders.LeadersHoldIff` | proxyd/consensus_tracker.go:197-219 | on every run all leaders held the lock at every moment if and only if no leader's lock expired and no effective release went unanswered |
| `TrackerLeaders.NoLossOneLeader` | proxyd/consensus_tracker.go:189-285 | without such a loss there is at most one leader flag |
| `TrackerLeaders.LossLetsSecondIn` | proxyd/consensus_tracker.go:255-283 | after any such loss some continuation, without a further expiry, has two leader flags up |
| `ConsensusTracker.OneCanExtend` | proxyd/consensus_tracker.go:208-221 | still only one node can extend the lock |
| `TrackerViews.ViewsWereLocal` | proxyd/consensus_tracker.go:315-335 | under every interleaving, loss and expiry: what is posted was a local triple of its author, and what a node sees is nothing, its own local triple at some moment, or a local triple of the node that acquired the lock value it read |
| `TrackerViews.CheckedIsPosted` | proxyd/consensus_tracker.go:255-335 | what a node posts after the start of a heartbeat is its local triple then, as long as that is not set anew; a takeover so posts a triple without zeros, none of whose blocks is below a complete one it saw |
| `TrackerViews.UncheckedIsPosted` | proxyd/consensus_tracker.go:255-321 | a triple set after the check is posted unchecked: a run that posts an incomplete one |
| `TrackerViews.PostMayLeadIff` | proxyd/consensus_tracker.go:255-321 | a takeover posts a triple that may lead if and only if the local triple may when the post is composed, with the view the node then has |
| `TrackerViews.Takeover` | proxyd/consensus_tracker.go:255-335 | an answered heartbeat that finds the lock free, of a node that may lead, makes it the leader; its local triple is posted under a new lock value and is what it sees |
| `TrackerViews.NoTakeover` | proxyd/consensus_tracker.go:255-263 | one that may not lead leaves the lock alone |
| `TrackerViews.Extending` | proxyd/consensus_tracker.go:206-221 | an answered heartbeat of a leader with the lock posts its local triple under it |
| `TrackerViews.StepsDown` | proxyd/consensus_tracker.go:193-220 | a leader that cannot read the lock or does not hear that it extended it frees the lock and gives the flag up |
| `TrackerViews.LosesRace` | proxyd/consensus_tracker.go:274-278 | a node that does not get the lock, or does not learn of it, does not lead |
| `TrackerViews.Following` | proxyd/consensus_tracker.go:222-248 | an answered heartbeat of another node reads the leader and the triple under the current lock value |
| `TrackerViews.ViewSpreads` | proxyd/consensus_tracker.go:189-335 | on every run, an answered heartbeat of the node with the lock (or that takes it) and then one of another node make that one see the local triple of the first |
| `Rewriter.RewriteTagsSound` | proxyd/rewriter.go:40-86 | with safe, finalized <= latest < 2^63 a request that `RewriteTags` lets through names no number above latest and no moving tag, and `RewriteTags` leaves it alone the next time |
| `Rewriter.ForwardedIsSound` | proxyd/rewriter.go:63-147 | the same soundness for every way a method names a block |
| `Rewriter.RewriteIdempotent` | proxyd/rewriter.go:63-200 | rewriting what was forwarded changes nothing and is answered with RewriteNone |
| `Rewriter.RewriteTagsMeans` | proxyd/rewriter.go:40-200 | a request let through means to any node, wherever its own tags stand, the blocks that it meant to the group, and is otherwise unchanged |
| `Rewriter.RewriteTagsDecides` | proxyd/rewriter.go:40-200 | what becomes of a request follows from what its block parameters mean: refused for the stated reason (unreadable, beyond the latest block, range too large), answered, or let through |
| `Rewriter.LatestReplaced` | proxyd/rewriter.go:63-86 | method by method, which parameter "latest" gives way in, and which may be missing |
| `Rewriter.BoundsReplaced` | proxyd/rewriter.go:65-68 | the same for filters |
| `Rewriter.OthersUntouched` | proxyd/rewriter.go:63-86 | all other methods, and filters without bounds, are let through as they are |
| `Rewriter.ParamKeepsMeaning` | proxyd/rewriter.go:88-147 | a rewritten parameter means to any node the block it meant to the group, and the other parameters are untouched |
| `Rewriter.FilterKeepsMeaning` | proxyd/rewriter.go:149-200 | both bounds of a rewritten filter mean to any node the blocks they meant to the group, and its other fields are untouched |
| `Rewriter.RangeCheckSoundIff` | proxyd/rewriter.go:175-187 | only ranges with from <= to and to - from within the limit pass the uint64 check, if and only if the limit is below 2^64 - (latest + 1) |
| `Rewriter.InRangeAccepted` | proxyd/rewriter.go:175-200 | every range within the limit passes, unless a bound is refused for itself |
| `RPCRequests.RPCReq.RewriteTags` | proxyd/rewriter.go:40-86 | the object's parameters are rewritten in place as specified |
| `RPCRequests.RPCReq.RewriteParam` | proxyd/rewriter.go:88-147 | the same for one parameter |
| `RPCRequests.RPCReq.RewriteRange` | proxyd/rewriter.go:149-200 | the same for a filter, up to the index out of range on an empty list |
| `RPCRequests.RewriteTagMap` | proxyd/rewriter.go:217-237 | one bound of a filter |
| `BatchForward.SortBatchRPCResponse` | proxyd/backend.go:688-703 | the in-place sort permutes the reply into the order of the requests, unknown ids beside the first, and when it carries the forwarded ids puts each response where its request is |
| `BatchForward.SortedIsAligned` | proxyd/backend.go:698-702 | sorted by position and carrying the right ids means aligned |
| `BatchForward.SpliceIsMerge` | proxyd/backend.go:814-822 | inserting the overridden responses one by one yields the responses in the order of the requests |
| `BatchForward.TreatMeans` | proxyd/backend.go:722-764 | a request is answered here exactly when it asks for the block number or is refused for what its parameters mean, with that answer; else a backend is asked the same method with the same id about the same blocks |
| `BatchForward.SendsRendered` | proxyd/backend.go:737-763 | the batch a backend is asked renders the requests not answered here, one by one and in order |
| `BatchForward.ServedMeans` | proxyd/backend.go:712-829 | so every response is the group's own answer, or a backend's to the same request about the same blocks |
| `BatchForward.ChooseFails` | proxyd/backend.go:768-828 | the first backend in order that replies to the whole batch serves it; the search ends before at the first of four errors, and goes on after any other |
| `BatchForward.ServedAt` | proxyd/backend.go:712-829 | response i of a forwarded batch was made up for request i, or is in the backend's reply and has its id |
| `BatchForward.BackendForward` | proxyd/backend.go:596-651 | a reply of the wrong length is refused, any other one sorted |
| `BatchForward.Forward` | proxyd/backend.go:712-829 | the first backend without trouble serves the batch, a fatal error ends the search; every response answers what its request means to the group, or is the error the search ended with; the batch crashes exactly on a filter request without a filter |
| `BatchRPC.HandleBatchRPC` | proxyd/server.go:414-577 | unless the server stops for a stated cause, every slot holds the right response to the request at its place; the forwarded batches stay within `maxUpstreamBatchSize`, have no duplicate ids and cover the requests that have to be forwarded exactly once; and each slot of these holds the answer that its own batch got: to the same request, about the blocks it means to the group; no batch is forwarded after the deadline, and the cached flag says whether a queued request was answered from the cache |
| `BatchRPC.RightID` | proxyd/server.go:430-498 | when backends answer with the ids asked for, the response in the slot of a valid request carries its id |
| `BatchRPC.QueuedIff` | proxyd/server.go:426-490 | exactly the valid requests for a method with a group, within their limits, are queued, for that group |
| `BatchRPC.ToldWhy` | proxyd/server.go:427-488 | what each of the others is answered |
| `BatchRPC.ValidIDs` | proxyd/rpc.go:76-85 | which ids are valid |
| `BatchRPC.StoppedMeans` | proxyd/server.go:536-546 | a batch stops the server if and only if a request in it crashes it, or the backend search ends with one of two errors |
| `BatchRPC.BatchDistinct` | proxyd/server.go:492-497 | no batch has an id twice, so the panic of the sort is not reached |
| `BatchRPC.InBatch` | proxyd/server.go:492-497 | a batch consists of exactly the queued requests with its key |
| `BatchRPC.ForwardMisses` | proxyd/server.go:515-565 | minibatches within the size limit put together are the cache misses in their order, and each element's slot holds its answer as part of its minibatch |
| `BatchRPC.Queue` | proxyd/server.go:426-498 | the first loop answers at once what it can and sorts the rest into batches |
| `Preimage.OracleRoundTrip` | bl-preimage/oracle.go:22-74 | for every list of keys and every interleaving of byte transfers: each `Get` gets exactly the served value, empty ones included, nobody gets stuck, and both streams are empty at the end |
| `Preimage.HintsDelivered` | bl-preimage/hints.go:21-71 | under every interleaving of byte transfers, hints shorter than 2^32 bytes arrive as they were sent and in order, get one acknowledgement each, nobody gets stuck, and both streams are empty at the end |
| `Preimage.HintIntactIff` | bl-preimage/hints.go:21-25 | a hint is delivered as it is if and only if it is shorter than 2^32 bytes |
| `Wire.SessionSafe` | bl-preimage/oracle.go:22-74 | in any request-reply session over two streams with self-delimiting messages, whatever the schedule, the server receives the requests as sent and in order and the client the replies to them |
| `Wire.SessionLive` | bl-preimage/oracle.go:22-74 | no schedule of such a session deadlocks |
| `Wire.SessionEnds` | bl-preimage/oracle.go:22-74 | no schedule makes more than a fixed number of effective moves |
| `Wire.FrameDelimits` | bl-preimage/oracle.go:62-73 | no proper prefix of a length-prefixed message is one |
| `Wire.MostSignificantFirst` | bl-preimage/oracle.go:62-73 | lengths are read with the first byte counting most |
| `PreimageChannels.OracleServer.NextPreimageRequest` | bl-preimage/oracle.go:51-74 | the server's result and both streams afterwards, for complete, short and missing requests and refused keys |
| `PreimageChannels.OracleClient.Receive` | bl-preimage/oracle.go:28-36 | the client takes exactly one value off the stream, and fails exactly when no whole one is there |
| `PreimageChannels.ValueRead` | bl-preimage/oracle.go:28-73 | a value is read back as it was written, whatever follows it |
| `PreimageChannels.GetAll` | bl-preimage/oracle.go:22-74 | client and server taking turns: all values in order until a key is refused, and empty streams |
| `PreimageChannels.HintReader.NextHint` | bl-preimage/hints.go:48-71 | one hint is passed on and acknowledged with one byte, also when the handler fails |
| `PreimageChannels.SendAll` | bl-preimage/hints.go:21-71 | the reader sees exactly the hints written if and only if all are shorter than 2^32 bytes |

## Left out

- Batch building, compression and RLP: `derive.ChannelOut` is a function that accepts a block, reports full or finds it broken, and says how many frames are ready; it never fails otherwise, and the cap of 65535 frames per channel (`ErrMaxFrameIndex`) is not modelled.
- Random channel ids: channels are numbered in the order of their creation, so collisions of random ids are not modelled.
- Slice aliasing in the manager: `TxConfirmed` appends to the block list of a timed-out channel and may share its backing array; the model copies. The backing array of `channelQueue` is modelled, because `Close` depends on it.
- Sending a transaction: what `TxData` hands out goes to the transaction queue, whose outcomes come back as failures and confirmations, in any order.
- `channelBuilder.Reset`, the checks of the configuration, and failures of creating a channel.
- Goroutines inside one batcher call: every call under the manager's mutex is one step. L1 heads, sync status and fetched blocks are inputs of the driver; a range up to the last uint64 is not modelled.
- `BatchSubmitters.BatchSubmitter.PublishStateToL1`: requires a closed manager, or blocks that fit into fresh channels, because otherwise the source's loop does not end (see `PublishLoopEndsIff`); so does `BatchSubmitters.BatchSubmitter.Tick`, of the state after loading, unless it meets a reorg.
- `ConsensusPollers.ConsensusPoller.UpdateBackendGroupConsensus`: requires that the candidates agree somewhere if one of them knows a block, because otherwise the source's loop does not end (see `WalkEndsIff`); answers are stable during the call and their hashes are not empty.
- Health, latency, retries, backoff and weighted shuffling of backends: arbitrary answers in a given order. One update of a backend reads the clock once, and so does one search for candidates.
- The tracker is modelled on values, as steps of several nodes over one store, because its properties are about interleavings; reading a local triple is one step, posting it another. Several Redis nodes and the drift computations of the lock library are not modelled.
- Requests in the batch path are values: that the cache stores a response under a request rewritten in place is not modelled, nor is the cache beyond one answer per request, nor the `consensus_getReceipts` translation, nor the HTTP status in error responses.
- JSON: parameters are already decoded; numbers are uint64 quantities; object keys match exactly.
- Metrics, logging, flags, websocket proxying, rate limiter internals, `FilePoller`, contract bindings and the other services.
