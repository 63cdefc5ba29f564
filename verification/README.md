# Verified models of the device agent and of Linux 2.6.30 block and crypto code

The repository holds a satellite data agent (`device-agent/`) and a Linux 2.6.30 tree. This project
models the parts whose guarantees reach over many calls, in Dafny, and proves those guarantees.
`dafny verify dfyconfig.toml` checks everything.

- **Camellia** (`Camellia*.dfy`): `camellia_setup_tail` moves the whitening keys through the FL layers and
  the round keys past the S-boxes. The arrays it leaves make the optimised rounds equal to the textbook
  cipher, by a simulation that carries a key offset through every round and layer. S-box contents are a
  parameter, and the algebra is over any word type that satisfies a few laws; `Camellia32.dfy` shows that
  32-bit words do, and `CamelliaRfc.dfy` that F and FL on them are those of RFC 3713.
- **Barriers** (`Barrier*.dfy`): the ordered sequence of `blk-barrier.c` together with submission, dispatch,
  requeueing and completion, as a state machine with a history, and the same operations on an object that keeps
  the invariants. The order, exactly-once and first-error properties hold for every run, and none gets stuck.
- **Segments** (`Segments.dfy`): `nr_phys_segments` with the front and back sizes always describes some
  valid grouping, and the scatterlist is a minimal one and addresses the request's bytes in order.
- **Merging** (`Merge*.dfy`): the merge hash and the merge arms; bios are conserved, lookup is exact, and it is
  shown when requests stay of one kind.
- **Completion** (`Completion.dfy`): partial completion in place, and when it is additive.
- **Schedulers** (`SortList.dfy`, `Ledger.dfy`, `Deadline*.dfy`, `ServiceTree.dfy`, `Cfq*.dfy`): the two indexes
  of the deadline scheduler and its exact starvation bounds, the leftmost cache, busy count and forced drain of CFQ,
  and the order of the arrival lists of both. `Runs.dfy` is induction over runs.
- **Tags and dispatch order** (`Tag*.dfy`, `Dispatch*.dfy`): the shared tag map over interleavings and resizes, and
  the elevator order of the dispatch list while `end_sector` moves.
- **Agent** (`Crc*.dfy`, `Frames.dfy`, `FrameCrc.dfy`, `PacketStore.dfy`, `Agent.dfy`, `Negotiation.dfy`): the CRC, framing, the saved queue, the reader and sender threads, and negotiation.
- **Ciphers and byte helpers** (`Feistel.dfy`, `Cast5Rfc.dfy`, `WordBytes.dfy`, `CryptoBytes.dfy`, `CryptoXor.dfy`).

An object that the source updates in place is a class; each of its methods is proved equal to a function on
the value of its fields, and the lemmas are about that function and about runs of it.

## What is assumed

- Critical sections are atomic steps, sectors and times are unbounded naturals, and tunables, limits and the
  configured ordering are fixed during a run. Rb-trees are sorted sequences, except the CFQ service tree,
  whose shape may be any at every step.
- Barriers: drain mode; no file-system request is inserted at the front; only file-system requests carry
  REQ_HARDBARRIER; a back insertion happens after the forced drain it asks for is complete; requests that
  are not file-system requests are not sorted.
- Merging: the hash function is arbitrary; the neighbours and front candidates a scheduler proposes, and the
  answers of the segment checks, are arbitrary inputs. Segments: every bio has data.
- Agent: the channel is a list of outcomes. An ACK shorter than six bytes does not match, and packets of one
  to eight bytes are not asked for a number. The packets the reader takes in are frames under 5000 bytes.

## Where a promise holds only under a condition

- Completion is additive if and only if only the first bio may be without data
  (`Completion.AdditiveExactlyWithData`); `bi_sector` is the same only when the partial sectors of the two
  parts do not add up to a whole one (`Completion.AdvancedAdds`). A request is done exactly when all its bytes
  are, for every byte count, if and only if its last bio has data or is the only one
  (`Completion.DoneMeansAllBytes`).
- A built frame is received whole if and only if no beginning of it passes for a frame
  (`Frames.FrameIsReceived`, `Frames.LongFrameIsReceived`), and such contents exist for every CRC
  (`Frames.ContentCanEndEarly`). After an exception the buffer is empty or a frame if and only if no SOH came or
  a frame was completed (`Frames.ThrownOkExactly`, `Frames.CutFrameIsTaken`).
- Growing a tag map keeps its entries if and only if twice the request limit covers the old depth
  (`TagQueue.EntriesSurviveExactly`, `TagQueue.CopyCanOverrun`), and over a run requests in flight stay releasable if
  and only if it is above the tags in use at every resize (`TagGrowth.StayReleasableExactly`,
  `TagGrowth.TagCanBeLost`).
- `attempt_merge` does not compare the discard kind of its two requests: requests stay of one kind if and only if
  every join taken is of equals (`MergeKinds.UniformExactly`, `MergeKinds.DiscardTakesRead`).
- `cfq_merged_requests` says it repositions the request in the arrival list; it never does, because
  `attempt_merge` has taken over the earlier start time before (`CfqArrivals.JoinsMoveNothing`). The list stays in
  the order of start times if and only if nothing between the two requests started later
  (`CfqArrivals.InTimeExactly`, `CfqLostOrder.OrderCanBeLost`).
- Reads wait for a bounded number of writes if and only if `writes_starved` is above 0
  (`DeadlineRuns.ReadsAreNotStarved`, `DeadlineReads.ReadsCanWait`).
- The dispatch list stays in elevator order if and only if no fetch, tail addition or barrier moves `end_sector`
  between two requests of one tail (`DispatchRuns.InOrderExactly`, `DispatchRuns.OrderCanBeLost`).
- A crash loses a queued packet if and only if the last save did not write it whole, nor its bytes as a packet that
  has left since (`Agent.CrashKeepsSaved`). A save truncates the file first: it keeps the whole queue if and only if
  the disk takes all of it (`Agent.SaveKeepsAllExactly`), and one cut short loses what an earlier save had
  (`Agent.ShortSaveLoses`).

## Model

| member | source | states |
|---|---|---|
| `Camellia.FastIsTextbook` | os/linux-2.6.30/crypto/camellia.c:887-940 | For every subkey table of 26 or 34 pairs, every block and any S-box contents, the optimised rounds on the rewritten table compute the textbook network of sections 2.3 and 2.4 of RFC 3713 |
| `Camellia.DecryptInvertsEncrypt` | os/linux-2.6.30/crypto/camellia.c:942-995 | Decryption undoes encryption for every key table, whether or not the setup wrote it |
| `Camellia.EncryptInvertsDecrypt` | os/linux-2.6.30/crypto/camellia.c:942-995 | Encryption undoes decryption, so both are permutations of the blocks |
| `Camellia.RoundIsF` | os/linux-2.6.30/crypto/camellia.c:871-885 | An optimised round with a key encoded through the inverse of the last half of P adds the textbook F value and that key |
| `Camellia.FLDifference` | os/linux-2.6.30/crypto/camellia.c:854-869 | A key offset carried into FL leaves as the offset the rewritten keys expect |
| `Camellia.FLInvDifference` | os/linux-2.6.30/crypto/camellia.c:854-869 | A key offset before FLINV leaves as that offset carried through the layer |
| `Camellia.ThroughXor` | os/linux-2.6.30/crypto/camellia.c:394-396 | Carrying a whitening key through a layer is linear in the key |
| `Camellia.RoundsKeepOffset` | os/linux-2.6.30/crypto/camellia.c:359-376 | Six optimised rounds keep the simulation with six F rounds, up to the key offset of the group |
| `Camellia.LayerKeepsOffset` | os/linux-2.6.30/crypto/camellia.c:854-869 | An FL/FLINV layer keeps the simulation between the groups |
| `Camellia.GroupsKeepOffset` | os/linux-2.6.30/crypto/camellia.c:887-940 | The simulation holds after every group of rounds of the main iteration |
| `CamelliaSetup.AbsorbKw2` | os/linux-2.6.30/crypto/camellia.c:387-429 | The in-place pass over the arrays equals the functional pass that carries kw2 through the FLINV keys into kw3 |
| `CamelliaSetup.AbsorbKw4` | os/linux-2.6.30/crypto/camellia.c:416-468 | The in-place pass equals the functional pass that carries kw4 back through the FL keys into kw1 |
| `CamelliaSetup.PassesAbsorb` | os/linux-2.6.30/crypto/camellia.c:387-468 | After both passes every round key holds exactly the whitening key as its group sees it |
| `CamelliaSetup.WriteKeys` | os/linux-2.6.30/crypto/camellia.c:470-558 | The key additions of all groups are moved to the end of the F-function, and the two end keys are right |
| `CamelliaSetup.UndoLastHalfOfP` | os/linux-2.6.30/crypto/camellia.c:561-577 | The loop encodes every round key once by the inverse of the last half of P and leaves the end keys |
| `CamelliaSetup.SetupTail` | os/linux-2.6.30/crypto/camellia.c:381-578 | camellia_setup_tail, run in place on any table, leaves the table for which the rounds are the textbook cipher |
| `CamelliaRounds.RoundInPlace` | os/linux-2.6.30/crypto/camellia.c:871-885 | One half of the block changes by a round, the other stays |
| `CamelliaRounds.FlsInPlace` | os/linux-2.6.30/crypto/camellia.c:854-869 | The interleaved updates of CAMELLIA_FLS are FL on one half and FLINV on the other |
| `CamelliaRounds.DoEncrypt` | os/linux-2.6.30/crypto/camellia.c:887-940 | The in-place rounds compute the functional optimised encryption |
| `CamelliaRounds.DoDecrypt` | os/linux-2.6.30/crypto/camellia.c:942-995 | The in-place rounds compute the functional optimised decryption |
| `Camellia32.KernelLaws` | os/linux-2.6.30/crypto/camellia.c:359-376 | 32-bit words with any S-box tables satisfy the laws the proofs use |
| `Camellia32.KernelIsTextbook` | os/linux-2.6.30/crypto/camellia.c:359-376 | On 32-bit words the kernel encrypts as the textbook cipher and its decryption takes the textbook ciphertext back |
| `Camellia32.Encrypt` | os/linux-2.6.30/crypto/camellia.c:1033-1055 | The four words out are the textbook encryption of the four words in |
| `Camellia32.Decrypt` | os/linux-2.6.30/crypto/camellia.c:1057-1079 | The four words out are the block whose textbook encryption is the four words in |
| `CamelliaRfc.FIsRfc` | os/linux-2.6.30/crypto/camellia.c:359-376 | With tables that hold an S-box value in the three bytes their names tell, CAMELLIA_F on any half and key gives, byte by byte, the S- and P-functions of section 2.4.1 of RFC 3713 |
| `CamelliaRfc.FLIsRfc` | os/linux-2.6.30/crypto/camellia.c:854-869 | The FL-function is that of section 2.4.2 of RFC 3713, with a rotation by one |
| `CamelliaRfc.FLInvIsRfc` | os/linux-2.6.30/crypto/camellia.c:854-869 | The inverse FL-function is that of section 2.4.3 of RFC 3713 |
| `CamelliaRfc.RotationsAre` | os/linux-2.6.30/crypto/camellia.c:861-867 | The shifts are rotations by one to the left, eight to the left and eight to the right |
| `BarrierOrder.SubmitSortKeeps` | os/linux-2.6.30/block/elevator.c:650-666 | A sorted submission keeps the queue invariant (list order by epoch and stage, colours, in-flight count, one proxy out) |
| `BarrierOrder.SubmitBarrierKeeps` | os/linux-2.6.30/block/elevator.c:713-748 | A barrier submitted after the forced drain closes its epoch and keeps the invariant |
| `BarrierOrder.DispatchKeeps` | os/linux-2.6.30/block/elevator.c:437-473 | Sorting a request into the list behind every request that may not be passed keeps the invariant |
| `BarrierOrder.DequeueKeeps` | os/linux-2.6.30/block/elevator.c:857-871 | Handing a started request to the driver keeps the invariant |
| `BarrierOrder.RequeuePositionSplits` | os/linux-2.6.30/block/elevator.c:687-695 | A requeued request goes in front of the first request whose stage is not below its own |
| `BarrierOrder.RequeueKeeps` | os/linux-2.6.30/block/elevator.c:559-574 | Requeueing any request of the driver, at any time, keeps the invariant |
| `BarrierOrder.ProxiesInOrder` | os/linux-2.6.30/block/blk-barrier.c:190-222 | The stages stacked for a barrier stand in the order pre-flush, bar, post-flush |
| `BarrierOrder.StartOrderedKeeps` | os/linux-2.6.30/block/blk-barrier.c:156-236 | Starting a sequence keeps the invariant, including the stages that are skipped |
| `BarrierOrder.PeekIdleKeeps` | os/linux-2.6.30/block/blk-barrier.c:238-261 | Fetching while no sequence runs keeps the invariant |
| `BarrierOrder.PeekBusyKeeps` | os/linux-2.6.30/block/blk-barrier.c:263-284 | Fetching during a sequence hands out only the stage whose turn it is |
| `BarrierOrder.AdvanceKeeps` | os/linux-2.6.30/block/blk-barrier.c:91-114 | Completing stages of the sequence keeps the invariant, also when it ends the sequence |
| `BarrierOrder.DrainFound` | os/linux-2.6.30/block/elevator.c:964-976 | When a completion finds nothing in flight and the head past the drain, the queue is drained |
| `BarrierOrder.CompleteKeeps` | os/linux-2.6.30/block/elevator.c:947-977 | Completing any request of the driver keeps the invariant |
| `BarrierHistory.StepKeeps` | os/linux-2.6.30/block/blk-barrier.c:55-284 | Every enabled step keeps the invariant of the fields and of the history |
| `BarrierHistory.RunKeeps` | os/linux-2.6.30/block/blk-barrier.c:55-284 | The invariant holds in every state of every run from an empty queue in drain mode |
| `BarrierHistory.NoStageTwice` | os/linux-2.6.30/block/blk-barrier.c:91-100 | Over every run no stage bit is set twice, so the BUG_ON is unreachable |
| `BarrierHistory.BarrierAfterEarlier` | os/linux-2.6.30/block/blk-barrier.c:156-236 | When any stage of a barrier is issued, every file-system request submitted before it is over; the bar is issued only after the pre-flush is done and the post-flush only after the bar |
| `BarrierHistory.LaterAfterBarrier` | os/linux-2.6.30/block/blk-barrier.c:263-284 | No file-system request submitted after a barrier is issued before the sequence of the barrier has ended |
| `BarrierHistory.BarrierEndsOnce` | os/linux-2.6.30/block/blk-barrier.c:102-114 | The barrier ends at most once, with the first error of its stages, after every earlier request is over and after its pre-flush if the mode has one and, with data, its bar and its post-flush if the mode has one; each stage completes at most once |
| `BarrierHistory.OnlyNeededStages` | os/linux-2.6.30/block/blk-barrier.c:156-222 | No other stage is issued: an empty barrier has no bar and no post-flush |
| `BarrierHistory.NothingIsLost` | os/linux-2.6.30/block/elevator.c:615-711 | Over every run a request that was submitted waits, is with the driver, is the barrier in progress, or is over |
| `BarrierHistory.InFlightIsCount` | os/linux-2.6.30/block/elevator.c:857-871 | Over every run in_flight is the number of file-system requests, discards and bars with the driver |
| `BarrierHistory.UnsupportedBarrierFails` | os/linux-2.6.30/block/blk-barrier.c:238-261 | Without an ordering mode a barrier ends at once with -EOPNOTSUPP and nothing is issued for it |
| `BarrierHistory.EffectiveExactly` | os/linux-2.6.30/block/blk-barrier.c:162-185 | Which flags are in force for a barrier with and without data, in every mode |
| `BarrierHistory.CompleteSeqExactly` | os/linux-2.6.30/block/blk-barrier.c:91-114 | Completing stages ends the sequence exactly when all are reached, and trips the BUG_ON exactly when one was reached before |
| `BarrierHistory.StartIsFetch` | os/linux-2.6.30/block/blk-barrier.c:218-235 | Starting a sequence hands out its first stage exactly if fetching again would |
| `BarrierHistory.FetchDecides` | os/linux-2.6.30/block/blk-barrier.c:238-284 | What is handed out while no sequence runs, of requests that are not the file system, and when the order is by tag |
| `BarrierHistory.FetchIssues` | os/linux-2.6.30/block/elevator.c:778-805 | A request that is handed out is marked as started and another is left alone |
| `BarrierHistory.StackedDequeues` | os/linux-2.6.30/block/blk-barrier.c:186-190 | The barrier leaves the list as a request that is dequeued does |
| `BarrierHistory.PassedExactly` | os/linux-2.6.30/block/elevator.c:451-460 | Which requests a dispatched one may pass |
| `BarrierProgress.StepMoves` | os/linux-2.6.30/block/blk-barrier.c:238-284 | Every step keeps something for the sequence in progress to wait for: a request of the driver or an early head while draining, and the proxy of every stage to come |
| `BarrierProgress.RunMoves` | os/linux-2.6.30/block/elevator.c:947-977 | That holds in every state of every run in drain mode |
| `BarrierProgress.NeverStuck` | os/linux-2.6.30/block/blk-barrier.c:263-284 | In every run, while a sequence is in progress and the driver has nothing, blk_do_ordered hands out the head of the list |
| `BarrierProgress.QuietMeansOver` | os/linux-2.6.30/block/blk-barrier.c:91-114 | In every run, once list, scheduler and driver are empty, no sequence is in progress and every file-system request submitted is over; with BarrierEndsOnce each barrier ends exactly once |
| `BarrierProgress.RunNoRepeat` | os/linux-2.6.30/block/elevator.c:713-748 | In every run different submissions are different requests, so that an event names one |
| `BarrierQueue.RequestQueue.constructor` | os/linux-2.6.30/block/blk-barrier.c:24-49 | In drain mode the queue begins with the invariants of order, history and progress |
| `BarrierQueue.RequestQueue.StackProxies` | os/linux-2.6.30/block/blk-barrier.c:190-222 | The stages in use are in front of the list, in order, and the others are reported as skipped |
| `BarrierQueue.RequestQueue.StartOrdered` | os/linux-2.6.30/block/blk-barrier.c:156-236 | State, return value and handed-out request are those of the specification function |
| `BarrierQueue.RequestQueue.DoOrdered` | os/linux-2.6.30/block/blk-barrier.c:238-284 | State, return value and handed-out request are those of the specification function |
| `BarrierQueue.RequestQueue.Turn` | os/linux-2.6.30/block/elevator.c:778-854 | One turn marks and logs the head exactly when it is handed out; the invariants of order, history and progress are kept |
| `BarrierQueue.RequestQueue.Fetch` | os/linux-2.6.30/block/elevator.c:762-776 | The loop over the head of the list ends in the specified state; the invariants of order, history and progress are kept |
| `BarrierQueue.RequestQueue.SubmitSort` | os/linux-2.6.30/block/elevator.c:650-666 | A request with a new number goes to the scheduler; the invariants of order, history and progress are kept |
| `BarrierQueue.RequestQueue.SubmitBack` | os/linux-2.6.30/block/elevator.c:713-748 | A request with a new number goes to the back after the forced drain, and a barrier opens a new epoch; the invariants of order, history and progress are kept |
| `BarrierQueue.RequestQueue.SubmitSpecial` | os/linux-2.6.30/block/elevator.c:615-648 | A request that is not a file-system request goes to the front or the back; the invariants of order, history and progress are kept |
| `BarrierQueue.RequestQueue.Dispatch` | os/linux-2.6.30/block/elevator.c:437-473 | A request of the scheduler goes behind every request that may not be passed; the invariants of order, history and progress are kept |
| `BarrierQueue.RequestQueue.Dequeue` | os/linux-2.6.30/block/elevator.c:857-871 | Taking a request that was handed out keeps the invariants of order, history and progress |
| `BarrierQueue.RequestQueue.FailPart` | os/linux-2.6.30/block/blk-core.c:140-177 | An error of part of the bar is kept if it is the first; the invariants of order, history and progress are kept |
| `BarrierQueue.RequestQueue.RequeuePlace` | os/linux-2.6.30/block/elevator.c:687-695 | The list walk stops at the specified position |
| `BarrierQueue.RequestQueue.Requeue` | os/linux-2.6.30/block/elevator.c:559-574 | The request goes back unstarted to the specified place; the invariants of order, history and progress are kept |
| `BarrierQueue.RequestQueue.Completed` | os/linux-2.6.30/block/elevator.c:947-977 | The drain stage is completed exactly when the specification says the queue is drained |
| `BarrierQueue.RequestQueue.Complete` | os/linux-2.6.30/block/blk-barrier.c:116-132 | The completion of a request, with the end_io of a proxy, sets no stage bit twice; the invariants of order, history and progress are kept |
| `Segments.GreedyIsMinimal` | os/linux-2.6.30/block/blk-merge.c:146-199 | The greedy scatterlist is no longer than any valid grouping of the vectors |
| `Segments.RunAddsOne` | os/linux-2.6.30/block/blk-merge.c:146-199 | From any state of the scan, the vectors of one valid run add at most one entry |
| `Segments.MaximalIsMapped` | os/linux-2.6.30/block/blk-merge.c:146-199 | The grouping of the scatterlist is the only valid one in which no group can be continued by the next vector |
| `Segments.MappedIsMaximal` | os/linux-2.6.30/block/blk-merge.c:146-199 | In the grouping of the scatterlist no group can be continued by the next vector |
| `Segments.RecountIsGrouping` | os/linux-2.6.30/block/blk-merge.c:41-98 | A recount is itself a valid grouping of the vectors |
| `Segments.RecountIsLeast` | os/linux-2.6.30/block/blk-merge.c:41-98 | A recount joins no page that may bounce, and is no longer than any valid grouping that joins none |
| `Segments.RecountIsScatterlist` | os/linux-2.6.30/block/blk-merge.c:41-98 | Without pages that may bounce the recount is the grouping of the scatterlist |
| `Segments.ContigExactly` | os/linux-2.6.30/block/blk-merge.c:116-140 | With the end sizes those of the end runs, blk_phys_contig_segment holds if and only if the two runs may be one segment |
| `Segments.JoinedCountExactly` | os/linux-2.6.30/block/blk-merge.c:316-325 | Then the joined count is that of the runs, one less exactly if the end runs may be one |
| `Segments.Recalc` | os/linux-2.6.30/block/blk-merge.c:41-98 | The loop returns the number of runs of the recount, 0 without data, and stores the sizes of its first and last run |
| `Segments.CountBio` | os/linux-2.6.30/block/blk-merge.c:105-113 | A bio without valid counts gets those of its recount, and its sizes do not shrink |
| `Segments.JoinAtEnds` | os/linux-2.6.30/block/blk-merge.c:116-140 | When blk_phys_contig_segment holds, the end runs of two requests form one valid run |
| `Segments.DescribedConcat` | os/linux-2.6.30/block/blk-merge.c:230-250 | The counts of two groups of bios together describe their concatenation |
| `Segments.DescribedGlued` | os/linux-2.6.30/block/blk-merge.c:301-339 | With the joint size noted at the far ends, one segment less still describes both requests |
| `Segments.JoinSegments` | os/linux-2.6.30/block/blk-merge.c:316-325 | The total is one less exactly when the requests touch, and describes their bios |
| `Segments.Request.FromBio` | os/linux-2.6.30/block/blk-merge.c:105-113 | A request made of one bio is described by its count |
| `Segments.EntriesBytes` | os/linux-2.6.30/block/blk-merge.c:160-195 | The entries of any valid grouping address the bytes of its vectors, in order |
| `Segments.MapVecs` | os/linux-2.6.30/block/blk-merge.c:160-195 | For any vectors the loop emits the entries of a valid grouping, which address their bytes in order, and counts them |
| `Segments.Request.MapSg` | os/linux-2.6.30/block/blk-merge.c:146-199 | For any request built by merges the entries are those of a valid grouping of its data, address its bytes in order, and are at most nr_phys_segments |
| `Segments.Request.NewHwSegment` | os/linux-2.6.30/block/blk-merge.c:230-250 | Accepts exactly within both limits, and otherwise marks the request unmergeable |
| `Segments.Request.BackMerge` | os/linux-2.6.30/block/blk-merge.c:252-274 | Accepts exactly when sectors and recounted segments fit, appends the data of the bio, and keeps the count valid |
| `Segments.Request.FrontMerge` | os/linux-2.6.30/block/blk-merge.c:276-299 | Accepts exactly when sectors and recounted segments fit, prepends the data of the bio, and keeps the count valid |
| `Segments.Request.MergeRequest` | os/linux-2.6.30/block/blk-merge.c:301-339 | Accepts exactly when neither is special and sectors and joined segments fit, appends the data of the other request, and keeps the count valid; a refusal changes no data |
| `Segments.Request.RecalcSegments` | os/linux-2.6.30/block/blk-merge.c:100-103 | The count is that of the recount, 0 for a request without data, and describes the same data again |
| `MergeHash.JoinedOk` | os/linux-2.6.30/block/blk-merge.c:360-418 | Two adjacent requests joined are one gapless run of all their bios |
| `MergeHash.BackMergedOk` | os/linux-2.6.30/block/blk-core.c:1175-1192 | A back merge leaves a gapless run with one bio more |
| `MergeHash.FrontMergedOk` | os/linux-2.6.30/block/blk-core.c:1194-1219 | A front merge leaves a gapless run with one bio more and the same hash key |
| `MergeHash.SameKeyOk` | os/linux-2.6.30/block/elevator.c:531-542 | The hash stays right without rehashing when key and mergeability of the request stay |
| `MergeHash.DeletedOk` | os/linux-2.6.30/block/elevator.c:334-338 | Taking an entry out of its bucket leaves the index right for every other request |
| `MergeHash.AddedOk` | os/linux-2.6.30/block/elevator.c:340-346 | Putting a request into the bucket of its end sector makes the index right |
| `MergeIndex.InsertedKeeps` | os/linux-2.6.30/block/elevator.c:650-666 | Insertion adds the bios of the request to the pending ones and indexes it |
| `MergeIndex.DispatchedKeeps` | os/linux-2.6.30/block/elevator.c:437-448 | Dispatch takes exactly the bios of the request out of the pending ones and unhashes it |
| `MergeIndex.JoinedKeeps` | os/linux-2.6.30/block/blk-merge.c:360-418 | Merging two queued requests loses and duplicates no bio and keeps the index, even if the first was not yet rehashed |
| `MergeIndex.BackArmKeeps` | os/linux-2.6.30/block/blk-core.c:1175-1192 | The back-merge arm adds exactly the bio to the pending ones, whether or not the next request is merged too |
| `MergeIndex.FrontArmKeeps` | os/linux-2.6.30/block/blk-core.c:1194-1219 | The front-merge arm adds exactly the bio to the pending ones, whether or not the previous request is merged too |
| `MergeIndex.RefusedKeeps` | os/linux-2.6.30/block/blk-merge.c:261-266 | A refused merge keeps the pending bios and the index |
| `MergeIndex.FindIsFirst` | os/linux-2.6.30/block/elevator.c:354-374 | The scan returns the first mergeable entry ending at the sector |
| `MergeIndex.LookupIsExact` | os/linux-2.6.30/block/elevator.c:354-374 | A lookup finds a request exactly when a mergeable queued one ends at the sector |
| `MergeIndex.LookupKeeps` | os/linux-2.6.30/block/elevator.c:354-374 | Dropping unmergeable entries during a lookup keeps the index right |
| `MergeIndex.RunKeeps` | os/linux-2.6.30/block/elevator.c:496-557 | Over every run of inserts, merges, refusals, lookups and dispatches, requests stay gapless runs, the index stays right, and the bios submitted are those dispatched plus those pending |
| `MergeKinds.JoinedUniformExactly` | os/linux-2.6.30/block/blk-merge.c:360-388 | Two requests of one kind each join into a request of one kind exactly if both are discards or neither is |
| `MergeKinds.DiscardTakesRead` | os/linux-2.6.30/block/blk-merge.c:360-388 | A discard request and a read that attempt_merge joins, which makes a request of both kinds |
| `MergeKinds.StepUniformExactly` | os/linux-2.6.30/block/elevator.c:79-112 | With every bio checked by elv_rq_merge_ok, a step keeps all queued requests of one kind exactly if the join it takes is of equals |
| `MergeQueue.TriedMergeExactly` | os/linux-2.6.30/block/elevator.c:115-130 | A bio is merged exactly if the request may take it and it begins where the request ends or ends where the request begins |
| `MergeKinds.UniformExactly` | os/linux-2.6.30/block/blk-merge.c:360-438 | Over a run, every queued request stays of one kind exactly if every join taken is of requests of the same kind |
| `MergeKinds.MergeRefusedExactly` | os/linux-2.6.30/block/elevator.c:79-112 | elv_rq_merge_ok refuses a bio for any one of its reasons and for no other |
| `MergeKinds.BarredStays` | os/linux-2.6.30/block/elevator.c:79-112 | A step changes neither bios nor place of a request that is marked unmergeable or of another kind, and only its dispatch removes it |
| `MergeKinds.BarredStaysThroughout` | os/linux-2.6.30/block/elevator.c:79-112 | Over a run such a request has the same bios until its dispatch |
| `MergeKinds.SpecialStays` | os/linux-2.6.30/block/blk-merge.c:376-388 | A request with special data takes no bio and is not taken over |
| `MergeKinds.RefusedExactly` | os/linux-2.6.30/block/blk-merge.c:261-266 | A refused request is marked and no longer tried first, and nothing else changes |
| `MergeKinds.LastKept` | os/linux-2.6.30/block/elevator.c:650-666 | The request tried first stays so through insertions and other dispatches |
| `MergeKinds.LastHoldsBio` | os/linux-2.6.30/block/elevator.c:531-557 | After a merge the request tried first is the one that holds the bio |
| `MergeKinds.LastMayTakeKept` | os/linux-2.6.30/block/elevator.c:496-529 | last_merge always names a queued request that may take bios |
| `MergeQueue.Queue.constructor` | os/linux-2.6.30/block/elevator.c:211-239 | The queue begins empty with a right index |
| `MergeQueue.Queue.HashReposition` | os/linux-2.6.30/block/elevator.c:348-352 | The request is moved to the bucket of its new end sector |
| `MergeQueue.Queue.HashFind` | os/linux-2.6.30/block/elevator.c:354-374 | Finds a request exactly when a mergeable queued one ends at the sector, and keeps the index |
| `MergeQueue.Queue.TryMerge` | os/linux-2.6.30/block/elevator.c:115-130 | The decision is that of the specification for back, front and no merge |
| `MergeQueue.Queue.Merge` | os/linux-2.6.30/block/elevator.c:496-529 | Proposes only merges that fit, and none only if no mergeable request ends at the bio or one of those objects |
| `MergeQueue.Queue.MergedRequest` | os/linux-2.6.30/block/elevator.c:531-542 | Rehashes on a back merge only, and remembers the request |
| `MergeQueue.Queue.MergeRequests` | os/linux-2.6.30/block/elevator.c:544-557 | Rehashes the first request, unhashes the second and counts it off |
| `MergeQueue.Queue.AttemptMerge` | os/linux-2.6.30/block/blk-merge.c:360-418 | Merges exactly when both are mergeable, adjacent, of the same kind and fitting |
| `MergeQueue.Queue.Refuse` | os/linux-2.6.30/block/blk-merge.c:261-266 | The request is marked unmergeable and is no longer tried first |
| `MergeQueue.Queue.BackMergeArm` | os/linux-2.6.30/block/blk-core.c:1175-1192 | The state is that of the specified back-merge arm or refusal |
| `MergeQueue.Queue.FrontMergeArm` | os/linux-2.6.30/block/blk-core.c:1194-1219 | The state is that of the specified front-merge arm or refusal |
| `MergeQueue.Queue.TryToMerge` | os/linux-2.6.30/block/blk-core.c:1170-1221 | A merged bio joins the pending ones, any other changes none, and a bio stays out only for the reasons elv_merge and the segment checks give |
| `MergeQueue.Queue.InsertSort` | os/linux-2.6.30/block/elevator.c:650-666 | The request is queued, hashed if mergeable, and tried first if none was |
| `MergeQueue.Queue.Dispatch` | os/linux-2.6.30/block/elevator.c:437-448 | The request leaves the queue and the hash and is forgotten as the one tried first |
| `Completion.CompletedDropsBytes` | os/linux-2.6.30/block/blk-core.c:1735-1829 | Completing n bytes drops the first n bytes of the data, or all of it |
| `Completion.EndsInOrder` | os/linux-2.6.30/block/blk-core.c:1735-1829 | The bios ended and those left are the bios there were, in order, so each ends once |
| `Completion.EndErrorExactly` | os/linux-2.6.30/block/blk-core.c:140-177 | A bio ends without an error exactly if nothing of it failed |
| `Completion.FailureIsRemembered` | os/linux-2.6.30/block/blk-core.c:140-177 | A bio completed in two parts ends with the error of the second, or -EIO if only the first failed |
| `Completion.DoneExactly` | os/linux-2.6.30/block/blk-core.c:1735-1829 | Nothing is left exactly for more bytes than there are, or for all of them when no empty bio is last |
| `Completion.DoneMeansAllBytes` | os/linux-2.6.30/block/blk-core.c:1735-1829 | That nothing is left exactly when all bytes are done holds for every byte count if and only if no empty bio is last |
| `Completion.CompletionAdds` | os/linux-2.6.30/block/blk-core.c:1735-1829 | Completing n and then m bytes leaves the bios, lengths and offsets, and ends the bios, that completing n + m does |
| `Completion.AdditiveExactlyWithData` | os/linux-2.6.30/block/blk-core.c:1758-1768 | Completion is additive for all splits if and only if only the first bio may be without data |
| `Completion.EmptyTailBreaks` | os/linux-2.6.30/block/blk-core.c:1758-1768 | A later bio without data gives a split at which additivity fails |
| `Completion.AdvancedAdds` | os/linux-2.6.30/block/blk-core.c:140-177 | Advancing a bio twice equals advancing it once, its start sector exactly when the partial sectors do not add up to a sector |
| `Completion.Request.BioEndio` | os/linux-2.6.30/block/blk-core.c:140-177 | The bio loses the bytes and moves on by whole sectors, keeps an error, and is ended exactly when no bytes are left |
| `Completion.Request.EndFirst` | os/linux-2.6.30/block/blk-core.c:1735-1829 | The in-place loop leaves the bios, indices, offsets and ended list of the specification, and returns false exactly when no bio is left |
| `SortList.AliasExact` | os/linux-2.6.30/block/elevator.c:380-401 | A request in the way is found exactly when one starts at the sector |
| `SortList.SortedInserts` | os/linux-2.6.30/block/elevator.c:380-401 | Insertion at the place found keeps the list strictly sorted |
| `SortList.EvictedOnce` | os/linux-2.6.30/block/deadline-iosched.c:76-84 | After one eviction the sector is free, so the insertion loop ends |
| `SortList.LatterIsNearest` | os/linux-2.6.30/block/deadline-iosched.c:65-74 | The following request is the nearest one above |
| `SortList.MergedFifoKeeps` | os/linux-2.6.30/block/deadline-iosched.c:170-189 | Taking over the earlier place in the arrival list keeps its requests, each once |
| `SortList.JoinedInTime` | os/linux-2.6.30/block/cfq-iosched.c:818-830 | When a request takes over an earlier stamp but not the place, the list stays in order exactly if nothing between the two is later |
| `SortList.MovedInTime` | os/linux-2.6.30/block/deadline-iosched.c:170-189 | When it takes over the place as well, the list always stays in order |
| `Ledger.DrainStep` | os/linux-2.6.30/block/elevator.c:576-588 | One dispatch of a drain adds one queued request to the output and leaves one less |
| `Deadline.MovedKeeps` | os/linux-2.6.30/block/deadline-iosched.c:206-222 | Moving a request to dispatch keeps both lists equal, sorted and at most one next request set |
| `Deadline.EvictedKeeps` | os/linux-2.6.30/block/deadline-iosched.c:76-84 | Evicting an alias keeps the invariant and frees the sector |
| `Deadline.AddedKeeps` | os/linux-2.6.30/block/deadline-iosched.c:100-113 | Adding a request keeps the invariant |
| `Deadline.FrontMergedKeeps` | os/linux-2.6.30/block/deadline-iosched.c:156-168 | Repositioning after a front merge keeps the invariant |
| `Deadline.MergedRequestsKeeps` | os/linux-2.6.30/block/deadline-iosched.c:170-189 | Merging two queued requests keeps the invariant |
| `Deadline.ChoiceExists` | os/linux-2.6.30/block/deadline-iosched.c:245-327 | A dispatch chooses a queued request exactly when one is queued |
| `Deadline.ExpiredGoesFirst` | os/linux-2.6.30/block/deadline-iosched.c:228-239 | Outside a running batch, an expired oldest request of the chosen direction is dispatched; with none expired the next of that direction is, where there is one |
| `Deadline.BatchGoesOn` | os/linux-2.6.30/block/deadline-iosched.c:206-222 | While a batch is not full the next dispatch takes the nearest queued request above the last one in its direction, at any time and whatever waits |
| `Deadline.JoinedNext` | os/linux-2.6.30/block/deadline-iosched.c:86-95 | A join changes the next request of a batch only if that is the request taken out, and then to the nearest queued above it; the other direction is untouched |
| `Deadline.BatchGoesUpward` | os/linux-2.6.30/block/deadline-iosched.c:206-222 | The next request after a move is the nearest queued above it, and the other direction has none |
| `Deadline.ChoicesTakeTurns` | os/linux-2.6.30/block/deadline-iosched.c:270-302 | With writes_starved above 0 two choices in a row with reads queued are never both for writes, and reads are chosen over waiting writes at most writes_starved times |
| `Deadline.OnlyWaitingCounts` | os/linux-2.6.30/block/deadline-iosched.c:270-275 | Reads chosen while no write waits are not counted |
| `Deadline.DispatchedKeeps` | os/linux-2.6.30/block/deadline-iosched.c:245-327 | A dispatch moves exactly the chosen request and keeps the invariant |
| `DeadlineRuns.RunKeeps` | os/linux-2.6.30/block/deadline-iosched.c:76-222 | Over every run both lists hold the same requests, at most one next request is set, and each request leaves once |
| `DeadlineRuns.ReadCosts` | os/linux-2.6.30/block/deadline-iosched.c:245-327 | Dispatching a read while writes wait uses up some of the bounded slack |
| `DeadlineRuns.OthersAreFree` | os/linux-2.6.30/block/deadline-iosched.c:76-189 | Arrivals, evictions and merges leave the slack alone |
| `DeadlineRuns.WritesAreNotStarved` | os/linux-2.6.30/block/deadline-iosched.c:245-327 | While writes stay queued, one is dispatched within writes_starved * max(1, fifo_batch) + fifo_batch + 1 dispatches of any run |
| `DeadlineBound.BoundIsReached` | os/linux-2.6.30/block/deadline-iosched.c:245-327 | The bound is exact: for any tunables some run from the empty scheduler dispatches writes_starved * max(1, fifo_batch) + fifo_batch reads while a write waits, because an arrival that moves a read out of the way sets the next request of a batch not yet counted |
| `DeadlineRuns.ReadsAreNotStarved` | os/linux-2.6.30/block/deadline-iosched.c:245-327 | With writes_starved above 0, while reads stay queued one is dispatched within fifo_batch + max(1, fifo_batch) + 1 dispatches of any run |
| `DeadlineReads.ReadsCanWait` | os/linux-2.6.30/block/deadline-iosched.c:245-327 | That bound is reached by a run from a right state, and with writes_starved 0 any number of writes is dispatched while a read waits |
| `DeadlineArrivals.MergedRequestsInTime` | os/linux-2.6.30/block/deadline-iosched.c:170-189 | Merging two requests keeps the arrival lists in the order of expiry |
| `DeadlineArrivals.RunInTime` | os/linux-2.6.30/block/deadline-iosched.c:100-189 | When requests arrive in the order of expiry, both arrival lists stay so over every run |
| `DeadlineArrivals.MostUrgentGoesFirst` | os/linux-2.6.30/block/deadline-iosched.c:228-239 | In such a run, a dispatch outside a batch takes a request at least as urgent as any expired one of the chosen direction |
| `DeadlineQueue.Scheduler.DelRqRb` | os/linux-2.6.30/block/deadline-iosched.c:86-95 | The request leaves the sort list, and a next pointer to it moves to the following request |
| `DeadlineQueue.Scheduler.MoveRequest` | os/linux-2.6.30/block/deadline-iosched.c:206-222 | The state is that of the specified move |
| `DeadlineQueue.Scheduler.AddRqRb` | os/linux-2.6.30/block/deadline-iosched.c:76-84 | The eviction loop and insertion end in the specified state |
| `DeadlineQueue.Scheduler.AddRequest` | os/linux-2.6.30/block/deadline-iosched.c:100-113 | The request is queued in both lists and the invariant holds |
| `DeadlineQueue.Scheduler.FindFront` | os/linux-2.6.30/block/deadline-iosched.c:126-154 | Finds a request exactly when front merges are on and one of the direction starts there |
| `DeadlineQueue.Scheduler.MergedRequest` | os/linux-2.6.30/block/deadline-iosched.c:156-168 | A front merge repositions the request, a back merge leaves the lists |
| `DeadlineQueue.Scheduler.MergedRequests` | os/linux-2.6.30/block/deadline-iosched.c:170-189 | The state is that of the specified merge |
| `DeadlineQueue.Scheduler.Select` | os/linux-2.6.30/block/deadline-iosched.c:245-317 | The choice and the counters are the specified ones |
| `DeadlineQueue.Scheduler.DispatchRequests` | os/linux-2.6.30/block/deadline-iosched.c:245-327 | The state is that of the specified dispatch, and false means nothing was queued |
| `DeadlineQueue.Scheduler.Drain` | os/linux-2.6.30/block/elevator.c:576-588 | Every queued request is dispatched, each once |
| `ServiceTree.AttachSplits` | os/linux-2.6.30/block/cfq-iosched.c:521-552 | Whatever the shape of the tree, the descent inserts the queue behind exactly the queues it does not go left of |
| `ServiceTree.AttachOrdered` | os/linux-2.6.30/block/cfq-iosched.c:521-552 | Insertion keeps the service order |
| `ServiceTree.OrderedByKey` | os/linux-2.6.30/block/cfq-iosched.c:530-546 | In service order real-time queues are first, idle ones last, and queues of one class in the order of their keys |
| `ServiceTree.LeftErasedExactly` | os/linux-2.6.30/block/cfq-iosched.c:439-444 | Erasing another queue leaves the cache alone |
| `ServiceTree.AttachKeepsLeft` | os/linux-2.6.30/block/cfq-iosched.c:548-555 | Setting the cache when no turn went right keeps it the leftmost queue |
| `ServiceTree.EraseKeepsLeft` | os/linux-2.6.30/block/cfq-iosched.c:439-444 | Erasing keeps the cache unset or leftmost |
| `Cfq.ChooseIsBest` | os/linux-2.6.30/block/cfq-iosched.c:329-417 | The request chosen is not worse than the other by kind and by distance from the head with the back-seek penalty |
| `Cfq.ChooseExactly` | os/linux-2.6.30/block/cfq-iosched.c:329-417 | The first of two requests is chosen exactly if it is the synchronous one, or of the same kind the one for metadata, or of the same kind the cheaper one in sectors ahead or penalised sectors back, or as cheap and not lower |
| `Cfq.NextAfterIsBest` | os/linux-2.6.30/block/cfq-iosched.c:449-471 | The successor is the nearest request above, or below, or the lowest if none is above, and none of these is better |
| `Cfq.RefiledNext` | os/linux-2.6.30/block/cfq-iosched.c:709-725 | After an insertion the next request is the better of the one there was and the new one |
| `Cfq.UnfiledNext` | os/linux-2.6.30/block/cfq-iosched.c:776-791 | A request that leaves changes the next request only if it was that one |
| `Cfq.ServiceAddedRanks` | os/linux-2.6.30/block/cfq-iosched.c:511-519 | A queue that joins the tree or whose key has changed is there with its new rank |
| `Cfq.ChooseCommutes` | os/linux-2.6.30/block/cfq-iosched.c:329-417 | The choice does not depend on the order of its arguments |
| `Cfq.NextAfterOk` | os/linux-2.6.30/block/cfq-iosched.c:449-471 | The successor is another pending request, and exists exactly when one does |
| `Cfq.RemovedKeeps` | os/linux-2.6.30/block/cfq-iosched.c:776-791 | Removing a request keeps the invariant, and takes its queue off the service tree when it was the last |
| `Cfq.DispatchedKeeps` | os/linux-2.6.30/block/cfq-iosched.c:1107-1120 | Dispatching moves exactly that request and keeps the invariant |
| `Cfq.EvictedKeeps` | os/linux-2.6.30/block/cfq-iosched.c:694-708 | Evicting an alias keeps the invariant and frees the sector, even when it empties the queue |
| `Cfq.ResortedKeeps` | os/linux-2.6.30/block/cfq-iosched.c:709-725 | Linking a request makes its queue busy and keeps the invariant |
| `Cfq.EnlargedKeeps` | os/linux-2.6.30/block/cfq-iosched.c:818-830 | Enlarging a request by a merge keeps the invariant |
| `Cfq.ServiceAddedKeeps` | os/linux-2.6.30/block/cfq-iosched.c:626-635 | Resorting a busy queue keeps the service tree and the cache right |
| `CfqRuns.RunKeeps` | os/linux-2.6.30/block/cfq-iosched.c:422-732 | Over every run, with any tree shape and head position at each step, the cache is unset or leftmost, the tree and the count cover exactly the queues with requests, each has a pending next request, and each request leaves once |
| `CfqRuns.BusyExactly` | os/linux-2.6.30/block/cfq-iosched.c:641-674 | on_rr holds exactly for queues with pending requests, which are exactly those with a pending next request |
| `CfqRuns.FirstIsMostUrgent` | os/linux-2.6.30/block/cfq-iosched.c:530-546 | The first queue in service order is real-time if any is, idle only if all are, and has the least key of its class |
| `CfqArrivals.JoinsMoveNothing` | os/linux-2.6.30/block/cfq-iosched.c:818-830 | In every run a join takes one request out of its arrival list and moves no other: the reposition is never done |
| `CfqArrivals.JoinInTimeExactly` | os/linux-2.6.30/block/blk-merge.c:389-396 | A join keeps the arrival lists in the order of start times exactly if nothing between the two requests started later than the one taken over |
| `CfqArrivals.InTimeExactly` | os/linux-2.6.30/block/cfq-iosched.c:818-830 | When requests arrive in the order of their start times, the arrival lists stay so throughout a run exactly if every join meets that condition |
| `CfqLostOrder.OrderCanBeLost` | os/linux-2.6.30/block/cfq-iosched.c:818-830 | A run of three insertions and a join from the empty scheduler: the arrival lists are in order until the join and out of order after it |
| `CfqQueue.Scheduler.RbFirst` | os/linux-2.6.30/block/cfq-iosched.c:422-431 | Returns and caches the first queue in service order |
| `CfqQueue.Scheduler.RbErase` | os/linux-2.6.30/block/cfq-iosched.c:439-444 | The queue leaves the tree and the cache |
| `CfqQueue.Scheduler.ServiceTreeAdd` | os/linux-2.6.30/block/cfq-iosched.c:488-560 | The queue is where the descent of the tree puts it |
| `CfqQueue.Scheduler.AddCfqqRr` | os/linux-2.6.30/block/cfq-iosched.c:641-651 | The queue becomes busy and is counted |
| `CfqQueue.Scheduler.DelCfqqRr` | os/linux-2.6.30/block/cfq-iosched.c:657-674 | The queue is no longer busy and is counted off |
| `CfqQueue.Scheduler.RemoveRequest` | os/linux-2.6.30/block/cfq-iosched.c:776-791 | The state is that of the specified removal |
| `CfqQueue.Scheduler.DispatchInsert` | os/linux-2.6.30/block/cfq-iosched.c:1107-1120 | The state is that of the specified dispatch |
| `CfqQueue.Scheduler.EvictAliases` | os/linux-2.6.30/block/cfq-iosched.c:694-708 | The loop ends after at most one eviction, in the specified state |
| `CfqQueue.Scheduler.AddRqRb` | os/linux-2.6.30/block/cfq-iosched.c:694-725 | The state is that of the specified insertion |
| `CfqQueue.Scheduler.DispatchRequest` | os/linux-2.6.30/block/cfq-iosched.c:1125-1147 | The oldest request goes exactly if the check is not marked as done and its time is up, else the next one; a busy queue has both |
| `CfqQueue.Scheduler.ForcedDispatchQueue` | os/linux-2.6.30/block/cfq-iosched.c:1227-1238 | The queue is emptied, each request dispatched once |
| `CfqQueue.Scheduler.ForcedDispatch` | os/linux-2.6.30/block/cfq-iosched.c:1244-1258 | Every queued request is dispatched once, no queue stays busy and nr_sorted is 0 |
| `CfqQueue.Scheduler.DispatchForced` | os/linux-2.6.30/block/cfq-iosched.c:1294-1305 | A forced dispatch empties everything and returns the number dispatched |
| `CfqQueue.Scheduler.Drain` | os/linux-2.6.30/block/elevator.c:576-588 | elv_drain_elevator terminates with every request dispatched once and nr_sorted 0 |
| `CfqQueue.Descend` | os/linux-2.6.30/block/cfq-iosched.c:521-552 | The loop down the tree computes the specified insertion and whether every turn was to the left |
| `Tags.StepKeeps` | os/linux-2.6.30/block/blk-tag.c:281-380 | Every interleaved half step of starting, ending and resizing keeps tag exclusivity |
| `Tags.RunKeeps` | os/linux-2.6.30/block/blk-tag.c:281-380 | The invariant holds in every state of every interleaving of the queues that share a map |
| `Tags.NoTagTwice` | os/linux-2.6.30/block/blk-tag.c:336-380 | No two requests in flight ever hold the same tag |
| `Tags.MapAgreesWithIndex` | os/linux-2.6.30/block/blk-tag.c:281-315 | With every queue at rest, a bit is set exactly when the index names the request with that tag |
| `Tags.TagsStayReleasable` | os/linux-2.6.30/block/blk-tag.c:219-264 | While no resize cuts the map, the tag of a request in flight stays inside it and names the request |
| `TagGrowth.MoveExactly` | os/linux-2.6.30/block/blk-tag.c:219-264 | A step of the queues, or a resize beyond the real depth with its limit, leaves every request in flight releasable if and only if the tags in use are below twice the request limit |
| `TagGrowth.StayReleasableExactly` | os/linux-2.6.30/block/blk-tag.c:219-264 | Over every run with such resizes, requests in flight stay releasable if and only if every resize leaves the tags in use below twice the request limit |
| `TagGrowth.TagCanBeLost` | os/linux-2.6.30/block/blk-tag.c:219-264 | A run in which a growing resize cuts the map below a tag in use |
| `Tags.AsyncKeepsOffLowestQuarter` | os/linux-2.6.30/block/blk-tag.c:354-368 | At a fixed depth no asynchronous request holds a tag of the lowest quarter |
| `TagQueue.FindNextZero` | os/linux-2.6.30/block/blk-tag.c:363-368 | Returns the first clear bit at or after the offset, or the size if none is |
| `TagQueue.Replaced` | os/linux-2.6.30/block/blk-tag.c:250-263 | The new map and index hold as many old entries as fit, and the copy overruns exactly when not all do |
| `TagQueue.EntriesSurviveExactly` | os/linux-2.6.30/block/blk-tag.c:106-137 | When a map grows, every old entry survives if and only if twice the request limit covers the old depth |
| `TagQueue.ReleasableExactly` | os/linux-2.6.30/block/blk-tag.c:219-264 | A request in flight keeps its entry in the grown map if and only if its tag is below twice the request limit |
| `TagQueue.CopyCanOverrun` | os/linux-2.6.30/block/blk-tag.c:219-264 | With the smallest request limit, growing a map of 64 tags to 65 loses every request with a tag from 8 on |
| `TagQueue.ClampedIsLess` | os/linux-2.6.30/block/blk-tag.c:106-137 | The new depth is the one asked for or twice the request limit, whichever is less |
| `TagQueue.ResizeExactly` | os/linux-2.6.30/block/blk-tag.c:219-264 | A resize fails exactly for a shared map that would grow, and overruns exactly if not every old entry fits |
| `TagQueue.Queue.constructor` | os/linux-2.6.30/block/blk-tag.c:177-208 | All tags are free |
| `TagQueue.Queue.StartTag` | os/linux-2.6.30/block/blk-tag.c:336-380 | Fails exactly when no tag from the offset on is free, and otherwise gives the first free one and moves the request to the busy list |
| `TagQueue.Queue.EndTag` | os/linux-2.6.30/block/blk-tag.c:281-315 | Exactly the tag of the request is freed; the early return is not taken |
| `TagQueue.Queue.InvalidateTags` | os/linux-2.6.30/block/blk-tag.c:395-401 | Every tag is free and the requests in flight are at the front of the queue in the order they were started |
| `TagQueue.Queue.ResizeTags` | os/linux-2.6.30/block/blk-tag.c:219-264 | Shrinking changes the depth only, a shared map does not grow, and growing keeps the entries that fit and overruns exactly when not all do |
| `DispatchSort.TailStaysElevated` | os/linux-2.6.30/block/elevator.c:437-473 | The part of the list behind the last request that may not be passed is in one-way elevator order after the insertion exactly if it was before |
| `DispatchSort.NeverPassesBarrier` | os/linux-2.6.30/block/elevator.c:451-460 | The request is never placed ahead of a barrier, a started request or one of another direction or discard kind, and nothing else moves |
| `DispatchSort.ElevatedFromOther` | os/linux-2.6.30/block/elevator.c:481-493 | A tail in order from one end_sector is in order from another exactly if none or all of its requests lie between the two |
| `DispatchRuns.AllElevatedFromOther` | os/linux-2.6.30/block/elevator.c:481-493 | A list in elevator order from one end_sector is so from another exactly if no tail has requests on both sides of the change |
| `DispatchRuns.AddTailExactly` | os/linux-2.6.30/block/elevator.c:481-493 | Adding at the tail, which sets end_sector to the end of the request, keeps the order exactly if the tail it joins lies on one side of the change and nothing of it starts inside the request |
| `DispatchRuns.StepExactly` | os/linux-2.6.30/block/elevator.c:437-493 | Sorting in, adding at the tail, submitting a barrier, inserting a request that may not be passed, fetching and taking each keep the order exactly if what they do to end_sector leaves every tail on one side |
| `DispatchRuns.InOrderExactly` | os/linux-2.6.30/block/elevator.c:778-805 | Over every run from an empty list, with end_sector and boundary_rq as they move, everything a request may be sorted into stays in elevator order exactly while every step is of that kind |
| `DispatchRuns.FetchFollows` | os/linux-2.6.30/block/elevator.c:801-804 | Fetching the head of a tail in order, which moves end_sector to its end, leaves the rest in order if nothing starts inside the head |
| `DispatchRuns.BoundIsSet` | os/linux-2.6.30/block/elevator.c:481-493 | A tail addition and a barrier set end_sector to the end of the request and boundary_rq to it |
| `DispatchRuns.FetchMovesExactly` | os/linux-2.6.30/block/elevator.c:801-804 | A fetch moves end_sector to the end of the head exactly if boundary_rq is unset or the head |
| `DispatchRuns.OthersLeaveBound` | os/linux-2.6.30/block/elevator.c:437-473 | Insertions and removals leave end_sector alone |
| `DispatchRuns.OrderCanBeLost` | os/linux-2.6.30/block/elevator.c:801-804 | A run in which the order is lost by a fetch of a write that ends between two reads sorted in before |
| `DispatchRuns.DispatchList.Scan` | os/linux-2.6.30/block/elevator.c:451-470 | The scan from the tail finds the specified place |
| `DispatchRuns.DispatchList.DispatchSort` | os/linux-2.6.30/block/elevator.c:437-473 | The request goes to the specified place, and a list in elevator order stays so |
| `DispatchRuns.DispatchList.DispatchAddTail` | os/linux-2.6.30/block/elevator.c:481-493 | end_sector and boundary_rq follow the request, and a list in order stays so exactly if the tail fits |
| `DispatchRuns.DispatchList.FetchHead` | os/linux-2.6.30/block/elevator.c:778-805 | end_sector and boundary_rq follow the head as in the source, and a list in order stays so exactly if no tail has requests on both sides |
| `CrcAlgebra.TableStepIsBitStep` | device-agent/src/CRC16.h:19-22 | One table step equals eight steps of the bit-at-a-time CRC |
| `CrcAlgebra.Crc16` | device-agent/src/CRC16.cpp:47-55 | The table loop computes the bit-at-a-time reflected CRC of appendix C.2 of RFC 1662 for every message |
| `CrcAlgebra.DifferenceStays` | device-agent/src/CRC16.cpp:47-55 | Different CRC states stay different over the same bytes |
| `CrcAlgebra.PairIsDetected` | device-agent/src/CRC16.cpp:47-55 | Changing one byte or two adjacent bytes changes the CRC |
| `CrcAlgebra.BurstIsDetected` | device-agent/src/CRC16.cpp:47-55 | Changing bits of three adjacent bytes within the span changes the CRC |
| `Crc.TableIsEight` | device-agent/src/CRC16.cpp:11-44 | Each of the 256 table entries is eight bit steps of its index with polynomial 0x8408 |
| `Crc.ItutLaws` | device-agent/src/CRC16.cpp:11-44 | The table and 16-bit words satisfy the laws the loop proof needs |
| `Crc.ItutPairLaws` | device-agent/src/CRC16.cpp:11-44 | 16-bit words satisfy the laws the detection proof needs |
| `Crc.ItutBurstLaws` | device-agent/src/CRC16.cpp:11-44 | No change of up to sixteen bits in a row cancels out |
| `Frames.BuiltBody` | device-agent/src/Packet.cpp:33-46 | Where the checked bytes, the CRC and the tokens of a built frame are |
| `Frames.BuiltIsOk` | device-agent/src/Packet.cpp:170-187 | A built frame passes the check exactly if its content has two bytes or more |
| `Frames.ReceivedOk` | device-agent/src/Packet.cpp:82-123 | For every byte stream that runs dry the buffer ends empty or as a frame with a right CRC |
| `Frames.ThrownOkExactly` | device-agent/src/TCPPort.cpp:173-199 | For every stream that ends in an exception the buffer is empty or a right frame if and only if no SOH came or the bytes complete a frame |
| `Frames.PartThrownExactly` | device-agent/src/Packet.cpp:82-123 | Unless an EOT comes beyond the limit of the buffer that is exactly when some beginning is a frame; otherwise all bytes stay in the buffer |
| `Frames.CutFrameIsTaken` | device-agent/src/Protocol.cpp:188-219 | A frame cut by an exception stays in the buffer although it is no frame, and its port is taken unchecked |
| `Frames.PortIsAssigned` | device-agent/src/Packet.cpp:217-224 | A frame built of a command and a port assigns that port |
| `Frames.SalvagedIsFirst` | device-agent/src/Packet.cpp:115-122 | When the data runs dry the first frame that starts at a later SOH is kept, and nothing if there is none |
| `Frames.FrameBehindFalseStart` | device-agent/src/Packet.cpp:82-123 | A frame behind a false SOH that ends the stream is received when no beginning of the stream is a frame |
| `Frames.FirstFrameWins` | device-agent/src/Packet.cpp:82-123 | After noise without SOH, the shortest frame from the first SOH on is received, whatever follows |
| `Frames.FrameIsReceived` | device-agent/src/Packet.cpp:82-123 | A built frame of total length up to 4056 after SOH-free noise is received if and only if no beginning of it passes for a frame |
| `Frames.LongFrameIsReceived` | device-agent/src/Packet.cpp:82-168 | A frame of any length at the end of a stream is received if and only if no beginning is a frame and no EOT comes beyond the limit before its end |
| `Frames.ContentCanEndEarly` | device-agent/src/Packet.cpp:154-168 | Content that carries the end of a shorter frame is not received whole |
| `Frames.Packet.ReceiveFrameFrom` | device-agent/src/Packet.cpp:82-123 | The loop leaves the specified buffer for every stream |
| `FrameCrc.CorruptionIsDetected` | device-agent/src/Packet.cpp:170-187 | A built frame with one content byte or two adjacent ones changed fails the check |
| `FrameCrc.BurstIsCaught` | device-agent/src/Packet.cpp:170-187 | A built frame whose content is changed by a burst of up to sixteen bits fails the check |
| `FrameCrc.FrameCrcSteps` | device-agent/src/CRC16.cpp:47-55 | The CRC of no bytes is all ones, and each byte takes it one step through the table |
| `FrameCrc.Crc16Of` | device-agent/src/CRC16.cpp:47-55 | The loop over the table computes the CRC used in frames |
| `PacketStore.PushedOk` | device-agent/src/PacketQueue.cpp:32-50 | Push keeps the queue a queue of right frames with distinct numbers |
| `PacketStore.LoadedOk` | device-agent/src/PacketQueue.cpp:107-153 | Whatever the file holds, what is loaded is a right queue |
| `PacketStore.LoadUndoesSave` | device-agent/src/PacketQueue.cpp:75-153 | Loading a saved queue gives the queue back |
| `PacketStore.LoadsBackExactly` | device-agent/src/PacketQueue.cpp:107-153 | A queue of right frames with distinct numbers is loaded back if and only if every frame is under 5000 bytes |
| `PacketStore.CutFileLoadsPrefix` | device-agent/src/PacketQueue.cpp:107-153 | Loading a saved file cut at any byte gives exactly the packets whose records are whole |
| `PacketStore.SavedExactly` | device-agent/src/PacketQueue.cpp:75-105 | After a save that the disk cut short a packet is loaded back if and only if its record and all before it were written |
| `PacketStore.IntRoundTrip` | device-agent/src/PacketQueue.cpp:75-153 | Every int of 32 bits is read back from its four stored bytes |
| `PacketStore.BadLengthIsSkipped` | device-agent/src/PacketQueue.cpp:107-153 | A stored length that is not positive or is 5000 and more is skipped |
| `PacketStore.BadRecordIsLeftOut` | device-agent/src/PacketQueue.cpp:107-153 | A record that is no frame or whose number is queued is left out |
| `PacketStore.CutRecordEnds` | device-agent/src/PacketQueue.cpp:107-153 | A record cut off ends the file |
| `PacketStore.DataPacketQueue.Push` | device-agent/src/PacketQueue.cpp:32-50 | A packet is appended unless it is empty or its number is queued |
| `PacketStore.DataPacketQueue.Save` | device-agent/src/PacketQueue.cpp:75-105 | Whatever the disk takes, the file is the image of the queue or a beginning of it |
| `PacketStore.DataPacketQueue.Load` | device-agent/src/PacketQueue.cpp:107-153 | The queue is what the specification loads from the bytes, and stays when the file cannot be opened |
| `Agent.StepKeeps` | device-agent/src/DataTask.cpp:44-114 | Every step of the reader and the sender keeps the invariant |
| `Agent.NothingIsLost` | device-agent/src/DataTask.cpp:44-114 | In every interleaving the packets taken in are those that left, in order, and then those queued, and each left as no data frame or by an answer that starts with 0x06 and repeats the two bytes of its number |
| `Agent.TellsFrames` | device-agent/src/Packet.cpp:226-233 | A data frame is told by its command and an answer by ACK and the two bytes of the number |
| `Agent.DataFrameBuilt` | device-agent/src/Packet.cpp:33-46 | A frame built of the command, a length and a number is a data frame with that number |
| `Agent.AnswerExactly` | device-agent/src/Protocol.cpp:358-375 | A packet leaves exactly if power is on and the answer is its own, and the sender leaves the call exactly if power is off or at the fifth failure |
| `Agent.CallExactly` | device-agent/src/Protocol.cpp:314-330 | A call begins with no failures and ends when the queue is empty |
| `Agent.BreakExactly` | device-agent/src/Protocol.cpp:337-356 | A broken connection costs neither the packet nor an attempt |
| `Agent.AnsweredLeaves` | device-agent/src/Protocol.cpp:358-364 | A data packet at the head that is sent and answered leaves the queue |
| `Agent.FiveFailuresEndTheCall` | device-agent/src/Protocol.cpp:314-377 | In every interleaving a call is over by the fifth unacknowledged attempt in a row |
| `Agent.FailureIsCounted` | device-agent/src/Protocol.cpp:361-375 | An unacknowledged attempt counts one, and ends the call exactly when it is the fifth |
| `Agent.CrashKeepsSaved` | device-agent/src/DataTask.cpp:29-33 | Over every run, after a crash outside a save, loading the file gives a packet that is still queued if and only if the last save wrote it whole, or wrote a packet of the same bytes that has left since |
| `Agent.SaveKeepsAllExactly` | device-agent/src/PacketQueue.cpp:75-105 | A save leaves every queued packet in the file if and only if the disk takes the whole image |
| `Agent.ShortSaveLoses` | device-agent/src/PacketQueue.cpp:75-105 | A run in which a save, having truncated the file, is cut short and a packet that an earlier save had is lost |
| `Agent.SentConserves` | device-agent/src/Protocol.cpp:314-377 | A call conserves the packets and their order, and pops none without reason |
| `Agent.AnsweredEmpties` | device-agent/src/Protocol.cpp:314-377 | A line that answers every data packet, with breaks that are mended, empties the queue |
| `Agent.GivesUpOnRefusals` | device-agent/src/Protocol.cpp:361-375 | A call gives up only on a data packet that was refused five times since the last acknowledgement |
| `Agent.FifthRefusalEnds` | device-agent/src/Protocol.cpp:339-375 | While only refusals and reconnections come, the call gives up exactly at the fifth refusal and the packet stays |
| `Agent.SendCurrentData` | device-agent/src/Protocol.cpp:314-377 | The loop pops and gives up as specified for every line of outcomes |
| `Negotiation.AttemptsAreBounded` | device-agent/src/Protocol.cpp:154-230 | However the network behaves, the attempts left are bounded and all on the start port or the next |
| `Negotiation.BoundIsReached` | device-agent/src/Protocol.cpp:154-230 | There is a network for which all 24 attempts are made |
| `Negotiation.NegotiatedExactly` | device-agent/src/Protocol.cpp:154-230 | A negotiation goes on until a port is assigned, six attempts in a row are refused or the fourth brings no command, changes the port after every third refusal in a row and after a silence, and grants what the last attempt assigned |
| `Negotiation.TriesExactly` | device-agent/src/Protocol.cpp:73-109 | The connections end with the first that succeeds or with the third |
| `Negotiation.ControlAttemptsExactly` | device-agent/src/Protocol.cpp:73-109 | The attempts are those of a negotiation, then the granted port until it connects or three times, and if it never connects those of a second negotiation |
| `Negotiation.NegotiateChannel` | device-agent/src/Protocol.cpp:154-230 | At most 24 attempts, all on the start port or the next one |
| `Negotiation.NegotiateControlChannel` | device-agent/src/Protocol.cpp:73-109 | The ports tried, at most 51, and that it connects exactly when a port was assigned and one of three connections to it succeeds |
| `Feistel.RoundsBackUndo` | os/linux-2.6.30/crypto/cast5.c:580-695 | Whatever the round functions and however many rounds, the rounds backwards undo the rounds |
| `Feistel.CastEncrypt` | os/linux-2.6.30/crypto/cast5.c:580-643 | The round loop and the swap compute the specified rounds |
| `Feistel.CastDecrypt` | os/linux-2.6.30/crypto/cast5.c:645-695 | The round loop and the swap compute the rounds that RoundsBackUndo inverts |
| `Feistel.BfRoundUndone` | os/linux-2.6.30/crypto/blowfish.c:311-314 | A round with the key two places on undoes a round and moves the whitening keys along |
| `Feistel.RoundsUndo` | os/linux-2.6.30/crypto/cast5.c:580-695 | The rounds undo the rounds backwards |
| `Feistel.BfRoundUndoes` | os/linux-2.6.30/crypto/blowfish.c:311-314 | A round undoes the round with the key two places on, whitening keys included |
| `Feistel.BfEncryptUndoes` | os/linux-2.6.30/crypto/blowfish.c:320-396 | Blowfish encryption undoes decryption for every P array, so both are permutations of the blocks |
| `Feistel.BfIsTextbook` | os/linux-2.6.30/crypto/blowfish.c:314-349 | The unrolled rounds compute the published cipher |
| `Feistel.CastEncryptUndoes` | os/linux-2.6.30/crypto/cast5.c:580-695 | CAST5 encryption undoes decryption, so both are permutations of the blocks |
| `Cast5Rfc.Type1` | os/linux-2.6.30/crypto/cast5.c:572-573 | On 32-bit words the first round function is that of type 1 of section 2.2 of RFC 2144, byte by byte |
| `Cast5Rfc.Type2` | os/linux-2.6.30/crypto/cast5.c:574-575 | The second is that of type 2 |
| `Cast5Rfc.Type3` | os/linux-2.6.30/crypto/cast5.c:576-577 | The third is that of type 3 |
| `Cast5Rfc.RoundTypes` | os/linux-2.6.30/crypto/cast5.c:604-635 | The rounds use the three types in turn |
| `Feistel.BfDecryptUndoes` | os/linux-2.6.30/crypto/blowfish.c:320-396 | Blowfish decryption undoes encryption for every P array, whatever bf_F computes |
| `Feistel.CastDecryptUndoes` | os/linux-2.6.30/crypto/cast5.c:580-695 | On 32-bit words CAST5 decryption gives back every block, for every key schedule and S-box and for 12 and 16 rounds |
| `Feistel.BfEncrypt` | os/linux-2.6.30/crypto/blowfish.c:320-349 | The rounds in place compute the specified encryption |
| `Feistel.BfDecrypt` | os/linux-2.6.30/crypto/blowfish.c:364-396 | The rounds in place compute the specified decryption |
| `Feistel.Words32` | os/linux-2.6.30/crypto/cast5.c:572-577 | 32-bit words satisfy the laws of the inversion proofs |
| `CryptoBytes.IncrementedValue` | os/linux-2.6.30/crypto/algapi.c:727-738 | The byte loop adds one to the big-endian value modulo 256 to the length |
| `CryptoBytes.WordIncrement` | os/linux-2.6.30/crypto/algapi.c:740-753 | Incrementing a buffer that ends in a word increments the word, and goes on exactly on a carry |
| `CryptoBytes.WordStep` | os/linux-2.6.30/crypto/algapi.c:740-753 | Incrementing a word as a number and through its bytes agree, and it carries exactly when it becomes zero |
| `CryptoBytes.IncByte` | os/linux-2.6.30/crypto/algapi.c:727-738 | The in-place byte loop computes the specified increment |
| `CryptoBytes.Inc` | os/linux-2.6.30/crypto/algapi.c:740-753 | The word-at-a-time loop computes what the byte loop does, for every length |
| `CryptoBytes.WordSize` | os/linux-2.6.30/crypto/algapi.c:740-753 | The values of a word of crypto_inc are those below 2 to the 32 |
| `CryptoXor.XorUndoesItself` | os/linux-2.6.30/crypto/algapi.c:756-760 | Byte-wise XOR with the same bytes undoes itself |
| `CryptoXor.XorBytes` | os/linux-2.6.30/crypto/algapi.c:756-760 | The in-place byte loop is byte-wise XOR |
| `CryptoXor.Xor` | os/linux-2.6.30/crypto/algapi.c:762-771 | The word-wise loop agrees with byte-wise XOR for every length |
| `CryptoXor32.MachineLaws` | os/linux-2.6.30/crypto/algapi.c:762-771 | XOR of 32-bit words is XOR of their bytes |

## Left out

- Camellia key schedules for 128, 192 and 256 bits, and the contents of the S-box tables: the theorems hold for every subkey table and every S-box.
- The key schedules and S-box contents of CAST5 and Blowfish: decryption and encryption invert each other whatever they are.
- Tag and none ordering modes, the driver's prepare function and its deferral, and plugging: outside drain mode the order is the device's.
- Completion of the barrier request itself inside req_bio_endio (bar_rq), integrity data and the sector bookkeeping of blk_recalc_rq_sectors beyond the hard fields.
- Padding and the drain buffer of blk_rq_map_sg, and requests without data.
- BarrierQueue.RequestQueue.constructor: takes drain modes only, because in the others the device keeps the order and the invariants do not hold.
- CfqQueue.Scheduler.DispatchRequest: takes the mark, the expiry interval and the time as inputs, because slices are not modelled.
- Tags.TagsStayReleasable: takes growing resizes that keep the old depth; those that cut the map are in TagGrowth.StayReleasableExactly. What the copy writes beyond a cut map is not modelled.
- Frames.ThrownOkExactly: when an EOT comes beyond the limit of the buffer the scan starts again inside the stream, and the condition follows it; without one, Frames.PartThrownExactly states it on the bytes.
- TagQueue.Queue.InvalidateTags: covers the requeueing with no barrier in progress; requeueing during one is BarrierQueue.RequestQueue.Requeue.
- CFQ time slices, queue selection, idling, cooperator search, priority changes while queued, prio_trees and the counters queued, meta_pending and busy_rt_queues: heuristics over values that change in place.
- The anticipatory scheduler, whose cached next request is not kept optimal.
- Agent.SendCurrentData: reads the outcomes of its transmissions from a list, so reconnecting, time-outs and the power state of the modem are inputs.
- The modem dialogue, history transfer, health reports, the four-argument crc16, sockets, serial port and configuration: input and output.
- Allocation failures, locking, reference counts and tracing.
- AES, Anubis, the random number generator, cipher registration and scatter walks.
