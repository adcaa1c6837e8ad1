# Verified models of tokenspeed

Models of five parts of tokenspeed, with proofs of what they promise.

* **The prefill attention kernel** (`Fmha*.dfy`, `FusedMask.dfy`, `OnlineSoftmax.dfy`). Load, MMA,
  softmax0, softmax1 and correction warps, and the tensor core the MMA warp feeds, each run a fixed
  program over a tile and meet in rings, handshakes and barriers. They are modelled as a transition
  system over event counters, with memory in which P of one half and the statistics of the other lie
  inside the columns of a score buffer. Every reachable state can move on or is finished; every read
  finds the right data; and every run that has ended stored the softmax attention of every query row.
  The arithmetic is over the reals, with base-two exponential and logarithm as parameters of which only
  their laws are assumed.
* **The work of the decode kernel** (`MlaDecode.dfy`, `TileScheduler.dfy`): packing and folding query
  rows, splitting keys, and handing tiles to persistent or single-tile blocks, each exactly once.
* **The request state machine** (`RequestFsm.dfy`, `RequestRuns.dfy`, `RequestProgress.dfy`,
  `TokenContainer.dfy`): conservation of pages and rows, progress of prefill, and retraction and
  restore, over any interleaving of events on any number of requests.
* **Kernel registry, selection and plans** (`KernelSelection.dfy`, `KernelRegistry.dfy`,
  `KernelPlan.dfy`): the memo table agrees with the pipeline for requests with traits, and for
  those without under the condition named below; plans do not depend on the order of registration.
* **Capture arenas and the compile monitor** (`CaptureArena.dfy`, `CompileMonitor.dfy`).

`Arith.dfy` and `Wrappers.dfy` hold the integer arithmetic and the option and result types the others
share. `dafny verify dfyconfig.toml` checks the whole project.

Five things the code is meant to do it does not do for all inputs. Each has its exact condition proved,
and an input that shows it.

* The log-sum-exp of 8-bit queries without skipped corrections keeps the prescale in: the correction
  computed at fmha.py line 315 is never applied (`KernelLseRightIff`, `LseRightIff`;
  `LseOffAtOneKey` is a row where it shows).
* A window mask with neither window visits a partial last tile unmasked (`CleanIffCovered`,
  `WindowlessLeak`); the driver at fmha.py lines 3358-3370 picks the residual mask there.
* Absent and empty traits share a selection cache entry, which is right only if the oracle orders
  kernels alike for both (`SameBestIff`, `SharedEntryIff`). The registry is verified for every oracle:
  selection is right for requests with traits, and without them under that condition (`Select`);
  `WrongSelection` is a run in which it is not.
* A plan may leave open a size whose alignment its kernel declares, and then refuses misaligned values;
  and it refuses an empty solution it was planned with (`PlanStaysValid`, `UnscreenedSize`,
  `EmptySolutionRefused`).
* The split of 8-bit keys is sized from the window, but a window can reach one tile more than fits its
  length, and then a partition can be empty (`NoEmptyPartition`, `SpanBounds`, `WindowedEmpty`).

## Model

| member | source | states |
|---|---|---|
| FmhaProgress.NeverStuck | tokenspeed-mla/python/tokenspeed_mla/fmha.py:744-1531 | In every state that keeps the counters in step, for any sequence of tiles, any number of key/value steps and any key/value ring of at least two stages, some role can move unless all have finished. |
| FmhaProtocol.InStepKept | tokenspeed-mla/python/tokenspeed_mla/fmha.py:744-850 | Every operation a role can perform keeps every wait and acquire behind the arrivals and releases it needs. |
| FmhaProtocol.InStepAtStart | tokenspeed-mla/python/tokenspeed_mla/fmha.py:744-850 | The counters are in step before the first tile, with the extra arrival that opens the sequence barrier. |
| FmhaProtocol.AfterDone | tokenspeed-mla/python/tokenspeed_mla/fmha.py:1110-1306 | Performing an operation adds it, in its round, to what its role has done, and adds nothing else to anyone. |
| FmhaOrder.WaitSAfterQK | tokenspeed-mla/python/tokenspeed_mla/fmha.py:1576-1598 | Scores waited for have been written: the wait of a round follows the product of that round. |
| FmhaOrder.QKAfterRelS | tokenspeed-mla/python/tokenspeed_mla/fmha.py:1576-1598 | Scores of a later round are written only after the softmax released those of every earlier round. |
| FmhaOrder.QKAfterRelVec | tokenspeed-mla/python/tokenspeed_mla/fmha.py:1580-1583 | Scores are written only after correction released the statistics of every earlier round, which share their columns. |
| FmhaOrder.PV0AfterP | tokenspeed-mla/python/tokenspeed_mla/fmha.py:1636-1671 | The product of a round uses the probabilities softmax0 committed in the round before. |
| FmhaOrder.P0AfterPV | tokenspeed-mla/python/tokenspeed_mla/fmha.py:2310-2345 | Softmax0 stores new probabilities only after the product that used the last ones. |
| FmhaOrder.WaitOAfterPV | tokenspeed-mla/python/tokenspeed_mla/fmha.py:2732-2769 | Correction takes O of a round only after that round's product has landed. |
| FmhaOrder.AcqOAfterRelO | tokenspeed-mla/python/tokenspeed_mla/fmha.py:1636-1671 | O is accumulated again only after correction released it in every earlier round. |
| FmhaOrder.WaitAfterPut | tokenspeed-mla/python/tokenspeed_mla/fmha.py:1036-1100 | The n-th slot the MMA warp takes from the shared K/V ring is the n-th the load warp filled: K of the round, or V of the round before. |
| FmhaOrder.PutsBounded | tokenspeed-mla/python/tokenspeed_mla/fmha.py:1059-1100 | Until a K or V tile is released, fewer tiles are put after it than the ring has stages. |
| FmhaOrder.PutQAfterRelQ | tokenspeed-mla/python/tokenspeed_mla/fmha.py:1025-1057 | Queries of a tile are loaded only after those of the tile before were released. |
| FmhaReads.EnabledReadsRight | tokenspeed-mla/python/tokenspeed_mla/fmha.py:248-265 | Whatever an operation that can be performed reads is what the algorithm asks for: scores whole, P and statistics not overwritten by the scores they share columns with, O rescaled, and the right K, V and Q tiles. |
| FmhaReads.MemKept | tokenspeed-mla/python/tokenspeed_mla/fmha.py:248-265 | Every operation keeps the description of tensor and shared memory by the last operation that wrote each part. |
| FmhaReads.KFound | tokenspeed-mla/python/tokenspeed_mla/fmha.py:1213-1219 | The ring stage a score product reads holds the K tile of its round. |
| FmhaReads.VFound | tokenspeed-mla/python/tokenspeed_mla/fmha.py:1222-1235 | The ring stage an output product reads holds the V tile of the step before. |
| FmhaReads.ORescaled | tokenspeed-mla/python/tokenspeed_mla/fmha.py:2732-2769 | Before a product accumulates, correction has rescaled O of the round before and of no later round. |
| FmhaReads.HandshakeBounded | tokenspeed-mla/python/tokenspeed_mla/fmha.py:829-850 | An in-place handshake, which has no release, is never committed a second time before its waiter has passed once, within a tile and across tiles. |
| FmhaReads.BarrierBounded | tokenspeed-mla/python/tokenspeed_mla/fmha.py:2226-2242 | A sequence barrier is never arrived at a second time before its waiter has passed. |
| FmhaMachine.MemMeansKept | tokenspeed-mla/python/tokenspeed_mla/fmha.py:1576-1671 | Every operation, computing on what it finds in memory, writes the value the sequential evaluation gives. |
| FmhaMachine.SoftMeansKept | tokenspeed-mla/python/tokenspeed_mla/fmha.py:1936-2349 | A softmax warpgroup's registers hold the sequential state of the last scores it read. |
| FmhaMachine.CorrMeansKept | tokenspeed-mla/python/tokenspeed_mla/fmha.py:2732-2769 | Correction's registers hold the sequential statistics of the last round it read. |
| FmhaMachine.OutMeansKept | tokenspeed-mla/python/tokenspeed_mla/fmha.py:2926-2962 | Stored outputs are sequential outputs, and every finished tile has one. |
| FmhaMachine.OutTraced | tokenspeed-mla/python/tokenspeed_mla/fmha.py:1448-1518 | The sequential output of a tile is the end of any trace that obeys the algebra step by step. |
| FmhaRuns.EveryReadIsRight | tokenspeed-mla/python/tokenspeed_mla/fmha.py:248-265 | In every run, from any initial memory, every read finds the sequential value, although P and statistics live inside S. |
| FmhaRuns.NeverRunsAhead | tokenspeed-mla/python/tokenspeed_mla/fmha.py:829-850 | In every configuration of every run, handshakes and barriers are at most one signal ahead of their waiters and never behind. |
| FmhaRuns.RunsContinue | tokenspeed-mla/python/tokenspeed_mla/fmha.py:744-1531 | No run is longer than the work there is, and a run that has not finished can be continued. |
| FmhaRuns.MaximalRunIsRight | tokenspeed-mla/python/tokenspeed_mla/fmha.py:744-1531 | A run that cannot be continued has finished, and has stored the sequential output of every tile and half. |
| FmhaAttention.AlgebraJoins | tokenspeed-mla/python/tokenspeed_mla/fmha.py:248-265 | Taking the columns of S apart as statistics, P and the rest and putting them together again gives S back. |
| FmhaAttention.StepScoresAre | tokenspeed-mla/python/tokenspeed_mla/fmha_helpers.py:918-1075 | Masked in the leading and trailing steps and not in between, a step uses exactly the scores of the visible keys. |
| FmhaAttention.TileTraces | tokenspeed-mla/python/tokenspeed_mla/fmha.py:2554-2629 | The values the rounds of a tile compute are the states, probabilities and outputs of the row, tile after tile. |
| FmhaAttention.StoredIsAttention | tokenspeed-mla/python/tokenspeed_mla/fmha.py:2926-2962 | What the last round of a tile stores is the softmax-weighted sum over exactly the visible keys. |
| FmhaAttention.KernelComputesAttention | tokenspeed-mla/python/tokenspeed_mla/fmha.py:3549-3630 | Every run of the concurrent kernel that cannot be continued has finished and has stored, for every tile, half and valid row, the reference attention. |
| FmhaAttention.KernelLseRightIff | tokenspeed-mla/python/tokenspeed_mla/fmha.py:307-315 | The log-sum-exp stored with it is the reference's if and only if queries are not 8-bit or corrections are skipped; otherwise the prescale is left in. |
| FusedMask.CountsTile | tokenspeed-mla/python/tokenspeed_mla/fmha_helpers.py:600-915 | The leading, unmasked and trailing counts are not negative and add up to the trip count, which is at least one. |
| FusedMask.VisibleIsVisited | tokenspeed-mla/python/tokenspeed_mla/fmha_helpers.py:445-543 | Every key a row of the block may attend to lies in a visited tile. |
| FusedMask.UnmaskedIsVisible | tokenspeed-mla/python/tokenspeed_mla/fmha_helpers.py:836-849 | Every key of a tile visited without a mask is visible to every row of the block, when the shapes are covered. |
| FusedMask.CleanIffCovered | tokenspeed-mla/python/tokenspeed_mla/fmha_helpers.py:752-771 | No tile visited without a mask holds an invisible key if and only if the mask is residual, has a window, or the keys fill their tiles. |
| FusedMask.UncoveredLeaks | tokenspeed-mla/python/tokenspeed_mla/fmha_helpers.py:752-771 | In all other cases the last tile is visited without a mask and holds a key past the end. |
| FusedMask.WindowlessLeak | tokenspeed-mla/python/tokenspeed_mla/fmha_helpers.py:752-771 | A concrete block for which it does. |
| FusedMask.SomeKeyVisible | tokenspeed-mla/python/tokenspeed_mla/fmha_helpers.py:1047-1075 | Every valid row has a visible key. |
| FusedMask.ApplyMask | tokenspeed-mla/python/tokenspeed_mla/fmha_helpers.py:1047-1075 | In place, a score survives exactly where the reference mask shows the key; a window mask without windows changes nothing. |
| OnlineSoftmax.ReduceMax | tokenspeed-mla/python/tokenspeed_mla/fmha.py:2007-2020 | The maximum of a masked tile's scores. |
| OnlineSoftmax.PairedMax | tokenspeed-mla/python/tokenspeed_mla/fmha.py:2053-2135 | The unrolled two-lane maximum is the maximum of the tile. |
| OnlineSoftmax.RaiseMax | tokenspeed-mla/python/tokenspeed_mla/fmha.py:2183-2190 | The carried maximum: zero if everything is masked, and raised only past the threshold. |
| OnlineSoftmax.Exponentiate | tokenspeed-mla/python/tokenspeed_mla/fmha.py:2311-2342 | Scores become probabilities in place, and the two lanes add up to their seeds plus the sum of all of them. |
| OnlineSoftmax.SoftmaxStep | tokenspeed-mla/python/tokenspeed_mla/fmha.py:1936-2349 | One step, masked or not, leaves the tile's probabilities in place, passes on the old and new maximum, and moves the row's sum and maximum on. |
| OnlineSoftmax.LanesAdd | tokenspeed-mla/python/tokenspeed_mla/fmha.py:2236-2312 | Two lanes, each seeded with half of the rescaled sum, conserve it. |
| OnlineSoftmax.TileSums | tokenspeed-mla/python/tokenspeed_mla/fmha.py:2311-2349 | A tile's probabilities and their products with the values are the reference weights and mix, relative to any maximum. |
| OnlineSoftmax.StepFits | tokenspeed-mla/python/tokenspeed_mla/fmha.py:1936-2349 | Every step keeps the sum relative to the maximum it carries, also when the maximum is not raised and when all keys are masked. |
| OnlineSoftmax.OutputStepFits | tokenspeed-mla/python/tokenspeed_mla/fmha.py:2732-2769 | Rescaling O and adding a product keeps O relative to the new maximum. |
| OnlineSoftmax.OutputStarts | tokenspeed-mla/python/tokenspeed_mla/fmha.py:1636-1671 | The first product of a tile starts O afresh. |
| OnlineSoftmax.EqualNeedsNoRescale | tokenspeed-mla/python/tokenspeed_mla/fmha.py:2732-2769 | Where the maximum did not move, skipping the rescale changes nothing. |
| OnlineSoftmax.RowAfterFits | tokenspeed-mla/python/tokenspeed_mla/fmha.py:2554-2629 | The invariant of the sum holds after any number of tiles. |
| OnlineSoftmax.OutputAfterFits | tokenspeed-mla/python/tokenspeed_mla/fmha.py:2732-2769 | The invariant of O holds after any number of tiles. |
| OnlineSoftmax.EndOfRow | tokenspeed-mla/python/tokenspeed_mla/fmha.py:2926-2962 | Dividing O by the sum gives the reference attention, whatever maximum was carried. |
| OnlineSoftmax.LseIsOff | tokenspeed-mla/python/tokenspeed_mla/fmha.py:2958-2962 | The stored log-sum-exp is the reference's plus the prescale times ln 2. |
| OnlineSoftmax.LseRightIff | tokenspeed-mla/python/tokenspeed_mla/fmha.py:2958-2962 | It is the reference's if and only if queries are not 8-bit or corrections are skipped. |
| OnlineSoftmax.LseOffAtOneKey | tokenspeed-mla/python/tokenspeed_mla/fmha.py:2958-2962 | For 8-bit queries without skipped corrections, the row whose one visible key has score zero stores 8 ln 2 > 0, where the reference's log-sum-exp is zero. |
| OnlineSoftmax.ProbBounded | tokenspeed-mla/python/tokenspeed_mla/fmha.py:2183-2205 | No probability exceeds two to the threshold plus the prescale. |
| OnlineSoftmax.ProbFits448 | tokenspeed-mla/python/tokenspeed_mla/fmha.py:307-315 | With the chosen threshold and prescale, every probability is at most 448. |
| OnlineSoftmax.PrescaleIs | tokenspeed-mla/python/tokenspeed_mla/fmha.py:311-313 | The prescale is 8 without skipped corrections and 0 with them. |
| TileScheduler.WalksPartition | tokenspeed-mla/python/tokenspeed_mla/fmha_helpers.py:257-269 | An index is taken by exactly one block, in exactly one iteration of its walk. |
| TileScheduler.CoordRoundTrip | tokenspeed-mla/python/tokenspeed_mla/fmha_helpers.py:215-246 | An index below the problem size has a coordinate in the shape, which has that index. |
| TileScheduler.IndexRoundTrip | tokenspeed-mla/python/tokenspeed_mla/fmha_helpers.py:215-246 | A coordinate in the shape has an index below the problem size, which has that coordinate. |
| TileScheduler.PrefillScheduler.Advance | tokenspeed-mla/python/tokenspeed_mla/fmha_helpers.py:257-269 | A persistent block moves on by the grid size; any other has had its only tile. |
| TileScheduler.PrefillWork | tokenspeed-mla/python/tokenspeed_mla/fmha_helpers.py:215-269 | The work loop of a persistent block ends, having visited the coordinates of its walk in order. |
| TileScheduler.PrefillWorkOnce | tokenspeed-mla/python/tokenspeed_mla/fmha_helpers.py:215-269 | The work loop of a block of the full grid ends, having visited its own coordinate. |
| TileScheduler.PrefillCoverage | tokenspeed-mla/python/tokenspeed_mla/fmha_helpers.py:180-189 | For any shape and any number of multiprocessors, every coordinate is at exactly one place of exactly one block's visited sequence. |
| TileScheduler.PrefillInside | tokenspeed-mla/python/tokenspeed_mla/fmha_helpers.py:215-246 | Nothing else is visited. |
| TileScheduler.DecodeCoordRoundTrip | tokenspeed-mla/python/tokenspeed_mla/mla_helpers.py:294-319 | An index of the decode kernel below the problem size has a coordinate, which has that index. |
| TileScheduler.DecodeIndexRoundTrip | tokenspeed-mla/python/tokenspeed_mla/mla_helpers.py:294-319 | A coordinate of the decode kernel has an index, which has that coordinate. |
| TileScheduler.GridCoverage | tokenspeed-mla/python/tokenspeed_mla/mla_helpers.py:276-319 | In the full grid exactly one block has each coordinate. |
| TileScheduler.GridInside | tokenspeed-mla/python/tokenspeed_mla/mla_helpers.py:276-319 | Every block of the full grid has a coordinate in the shape. |
| TileScheduler.DecodeInside | tokenspeed-mla/python/tokenspeed_mla/mla_helpers.py:276-328 | A persistent block visits nothing outside the shape. |
| TileScheduler.DecodeScheduler.Advance | tokenspeed-mla/python/tokenspeed_mla/mla_helpers.py:324-328 | A persistent block moves on by the grid size; any other is done. |
| TileScheduler.DecodeWork | tokenspeed-mla/python/tokenspeed_mla/mla_helpers.py:294-328 | The work loop of a persistent decode block ends, having visited the coordinates of its walk in order. |
| TileScheduler.DecodeCoverage | tokenspeed-mla/python/tokenspeed_mla/mla_helpers.py:276-328 | Every coordinate of the decode kernel is at exactly one place of exactly one persistent block's visited sequence. |
| TileScheduler.ClusterTogether | tokenspeed-mla/python/tokenspeed_mla/mla_helpers.py:276-328 | In every iteration the blocks of a cluster hold the same sequence, batch and split, each with its own place in the cluster, and run out together. |
| MlaDecode.LayoutIsTight | tokenspeed-mla/python/tokenspeed_mla/mla_helpers.py:62-77 | All tiles but the last are full, and the last holds between one row and a tile of them. |
| MlaDecode.PackRoundTrip | tokenspeed-mla/python/tokenspeed_mla/mla_helpers.py:62-77 | Unpacking the row a token and head are packed into gives them back, and the row is a valid one. |
| MlaDecode.UnpackRoundTrip | tokenspeed-mla/python/tokenspeed_mla/mla_helpers.py:62-77 | Every valid row belongs to a token and a head that are packed into it. |
| MlaDecode.FoldSqFactor | tokenspeed-mla/python/tokenspeed_mla/mla_helpers.py:80-91 | The search returns the largest divisor of the query length whose heads fit a tile, or one. |
| MlaDecode.PackingNeverMore | tokenspeed-mla/python/tokenspeed_mla/mla_decode.py:986-1001 | Packing never needs more tiles than a legal fold. |
| MlaDecode.ChooseLayout | tokenspeed-mla/python/tokenspeed_mla/mla_decode.py:986-1001 | Packing is chosen exactly when it is possible and saves tiles, and then no legal fold needs fewer. |
| MlaDecode.WindowKept | tokenspeed-mla/python/tokenspeed_mla/mla_decode.py:930-953 | An accepted window admits the whole query block, no visible key is dropped, and no request keeps more keys than the clamped length. |
| MlaDecode.NormalizedSplit | tokenspeed-mla/python/tokenspeed_mla/mla_decode.py:122-137 | The normalized split is between one and the candidate, keeps its width, leaves no partition empty and is idempotent. |
| MlaDecode.SplitKv | tokenspeed-mla/python/tokenspeed_mla/mla_decode.py:120-143 | The split of 8-bit keys is the normalized one of the candidate raised to the minimum, otherwise that candidate; it is refused exactly when a minimum above one was asked for and the workspace reaches 2^31. |
| MlaDecode.Sm107SplitKv | tokenspeed-mla/python/tokenspeed_mla/mla_decode.py:456-468 | The packed kernel's split is the normalized one, and it is refused exactly when it exceeds the limit or its workspace the 32-bit range. |
| MlaDecode.PartitionsCover | tokenspeed-mla/python/tokenspeed_mla/mla_decode_fp8.py:2109-2126 | For any request and any split, every key tile is in exactly one partition. |
| MlaDecode.NoneEmptyIff | tokenspeed-mla/python/tokenspeed_mla/mla_decode_fp8.py:2109-2126 | For any request and any split, no partition is empty if and only if the last one starts inside the request. |
| MlaDecode.SpanBounds | tokenspeed-mla/python/tokenspeed_mla/mla_decode.py:948-951 | A request reaches at most one tile more than the split is sized for, and none more without a window. |
| MlaDecode.NoEmptyPartition | tokenspeed-mla/python/tokenspeed_mla/mla_decode.py:120-130 | With a normalized split, a request that reaches the tiles it is sized for has no empty partition, and one that reaches a tile more has none if and only if the split does not divide the tiles or is at most one more than the tiles of a partition. |
| MlaDecode.WindowedSplit | tokenspeed-mla/python/tokenspeed_mla/mla_decode.py:948-951 | A window of 511 keys and one query, in tiles of 128, may be split into four partitions. |
| MlaDecode.WindowedSpan | tokenspeed-mla/python/tokenspeed_mla/mla_decode_fp8.py:2109-2126 | A request of 576 keys under that window reaches five tiles. |
| MlaDecode.WindowedEmpty | tokenspeed-mla/python/tokenspeed_mla/mla_decode_fp8.py:2109-2126 | Then the last of the four partitions is empty. |
| MlaDecode.ReducerIsLeast | tokenspeed-mla/python/tokenspeed_mla/mla_decode.py:83-85 | The reducer capacity is the least power of two that is at least four and covers the split. |
| RequestRuns.StepConserves | tokenspeed-scheduler/csrc/fsm/forward_events.cpp:36-275 | Every event keeps each page's reference count equal to the references held, and each row in the place or places it had. |
| RequestRuns.RunConserves | tokenspeed-scheduler/csrc/fsm/forward_events.cpp:36-255 | Over any interleaving of events on any number of requests, page counts equal references held, also while tables grow and expired pages are reclaimed, and each row is free, with one request, or with one restore operation. |
| RequestRuns.KeptReclaim | tokenspeed-scheduler/csrc/cache/allocator/group_allocator.h:309-318 | Reclaiming an expired page of a live request drops its one reference and leaves a hole in its slot; every other slot keeps its page and its place. |
| RequestRuns.RowHasOneOwner | tokenspeed-scheduler/csrc/fsm/forward_events.cpp:227-255 | A row a request owns is not free, with no operation, and with no other request. |
| RequestRuns.RunAccounts | tokenspeed-scheduler/csrc/fsm/forward_events.cpp:103-205 | In every run a request's tables are freed exactly once for each time they were granted, and a request being restored holds no row. |
| RequestProgress.RunInFlight | tokenspeed-scheduler/csrc/fsm/forward_states.h:130-139 | In every run the count a request carries is exactly the forwards scheduled, less the results landed, since it got its pages. |
| RequestProgress.FreedWhenLanded | tokenspeed-scheduler/csrc/fsm/forward_events.cpp:125-205 | A release or a retraction happens only when every forward scheduled for the request has landed, and leaves nothing held. |
| RequestProgress.RunTokens | tokenspeed-scheduler/csrc/fsm/forward_events.h:300-345 | In every run a request's tokens are its prompt and, in order, every token a result brought it; intermediate and remote chunks bring none. |
| RequestRuns.OthersKept | tokenspeed-scheduler/csrc/scheduler/outside_event_handler.cpp:147-222 | An event changes no request but the one it is for. |
| RequestProgress.RunChunks | tokenspeed-scheduler/csrc/fsm/forward_events.cpp:52-84 | In every configuration of a run, the chunks of a request follow one another and fit its state, through any number of retractions and restores. |
| RequestProgress.ChunksTile | tokenspeed-scheduler/csrc/core/token_container.h:33-53 | Chunks that follow one another put every token from the first to the last in exactly one chunk, and no other token in one. |
| RequestProgress.PrefillTiles | tokenspeed-scheduler/csrc/fsm/forward_events.cpp:52-84 | With chunks that do not overshoot, a request is past prefill exactly when its chunks tile the prompt from the cache hit to its end; only the first replays, and tokens appended later do not move the end. |
| RequestProgress.SuspendedAfter | tokenspeed-scheduler/csrc/fsm/forward_events.cpp:186-275 | A retracted request stays suspended where it was, ends, or is resumed by the acknowledgement of its own restore. |
| RequestProgress.RestoreRoundTrip | tokenspeed-scheduler/csrc/fsm/forward_events.cpp:186-275 | A request that is retracted and continues does so in the same kind of state, with the same tokens, window, reserve and cache progress, and marked as resumed. |
| RequestProgress.StoresLandFirst | tokenspeed-scheduler/csrc/fsm/forward_events.h:233-247 | Every store a retraction left pending has landed before the restore. |
| TokenContainer.PagesJoin | tokenspeed-scheduler/csrc/core/token_container.cpp:31-48 | The pages, one after the other, are the tokens they cover. |
| TokenContainer.PagesStay | tokenspeed-scheduler/csrc/core/token_container.cpp:27-48 | Appending tokens never changes a page that was full. |
| TokenContainer.RunPagesStay | tokenspeed-scheduler/csrc/core/token_container.cpp:27-48 | A page of a request that is full at some point of a run of the state machine is the same page ever after. |
| TokenContainer.ChunksFeedPrompt | tokenspeed-scheduler/csrc/core/token_container.cpp:50-52 | What chunks that follow one another feed is the tokens from the first to the last of them. |
| TokenContainer.PrefillFeedsPrompt | tokenspeed-scheduler/csrc/core/token_container.cpp:50-52 | What the chunks of a request past prefill have fed, in any run, is its prompt from the cache hit to its end. |
| TokenContainer.Container.Extend | tokenspeed-scheduler/csrc/core/token_container.cpp:27-29 | Tokens are appended; the length of the prompt stays. |
| TokenContainer.Container.FullPrefixPages | tokenspeed-scheduler/csrc/core/token_container.cpp:31-48 | The loop returns exactly the full pages, with or without the last token. |
| TokenContainer.RowPool.Allocate | tokenspeed-scheduler/csrc/resource/allocator/req_pool_allocator.cpp:64-72 | The row handed out, or the refusal, is the one the state machine's transitions take; a refusal leaves the pool as it is. |
| TokenContainer.RowPool.Deallocate | tokenspeed-scheduler/csrc/resource/allocator/req_pool_allocator.cpp:82-84 | A returned row goes to the end of the queue. |
| KernelSelection.RankFront | tokenspeed-kernel/python/tokenspeed_kernel/selection.py:377-390 | The head of the ranking is the first of the best, and nothing outranks it. |
| KernelSelection.BestIs | tokenspeed-kernel/python/tokenspeed_kernel/selection.py:377-390 | The best is a member nothing outranks and everything before it falls short of. |
| KernelSelection.PickIs | tokenspeed-kernel/python/tokenspeed_kernel/selection.py:720-799 | If a kernel fits, one is picked, and no kernel that fits outranks it. |
| KernelSelection.PickFits | tokenspeed-kernel/python/tokenspeed_kernel/selection.py:427-562 | A picked kernel is registered, eligible and fits. |
| KernelSelection.SameBestIff | tokenspeed-kernel/python/tokenspeed_kernel/selection.py:322-344 | Absent and empty traits, which share a cache key, have the same answer for every list of the given kernels if and only if the oracle orders every two of them alike for both. |
| KernelSelection.SharedEntryIff | tokenspeed-kernel/python/tokenspeed_kernel/selection.py:322-344 | For two eligible kernels they are answered alike if and only if the oracle orders the two alike. |
| KernelSelection.KeyDecides | tokenspeed-kernel/python/tokenspeed_kernel/selection.py:322-344 | Requests with one key are answered alike if they have traits, whatever the oracle, and without traits if it orders the operator's kernels alike. |
| KernelSelection.AbsentTraitsConflated | tokenspeed-kernel/python/tokenspeed_kernel/selection.py:322-344 | A concrete oracle and two requests with one key and different answers. |
| KernelSelection.ScopesRestore | tokenspeed-kernel/python/tokenspeed_kernel/selection.py:825-839 | Properly nested override scopes restore the overrides exactly. |
| KernelRegistry.SortDescends | tokenspeed-kernel/python/tokenspeed_kernel/registry.py:283-294 | Operator lists are sorted by descending priority and keep their members. |
| KernelRegistry.SortAppended | tokenspeed-kernel/python/tokenspeed_kernel/registry.py:283-294 | Appending to a sorted list and sorting again is the same as sorting everything in the order of registration: ties stay in that order. |
| KernelRegistry.SortWithout | tokenspeed-kernel/python/tokenspeed_kernel/registry.py:296-303 | Removing a kernel from a sorted list is the same as sorting what remains. |
| KernelRegistry.ForcedIs | tokenspeed-kernel/python/tokenspeed_kernel/selection.py:565-603 | An override selects the named kernel or one of the named solution, and only with every required feature. |
| KernelRegistry.Registry.Register | tokenspeed-kernel/python/tokenspeed_kernel/registry.py:283-294 | Registration, also of a name known under another operator, keeps lists, index, implementations and cache in agreement with the kernels registered, for every oracle, and drops the operator's cache entries. |
| KernelRegistry.Registry.Unregister | tokenspeed-kernel/python/tokenspeed_kernel/registry.py:296-303 | So does removal. |
| KernelRegistry.Registry.SetPolicy | tokenspeed-kernel/python/tokenspeed_kernel/selection.py:306-311 | A policy change empties the cache. |
| KernelRegistry.CachePut | tokenspeed-kernel/python/tokenspeed_kernel/selection.py:788-799 | Memoizing an answer keeps every cache entry current, for every oracle. |
| KernelRegistry.Registry.Select | tokenspeed-kernel/python/tokenspeed_kernel/selection.py:678-799 | A cache entry answers if there is one. For a request with traits the answer is what the filter-and-rank pipeline returns now, whatever the oracle; without traits it is that for absent or for empty traits, and the request's own where the oracle orders the operator's kernels alike. An override goes past the cache. |
| KernelRegistry.SelectTwice | tokenspeed-kernel/python/tokenspeed_kernel/selection.py:678-799 | Of two requests with one key, the second gets the first one's answer. |
| KernelRegistry.WrongSelection | tokenspeed-kernel/python/tokenspeed_kernel/selection.py:322-344 | A registry of two kernels and two calls, the second of which is not answered as the pipeline would. |
| KernelRegistry.Registry.Pipeline | tokenspeed-kernel/python/tokenspeed_kernel/selection.py:720-799 | The pipeline computes the answer for the kernels registered, or the reason there is none. |
| KernelPlan.PlanIgnoresOrder | tokenspeed-kernel/python/tokenspeed_kernel/selection.py:107-184 | The same kernels, registered in any order, give the same plan. |
| KernelPlan.PlanIsBest | tokenspeed-kernel/python/tokenspeed_kernel/selection.py:107-184 | Nothing plannable outranks the planned kernel, and of its equals it has the least name. |
| KernelPlan.PlanStaysValid | tokenspeed-kernel/python/tokenspeed_kernel/selection.py:186-226 | A plan accepts its static traits with any values of the variable ones if and only if sizes among them fit the kernel's alignment and no empty solution was asked of a kernel that has one. |
| KernelPlan.OrdinaryVariablesAccepted | tokenspeed-kernel/python/tokenspeed_kernel/selection.py:186-226 | Variables other than the two sizes are accepted whatever their values. |
| KernelPlan.UnscreenedSize | tokenspeed-kernel/python/tokenspeed_kernel/selection.py:399-424 | A concrete plan whose kernel refuses a value of a variable size. |
| KernelPlan.EmptySolutionRefused | tokenspeed-kernel/python/tokenspeed_kernel/selection.py:186-226 | A concrete plan that refuses the empty solution it was made with. |
| CaptureArena.TakeKeepsGood | tokenspeed-kernel/python/tokenspeed_kernel/workspace.py:65-82 | A slice is in bounds, 256-aligned and disjoint from all others; a take fails exactly when what is left is too small; some take failed exactly when more was wanted than there is. |
| CaptureArena.RunOrdered | tokenspeed-kernel/python/tokenspeed_kernel/workspace.py:146-178 | All this holds over any nesting of sessions and any sequence of requests and failures. |
| CaptureArena.RepeatFits | tokenspeed-kernel/python/tokenspeed_kernel/workspace.py:146-178 | Over any run, a session entered after another was completed never falls back while what it has asked for is among what the completed one asked for, each as often at most and in any order, whatever is nested in it. |
| CaptureArena.RepeatCompletes | tokenspeed-kernel/python/tokenspeed_kernel/workspace.py:146-178 | Leaving such a session completes it without a fallback, and so without the warning. |
| CaptureArena.EnteredHasRoom | tokenspeed-kernel/python/tokenspeed_kernel/workspace.py:161-164 | For as long as it is open, a session's arena has room for twice what any session completed before it wanted. |
| CaptureArena.SessionStack.EnterSession | tokenspeed-kernel/python/tokenspeed_kernel/workspace.py:161-164 | A session's arena is sized from the peak of the completed ones. |
| CaptureArena.SessionStack.ZeroedState | tokenspeed-kernel/python/tokenspeed_kernel/workspace.py:124-133 | The innermost arena serves the request, or the caller falls back. |
| CaptureArena.SessionStack.LeaveSession | tokenspeed-kernel/python/tokenspeed_kernel/workspace.py:165-176 | Leaving normally records the peak and warns exactly when a launch fell back; leaving by an exception records nothing. |
| CompileMonitor.RunReports | tokenspeed-kernel/python/tokenspeed_kernel/compile_monitor.py:181-207 | Over any run the k-th report of a parameter and site holds the first (limit + 2) * 2^k - 1 values of its list; there is one for every such length the list has reached and no other, and so they are logarithmic in its length. |
| CompileMonitor.RunLists | tokenspeed-kernel/python/tokenspeed_kernel/compile_monitor.py:181-201 | Over any run lists hold distinct compiled values, none a whole power of two, no value is on two lists of one parameter, and nothing is listed before serving begins. |
| CompileMonitor.ListedAreNew | tokenspeed-kernel/python/tokenspeed_kernel/compile_monitor.py:189-201 | A value listed after some point of a run was not compiled for its kernel, from any site, before that point. |
| CompileMonitor.NotAtStartup | tokenspeed-kernel/python/tokenspeed_kernel/compile_monitor.py:189-201 | No listed value was compiled before serving began. |
| CompileMonitor.NewAreListed | tokenspeed-kernel/python/tokenspeed_kernel/compile_monitor.py:189-201 | Conversely, a value first compiled while serving is listed at some site, unless it is a power of two. |
| CompileMonitor.RecordedKeepsLists | tokenspeed-kernel/python/tokenspeed_kernel/compile_monitor.py:181-201 | Recording one value keeps the lists of distinct values, none a power of two, apart from one another. |
| CompileMonitor.ReportsOnSchedule | tokenspeed-kernel/python/tokenspeed_kernel/compile_monitor.py:202-207 | A value is reported exactly when it brings the list to the next threshold, the k-th of which is (limit + 2) * 2^k - 1. |
| CompileMonitor.ReportsAreFew | tokenspeed-kernel/python/tokenspeed_kernel/compile_monitor.py:202-207 | Reports are logarithmic in the number of values. |
| CompileMonitor.RecordedReports | tokenspeed-kernel/python/tokenspeed_kernel/compile_monitor.py:202-207 | A value that counts is reported exactly when its list outgrows the limit and twice its last report; no other list's last report changes. |
| CompileMonitor.PowerOfTwoIs | tokenspeed-kernel/python/tokenspeed_kernel/compile_monitor.py:114-115 | The test recognises exactly the whole powers of two. |
| CompileMonitor.Monitor.StartServing | tokenspeed-kernel/python/tokenspeed_kernel/compile_monitor.py:385-390 | Serving starts, and nothing else changes. |
| CompileMonitor.RecordItems | tokenspeed-kernel/python/tokenspeed_kernel/compile_monitor.py:189-207 | The loop leaves the history of the run that the items continue, and returns exactly the reports they add to it. |
| CompileMonitor.Monitor.Record | tokenspeed-kernel/python/tokenspeed_kernel/compile_monitor.py:162-207 | A call continues the monitor's run by its items and returns exactly the reports they add, so that what all calls returned is what the run theorems speak of; startup and serving counts add up to the number of calls. |

## Left out

- Float rounding, the conversion of P to 8 bits and the polynomial exponential: values are reals, and
  exponential and logarithm are parameters with their laws.
- One lane of a half and one column of the output at a time stand for all of them: the kernel treats
  lanes and columns alike and independently.
- The internals of the pipelines: a ring is its counters, copies into shared memory land when the load
  warp issues them, and the tensor core performs what it is given in order.
- The skip-softmax approximation, which the callers never enable.
- Tiles that variable-length batches skip, and the epilogue for sequences without keys: a tile here has
  at least one key.
- Masks with fewer keys than queries, for which the counts can be negative, and the backward masks,
  which the forward kernel does not use.
- RequestRuns.RunConserves: the coordinator that owns the pages is a multiset of references; which pages
  it picks, evicts, reclaims or shares, and when, is not modelled.
- RequestProgress.RestoreRoundTrip: forwards in flight are not compared, since a retraction requires
  none; the stored image and checkpoint blocks are not modelled.
- Which event the scheduler issues when: every accepted sequence of events is a run.
- The state machine keeps the shared resources in one value that a transition maps to the next, instead
  of updating them in place.
- MlaDecode.SplitKv: the occupancy candidate and the workspace size of each split are inputs.
- MlaDecode.ChooseLayout: the tile heights of the kernel variants, and rounding up for blocks in pairs,
  are inputs.
- KernelRegistry.Registry.Select: the four dictionaries of the registry are kept in one record; tuning
  ranks as the heuristic does; oracles changed after a selection, and architectures shared by vendors,
  are not covered.
- Override scopes are a function on the override table rather than updates of it, and what the
  environment, the scopes and the call site resolve to is an input of selection.
- Names, solutions and traits are numbers or constructors; conversions of text to numbers and malformed
  bounds are not modelled.
- CompileMonitor.Monitor.Record: times, the description of what changed, logging and raising instead of
  warning are not modelled.
- CaptureArena.SessionStack.ZeroedState: buffers outside of captures, device checks and the resources an
  owner retains are not modelled.
- Of the decode kernels only the partition of the keys is modelled, not their loads, products, softmax
  or reduction.
- Weights, signatures beyond equality and layouts, and all input and output are not modelled.
