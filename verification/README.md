# Verified model of TokenSim

TokenSim simulates LLM serving. This project models the parts of it whose results the rest of the simulator relies on, and proves what they promise for every input and every run.

- **Collectives.** `collective_plan` compiles an all-reduce, all-gather or reduce-scatter into ring phases inside nodes and between nodes. Its plans are given a meaning on buffers of integers (`PlanSemantics.dfy`, `RingSemantics.dfy`), and every accepted plan computes its collective (`Collectives.dfy`). The wire volume, the timetable of a phase and the service of a plan are modelled beside it, as is `all_to_all_plan`.
- **KV blocks.** The block pools, the free queue with lazily invalidated entries, the prefix index, the block table and the block manager are a state machine on values (`KvPool.dfy` to `KvRuns.dfy`) and classes that refine it (`FreeQueues.dfy`, `BlockManagers.dfy`). The cache of key chains and the replica manager with one block manager per rank build on it.
- **Scheduling.** One step of the paged-attention scheduler and whole runs of it (`Scheduling.dfy` to `SchedulingReachable.dfy`), and the class that runs them on a block manager (`PagedSchedulers.dfy`).
- **The external store.** The two-tier Mooncake store with its memory and offload tier.
- **Attention work and expert routing.** Closed forms against the sums they stand for, and histograms against dealing routes one at a time.

Code that changes things step by step is a class or a method with a loop; its contract ties the new state to a function on values, and the results are lemmas about those functions. `WorldOk`, `StoreOk`, `Inv` and the like are the invariants. Integers are unbounded in the source as well (Python); times, rates and volumes are `real`.

Where code and documentation differ, the model follows the code. One property turned out to be false of the code: equal rank managers do not stay equal under every operation. A reservation that runs out of blocks leaves the first rank changed and the others untouched; `ReplicaManagers.ReplicaManager.Reserve` states exactly when that happens and `ReplicaManagers.LockstepBreaks` gives an instance.

## Model

| member | source | states |
|---|---|---|
| Collectives.AllReduceCorrect | TokenSim/comm/traffic.py:86-122 | For every accepted placement and all inputs, running the all-reduce plan leaves every participant with the byte-wise sum over all participants. |
| Collectives.AllGatherCorrect | TokenSim/comm/traffic.py:123-170 | For every accepted placement, running the all-gather plan leaves every participant with all inputs one after the other in participant order, layout permutation included. |
| Collectives.ReduceScatterCorrect | TokenSim/comm/traffic.py:171-221 | For every accepted placement, running the reduce-scatter plan leaves the i-th participant with the i-th shard of the sum and nothing else. |
| HierarchicalAllGather.AllGatherHierarchy | TokenSim/comm/traffic.py:124-170 | On any grid of nodes and slots, slot gathers followed by node gathers and the permutation amount to one gather of the whole grid. |
| CollectiveBuilder.BuildCollectivePlan | TokenSim/comm/traffic.py:61-222 | The loops build exactly the phases of the plan, and refuse exactly the inputs that are not nonempty, unique, mapped, aligned and equally many per node; no sub-phase check fails after the first one passed. |
| WireBytes.PlanMovesRingVolume | TokenSim/comm/traffic.py:71-222 | Every accepted plan, hierarchical or flat, moves exactly the bytes of one flat ring: 2(N-1)S for all-reduce, N(N-1)S for all-gather, (N-1)S for reduce-scatter. |
| PhaseSchedule.TimetableSends | TokenSim/comm/traffic_types.py:130-165 | The timetable lists every message with bytes to send, once, in order and under its round, and no other. |
| PhaseSchedule.TimetableKeeps | TokenSim/comm/traffic_types.py:130-165 | Every message starts as soon as its round and its resources allow and takes its service time, no two overlap on a resource, and rounds follow one another. |
| PhaseSchedule.PhaseServiceBounds | TokenSim/comm/traffic_types.py:167-168 | A phase takes at least as long as any of its resources is busy and at most as long as all its messages together. |
| PhaseSchedule.RelativeTimetable | TokenSim/comm/traffic_types.py:130-165 | The loops compute the timetable, and fail exactly if some message has a negative volume. |
| PlanSchedule.Service | TokenSim/comm/traffic_types.py:186-214 | The service loop returns the makespan of the schedule, or fails exactly when no phase is ready. |
| PlanSchedule.ScheduleCompletes | TokenSim/comm/traffic_types.py:186-196 | A plan is scheduled to the end if and only if no set of its phases waits for itself or for a phase that does not exist. |
| PlanSchedule.ServiceGuarantees | TokenSim/comm/traffic_types.py:186-214 | In every plan whose phases wait for earlier ones only, all phases are placed once, never before their predecessors end and never two at a time on a resource, and the makespan is at least every resource's load and every dependency chain and at most the sum of all services. |
| PlanService.CollectiveServed | TokenSim/comm/traffic_types.py:130-214 | Every phase of every accepted collective plan has a timetable, and the plan is served to the end with the guarantees above. |
| AllToAll.InterVolume | TokenSim/comm/traffic.py:333-373 | The phases between nodes carry exactly the remote share of what all participants send, whatever the imbalance. |
| AllToAll.AllToAllServed | TokenSim/comm/traffic.py:374-418 | For every valid demand each all-to-all phase has a timetable, and the plan is served to the end with the same guarantees. |
| AllToAllBuilder.FillLists | TokenSim/comm/traffic.py:329-373 | One pass over the participants, whatever their order, fills the local, remote and target lists with the messages of every group, pair of nodes and node. |
| AllToAllBuilder.BuildAllToAll | TokenSim/comm/traffic.py:281-432 | The loops build the phases of the plan, and refuse exactly the inputs that break a check. |
| FreeQueues.FreeBlockQueue.PopLeft | TokenSim/block/free_queue.py:72-82 | With stale entries skipped, the queue hands out the longest queued uncached block, else the least recently touched cached one, and fails exactly when it is empty. |
| FreeQueues.FreeBlockQueue.AppendLru | TokenSim/block/free_queue.py:64-71 | A cached block is queued by its access stamp, and only there, whatever entries it had before. |
| FreeQueues.FreeBlockQueue.RemoveBlock | TokenSim/block/free_queue.py:83-91 | Removing takes exactly that block out of the order in which blocks will be handed out. |
| KvPool.Conservation | TokenSim/block/block_pool.py:27-45 | Free and referenced blocks always add up to the capacity. |
| KvCache.AllocateOk | TokenSim/block/block_manager.py:32-50 | A block handed out had no holder and comes back clean with one reference; every other block and every index entry not leading to it stays. |
| KvRuns.RunsAreConsistent | TokenSim/block/block_manager.py:126-316 | After any sequence of operations, failed ones included, each block has as many references as it occurs in the block table and the reservations, the queued blocks are exactly the unreferenced materialised ones, and free plus referenced blocks make the capacity. |
| KvRuns.HitsAreSound | TokenSim/block/kv_cache_manager.py:54-75 | After any legal run, what a request is offered for place i is a GPU block published under the key of that place, everybody holding it has the same leading blocks in the same scope, and the offer ends only at the first key without such a block. |
| KvAdmission.AdmissionSound | TokenSim/block/block_manager.py:126-156 | If admission is granted, allocation succeeds: the row is the hits followed by fresh blocks that nobody else holds, with one reference each, and no hit is evicted on the way. |
| BlockManagers.BlockManager.PlanHits | TokenSim/block/kv_cache_manager.py:54-63 | The loop over the keys finds exactly the leading run of published GPU blocks. |
| BlockManagers.BlockManager.AllocateRequest | TokenSim/block/block_manager.py:135-156 | Allocation takes the hits, then the misses, and gives everything back in reverse order when blocks run out. |
| BlockManagers.BlockManager.SwapRequest | TokenSim/block/block_manager.py:254-283 | A swap moves every block to the other device with its label, or changes nothing. |
| BlockManagers.BlockManager.FreeRequest | TokenSim/block/block_manager.py:173-189 | Freeing publishes input and output blocks and then gives up the row. |
| KvReservation.FailureUndone | TokenSim/block/block_manager.py:291-301 | A reservation that runs out of blocks leaves the manager as it was if and only if every block has been used before and no free block is cached. |
| ChainCaches.CommonPrefix | TokenSim/block/prefix_cache.py:80-94 | The binary search returns the length of the longest common prefix. |
| ChainCaches.ChainCache.Longest | TokenSim/block/prefix_cache.py:112-124 | The chain returned shares most with the signatures among all cached chains of the scope; none is returned only if none shares anything. |
| ChainCaches.StoredOk | TokenSim/block/prefix_cache.py:136-144 | Storing a chain that no cached one covers keeps the chains of a scope plain, pairwise incomparable and within their limit. |
| ChainCaches.ChainCache.BuildPrefixKeys | TokenSim/block/prefix_cache.py:150-178 | The keys are the plain hash chain whatever the cache holds, and the cache covers them afterwards. |
| ChainCaches.InputKeyMemo.InputKeys | TokenSim/block/kv_cache_manager.py:169-187 | The memo returns the plain keys of the prompt as long as no remembered id is used for another prompt. |
| PrefixKeys.KeyInjective | TokenSim/block/prefix_cache.py:55-77 | Equal keys stand for the same place, the same scope and the same leading blocks. |
| ReplicaRanks.Ranks.Everywhere | TokenSim/block/replica_kv.py:116-125 | A call is made on every rank in order; if one fails, exactly the ranks before it have made and undone theirs. |
| ReplicaRanks.FailedTogether | TokenSim/block/replica_kv.py:116-125 | Equal ranks fail together, hence on the first one, and nothing has to be undone. |
| ReplicaMappings.ChecksHold | TokenSim/block/replica_mapping.py:56-123 | On equal ranks with mappings up to date no check of `validate_invariants` fails. |
| ReplicaMappings.Remapped | TokenSim/block/replica_mapping.py:151-186 | Rebuilding the mappings of the one request whose row changed maps every logical block of every owner again, and nothing else. |
| ReplicaManagers.ReplicaManager.Allocate | TokenSim/block/replica_kv.py:96-129 | Allocation on equal ranks does on each what one manager would do; it fails exactly for a known request or when one manager could not allocate, and then changes nothing. |
| ReplicaManagers.ReplicaManager.Swap | TokenSim/block/replica_kv.py:200-225 | The same for swaps, including those refused on the wrong device. |
| ReplicaManagers.ReplicaManager.Reserve | TokenSim/block/replica_kv.py:251-260 | Equal ranks stay equal under a reservation if and only if there is one rank, enough blocks are free, or the pool is settled. |
| ReplicaManagers.LockstepBreaks | TokenSim/block/replica_kv.py:251-260 | Two ranks of one block each, asked for two blocks, end up different. |
| ReplicaManagers.ReplicaManager.ExecuteAll | TokenSim/block/replica_kv.py:89-264 | After any sequence of calls without such a reservation, every rank is in the state one single manager would be in, and all mappings and checks hold. |
| SchedulingResults.StepConserves | TokenSim/llm/paged_scheduling.py:28-128 | A step permutes running and waiting requests, schedules running ones once each within the token budget and with the right number of blocks, and leaves preempted ones waiting with none. |
| SchedulingResults.StepIsFair | TokenSim/llm/paged_scheduling.py:45-47 | No request is preempted that arrived before one the step schedules, and a step that preempts admits nobody. |
| SchedulingProgress.StepRespectsLimit | TokenSim/llm/paged_scheduling.py:119-121 | A step never raises the number of running requests above the limit. |
| SchedulingProgress.OldestRuns | TokenSim/llm/paged_scheduling.py:74-106 | Unthrottled, with a token to spend and nothing reserved, the oldest running request is scheduled whenever its blocks fit the pool at all. |
| SchedulingLine.StepKeepsLine | TokenSim/llm/paged_scheduling.py:74-128 | Running requests in order of arrival followed by the waiting ones make the same sequence before and after a step. |
| SchedulingRuns.RunsAreConsistent | TokenSim/llm/llm_request.py:362-402 | Over any run logical tokens are prompt plus output tokens, a decoding request has computed all but its newest token, waiting requests hold nothing, and a context under construction holds exactly its blocks. |
| SchedulingReachable.EveryStep | TokenSim/llm/paged_scheduling.py:28-128 | From the empty start, after any events, the next step conserves, is fair, keeps the line and the limit, and runs the oldest request under its conditions. |
| SchedulingReachable.RunInOrder | TokenSim/llm/llm_scheduler.py:422-429 | If requests arrive in order of time, at every moment the running ones arrived no later than the waiting ones and both are sorted. |
| SchedulingReachable.EveryRunDrains | TokenSim/llm/paged_scheduling.py:28-128 | Nobody starves: after any such run, if everybody fits the pool beside the watermark, everybody has finished once as many unthrottled ticks have passed as there are prompt and output tokens in the line. |
| PagedSchedulers.PagedScheduler.ReserveDecodeSlot | TokenSim/llm/paged_tokens.py:128-168 | The loop preempts from the youngest on until a block is free, at last the request itself. |
| PagedSchedulers.PagedScheduler.ScheduleStep | TokenSim/llm/paged_scheduling.py:28-128 | The loops over running and waiting requests do exactly the modelled step. |
| PagedSchedulers.PagedScheduler.CompleteStep | TokenSim/llm/llm_scheduler.py:395-401 | Advancing, publishing and freeing the scheduled requests gives exactly the modelled state. |
| PagedSchedulers.PagedScheduler.HandleAll | TokenSim/llm/llm_scheduler.py:373-464 | After any events the scheduler is in the state of the model, so that the results above hold of it. |
| OffloadTiers.WriteOk | TokenSim/mooncake/ssd.py:68-124 | A write keeps the tier's usage the sum of its blocks and within capacity; a refused write changes nothing and names itself. |
| OffloadTiers.WriteAt | TokenSim/mooncake/ssd.py:82-104 | A write evicts only keys whose pin has run out, and leaves every other key with size and pin. |
| OffloadTiers.WriteEvictsLeast | TokenSim/mooncake/ssd.py:82-100 | A write is refused exactly if evicting every unpinned key would not make room; the victims are the least recently used unpinned keys, and without the last of them there would be no room. |
| OffloadTiers.OffloadTier.WriteKey | TokenSim/mooncake/ssd.py:68-115 | The scan and the removals do exactly the modelled write, and fail exactly on a tier without capacity. |
| MooncakeModel.CandidateLeastRecent | TokenSim/mooncake/store.py:292-302 | The object chosen for eviction is the least recently used idle one; there is none exactly if every object in memory is busy. |
| MooncakeModel.EvictedOk | TokenSim/mooncake/store.py:306-323 | Evicting an idle object from memory keeps both tiers consistent and every busy object where it is. |
| MooncakeSafety.PutOneOk | TokenSim/mooncake/store.py:227-283 | Putting a key keeps the two-tier invariant and every busy object, whatever has to be evicted. |
| MooncakeSafety.PutRejected | TokenSim/mooncake/store.py:248-267 | A key is rejected only if memory cannot make room, because the block is larger than the memory, the policy does not evict or every object left in memory is busy, and the tier refuses it as well. |
| MooncakeSafety.GetOk | TokenSim/mooncake/store.py:118-149 | A read succeeds exactly if every key has a ready object, moves nothing, and holds what it read until it is over. |
| MooncakeRuns.BulkIsEach | TokenSim/mooncake/store.py:183-209 | Installing a batch of distinct keys at once does what putting one key after the other does. |
| MooncakeRuns.FastPathAgrees | TokenSim/mooncake/store.py:166-218 | A batch without repeated keys ends up the same on the fast path and on the slow one. |
| MooncakeRuns.HitsAreReady | TokenSim/mooncake/store.py:67-97 | A lookup returns the longest leading run of ready objects, so the second check on the tier never matters. |
| MooncakeRuns.NewStoreOk | TokenSim/mooncake/store.py:47-65 | The empty store meets the invariant, without a tier or with one of at least one block. |
| MooncakeRuns.RunsAreConsistent | TokenSim/mooncake/store.py:166-364 | After any run the memory holds exactly the listed objects with their bytes within capacity, exactly the persisted objects are in the tier, offloaded ones among them, and the tier is within its capacity. |
| MooncakeRuns.BusyStays | TokenSim/mooncake/store.py:285-345 | Until its write is complete and its reads are over, no run moves or drops an object. |
| MooncakeRuns.ReadsAreSafe | TokenSim/mooncake/store.py:118-149 | What a successful read returned stays in the tier it was read from until the read is over, whatever puts and gets come in between. |
| MooncakeStores.MooncakeStore.PutKeys | TokenSim/mooncake/store.py:166-218 | The loops, the eviction loop and the fast path do exactly the modelled put. |
| MooncakeStores.MooncakeStore.GetKeys | TokenSim/mooncake/store.py:118-149 | The two loops do exactly the modelled read. |
| MooncakeStores.MooncakeStore.MissingIndices | TokenSim/mooncake/store.py:99-116 | Exactly the places of keys without an object, in order. |
| AttentionPairs.CausalPairsAreWindowed | TokenSim/latency/attention_work.py:15-20 | For every window the constant-time form is the sum over the queries of the keys each sees; a window of no size counts nothing. |
| AttentionPairs.SumFloorIsFloors | TokenSim/latency/attention_work.py:23-27 | The closed form is the sum of the floors. |
| AttentionPairs.ContextPairsAreCompressed | TokenSim/latency/attention_work.py:30-39 | The constant-time form is the sum over the queries of the compressed keys each sees, limit included. |
| AttentionWork.PairsAreAttended | TokenSim/latency/attention_work.py:336-350 | The pair count of the accounting is the sum query by query, for prefill and generation. |
| AttentionWork.ConstantsSuffice | TokenSim/latency/attention_work.py:119-206 | The bounds from memoised per-token constants are those of the full accounting, for every key. |
| AttentionWork.CompressedAttention.LimitsUs | TokenSim/latency/attention_work.py:119-206 | Whatever was asked before, the memo gives the bounds of the full accounting. |
| ExpertDealing.DealtEvenly | TokenSim/moe/routing_synthetic.py:137-145 | However many routes are dealt around a circle, no two places differ by more than one. |
| ExpertRouting.UniformHistogram | TokenSim/moe/routing_synthetic.py:137-145 | Base rounds and a partial round give what dealing the routes one at a time gives. |
| ExpertRouting.ExpertRouter.HistogramForStep | TokenSim/moe/routing.py:268-277 | A step deals from the cursor on and leaves the cursor where it ended. |
| ExpertRouting.ExpertRouter.RunSteps | TokenSim/moe/routing.py:232-277 | The histograms of any sequence of steps add up to one deal of all routes from the first cursor. |
| ExpertRouting.ExpertsEven | TokenSim/moe/routing_synthetic.py:74-93 | After any steps no two experts differ by more than one route. |
| ExpertRouting.RanksEven | TokenSim/moe/routing.py:49-69 | When all ranks own equally many experts, no two ranks differ by more than one route either. |
| ExpertRouting.BuildOrder | TokenSim/moe/routing.py:49-65 | The loops interleave the ranks' experts, and fail exactly if some expert is missing, repeated or unknown. |
| Common.DivIsQuotient | TokenSim/comm/traffic.py:105-105 | Division by repeated subtraction, as the model writes floor division, is integer division. |

## Left out

- CollectiveBuilder.BuildCollectivePlan: output bytes, fan-in, element type and local work bytes of plans and phases are not carried, because no timetable, volume or result depends on them.
- AllToAllBuilder.BuildAllToAll: the expected bytes received per rank, the provenance label, fan-in and element type are not carried.
- FreeQueues.FreeBlockQueue.PopLeft: the heap is searched for its least item instead of being kept in heap order.
- ReplicaManagers.ReplicaManager.Allocate: the request's owner instance (`_validate_request_owner`) is not modelled; the leader's request and its copies are one request record.
- MooncakeStores.MooncakeStore.PutKeys: metrics, segments, replicas and access stamps are left out; one block per object, so that one write has one cost; accounting and blocking latency are always equal and are one number.
- ExpertRouting.ExpertRouter.HistogramForStep: requests that bring a histogram of their own, and skewed distributions.
- AttentionWork.ConstantsSuffice: `shared_phase_us`, `estimate_us` and the choice of rates and widths from device and model tables; a tensor-parallel size of zero, where the source divides by zero, counts no groups.
- Scheduling with speculative tokens, a context limit, external KV, loading requests, delayed frees and grouped caches; the connector is one that supplies and delays nothing.
- An occupancy test on a pool without blocks: the source divides by zero, the model admits nobody.
- `set_num_free_blocks`, which rebuilds all block objects and leaves the prefix index behind.
- The prefix index for CPU blocks: only entries for GPU blocks are stated to be sound.
- Block hashes are constructors, that is, free of collisions; SHA-256 and JSON quoting are not modelled.
- Floating-point rounding: times, rates and volumes are exact.
- `point_to_point_plan`, the data-parallel coordinator, storage backends, operator tables, calibration, command line, tracing and reports.
