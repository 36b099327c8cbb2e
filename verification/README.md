# DAIN control plane in Dafny

DAIN pools ordinary machines to serve one large language model. This project models the parts of its
control plane that keep state or do real arithmetic, and proves what they promise for every input,
every run and every interleaving:

- **The layer scheduler** (`Cost`, `Repair`, `Plan`, `Spec`, `Launch`). `plan()` splits the model's
  layers by measured speed, repairs memory overflow one layer at a time, renumbers, predicts a decode
  speed and emits a tensor split, which the launcher re-permutes by membership. `Repair` is the theory
  of the repair loop over layer counts; `Plan` holds the loops themselves, proved against it.
- **The job queue** (`Payload`, `Queue`, `QueueInvariants`, `QueueRuns`, `QueueExamples`, `QueueObject`). The queue runs
  on one event loop, so its state changes only in the sections between awaits. `Queue` is the transition
  system of those sections, with nodes joining, leaving and failing at will; `QueueInvariants` and
  `QueueRuns` prove safety, absence of deadlock, termination and where results come from, with two
  surprising runs in `QueueExamples`; `QueueObject.JobQueue` is the object
  with the source's fields, each method of which is proved to take exactly one step of that system.
- **The membership registry and the head** (`Registry`, `RegistryRuns`, `ServeHead`, `Membership`).
  Heartbeats, sweeps, rejoins, re-addressing and removal produce an event log; the head's `--watch`
  loop restarts the model server when membership changes.
- **Search and indexing** (`Vectors`, `TopK`, `Search`, `SearchJobs`, `Index`, `IndexRuns`): what the similarity
  score means, distributed top-k search against central search, for the search jobs the queue really runs, and the single-flight index refresh under its two locks.
- **Two small concurrent pieces**: the shared output cap of the command sandbox (`Sandbox`) and the
  nonce/token join manager (`Auth`, `AuthRuns`).

`Contracts`, `Numbers` and `Ordering` hold shared records, sums, Python's half-to-even `round`, and
sorting. `dafny verify dfyconfig.toml` checks everything.

## How the model reads the source

- Python floats are exact reals, and Python ints are unbounded integers. Clock readings, random nonces,
  HTTP answers, signature verdicts and embedding vectors are parameters, so a theorem holds whatever
  they are. A request ends in one of: success, a 4xx rejection, a transient failure, cancellation.
- A dict of layer ranges is a sequence of slots in dict order. Every dict the planner builds has its
  keys in sorted id order, which `Increasing` records.
- The planner is given profiles and metrics with unique ids, as the registry's dict guarantees, at
  least one layer, and a positive cost per layer; `Spec.SpecIsPlannable` shows that the model ladder's
  specs always meet the last two.
- The queue's semaphore wakes *some* waiter rather than the first one: every FIFO run is a run of the
  model. An empty string is never a registered node id (`ctl/auth.py:81-82` refuses it), so pinning to
  it fails as for any unknown node.
- A registry sweep carries two times: when it read the clock and when it got the lock. Other calls may
  come in between.

Every lemma carries `{:induction false}`: each proof is the one written, never one found by automatic
induction.

## Where the code does not do what one might expect

- The repair loop is not complete. It never takes a node's last layer away, so a node without room for
  a single layer keeps the one the speed split gave it, and `plan()` reports that the model does not fit
  although a fitting split exists (`Plan.PlanMissesFit`). `Plan.MissedFit` says exactly when.
- Pinning a job to a node does not make it run there: after two failures its shard is reassigned like any
  other (`QueueExamples.PinnedJobMayMove`). It runs there if and
  only if at most one attempt failed (`QueueRuns.PinnedUnlessFailedTwice`).
- When two shards of a search end on the same node, that node's documents are listed twice
  (`SearchJobs.SearchJobMayListTwice`). `QueueRuns.GivenNodesUnlessReassigned` and
  `QueueRuns.ResultAtHomeUnlessFailedTwice` say when each shard stays on its own node,
  `SearchJobs.SearchJobExact` exactly when the merged list is unharmed.
- A refresh that arrives during another call's scan may return documents from before it was called
  (`IndexRuns.JoinedScanMayBeStale`); `IndexRuns.SingleFlight` says exactly when.
- A job whose task is cancelled before its first step stays `queued` for good
  (`QueueExamples.ClosedWithQueuedJob`, `QueueRuns.UnstartedStaysQueued`).
- The debounce of the watch loop asks that membership *differs from what is served* for the whole
  period, not that the new membership was stable (`ServeHead.FlappingRestarts`);
  `ServeHead.RestartExact` says exactly when the head restarts.

## Model

| member | source | states |
|---|---|---|
| `Cost.CapacityDecides` | sched/plan.py:280-284 | The repair loop's comparisons in MB are comparisons of layer counts with the floor capacity, in both directions |
| `Cost.OverflowDecides` | sched/cost.py:77-89 | A node overflows if and only if it holds more layers than its floor capacity |
| `Cost.RoomFor` | sched/cost.py:19-31 | A node's capacity is at least k exactly if k layers and the 1600 MB overhead fit its free RAM, plus its free VRAM unless it is a Metal node |
| `Cost.Fits` | sched/cost.py:57-74 | True if and only if every planned node's footprint is within its usable memory |
| `Cost.FootprintsConserved` | sched/cost.py:46-54 | For any split of L layers the footprints sum to all weights plus L layers of KV cache |
| `Cost.PredictTokS` | sched/cost.py:92-117 | Fails exactly on an unmeasured node or a non-positive token time, otherwise returns the reciprocal of the token time |
| `Cost.SpeedUpperBound` | sched/cost.py:99-117 | With all layers placed, the token time is positive and the prediction never exceeds a bound on the speeds of the nodes holding layers |
| `Cost.SpeedLowerBound` | sched/cost.py:99-117 | With zero round-trip times the prediction never falls below a bound on those speeds |
| `Cost.PredictedSpeedWithinPool` | sched/cost.py:92-117 | The prediction is positive, at most the fastest holder's speed, and with zero rtt at least the slowest holder's; the zero-time error is unreachable |
| `Cost.NetworkTimeExact` | sched/cost.py:109-113 | Each hop between neighbours costs the average round trip, milliseconds turned into seconds |
| `Numbers.Round` | sched/plan.py:174 | Python's `round`: within one half, ties to even |
| `Numbers.Round4` | sched/plan.py:329 | `round(x, 4)`: within half a unit of the fourth decimal, and 10000 times it is 10000x rounded half to even |
| `Repair.MoveProgress` | sched/plan.py:235-239 | A move keeps the layer total, lowers the layers held by overflowing nodes, makes no node overflow, and never empties or fills a node without room |
| `Repair.MoveDeterministic` | sched/plan.py:223-232 | The overflowing node and the donor of an iteration are forced |
| `Repair.MoveUnlessFinal` | sched/plan.py:220-232 | A move is possible exactly when the loop is not finished: not all fit, the first overflowing node has more than one layer, and a donor exists |
| `Repair.TraceKeeps` | sched/plan.py:207-252 | What a whole run of the loop keeps, and that each move uses up exactly one peelable layer |
| `Repair.MovesBounded` | sched/plan.py:204-207 | At most L-1 moves are made, so the hard stop of L*n iterations never cuts off useful work |
| `Repair.FinalDecides` | sched/plan.py:220-232 | Where the loop stops, the counts fit if and only if L is within the total capacity and no node without room holds a layer |
| `Repair.RepairExact` | sched/plan.py:191-262 | A finished repair fits if and only if the floor capacities sum to at least L and the initial split gave nothing to a node of capacity zero |
| `Repair.FittingSplitExists` | sched/plan.py:142-146 | Some split of L layers fits if and only if the floor capacities sum to at least L |
| `Plan.PlanMissesFit` | sched/plan.py:226-227 | Concrete profiles, metrics and model on which `plan()` reports that the model does not fit although a split fits |
| `Plan.LayersPartition` | sched/plan.py:164-179 | Back-to-back ranges give every layer 0..L-1 to exactly one node and name no other layer |
| `Plan.ServeConserves` | sched/plan.py:169-179 | The split hands out every layer, and a node goes without only once they have run out |
| `Plan.ServeZero` | sched/plan.py:170-175 | A node gets nothing if and only if the asks of the nodes before it already add up to the model |
| `Plan.ServeGrants` | sched/plan.py:170-175 | Every node but the last gets what it asks for unless that takes the last layer |
| `Plan.Ask` | sched/plan.py:173-174 | A node asks for its speed share rounded to the nearest layer, and for at least one |
| `Plan.SpeedSplitSpec` | sched/plan.py:153-179 | All L layers are placed, none negative, shares by speed until they run out |
| `Plan.LayOut` | sched/plan.py:164-179 | The cursor loop produces contiguous ranges with exactly those counts, in sorted id order |
| `Plan.AssignBySpeed` | sched/plan.py:153-188 | Fails exactly when no speed was measured; otherwise the split by speed over the planned ids, with the rounded speed shares as its first tensor split |
| `Plan.RenumberContiguous` | sched/plan.py:292-313 | Contiguous ranges in sorted id order with every node's count kept |
| `Plan.RenumberKeepsCounts` | sched/plan.py:299-313 | On a planner dict renumbering changes no count |
| `Plan.SharesSumToOne` | sched/plan.py:316-329 | The rounded shares sum to 1 within 0.00005 per node |
| `Plan.Share` | sched/plan.py:329 | One rounded share is within 0.00005 of the exact share |
| `Plan.OverflowingFirst` | sched/plan.py:208-223 | The list of overflowing nodes is empty exactly when the counts are within capacity, and starts with the first node over it |
| `Plan.FindSlackDonor` | sched/plan.py:265-289 | Returns the fastest node with room for a layer (largest id among equals), or nothing exactly when there is none |
| `Plan.HasSlack` | sched/plan.py:280-283 | The test in MB holds if and only if the node holds fewer layers than its floor capacity |
| `Plan.MoveLayer` | sched/plan.py:235-252 | One layer moves from one count to the other and the ranges are contiguous again |
| `Plan.SlackCandidates` | sched/plan.py:273-284 | The candidates are exactly the other nodes with room for a layer, with their speeds |
| `Plan.RepairOnce` | sched/plan.py:208-252 | One iteration makes the forced move, or changes nothing exactly when nothing can be done |
| `Plan.RepairLoop` | sched/plan.py:202-252 | The bounded loop keeps every node's layers placed contiguously along a trace of forced moves, and ends by its hard stop or where no move is possible |
| `Plan.RepairPlan` | sched/plan.py:191-262 | The whole repair, spin and hard stop included, is at most L-1 forced moves and ends where no move is possible, with all layers placed contiguously and shares recomputed |
| `Plan.FitsMeansWithin` | sched/cost.py:57-74 | `fits` holds exactly when the counts are within the floor capacities |
| `Plan.PlannedIdsSpec` | sched/plan.py:129-140 | The planned nodes are those with metrics that are not offline, in strictly increasing id order |
| `Plan.PlanFor` | sched/plan.py:139-150 | Assign, repair, check, predict: each error if and only if its cause, and a returned plan holds the whole model within every node's memory |
| `Plan.MakePlan` | sched/plan.py:121-150 | `plan()` end to end: every error case exactly; it reports "does not fit" if and only if the capacities fall short or the speed split uses a node without room; a result is contiguous, fits, carries its shares and its predicted speed |
| `Plan.DoesNotFitExplained` | sched/plan.py:142-146 | A memory failure means that no split fits, or that a node without room was given a layer |
| `Plan.PlanWithinMemory` | sched/plan.py:142-146 | In a returned plan every node holding layers has its footprint and the 1600 MB overhead in its free RAM, plus its free VRAM unless it is a Metal node |
| `Plan.CapsExact` | sched/cost.py:19-31 | The capacities that decide whether a model fits, in megabytes of free RAM and VRAM, in both directions |
| `Plan.PlaceableClosed` | sched/plan.py:142-146 | The condition for a plan to fit in closed form: the capacities add up, and before any node without room the asks already use up the model |
| `Plan.MissedFit` | sched/plan.py:226-227 | `plan()` reports a memory failure although a split fits if and only if the capacities add up and some node without room comes before the asks have used up the model |
| `Plan.PlanSpeedWithinPool` | sched/plan.py:148 | A returned plan's predicted speed is positive, at most that of the fastest node holding layers, and with zero rtt at least that of the slowest |
| `Plan.PlanNetworkTime` | sched/cost.py:99-117 | Of a returned plan's time per token, what the stages do not take is one average round trip for every hop between its nodes |
| `Spec.KvPerSlot` | infer/memory.py:249-260 | Concurrency multiplies the cache: `slots` sequences cost `slots` times one |
| `Spec.KvBytes` | infer/memory.py:249-260 | Twice heads, head size and entry bytes for every cached layer, position and slot, in MiB; only full-attention layers are cached where the model has sliding windows |
| `Spec.Resolve` | infer/spec.py:96-122 | The first entry with that key, else the first with that role, and nothing if and only if there is neither |
| `Spec.SchedulerSpec` | infer/spec.py:149-183 | Each error if and only if its cause, in order; otherwise the entry's key, weights and layer count, which is that of its geometry |
| `Spec.SpecIsPlannable` | infer/spec.py:149-183 | Every spec handed to the planner has layers and a positive cost per layer |
| `Spec.PlanHoldsWholeModel` | infer/spec.py:173-183 | The nodes of a plan together hold exactly the entry's weights plus the whole KV cache, although only the cached layers carry KV, and no node more than its memory |
| `Launch.LlamaServerCommand` | infer/launch.py:193-252 | Every error if and only if its cause: stale exactly if the shares are not one per member or the planned ids are not the members' ids in any order; the device list is the head then the workers in `--rpc` order; shares and the head's MoE setting follow the placement |
| `Launch.SplitKeepsMembers` | infer/launch.py:119-124 | Splitting head and workers loses and repeats nobody |
| `Launch.DevicesPlanned` | infer/launch.py:171-190 | After the staleness check every device has an entry in the plan |
| `Launch.MembersArePlannedNodes` | infer/launch.py:171-190 | Members that pass the staleness check are a permutation of the planned ids |
| `Launch.MatchesMeans` | infer/launch.py:171-190 | The staleness check compares the number of shares and the two sets of ids, not their order |
| `Launch.StaleExactly` | infer/launch.py:171-190 | With distinct planned ids and one share each, the check passes if and only if the members are a permutation of the planned ids |
| `Launch.ShareFollowsDevice` | infer/launch.py:245-247 | The k-th emitted share is the rounded layer share of the k-th device, and the shares sum to 1 within 0.00005 per member |
| `Payload.SplitPayload` | ctl/queue.py:510-521 | The dealing loop produces exactly the strided shards |
| `Payload.StrideAt` | ctl/queue.py:516-520 | Entry i of chunk k is task k + i*n, and the chunk has an entry i exactly when that task exists |
| `Payload.ShardKey` | ctl/queue.py:510-515 | "tasks" if it holds a non-empty list, else "items" if that does, else nothing |
| `Payload.WholeShards` | ctl/queue.py:510-521 | Without such a list every shard is the whole payload, once per node asked for |
| `Payload.ShardsCoverTasks` | ctl/queue.py:510-521 | As many chunks as nodes asked for or tasks, whichever is less; they interleave back to the task list, none is empty, sizes differ by at most one, the rest of the payload is untouched |
| `QueueInvariants.FailFacts` | ctl/queue.py:315-341 | A transient failure leads to one retry on the same node, then to an untried available node, then to exhaustion, with the matching event |
| `QueueInvariants.ShardActionCases` | ctl/queue.py:288-412 | A shard's step is a send, an end, or a transient failure |
| `QueueInvariants.ShapeKept` | ctl/queue.py:139-345 | Every step keeps jobs and shards consistent: shard k of a job carries chunk k, sits on an assigned node, and was not tried there before |
| `QueueInvariants.BalancedKept` | ctl/queue.py:347-412 | Every step keeps free permits plus busy shards equal to the limit, and the counter equal to the busy shards |
| `QueueInvariants.ClampIdle` | ctl/queue.py:410-412 | The clamp at zero never changes a value |
| `QueueInvariants.EventsKept` | ctl/queue.py:539-557 | Every step keeps the event traces well-formed and the log numbered without gaps |
| `QueueInvariants.FrugalKept` | ctl/queue.py:300-332 | Every step keeps each shard's sends to a node within its allowance |
| `QueueInvariants.FinishCovers` | ctl/queue.py:265-286 | Without errors the collected results are those of shards 0..n-1 in order |
| `QueueInvariants.InvKept` | ctl/queue.py:139-412 | All of the above together is inductive |
| `QueueRuns.InFlightExact` | ctl/queue.py:347-412 | In every reachable state, cancellation included, a node's counter is the number of shards in its request region and at most the limit |
| `QueueRuns.EventTracesWellFormed` | ctl/queue.py:238-345 | A job's events are queued, started, dispatch/retry/reassign, then at most one terminal event, matching its status |
| `QueueRuns.AtMostTwoSends` | ctl/queue.py:299-332 | No shard is ever sent to one node more than twice |
| `QueueRuns.DoneJobCoversInput` | ctl/queue.py:265-286 | A done job has one result per shard in order, each from an assigned node, computed from exactly the job's shards |
| `QueueRuns.DoneJobDealsBack` | ctl/queue.py:265-286 | The chunks behind a done job's results re-interleave to its original task list |
| `QueueRuns.EndsAsAnswered` | ctl/queue.py:302-314 | In every reachable state a shard is finished exactly if a request of it succeeded, and rejected exactly if one got a 4xx |
| `QueueRuns.DoneOnlyOnSuccess` | ctl/queue.py:265-286 | Over every run each shard of a done job got a success, and none of them ever a 4xx |
| `QueueRuns.FinishExact` | ctl/queue.py:265-286 | After any run a job that finishes is done if and only if every shard got a success and the merge worked, else failed; its errors name exactly the shards without a success, its results are exactly those of the others |
| `QueueRuns.EventsCarryStatus` | ctl/queue.py:539-557 | Over every run each event carries the job status its kind stands for |
| `QueueRuns.StepLater` | ctl/queue.py:288-345 | One step only advances statuses and leaves ended jobs and shards alone |
| `QueueRuns.RunLater` | ctl/queue.py:238-345 | Over any run statuses only advance, ended jobs are frozen, a rejection ends a shard's sends for good, and no shard is sent again to a node it left |
| `QueueRuns.UnstartedStaysQueued` | ctl/queue.py:559-565 | After `close` a job that had not started stays queued |
| `QueueRuns.NextExists` | ctl/queue.py:326-332 | The ranking has a head whenever an untried node is available |
| `QueueRuns.SubmitPicksLightest` | ctl/queue.py:157-164 | In every reachable state an unpinned job is given the available nodes with the fewest reported and in-flight jobs, in that order, smaller ids first among equals |
| `QueueRuns.ReassignPicksLightest` | ctl/queue.py:326-332 | A reassignment goes to the available node, among those the shard has not tried, with the fewest such jobs, the smaller id among equals |
| `QueueRuns.NoDeadlock` | ctl/queue.py:288-412 | While a started job is unfinished some step of the queue is enabled |
| `QueueRuns.QuietMeansEnded` | ctl/queue.py:238-286 | With no step enabled every job has ended, or was never started because of `close` |
| `QueueRuns.WorkFalls` | ctl/queue.py:288-345 | Every step of the queue lowers a well-founded measure, whatever the nodes did |
| `QueueRuns.RunsTerminate` | ctl/queue.py:288-345 | Over a finite universe of node ids a run takes at most as many steps as the work it had plus the work submitted |
| `QueueRuns.HomesKept` | ctl/queue.py:288-345 | Every step keeps each shard on the node its job was given for it, or, exactly when the log says it was reassigned, away from that node for good |
| `QueueRuns.ResultAtHomeUnlessReassigned` | ctl/queue.py:326-341 | Over every run, result k of a done job comes from the node the job was given for it if and only if the log has no reassignment of that shard |
| `QueueRuns.PinnedUnlessReassigned` | ctl/queue.py:153-156 | Over every run, a done pinned job ran on its node if and only if its shard was never reassigned |
| `QueueRuns.GivenNodesUnlessReassigned` | ctl/queue.py:157-164 | A done unpinned job has its results from the distinct nodes it was given if and only if none of its shards was reassigned |
| `QueueRuns.ReachedScore` | ctl/queue.py:300-329 | In every reachable state a shard has on record, as two per node it left and one on a second try, exactly the attempts of it that failed |
| `QueueRuns.ResultAtHomeUnlessFailedTwice` | ctl/queue.py:300-332 | Over every run, result k of a done job comes from the node the job was given for it if and only if at most one attempt of that shard failed |
| `QueueRuns.PinnedUnlessFailedTwice` | ctl/queue.py:300-332 | Over every run, a done pinned job ran on its node if and only if at most one attempt of its shard failed |
| `QueueExamples.PinnedJobMayMove` | ctl/queue.py:326-341 | For any two nodes, a run in which a job pinned to the first is done by the second |
| `QueueExamples.SearchMayRepeatNode` | ctl/queue.py:326-341 | A run in which both results of a search job given two nodes come from one of them |
| `QueueExamples.ClosedWithQueuedJob` | ctl/queue.py:559-565 | A run that closes the queue with a job still queued |
| `QueueObject.Gather` | ctl/queue.py:265-271 | The loop over outcomes splits them into results and errors in shard order |
| `QueueObject.RankedPrefix` | ctl/queue.py:158-164 | The first k ranked nodes are distinct, available and rank before all others |
| `QueueObject.JobQueue.constructor` | ctl/queue.py:86-137 | A new queue is in the initial state, which satisfies every invariant |
| `QueueObject.JobQueue.RankedNodes` | ctl/queue.py:483-500 | Every available, non-excluded node exactly once, ordered by load then id |
| `QueueObject.JobQueue.EmitEvent` | ctl/queue.py:539-557 | Appends one numbered event |
| `QueueObject.JobQueue.Select` | ctl/queue.py:153-164 | The pinned node or the leading ranked ones, each error if and only if its cause |
| `QueueObject.JobQueue.Enqueue` | ctl/queue.py:166-190 | Stores the job and logs it as queued |
| `QueueObject.JobQueue.Submit` | ctl/queue.py:139-192 | Each error if and only if its cause and without effect; otherwise one submission step |
| `QueueObject.JobQueue.StartJob` | ctl/queue.py:238-257 | One start step |
| `QueueObject.JobQueue.Take` | ctl/queue.py:355-360 | Takes a permit and counts the node busy |
| `QueueObject.JobQueue.Release` | ctl/queue.py:410-412 | Returns the permit and lowers the counter, clamped |
| `QueueObject.JobQueue.FailShard` | ctl/queue.py:315-341 | Retry, reassignment to the best untried node, or exhaustion |
| `QueueObject.JobQueue.AcquireNode` | ctl/queue.py:355-366 | One acquire step: the shard is sent, or its node turns out to be gone |
| `QueueObject.JobQueue.HandleResponse` | ctl/queue.py:302-324 | One response step for each kind of answer |
| `QueueObject.JobQueue.FinishJob` | ctl/queue.py:265-286 | One finish step: results, errors (with the merge's own, if it failed), status and the terminal event |
| `QueueObject.JobQueue.Close` | ctl/queue.py:224-229 | Closing is idempotent and one step |
| `QueueObject.JobQueue.Cancel` | ctl/queue.py:410-412 | Cancelling a shard still releases its node |
| `QueueObject.JobQueue.FinishCancelled` | ctl/queue.py:257-263 | A cancelled job ends failed, without results |
| `TopK.TopAbsorb` | ctl/queue.py:454-475 | One part of a union may be cut to its own first k before ranking |
| `TopK.TopOfTops` | ctl/queue.py:454-475 | The first k of the parts' first k are the first k of the whole union |
| `TopK.ExtrasHidden` | ctl/queue.py:454-475 | Adding elements leaves the first k alone if and only if each already has k elements at or before it |
| `Vectors.DotSymmetric` | node/index.py:372-376 | Similarity does not depend on which vector is the query |
| `Vectors.DotPlus` | node/index.py:372-376 | It is additive |
| `Vectors.DotTimes` | node/index.py:372-376 | And homogeneous |
| `Vectors.DotSelf` | node/index.py:372-376 | Of a vector with itself it is the sum of its squares |
| `Vectors.UnitSimilarity` | node/index.py:365-376 | Between unit vectors it lies in -1..1, and is 1 if and only if they are the same vector |
| `Ordering.StrLessExact` | ctl/queue.py:492-500 | The order of ids and paths: a proper beginning comes first, else the first differing character decides |
| `Search.LocalSearch` | node/index.py:266-306 | Each error if and only if its cause, the query embedding included; otherwise the node's first `limit` documents by (-rounded similarity, path), nothing better left out; among unit vectors a document equal to the query scores 1 and heads the list |
| `Search.SameVectorFirst` | node/index.py:293-306 | Among unit vectors every score is in -1..1 and a document equal to the query puts a score of 1 first |
| `Search.TagTop` | node/index.py:305-306 | A node's own cut is the controller's cut of that node's documents |
| `Search.TagReply` | ctl/queue.py:437-452 | One reply's well-formed hits, tagged with its node, malformed ones skipped |
| `Search.WellFormedExact` | ctl/queue.py:437-452 | Skipping malformed hits loses and invents no well-formed one |
| `Search.AllHitsExact` | ctl/queue.py:437-452 | The merged hits are exactly the well-formed hits some reply carries, each under that reply's node |
| `Search.Collect` | ctl/queue.py:419-452 | The loop over the replies gathers exactly all well-formed hits, all nodes and all non-empty models |
| `Search.MergeSearchResults` | ctl/queue.py:414-481 | Fails if and only if two models answered; otherwise the best of all well-formed hits, by score, node and path, nothing better left out, as many as the request's limit or else five; the searched nodes in order and the one model |
| `Search.DistributedIsCentral` | ctl/queue.py:414-481 | Merging each shard's local best `limit` equals ranking all documents of the searched nodes centrally and cutting once |
| `Search.CentralUnordered` | ctl/queue.py:454-475 | The central result does not depend on the order of the shards |
| `Search.RepeatsHarmless` | ctl/queue.py:326-332 | When shards share a node the cut result is that of the distinct nodes if and only if every repeated hit already has `limit` hits at or before it |
| `SearchJobs.SearchJobIsCentral` | ctl/queue.py:414-481 | Over every run, the merged hits of a done search job are the central search of the nodes its results came from, which are the distinct nodes it was given if no shard was reassigned |
| `SearchJobs.SearchJobExact` | ctl/queue.py:414-481 | Over every run, the merged hits of a done search job are the central search of its result nodes, each once, if and only if every hit of a node that answered again already has `limit` hits at or before it |
| `SearchJobs.SearchJobMayListTwice` | ctl/queue.py:326-341 | A run and replies in which the merge lists one document twice although a central search of the given nodes lists it once |
| `Registry.NodeRegistry.constructor` | ctl/registry.py:29-46 | An empty registry with an empty log |
| `Registry.NodeRegistry.Append` | ctl/registry.py:48-67 | Appends one numbered replan event |
| `Registry.NodeRegistry.Register` | ctl/registry.py:69-116 | A new id joins; a known id keeps its state and is announced only if its host moved |
| `Registry.NodeRegistry.Heartbeat` | ctl/registry.py:118-151 | Unknown ids and foreign metrics are refused without effect; a beat revives and is announced if the node was offline |
| `Registry.NodeRegistry.Remove` | ctl/registry.py:202-216 | Removes and announces a known id, leaves the rest in order |
| `Registry.NodeRegistry.SweepNode` | ctl/registry.py:159-186 | One node's part of a sweep |
| `Registry.NodeRegistry.SweepLocked` | ctl/registry.py:158-186 | The loop under the lock: the state is that of sweeping every node in dict order |
| `Registry.NodeRegistry.Sweep` | ctl/registry.py:153-192 | The whole sweep in dict order, returning exactly the events it logged, and the nodes `on_replan` is called for in that order |
| `Registry.NodeRegistry.EventsAfter` | ctl/registry.py:218-220 | Exactly the rest of the log after a sequence number |
| `RegistryRuns.SweepExact` | ctl/registry.py:153-192 | A node is offline after a sweep if and only if it was, or it is required and at least k intervals silent at the clock read; nothing else changes |
| `RegistryRuns.MissedCounts` | ctl/registry.py:159-173 | The missed count after a sweep is at least k if and only if k whole intervals passed in silence, up to the limit; unwatched and offline nodes keep theirs |
| `RegistryRuns.RegisterGood` | ctl/registry.py:69-116 | Registration keeps the log explaining the state and announces every live change |
| `RegistryRuns.HeartbeatGood` | ctl/registry.py:118-151 | So does a heartbeat |
| `RegistryRuns.RemoveGood` | ctl/registry.py:202-216 | So does a removal |
| `RegistryRuns.SweepManyGood` | ctl/registry.py:153-192 | So does a sweep |
| `RegistryRuns.RunGood` | ctl/registry.py:69-216 | Every run keeps all registry invariants and announces every change since its start |
| `RegistryRuns.LogExplainsState` | ctl/registry.py:69-216 | Replaying the log gives exactly the registered and the offline ids; missed counts stay in 0..k; the log has no gaps |
| `RegistryRuns.LiveChangesAnnounced` | ctl/registry.py:69-216 | Any id whose live host differs between two points of a run is named by a replan event in between |
| `RegistryRuns.RegistryTells` | ctl/registry.py:69-151 | Over every run a node's record is what the calls about it tell: last address and requirement, latest metrics, last sign of life, and joining until its first heartbeat unless offline |
| `RegistryRuns.LogsExactlyChanges` | ctl/registry.py:69-216 | A call logs an event if and only if some node joins, leaves, moves, goes offline or comes back |
| `RegistryRuns.NoFalseOffline` | ctl/registry.py:153-186 | However calls interleave, a node is marked offline only if required and without a sign of life in the k intervals before the sweep read its clock |
| `RegistryRuns.SilentNodesGoOffline` | ctl/registry.py:159-186 | Every required node k intervals silent at the clock read is offline after the sweep |
| `ServeHead.AliveById` | scripts/serve_head.py:112-120 | The alive map holds exactly the nodes neither offline nor excluded, with their hosts |
| `ServeHead.BuildMembers` | scripts/serve_head.py:96-141 | Each error if and only if its cause; otherwise the head first, then all other live nodes by increasing id, with their hosts |
| `ServeHead.SameKey` | scripts/serve_head.py:144-147 | Two memberships compare equal if and only if they list the same nodes at the same addresses in the same order |
| `ServeHead.HeadFirstDevices` | infer/launch.py:119-124 | Such a membership is already in device order |
| `ServeHead.PlanCommand` | scripts/serve_head.py:306-323 | Each failure if and only if its cause; a launched command's device list is the membership it was built from, and its placement matches it |
| `ServeHead.WatchLoop` | scripts/serve_head.py:358-421 | The loop computes the state function the properties below are about |
| `ServeHead.HeadServesCurrent` | scripts/serve_head.py:358-421 | After every iteration the running head's host and `--rpc` list are the hosts of `current`, in order |
| `ServeHead.RestartJustified` | scripts/serve_head.py:395-413 | Before a restart every successful membership read over at least the debounce time differed from `current`, which did not change meanwhile |
| `ServeHead.RestartExact` | scripts/serve_head.py:380-421 | The restart branch is taken if and only if the head runs, the read just made differs from `current`, and so did every successful read since some poll at least the debounce time ago, after the last restart; the head is then restarted if and only if planning again works |
| `ServeHead.EndsExactly` | scripts/serve_head.py:380-421 | The watch has ended if and only if the head exited by itself or planning again failed after the head was stopped |
| `ServeHead.EndedForGood` | scripts/serve_head.py:380-421 | Once it has ended it starts no head again |
| `ServeHead.FlappingRestarts` | scripts/serve_head.py:403-421 | Two reads that differ from each other and from `current`, the debounce time apart, restart the head on the second |
| `ServeHead.RestartsRecorded` | scripts/serve_head.py:409-421 | Every recorded restart was one, and records are never dropped |
| `ServeHead.RestartsSpaced` | scripts/serve_head.py:399-421 | Any two restarts are at least the debounce time apart |
| `Membership.AliveIsLive` | scripts/serve_head.py:112-120 | The head's alive map is the registry's live id-to-host map less the exclusions |
| `Membership.HeadFirstUnique` | scripts/serve_head.py:137-141 | The member list is determined by who is alive |
| `Membership.MembershipChangeAnnounced` | ctl/registry.py:69-216 | If the membership a head would be built from differs between two points of a registry run, a replan event in between names a node that is not excluded |
| `Index.Scan` | node/index.py:199-214 | The scan returns the longest prefix of the readable files within both caps, and its byte total |
| `Index.CutIsLongest` | node/index.py:203-211 | Once one more document breaks a cap, every longer prefix does |
| `Index.LongestPrefixUnique` | node/index.py:199-214 | That prefix is unique |
| `Index.Build` | node/index.py:195-241 | A scan publishes that prefix with one vector per document, all of one positive dimension and none zero, or fails exactly when the embedder's answer is unusable |
| `Index.OutcomeUnique` | node/index.py:195-241 | A scan of given files has one outcome |
| `Index.PublishedComparable` | node/index.py:216-241 | One published vector per document, all of one positive dimension, none of length zero |
| `Index.RefusedForCause` | node/index.py:216-241 | A scan fails only if the embedder does not answer, or gives the wrong number of vectors, unequal or empty ones, or one of length zero |
| `Index.ReadableExact` | node/index.py:199-214 | The readable documents of a listing are those of its parts in order |
| `Index.LocalFileIndex.constructor` | node/index.py:160-183 | A new index is empty at generation 0 |
| `Index.LocalFileIndex.RefreshLocked` | node/index.py:194-250 | A call whose observed generation is stale returns what is published; otherwise it publishes the scan and advances the generation, or fails leaving everything as it was |
| `IndexRuns.LockedKept` | node/index.py:194-197 | Every step keeps the refresh lock held exactly by the thread inside its region |
| `IndexRuns.CountedKept` | node/index.py:243-250 | Every step keeps one commit per generation, each the outcome of its scan, the last one published |
| `IndexRuns.CallsKept` | node/index.py:191-250 | Every step keeps each call's view of the generation right |
| `IndexRuns.FreshKept` | node/index.py:191-250 | Every step keeps commits no older than the calls they answer |
| `IndexRuns.SingleFlight` | node/index.py:189-250 | Over every interleaving: one thread past the lock, the g-th commit by a call that observed g, a returned call saw a later generation, and saw older data than itself if and only if it joined a scan of an older version already running on its entry |
| `IndexRuns.JoinedScanMayBeStale` | node/index.py:191-197 | A concrete run in which that exception shows |
| `Sandbox.OutputCollector.constructor` | node/sandbox.py:383-388 | An empty collector |
| `Sandbox.OutputCollector.Append` | node/sandbox.py:393-398 | One chunk under the lock |
| `Sandbox.OutputCollector.DrainBoth` | node/sandbox.py:390-398 | Two drains taking the lock in any order leave exactly what absorbing their chunks in that order gives |
| `Sandbox.CollectorKeepsFirstBytes` | node/sandbox.py:390-401 | For every interleaving the buffers hold exactly the first `cap` bytes in lock order, and `truncated` holds exactly when more were read |
| `Sandbox.CollectorBounds` | node/sandbox.py:390-401 | The retained total is min(cap, bytes read) and each buffer is a prefix of its stream |
| `Sandbox.ScheduleReads` | node/sandbox.py:390-398 | Whatever the order, each stream's chunks are absorbed in stream order |
| `Sandbox.DrainedExactly` | node/sandbox.py:390-401 | Once both streams are drained, in any order: each buffer is a prefix of its stream, together min(cap, total) bytes, `truncated` exactly when the total exceeds the cap |
| `Auth.Open` | ctl/auth.py:34-57 | An empty secret and non-positive lifetimes are refused, each exactly; otherwise a manager without challenges or tokens |
| `Auth.JoinAuthManager.IssueChallenge` | ctl/auth.py:59-72 | Blank ids are refused; otherwise expired challenges go and the new one is stored with its expiry |
| `Auth.JoinAuthManager.CompleteJoin` | ctl/auth.py:74-108 | Each error exactly; an expired challenge is consumed, a bad signature consumes nothing, success exchanges the challenge for a token |
| `Auth.JoinAuthManager.ValidateToken` | ctl/auth.py:110-118 | True if and only if the stored token matches and is unexpired; an expired one is dropped |
| `Auth.JoinAuthManager.Revoke` | ctl/auth.py:120-127 | The node's challenges and token are gone, the others stay |
| `AuthRuns.JoinExact` | ctl/auth.py:74-108 | After any run a join is granted if and only if it is signed and answers an unexpired challenge issued to that node that was neither used nor revoked |
| `AuthRuns.ValidateExact` | ctl/auth.py:110-118 | After any run a token is accepted if and only if the node's latest join handed it out, it is unexpired and no revocation followed |
| `AuthRuns.OneJoinPerChallenge` | ctl/auth.py:101 | A challenge yields at most one join |
| `AuthRuns.JoinsAnswerChallenges` | ctl/auth.py:74-108 | Every join in a run was by the node its challenge was issued to, within the challenge's lifetime, with no revocation in between |
| `AuthRuns.TokensBackedKept` | ctl/auth.py:100-127 | Every step keeps each stored token that of its node's latest join |
| `AuthRuns.TokensStoredKept` | ctl/auth.py:100-127 | Every step keeps the token of each node's latest join stored until it expires or is revoked |
| `AuthRuns.RunInv` | ctl/auth.py:59-139 | Stored challenges and tokens are exactly those the history calls for, up to expiry |

## Left out

- Floating point: arithmetic is over exact reals, so rounding inside float division and sums is not captured.
- HTTP, asyncio, mDNS and process control: requests and reads are nondeterministic outcomes.
- The failure branch of `_task_finished` (ctl/queue.py:566-572): an unexpected exception in `_run_job` is not modelled separately from a failed job.
- Event texts and timestamps, `Job` timestamps and per-shard error strings: formatting.
- Aliasing of `Job` and profile objects handed to callers: the model's jobs and profiles are values.
- QueueObject.JobQueue.FinishJob: whether the merge of a search job succeeds is a given verdict; `Search.MergeSearchResults` decides it.
- Unsupported job kinds and endpoint tables: every kind has an endpoint.
- Embedding inference, scaling to unit length, and snippets: unit vectors are given.
- A directory that changes while it is being read: a scan reads one version of it.
- File reading and path filtering in `_read_document`: a listing entry is readable or not.
- The argv of `llama_server_command` beyond hosts, shares and the MoE setting: fixed flags.
- Duplicate keys in the model ladder and surrounding white space in model names: keys are unique and names trimmed.
- `infer/memory.py` budgets, pooled fits and `capacity_report`: single-branch arithmetic and text.
- HMAC and canonical JSON: a signature is a given verdict.
- `reset` of the registry and of the join manager: it erases the history the run theorems speak about.
- A wall clock that runs backwards: the join manager's runs assume time does not decrease.
- The agent loop, tools, chat service, dashboard, telemetry, benchmarks and installers: formatting, I/O or fixtures.
