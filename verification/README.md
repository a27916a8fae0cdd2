# Verified models of the inference plane's stateful cores

This project models the parts of the inference plane whose behaviour depends on
interleaving, history or order, and proves what they guarantee. Each step system
is a total function `Step` on a state (a disabled action leaves the state as it is)
and every main theorem quantifies over all runs from an initial state. Where the
source updates a record or a counter in place, a class does the same, and each of
its methods is proved equal to the function the step system uses.

| file | component |
|---|---|
| `KvBudget.dfy` | the KV-cache admission monitor: weighted costs, condition variable, cancellation |
| `Lane.dfy`, `Dispatch.dfy` | per-tenant lanes with a weighted lottery; the InteractiveFirst workers and in-flight slots |
| `Priority.dfy`, `Shutdown.dfy` | strict priority of the interactive lane, and what closing the lanes leaves behind |
| `WorkConserving.dfy` | what the scheduler gets done: accepting, taking and handling entries |
| `SseCounter.dfy` | the incremental server-sent-event parser of the token-counting writer |
| `Lifecycle.dfy` | Create, Destroy, Describe, the List self-heal and replica placement against providers that rent machines |
| `Duplicates.dfy`, `Billing.dfy` | how each broken condition leads to two machines; no bill after TERMINATED |
| `Names.dfy` | generated machine ids and ownership read off a name |
| `Fanout.dfy`, `FanoutRun.dfy` | the slot table, slot updates, and the fan-out's goroutines and channels |
| `SpecStash.dfy` | the hand-over of replica specs between concurrent fan-outs |
| `Leases.dfy` | the engine lease registry and the agent's renewal cadence |
| `Router.dfy`, `Health.dfy` | replica eligibility, the health snapshot, streak counters and the quarantine list |
| `Refiner.dfy` | the phase refiner and its abort judge |
| `Shell.dfy` | shell quoting against a tokeniser |
| `Common.dfy` | options and sequence sums |

## Where the code and its documentation differ

The models follow the code. Each difference below has a lemma.

- Two deployments can share a machine id: nothing stops a deployment id from ending in
  `-r` or `-n` and digits (`Names.CrossDeploymentClashIff` has every form,
  `Names.ValidIdsCanClash` an example of each).
- A machine of a multi-node member is never recognised as owned
  (`Names.OwnsExactlyOneNodeMembers`).
- Keeping Destroy away from a running Create does not ensure one machine per id: a
  List or Describe that read an older record also frees the id when its write lands
  (`Duplicates.StaleBurialDuplicates`, `Duplicates.DuplicatesWithoutDestroy`).
- A failed tag listing is harmless exactly when no machine with the tag is live; beside
  one it is taken for an empty listing (`Duplicates.FailedListDuplicates`), and a live
  machine that the provider does not call active is passed over
  (`Duplicates.InactiveMachineDuplicates`). `Duplicates.OverlookingDuplicates` covers
  every way of missing it.
- The self-heal takes the first machine listed, whatever its state. While a dead machine
  of the same id is still listed, it can record TERMINATED for an id whose machine is
  running (`Billing.DeadMachineListedLeavesABill`); `Billing.TakingAnotherLeavesABill`
  says exactly when.
- A fan-out's placement looks for no machine before it rents, so it ends with two
  whenever one is alive or about to be rented (`Duplicates.PlacementBesideLiveDuplicates`,
  `Duplicates.PlacementBesideRivalDuplicates`, `Duplicates.PlacementAfterLossDuplicates`).
- The stash that hands specs to the recorder is not free of contention: overlapping
  fan-outs record each other's specs or none (`SpecStash.OwnSpecsIff`,
  `SpecStash.OverlapSwaps`).
- A scale-up that succeeds in full does not keep a RUNNING deployment RUNNING
  (`Fanout.ScaleUpKeepsRunningIff`).
- A body over the buffer cap is not dropped as a whole: later chunks that fit are
  appended after a gap (`SseCounter.BodyChunkIndependentIff`, `SseCounter.BodyWithHole`).
- After Stop begins, a worker can give up the interactive lane with work left in it, by
  two routes: it loses a race on one closed sub-queue while another tenant has entries
  (`Shutdown.RaceLeavesWork`), or it scans the closed lane empty while a Submit that
  passed the lane's check has yet to land (`Shutdown.LateSubmitLeavesWork`); with one
  worker such an entry is accepted and never dispatched (`Shutdown.LateSubmitIsStranded`).
  `Shutdown.GivesUpWorkIff` says exactly when.
- Under a lease of less than a second, renewals come too late by design
  (`Leases.ThreeFitIff`, `Leases.ShortLeaseIsLost`).
- An unreadable store makes a renewal forget registered_at and DRAINING
  (`Leases.UnreadableStoreForgets`); so does LOST, for DRAINING (`Leases.LostForgetsDrain`).
  `Leases.RegisteredAtIs` and `Leases.DrainingIff` say exactly when.
- A download so slow that its projected time overflows a Duration is not abandoned where
  the overflow is negative (`Refiner.OverflowResets`, `Refiner.SlowestDownloadResets`).
- A drained replica returns to the rotation after a passing probe
  (`Health.DrainUndoneIff`), and with a multi-node member the probe of one member can
  take another out (`Router.PairedRightIff`, `Health.WrongMemberLeaves`).

## Model

| member | source | states |
|---|---|---|
| KvBudget.Budget.Acquire | internal/backends/mock_kvbudget.go:50-78 | The caller goes round the wait loop exactly as long as it must wait. It is refused exactly when it asks for more than the whole pool, granted exactly when it asks for nothing or the last look shows room, and gets the context's error exactly when there is no room and the context is cancelled; what it is granted fits the pool |
| KvBudget.Budget.Release | internal/backends/mock_kvbudget.go:82-93 | Subtracts a positive cost, clamped at zero |
| KvBudget.EnterTable | internal/backends/mock_kvbudget.go:51-67 | Nothing to reserve is held at once, more than the pool is refused, the rest wait for the mutex with the waker registered |
| KvBudget.CheckTable | internal/backends/mock_kvbudget.go:69-78 | With the mutex: tokens that fit are taken, else a cancelled caller returns, else it goes to sleep |
| KvBudget.ReleaseTable | internal/backends/mock_kvbudget.go:82-93 | Exactly a positive cost is handed back, and a broadcast follows |
| KvBudget.ReturnsOnly | internal/backends/mock_kvbudget.go:50-93 | A call returns only when too large, cancelled without room, or done |
| KvBudget.CancelledWaitEnds | internal/backends/mock_kvbudget.go:58-75 | A sleeper whose context is cancelled can be woken by its own waker and then holds or returns, without anybody releasing a token |
| KvBudget.BudgetNeverOversubscribed | internal/backends/mock_kvbudget.go:50-93 | In every interleaving the tokens in use are exactly those held by callers, and never exceed the total |
| KvBudget.ClampUnreachable | internal/backends/mock.go:186-192 | Under paired acquire and release the clamp never changes the result |
| KvBudget.NoLostWakeup | internal/backends/mock_kvbudget.go:58-93 | A sleeper with room has a broadcast pending; a sleeper whose context is cancelled has its waker about to fire |
| KvBudget.Progress | internal/backends/mock_kvbudget.go:50-93 | No deadlock: while a call is unfinished a step other than a cancellation is possible |
| KvBudget.EnabledStepDecreases | internal/backends/mock_kvbudget.go:50-93 | Every effective step decreases a measure, so no run loops for ever |
| KvBudget.EveryRunCanFinish | internal/backends/mock_kvbudget.go:50-93 | From every reachable state all calls can be driven to their return without cancelling anybody |
| SseCounter.FindIsLeftmost | internal/router/tokencounter.go:222-232 | The search finds the leftmost terminator of either kind, or there is none |
| SseCounter.TerminatorLenExact | internal/router/tokencounter.go:235-240 | The length read off the first byte is that of the terminator present, so the cut stays inside the buffer |
| SseCounter.ParseRebuilds | internal/router/tokencounter.go:173-187 | Events, terminators and residual rebuild the stream exactly, no event hides a terminator, the residual has none |
| SseCounter.ParseUnique | internal/router/tokencounter.go:173-187 | The parse is the only such decomposition |
| SseCounter.ParseResumes | internal/router/tokencounter.go:173-187 | Parsing a prefix and then the residual with the rest gives the parse of the whole |
| SseCounter.SplitJoins | internal/router/tokencounter.go:189-217 | Splitting an event into lines loses nothing |
| SseCounter.TerminatorBytes | internal/router/tokencounter.go:222-232 | A terminator is two line feeds or two CRLF pairs |
| SseCounter.DataLine | internal/router/tokencounter.go:191-201 | A line of the five bytes "data:", at most one space and x, with any number of trailing CRs, carries x |
| SseCounter.OtherLine | internal/router/tokencounter.go:191-201 | A line without those five bytes carries nothing |
| SseCounter.EventReports | internal/router/tokencounter.go:189-217 | An event reports what its data lines' payloads, joined by line feeds in order, decode to; other lines do not count; without data lines it reports zero |
| SseCounter.OneDataLineReports | internal/router/tokencounter.go:189-217 | An event of one data line x reports what x decodes to |
| SseCounter.OpenedTable | internal/router/tokencounter.go:75-88 | Error responses and other content types are ignored, streams scanned, JSON buffered |
| SseCounter.CountsAreLastPositive | internal/router/tokencounter.go:189-217 | Each count is the last positive one reported, independently of the other |
| SseCounter.TokenCountingWriter.Write | internal/router/tokencounter.go:93-111 | One write moves the buffers and counters as the batch functions say, for the bytes the client took |
| SseCounter.TokenCountingWriter.ParseSSEBuffer | internal/router/tokencounter.go:173-187 | The scan loop terminates and equals the batch parse |
| SseCounter.TokenCountingWriter.ExtractFromEvent | internal/router/tokencounter.go:189-217 | Joins the event's data lines and keeps the positive counts decoded from them |
| SseCounter.TokenCountingWriter.Totals | internal/router/tokencounter.go:127-145 | A buffered body is decoded when asked, a stream answers its latest counts |
| SseCounter.ChunkIndependence | internal/router/tokencounter.go:93-111 | For every stream and every split of it into writes, residual and counts equal those of one write |
| SseCounter.EventsChunkIndependent | internal/router/tokencounter.go:173-187 | So do the events taken off, with their terminators and in order |
| SseCounter.BodyChunkIndependentIff | internal/router/tokencounter.go:93-111 | The capped body is chunk independent exactly when it fits or every chunk alone exceeds the cap |
| SseCounter.BodyWithHole | internal/router/tokencounter.go:93-111 | For every cap, a chunk that does not fit after an earlier one leaves a gap that the next fitting one closes up |
| SseCounter.BodyWithHoleAtCap | internal/router/tokencounter.go:93-111 | At the 8 MiB cap: a body of 8 MiB is kept whole, and one byte, 8 MiB and one byte are kept as two bytes |
| Lane.WeightFor | internal/scheduler/weights.go:24-29 | Positive for every table; a positive entry counts as given, any other as the default |
| Lane.LotteryExact | internal/scheduler/lane.go:106-141 | Of all tickets, a candidate wins exactly its weight's worth |
| Lane.HasIffQueued | internal/scheduler/lane.go:106-125 | A tenant is a candidate exactly when it has work queued |
| Lane.FairShare | internal/scheduler/lane.go:106-141 | A tenant with work wins exactly WeightFor of the tickets, a tenant without work none |
| Lane.Choose | internal/scheduler/lane.go:130-141 | The cumulative loop returns the candidate whose interval holds the ticket |
| Lane.LaneState.Push | internal/scheduler/lane.go:72-96 | Refused when closed or full, otherwise appended to the tenant's sub-queue, which never exceeds its cap |
| Lane.LaneState.TryPop | internal/scheduler/lane.go:100-150 | Takes the head of the chosen tenant's sub-queue, or says the lane is empty or drained |
| Dispatch.EntriesConserved | internal/scheduler/interactive_first.go:199-361 | In every reachable state an accepted entry is in exactly one of its sub-queue, one worker's hands or handler, finished, abandoned |
| Dispatch.FifoPerTenant | internal/scheduler/lane.go:72-150 | Pops per lane and tenant follow acceptance order and no sub-queue exceeds its cap |
| Dispatch.InFlightBounded | internal/scheduler/interactive_first.go:323-361 | With a cap, a deployment's slots taken equal its running handlers and never exceed the cap |
| Priority.StrictPriority | internal/scheduler/interactive_first.go:266-317 | A worker about to pop a batch entry found the interactive lane empty this round, or lost its chosen tenant to another worker, or had seen the lane closed |
| Priority.SoloStrictPriority | internal/scheduler/interactive_first.go:266-317 | With one worker and the interactive lane open, every interactive entry accepted before the round's scan is popped before any batch entry |
| WorkConserving.SubmitTable | internal/scheduler/lane.go:72-90 | A closed lane refuses; an open one sends the entry on to its tenant's sub-queue |
| WorkConserving.PushTable | internal/scheduler/lane.go:91-96 | The sub-queue accepts at its end unless closed or at the lane's cap |
| WorkConserving.InteractiveIsTaken | internal/scheduler/interactive_first.go:278-288 | In every reachable state a worker about to start a round can take any tenant's oldest interactive entry in that round by its own steps |
| WorkConserving.BatchIsTaken | internal/scheduler/interactive_first.go:290-301 | With no interactive entry queued it can take any tenant's oldest batch entry in that same round, interactive lane open or not |
| WorkConserving.AcquireTable | internal/scheduler/interactive_first.go:340-350 | An entry in hand is handled exactly when there is no cap or a slot is free, and given up exactly when a capped wait meets a cancelled root |
| WorkConserving.FinishTable | internal/scheduler/interactive_first.go:340-350 | When the handler returns the slot is free and the worker starts over |
| WorkConserving.BeginTable | internal/scheduler/interactive_first.go:270-276 | A worker returns at the top of a round exactly when the root is cancelled or both lanes are marked closed |
| WorkConserving.BatchMissTable | internal/scheduler/interactive_first.go:297-317 | After an empty batch scan the lane is marked closed if it was, and the worker returns when both are |
| Shutdown.GaveUpForGood | internal/scheduler/interactive_first.go:266-317 | A worker that marked the interactive lane closed never reads it again |
| Shutdown.ClosedRaceForgetsLane | internal/scheduler/lane.go:100-150 | In any state where two workers have chosen the same tenant's last entry, closing its sub-queue between their pops makes the loser give up the lane for good while another tenant's entries stay queued |
| Shutdown.GivesUpWorkIff | internal/scheduler/interactive_first.go:266-317 | In every reachable state a step gives up the lane with work left exactly when the chosen sub-queue is closed and empty and another tenant has entries or a Submit can land, or a scan of the closed lane found nothing and an entry has arrived since it began or a Submit can land |
| Shutdown.WorkLeftIff | internal/scheduler/lane.go:72-96 | Once the lane is closed, an interactive entry is queued now or in some continuation exactly when work is left in that sense |
| Shutdown.StrandedForGood | internal/scheduler/interactive_first.go:266-317 | Once every worker has given up the lane or returned, an entry queued there stays queued in every continuation |
| Shutdown.LateSubmitLeavesWork | internal/scheduler/lane.go:72-96 | From the start: a Submit between its two critical sections is accepted after a worker gave up the lane, with no sub-queue closed |
| Shutdown.LateSubmitIsStranded | internal/scheduler/lane.go:72-96 | With one worker that entry is never dispatched |
| Shutdown.RaceLeavesWork | internal/scheduler/lane.go:189-204 | From the start: a lost race on a sub-queue that Stop closed makes a worker give up the lane with another tenant's entry queued |
| Lifecycle.StateFile.ClaimPending | internal/provisioners/service.go:269-304 | Claims the id exactly when its record is absent, TERMINATED or FAILED; otherwise says which conflict and writes nothing |
| Lifecycle.StateFile.MarkTerminating | internal/provisioners/service.go:441-480 | Marks a record that is not TERMINATED; a recorded machine id stays, a missing one is filled in from the deployment |
| Lifecycle.StateFile.Settle | internal/provisioners/service.go:492-510 | Writes TERMINATED or FAILED after the provider answered |
| Lifecycle.StateFile.Patch | internal/provisioners/service.go:851-856 | Replaces or re-creates the record, whatever has happened since it was read |
| Lifecycle.OneMachinePerId | internal/provisioners/service.go:249-347 | Over every run of creates, destroys, describes, self-heals and placements, with crashes, dying machines, lost records and failed listings, at most one live machine per id and provider, if no live machine escapes a Create's search, no write frees an id under a Create on its way, and no placement claims its record beside a live machine or a rival |
| Duplicates.FreeingUnderCreateDuplicates | internal/provisioners/service.go:410-516 | The overlap rule is tight: wherever it is broken, truthful steps lead to two machines |
| Duplicates.PlacementBesideLiveDuplicates | internal/provisioners/fanout.go:1201-1238 | A placement that claims its record beside a live machine rents a second |
| Duplicates.PlacementBesideRivalDuplicates | internal/provisioners/fanout.go:1201-1238 | A placement that claims its record while another operation is about to rent the same machine can always end with two |
| Duplicates.PlacementAfterLossDuplicates | internal/provisioners/fanout.go:1201-1238 | From the empty state: after the state file is lost, a placement of a recorded id rents a second machine |
| Duplicates.StaleBurialDuplicates | internal/provisioners/service.go:551-577 | A stale write by List or Describe leads to two machines although no Destroy runs |
| Duplicates.DuplicatesWithoutDestroy | internal/provisioners/service.go:551-577 | From the empty state, with truthful listings and Describes and no Destroy in the whole run, two machines carry one id |
| Duplicates.OverlookingDuplicates | internal/provisioners/service.go:306-347 | The search condition is tight: wherever a live machine escapes it, by a failed or incomplete listing or by being passed over, the Create goes on to rent a second |
| Duplicates.FailedListDuplicates | internal/provisioners/service.go:306-347 | From the empty state: after a failed terminate, a failed listing is ignored and a second machine is rented |
| Duplicates.InactiveMachineDuplicates | internal/provisioners/service.go:322-341 | From the empty state: after a failed terminate, the live machine is listed but not called active, and a second one is rented |
| Billing.NoBillAfterTerminated | internal/provisioners/service.go:435-516 | In crash-free, unforced runs with one operation per id at a time and true answers (listings may name dead machines too), a TERMINATED record has no live machine, if whoever takes the first machine listed takes the live one |
| Billing.TakingAnotherLeavesABill | internal/provisioners/service.go:822-830 | That guard is tight: in every state, taking another machine than the live one, or calling that TERMINATED, ends in TERMINATED with the machine alive, at once or after a successful Destroy |
| Billing.DeadMachineListedLeavesABill | internal/provisioners/service.go:775-831 | From the empty state, with true answers only: create, destroy, create again, and a self-heal that is listed the dead machine first records TERMINATED while the new machine runs |
| Billing.SpawnsOnlyWhenNoneLive | internal/provisioners/service.go:306-347 | A Create about to rent has no live machine with its tag |
| Billing.FailedTerminateIsAdopted | internal/provisioners/service.go:306-347 | A machine left by a failed terminate is taken over by the next Create, and none is rented |
| Billing.CrashLeavesABill | internal/provisioners/service.go:435-516 | From the empty state: a crash between renting and recording ends, after Destroy, in TERMINATED with the machine alive |
| Billing.DestroyMarksPid | internal/provisioners/service.go:455-474 | Record and operation carry the recorded id, or else the backfilled one |
| Billing.DestroyTerminates | internal/provisioners/service.go:435-516 | An unforced Destroy that knows the machine, recorded or backfilled, and succeeds leaves it dead, the record TERMINATED and naming it, and nothing else changed |
| Billing.DestroyWithoutCall | internal/provisioners/service.go:482-490 | A forced Destroy, or one that knows no machine, writes TERMINATED and leaves every machine running |
| Billing.BackfillSavesTheBill | internal/provisioners/service.go:461-470 | The state a crash leaves has no bill after a Destroy whose backfill names the machine |
| Billing.CreateFailures | internal/provisioners/service.go:410-431 | A failed rent leaves FAILED without a machine id, a failed key the claim as it is |
| Billing.DescribeWrites | internal/provisioners/service.go:551-577 | A Describe writes the state it is told for the machine recorded, TERMINATED when told it is gone |
| Billing.BeginTable | internal/provisioners/service.go:435-470 | Which records each operation may begin with |
| Billing.HealTable | internal/provisioners/service.go:806-820 | With nothing listed the self-heal writes TERMINATED for a TERMINATING record and nothing for a PENDING one |
| Names.DecimalInjective | internal/provisioners/fanout.go:31-50 | Different numbers print differently |
| Names.DecimalValue | internal/provisioners/fanout.go:31-50 | Reading the printed digits back gives the number, without a leading zero |
| Names.MachineIdsDistinct | internal/provisioners/fanout.go:31-50 | Across one create and any scale-ups, no two machines get the same id |
| Names.OwnsExactlyOneNodeMembers | internal/provisioners/fanout.go:99-113 | A generated id is recognised exactly when its member has one machine |
| Names.CrossDeploymentClashIff | internal/provisioners/fanout.go:28-50 | Two deployments name the same machine exactly when one, with one slot, is called like a machine of the other and has one node, or is called like the other's multi-node replica and puts the same node there |
| Names.ValidIdsCanClash | internal/provisioners/provider.go:503-523 | Every form of clash occurs between ids that validation accepts |
| Names.InvalidIff | internal/provisioners/provider.go:503-523 | What validation turns down, exactly |
| Fanout.MemberOf | internal/provisioners/effective.go:107-116 | The first member holding the machine, or -1 exactly when none does |
| Fanout.DeploymentRecord.Patch | internal/provisioners/fanout.go:1008-1083 | One slot update changes the record as PatchSlot says, and nothing else |
| Fanout.DeploymentRecord.RecordCreateSlots | internal/provisioners/fanout.go:711-750 | Overwrites the slot table with one member per placement and its spec, and names the singular machine exactly for one member of one machine |
| Fanout.DeploymentRecord.RecordAppendedSlots | internal/provisioners/fanout.go:758-785 | Pads, stamps and appends the new slots from the given start |
| Fanout.DeploymentRecord.ApplyAggregateState | internal/provisioners/fanout.go:958-992 | Writes RUNNING, DEGRADED or FAILED by the number of successes |
| Fanout.DeploymentRecord.ApplyScaleAggregate | internal/provisioners/fanout.go:372-390 | Writes DEGRADED on any failure and nothing on full success |
| Fanout.UpdatesKeepMachines | internal/provisioners/fanout.go:1008-1083 | No sequence of updates changes which machines back which member, or a spec |
| Fanout.EndpointIsLastFromPrimary | internal/provisioners/fanout.go:1016-1041 | Under every interleaving a member's endpoint is the last one its rank-0 machine reported |
| Fanout.SingularEndpointSetOnce | internal/provisioners/fanout.go:1030-1041 | The singular endpoint is the first one slot 0's rank-0 machine reported, and never changes |
| Fanout.StateByReports | internal/provisioners/fanout.go:1111-1132 | While provisioning, the state is CONFIGURING exactly when it began there or some machine reports it, else STARTING exactly when it began there or some machine reports it, else PENDING |
| Fanout.StateIsTopRank | internal/provisioners/fanout.go:1111-1132 | So it is the most advanced state any machine reported |
| Fanout.StateOrderIndependent | internal/provisioners/fanout.go:1111-1132 | Two interleavings of the same reports lead to the same state |
| Fanout.ServingStateSurvivesIff | internal/provisioners/fanout.go:1111-1132 | A serving deployment keeps its state under slot updates exactly when no machine of it reports a provisioning state |
| Fanout.ScaleUpKeepsRunningIff | internal/provisioners/fanout.go:372-390 | After a whole scale-up a RUNNING deployment is RUNNING exactly when every new replica came up and nobody reported a provisioning state |
| Fanout.ScaleUpKeepsDegradedIff | internal/provisioners/fanout.go:372-390 | A DEGRADED one is DEGRADED exactly when a new replica failed or nobody reported a provisioning state |
| Fanout.AppendKeepsTableIff | internal/provisioners/fanout.go:758-785 | An append keeps members and specs aligned and in place exactly when it starts at or past the end |
| Fanout.SlotTableIsHistory | internal/provisioners/fanout.go:711-785 | After a create and serialized scale-ups, each recorded with its own specs, the table is exactly the list of placements, failed ones included, beside the list of specs |
| Fanout.SlotTableAppendOnly | internal/provisioners/fanout.go:758-785 | A further scale-up changes no existing member or spec |
| SpecStash.Stash.PutSpecs | internal/provisioners/fanout.go:526-536 | The field then holds what the step system says is stashed |
| SpecStash.Stash.TakeSpecs | internal/provisioners/fanout.go:583-589 | Returns what the step system says the fan-out takes, and empties the field |
| SpecStash.OwnSpecsIff | internal/provisioners/fanout.go:526-536 | Among any number of concurrent fan-outs, one records its own specs exactly when no other touches the stash between its put and its take |
| SpecStash.NeverTwice | internal/provisioners/fanout.go:583-589 | No two fan-outs record the same one's specs |
| SpecStash.LossesBalance | internal/provisioners/fanout.go:583-589 | When all have recorded, as many came away with nothing as had their specs lost |
| SpecStash.CreateRecordsRightIff | internal/provisioners/fanout.go:711-750 | A create records its specs exactly when it is handed them, and stays aligned exactly when it is handed as many |
| SpecStash.AppendRecordsRightIff | internal/provisioners/fanout.go:758-785 | So does a scale-up at the end of the table |
| SpecStash.TakesWhatWasLeft | internal/provisioners/fanout.go:583-589 | A fan-out takes what the last action on the stash before it left: the specs of the one that put, or nothing after a take |
| SpecStash.CreateTableRightIff | internal/provisioners/fanout.go:526-536 | A create records the specs it was asked for exactly when the last action on the stash before its take is a put of the same specs |
| SpecStash.OverlapSwaps | internal/provisioners/fanout.go:526-536 | Of two overlapping fan-outs the first to take records the other's specs and the other none |
| FanoutRun.OneResultPerSlot | internal/provisioners/fanout.go:523-576 | In every reachable state a slot has sent one result if it has answered and none before, and the result tells whether every node came up |
| FanoutRun.AggregateIsTruth | internal/provisioners/fanout.go:958-992 | Until the aggregate the state is PENDING, STARTING or CONFIGURING; afterwards nothing is working and the state is RUNNING iff all members came up, FAILED iff none did, else DEGRADED |
| FanoutRun.OutcomeOrderIndependent | internal/provisioners/fanout.go:523-576 | Two runs in which equally many members come up end in the same state |
| FanoutRun.StateClimbsThenSettles | internal/provisioners/fanout.go:800-861 | Along every run in which nodes report until their Deploy returns, the state only climbs, and after the aggregate it is final |
| FanoutRun.NeverBackwards | internal/provisioners/fanout.go:1111-1132 | Before the aggregate CONFIGURING is never followed by STARTING or PENDING, nor STARTING by PENDING |
| FanoutRun.RecordIsReports | internal/provisioners/fanout.go:881-945 | At every moment the record is what the reports so far make of it, and the aggregate sets the state and only that |
| FanoutRun.LaunchTable | internal/provisioners/fanout.go:538-566 | A placed member whose key loads is launched with every node working; any other answers at once with an error |
| FanoutRun.CanRunIff | internal/provisioners/fanout.go:523-576 | A create can end in RUNNING exactly when every member was placed |
| FanoutRun.StepDecreasesWork | internal/provisioners/fanout.go:800-861 | Every effective step but a report decreases a measure, so there are finitely many |
| FanoutRun.EveryFanOutCanFinish | internal/provisioners/fanout.go:523-576 | From every reachable state the fan-out can run to its aggregate |
| Leases.EngineRegistry.Register | internal/engines/registry.go:135-173 | Rejects an empty id and a self-reported LOST; otherwise writes the renewed record, ignoring claimed timestamps |
| Leases.EngineRegistry.SetState | internal/engines/registry.go:186-200 | Changes the state of a known engine and nothing else |
| Leases.EngineRegistry.ExpireOverdue | internal/engines/registry.go:244-270 | Moves every overdue engine it gets to, and no other, to LOST and counts them; without a write error it gets to all |
| Leases.RecordMatchesHistory | internal/engines/registry.go:135-200 | An id is known exactly from its first registration on; expiry is the last registration plus the lease |
| Leases.RegisteredAtIs | internal/engines/registry.go:154-158 | registered_at is the time of the last registration that found no prior record, being the first or meeting an unreadable store |
| Leases.RegisteredAtMovesIff | internal/engines/registry.go:154-158 | An event moves registered_at exactly when it is a renewal that meets an unreadable store at another time |
| Leases.RenewalTable | internal/engines/registry.go:135-173 | What a registration leaves behind, field by field: UNSPECIFIED becomes ASSEMBLING, a remembered drain stays, the engine's own account is taken over, times are the registry's |
| Leases.RefusalTable | internal/engines/registry.go:135-200 | What does not get through changes nothing |
| Leases.UnreadableStoreForgets | internal/engines/registry.go:273-285 | A read error during a renewal resets registered_at and un-drains |
| Leases.LostIff | internal/engines/registry.go:244-270 | An engine is LOST exactly when a sweep reached it later than last registration plus lease, or the control plane set it so, and it has neither registered nor been moved since |
| Leases.DrainingIff | internal/engines/registry.go:157-166 | An engine is DRAINING exactly when something drained it and since then no sweep found its lease expired, no renewal meeting an unreadable store reported another state, and the control plane did not move it |
| Leases.DrainSticks | internal/engines/registry.go:157-166 | From any table with a readable store, a DRAINING engine stays so, whatever it reports, until it is LOST |
| Leases.LostForgetsDrain | internal/engines/registry.go:157-166 | A drained engine that was LOST comes back in the state it reports |
| Leases.Agent.RegisterOnce | internal/engineagent/agent.go:306-324 | A failed attempt or a lease that is not positive keeps the interval; otherwise it is a third of the lease |
| Leases.ThreeFitIff | internal/engineagent/agent.go:318-336 | For every 64-bit lease, 32-bit wrap-around included, three intervals fit exactly when the lease is at least a second |
| Leases.CadenceTable | internal/engineagent/agent.go:318-336 | Three intervals are the whole seconds of the lease, less at most two nanoseconds; five seconds without an answer, ten under the default lease |
| Leases.Int32Is | internal/engines/registry.go:113-115 | The lease in seconds keeps its low 32 bits, read as signed |
| Leases.TwoMissesTolerated | internal/engineagent/agent.go:294-336 | An agent on schedule that never misses three renewals in a row is never LOST, whenever sweeps come |
| Leases.ShortLeaseIsLost | internal/engines/registry.go:113-115 | Under any lease of less than a second an agent that misses nothing is LOST |
| Router.CollectInstanceIds | internal/provisioners/effective.go:28-46 | The machines of all members in order, or the singular id when there are none |
| Router.ViewTable | internal/router/replicas.go:150-214 | Endpoints, nodes and primaries by member, and the singular fields for a record without members |
| Router.AnyQuarantined | internal/router/replicas.go:167-177 | True exactly when a named node is quarantined |
| Router.QuarantinedSet | internal/router/replicas.go:127-136 | The non-empty ids of the unhealthy list |
| Router.EligibleReplicas | internal/router/replicas.go:67-102 | Exactly the members with an endpoint and no quarantined node, under their primary's id, in order |
| Router.PairedRightIff | internal/healthcheck/source.go:56-79 | The snapshot files each probed endpoint under its own member exactly when, at every member with an endpoint, the members before it have as many machines as there are members, or it has none and the machines have run out |
| Router.OneMachineEachIsRight | internal/healthcheck/source.go:56-79 | It does when every member has one machine |
| Health.QuarantineList.Quarantine | internal/provisioners/service.go:1868-1886 | Appends the id unless empty or present |
| Health.QuarantineList.Restore | internal/provisioners/service.go:1895-1913 | Deletes the first occurrence of the id |
| Health.WithoutRemoves | internal/provisioners/service.go:1895-1913 | On a duplicate-free list that deletion removes the id and nothing else |
| Health.WithoutRemovesIff | internal/provisioners/service.go:1895-1913 | On any list the id survives exactly when it was there more than once |
| Health.ListStaysDuplicateFree | internal/provisioners/service.go:1868-1913 | The unhealthy list never holds an id twice |
| Health.Runner.Probe | internal/healthcheck/runner.go:281-379 | Counts the outcome; restores exactly a quarantined machine at the pass threshold; quarantines exactly one that is not at the failure threshold, unless it completed a request within a positive window |
| Health.TickTable | internal/healthcheck/runner.go:251-270 | A tick is due to probe exactly the entries with an endpoint, and ticks do not overlap |
| Health.CountersAreTrailing | internal/healthcheck/runner.go:284-297 | The counters equal the trailing failure and pass runs of the machine's whole probe history |
| Health.MembershipStep | internal/healthcheck/runner.go:299-336 | A machine enters the list by K straight failures without veto or by a drain, leaves by K straight passes, and otherwise stays |
| Health.QuarantinedIff | internal/healthcheck/runner.go:281-336 | After any run a machine is quarantined exactly when something put it out and no K straight passes have put it back since |
| Health.OfferedIff | internal/router/replicas.go:67-102 | After any run of probes and drains the router offers a member exactly when it has an endpoint and none of its machines is out |
| Health.DrainUndoneIff | internal/provisioners/drain.go:64-71 | The next probe after a drain puts the machine back exactly when it passes and the passes counted from before the drain reach the threshold |
| Health.WrongMemberLeaves | internal/healthcheck/source.go:56-79 | A failing second member takes a healthy two-machine first member out and stays in itself |
| Refiner.PhaseRefiner.Judge | internal/provisioners/staging.go:224-268 | Counts or resets the hopeless readings and aborts at the third |
| Refiner.PhaseRefiner.Refine | internal/provisioners/staging.go:142-180 | The emitted phase, the latch and the abort as the step function says |
| Refiner.LatchIff | internal/provisioners/staging.go:166-173 | The latch is set exactly when some reading so far showed bytes at rest |
| Refiner.DownloadIff | internal/provisioners/staging.go:158-165 | engine:download is emitted exactly when bytes arrive and no earlier reading showed them at rest |
| Refiner.EmittedTable | internal/provisioners/staging.go:142-180 | The phase of every call: engine:load for bytes at rest, engine:download for bytes arriving before any load, anything else unchanged |
| Refiner.TooSlowInNumbers | internal/provisioners/staging.go:224-257 | Too slow means a window of 90 seconds, a positive rate, and twice the projected nanoseconds exceeding three times those left; the projection is of the bytes not yet on disk |
| Refiner.NoDownloadAfterLoad | internal/provisioners/staging.go:142-180 | engine:download never follows engine:load |
| Refiner.HopelessIff | internal/provisioners/staging.go:252-257 | A reading counts as hopeless exactly when the download is too slow and its projection fits a Duration, or overflows to one that is still too long |
| Refiner.OverflowResets | internal/provisioners/staging.go:252-257 | Where an overflow reads as the least Duration, a reading whose projection overflows resets the count |
| Refiner.SlowestDownloadResets | internal/provisioners/staging.go:252-257 | 700 GB at 75 bytes a second with an hour left is such a reading |
| Refiner.AbortIff | internal/provisioners/staging.go:224-268 | A call aborts exactly when its reading is hopeless, two earlier ones were with no resetting one since, and loading was never seen |
| Shell.JoinWords | internal/engineagent/delivery.go:153-159 | The loop yields the quoted words separated by single spaces |
| Shell.QuotedForm | internal/engineagent/delivery.go:148-150 | A word without quotes stands between two; a quote is written close, backslash, quote, reopen |
| Shell.RoundTrip | internal/engineagent/delivery.go:148-159 | Tokenising the joined line under sections 2.2.1, 2.2.2 and 2.3 of the POSIX Shell Command Language yields exactly the argument vector |
| Shell.JoinInjective | internal/engineagent/delivery.go:148-159 | Different argument vectors never print alike |

## Left out

- HTTP proxying, RPC adapters, provider and SSH calls: their answers are parameters of the steps, true or false as each theorem says.
- JSON decoding of usage is any function from a payload to two counts; content-type tests are one parameter.
- The worker loop is a step system rather than a method with a loop, because its behaviour is that of the interleaving; back-off delays and handler panics are not modelled.
- The order in which a lane lists tenants is not modelled: the lottery's shares do not depend on it.
- Lane.LaneState.Push: states what happens when nothing runs between its two critical sections; the interleaved form is in Dispatch.
- Lane.LaneState.TryPop: states what happens when no other worker runs between scan and pop; the interleaved form is in Dispatch.
- Lifecycle.OneMachinePerId: assumes that no live machine escapes a Create's search, that no write frees an id under a Create on its way, which is stronger than keeping Destroy away, and that placements are safe; each rule is shown tight, and the weaker one is refuted.
- Image-native providers, which rent inside Deploy rather than when a replica is placed, and a placement's reuse of an existing record, which rents nothing, are not modelled.
- Provider effects that appear after the call has returned or its process has died, and changes of provider configuration, are not modelled.
- Instance and deployment fields that only report (timestamps, failure text, phase and progress labels, SSH addresses, prices) are not modelled.
- FanoutRun.StateClimbsThenSettles: covers the create path, where the claim holds, and providers that stop reporting when Deploy returns; for scale-ups and later reports see Fanout.ServingStateSurvivesIff.
- Fanout.SlotTableIsHistory: takes each batch's own specs as handed to it; SpecStash has the condition.
- The return of a multi-node member's machines after a failure and the removal of a deployment during its fan-out are not modelled.
- Leases.TwoMissesTolerated: takes calls to be instantaneous and a registration's answer to arrive whenever the registration does.
- Registry records with missing timestamps, which the registry itself never writes, are not modelled.
- The health model covers one deployment with fixed members; only RUNNING deployments are polled, and the key that joins deployment and machine ids is not modelled.
- Refiner.PhaseRefiner.Judge: divides and multiplies exactly, so the rounding of 64-bit floats is not modelled; truncation to nanoseconds and overflow are.
- Lane.FairShare: adds weights without bound; a table whose weights overflow the machine's integers makes the source's draw panic.
- Migration, cost normalisation, routing policies, VRAM budgets, telemetry, configuration and the command line would add only easy members or cannot be decided from the code.
