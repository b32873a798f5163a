# Verified models of the Sandi protocols

A Dafny 4.11 project that models the small concurrent protocols and the exact codecs of this repository and proves
what they are for. Each protocol is a state machine whose steps are one atomic store transaction, or one stretch of
JavaScript between two awaits; the theorems quantify over every run of it. Objects whose methods update their fields
are classes. The methods of the protocol objects are proved to move the machine by exactly the steps they stand for, so
the theorems about runs speak about them; the tree move's methods are proved to keep the relation its runs are made of,
and the response buffer's to compute the fold its theorems are about.

| module | what it models |
|---|---|
| `CanonicalJson`, `JsonReader` | the canonical JSON text that decides whether re-enqueued work is the same, and what a JSON reader makes of it |
| `Outbox`, `OutboxRuns`, `Lease`, `OutboxWorker` | the durable delivery outbox: record transactions, all interleavings of workers, crashes and late renewals, the lease clock, and the worker object |
| `Pairing`, `PairingCode` | the reserve, persist, complete journal of device pairing, and the typed code |
| `Capacity` | the provider capacity controller |
| `TranscriptIndex` | the debounced, chained writes of the session index |
| `LinkManager` | the generation-gated device link |
| `EncodeQueue` | the capped, coalescing encode queue |
| `TurnQueue` | the per-conversation turn queue |
| `Base64`, `SemVer`, `ResponseBuffer`, `Text` | the canonical base64 recogniser (RFC 4648), version precedence (Semantic Versioning 2.0.0), stream reconciliation, trimming and numerals |
| `TreeMove` | the no-loss move of a legacy directory tree |
| `IdentityCache` | the stat-keyed identity cache and the uniqueness check of what it loads |

`dafny verify dfyconfig.toml` checks everything.

## What turned out not to hold

Where a promise fails, the model keeps the code as it is, gives the failing input or run, and proves when the promise
does hold.

- The canonical JSON text ignores member order exactly when no object has two keys, neither of them an array index, that
  the collation ranks alike. `localeCompare` does rank some distinct strings alike, and the stable sort then keeps their
  insertion order; array indices are always enumerated first, so ties with them never show (`OrderBlindIffTieFree`).
- Two un-aborted handlers of one record can overlap unless the handler starts at the very clock value its claim
  read, because `confirmedUntil` is computed from a second, later clock reading (`OneLiveHandlerIff`).
- Fencing holds although ownership is checked by worker id alone, but only because one worker never has two drains
  past their wait: with two, a stale attempt settles the newer claim (`SecondDrainWouldBreakFencing`).
- An authorization refusal drops an open reservation. When its token was already stored, a later redemption stores a
  second one (`RefusalSafeIff`, `DropCostsAToken`, `DropIsReachable`).
- Queued work is not always started within a bounded number of starts. Interactive and passive requests are, under
  every schedule; background and title requests are exactly when the queue holds a single request, and can otherwise be
  passed by passive ones for ever (`BoundedWaitingIff`, `UnfairTakesStarve`).
- The identity cache stores what it read under the key it saw before the read. If a file appears in between, its content
  is kept under a key that does not name it; when that file goes again, the key comes back and the cache answers with
  identities that are gone, for as long as that lasts and whatever the TTL. This can happen exactly when the cache is not
  the content its key stands for and every file the key names is still the same (`GoesStaleIff`, `PoisonIsReachable`).
- A moved tree's conflict copies do overwrite an older conflict copy of the same path (`ConflictFileSurvivesIff`,
  `ConflictFileIsOverwritten`).
- A final body that only adds white space to the streamed text is not treated as covered by it: the code tests the
  extension before it compares trimmed texts, so the recorded text becomes the final body (`SettleRecords`).
- The branch of `cancelQueued` that deletes a queue never runs: a queue with waiting turns always has one inflight.

## Model

| member | source | states |
|---|---|---|
| `CanonicalJson.TextDetermines` | src/lib/delivery/outbox.ts:559-570 | two canonical texts followed by anything that may follow a value are equal only if the values are equal up to member order and the remainders are equal: the text is self-delimiting |
| `CanonicalJson.SameTextSameValue` | src/lib/delivery/outbox.ts:559-570 | equal text implies equal value up to member order, under any collation |
| `CanonicalJson.SameValueSameText` | src/lib/delivery/outbox.ts:566-569 | equal values without ties between non-index keys have equal text |
| `CanonicalJson.TextIsIdentity` | src/lib/delivery/outbox.ts:555-570 | for such values, equal text if and only if equal value |
| `CanonicalJson.OrderBlindIffTieFree` | src/lib/delivery/outbox.ts:566-568 | the text of a value ignores the order its members were inserted in exactly when none of its objects has two keys of equal collation rank besides its array indices, which JavaScript always enumerates first |
| `CanonicalJson.TieShows` | src/lib/delivery/outbox.ts:566-568 | any tie between two keys that are not array indices, anywhere inside, gives an equal value with a different text |
| `CanonicalJson.SortsIntoKeyOrder` | src/lib/delivery/outbox.ts:566-567 | members of equal rank stay in enumeration order: smaller indices first, indices before other keys |
| `CanonicalJson.EscapeSplits` | src/lib/delivery/outbox.ts:561 | an escaped string ends at its closing quote and determines the string |
| `CanonicalJson.NumberSplits` | src/lib/delivery/outbox.ts:561 | a printed number ends where number characters end and determines the number |
| `CanonicalJson.SortAscends` | src/lib/delivery/outbox.ts:567 | the member sort yields ascending ranks |
| `CanonicalJson.SortKeepsMembers` | src/lib/delivery/outbox.ts:567 | and a permutation of the members |
| `CanonicalJson.SortIsStable` | src/lib/delivery/outbox.ts:567 | and keeps the order of members it ranks alike |
| `CanonicalJson.IndexIff` | src/lib/delivery/outbox.ts:566 | the keys JavaScript enumerates first are exactly the decimal numerals of the numbers below 2^32 - 1 |
| `JsonReader.TextReadsBack` | src/lib/delivery/outbox.ts:559-570 | a JSON reader written independently of the printer reads the canonical text back as the value itself, its members in sorted order |
| `JsonReader.ReadsCanonical` | src/lib/delivery/outbox.ts:559-570 | and so wherever the text stands: the reader stops where the value ends |
| `JsonReader.ReadsString` | src/lib/delivery/outbox.ts:561 | every character comes back from its escape |
| `CanonicalJson.EscapeForm` | src/lib/delivery/outbox.ts:561 | escapes are as short as JSON allows, with lower-case digits |
| `Outbox.Configure` | src/lib/delivery/outbox.ts:117-136 | the defaults, and the constructor accepts exactly positive safe integers with base <= maximum |
| `Outbox.RetryDelayGrows` | src/lib/delivery/outbox.ts:478-481 | the first failure waits the base, each further one twice as long up to the maximum, and from the 21st on the wait is constant |
| `Outbox.Earliest` | src/lib/delivery/outbox.ts:260-279 | the record claimed is due, wanted and has the least next-attempt time; one is claimed whenever wanted work is pending with its time come or claimed with its lease over |
| `Outbox.EarliestBreaksTies` | src/lib/delivery/outbox.ts:275-278 | among equal times the first in the file is claimed |
| `OutboxRuns.ReenqueueIsIdempotent` | src/lib/delivery/outbox.ts:153-170 | once work was added under a key, then in every later reachable state, whatever became of the record, enqueueing under the key is accepted exactly for that kind and payload value, returns the record and changes nothing |
| `OutboxRuns.RunKeepsWork` | src/lib/delivery/outbox.ts:254-476 | no step ever changes the kind or the payload hash of a record |
| `Outbox.ReenqueueAcceptsSameWork` | src/lib/delivery/outbox.ts:161-170 | against any stored record, a further enqueue is accepted exactly for its kind and payload value and never changes the store |
| `OutboxWorker.DurableOutbox.Register` | src/lib/delivery/outbox.ts:138-146 | refuses an empty or taken kind, otherwise adds the handler under the trimmed kind and wakes a running worker |
| `OutboxWorker.DurableOutbox.Enqueue` | src/lib/delivery/outbox.ts:148-192 | on the trimmed key and kind: empty ones and known keys change nothing, new work is one Add step of the system and a fresh pending record, claimable at once |
| `OutboxWorker.DurableOutbox.BeginDrain` | src/lib/delivery/outbox.ts:234-237 | a drain waits exactly when another is in progress: an Arrive step |
| `OutboxWorker.DurableOutbox.ResumeDrain` | src/lib/delivery/outbox.ts:235-237 | a waiting drain becomes the one in progress: a Wake step |
| `OutboxWorker.DurableOutbox.EndDrain` | src/lib/delivery/outbox.ts:240-243 | the drain gives up its place only if it holds it: a Leave step |
| `OutboxWorker.DurableOutbox.ClaimNext` | src/lib/delivery/outbox.ts:254-297 | claims, in a ClaimOne step, a record of a registered kind whose retry time or lease end has come, with the least next-attempt time, whenever there is one, and otherwise ends the loop |
| `OutboxWorker.DurableOutbox.BeginRun` | src/lib/delivery/outbox.ts:299-324 | a Start of the lease machine: the machine's view of the record agrees with the worker before and after |
| `OutboxWorker.DurableOutbox.RenewClaim` | src/lib/delivery/outbox.ts:336-372 | a Tick and its landing in the system, and at the same time a Tick of the lease machine; an owned claim is extended by one lease, and otherwise the delivery is aborted exactly if its confirmed time ends within a renewal period |
| `OutboxWorker.DurableOutbox.SettleRun` | src/lib/delivery/outbox.ts:325-333 | a Return and its Settle in the system, and at the same time a Settle of the lease machine; the record is left as the outcome says, case by case |
| `OutboxWorker.DurableOutbox.UpdateOwned` | src/lib/delivery/outbox.ts:374-476 | a settlement writes exactly when the record is processing under this worker's id, only to that record, and then what its outcome says, case by case: a Return and its Settle |
| `OutboxWorker.DurableOutbox.Stop` | src/lib/delivery/outbox.ts:212-221 | aborts every active delivery, leaves no wake and no renewal running, and touches no record |
| `OutboxWorker.ClaimShows` | src/lib/delivery/outbox.ts:269-288 | claiming a due record is a Take of the lease machine |
| `OutboxWorker.RenewShows` | src/lib/delivery/outbox.ts:343-364 | the transaction of a renewal is a Tick of it |
| `OutboxWorker.SettleShows` | src/lib/delivery/outbox.ts:458-476 | the transaction of a settlement is a Settle of it |
| `OutboxRuns.StepKeepsInv` | src/lib/delivery/outbox.ts:234-476 | every step of every worker keeps the cross-worker invariant |
| `OutboxRuns.ReachableInv` | src/lib/delivery/outbox.ts:234-476 | so it holds in every reachable state |
| `OutboxRuns.OneDrainAtATime` | src/lib/delivery/outbox.ts:234-244 | each worker has at most one drain past its wait |
| `OutboxRuns.Fencing` | src/lib/delivery/outbox.ts:374-476 | in every reachable state, a settlement that changes the store belongs to the attempt that made the current claim, its handler saw the record's present progress, and only that record changes |
| `OutboxRuns.StaleAttemptsWriteNothing` | src/lib/delivery/outbox.ts:458-469 | an attempt that is no longer the record's current one writes nothing |
| `OutboxRuns.SecondDrainWouldBreakFencing` | src/lib/delivery/outbox.ts:235-237 | with two drains past their wait, a run in which a stale attempt settles its worker's newer claim |
| `OutboxRuns.HistoriesGrow` | src/lib/delivery/outbox.ts:254-476 | what was accepted for a key is never taken back |
| `OutboxRuns.AcceptedByItsOwnClaim` | src/lib/delivery/outbox.ts:374-476 | every accepted outcome directly follows the claim of the attempt that produced it |
| `OutboxRuns.LinearHistory` | src/lib/delivery/outbox.ts:299-334 | each accepted outcome's handler was started with exactly the progress the previous accepted one left |
| `OutboxRuns.HistoryStartsEmpty` | src/lib/delivery/outbox.ts:171-182 | and the first with none |
| `OutboxRuns.Accounting` | src/lib/delivery/outbox.ts:280-289 | processing exactly while claimed; attempts = accepted outcomes + expired reclaims + 1 while processing; the ambiguity count and the progress are those of the accepted outcomes |
| `OutboxRuns.SettledForGood` | src/lib/delivery/outbox.ts:391-424 | completed and failed records never change again |
| `OutboxRuns.LastEventDecides` | src/lib/delivery/outbox.ts:374-456 | in every reachable state the last accepted event says what the record is: completed exactly after a returned completion, failed exactly after a permanent error or schema violation, with the result, payload, error, progress and times that belong to it |
| `OutboxRuns.SettleDoes` | src/lib/delivery/outbox.ts:391-456 | every settlement transaction leaves what its outcome says, and the rest of the record alone |
| `OutboxRuns.RunKeepsPayload` | src/lib/delivery/outbox.ts:254-476 | the payload stays until the record is completed, key and creation time for good |
| `OutboxRuns.NothingAfterFinal` | src/lib/delivery/outbox.ts:391-424 | nothing is accepted after a final outcome |
| `OutboxRuns.BackoffIsWaitedOut` | src/lib/delivery/outbox.ts:433-441 | the claim after a failed n-th attempt comes no earlier than the larger of the handler's wait and min(max, base * 2^min(20, n-1)) after it |
| `OutboxRuns.ClaimableIff` | src/lib/delivery/outbox.ts:261-274 | in every reachable state a looping drain can claim a record exactly from one time on: its creation, the end of its lease, its progress, or its failure plus the larger of the handler's wait and min(max, base * 2^min(20, n-1)); a completed or failed one never |
| `OutboxRuns.DeliveryCanFinish` | src/lib/delivery/outbox.ts:234-476 | from every reachable state, even if a worker crashes at once, a record that waits or is claimed can still be delivered and completed |
| `OutboxRuns.DrainCanEnd` | src/lib/delivery/outbox.ts:234-252 | a drain past its wait can always end, whatever it is doing, and then those waiting for it can go on |
| `OutboxRuns.UnansweredClaim` | src/lib/delivery/outbox.ts:247-297 | a claim that was written but not answered ends its drain, and the record can be claimed exactly from the end of the lease on |
| `Lease.AbortedInTime` | src/lib/delivery/outbox.ts:303-321 | with a lease of at least two clock units, any mix of renewed, lost and failed ticks leaves an un-aborted handler before its `confirmedUntil` |
| `Lease.SafeWithoutSkew` | src/lib/delivery/outbox.ts:259-306 | if claim and start read the same clock value, at most one un-aborted handler per record |
| `Lease.CrashIsRecovered` | src/lib/delivery/outbox.ts:269-274 | when the only worker on a record crashes, before or after its handler started, any worker can claim the record exactly from the end of the lease on |
| `Lease.Overlap` | src/lib/delivery/outbox.ts:305-318 | a schedule that makes two handlers overlap otherwise |
| `Lease.OneLiveHandlerIff` | src/lib/delivery/outbox.ts:259-372 | at most one un-aborted handler under every schedule, exactly when the lease is at least two and claim and start read the same clock value |
| `Pairing.StepKeeps` | src/lib/pairing/pairing-store.ts:150-382 | every step except the refusal of a reservation whose token is stored keeps the journal invariant |
| `Pairing.OneTokenPerPairing` | src/lib/pairing/pairing-store.ts:277-373 | across crashes, retries and callers all successes for one pairing return the same token, it is stored, and it is the only one stored |
| `Pairing.NoSecondToken` | src/lib/pairing/pairing-store.ts:313-357 | no pairing gets a second token, even without any success |
| `Pairing.ConsumedOnce` | src/lib/pairing/pairing-store.ts:212-249 | a code is consumed at most once, and never besides a stored token |
| `Pairing.RefusalSafeIff` | src/lib/pairing/pairing-store.ts:290-295 | refusing an open reservation is harmless for ever after exactly when its token has not been stored |
| `Pairing.DropCostsAToken` | src/lib/pairing/pairing-store.ts:291-295 | after dropping a reservation whose token is stored, one more redemption stores a second token |
| `Pairing.DropIsReachable` | src/lib/pairing/pairing-store.ts:290-333 | such a refusal happens after a crash between storing the token and completing the journal |
| `Pairing.ConsumeFacts` | src/lib/pairing/pairing-store.ts:224-235 | consuming removes the one live unredeemed pairing with the code, and every other live pairing stays |
| `Pairing.ReplaceFacts` | src/lib/pairing/pairing-store.ts:384-392 | replacing touches the pairing with that code only |
| `Pairing.IssueFacts` | src/lib/pairing/pairing-store.ts:166-181 | issuing keeps exactly the live pairings of the other identities and adds the one new pairing |
| `Pairing.PairingStore.CreatePairing` | src/lib/pairing/pairing-store.ts:150-187 | a Create step of the machine; afterwards the file holds the new pairing and the unexpired ones of other identities |
| `Pairing.PairingStore.ConsumePairing` | src/lib/pairing/pairing-store.ts:212-249 | the loop is a Take step of the machine and returns the identity of an unexpired, unredeemed pairing with the code, and none only if there is none |
| `Pairing.PairingStore.RedeemPairingTransaction` | src/lib/pairing/pairing-store.ts:257-374 | whatever each outside call and write does, one redemption is a run of the machine's steps that returns exactly the success answered, and its reply and the journal entry it leaves are those of the first unexpired pairing with the code, case by case |
| `Pairing.AnswersSay` | src/lib/pairing/pairing-store.ts:279-373 | the identity answered is that of an unexpired pairing with the code; the code is invalid exactly if there is none and the file could be written; a success needs authorization, and comes whenever all goes well |
| `PairingCode.Normalize` | src/lib/pairing/pairing-store.ts:113-124 | returns the folded text exactly when it is ten symbols of the alphabet |
| `PairingCode.NormalizeRecognisesSpellings` | src/lib/pairing/pairing-store.ts:113-124 | a typed ASCII text folds to a code exactly when it spells it: any case, look-alikes O, I and L, spaces and dashes anywhere; letters outside ASCII that upper-case into the alphabet are left out |
| `PairingCode.DisplayRoundTrip` | src/lib/pairing/pairing-store.ts:96-104 | the displayed form normalizes to the code it shows |
| `PairingCode.SymbolIff` | src/lib/pairing/pairing-store.ts:29 | the alphabet is the digits and the capitals other than I, L, O and U |
| `PairingCode.Generate` | src/lib/pairing/pairing-store.ts:96-104 | ten random bytes make a code, each choosing a symbol by its low five bits |
| `Capacity.ValidateConfig` | src/lib/provider/capacity-controller.ts:264-270 | the constructor accepts exactly positive safe integers |
| `Capacity.EventKeepsQuiet` | src/lib/provider/capacity-controller.ts:74-239 | every event keeps the concurrency, queue, identity and passive limits, the partition of admitted work, work conservation and the waiters' condition |
| `Capacity.AlwaysQuiet` | src/lib/provider/capacity-controller.ts:74-239 | so they hold at every quiescent point of every run, and admitted = queued + active + settled |
| `Capacity.SettledOnce` | src/lib/provider/capacity-controller.ts:101-107 | a settlement is never made again or changed |
| `Capacity.FreeSlotNeverRefuses` | src/lib/provider/capacity-controller.ts:74-97 | an accepting controller with a free slot starts any request that is not aborted |
| `Capacity.WaiterResolvesAtIdle` | src/lib/provider/capacity-controller.ts:126-139 | a shutdown waiter resolves in the very event after which nothing is active, not before |
| `Capacity.TakesOldestOfItsKind` | src/lib/provider/capacity-controller.ts:186-204 | within one kind, work is taken in admission order |
| `Capacity.PicksServedNext` | src/lib/provider/capacity-controller.ts:186-204 | interactive work goes first, then passive, then background, then titles, the oldest of its kind; after four interactive requests in a row the oldest of the others |
| `Capacity.RefusalSays` | src/lib/provider/capacity-controller.ts:75-97 | each refusal is given exactly when its own test holds and none before it |
| `Capacity.KindByName` | src/lib/provider/capacity-controller.ts:242-257 | each kind is known by its own conversation prefixes |
| `Capacity.BoundedWaitingIff` | src/lib/provider/capacity-controller.ts:74-204 | over every run from the start of the controller: a kind of request has a bound on how many others start before a queued one leaves the queue exactly when it is interactive or passive, or the queue holds only one request |
| `Capacity.InteractiveAndPassiveAreBounded` | src/lib/provider/capacity-controller.ts:186-204 | for these kinds 5(k+1) starts with k requests ahead are such a bound |
| `Capacity.PassiveWaits` | src/lib/provider/capacity-controller.ts:186-204 | a passive request with k older non-interactive ones ahead leaves the queue within 5(k+1) starts of any run |
| `Capacity.InteractiveWaits` | src/lib/provider/capacity-controller.ts:186-204 | an interactive request with k older interactive ones ahead leaves the queue within k + k/4 + 2 starts of any run |
| `Capacity.OthersWait` | src/lib/provider/capacity-controller.ts:186-204 | while interactive work is queued at every take, every other request leaves the queue within 5(k+1) starts |
| `Capacity.LoneRequestIsNext` | src/lib/provider/capacity-controller.ts:90-92 | with room for one request in the queue, nothing starts before the queued one |
| `Capacity.UnfairTakesStarve` | src/lib/provider/capacity-controller.ts:193-198 | with room for two, for every n a run from the start of the controller in which a background or title request waits while n others start |
| `Capacity.BoundedWaiting` | src/lib/provider/capacity-controller.ts:186-204 | the same 5(k+1) for any series of arrivals, departures and takes that are fair to the request |
| `Capacity.InteractiveQueuedIsFair` | src/lib/provider/capacity-controller.ts:190-197 | takes made while interactive work is queued are fair to every request |
| `Capacity.EventIsSeries` | src/lib/provider/capacity-controller.ts:74-204 | every event of the controller is a series of arrivals, departures and takes |
| `Capacity.StartsAreTakes` | src/lib/provider/capacity-controller.ts:150-177 | and the takes of a run are exactly the requests it handed to the provider |
| `Capacity.CapacityControlledProvider.OldestIndex` | src/lib/provider/capacity-controller.ts:206-216 | the scan finds the least sequence number satisfying the predicate, and -1 only if nothing does |
| `Capacity.CapacityControlledProvider.TakeNext` | src/lib/provider/capacity-controller.ts:186-204 | removes exactly the request that is served next, kind by kind, and counts the streak; the index is never -1 |
| `Capacity.CapacityControlledProvider.PumpQueue` | src/lib/provider/capacity-controller.ts:150-177 | takes until the slots are full or the queue is empty |
| `Capacity.CapacityControlledProvider.GenerateTurn` | src/lib/provider/capacity-controller.ts:74-124 | refuses for the code's reasons in the code's order, otherwise admits; a refusal changes nothing |
| `Capacity.CapacityControlledProvider.OnAbort` | src/lib/provider/capacity-controller.ts:101-108 | an abort removes and settles the request only while it is queued |
| `Capacity.CapacityControlledProvider.Finished` | src/lib/provider/capacity-controller.ts:164-184 | a finish settles the request, frees its slot, pumps and wakes waiters |
| `Capacity.CapacityControlledProvider.RefuseQueued` | src/lib/provider/capacity-controller.ts:130-133 | shutdown refuses each queued request once |
| `Capacity.CapacityControlledProvider.ShutDown` | src/lib/provider/capacity-controller.ts:126-140 | stops accepting, refuses the queue, waits only if something is active |
| `Capacity.CapacityControlledProvider.NotifyIdleWaiters` | src/lib/provider/capacity-controller.ts:235-239 | wakes all waiters exactly when nothing is active or queued |
| `TranscriptIndex.StepKeepsInv` | app/src/main/transcript-store.ts:120-177 | every step keeps the write chain's invariant and the disk version never goes back |
| `TranscriptIndex.WritesNeverOverlap` | app/src/main/transcript-store.ts:127-144 | in every run at most one write uses the staging file, and the disk holds a whole index of a version that never goes back |
| `TranscriptIndex.FlushIsDurable` | app/src/main/transcript-store.ts:145-156 | a `flushIndex` that resolves means the disk holds the sessions as of the call or after a later mutation |
| `TranscriptIndex.EveryFlushCanResolve` | app/src/main/transcript-store.ts:120-156 | from any reachable state, whatever failed before, the writes under way can all be brought to their end, and then every flush whose own write has not failed has resolved |
| `TranscriptIndex.IndexStore.EnqueueIndexWrite` | app/src/main/transcript-store.ts:139-144 | joins the chain behind the latest write |
| `TranscriptIndex.IndexStore.AppendEntry` | app/src/main/transcript-store.ts:250-267 | mutates and restarts the debounce timer |
| `TranscriptIndex.IndexStore.PersistEdit` | app/src/main/transcript-store.ts:171-177 | mutates, drops the timer and writes through |
| `TranscriptIndex.IndexStore.TimerFires` | app/src/main/transcript-store.ts:157-165 | the fired timer enqueues one write |
| `TranscriptIndex.IndexStore.FlushNow` | app/src/main/transcript-store.ts:145-156 | turns a pending timer into a write, otherwise awaits the latest write |
| `TranscriptIndex.IndexStore.WriteIndexStarts` | app/src/main/transcript-store.ts:120-122 | a write takes the sessions as they are when it starts |
| `TranscriptIndex.IndexStore.StagingWritten` | app/src/main/transcript-store.ts:122 | the staging file is written or torn |
| `TranscriptIndex.IndexStore.StagingRenamed` | app/src/main/transcript-store.ts:123 | the rename puts what the staging file holds on disk |
| `LinkManager.OneLiveLink` | app/src/main/link-manager.ts:48-139 | under every interleaving at most one run loop is live, it is the active one, and everything emitted came from the then current generation |
| `LinkManager.EmitsForTheNewestCall` | app/src/main/link-manager.ts:54-96 | whatever is emitted comes from the run of the newest call to start or restart, and nothing comes after a stop |
| `LinkManager.SupersededNeverLaunches` | app/src/main/link-manager.ts:113-128 | of overlapping calls only the newest can launch |
| `LinkManager.NewestLaunches` | app/src/main/link-manager.ts:113-136 | and it does as soon as the aborted run it waits for has settled |
| `LinkManager.NothingLaunchesAfterStop` | app/src/main/link-manager.ts:137-140 | after stop nothing launches or is emitted until a new start or restart |
| `LinkManager.LiveRunSettles` | app/src/main/link-manager.ts:60-111 | any live run settles by at most three events of its own, and then the newest call can launch |
| `LinkManager.ShownIsEmitted` | app/src/main/link-manager.ts:52-96 | in every run the manager's status is the one emitted last, and only a run that got its credentials has put out chunks or attachments |
| `LinkManager.Manager.PublishStatus` | app/src/main/link-manager.ts:54-58 | only the current generation's status is kept and emitted |
| `LinkManager.Manager.BeginCall` | app/src/main/link-manager.ts:113-127 | start and restart take a new generation and abort the active run |
| `LinkManager.Manager.EndCall` | app/src/main/link-manager.ts:118-131 | after the wait, only the current call launches |
| `LinkManager.Manager.StopLink` | app/src/main/link-manager.ts:137-140 | a new generation, and the active run aborted |
| `LinkManager.Manager.CredentialsLoaded` | app/src/main/link-manager.ts:64-71 | a superseded run ends, an unpaired one says so, otherwise the client starts |
| `LinkManager.Manager.OnClientStatus` | app/src/main/link-manager.ts:75-88 | for the current generation only: "linked" is linked without a message, "link dropped" and what follows is a drop with it, any other message keeps the state |
| `LinkManager.Manager.OnClientOutput` | app/src/main/link-manager.ts:89-96 | passes chunks and attachments on for the current generation only |
| `LinkManager.Manager.RunSettles` | app/src/main/link-manager.ts:103-110 | a finished run clears `active` only if it is its own |
| `LinkManager.Manager.RestartFailed` | app/src/main/link-manager.ts:129-135 | a failed restart reports a drop for the current generation only |
| `EncodeQueue.AlwaysConsistent` | src/lib/memory/dreaming-service.ts:311-375 | in every run at most three encodes run, queue and set mirror each other without duplicates and disjoint from running work, pending is part of running, a free slot means an empty queue, starts are first-in first-out, and what was requested since its last start is queued or pending |
| `EncodeQueue.RequestIsServed` | src/lib/memory/dreaming-service.ts:311-375 | every request is followed by an encode of its conversation that starts after it: once the encode then running has finished, within as many finishes as the queue is long, unless the service is stopped |
| `EncodeQueue.IdleMeansServed` | src/lib/memory/dreaming-service.ts:311-375 | when nothing runs and the service was not stopped, every request so far was followed by an encode of its conversation |
| `EncodeQueue.QueuedStartsInTurn` | src/lib/memory/dreaming-service.ts:325-336 | the conversation at position p is started as the next but p, within p + 1 finishes |
| `EncodeQueue.PendingIsQueuedOnFinish` | src/lib/memory/dreaming-service.ts:368-374 | a request made while its conversation is encoding enters the queue at that encode's finish |
| `EncodeQueue.FinishStartsOne` | src/lib/memory/dreaming-service.ts:368-374 | a finish with work queued starts at least one encode |
| `EncodeQueue.DreamingService.RequestEncode` | src/lib/memory/dreaming-service.ts:311-323 | one request step: pending if running, ignored if queued or stopped, otherwise queued and pumped |
| `EncodeQueue.DreamingService.PumpEncodeQueue` | src/lib/memory/dreaming-service.ts:325-336 | starts from the head until three run or the queue is empty |
| `EncodeQueue.DreamingService.EncodeFinished` | src/lib/memory/dreaming-service.ts:368-374 | frees the slot, re-queues a pending request, pumps |
| `EncodeQueue.DreamingService.StopService` | src/lib/memory/dreaming-service.ts:117-127 | clears queue and sets for good |
| `TurnQueue.StepKeepsInv` | app/src/main/turn-manager.ts:63-177 | every event keeps the queue invariant |
| `TurnQueue.TurnsRunInOrder` | app/src/main/turn-manager.ts:76-154 | per conversation: started turns are the submitted, not cancelled ones in order, each sent and settled at most once, each started only when all earlier ones are persisted |
| `TurnQueue.CapturedQueueIsCurrent` | app/src/main/turn-manager.ts:76-114 | the queue object a settling turn captured is still the one in the map, and the turn its inflight one |
| `TurnQueue.HasWorkIff` | app/src/main/turn-manager.ts:181-184 | a conversation has work exactly while some submitted, not cancelled turn is not persisted, and exactly while it has a queue |
| `TurnQueue.IdleIff` | app/src/main/turn-manager.ts:185-187 | idle exactly when every submitted turn is persisted or cancelled |
| `TurnQueue.StoppedIff` | app/src/main/turn-manager.ts:93-105 | a settlement is reported as stopped exactly if the send failed and the turn was stopped after it had started |
| `TurnQueue.TurnManager.GetQueue` | app/src/main/turn-manager.ts:63-70 | the conversation's queue, created on demand |
| `TurnQueue.TurnManager.DrainQueue` | app/src/main/turn-manager.ts:76-90 | starts the first waiting turn when none is inflight, deletes an empty queue |
| `TurnQueue.TurnManager.SubmitTurn` | app/src/main/turn-manager.ts:147-154 | queues the turn behind the others and drains |
| `TurnQueue.TurnManager.CancelQueued` | app/src/main/turn-manager.ts:163-177 | removes the turn where it waits and nothing else |
| `TurnQueue.TurnManager.StopInflight` | app/src/main/turn-manager.ts:155-162 | aborts the turn where it is inflight and nothing else |
| `TurnQueue.TurnManager.SendSettles` | app/src/main/turn-manager.ts:134-143 | hands the outcome to the settlement handler once |
| `TurnQueue.TurnManager.SettlementPersisted` | app/src/main/turn-manager.ts:106-114 | frees the captured queue and drains its conversation |
| `TurnQueue.TurnManager.HasWork` | app/src/main/turn-manager.ts:181-184 | answers whether a turn of the conversation is still to be persisted |
| `TurnQueue.TurnManager.IsIdle` | app/src/main/turn-manager.ts:185-187 | answers whether every submitted turn is persisted or cancelled |
| `Base64.DecodedCanonicalBase64Bytes` | app/src/main/ipc-schemas.ts:113-141 | returns n exactly when the suffix is the padded encoding of a non-empty byte string, and every byte string it encodes has length n |
| `Base64.AcceptsIffEncoding` | app/src/main/ipc-schemas.ts:113-141 | alphabet, padding and zero pad bits together say exactly that the text is an encoding |
| `Base64.DecodeUndoesEncode` | app/src/main/ipc-schemas.ts:101-141 | every encoding is accepted, decodes to its bytes and has the computed length |
| `Base64.EncodeUndoesDecode` | app/src/main/ipc-schemas.ts:101-141 | every accepted text is the encoding of what it decodes to, so it has no other spelling |
| `Base64.EncodingIsUnique` | app/src/main/ipc-schemas.ts:113-141 | no two byte strings share an encoding |
| `Base64.SymbolValue` | app/src/main/ipc-schemas.ts:101-108 | `base64Value` inverts the alphabet of RFC 4648 |
| `Base64.ValueSymbol` | app/src/main/ipc-schemas.ts:101-108 | and accepts nothing outside it |
| `TreeMove.FileSystem.CopyTreeWithoutOverwrite` | src/lib/migrations/data-dir.ts:635-662 | stopped anywhere, the copy only adds nodes that mirror the source and overwrites at most conflict copies of source files; finished, each file is at its free target or at its conflict path, and each directory at its target; a copy that nothing outside stops does finish when nothing stands in its way |
| `TreeMove.FileSystem.CopyDirectory` | src/lib/migrations/data-dir.ts:640-653 | the directory branch, over the entries in any order |
| `TreeMove.FileSystem.CopyOneFile` | src/lib/migrations/data-dir.ts:655-661 | the file branch: to the target if it is free, otherwise to the conflict path |
| `TreeMove.FileSystem.RemoveTree` | src/lib/migrations/data-dir.ts:395 | removal only takes nodes below its root, contents before directories, so what is left is still reached from the root; nothing but a fault from outside stops it |
| `TreeMove.FileSystem.MoveLegacyTree` | src/lib/migrations/data-dir.ts:388-396 | one run, stopped anywhere: a source node that is gone was copied, and a complete run leaves no source; a run that nothing outside stops completes exactly if no file stands where a directory is needed and no directory at a needed conflict path |
| `TreeMove.CopiedWasFree` | src/lib/migrations/data-dir.ts:635-662 | whatever completes shows that nothing stood in its way |
| `TreeMove.NoLoss` | src/lib/migrations/data-dir.ts:388-396 | after any number of crashed runs and a complete one, each original file's content is at its target or conflict path, each directory at its target, and what the target held before is unchanged |
| `TreeMove.RunsKeepSafe` | src/lib/migrations/data-dir.ts:388-396 | between the runs each original node is still at its source or already copied |
| `TreeMove.OthersUntouched` | src/lib/migrations/data-dir.ts:635-662 | nothing outside the source and the conflict root ever changes |
| `TreeMove.ConflictFileSurvivesIff` | src/lib/migrations/data-dir.ts:656-658 | a complete run keeps a file already at a conflict path exactly when the source has none for it, or its target was free, or both are alike |
| `TreeMove.ConflictFileIsOverwritten` | src/lib/migrations/data-dir.ts:656-658 | a complete run that replaces an older conflict copy |
| `IdentityCache.AnswersAreFresh` | src/lib/identity/resolver.ts:160-184 | in every run of concurrent loads, file changes and failures without an answer by key from a poisoned cache, every answer was the files' content at a moment later than start - TTL, or no older than the latest moment at the start when TTL <= 0, and no newer than the answer |
| `IdentityCache.AgeCountsFromACheck` | src/lib/identity/resolver.ts:160-184 | the cache's age counts from the start of a load that completed its check, never of one that failed |
| `IdentityCache.StepKeepsInv` | src/lib/identity/resolver.ts:160-184 | every step but an answer by key from a poisoned cache keeps the cache invariant |
| `IdentityCache.HitIsCurrentIff` | src/lib/identity/resolver.ts:175-178 | an unchanged key answers with the files' present content exactly when the cache is not poisoned |
| `IdentityCache.GoesStaleIff` | src/lib/identity/resolver.ts:160-205 | the next load can be answered with identities that are gone for any delay not shorter than the TTL, exactly when the cache is not the content its key stands for and every file the key names is still the same |
| `IdentityCache.PoisonIsReachable` | src/lib/identity/resolver.ts:174-183 | for every TTL and whatever the other directories hold, one load that stats before and reads after a file appears brings that about |
| `IdentityCache.PoisonGoesStale` | src/lib/identity/resolver.ts:174-205 | the run in which such a cache answers, after any delay and whatever the TTL, with identities that are gone |
| `IdentityCache.SameKeySameFiles` | src/lib/identity/resolver.ts:186-204 | equal keys at two moments mean equal files at both, though not in between |
| `IdentityCache.StatKey` | src/lib/identity/resolver.ts:186-204 | the loop lists the stamp or the absence of each directory's file |
| `IdentityCache.LoadHumanIdentities` | src/lib/identity/resolver.ts:58-74 | the loop takes the first file present, and empty identities without any |
| `IdentityCache.HumanIdentityStore.BeginLoad` | src/lib/identity/resolver.ts:161-168 | a Begin step of the machine, and the answer it gives |
| `IdentityCache.HumanIdentityStore.AfterStat` | src/lib/identity/resolver.ts:174-178 | a Compare step, and its answer if the key is unchanged |
| `IdentityCache.HumanIdentityStore.AfterRead` | src/lib/identity/resolver.ts:179-183 | a Finish step, and its answer |
| `IdentityCache.AssertUniqueIdentities` | src/lib/identity/resolver.ts:83-111 | accepts exactly the configs in which no two humans share an id or a platform account, ignoring case |
| `IdentityCache.ResolvesTheOnlyMatch` | src/lib/identity/resolver.ts:121-133 | in an accepted config the strict resolution finds a human exactly when it is a match, whatever the order |
| `SemVer.IsNewerVersion` | app/src/main/update-state.ts:112-125 | true exactly when both sides parse and the candidate has higher precedence by section 11, which `ReleasesCompareByNumber` and `LastIdentifierDecides` spell out |
| `SemVer.ComparePrerelease` | app/src/main/update-state.ts:149-168 | negative, zero and positive exactly when the first list ranks below, with and above the second |
| `SemVer.ReleasesCompareByNumber` | app/src/main/update-state.ts:112-120 | of two printed releases the newer is the one whose numbers are larger, the first difference deciding |
| `SemVer.LastIdentifierDecides` | app/src/main/update-state.ts:149-168 | of two prereleases that differ in the last identifier, printed numbers compare as numbers, rank below text, and text compares by its first differing character |
| `SemVer.StringLessIff` | app/src/main/update-state.ts:164 | the string comparison is decided at the first difference, or by the shorter being a prefix |
| `SemVer.NewerIsAStrictWeakOrder` | app/src/main/update-state.ts:112-125 | irreflexive, transitive, with transitive incomparability on parsable versions, and false when a side does not parse |
| `SemVer.IncomparableIsSame` | app/src/main/update-state.ts:112-168 | neither outranks the other exactly when cores are equal and identifiers agree pairwise |
| `SemVer.ParsableIff` | app/src/main/update-state.ts:129-143 | a version parses exactly when it is a well-formed text, perhaps after a v |
| `SemVer.ScanUndoesPrint` | app/src/main/update-state.ts:131-133 | the recogniser recovers the parts of every well-formed text |
| `SemVer.PrintUndoesScan` | app/src/main/update-state.ts:131-133 | and recognises nothing else |
| `SemVer.BuildIsIgnored` | app/src/main/update-state.ts:112-143 | build metadata and the leading v decide nothing |
| `SemVer.PrereleaseRanksBelow` | app/src/main/update-state.ts:121-123 | a release outranks its prereleases |
| `SemVer.LongerPrereleaseRanksAbove` | app/src/main/update-state.ts:150-155 | more identifiers outrank their prefix |
| `ResponseBuffer.SnapshotIsTheFold` | app/src/shared/response-buffer.ts:29-53 | for every chunk stream the buffer holds the deltas of this turn's record-high frames up to the first end |
| `ResponseBuffer.ReplaysChangeNothing` | app/src/shared/response-buffer.ts:36-42 | copies of processed frames anywhere later change nothing |
| `ResponseBuffer.CopyChangesNothing` | app/src/shared/response-buffer.ts:36-42 | a copy of an earlier frame, wherever it arrives, leaves the buffer as if it had not |
| `ResponseBuffer.FirstsFacts` | app/src/shared/response-buffer.ts:36-42 | where the stream without repeats keeps each frame once, and all of a stream that has no repeats |
| `ResponseBuffer.SettleRecords` | app/src/shared/response-buffer.ts:54-65 | after settling the text is the final body, unless the stream covers it and then it stays |
| `ResponseBuffer.SuffixCompletesTheDisplay` | app/src/shared/response-buffer.ts:82-88 | streamed text plus the returned suffix ends with the final body unless the stream covers it |
| `ResponseBuffer.SettleIsIdempotent` | app/src/shared/response-buffer.ts:54-65 | a second settle with the same body returns the empty string and changes nothing |
| `ResponseBuffer.SettledIsFinal` | app/src/shared/response-buffer.ts:36-42 | no frame changes a settled buffer |
| `ResponseBuffer.ResponseBuffer.Accept` | app/src/shared/response-buffer.ts:36-53 | one frame step, so that the buffer stays the fold of the frames so far; a delta is returned exactly when a delta frame was accepted |
| `ResponseBuffer.ResponseBuffer.Settle` | app/src/shared/response-buffer.ts:54-65 | the text becomes the final body unless the stream covers it; the suffix returned is the rest of the body, nothing, or a line break and the whole body |
| `ResponseBuffer.ResponseBuffer.Snapshot` | app/src/shared/response-buffer.ts:66-68 | before settling, the deltas of the frames accepted since construction: this turn's record highs up to the first end |
| `Text.TrimIs` | app/src/shared/response-buffer.ts:86 | trimming removes the white space at both ends and nothing else |
| `Text.SpacesAre` | app/src/shared/response-buffer.ts:86 | the characters trimmed are ECMAScript's white space and line terminators |
| `Text.NumberOfNumeral` | app/src/main/update-state.ts:141 | reading a printed number gives the number |
| `Text.LeadingZero` | app/src/main/update-state.ts:141 | leading zeros are read as nothing |
| `Text.NumeralOfNumber` | app/src/main/update-state.ts:141 | without them printing undoes reading |

## Left out

- The store primitives (`JsonFileStore`, `withManagedWrite`, `atomicWriteInPlace`): taken as atomic read-modify-write
  under a lock that a crash releases. They are not part of this model.
- Handlers, provider turns, `persist`, `sendTurn`, `runClient`, clocks and file reads: any outcome, at any moment.
- Outbox `scheduleNext` and `get`/`list`, and when a timer fires: a drain may begin at any time. In the interleaving model a
  claim may take any due record, which covers `onlyKey`, registered kinds and the earliest-first choice; that choice
  is stated by `Outbox.Earliest`.
- `Object.values` lists integer-like keys first; the file order of the outbox model is any order.
- SHA-256: any function; idempotency is stated for payloads it keeps apart. Random codes, tokens and ids are fresh
  values, so `generateUniqueCode`'s retry loop is not modelled.
- `localeCompare`: any ranking of strings by a total preorder; which strings it ranks alike is not modelled.
- JSON numbers are their printed literals; lone surrogates are ordinary characters.
- Case folding outside ASCII in `normalizePairingCode`: only ASCII letters are upper-cased. `toLowerCase` in the
  identity check is any function.
- The contents of session lists: each mutation may produce any list. The transcript files are not modelled.
- Queue-state and other notifications of the turn manager, and a `sendTurn` that throws at once: the same as one that
  fails later. Callbacks are assumed not to re-enter the manager, and turn ids to be distinct.
- Dream sweeps, watchers and idle timers of the dreaming service: a request may come at any time. An encode that ends
  without doing anything counts as an encode.
- The schema around the base64 recogniser (prefixes, size limits): single-branch checks.
- Symbolic links and special files in the tree move, and other processes writing to it: `TreeMove` has directories
  and regular files only, and source, target and conflict root lie apart as in every caller.
- Token revocation and identity removal besides the authorization refusal.
- Precision of JavaScript numbers in version parts: numbers are unbounded.
- `HumanIdentityStore`: the stats of all directories are taken at one moment and so are the reads; a file's stamp is
  never used again for another version of it. The clock does not go back.
- IdentityCache.AnswersAreFresh: stated for runs without an answer by key from a poisoned cache, because the promise
  fails otherwise; `GoesStaleIff` says exactly which caches can go stale.
- Capacity.BoundedWaiting: stated for takes that are fair to the request; over runs of the controller
  `BoundedWaitingIff` says exactly which requests are bounded.
- Pairing.OneTokenPerPairing: stated for runs without a refusal that drops a stored token's reservation, because it
  fails otherwise; `RefusalSafeIff` says exactly when a refusal is safe.
- Windows, tray, IPC plumbing, renderers, HTTP and subprocess code, configuration parsing, prompt text, pet states
  and window geometry: plumbing or single-branch code.
