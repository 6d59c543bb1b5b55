# Device-message delivery: a verified model

This project models how a device-messaging service delivers commands to meters, and proves what the service promises about
it. Three components are covered.

**The message lifecycle engine.** A message lives in Redis as a hash and as a member of one sorted set: its plugin's ready
queue, or one of the stage queues `ns`, `relayNode`, `device`, `awaitingTask`, `retry`. Five kinds of actor move it: the
runner's tick, the distributor, a settling vendor call, vendor events and polls, and cancellation. The model has four layers.

1. `StoreSpec` is the Redis state as a value with one function per atomic Redis operation, the two Lua scripts included.
   `World` adds the clock, the vendor calls the process awaits, and a record of what happened.
2. `OnePlace`, `Admission`, `Starvation` and `SendOrder` hold for every interleaving of those operations, whatever snapshot the issuing
   handler acted on (`Allowed`): counts, histories, external ids, slots and source queues may be arbitrarily stale.
3. `Handlers` gives each handler as the list of steps it issues. `Soundness`, `Runs`, `Cleanup`, `Drain`, `InFlightRuns`,
   `Homes`, `History`, `Termination` and `StaleVisits` hold for every run of handlers, each of which completes or is cut off
   by a crash after any number of its steps, mixed with hash and index expiry and restarts. `Rows` adds the runner's due
   lists and the guard that keeps two drains of one queue apart. `Journey` and `Outcomes` say, case by case, what each
   handler does to a message: where it then waits and until when, or how it ended and what was announced. `Lives` puts
   whole lives together.
4. `RedisPort`, `Registry`, `Moves`, `Engine`, `Outgoing` and `Runner` are the code's own shape: objects updated in place,
   call by call. Every handler method is proved equal to its script, and the engine's invariant says its state is one a run
   reaches, so the theorems about runs apply to the objects; `History.NotificationsAreInOrder` is about runs without a crash.

**The outbound webhook messenger.** `Webhook` is a drain at work, which may be cut off between any two steps by a crash or a
failed Redis command. `WebhookChain` is the promise chain of kicked drains, from which it follows that only one of them is at
work. `WebhookMessenger` is the store and one drain as objects that follow the machine.

**The CALIN codec and correlator.** `CalinFrame`, `CalinNumbers`, `CalinCodec` and `CalinDecoder` print and parse the meter's
byte frames, and `CalinCommands` says what every command puts on the wire; `Correlator` joins an uplink with its acknowledgement.

## What the code does not keep

Each of these is a property the code's design suggests and the code misses in one case. The case is proved, and so is the
exact condition under which the property holds.

- Entering retry checks membership (ZSCORE) and writes (MULTI) in two steps. A purge between them is undone: the purged id
  comes back, as a hash without a device (`OnePlace.SplitRetryResurrects`, `OnePlace.UngatedRetryKeepsPlacedIff`).
- The same write does not check that the hash exists, so it recreates a hash that expired
  (`OnePlace.RetryLeavesBodylessHashIff`). Loading such a hash throws outside the action's guard, so every drain of that
  queue stops at that member (`Drain.VisitSettlesIff`, `Drain.PoisonedQueueIsStuck`).
- A requeue that dies between its Lua move and its SADD leaves work in a ready queue no distribute pass looks at, unless the
  queue was listed already (`Admission.CrashedRequeueHidesWorkIff`, `Admission.HiddenWorkStaysHidden`).
- A purge deletes the external-id index and the slot its snapshot shows. From an older snapshot it leaves the current ones
  behind (`Cleanup.PurgeIsCompleteIff`).
- Two ways a visit can end its message do not ask whether the message is still in the visited queue: the final failure of
  `retryOrFail`, which the `ns`, `relayNode` and `device` visits take when no retry is left, and the 48-hour cap of
  `awaitingTask`. A drain that reaches a member after that member moved on then fails it at once, before an attempt it still
  had, or while its vendor call is under way (`StaleVisits.StaleVisitIsHarmlessIff`, `StaleVisits.TrackedMessageStaysIff`,
  `StaleVisits.EarlyFailureWastesAnAttempt`). Its failure history then has one entry more than it was sent
  (`History.FailureLengthIsExact`).
- Cancelling claims a message before it purges it. A cancel that dies in between leaves the message alive, in no queue,
  unannounced, for good; nothing else does (`Homes.LiveMessageIsQueuedIff`).
- A token longer than 253 bytes encodes to a list whose size entry is not a byte (`CalinCodec.SizeEntryIsByteIff`).
- A four-byte integer field of 2^31 or more reads 2^32 too low (`CalinNumbers.CombineIsLittleEndian`).
- A SET_DATE frame carries two digits of the year, so a full year outside 2000 to 2099 reads back in that century
  (`CalinDecoder.YearReadsBackIff`), and two dates a century apart, with the same weekday, encode to the same frame
  (`CalinCodec.FrameMeansOneRequest`).

## Assumptions

- A handler runs as one step on a current snapshot, except that a crash may cut it off anywhere and that a visit may come
  from a due list read earlier. The layer-2 theorems need neither. In particular entering retry's check and write are one
  step except in the lemmas above, and a pick, its first notification and the registration of its vendor call are one step.
- A due time is computed and written at one reading of the clock, and the clock does not go back.
- Message ids are fresh, and no id carries a creation time in the future. Vendor ids are not reused while a message carries
  them, correlation keys are not reused while their message lives, a pushed event names a message of the plugin that parsed
  it, and a status poll is answered about the polled message.
- A webhook is configured and every notification builds. Without a webhook the service announces nothing
  (src/engine/base.ts:72-75), and a notification that does not build is dropped.
- An index entry expires no earlier than the hash it points at. The plugin registry does not change.
- Time and scores are real numbers. The random draw of the backoff is any real in [0, 1).

## Model

| member | source | states |
|---|---|---|
| OnePlace.EveryReachableMessageIsPlaced | src/engine/lifecycle/moves.ts:152-405 | under every interleaving of atomic steps with stale snapshots, a message is in at most one queue, and a live one only in the queue its status and its plugin's pattern name |
| OnePlace.NoResurrection | src/lib/redis-repository/lua/move-message-between-queues.lua:47-61 | once purged, an id is in no hash and no queue after any further interleaving |
| OnePlace.UngatedRetryKeepsPlacedIff | src/engine/lifecycle/moves.ts:263-346 | the retry write issued without its check keeps every message in place exactly when the message was not purged and no third queue holds it; the check would have established that |
| OnePlace.SplitRetryResurrects | src/engine/lifecycle/moves.ts:272-344 | for every waiting message, a purge between the check and the write of entering retry is undone |
| OnePlace.RetryLeavesBodylessHashIff | src/engine/lifecycle/moves.ts:321-328 | entering retry leaves a hash without its device exactly when the hash had expired |
| Admission.ReadyWorkIsReachable | src/lib/redis-repository/stage-store.ts:188-204 | unless a requeue is between its move and its SADD, the ready queue of every waiting message is listed for distribution and its key parses to the plugin that owns the message |
| Admission.SlotsNeverExceedCap | src/lib/redis-repository/lua/fetch-next-message-in-queue.lua:40-49 | in every reachable world no concurrency set exceeds its plugin's cap |
| Admission.SlotsFollowStatus | src/engine/outgoing.ts:149-159 | a live message is in a concurrency set exactly when its hash carries that key, which is exactly while a message of a capped plugin is in flight and the set is that of its ready queue |
| Admission.CrashedRequeueHidesWorkIff | src/lib/redis-repository/stage-store.ts:188-204 | a requeue that dies before its SADD hides its ready queue exactly when the queue was not listed |
| Admission.HiddenWorkStaysHidden | src/lib/redis-repository/message-store.ts:98-101 | hidden work stays hidden until an enqueue or a requeue names the same queue |
| Starvation.DueMemberIsAttended | src/engine/lifecycle/runner.ts:107-141 | a due member of rank r is attended within r / 50 + 1 completed drains, whatever else is inserted, moved or rescheduled |
| Starvation.StarvationIsBounded | src/lib/redis-repository/stage-store.ts:173-182 | each completed drain that passes a due member over takes fifty members from ahead of it |
| Starvation.RunKeepsSettled | src/engine/lifecycle/moves.ts:219-237 | once settled for a clock reading, a member never becomes due at that reading again |
| SendOrder.HeadIsFirstInLine | src/lib/redis-repository/message-store.ts:98-99 | under every interleaving, requeues included, a message heads its ready queue exactly when every other one there has a lower priority, or the same and a later id |
| Continuation.RunsAreReachable | src/engine/lifecycle/moves.ts:152-405 | every world that a run of handlers reaches, crashes included, is reached by some interleaving of the atomic steps, so the theorems about interleavings hold of runs |
| Runs.ScriptIsFresh | src/engine/lifecycle/moves.ts:182-405 | every handler issues only steps that are current when they run, from any sound world |
| Soundness.StepKeepsSound | src/engine/lifecycle/moves.ts:152-405 | the whole invariant (placement, fields against status, indexes, slots, send budget, no silent loss) survives every atomic step, so it holds wherever a crash stops a handler |
| Runs.SendBudget | src/engine/base.ts:104-106 | in every run, crashes included, a message is sent at most maxRetries + 1 times, and its picks are its retry count, plus one while it is in flight |
| Runs.NoSilentLoss | src/engine/base.ts:119-129 | whatever crashed, a purged message was cancelled or had a terminal event persisted |
| Runs.IndexIsInverse | src/engine/lifecycle/moves.ts:230-241 | the external-id index is the exact inverse of the hash field over live messages, present exactly for delivered-to-ns and sent-to-device |
| Runs.EventReachesInFlight | src/engine/incoming.ts:114-156 | a vendor event reaches only messages the network server or the device holds |
| Cleanup.PurgedMessageIsErased | src/lib/redis-repository/stage-store.ts:206-231 | whichever handler resolves, fails, ages out or cancels a message, nothing names it afterwards and every other entry is unchanged |
| Cleanup.PurgeIsCompleteIff | src/lib/redis-repository/stage-store.ts:206-231 | a purge from a snapshot erases the message and nothing else exactly when the snapshot shows the external id and slot the live hash carries |
| Cleanup.SweepCoversQueues | src/engine/lifecycle/moves.ts:368-384 | the derived sweep list covers every queue the message can occupy |
| Drain.VisitSettlesIff | src/engine/lifecycle/runner.ts:110-140 | the visit of a due member leaves it out of the queue or due later, whatever its action does, exactly when its hash can be loaded |
| Drain.RunsHaveNoUnloadableHash | src/lib/redis-repository/message-store.ts:81-85 | in every run of handlers every hash can be loaded, so no drain is cut short |
| Drain.PoisonedQueueIsStuck | src/engine/lifecycle/runner.ts:107-112 | once a member that cannot be loaded is the due head of a stage queue, every later drain of that queue attends no one, whatever else happens, until that member is moved or rescored |
| InFlightRuns.NoDuplicateSend | src/engine/lifecycle/actions.ts:83-97 | at most one vendor call per message is outstanding, and its message, while it lives, is in the ns queue and nowhere else; when it stops living or leaves is what StaleVisits.TrackedMessageStaysIff states |
| History.NotificationsAreInOrder | src/engine/incoming.ts:163-195 | in crash-free runs a message's notifications are a prefix of sent followed by one terminal event, issued exactly when it was resolved and not cancelled |
| History.FailureListsEveryAttempt | src/engine/base.ts:104-129 | a failure is announced exactly when retry is skipped or used up, with one entry per retry plus its own, only the head final |
| History.FailureLengthIsExact | src/engine/base.ts:104-129 | in every run, crashes included, each failure lists one entry per pick of its message, and one more exactly when the message was not in flight when it was failed |
| History.OnlyLateVisitsFailEarly | src/engine/base.ts:119-129 | a message that is not in flight is failed only by a visit of a queue it has left |
| Homes.LiveMessageIsQueuedIff | src/engine/outgoing.ts:293-316 | after every run, with any crashes, a live message is in the queue its status names, and no other, exactly unless a cancel of it died between its claim and its purge; then it is in none |
| Homes.InFlightMessageIsQueued | src/engine/lifecycle/stages.ts:157-179 | whatever crashed, a live message in flight is in the queue of its stage |
| Termination.PullMovesWithinBudget | src/engine/lifecycle/stages.ts:118-144 | a PULL message makes at most 4 * maxRetries + 3 moves |
| Termination.VisitMakesProgress | src/engine/lifecycle/actions.ts:144-169 | every visit of a due PULL member whose send is not outstanding burns fuel: retries, stages of the round, poll slots before the age cap |
| Termination.DueVisitsAreBounded | src/engine/lifecycle/stages.ts:43-57 | over any run whose polls of a PULL message find it due, however late its other visits, crashes included, the visits that find it due number at most its fuel |
| Rows.PullVisitsAreBounded | src/engine/lifecycle/runner.ts:61-172 | the same for every run whose drains are kept apart by the per-row guard, with nothing assumed about when visits come |
| Rows.PullMessageIsVisitedBoundedly | src/engine/lifecycle/runner.ts:61-172 | from before a PULL message is enqueued, in every guarded run, the visits that find it due number at most (4 * maxRetries + 3) * 17282: moves, times 48 hours in steps of ten seconds and two |
| Rows.GuardedPollIsOnTime | src/engine/lifecycle/runner.ts:107-141 | under the guard a poll of a live message finds it in its queue and due, whatever happened since the due list was read |
| Rows.GuardedRunIsARun | src/engine/lifecycle/runner.ts:61-172 | every run of the tick's rows, with other handlers between any two visits, is a run of handlers |
| Termination.EnqueuedFuel | src/engine/lifecycle/stages.ts:43-57 | the fuel of a freshly enqueued message |
| Termination.SpentFuelMeansGone | src/engine/lifecycle/actions.ts:144-148 | the fuel is spent exactly when the message is gone |
| StaleVisits.StaleVisitIsHarmlessIff | src/engine/lifecycle/actions.ts:58-189 | a visit of any stage queue for a live message that left it leaves the message exactly as it was, or fails it at once; it fails it exactly when retries are used up in ns (no send outstanding), relayNode (the vendor does not still queue it) or device, or the 48 hours are over in awaitingTask, and never in retry |
| StaleVisits.TrackedMessageStaysIff | src/engine/lifecycle/actions.ts:83-97 | a message whose vendor call is outstanding stays in ns through every handler but that call's settlement, exactly unless the handler is such an ending visit or the hash expires |
| StaleVisits.EarlyFailureWastesAnAttempt | src/engine/base.ts:104-129 | on its last retry a message has used up its picks exactly when it is in flight |
| Journey.AdmittedHeadIsSent | src/engine/outgoing.ts:249-275 | an admitted pass puts the head of the queue in ns, and nowhere else, for the plugin's timeout, with its slot and its vendor call, announced on its first send only |
| Journey.AcceptedSendWaits | src/engine/outgoing.ts:223-229 | an accepted send waits for the relay node or for its first poll, by its pattern, and is indexed under the vendor's id |
| Journey.HandedOverWaits | src/engine/incoming.ts:120-125 | the hand-over to the radio starts the wait for the device |
| Journey.FailedAttemptWaits | src/engine/base.ts:98-141 | a failed attempt with retries left waits between its turn's delay and one and a half times it, one retry richer, with the failed status and reason on top of its history, without external id, index entry or slot |
| Journey.DueRetryIsReadyAgain | src/engine/lifecycle/actions.ts:175-189 | a due retry is back in its ready queue at its original priority, and the queue is listed |
| Journey.StillWaiting | src/engine/lifecycle/runner.ts:75-139 | a member whose action throws or reports still waiting stays in its queue unchanged for exactly the stage's wait |
| Journey.SuccessResolves | src/engine/incoming.ts:163-195 | a success drops the message and announces it, with the execution failure it carries as the final entry before the earlier history |
| Journey.OldTaskFails | src/engine/lifecycle/actions.ts:58-80 | a task unfinished after 48 hours fails for good at its next visit, with a final entry before the earlier history |
| Outcomes.PollOutcome | src/engine/lifecycle/actions.ts:144-169 | a poll of a task in its queue: at 48 hours it fails for good; before that a reported success ends it announced, a reported failure is retried or final, and any other answer leaves it waiting 10, 15, 20 or 30 seconds by its age |
| Outcomes.DeadlineOutcome | src/engine/lifecycle/actions.ts:83-136 | a due member of ns, relayNode or device is retried, or failed when no retry is left, with its stage's reason, exactly unless its send is awaited or the vendor still queues it; then it waits another timeout |
| Outcomes.EventOutcome | src/engine/incoming.ts:90-196 | a vendor event about a live message: a hand-over starts the device wait unless it has begun, a failure is retried or final with the reported reason, a success ends it, and any other status changes nothing |
| Outcomes.StrayEventOutcome | src/engine/incoming.ts:96-118 | an unsolicited event is passed on, and it, one that names nobody, or one about a message that is gone, touches no message |
| Outcomes.SettlementOutcome | src/engine/outgoing.ts:170-230 | an accepted send waits by its pattern under the vendor's id; one without an id fails for good, however many retries are left; one that threw is retried or final |
| Outcomes.SettlementReleases | src/engine/in-flight-sends.ts:56-62 | a settled send is awaited no longer, whatever it came to |
| Outcomes.PassOutcome | src/engine/outgoing.ts:242-276 | the live head of a ready queue is sent exactly when the queue's lock opened, or fewer live messages are in flight than the cap; otherwise nothing happens to it |
| Outcomes.RefusedPassOutcome | src/engine/outgoing.ts:137-161 | a pass that lets nothing through changes nothing but the slots of dead messages |
| Outcomes.OrphanPassOutcome | src/lib/redis-repository/lua/fetch-next-message-in-queue.lua:72-80 | a head whose hash is gone is dropped from its queue, and nothing is sent or announced |
| Outcomes.PickUnlistsIff | src/lib/redis-repository/lua/fetch-next-message-in-queue.lua:51-72 | a pick unlists its ready queue exactly when it leaves it empty, and no other queue |
| Outcomes.CancelOutcome | src/engine/outgoing.ts:293-316 | a cancel takes effect exactly on a live message in its ready queue or in retry, announces nothing, and touches no other |
| Outcomes.EnqueueOutcome | src/lib/redis-repository/message-store.ts:88-115 | an enqueued message waits untried in its listed ready queue, scored by its priority, under its correlation id, and no other message changes |
| Lives.FailingLife | src/engine/base.ts:89-142 | from a message waiting alone in an admitted ready queue there is a run in which every vendor call throws; it is announced once, picked maxRetries + 1 times in all, failed once with as many entries, and gone |
| Lives.FailedRound | src/engine/lifecycle/actions.ts:175-189 | pick, throw, backoff and requeue can follow each other and bring the message back to its ready queue, alone and admitted, one retry richer |
| Lives.DeliveredLife | src/engine/incoming.ts:90-196 | pick, acceptance, hand-over and success can follow each other for a PUSH message, which is announced once, succeeds once with one failure per retry it took, and is gone |
| Lives.PolledLife | src/engine/lifecycle/actions.ts:144-169 | pick, acceptance and a first poll that reports success can follow each other for a PULL message, which is announced once, succeeds once with one failure per retry it took, and is gone |
| Continuation.EveryStagedMessageWasPicked | src/engine/lifecycle/moves.ts:182-207 | in every run a member of a stage queue has been picked, even if its hash is gone |
| Continuation.HandlerLetsNothingFallDue | src/engine/lifecycle/moves.ts:348-366 | no handler makes a settled member due at an earlier clock reading |
| QueueKeys.BuiltKeyRoutesBack | src/plugins/_shared/initial-queue-key.ts:27-58 | a built key parses back to its plugin exactly when the plugin id is a usable segment |
| QueueKeys.BuiltKeyParts | src/plugins/_shared/initial-queue-key.ts:27-47 | a built key parses into the prefix, the plugin, the kind and the id, in that order |
| QueueKeys.ParsesIff | src/plugins/_shared/initial-queue-key.ts:41-47 | a key parses exactly when it could have been built |
| QueueKeys.RateLimitKeyInjective | src/plugins/_shared/initial-queue-key.ts:72-76 | two ready queues never share a concurrency set |
| QueueKeys.RedisNamesDistinct | src/lib/redis-repository/keys.ts:20-71 | stage queues and valid ready queues have distinct Redis keys |
| Stages.BackoffBounds | src/lib/retry-helpers.ts:30-45 | the delay before a retry lies between the capped delay and one and a half times it |
| Stages.NextBackoff | src/lib/retry-helpers.ts:40-41 | each capped delay is the multiplier times the one before, or the cap if that is smaller, and none is below the last |
| Stages.FirstBackoff | src/lib/retry-helpers.ts:40-41 | the first capped delay is the base delay, or the cap if that is smaller |
| Stages.BackoffReachesCap | src/lib/retry-helpers.ts:40-41 | with a multiplier above one the delays reach the cap and stay there |
| Stages.DefaultBackoffs | src/lib/retry-helpers.ts:18-24 | with the default knobs the delays are 2, 4, 8 and 16 seconds and so on, 68 minutes and 14 seconds over eleven retries |
| Stages.JitterIsShareOfHalf | src/lib/retry-helpers.ts:42-44 | the jitter adds the draw's share of half the capped delay, in whole milliseconds |
| Stages.WaitsByStage | src/engine/lifecycle/stages.ts:43-109 | a waiting member is looked at again after its stage's own timeout, and a task after 10, 15, 20 or 30 seconds by its age |
| Stages.WaitsArePositive | src/engine/lifecycle/stages.ts:66-109 | every wait the stage table produces is at least one millisecond |
| Stages.EnumerateStageQueues | src/engine/lifecycle/stages.ts:226-243 | lists the four shared queues and one awaiting-task queue per given plugin, and nothing else |
| RedisPort.RedisStore.EnqueueDeviceMessage | src/lib/redis-repository/message-store.ts:88-115 | hash, queue member, distribute set and correlation index, and nothing else |
| RedisPort.RedisStore.FetchNextMessageInQueueAndMove | src/lib/redis-repository/lua/fetch-next-message-in-queue.lua:27-108 | refuses at the cap, pops the lowest member, unlists an emptied queue, skips an orphan, claims the rest |
| RedisPort.RedisStore.MoveMessageBetweenQueues | src/lib/redis-repository/lua/move-message-between-queues.lua:34-84 | the gated move, and whether it committed |
| RedisPort.RedisStore.GetExpiredMessagesInQueue | src/lib/redis-repository/stage-store.ts:173-182 | the first fifty due members in member order |
| RedisPort.RedisStore.FindHead | src/lib/redis-repository/lua/fetch-next-message-in-queue.lua:51-54 | the member no other precedes |
| RedisPort.RedisStore.RequeueMessage | src/lib/redis-repository/stage-store.ts:188-204 | back to the ready queue, listed only when the move committed |
| RedisPort.RedisStore.MessageFullCleanup | src/lib/redis-repository/stage-store.ts:206-231 | the hash, every listed queue, the snapshot's slot and indexes |
| RedisPort.RedisStore.WriteRetryEntry | src/engine/lifecycle/moves.ts:321-344 | the compound write that enters retry |
| RedisPort.RedisStore.ZaddXx | src/lib/redis-repository/stage-store.ts:245-247 | rescores a member only while it is there |
| RedisPort.RedisStore.RemoveMessageFromQueue | src/lib/redis-repository/stage-store.ts:184-186 | removes one member and reports whether it was there |
| RedisPort.RedisStore.ValidateAndCleanConcurrencyRateLimit | src/lib/redis-repository/admission-store.ts:65-91 | drops exactly the members whose hash is gone and counts the rest |
| RedisPort.RedisStore.LockQueueForTime | src/lib/redis-repository/admission-store.ts:57-59 | acquires a lock exactly when it is free or expired |
| RedisPort.RedisStore.GetAllMessagesForCorrelationId | src/lib/redis-repository/message-store.ts:131-152 | the live messages the base key and the phase keys name, in order |
| RedisPort.NamedByPhases | src/lib/redis-repository/keys.ts:60-66 | the messages of a correlation id are exactly the live ones its own key or one of its three phase keys names |
| Registry.InFlightSends.Track | src/engine/in-flight-sends.ts:56-62 | a promise is registered at once and becomes its message's latest |
| Registry.InFlightSends.Settle | src/engine/in-flight-sends.ts:57-59 | settling drops the registration only if it is that promise's own: an older promise never drops a newer one |
| Registry.InFlightSends.Has | src/engine/in-flight-sends.ts:64-66 | a message is held exactly while its latest promise is unsettled |
| Moves.StageMoves.PickIntoNs | src/engine/lifecycle/moves.ts:182-207 | the pick of a ready queue below its cap is the pick step on its head |
| Moves.StageMoves.Advance | src/engine/lifecycle/moves.ts:209-255 | the move to the next stage, due at that stage's wait, and whether it was claimed |
| Moves.StageMoves.EnterRetry | src/engine/lifecycle/moves.ts:263-346 | check, read and write together are the retry step, or nothing |
| Moves.StageMoves.Purge | src/engine/lifecycle/moves.ts:374-384 | sweeping the enumerated queues and the ready queue is the purge step |
| Moves.StageMoves.Requeue | src/engine/lifecycle/moves.ts:395-405 | the two steps of a requeue, the second only when the first committed |
| Engine.DeliveryEngine.RetryOrFail | src/engine/base.ts:89-142 | carries out the retry-or-fail script and reports its outcome |
| Engine.DeliveryEngine.ProcessEvent | src/engine/incoming.ts:90-196 | carries out the script of a vendor event |
| Engine.DeliveryEngine.StageAction | src/engine/lifecycle/actions.ts:82-190 | carries out the action of each stage |
| Engine.DeliveryEngine.Attend | src/engine/lifecycle/runner.ts:110-140 | one due member: the engine's world is the one its script leads to, and stays reachable |
| Engine.DeliveryEngine.Ingress | src/engine/incoming.ts:205-217 | a pushed event does the same |
| Engine.DeliveryEngine.Enqueue | src/engine/outgoing.ts:346-379 | an enqueue does the same |
| Outgoing.OutgoingService.CanAdmit | src/engine/outgoing.ts:137-161 | a spaced queue is admitted exactly when its lock is free; a capped one when a slot is left after dropping dead members |
| Outgoing.OutgoingService.DistributeQueue | src/engine/outgoing.ts:242-276 | a pass over one queue is its script on the message of the highest priority that waits there longest, with the lock taken exactly when it is free, and a spaced queue yields only once its plugin's interval has passed since it last did |
| Outgoing.OutgoingService.DistributeToNetworkServers | src/engine/outgoing.ts:239-277 | every listed ready queue is passed over exactly once, with what its spacing lock said when the round began; the world is the one these passes lead to, and nothing becomes due. What a pass does to the head is Journey.AdmittedHeadIsSent |
| Outgoing.OutgoingService.SendSettles | src/engine/outgoing.ts:170-230 | a settled vendor call moves its message on, retries or fails it, and releases its registration |
| Outgoing.OutgoingService.CancelOneMessage | src/engine/outgoing.ts:293-316 | cancels, and reports it, exactly when the message lives and waits in its ready queue or in retry |
| Outgoing.OutgoingService.CancelByCorrelationId | src/engine/outgoing.ts:329-343 | cancels exactly the messages of the correlation id that can still be claimed, reports whether that was all, and touches no other message |
| Runner.LifecycleRunner.Drain | src/engine/lifecycle/runner.ts:107-141 | a drain leaves none of fifty or fewer due members due, and fifty fewer of more |
| Runner.LifecycleRunner.Tick | src/engine/lifecycle/runner.ts:144-172 | every row whose previous drain is over is drained at one clock reading, then every queue listed by then is passed over once, and no settled member becomes due |
| Webhook.StoredEventsAreConserved | src/engine/webhook/store.ts:124-177 | in every run, drains cut off anywhere included, a stored event is in exactly one of pending with its payload, delivered, dead-lettered |
| Webhook.PostsAreBounded | src/engine/webhook/service.ts:181-203 | a pending event has failed fewer times than the limit, and POSTs number at most the limit plus those that were cut off |
| Webhook.NextPostWaits | src/engine/webhook/backoff.ts:17-32 | the next POST comes no sooner than the sum of the capped delays after the first, nor than a lease after one that was cut off |
| WebhookChain.DrainsRunOneAtATime | src/engine/webhook/service.ts:85-119 | however many drains are kicked, from the timer or by new events, in any phase, and whichever fail, at most one runs, those before it have settled and those after it wait; so the messenger follows the machine of a single drain |
| WebhookChain.PostEndsBeforeNext | src/engine/webhook/service.ts:105-179 | once one drain has begun a POST, no drain begins another before that one is answered, its drain fails or the process dies |
| WebhookChain.ChainNeverStalls | src/engine/webhook/service.ts:105-112 | while a kicked drain waits, some drain runs or the next one may start |
| WebhookChain.FailureReleasesNext | src/engine/webhook/service.ts:105-112 | a drain that fails is settled by the catch, and the drain kicked after it may start |
| Webhook.ConclusionIsExact | src/engine/webhook/service.ts:56-203 | 200 to 299 delivers; 408, 429, 500 and above, and no answer, leave the event pending for its next delay while attempts are left and bury it on the last; every other status buries it at once; the record counts the failure and says what it was |
| Webhook.BackoffGrows | src/engine/webhook/backoff.ts:17-32 | the first delay is the base, each further one the multiplier times the one before, all cut at the cap |
| Webhook.StepKeepsGood | src/engine/webhook/service.ts:121-203 | conservation, budget and schedule survive every step and every cut |
| Webhook.DefaultWindow | src/engine/webhook/backoff.ts:1-6 | with the default knobs the waits sum to 62 seconds |
| WebhookMessenger.WebhookStore.ListDueEventIds | src/engine/webhook/store.ts:133-142 | the earliest due events, at most fifty, oldest first |
| WebhookMessenger.WebhookService.Accept | src/engine/webhook/service.ts:88-103 | an event that cannot be built is dropped; any other is stored and due at once |
| WebhookMessenger.WebhookService.DeliverOne | src/engine/webhook/service.ts:121-179 | one event is leased, POSTed once and settled by the answer; no other event is touched |
| WebhookMessenger.WebhookService.DrainOnce | src/engine/webhook/service.ts:114-119 | every event of the due batch is POSTed exactly once more and is then gone or due later; no other event is touched |
| Correlator.OrderDoesNotMatter | src/plugins/calin-chirpstack/lib/correlate-request-response.ts:47-116 | the same messages in any orders, each half of an id at most once, within the TTL and with any garbage collection between, emit the same combined events, each pair once |
| Correlator.LoneHalvesWait | src/plugins/calin-chirpstack/lib/correlate-request-response.ts:47-106 | without garbage collection exactly the ids with one half are left waiting |
| Correlator.RunIsGood | src/plugins/calin-chirpstack/lib/correlate-request-response.ts:47-116 | a waiting entry is the only message of its id, and a lone message that is not waiting was collected as stale |
| Correlator.EventCorrelator.HandleAck | src/plugins/calin-chirpstack/incoming.ts:169-188 | an acknowledgement without a queue item id changes nothing, one that was not acknowledged is a failure, and the rest reach the correlator |
| Correlator.EventCorrelator.OnAckEvent | src/plugins/calin-chirpstack/lib/correlate-request-response.ts:47-69 | the in-place update is the step of the specification |
| Correlator.EventCorrelator.OnUpEvent | src/plugins/calin-chirpstack/lib/correlate-request-response.ts:79-106 | the in-place update is the step of the specification |
| Correlator.EventCorrelator.RunGarbageCollection | src/plugins/calin-chirpstack/lib/correlate-request-response.ts:109-116 | the deletion loop removes exactly the stale entries |
| CalinFrame.ReadBuilt | src/plugins/calin-chirpstack/lib/encode-request-data.ts:74-103 | a frame reads back as what it carries, whatever the address, codes and data |
| CalinFrame.ChangeBreaksChecksum | src/plugins/calin-chirpstack/lib/decode-response-data.ts:92-102 | changing one byte before the end byte breaks the checksum |
| CalinCodec.EncodedFrameReadsBack | src/plugins/calin-chirpstack/lib/encode-request-data.ts:41-104 | every command but the DLMS one encodes to a frame that passes every check of the decoder, is 12 bytes longer than its size byte, and reads back as its address, control code, identifier and data |
| CalinCodec.SizeEntryIsByteIff | src/plugins/calin-chirpstack/lib/encode-request-data.ts:87-92 | the size entry is a byte exactly while the data is at most 253 bytes |
| CalinCodec.FrameMeansOneRequest | src/plugins/calin-chirpstack/lib/encode-request-data.ts:106-241 | two requests encode to the same frame exactly when they ask the same meter for the same thing, a date being its year modulo a hundred, month, day and weekday, and a time its hour, minute and second |
| CalinCommands.FrameAsksForCommand | src/plugins/calin-chirpstack/lib/encode-request-data.ts:106-241 | for every command but the DLMS one, the encoded frame is addressed to the digits of the meter and carries that command's control code, identifier and data, as the protocol numbers them |
| CalinCommands.RelayBytes | src/plugins/calin-chirpstack/lib/encode-request-data.ts:137-150 | the turn-on and turn-off frames byte by byte, mask, order, sizes and checksum included, for every meter |
| CalinCommands.EncodesIff | src/plugins/calin-chirpstack/lib/encode-request-data.ts:41-104 | a command is encoded exactly when the meter has at most twelve hexadecimal digits and its token, date or time can be written |
| CalinCommands.AddressSpellsMeter | src/plugins/calin-chirpstack/lib/encode-request-data.ts:53-56 | the six address bytes spell the meter's identifier with zeros in front |
| CalinCommands.PowerLimitRequest | src/plugins/calin-chirpstack/lib/encode-request-data.ts:243-251 | the DLMS request field by field, with the length it declares |
| CalinDecoder.CorruptionRejectedIff | src/plugins/calin-chirpstack/lib/decode-response-data.ts:59-102 | changing any one byte of an accepted frame makes decoding fail, except turning the first byte into zero |
| CalinDecoder.AnswerDecodedIff | src/plugins/calin-chirpstack/lib/decode-response-data.ts:83-162 | a device's answer is decoded exactly when its control code, and for a reading its identifier, are known |
| CalinDecoder.AcceptedIff | src/plugins/calin-chirpstack/lib/decode-response-data.ts:59-162 | of any bytes, exactly those are accepted that take the DLMS path, or have both headers, end byte, checksum and a known control code, and for a reading a known identifier and as many bytes as declared |
| CalinDecoder.SuccessByControl | src/plugins/calin-chirpstack/lib/decode-response-data.ts:104-136 | which control code means that a token, a written command or a reading succeeded, a periodic report always counting as a success |
| CalinDecoder.VoltageReadsBack | src/plugins/calin-chirpstack/lib/decode-response-data.ts:203-208 | every voltage of up to six digits reads back, under its phase, from the three bytes after the first |
| CalinDecoder.PowerReadsBack | src/plugins/calin-chirpstack/lib/decode-response-data.ts:210-214 | every power of up to eight digits reads back under its phase |
| CalinDecoder.CurrentReadsBack | src/plugins/calin-chirpstack/lib/decode-response-data.ts:216-221 | every current of up to four digits reads back under its phase |
| CalinDecoder.PowerLimitReadsBack | src/plugins/calin-chirpstack/lib/decode-response-data.ts:195-201 | a DLMS reply reads as the big-endian number of its last four bytes |
| CalinDecoder.AnswerIsToCommand | src/plugins/calin-chirpstack/lib/decode-response-data.ts:337-364 | an answer under the identifier a reading command sent is decoded as the kind and phase that command asked for, and no other |
| CalinDecoder.IdentifierRead | src/plugins/calin-chirpstack/lib/decode-response-data.ts:138-141 | the identifier the decoder reads is the one the frame was built with |
| CalinDecoder.DateReadsBack | src/plugins/calin-chirpstack/lib/decode-response-data.ts:299-307 | the answer that holds the field of a SET_DATE frame reads back as the same day, month and two-digit year |
| CalinDecoder.YearReadsBackIff | src/plugins/calin-chirpstack/lib/decode-response-data.ts:305-305 | the year decoded from that answer is the full year that was set, a two-digit year being one of this century, exactly for 2000 to 2099 |
| CalinDecoder.TimeReadsBack | src/plugins/calin-chirpstack/lib/decode-response-data.ts:310-316 | the answer that holds the field of a SET_TIME frame reads back as every time that encodes; a missing second is zero |
| CalinDecoder.CreditReadsBack | src/plugins/calin-chirpstack/lib/decode-response-data.ts:235-243 | every credit of up to eight digits, its level and its relay state read back |
| CalinNumbers.BcdToIntegerIsSum | src/plugins/calin-chirpstack/lib/decode-response-data.ts:394-404 | on packed decimals of any length the parsed integer is the sum of the byte values by powers of a hundred |
| CalinNumbers.ParsePacked | src/plugins/calin-chirpstack/lib/encode-request-data.ts:347-351 | parsing inverts packing for every number that fits |
| CalinNumbers.NonDecimalByteParses | src/plugins/calin-chirpstack/lib/decode-response-data.ts:394-404 | a packed byte whose low half is no decimal digit is read as one digit more |
| CalinNumbers.CombineIsLittleEndian | src/plugins/calin-chirpstack/lib/decode-response-data.ts:374-379 | a field of up to four bytes combines to its unmasked little-endian value, except that a four-byte value of 2^31 or more is 2^32 too low |

## Left out

- HTTP routes, authentication, configuration loading, logging, metrics export, registries and token routers: plumbing with no hard property.
- The noun a plugin may give its relay node in the relay-node timeout message; the default is modelled.
- Outcomes.StrayEventOutcome: what an unsolicited event says is not modelled, only that it is passed on.
- The vendor clients: a vendor call, a status poll and a remote-queue inspection are arbitrary answers.
- JSON, base64, HMAC signing and id generation: records are values, ids are fresh.
- Registry.InFlightSends.Settle: the waiting of a graceful shutdown for outstanding sends is not modelled; it changes nothing.
- Runs.SendBudget: two handlers racing between a load and an emit are not interleaved here; only the steps inside a handler and the layer-2 interleavings are.
- Termination.DueVisitsAreBounded: visits that find the message absent or not due are allowed but not counted, as they do no work; what they do is the subject of StaleVisits.
- Runs.RunsAreSound: the split of entering retry into check and write, which breaks it, is treated separately in OnePlace.
- Engine.DeliveryEngine.Attend: the objects run one handler at a time; interleavings and mid-handler crashes are covered on values.
- Runner.LifecycleRunner.Tick: rows are drained one after the other, where the code drains them concurrently; a row left in progress by an earlier tick is skipped. Overlapping drains, and what the guard is for, are in Rows.
- Webhook.StoredEventsAreConserved: a payload that does not parse is not modelled, as the store only reads what it wrote. A payload that is missing is.
- Webhook.NextPostWaits: the request timeout is not a step. The schema lets it exceed the 60-second lease, and a POST that was cut off could then still be under way at the receiver when the next begins.
- CalinDecoder.AnswerDecodedIff: the fields of the periodic report, the divisions by ten or a hundred and the DLMS reply beyond its last four bytes are not modelled.
- CalinDecoder.DateReadsBack: the weekday is given; computing it is the calendar library's.
- Several replicas writing at once: the service is one process by design.
