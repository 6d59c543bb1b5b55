/**
 * What each handler leads to, case by case, in terms of the message alone: where it then waits and until when, or how
 * it ended and what the adopter was told.
 */
module Outcomes {
  import opened Domain
  import opened Stages
  import opened StoreSpec
  import opened World
  import opened Handlers
  import opened OnePlace
  import opened Soundness
  import opened Runs
  import opened InFlightRuns
  import opened Homes
  import opened Drain
  import opened Journey
  import QueueKeys

  /** `m` was failed for good: announced once, with the reason on top of its earlier failures, and gone. */
  ghost predicate FailsWith(w: World, v: World, m: MessageId, reason: string)
    requires m in w.store.hashes
  {
    var h := w.store.hashes[m];
    && m !in v.store.hashes && m in v.purged
    && Log(v, m) == Log(w, m) + [FailedNote([Failure(h.status, reason, true)] + h.history)]
  }

  /** `m` waits for its next attempt, one retry and one failure richer, with nothing left of the attempt before. */
  ghost predicate RetriesWith(c: Config, w: World, v: World, m: MessageId, reason: string)
    requires m in w.store.hashes
  {
    var h := w.store.hashes[m];
    var delay := DelayInTurn(h.retryCount, c.delivery);
    && (exists due :: WaitsIn(v, m, RetryQ, ToRetry, due) && w.clock + delay <= due <= w.clock + 1.5 * delay)
    && v.store.hashes[m].retryCount == h.retryCount + 1
    && v.store.hashes[m].history == [Failure(h.status, reason, false)] + h.history
    && v.store.hashes[m].externalId.None? && (forall key :: m !in Occupants(v.store, key))
    && (forall d :: d in v.store.ext ==> v.store.ext[d] != m) && Log(v, m) == Log(w, m)
  }

  /** A failed attempt ends its message if it may not be retried or no retry is left, and is retried otherwise. */
  ghost predicate RetriesOrFails(c: Config, w: World, v: World, m: MessageId, context: FailureContext)
    requires m in w.store.hashes
  {
    if context.skipRetry || w.store.hashes[m].retryCount >= c.delivery.maxRetries
    then FailsWith(w, v, m, context.reason)
    else RetriesWith(c, w, v, m, context.reason)
  }

  /** `m` succeeded: announced once, with the execution failure it carried, if any, on top, and gone. */
  ghost predicate SucceedsWith(w: World, v: World, m: MessageId, failure: Option<FailureContext>)
    requires m in w.store.hashes
  {
    var h := w.store.hashes[m];
    && m !in v.store.hashes && m in v.purged
    && Log(v, m) == Log(w, m) + [SuccessNote(
         if failure.Some? then [Failure(DeliverySuccessful, failure.value.reason, true)] + h.history else h.history)]
  }

  /** `m` stays as it is in `q` for another `wait`. */
  ghost predicate WaitsOn(w: World, v: World, m: MessageId, q: QueueKey, wait: real)
    requires m in w.store.hashes
  {
    && WaitsIn(v, m, q, w.store.hashes[m].status, w.clock + wait)
    && v.store.hashes[m] == w.store.hashes[m] && Log(v, m) == Log(w, m)
  }

  lemma RetryOrFailLeads(c: Config, w: World, m: MessageId, from: QueueKey, context: FailureContext, jitter: real)
    requires Sound(c, w) && ValidJitter(jitter) && m in w.store.hashes && IsStageQueue(from) && from != RetryQ
    requires (from, m) in w.store.zsets
    ensures var action := RetryOrFail(c, w, m, from, context, jitter);
      && RetriesOrFails(c, w, Run(w, action.ops), m, context)
      && (action.result == Reports(Removed) || action.result == Reports(MovedOn))
  {
    assert SoundMessage(c, w, m);
    var h := w.store.hashes[m];
    var ops := RetryOrFail(c, w, m, from, context, jitter).ops;
    if context.skipRetry || h.retryCount >= c.delivery.maxRetries {
      ResolvedIsAnnounced(w, m, h, FailedNote([Failure(h.status, context.reason, true)] + h.history));
    } else {
      FailedAttemptWaits(c, w, m, from, context, jitter);
      RunOne(w, ops[0]);
    }
  }

  /** Whether the deadline of a stage is held off: the send is still awaited, or the vendor still has the message. */
  predicate IsExcused(w: World, p: Plugin, q: QueueKey, m: MessageId, reply: Reply) {
    || (q == NsQ && m in w.outstanding)
    || (q == RelayQ && p.pattern == Push && p.inspectsRemoteQueue && reply == RemoteStatus(false))
  }

  /** What a stage's deadline says about a message that missed it. */
  function DeadlineReason(q: QueueKey): string {
    match q
    case NsQ => "Timed out waiting for Network Server to accept message"
    case RelayQ => "Timed out waiting for relay node to transmit message to device"
    case _ => "Timed out waiting for device response after transmission"
  }

  function DeadlineWait(t: Tuning, q: QueueKey): real {
    match q
    case NsQ => t.nsInFlight
    case RelayQ => t.relayNodeInFlight
    case _ => t.deviceInFlight
  }

  lemma DeadlineActs(c: Config, w: World, q: QueueKey, m: MessageId, now: real, reply: Reply, jitter: real)
    requires Sound(c, w) && ValidJitter(jitter) && m in w.store.hashes && (q, m) in w.store.zsets
    requires q in {NsQ, RelayQ, DeviceQ} && KnownMember(c, w, q, m)
    ensures var p := c.registry[w.store.hashes[m].body.value.plugin];
      var action := StageAction(c, w, q, m, now, reply, jitter);
      if IsExcused(w, p, q, m, reply) then action == Action([], Reports(Rescheduled))
      else RetriesOrFails(c, w, Run(w, action.ops), m, FailureContext(DeadlineReason(q), false))
           && (action.result == Reports(Removed) || action.result == Reports(MovedOn))
  {
    RetryOrFailLeads(c, w, m, q, FailureContext(DeadlineReason(q), false), jitter);
  }

  lemma SettledVisitIsItsAction(c: Config, w: World, q: QueueKey, m: MessageId, now: real, reply: Reply, jitter: real)
    requires KnownMember(c, w, q, m)
    requires StageAction(c, w, q, m, now, reply, jitter).result in {Reports(Removed), Reports(MovedOn)}
    ensures Visit(c, w, q, m, now, reply, jitter) == StageAction(c, w, q, m, now, reply, jitter).ops
  {
  }

  lemma WaitingVisit(c: Config, w: World, q: QueueKey, m: MessageId, now: real, reply: Reply, jitter: real)
    requires Sound(c, w) && ValidJitter(jitter) && KnownMember(c, w, q, m) && ReplyIsOwn(w, m, reply)
    requires var result := StageAction(c, w, q, m, now, reply, jitter).result;
      result.Throws? || result == Reports(Rescheduled)
    ensures var p := c.registry[w.store.hashes[m].body.value.plugin];
      var wait := RescheduleWait(StageOf(q), p.tuning, c.delivery, w.store.hashes[m].retryCount, now - m.time, jitter);
      WaitsOn(w, Run(w, Visit(c, w, q, m, now, reply, jitter)), m, q, wait)
  {
    assert SoundMessage(c, w, m);
    StillWaiting(c, w, q, m, now, reply, jitter);
    WaitingIsSilent(c, w, q, m, now, reply, jitter);
  }

  lemma WaitingIsSilent(c: Config, w: World, q: QueueKey, m: MessageId, now: real, reply: Reply, jitter: real)
    requires KnownMember(c, w, q, m) && OwnIndex(w.store, m) && ReplyIsOwn(w, m, reply)
    requires var result := StageAction(c, w, q, m, now, reply, jitter).result;
      result.Throws? || result == Reports(Rescheduled)
    ensures Log(Run(w, Visit(c, w, q, m, now, reply, jitter)), m) == Log(w, m)
  {
    var action := StageAction(c, w, q, m, now, reply, jitter);
    WaitingActionChangesNothing(c, w, q, m, now, reply, jitter);
    OwedPostponement(c, w, q, m, now, action.result, jitter);
    var owed := Obligation(c, w, q, m, now, action.result, jitter);
    RunAppend(w, action.ops, owed);
    RunOne(w, owed[0]);
  }

  lemma SoundMemberIsKnown(c: Config, w: World, q: QueueKey, m: MessageId)
    requires Sound(c, w) && IsStageQueue(q) && m in w.store.hashes && (q, m) in w.store.zsets
    ensures m in w.minted && KnownMember(c, w, q, m) && w.store.hashes[m].body == Some(w.minted[m])
    ensures OwnIndex(w.store, m)
  {
    assert SoundMessage(c, w, m) && PlacedMessage(c, w, m);
  }

  /**
   * A due member whose deadline has passed is retried, or failed when it has no retry left, with its stage's reason,
   * exactly unless it is excused; then it waits another stage timeout.
   */
  lemma DeadlineOutcome(c: Config, w: World, q: QueueKey, m: MessageId, now: real, reply: Reply, jitter: real)
    requires Sound(c, w) && ValidJitter(jitter) && ReplyIsOwn(w, m, reply)
    requires q in {NsQ, RelayQ, DeviceQ} && m in w.store.hashes && (q, m) in w.store.zsets
    ensures m in w.minted && w.minted[m].plugin in c.registry
    ensures var p := c.registry[w.minted[m].plugin];
      var v := Run(w, Visit(c, w, q, m, now, reply, jitter));
      if IsExcused(w, p, q, m, reply) then WaitsOn(w, v, m, q, DeadlineWait(p.tuning, q))
      else RetriesOrFails(c, w, v, m, FailureContext(DeadlineReason(q), false))
  {
    SoundMemberIsKnown(c, w, q, m);
    DeadlineActs(c, w, q, m, now, reply, jitter);
    if IsExcused(w, c.registry[w.minted[m].plugin], q, m, reply) {
      WaitingVisit(c, w, q, m, now, reply, jitter);
      WaitsByStage(c.registry[w.minted[m].plugin].tuning, c.delivery, w.store.hashes[m].retryCount, now - m.time,
        jitter);
    } else {
      SettledVisitIsItsAction(c, w, q, m, now, reply, jitter);
    }
  }

  /** How long a task of the given age waits for its next poll. */
  function NextPoll(age: real): real {
    if age < 20000.0 then 10000.0 else if age < 50000.0 then 15000.0 else if age < 90000.0 then 20000.0 else 30000.0
  }

  /** A vendor report that decides the fate of the message it names. */
  predicate IsDecisive(e: IncomingEvent) {
    !e.unsolicited && e.externalId.Some? && e.status in {DeliverySuccessful, DeliveryFailed}
  }

  /** The failure a negative report stands for. */
  function ReportedFailure(e: IncomingEvent): FailureContext {
    if e.failure.Some? then e.failure.value
    else FailureContext("Unable to deliver message after negative remote response", false)
  }

  lemma NegativeEventActs(c: Config, w: World, p: Plugin, e: IncomingEvent, jitter: real, from: QueueKey)
    requires Sound(c, w) && ValidJitter(jitter) && IsDecisive(e) && e.status == DeliveryFailed
    requires e.externalId.value in w.store.ext && w.store.ext[e.externalId.value] in w.store.hashes
    requires var m := w.store.ext[e.externalId.value];
      && (from, m) in w.store.zsets && m in w.minted && w.minted[m].plugin == p.id && p.id in c.registry
      && c.registry[p.id] == p
    ensures var m := w.store.ext[e.externalId.value];
      var action := ProcessEvent(c, w, p, e, jitter);
      && RetriesOrFails(c, w, Run(w, action.ops), m, ReportedFailure(e))
      && (action.result == Reports(Removed) || action.result == Reports(MovedOn))
  {
    var m := w.store.ext[e.externalId.value];
    assert SoundMessage(c, w, m) && PlacedMessage(c, w, m);
    EventReachesInFlight(c, w, e.externalId.value);
    RetryOrFailLeads(c, w, m, from, ReportedFailure(e), jitter);
  }

  lemma PositiveEventActs(c: Config, w: World, p: Plugin, e: IncomingEvent, jitter: real)
    requires Sound(c, w) && IsDecisive(e) && e.status == DeliverySuccessful
    requires e.externalId.value in w.store.ext && w.store.ext[e.externalId.value] in w.store.hashes
    ensures var m := w.store.ext[e.externalId.value];
      var action := ProcessEvent(c, w, p, e, jitter);
      SucceedsWith(w, Run(w, action.ops), m, e.failure) && action.result == Reports(Removed)
  {
    var m := w.store.ext[e.externalId.value];
    assert SoundMessage(c, w, m);
    var h := w.store.hashes[m];
    var history := if e.failure.Some? then [Failure(DeliverySuccessful, e.failure.value.reason, true)] + h.history
                   else h.history;
    ResolvedIsAnnounced(w, m, h, SuccessNote(history));
  }

  lemma TaskFacts(c: Config, w: World, q: QueueKey, m: MessageId)
    requires Sound(c, w) && q.TaskQ? && m in w.store.hashes && (q, m) in w.store.zsets
    ensures m in w.minted && w.minted[m].plugin in c.registry && q == TaskQ(w.minted[m].plugin)
    ensures c.registry[w.minted[m].plugin].pattern == Pull && w.store.hashes[m].status == DeliveredToNs
    ensures w.store.hashes[m].externalId.Some? && w.store.hashes[m].externalId.value in w.store.ext
    ensures w.store.ext[w.store.hashes[m].externalId.value] == m
  {
    assert SoundMessage(c, w, m) && PlacedMessage(c, w, m);
  }

  lemma IndecisivePollWaits(c: Config, w: World, q: QueueKey, m: MessageId, now: real, reply: Reply, jitter: real)
    requires Sound(c, w) && ReplyIsOwn(w, m, reply) && q.TaskQ? && m in w.store.hashes && (q, m) in w.store.zsets
    requires now - m.time < 48.0 * 3600000.0 && !(reply.Reported? && IsDecisive(reply.event)) && KnownMember(c, w, q, m)
    ensures var result := StageAction(c, w, q, m, now, reply, jitter).result;
      result.Throws? || result == Reports(Rescheduled)
  {
    TaskFacts(c, w, q, m);
    assert SoundMessage(c, w, m);
  }

  lemma OldPollFails(c: Config, w: World, q: QueueKey, m: MessageId, now: real, reply: Reply, jitter: real)
    requires Sound(c, w) && q.TaskQ? && m in w.store.hashes && (q, m) in w.store.zsets
    requires now - m.time >= 48.0 * 3600000.0
    ensures FailsWith(w, Run(w, Visit(c, w, q, m, now, reply, jitter)), m,
      "Timed out waiting for remote task completion")
  {
    TaskFacts(c, w, q, m);
    assert SoundMessage(c, w, m);
    var h := w.store.hashes[m];
    var history := [Failure(DeliveredToNs, TASK_TIMEOUT, true)] + h.history;
    ResolvedIsAnnounced(w, m, h, FailedNote(history));
    assert Visit(c, w, q, m, now, reply, jitter) == [Notify(m, FailedNote(history)), Purge(m, h, Resolved)];
  }

  lemma DecisivePollResolves(c: Config, w: World, q: QueueKey, m: MessageId, now: real, e: IncomingEvent, jitter: real)
    requires Sound(c, w) && ValidJitter(jitter) && ReplyIsOwn(w, m, Reported(e)) && IsDecisive(e)
    requires q.TaskQ? && m in w.store.hashes && (q, m) in w.store.zsets && now - m.time < 48.0 * 3600000.0
    ensures var v := Run(w, Visit(c, w, q, m, now, Reported(e), jitter));
      if e.status == DeliverySuccessful then SucceedsWith(w, v, m, e.failure)
      else RetriesOrFails(c, w, v, m, ReportedFailure(e))
  {
    SoundMemberIsKnown(c, w, q, m);
    TaskFacts(c, w, q, m);
    var p := c.registry[w.minted[m].plugin];
    DecisivePollIsItsEvent(c, w, q, m, now, e, jitter);
    if e.status == DeliverySuccessful {
      PositiveEventActs(c, w, p, e, jitter);
    } else {
      NegativeEventActs(c, w, p, e, jitter, q);
    }
    SettledVisitIsItsAction(c, w, q, m, now, Reported(e), jitter);
  }

  lemma PollWaitsOn(c: Config, w: World, q: QueueKey, m: MessageId, now: real, reply: Reply, jitter: real)
    requires Sound(c, w) && ValidJitter(jitter) && ReplyIsOwn(w, m, reply)
    requires q.TaskQ? && m in w.store.hashes && (q, m) in w.store.zsets && now - m.time < 48.0 * 3600000.0
    requires !(reply.Reported? && IsDecisive(reply.event))
    ensures WaitsOn(w, Run(w, Visit(c, w, q, m, now, reply, jitter)), m, q, NextPoll(now - m.time))
  {
    SoundMemberIsKnown(c, w, q, m);
    var p := c.registry[w.minted[m].plugin];
    IndecisivePollWaits(c, w, q, m, now, reply, jitter);
    WaitingVisit(c, w, q, m, now, reply, jitter);
    WaitsByStage(p.tuning, c.delivery, w.store.hashes[m].retryCount, now - m.time, jitter);
  }

  /**
   * A poll: a task of 48 hours fails for good whatever the vendor says; before that a reported success ends it
   * announced, a reported failure is retried, or final if it is not to be or no retry is left, and any other answer, or
   * none, leaves it waiting on the poll ladder.
   */
  lemma PollOutcome(c: Config, w: World, q: QueueKey, m: MessageId, now: real, reply: Reply, jitter: real)
    requires Sound(c, w) && ValidJitter(jitter) && ReplyIsOwn(w, m, reply)
    requires q.TaskQ? && m in w.store.hashes && (q, m) in w.store.zsets
    ensures var v := Run(w, Visit(c, w, q, m, now, reply, jitter));
      var age := now - m.time;
      if age >= 48.0 * 3600000.0 then FailsWith(w, v, m, "Timed out waiting for remote task completion")
      else if reply.Reported? && IsDecisive(reply.event) then
        if reply.event.status == DeliverySuccessful then SucceedsWith(w, v, m, reply.event.failure)
        else RetriesOrFails(c, w, v, m, ReportedFailure(reply.event))
      else WaitsOn(w, v, m, q, NextPoll(age))
  {
    if now - m.time >= 48.0 * 3600000.0 {
      OldPollFails(c, w, q, m, now, reply, jitter);
    } else if reply.Reported? && IsDecisive(reply.event) {
      DecisivePollResolves(c, w, q, m, now, reply.event, jitter);
    } else {
      PollWaitsOn(c, w, q, m, now, reply, jitter);
    }
  }

  lemma DecisivePollIsItsEvent(c: Config, w: World, q: QueueKey, m: MessageId, now: real, e: IncomingEvent,
                               jitter: real)
    requires Sound(c, w) && q.TaskQ? && m in w.store.hashes && (q, m) in w.store.zsets && KnownMember(c, w, q, m)
    requires now - m.time < 48.0 * 3600000.0
    ensures m in w.minted && w.minted[m].plugin in c.registry
    ensures StageAction(c, w, q, m, now, Reported(e), jitter)
            == ProcessEvent(c, w, c.registry[w.minted[m].plugin], e, jitter)
  {
    TaskFacts(c, w, q, m);
    assert SoundMessage(c, w, m);
  }

  /** The event, from the plugin that owns the message it names, has a message to act on. */
  ghost predicate NamesLive(c: Config, w: World, p: Plugin, e: IncomingEvent) {
    && e.externalId.Some? && e.externalId.value in w.store.ext
    && var m := w.store.ext[e.externalId.value];
       m in w.store.hashes && m in w.minted && w.minted[m].plugin == p.id && p.id in c.registry && c.registry[p.id] == p
  }

  lemma FailedEventOutcome(c: Config, w: World, p: Plugin, e: IncomingEvent, jitter: real)
    requires RunReaches(c, w) && ValidJitter(jitter) && NamesLive(c, w, p, e)
    requires !e.unsolicited && e.status == DeliveryFailed
    ensures var m := w.store.ext[e.externalId.value];
      RetriesOrFails(c, w, Run(w, ProcessEvent(c, w, p, e, jitter).ops), m, ReportedFailure(e))
  {
    var m := w.store.ext[e.externalId.value];
    RunsAreSound(c, w);
    EventReachesInFlight(c, w, e.externalId.value);
    InFlightMessageIsQueued(c, w, m);
    var home := Home(c, w.minted[m], w.store.hashes[m].status).value;
    NegativeEventActs(c, w, p, e, jitter, home);
  }

  lemma HandOverOutcome(c: Config, w: World, p: Plugin, e: IncomingEvent, jitter: real)
    requires RunReaches(c, w) && NamesLive(c, w, p, e) && !e.unsolicited && e.status == SentToDevice
      && p.pattern == Push
    ensures var m := w.store.ext[e.externalId.value];
      var v := Run(w, ProcessEvent(c, w, p, e, jitter).ops);
      if w.store.hashes[m].status == DeliveredToNs
      then WaitsIn(v, m, DeviceQ, SentToDevice, w.clock + p.tuning.deviceInFlight) && Log(v, m) == Log(w, m)
           && v.store.hashes[m].externalId == w.store.hashes[m].externalId && v.store.ext == w.store.ext
      else SameMessage(w, v, m)
  {
    var m := w.store.ext[e.externalId.value];
    RunsAreSound(c, w);
    EventReachesInFlight(c, w, e.externalId.value);
    assert SoundMessage(c, w, m) && PlacedMessage(c, w, m);
    var move := Advance(c, w, m, p, RelayNode, None)[0];
    RunOne(w, move);
    if w.store.hashes[m].status == DeliveredToNs {
      InFlightMessageIsQueued(c, w, m);
      HandedOverWaits(c, w, p, e.externalId.value, e.failure, jitter);
      CommittedHandOver(w, move);
    } else {
      MissedHandOver(w, move);
    }
  }

  lemma CommittedHandOver(w: World, op: Op)
    requires op.Move? && op.externalId.None? && MoveCommits(w.store, op.m, op.from)
    ensures var v := Do(w, op);
      && Log(v, op.m) == Log(w, op.m) && op.m in v.store.hashes && v.store.ext == w.store.ext
      && v.store.hashes[op.m].externalId == w.store.hashes[op.m].externalId
  {
  }

  lemma MissedHandOver(w: World, op: Op)
    requires op.Move? && (op.from, op.m) !in w.store.zsets
    ensures SameMessage(w, Do(w, op), op.m)
  {
  }

  /**
   * A vendor event about a live message: a hand-over starts the wait for the device, unless that wait has begun; a
   * failure is retried or final; a success ends the message; and any other status changes nothing at all.
   */
  lemma EventOutcome(c: Config, w: World, p: Plugin, e: IncomingEvent, jitter: real)
    requires RunReaches(c, w) && ValidJitter(jitter) && NamesLive(c, w, p, e) && !e.unsolicited
    ensures var m := w.store.ext[e.externalId.value];
      var v := Run(w, ProcessEvent(c, w, p, e, jitter).ops);
      match e.status
      case DeliverySuccessful => SucceedsWith(w, v, m, e.failure)
      case DeliveryFailed => RetriesOrFails(c, w, v, m, ReportedFailure(e))
      case SentToDevice =>
        if p.pattern == Pull then v == w
        else if w.store.hashes[m].status == DeliveredToNs
        then WaitsIn(v, m, DeviceQ, SentToDevice, w.clock + p.tuning.deviceInFlight)
        else SameMessage(w, v, m)
      case _ => v == w
  {
    RunsAreSound(c, w);
    match e.status
    case DeliverySuccessful => PositiveEventActs(c, w, p, e, jitter);
    case DeliveryFailed => FailedEventOutcome(c, w, p, e, jitter);
    case SentToDevice =>
      if p.pattern == Push {
        HandOverOutcome(c, w, p, e, jitter);
      }
    case _ =>
  }

  /**
   * An unsolicited event, or one that names nobody, changes nothing; one about a message that is gone revives nothing.
   */
  lemma StrayEventOutcome(c: Config, w: World, p: Plugin, e: IncomingEvent, jitter: real, x: MessageId)
    requires e.unsolicited || e.externalId.None? || e.externalId.value !in w.store.ext
      || w.store.ext[e.externalId.value] !in w.store.hashes
    ensures var v := Run(w, ProcessEvent(c, w, p, e, jitter).ops);
      v.store.hashes == w.store.hashes && Log(v, x) == Log(w, x)
    ensures e.unsolicited || e.externalId.None? || e.externalId.value !in w.store.ext ==>
      Run(w, ProcessEvent(c, w, p, e, jitter).ops) == w
    ensures NotifyUnsolicited in ProcessEvent(c, w, p, e, jitter).ops <==> e.unsolicited
  {
    var ops := ProcessEvent(c, w, p, e, jitter).ops;
    if ops != [] {
      RunOne(w, ops[0]);
    }
  }

  lemma AwaitedSendFacts(c: Config, w: World, m: MessageId)
    requires RunReaches(c, w) && m in w.outstanding
    ensures Sound(c, w) && m in w.minted && w.minted[m].plugin in c.registry && HeldMessage(w, m)
  {
    RunsAreSound(c, w);
    RunsAreHeld(c, w, m);
    assert PlacedMessage(c, w, m);
  }

  /** The settlement of an awaited send releases it, whatever it came to. */
  lemma SettlementReleases(c: Config, w: World, m: MessageId, sent: SendResult, jitter: real)
    requires RunReaches(c, w) && m in w.outstanding
    ensures m !in Run(w, Script(c, w, SendSettles(m, sent, jitter))).outstanding
  {
    AwaitedSendFacts(c, w, m);
    var p := c.registry[w.minted[m].plugin];
    SettleLeavesOthers(c, w, m, p, sent, jitter, m);
    EndedSendIsReleased(w, SettleEffect(c, w, m, p, sent, jitter), m);
  }

  lemma OnlySendsDiffer(c: Config, w: World, a: World, b: World, m: MessageId, context: FailureContext)
    requires m in w.store.hashes && b == a.(outstanding := b.outstanding) && RetriesOrFails(c, w, a, m, context)
    ensures RetriesOrFails(c, w, b, m, context)
  {
    if !(context.skipRetry || w.store.hashes[m].retryCount >= c.delivery.maxRetries) {
      var delay := DelayInTurn(w.store.hashes[m].retryCount, c.delivery);
      var due :| WaitsIn(a, m, RetryQ, ToRetry, due) && w.clock + delay <= due <= w.clock + 1.5 * delay;
      assert WaitsIn(b, m, RetryQ, ToRetry, due);
    }
  }

  lemma FailedSendOutcome(c: Config, w: World, m: MessageId, p: Plugin, context: FailureContext, jitter: real)
    requires Sound(c, w) && ValidJitter(jitter) && m in w.store.hashes && (NsQ, m) in w.store.zsets
    ensures var ops := RetryOrFail(c, w, m, NsQ, context, jitter).ops + [EndSend(m)];
      RetriesOrFails(c, w, Run(w, ops), m, context)
  {
    var ops := RetryOrFail(c, w, m, NsQ, context, jitter).ops;
    RetryOrFailLeads(c, w, m, NsQ, context, jitter);
    ReleasedLast(w, ops, m);
    OnlySendsDiffer(c, w, Run(w, ops), Run(w, ops + [EndSend(m)]), m, context);
  }

  lemma ReleasedLast(w: World, ops: seq<Op>, m: MessageId)
    ensures Run(w, ops + [EndSend(m)]) == Run(w, ops).(outstanding := Run(w, ops).outstanding - multiset{m})
  {
    var v := Run(w, ops);
    RunAppend(w, ops, [EndSend(m)]);
    RunOne(v, EndSend(m));
    EndSendOnlyReleases(v, m);
  }

  lemma EndSendOnlyReleases(v: World, m: MessageId)
    ensures Do(v, EndSend(m)) == v.(outstanding := v.outstanding - multiset{m})
  {
  }

  lemma AcceptedIsSilent(c: Config, w: World, m: MessageId, p: Plugin, d: ExternalId, jitter: real)
    requires m in w.store.hashes
    ensures var v := Run(w, Settle(c, w, m, p, Accepted(d), jitter));
      && m in v.store.hashes && v.store.hashes[m].retryCount == w.store.hashes[m].retryCount && Log(v, m) == Log(w, m)
      && v.store.hashes[m].history == w.store.hashes[m].history && v.clock == w.clock
  {
    var move := Advance(c, w, m, p, Ns, Some(d))[0];
    RunTwo(w, move, EndSend(m));
    assert Settle(c, w, m, p, Accepted(d), jitter) == [move, EndSend(m)];
  }

  lemma AcceptedSendOutcome(c: Config, w: World, m: MessageId, d: ExternalId, jitter: real)
    requires Sound(c, w) && m in w.store.hashes && (NsQ, m) in w.store.zsets
    ensures m in w.minted && w.minted[m].plugin in c.registry
    ensures var p := c.registry[w.minted[m].plugin];
      var v := Run(w, Settle(c, w, m, p, Accepted(d), jitter));
      && (if p.pattern == Push then WaitsIn(v, m, RelayQ, DeliveredToNs, w.clock + p.tuning.relayNodeInFlight)
          else WaitsIn(v, m, TaskQ(p.id), DeliveredToNs, w.clock + p.tuning.initialPollDelay))
      && v.store.hashes[m].externalId == Some(d) && d in v.store.ext && v.store.ext[d] == m && Log(v, m) == Log(w, m)
  {
    AcceptedSendWaits(c, w, m, d, jitter);
    AcceptedIsSilent(c, w, m, c.registry[w.minted[m].plugin], d, jitter);
  }

  /**
   * A settled send of a live message: accepted, it waits for the hand-over or for its first poll, and is found under
   * the vendor's id; without an id it fails for good, however many retries are left; thrown, it is retried or final.
   */
  lemma SettlementOutcome(c: Config, w: World, m: MessageId, sent: SendResult, jitter: real)
    requires RunReaches(c, w) && m in w.outstanding && m in w.store.hashes && ValidJitter(jitter)
    ensures m in w.minted && w.minted[m].plugin in c.registry
    ensures var p := c.registry[w.minted[m].plugin];
      var v := Run(w, Script(c, w, SendSettles(m, sent, jitter)));
      match sent
      case Accepted(d) =>
        && (if p.pattern == Push then WaitsIn(v, m, RelayQ, DeliveredToNs, w.clock + p.tuning.relayNodeInFlight)
            else WaitsIn(v, m, TaskQ(p.id), DeliveredToNs, w.clock + p.tuning.initialPollDelay))
        && v.store.hashes[m].externalId == Some(d) && d in v.store.ext && v.store.ext[d] == m && Log(v, m) == Log(w, m)
      case NoExternalId => FailsWith(w, v, m, "Plugin returned an empty deliveryQueueId after sendOne")
      case SendThrew(context) => RetriesOrFails(c, w, v, m, context)
  {
    AwaitedSendFacts(c, w, m);
    var p := c.registry[w.minted[m].plugin];
    match sent
    case Accepted(d) => AcceptedSendOutcome(c, w, m, d, jitter);
    case NoExternalId => FailedSendOutcome(c, w, m, p, FailureContext(EMPTY_EXTERNAL_ID, true), jitter);
    case SendThrew(context) => FailedSendOutcome(c, w, m, p, context, jitter);
  }

  lemma GoneSendEffect(c: Config, w: World, m: MessageId, p: Plugin, sent: SendResult, jitter: real)
    requires m !in w.store.hashes
    ensures var v := Run(w, SettleEffect(c, w, m, p, sent, jitter));
      && v.store.hashes == w.store.hashes && Log(v, m) == Log(w, m)
      && (sent.Accepted? ==> (NsQ, m) !in v.store.zsets)
  {
    if sent.Accepted? {
      var move := Advance(c, w, m, p, Ns, Some(sent.externalId))[0];
      RunOne(w, move);
      OrphanMoveScrubs(w, move);
    }
  }

  lemma OrphanMoveScrubs(w: World, op: Op)
    requires op.Move? && op.m !in w.store.hashes
    ensures var v := Do(w, op);
      v.store.hashes == w.store.hashes && v.log == w.log && (op.from, op.m) !in v.store.zsets
  {
  }

  /** The settlement of a message that is gone revives nothing, tells nobody, and scrubs what it would have moved. */
  lemma GoneSettlementOutcome(c: Config, w: World, m: MessageId, sent: SendResult, jitter: real)
    requires m !in w.store.hashes
    ensures var v := Run(w, Script(c, w, SendSettles(m, sent, jitter)));
      v.store.hashes == w.store.hashes && Log(v, m) == Log(w, m)
      && (m in w.minted && w.minted[m].plugin in c.registry && sent.Accepted? ==> (NsQ, m) !in v.store.zsets)
  {
    if m in w.minted && w.minted[m].plugin in c.registry {
      var p := c.registry[w.minted[m].plugin];
      GoneSendEffect(c, w, m, p, sent, jitter);
      ReleasedLast(w, SettleEffect(c, w, m, p, sent, jitter), m);
    }
  }

  /** `m` waits to be sent or to be retried. */
  ghost predicate IsWaiting(w: World, m: MessageId) {
    m in w.minted && ((RetryQ, m) in w.store.zsets || (ReadyQ(w.minted[m].readyKey), m) in w.store.zsets)
  }

  /**
   * A cancel takes effect exactly on a live message that waits to be sent or retried, and tells the adopter nothing.
   */
  lemma CancelOutcome(c: Config, w: World, m: MessageId, x: MessageId)
    requires Sound(c, w)
    ensures var v := Run(w, Cancel(c, w, m));
      && (m in w.store.hashes && IsWaiting(w, m) ==>
            m !in v.store.hashes && m in v.cancelled && (forall q :: (q, m) !in v.store.zsets)
              && Log(v, m) == Log(w, m))
      && (m !in w.store.hashes || !IsWaiting(w, m) ==> SameMessage(w, v, m))
      && (x != m ==> SameMessage(w, v, x))
  {
    var ops := Cancel(c, w, m);
    CancelShape(c, w, m);
    if x != m {
      RunLeavesOthers(w, ops, x);
    }
    if m in w.store.hashes && IsWaiting(w, m) {
      CancelledIsGone(c, w, m, ops[0].q);
    } else if ops != [] {
      RunOne(w, ops[0]);
    }
  }

  lemma CancelShape(c: Config, w: World, m: MessageId)
    requires Sound(c, w)
    ensures var ops := Cancel(c, w, m);
      if m in w.store.hashes && IsWaiting(w, m)
      then |ops| == 2 && ops[0].Unlist? && ops[0].m == m && (ops[0].q, m) in w.store.zsets
           && ops[1] == Purge(m, w.store.hashes[m], Cancelled)
      else ops == [] || (|ops| == 1 && ops[0].Unlist? && ops[0].m == m && (ops[0].q, m) !in w.store.zsets)
  {
    assert SoundMessage(c, w, m) && PlacedMessage(c, w, m);
  }

  lemma CancelledIsGone(c: Config, w: World, m: MessageId, q: QueueKey)
    requires Sound(c, w) && m in w.store.hashes && (q, m) in w.store.zsets
    ensures var v := Run(w, [Unlist(m, q), Purge(m, w.store.hashes[m], Cancelled)]);
      m !in v.store.hashes && m in v.cancelled && (forall p :: (p, m) !in v.store.zsets) && Log(v, m) == Log(w, m)
  {
    assert SoundMessage(c, w, m) && PlacedMessage(c, w, m);
    RunTwo(w, Unlist(m, q), Purge(m, w.store.hashes[m], Cancelled));
  }

  /** The live members of a concurrency set. */
  function LiveOccupants(s: Store, key: string): set<MessageId> {
    set x | x in Occupants(s, key) && x in s.hashes
  }

  /** When a pass takes a message from `key`: its lock opened, or fewer live messages in flight than the cap. */
  predicate LetsThrough(c: Config, w: World, key: string, unlocked: bool) {
    var owner, slots := QueueKeys.PluginIdOf(key), QueueKeys.RateLimitKey(key);
    && owner.Some? && slots.Some? && owner.value in c.registry
    && match c.registry[owner.value].admission
       case Spacing(_) => unlocked
       case Concurrency(max) => |LiveOccupants(w.store, slots.value)| < max
  }

  lemma AdmitsWhenItLetsThrough(c: Config, w: World, key: string, unlocked: bool)
    ensures Admits(c, w, key, unlocked) <==> LetsThrough(c, w, key, unlocked)
  {
    var slots := QueueKeys.RateLimitKey(key);
    if slots.Some? {
      assert Occupants(w.store, slots.value) - DeadOccupants(w.store, slots.value)
        == LiveOccupants(w.store, slots.value);
    }
  }

  /** A pass that lets nothing through changes nothing for any live message. */
  lemma RefusedPassOutcome(c: Config, w: World, key: string, head: Option<MessageId>, unlocked: bool)
    requires Sound(c, w) && RightHead(w, key, head) && !LetsThrough(c, w, key, unlocked)
    ensures var v := Run(w, Distribute(c, w, key, head, unlocked));
      && v == w.(store := w.store.(slots := v.store.slots))
      && (forall k, x :: x in w.store.hashes ==> (x in Occupants(v.store, k) <==> x in Occupants(w.store, k)))
  {
    AdmitsWhenItLetsThrough(c, w, key, unlocked);
    DistributeShape(c, w, key, head, unlocked);
    SweepDropsTheDead(w, LimitFor(c, key));
  }

  lemma SweepDropsTheDead(w: World, limit: Option<Limit>)
    ensures var v := Run(w, AdmissionSweep(w.store, limit));
      && v == w.(store := w.store.(slots := v.store.slots))
      && (forall k, x :: x in w.store.hashes ==> (x in Occupants(v.store, k) <==> x in Occupants(w.store, k)))
  {
    var sweep := AdmissionSweep(w.store, limit);
    if sweep != [] {
      RunOne(w, sweep[0]);
    }
  }

  /**
   * A pass over a ready queue: its head, if it lives, is sent exactly when the queue lets it through: it then waits in
   * the network-server queue with its slot, its vendor call is awaited, and its first send is announced.
   */
  lemma PassOutcome(c: Config, w: World, key: string, m: MessageId, unlocked: bool)
    requires Sound(c, w) && IsHead(w.store, ReadyQ(key), m) && m in w.store.hashes
    ensures var v := Run(w, Distribute(c, w, key, Some(m), unlocked));
      if !LetsThrough(c, w, key, unlocked) then SameMessage(w, v, m) && v.outstanding == w.outstanding
      else
        var p := c.registry[QueueKeys.PluginIdOf(key).value];
        && WaitsIn(v, m, NsQ, SentToNs, w.clock + p.tuning.nsInFlight) && m in v.outstanding
        && Picks(v, m) == Picks(w, m) + 1
        && Log(v, m) == (if w.store.hashes[m].retryCount == 0 then Log(w, m) + [SentNote] else Log(w, m))
        && (p.admission.Concurrency? ==> m in Occupants(v.store, QueueKeys.RateLimitKey(key).value))
  {
    AdmitsWhenItLetsThrough(c, w, key, unlocked);
    if LetsThrough(c, w, key, unlocked) {
      AdmittedHeadIsSent(c, w, key, m, unlocked);
    } else {
      RefusedPassOutcome(c, w, key, Some(m), unlocked);
    }
  }

  /** A head whose hash is gone is dropped from its queue, and nothing is sent. */
  lemma OrphanPassOutcome(c: Config, w: World, key: string, m: MessageId, unlocked: bool)
    requires Sound(c, w) && IsHead(w.store, ReadyQ(key), m) && m !in w.store.hashes && LetsThrough(c, w, key, unlocked)
    ensures var v := Run(w, Distribute(c, w, key, Some(m), unlocked));
      && (forall q :: (q, m) !in v.store.zsets) && v.outstanding == w.outstanding && v.store.hashes == w.store.hashes
      && v.log == w.log && (forall x :: x != m ==> SameMessage(w, v, x))
  {
    AdmitsWhenItLetsThrough(c, w, key, unlocked);
    DistributeShape(c, w, key, Some(m), unlocked);
    SweepKeepsRest(w, LimitFor(c, key));
    var swept := Run(w, AdmissionSweep(w.store, LimitFor(c, key)));
    var fetch := FetchOf(c, swept, key, c.registry[QueueKeys.PluginIdOf(key).value], m);
    RunOne(swept, fetch);
    OrphanIsDropped(c, swept, fetch);
    forall x | x != m ensures SameMessage(w, Do(swept, fetch), x) {
      OthersStayTheSame(swept, fetch, x);
    }
  }

  lemma OrphanIsDropped(c: Config, w: World, op: Op)
    requires op.FetchNext? && op.m !in w.store.hashes && (ReadyQ(op.key), op.m) in w.store.zsets
    requires PlacedMessage(c, w, op.m)
    ensures var v := Do(w, op);
      && (forall q :: (q, op.m) !in v.store.zsets) && v.outstanding == w.outstanding
      && v.store.hashes == w.store.hashes && v.log == w.log
  {
  }

  lemma OnlyThePickedLeaves(w: World, key: string, m: MessageId, dueAt: real, limit: Option<Limit>, x: MessageId)
    ensures (ReadyQ(key), x) in Do(w, FetchNext(m, key, dueAt, limit)).store.zsets
      <==> (ReadyQ(key), x) in Withdraw(w.store.zsets, ReadyQ(key), m)
  {
  }

  lemma PickLeavesRest(w: World, key: string, m: MessageId, dueAt: real, limit: Option<Limit>)
    ensures var popped := w.store.(zsets := Withdraw(w.store.zsets, ReadyQ(key), m));
      Do(w, FetchNext(m, key, dueAt, limit)).store.ready == ReadyAfterPop(popped, key)
  {
  }

  /** A ready queue is unlisted exactly when a pick leaves it without members; no other queue is. */
  lemma PickUnlistsIff(w: World, key: string, m: MessageId, dueAt: real, limit: Option<Limit>, k: string)
    ensures var v := Do(w, FetchNext(m, key, dueAt, limit)).store;
      k in v.ready <==> k in w.store.ready && (k == key ==> !NoMembers(v, ReadyQ(key)))
    ensures k in Do(w, FetchNothing(key)).store.ready <==> k in w.store.ready && k != key
  {
    var v := Do(w, FetchNext(m, key, dueAt, limit)).store;
    PickLeavesRest(w, key, m, dueAt, limit);
    forall x ensures (ReadyQ(key), x) in v.zsets <==> (ReadyQ(key), x) in Withdraw(w.store.zsets, ReadyQ(key), m) {
      OnlyThePickedLeaves(w, key, m, dueAt, limit, x);
    }
  }

  /** An enqueued message waits in its listed ready queue, untried, under its priority and its correlation id. */
  lemma EnqueueOutcome(c: Config, w: World, m: MessageId, b: Body, x: MessageId)
    requires Sound(c, w) && Fresh(c, w, Insert(m, b))
    ensures var v := Run(w, Script(c, w, EnqueueOne(m, b)));
      && WaitsIn(v, m, ReadyQ(b.readyKey), Queued, -b.priority) && v.store.hashes[m].body == Some(b)
      && v.store.hashes[m].retryCount == 0 && v.store.hashes[m].history == [] && v.store.hashes[m].externalId.None?
      && v.store.hashes[m].slot.None? && b.readyKey in v.store.ready && Log(v, m) == Log(w, m)
      && (b.correlation.Some? ==> b.correlation.value in v.store.corr && v.store.corr[b.correlation.value] == m)
      && (x != m ==> SameMessage(w, v, x))
  {
    assert PlacedMessage(c, w, m) && SoundMessage(c, w, m);
    RunOne(w, Insert(m, b));
    if x != m {
      OthersStayTheSame(w, Insert(m, b), x);
    }
  }
}
