/** What each handler of the engine does to the world it reads: the list of atomic steps it issues. */
module Handlers {
  import opened Domain
  import opened Stages
  import opened StoreSpec
  import opened World
  import QueueKeys

  /** A vendor event after its plugin parsed it. */
  datatype IncomingEvent = IncomingEvent(
    externalId: Option<ExternalId>,
    status: Status,
    unsolicited: bool,
    failure: Option<FailureContext>)

  datatype SendResult = Accepted(externalId: ExternalId) | NoExternalId | SendThrew(context: FailureContext)

  /** What the vendor answers when a stage action asks it something. */
  datatype Reply = NoReply | ReplyThrew | RemoteStatus(failed: bool) | Reported(event: IncomingEvent)

  /** An action either reports an outcome or throws. */
  datatype Result = Reports(outcome: Outcome) | Throws

  datatype Action = Action(ops: seq<Op>, result: Result)

  /** Why an attempt failed, as the adopter is told. */
  const NS_TIMEOUT := "Timed out waiting for Network Server to accept message"
  const RELAY_TIMEOUT := "Timed out waiting for relay node to transmit message to device"
  const DEVICE_TIMEOUT := "Timed out waiting for device response after transmission"
  const TASK_TIMEOUT := "Timed out waiting for remote task completion"
  const NEGATIVE_RESPONSE := "Unable to deliver message after negative remote response"
  const EMPTY_EXTERNAL_ID := "Plugin returned an empty deliveryQueueId after sendOne"

  /** `jitter` is the random draw of the retry backoff. */
  function RetryOrFail(c: Config, w: World, m: MessageId, from: QueueKey, context: FailureContext,
                       jitter: real): Action
  {
    if m !in w.store.hashes then Action([], Reports(Orphaned))
    else
      var h := w.store.hashes[m];
      if h.body.None? then Action([], Throws)
      else
        var isFinal := context.skipRetry || h.retryCount >= c.delivery.maxRetries;
        var history := [Failure(h.status, context.reason, isFinal)] + h.history;
        if isFinal then
          Action([Notify(m, FailedNote(history)), Purge(m, h, Resolved)], Reports(Removed))
        else if (from, m) in w.store.zsets then
          var dueAt := w.clock + BackoffDelay(h.retryCount, c.delivery, jitter);
          Action([CommitRetry(m, from, h.retryCount, history, dueAt)], Reports(MovedOn))
        else Action([], Reports(Orphaned))
  }

  /** Moving to the next stage of the plugin's pipeline; at the end of a pipeline there is nothing to do. */
  function Advance(c: Config, w: World, m: MessageId, p: Plugin, from: Stage, externalId: Option<ExternalId>): seq<Op> {
    var next := NextStage(p.pattern, from);
    if next.None? then []
    else
      var dueAt := w.clock + EntryWait(next.value, p.tuning, c.delivery, 0, 0.0);
      [Move(m, StageKeyFor(from, p.id), StageKeyFor(next.value, p.id), dueAt, EntryStatus(next.value), externalId)]
  }

  function ProcessEvent(c: Config, w: World, p: Plugin, e: IncomingEvent, jitter: real): Action {
    if e.unsolicited then Action([NotifyUnsolicited], Reports(Rescheduled))
    else if e.externalId.None? then Action([], Reports(Rescheduled))
    else if e.externalId.value !in w.store.ext then Action([], Reports(Orphaned))
    else
      var m := w.store.ext[e.externalId.value];
      if e.status == SentToDevice && p.pattern == Push then
        Action(Advance(c, w, m, p, RelayNode, None), Reports(MovedOn))
      else if e.status == DeliveryFailed then
        if m !in w.store.hashes then Action([], Reports(Orphaned))
        else if w.store.hashes[m].body.None? then Action([], Throws)
        else
          var stage := StageForStatus(w.store.hashes[m].status, p.pattern);
          if stage.None? then Action([], Reports(Orphaned))
          else
            var context := if e.failure.Some? then e.failure.value
              else FailureContext(NEGATIVE_RESPONSE, false);
            RetryOrFail(c, w, m, StageKeyFor(stage.value, p.id), context, jitter)
      else if e.status != DeliverySuccessful then Action([], Reports(Rescheduled))
      else if m !in w.store.hashes then Action([], Reports(Orphaned))
      else if w.store.hashes[m].body.None? then Action([], Throws)
      else
        var h := w.store.hashes[m];
        var history := if e.failure.Some?
                       then [Failure(DeliverySuccessful, e.failure.value.reason, true)] + h.history
                       else h.history;
        Action([Notify(m, SuccessNote(history)), Purge(m, h, Resolved)], Reports(Removed))
  }

  /** The action of each stage on a due member whose hash and plugin are known. */
  function StageAction(c: Config, w: World, q: QueueKey, m: MessageId, now: real, reply: Reply, jitter: real): Action
    requires IsStageQueue(q)
    requires m in w.store.hashes && w.store.hashes[m].body.Some?
    requires w.store.hashes[m].body.value.plugin in c.registry
  {
    var h := w.store.hashes[m];
    var b := h.body.value;
    var p := c.registry[b.plugin];
    match StageOf(q)
    case Ns =>
      if m in w.outstanding then Action([], Reports(Rescheduled))
      else RetryOrFail(c, w, m, NsQ, FailureContext(NS_TIMEOUT, false), jitter)
    case RelayNode =>
      if p.pattern == Push && p.inspectsRemoteQueue && reply == RemoteStatus(false)
      then Action([], Reports(Rescheduled))
      else RetryOrFail(c, w, m, q, FailureContext(RELAY_TIMEOUT, false), jitter)
    case Device =>
      RetryOrFail(c, w, m, q, FailureContext(DEVICE_TIMEOUT, false), jitter)
    case AwaitingTask =>
      if now - m.time >= PULL_MAX_MESSAGE_AGE then
        var history := [Failure(DeliveredToNs, TASK_TIMEOUT, true)] + h.history;
        Action([Notify(m, FailedNote(history)), Purge(m, h, Resolved)], Reports(Removed))
      else if p.pattern != Pull || h.externalId.None? then Action([], Reports(Rescheduled))
      else if reply.Reported? then ProcessEvent(c, w, p, reply.event, jitter)
      else Action([], if reply.ReplyThrew? then Throws else Reports(Rescheduled))
    case Retry =>
      var move := Move(m, RetryQ, ReadyQ(b.readyKey), -b.priority, Queued, None);
      if MoveCommits(w.store, m, RetryQ) then Action([move, MarkReady(b.readyKey)], Reports(MovedOn))
      else Action([move], Reports(Orphaned))
  }

  /** What the runner still owes the member: a scrub, a new score, or nothing. A throw counts as still waiting. */
  function Obligation(c: Config, w: World, q: QueueKey, m: MessageId, now: real, result: Result, jitter: real): seq<Op>
    requires IsStageQueue(q)
    requires m in w.store.hashes && w.store.hashes[m].body.Some?
    requires w.store.hashes[m].body.value.plugin in c.registry
  {
    var h := w.store.hashes[m];
    var p := c.registry[h.body.value.plugin];
    if result == Reports(Orphaned) then [Unlist(m, q)]
    else if result.Throws? || result.outcome == Rescheduled then
      var wait := RescheduleWait(StageOf(q), p.tuning, c.delivery, h.retryCount, now - m.time, jitter);
      [Postpone(m, StageKeyFor(StageOf(q), p.id), w.clock + wait)]
    else []
  }

  /** One due member of a drain. A hash without its body makes the load throw, and nothing happens. */
  function Visit(c: Config, w: World, q: QueueKey, m: MessageId, now: real, reply: Reply, jitter: real): seq<Op>
    requires IsStageQueue(q)
  {
    if m !in w.store.hashes then [Unlist(m, q)]
    else if w.store.hashes[m].body.None? then []
    else if w.store.hashes[m].body.value.plugin !in c.registry then [Unlist(m, q)]
    else
      var action := StageAction(c, w, q, m, now, reply, jitter);
      action.ops + Obligation(c, w, q, m, now, action.result, jitter)
  }

  function DeadOccupants(s: Store, key: string): set<MessageId> {
    set x | x in Occupants(s, key) && x !in s.hashes
  }

  /** The dead-member sweep, done only when the set looks full. */
  function AdmissionSweep(s: Store, limit: Option<Limit>): seq<Op> {
    if limit.Some? && |Occupants(s, limit.value.key)| >= limit.value.max
    then [SweepSlots(limit.value.key, DeadOccupants(s, limit.value.key))]
    else []
  }

  /** Whether a concurrency queue may yield a message, once swept. */
  predicate HasRoom(s: Store, limit: Option<Limit>) {
    limit.Some? ==> |Occupants(s, limit.value.key) - DeadOccupants(s, limit.value.key)| < limit.value.max
  }

  /** Claiming the head of a ready queue, notifying on a first send, and starting the vendor call. */
  function Pick(c: Config, w: World, key: string, p: Plugin, head: Option<MessageId>): seq<Op> {
    if head.None? then [FetchNothing(key)]
    else
      var m := head.value;
      var fetch := FetchNext(m, key, w.clock + EntryWait(Ns, p.tuning, c.delivery, 0, 0.0), LimitFor(c, key));
      if m !in w.store.hashes || w.store.hashes[m].body.None? then [fetch]
      else if w.store.hashes[m].retryCount == 0 then [fetch, Notify(m, SentNote), BeginSend(m)]
      else [fetch, BeginSend(m)]
  }

  /** One ready queue of a distribute pass; `unlocked` is what the spacing lock answered. */
  function Distribute(c: Config, w: World, key: string, head: Option<MessageId>, unlocked: bool): seq<Op> {
    var owner := QueueKeys.PluginIdOf(key);
    if owner.None? || owner.value !in c.registry then []
    else
      var p := c.registry[owner.value];
      var limit := LimitFor(c, key);
      if limit.None? && !unlocked then []
      else if !HasRoom(w.store, limit) then AdmissionSweep(w.store, limit)
      else AdmissionSweep(w.store, limit) + Pick(c, w, key, p, head)
  }

  /** What a settled vendor call leads to: forward on success, retry or fail otherwise. */
  function SettleEffect(c: Config, w: World, m: MessageId, p: Plugin, sent: SendResult, jitter: real): seq<Op> {
    match sent
    case Accepted(d) => Advance(c, w, m, p, Ns, Some(d))
    case NoExternalId => RetryOrFail(c, w, m, NsQ, FailureContext(EMPTY_EXTERNAL_ID, true), jitter).ops
    case SendThrew(context) => RetryOrFail(c, w, m, NsQ, context, jitter).ops
  }

  /** A vendor send settling, after which the process no longer holds it. */
  function Settle(c: Config, w: World, m: MessageId, p: Plugin, sent: SendResult, jitter: real): seq<Op> {
    SettleEffect(c, w, m, p, sent, jitter) + [EndSend(m)]
  }

  /** Cancelling one message found by its correlation id. */
  function Cancel(c: Config, w: World, m: MessageId): seq<Op> {
    if m !in w.store.hashes || w.store.hashes[m].body.None? then []
    else
      var h := w.store.hashes[m];
      if h.status !in {Queued, ToRetry} || h.body.value.plugin !in c.registry then []
      else
        var q := if h.status == ToRetry then RetryQ else ReadyQ(h.body.value.readyKey);
        if (q, m) in w.store.zsets then [Unlist(m, q), Purge(m, h, Cancelled)] else [Unlist(m, q)]
  }

  datatype Handler =
    | EnqueueOne(m: MessageId, body: Body)
    | DistributeQueue(key: string, head: Option<MessageId>, unlocked: bool)
    | SendSettles(m: MessageId, sent: SendResult, jitter: real)
    | Attend(q: QueueKey, m: MessageId, now: real, reply: Reply, jitter: real)
    | Ingress(plugin: PluginId, event: IncomingEvent, jitter: real)
    | CancelOne(m: MessageId)
    | Environment(op: Op)

  ghost function Script(c: Config, w: World, h: Handler): seq<Op> {
    match h
    case EnqueueOne(m, b) => [Insert(m, b)]
    case DistributeQueue(key, head, unlocked) => Distribute(c, w, key, head, unlocked)
    case SendSettles(m, sent, jitter) =>
      if m in w.minted && w.minted[m].plugin in c.registry
      then Settle(c, w, m, c.registry[w.minted[m].plugin], sent, jitter)
      else []
    case Attend(q, m, now, reply, jitter) => if IsStageQueue(q) then Visit(c, w, q, m, now, reply, jitter) else []
    case Ingress(p, e, jitter) => if p in c.registry then ProcessEvent(c, w, c.registry[p], e, jitter).ops else []
    case CancelOne(m) => Cancel(c, w, m)
    case Environment(op) => [op]
  }

  predicate ValidJitter(j: real) {
    0.0 <= j < 1.0
  }

  /** The message a vendor event names belongs to the plugin that parsed it. */
  ghost predicate EventIsOwned(w: World, p: PluginId, e: IncomingEvent) {
    e.externalId.Some? && e.externalId.value in w.store.ext && w.store.ext[e.externalId.value] in w.store.hashes ==>
      w.store.ext[e.externalId.value] in w.minted && w.minted[w.store.ext[e.externalId.value]].plugin == p
  }

  /** A poll is answered with an event about the polled message. */
  ghost predicate ReplyIsOwn(w: World, m: MessageId, reply: Reply) {
    reply.Reported? && m in w.store.hashes && reply.event.externalId.Some? ==>
      reply.event.externalId == w.store.hashes[m].externalId
  }

  ghost predicate UnusedExternalId(w: World, m: MessageId, d: ExternalId) {
    forall x :: x in w.store.hashes && x != m ==> w.store.hashes[x].externalId != Some(d)
  }

  ghost predicate UnusedCorrelation(w: World, r: Option<string>) {
    r.Some? && r.value in w.store.corr ==> w.store.corr[r.value] !in w.store.hashes
  }

  /**
   * When a handler may run: on fresh ids, outstanding sends, external ids the vendor has not reused. A visit works
   * from a due list read earlier, so its member may have left the queue or been rescored since.
   */
  ghost predicate Enabled(c: Config, w: World, h: Handler) {
    match h
    case EnqueueOne(m, b) => Allowed(c, w, Insert(m, b)) && UnusedCorrelation(w, b.correlation)
    case DistributeQueue(key, head, _) =>
      if head.Some? then IsHead(w.store, ReadyQ(key), head.value) else NoMembers(w.store, ReadyQ(key))
    case SendSettles(m, sent, jitter) =>
      m in w.outstanding && ValidJitter(jitter) && (sent.Accepted? ==> UnusedExternalId(w, m, sent.externalId))
    case Attend(q, m, now, reply, jitter) =>
      && IsStageQueue(q) && Picks(w, m) >= 1 && now <= w.clock
      && ReplyIsOwn(w, m, reply) && ValidJitter(jitter)
    case Ingress(p, e, jitter) =>
      p in c.registry && c.registry[p].pattern == Push && EventIsOwned(w, p, e) && ValidJitter(jitter)
    case CancelOne(_) => true
    case Environment(op) =>
      Allowed(c, w, op) && (op.ExpireHash? || op.ExpireIndex? || op.ExpireCorrelation? || op.Elapse? || op.Restart?)
  }
}
