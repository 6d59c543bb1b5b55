/** What a visit does to a message that left the queue after the due list was read, stage by stage. */
module StaleVisits {
  import opened Domain
  import opened Stages
  import opened StoreSpec
  import opened World
  import opened Handlers
  import opened OnePlace
  import opened Soundness
  import opened Runs
  import opened InFlightRuns
  import opened Homes
  import opened History

  /**
   * A visit that ends its message although it need not be in the visited queue: the retries are used up and nothing
   * excuses the stage's deadline, or a task is past the age cap. Neither branch asks whether the message is still
   * there.
   */
  predicate EndsUngated(c: Config, w: World, q: QueueKey, m: MessageId, now: real, reply: Reply)
    requires IsStageQueue(q) && m in w.store.hashes && w.store.hashes[m].body.Some?
    requires w.store.hashes[m].body.value.plugin in c.registry
  {
    var h := w.store.hashes[m];
    var p := c.registry[h.body.value.plugin];
    var spent := h.retryCount >= c.delivery.maxRetries;
    match q
    case NsQ => spent && m !in w.outstanding
    case RelayQ => spent && !(p.pattern == Push && p.inspectsRemoteQueue && reply == RemoteStatus(false))
    case DeviceQ => spent
    case TaskQ(_) => now - m.time >= PULL_MAX_MESSAGE_AGE
    case RetryQ => false
  }

  lemma SpentRetryOrFail(c: Config, w: World, m: MessageId, from: QueueKey, context: FailureContext, jitter: real)
    requires Sound(c, w) && m in w.store.hashes && !context.skipRetry
    requires w.store.hashes[m].retryCount >= c.delivery.maxRetries
    ensures var action := RetryOrFail(c, w, m, from, context, jitter);
      action.result == Reports(Removed) && Ends(w, action.ops, m)
  {
    assert SoundMessage(c, w, m);
    var ops := RetryOrFail(c, w, m, from, context, jitter).ops;
    RunTwo(w, ops[0], ops[1]);
  }

  /** The message is announced and gone. */
  ghost predicate Ends(w: World, ops: seq<Op>, m: MessageId) {
    m !in Run(w, ops).store.hashes && m in Run(w, ops).purged && |Log(Run(w, ops), m)| == |Log(w, m)| + 1
  }

  lemma StaleRetryOrFail(c: Config, w: World, m: MessageId, from: QueueKey, context: FailureContext, jitter: real)
    requires Sound(c, w) && m in w.store.hashes && !context.skipRetry && (from, m) !in w.store.zsets
    requires w.store.hashes[m].retryCount < c.delivery.maxRetries
    ensures RetryOrFail(c, w, m, from, context, jitter) == Action([], Reports(Orphaned))
  {
    assert SoundMessage(c, w, m);
  }

  lemma EndingAction(c: Config, w: World, q: QueueKey, m: MessageId, now: real, reply: Reply, jitter: real)
    requires Sound(c, w) && IsStageQueue(q) && m in w.store.hashes && w.store.hashes[m].body.Some?
    requires w.store.hashes[m].body.value.plugin in c.registry && EndsUngated(c, w, q, m, now, reply)
    ensures var action := StageAction(c, w, q, m, now, reply, jitter);
      action.result == Reports(Removed) && Ends(w, action.ops, m)
  {
    assert SoundMessage(c, w, m);
    match q
    case NsQ => SpentRetryOrFail(c, w, m, NsQ, FailureContext(NS_TIMEOUT, false), jitter);
    case RelayQ => SpentRetryOrFail(c, w, m, q, FailureContext(RELAY_TIMEOUT, false), jitter);
    case DeviceQ => SpentRetryOrFail(c, w, m, q, FailureContext(DEVICE_TIMEOUT, false), jitter);
    case TaskQ(_) =>
      var ops := StageAction(c, w, q, m, now, reply, jitter).ops;
      RunTwo(w, ops[0], ops[1]);
    case RetryQ =>
  }

  /** A message that has left its awaiting-task queue has no external id, so it is not polled. */
  lemma GoneTaskIsNotPolled(c: Config, w: World, q: QueueKey, m: MessageId)
    requires RunReaches(c, w) && m in w.store.hashes && m in w.minted && q == TaskQ(w.minted[m].plugin)
    requires (q, m) !in w.store.zsets
    ensures w.minted[m].plugin in c.registry
    ensures c.registry[w.minted[m].plugin].pattern == Pull ==> w.store.hashes[m].externalId.None?
  {
    RunsAreSound(c, w);
    assert SoundMessage(c, w, m);
    if w.store.hashes[m].externalId.Some? {
      InFlightMessageIsQueued(c, w, m);
    }
  }

  /** An action that does nothing, except that a retry move may be tried in vain. */
  predicate IsIdle(action: Action, q: QueueKey, m: MessageId) {
    && (action.result == Reports(Orphaned) || action.result == Reports(Rescheduled))
    && (action.ops == [] || (q == RetryQ && |action.ops| == 1 && action.ops[0].Move? && action.ops[0].from == RetryQ
                             && action.ops[0].m == m))
  }

  /** In the stages with a deadline a stale visit finds the membership gone before it writes anything. */
  lemma HarmlessDeadline(c: Config, w: World, q: QueueKey, m: MessageId, now: real, reply: Reply, jitter: real)
    requires Sound(c, w) && q in {NsQ, RelayQ, DeviceQ} && m in w.store.hashes && (q, m) !in w.store.zsets
    requires w.store.hashes[m].body.Some? && w.store.hashes[m].body.value.plugin in c.registry
    requires !EndsUngated(c, w, q, m, now, reply)
    ensures IsIdle(StageAction(c, w, q, m, now, reply, jitter), q, m)
  {
    if w.store.hashes[m].retryCount < c.delivery.maxRetries {
      var reason := if q == NsQ then NS_TIMEOUT else if q == RelayQ then RELAY_TIMEOUT
        else DEVICE_TIMEOUT;
      StaleRetryOrFail(c, w, m, q, FailureContext(reason, false), jitter);
    }
  }

  lemma HarmlessPoll(c: Config, w: World, q: QueueKey, m: MessageId, now: real, reply: Reply, jitter: real)
    requires RunReaches(c, w) && m in w.store.hashes && m in w.minted && q == TaskQ(w.minted[m].plugin)
    requires (q, m) !in w.store.zsets && w.store.hashes[m].body == Some(w.minted[m]) && w.minted[m].plugin in c.registry
    requires !EndsUngated(c, w, q, m, now, reply)
    ensures IsIdle(StageAction(c, w, q, m, now, reply, jitter), q, m)
  {
    GoneTaskIsNotPolled(c, w, q, m);
  }

  lemma HarmlessRetry(c: Config, w: World, m: MessageId, now: real, reply: Reply, jitter: real)
    requires m in w.store.hashes && (RetryQ, m) !in w.store.zsets
    requires w.store.hashes[m].body.Some? && w.store.hashes[m].body.value.plugin in c.registry
    ensures IsIdle(StageAction(c, w, RetryQ, m, now, reply, jitter), RetryQ, m)
  {
  }

  /** Otherwise a stale visit does nothing but drop the membership the message no longer has. */
  lemma HarmlessAction(c: Config, w: World, q: QueueKey, m: MessageId, now: real, reply: Reply, jitter: real)
    requires RunReaches(c, w) && IsStageQueue(q) && m in w.store.hashes && m in w.minted && Sweepable(w.minted[m], q)
    requires (q, m) !in w.store.zsets && ReplyIsOwn(w, m, reply)
    ensures w.store.hashes[m].body.Some? && w.store.hashes[m].body.value.plugin in c.registry
    ensures !EndsUngated(c, w, q, m, now, reply) ==> IsIdle(StageAction(c, w, q, m, now, reply, jitter), q, m)
  {
    RunsAreSound(c, w);
    assert SoundMessage(c, w, m);
    if !EndsUngated(c, w, q, m, now, reply) {
      match q
      case TaskQ(_) => HarmlessPoll(c, w, q, m, now, reply, jitter);
      case RetryQ => HarmlessRetry(c, w, m, now, reply, jitter);
      case _ => HarmlessDeadline(c, w, q, m, now, reply, jitter);
    }
  }

  lemma IdleStep(w: World, op: Op, m: MessageId)
    requires (op.Unlist? && op.m == m && (op.q, m) !in w.store.zsets)
      || (op.Postpone? && op.m == m && (op.q, m) !in w.store.zsets)
      || (op.Move? && op.m == m && (op.from, m) !in w.store.zsets)
    ensures SameMessage(w, Do(w, op), m) && Do(w, op).outstanding == w.outstanding
    ensures Do(w, op).store.zsets == w.store.zsets
  {
  }

  /** After an idle action what the runner owes is idle too. */
  lemma IdleVisit(c: Config, w: World, q: QueueKey, m: MessageId, now: real, reply: Reply, jitter: real)
    requires Sound(c, w) && IsStageQueue(q) && m in w.store.hashes && m in w.minted && Sweepable(w.minted[m], q)
    requires (q, m) !in w.store.zsets && w.store.hashes[m].body.Some?
    requires w.store.hashes[m].body.value.plugin in c.registry
    requires IsIdle(StageAction(c, w, q, m, now, reply, jitter), q, m)
    ensures SameMessage(w, Run(w, Visit(c, w, q, m, now, reply, jitter)), m)
    ensures Run(w, Visit(c, w, q, m, now, reply, jitter)).outstanding == w.outstanding
  {
    assert SoundMessage(c, w, m);
    var action := StageAction(c, w, q, m, now, reply, jitter);
    var owed := Obligation(c, w, q, m, now, action.result, jitter);
    RunAppend(w, action.ops, owed);
    var mid := Run(w, action.ops);
    if action.ops != [] {
      RunOne(w, action.ops[0]);
      IdleStep(w, action.ops[0], m);
    }
    RunOne(mid, owed[0]);
    IdleStep(mid, owed[0], m);
  }

  /**
   * A visit of any stage queue for a live message that has since left it leaves the message exactly as it was, unless
   * the visit ends it ungated, and then the message is failed at once, whatever stage it is in by now.
   */
  lemma StaleVisitIsHarmlessIff(c: Config, w: World, q: QueueKey, m: MessageId, now: real, reply: Reply, jitter: real)
    requires RunReaches(c, w) && IsStageQueue(q) && m in w.store.hashes && m in w.minted && Sweepable(w.minted[m], q)
    requires (q, m) !in w.store.zsets && ReplyIsOwn(w, m, reply)
    ensures w.store.hashes[m].body.Some? && w.store.hashes[m].body.value.plugin in c.registry
    ensures var ops := Visit(c, w, q, m, now, reply, jitter);
      && (SameMessage(w, Run(w, ops), m) <==> !EndsUngated(c, w, q, m, now, reply))
      && (Ends(w, ops, m) <==> EndsUngated(c, w, q, m, now, reply))
  {
    RunsAreSound(c, w);
    HarmlessAction(c, w, q, m, now, reply, jitter);
    if EndsUngated(c, w, q, m, now, reply) {
      EndingAction(c, w, q, m, now, reply, jitter);
      assert Visit(c, w, q, m, now, reply, jitter) == StageAction(c, w, q, m, now, reply, jitter).ops;
    } else {
      IdleVisit(c, w, q, m, now, reply, jitter);
    }
  }

  /** A message failed early still had an attempt: it had been picked less often than its budget allows. */
  lemma EarlyFailureWastesAnAttempt(c: Config, w: World, m: MessageId)
    requires RunReaches(c, w) && m in w.store.hashes && w.store.hashes[m].retryCount == c.delivery.maxRetries
    ensures Picks(w, m) == c.delivery.maxRetries + 1 <==> InFlight(w.store.hashes[m].status)
  {
    SendBudget(c, w, m);
  }

  /** The visit of `m` that ends it ungated, or the expiry of its hash. */
  ghost predicate EndsTracked(c: Config, w: World, h: Handler, m: MessageId)
    requires m in w.store.hashes && w.store.hashes[m].body.Some? && w.store.hashes[m].body.value.plugin in c.registry
  {
    || (h.Attend? && h.m == m && IsStageQueue(h.q) && EndsUngated(c, w, h.q, m, h.now, h.reply))
    || h == Environment(ExpireHash(m))
  }

  ghost predicate LeavesAlone(ops: seq<Op>, m: MessageId) {
    forall i :: 0 <= i < |ops| ==> !Concerns(ops[i], m)
  }

  lemma OtherVisitLeavesAlone(c: Config, w: World, q: QueueKey, x: MessageId, now: real, reply: Reply, jitter: real,
                              m: MessageId)
    requires Sound(c, w) && IsStageQueue(q) && x != m && ReplyIsOwn(w, x, reply)
    ensures LeavesAlone(Visit(c, w, q, x, now, reply, jitter), m)
  {
    assert SoundMessage(c, w, x);
    if x in w.store.hashes {
      StageActionConcerns(c, w, q, x, now, reply, jitter);
      VisitConcerns(c, w, q, x, now, reply, jitter);
    }
  }

  /** No vendor event names a message that has no external id. */
  lemma EventLeavesUnsentAlone(c: Config, w: World, p: Plugin, e: IncomingEvent, jitter: real, m: MessageId)
    requires Sound(c, w) && m in w.store.hashes && w.store.hashes[m].externalId.None?
    ensures LeavesAlone(ProcessEvent(c, w, p, e, jitter).ops, m)
  {
    ProcessEventConcerns(c, w, p, e, jitter);
    if e.externalId.Some? && e.externalId.value in w.store.ext {
      assert w.store.ext[e.externalId.value] != m;
    } else {
      var y := MessageId(m.time, m.entropy + 1);
      assert OnlyConcerns(ProcessEvent(c, w, p, e, jitter).ops, y);
    }
  }

  /** No handler but a visit, its own settlement or the environment touches a message whose send is awaited. */
  lemma OthersLeaveTrackedAlone(c: Config, w: World, h: Handler, m: MessageId)
    requires Sound(c, w) && Enabled(c, w, h) && m in w.store.hashes && m in w.minted
    requires w.store.hashes[m].status == SentToNs && (NsQ, m) in w.store.zsets
    requires !(h.Attend? && h.m == m) && !(h.SendSettles? && h.m == m) && h != Environment(ExpireHash(m))
    ensures LeavesAlone(Script(c, w, h), m)
  {
    assert SoundMessage(c, w, m) && PlacedMessage(c, w, m);
    match h
    case DistributeQueue(key, head, unlocked) =>
      assert (ReadyQ(key), m) !in w.store.zsets;
      PassLeavesAlone(c, w, key, head, unlocked, m);
    case SendSettles(x, sent, jitter) => SettleLeavesAlone(c, w, x, sent, jitter, m);
    case Attend(q, x, now, reply, jitter) => OtherVisitLeavesAlone(c, w, q, x, now, reply, jitter, m);
    case Ingress(p, e, jitter) => EventLeavesUnsentAlone(c, w, c.registry[p], e, jitter, m);
    case _ =>
  }

  lemma PassLeavesAlone(c: Config, w: World, key: string, head: Option<MessageId>, unlocked: bool, m: MessageId)
    requires head != Some(m)
    ensures LeavesAlone(Distribute(c, w, key, head, unlocked), m)
  {
  }

  lemma SettleLeavesAlone(c: Config, w: World, x: MessageId, sent: SendResult, jitter: real, m: MessageId)
    requires x != m
    ensures LeavesAlone(Script(c, w, SendSettles(x, sent, jitter)), m)
  {
  }

  lemma HeldVisitKeeps(c: Config, w: World, m: MessageId, now: real, reply: Reply, jitter: real)
    requires Sound(c, w) && m in w.outstanding && m in w.store.hashes && (NsQ, m) in w.store.zsets
    ensures var after := Run(w, Visit(c, w, NsQ, m, now, reply, jitter));
      m in after.store.hashes && after.store.hashes[m] == w.store.hashes[m] && (NsQ, m) in after.store.zsets
  {
    assert SoundMessage(c, w, m);
    var ops := Visit(c, w, NsQ, m, now, reply, jitter);
    assert |ops| == 1 && ops[0].Postpone?;
    RunOne(w, ops[0]);
  }

  /**
   * A message whose vendor call is awaited stays in the network-server queue through every handler but the settlement
   * of that call, exactly unless the handler is a late visit that ends it ungated, or its hash expires.
   */
  lemma TrackedMessageStaysIff(c: Config, w: World, h: Handler, m: MessageId)
    requires RunReaches(c, w) && m in w.outstanding && m in w.store.hashes && Enabled(c, w, h)
    requires !(h.SendSettles? && h.m == m)
    requires h.Attend? && h.m == m ==> m in w.minted && Sweepable(w.minted[m], h.q)
    ensures w.store.hashes[m].body.Some? && w.store.hashes[m].body.value.plugin in c.registry
    ensures var after := After(c, w, Completes(h)).store;
      (m in after.hashes && after.hashes[m].status == SentToNs && (NsQ, m) in after.zsets) <==> !EndsTracked(c, w, h, m)
  {
    RunsAreSound(c, w);
    assert SoundMessage(c, w, m);
    NoDuplicateSend(c, w, m, NsQ);
    if h.Attend? && h.m == m {
      NoDuplicateSend(c, w, m, h.q);
      if h.q == NsQ {
        HeldVisitKeeps(c, w, m, h.now, h.reply, h.jitter);
      } else {
        StaleVisitIsHarmlessIff(c, w, h.q, m, h.now, h.reply, h.jitter);
      }
    } else if h == Environment(ExpireHash(m)) {
      RunOne(w, ExpireHash(m));
    } else {
      OthersLeaveTrackedAlone(c, w, h, m);
      RunLeavesOthers(w, Script(c, w, h), m);
    }
  }
}
