/** The drain obligation: every due member a drain attends has left its queue or is due later. */
module Drain {
  import opened Domain
  import opened Stages
  import opened StoreSpec
  import opened World
  import opened Handlers
  import opened OnePlace
  import opened Soundness
  import opened Runs
  import opened Starvation

  /** A hash the runner cannot load: the write that recreated it left out the device. */
  predicate Unloadable(s: Store, m: MessageId) {
    m in s.hashes && s.hashes[m].body.None?
  }

  /** The queue being drained is the member's own, as far as its hash and the registry can tell. */
  predicate OwnQueue(c: Config, s: Store, q: QueueKey, m: MessageId) {
    m in s.hashes && s.hashes[m].body.Some? && s.hashes[m].body.value.plugin in c.registry && (q, m) in s.zsets ==>
      Home(c, s.hashes[m].body.value, s.hashes[m].status) == Some(q)
  }

  predicate OwnIndex(s: Store, m: MessageId) {
    m in s.hashes && s.hashes[m].externalId.Some? && s.hashes[m].externalId.value in s.ext ==>
      s.ext[s.hashes[m].externalId.value] == m
  }

  lemma RetryOrFailVacates(c: Config, w: World, q: QueueKey, m: MessageId, context: FailureContext, jitter: real)
    requires m in w.store.hashes && w.store.hashes[m].body.Some? && q in PurgeKeys(w.store.hashes[m].body.value)
    requires IsStageQueue(q) && q != RetryQ
    ensures var action := RetryOrFail(c, w, m, q, context, jitter);
      && (action.result == Reports(Removed) || action.result == Reports(MovedOn) ==>
            (q, m) !in Run(w, action.ops).store.zsets)
      && (action.result == Reports(Orphaned) ==> action.ops == [])
      && action.result.Reports? && action.result.outcome != Rescheduled
  {
    var ops := RetryOrFail(c, w, m, q, context, jitter).ops;
    if |ops| == 2 {
      RunTwo(w, ops[0], ops[1]);
    } else if |ops| == 1 {
      RunOne(w, ops[0]);
    }
  }

  lemma PollVacates(c: Config, w: World, q: QueueKey, m: MessageId, now: real, reply: Reply, jitter: real)
    requires q.TaskQ? && m in w.store.hashes && w.store.hashes[m].body.Some?
    requires w.store.hashes[m].body.value.plugin in c.registry && (q, m) in w.store.zsets
    requires OwnQueue(c, w.store, q, m) && OwnIndex(w.store, m) && ReplyIsOwn(w, m, reply)
    ensures var action := StageAction(c, w, q, m, now, reply, jitter);
      && (action.result == Reports(Removed) || action.result == Reports(MovedOn) ==>
            (q, m) !in Run(w, action.ops).store.zsets)
      && (action.result == Reports(Orphaned) ==> action.ops == [])
      && (action.result.Throws? || action.result == Reports(Rescheduled) ==>
            action.ops == [] || action.ops == [NotifyUnsolicited])
  {
    var h := w.store.hashes[m];
    var p := c.registry[h.body.value.plugin];
    var action := StageAction(c, w, q, m, now, reply, jitter);
    if now - m.time >= PULL_MAX_MESSAGE_AGE {
      RunTwo(w, action.ops[0], action.ops[1]);
    } else if p.pattern == Pull && h.externalId.Some? && reply.Reported? {
      var e := reply.event;
      if !e.unsolicited && e.externalId.Some? && e.externalId.value in w.store.ext {
        if e.status == DeliveryFailed {
          var context := if e.failure.Some? then e.failure.value else FailureContext(NEGATIVE_RESPONSE, false);
          RetryOrFailVacates(c, w, q, m, context, jitter);
        } else if e.status == DeliverySuccessful {
          RunTwo(w, action.ops[0], action.ops[1]);
        }
      }
    }
  }

  lemma ActionVacates(c: Config, w: World, q: QueueKey, m: MessageId, now: real, reply: Reply, jitter: real)
    requires IsStageQueue(q) && m in w.store.hashes && w.store.hashes[m].body.Some?
    requires w.store.hashes[m].body.value.plugin in c.registry && (q, m) in w.store.zsets
    requires OwnQueue(c, w.store, q, m) && OwnIndex(w.store, m) && ReplyIsOwn(w, m, reply)
    ensures var action := StageAction(c, w, q, m, now, reply, jitter);
      && (action.result == Reports(Removed) || action.result == Reports(MovedOn) ==>
            (q, m) !in Run(w, action.ops).store.zsets)
      && (action.result.Throws? || action.result == Reports(Rescheduled) ==>
            action.ops == [] || action.ops == [NotifyUnsolicited])
  {
    if q.TaskQ? {
      PollVacates(c, w, q, m, now, reply, jitter);
    } else if q.RetryQ? {
      RequeueVacates(w, m, w.store.hashes[m].body.value.readyKey, w.store.hashes[m].body.value.priority);
    } else {
      DeadlineVacates(c, w, q, m, now, reply, jitter);
    }
  }

  lemma DeadlineVacates(c: Config, w: World, q: QueueKey, m: MessageId, now: real, reply: Reply, jitter: real)
    requires q in {NsQ, RelayQ, DeviceQ} && m in w.store.hashes && w.store.hashes[m].body.Some?
    requires w.store.hashes[m].body.value.plugin in c.registry
    ensures var action := StageAction(c, w, q, m, now, reply, jitter);
      && (action.result == Reports(Removed) || action.result == Reports(MovedOn) ==>
            (q, m) !in Run(w, action.ops).store.zsets)
      && (action.result.Throws? || action.result == Reports(Rescheduled) ==> action.ops == [])
  {
    match q
    case NsQ => RetryOrFailVacates(c, w, q, m, FailureContext(NS_TIMEOUT, false), jitter);
    case RelayQ => RetryOrFailVacates(c, w, q, m, FailureContext(RELAY_TIMEOUT, false), jitter);
    case DeviceQ => RetryOrFailVacates(c, w, q, m, FailureContext(DEVICE_TIMEOUT, false), jitter);
  }

  lemma RequeueVacates(w: World, m: MessageId, key: string, priority: real)
    requires (RetryQ, m) in w.store.zsets
    ensures (RetryQ, m) !in Run(w, [Move(m, RetryQ, ReadyQ(key), -priority, Queued, None), MarkReady(key)]).store.zsets
  {
    RunTwo(w, Move(m, RetryQ, ReadyQ(key), -priority, Queued, None), MarkReady(key));
  }

  ghost predicate KnownMember(c: Config, w: World, q: QueueKey, m: MessageId) {
    && IsStageQueue(q) && (q, m) in w.store.zsets
    && m in w.store.hashes && w.store.hashes[m].body.Some? && w.store.hashes[m].body.value.plugin in c.registry
    && Home(c, w.store.hashes[m].body.value, w.store.hashes[m].status) == Some(q)
  }

  /** What the runner owes a member that is still there settles it. */
  lemma ObligationSettles(c: Config, w: World, mid: World, q: QueueKey, m: MessageId, now: real, result: Result,
                          jitter: real)
    requires KnownMember(c, w, q, m) && ValidJitter(jitter) && now <= w.clock == mid.clock
    requires (result == Reports(Removed) || result == Reports(MovedOn)) ==> (q, m) !in mid.store.zsets
    ensures Settled(Run(mid, Obligation(c, w, q, m, now, result, jitter)).store, q, m, now)
  {
    var h := w.store.hashes[m];
    var p := c.registry[h.body.value.plugin];
    var owed := Obligation(c, w, q, m, now, result, jitter);
    WaitsArePositive(StageOf(q), p.tuning, c.delivery, h.retryCount, now - m.time, jitter);
    if owed != [] {
      OwedSettles(mid, owed[0], q, m, now);
    } else {
      assert Run(mid, owed) == mid;
    }
  }

  /** Scrubbing a member settles it, and so does a score in the future. */
  lemma OwedSettles(mid: World, op: Op, q: QueueKey, m: MessageId, now: real)
    requires op == Unlist(m, q) || (op.Postpone? && op.m == m && op.q == q && op.score > now)
    ensures Settled(Run(mid, [op]).store, q, m, now)
  {
    RunOne(mid, op);
  }

  lemma KnownVisitSettles(c: Config, w: World, q: QueueKey, m: MessageId, now: real, reply: Reply, jitter: real)
    requires KnownMember(c, w, q, m) && ValidJitter(jitter) && now <= w.clock
    requires OwnIndex(w.store, m) && ReplyIsOwn(w, m, reply)
    ensures Settled(Run(w, Visit(c, w, q, m, now, reply, jitter)).store, q, m, now)
  {
    var action := StageAction(c, w, q, m, now, reply, jitter);
    ActionVacates(c, w, q, m, now, reply, jitter);
    ActionKeepsClock(c, w, q, m, now, reply, jitter);
    ObligationSettles(c, w, Run(w, action.ops), q, m, now, action.result, jitter);
    RunAppend(w, action.ops, Obligation(c, w, q, m, now, action.result, jitter));
  }

  /**
   * Drain obligation: the visit of a member leaves it out of the queue or due later than the drain's clock reading,
   * whether its hash is missing, its plugin unknown, its action throws or reports any of the four outcomes. It fails
   * exactly for a member whose hash cannot be loaded.
   */
  lemma VisitSettlesIff(c: Config, w: World, q: QueueKey, m: MessageId, now: real, reply: Reply, jitter: real)
    requires IsStageQueue(q) && ValidJitter(jitter) && now <= w.clock
    requires (q, m) in w.store.zsets && w.store.zsets[(q, m)] <= now
    requires OwnQueue(c, w.store, q, m) && OwnIndex(w.store, m) && ReplyIsOwn(w, m, reply)
    ensures Settled(Run(w, Visit(c, w, q, m, now, reply, jitter)).store, q, m, now) <==> !Unloadable(w.store, m)
  {
    if KnownMember(c, w, q, m) {
      KnownVisitSettles(c, w, q, m, now, reply, jitter);
    } else if !Unloadable(w.store, m) {
      ScrubSettles(c, w, q, m, now, reply, jitter);
    } else {
      UnloadableMemberStays(c, w, q, m, now, reply, jitter);
    }
  }

  /** A member without a hash, or without a registered plugin, is scrubbed. */
  lemma ScrubSettles(c: Config, w: World, q: QueueKey, m: MessageId, now: real, reply: Reply, jitter: real)
    requires IsStageQueue(q) && !Unloadable(w.store, m)
    requires m in w.store.hashes ==> w.store.hashes[m].body.value.plugin !in c.registry
    ensures Settled(Run(w, Visit(c, w, q, m, now, reply, jitter)).store, q, m, now)
  {
    assert Visit(c, w, q, m, now, reply, jitter) == [Unlist(m, q)];
    OwedSettles(w, Unlist(m, q), q, m, now);
  }

  /** In every run of handlers, crashes included, every hash can be loaded: no drain is ever cut short. */
  lemma RunsHaveNoUnloadableHash(c: Config, w: World, q: QueueKey, m: MessageId)
    requires RunReaches(c, w)
    ensures !Unloadable(w.store, m) && OwnQueue(c, w.store, q, m) && OwnIndex(w.store, m)
  {
    RunsAreSound(c, w);
    assert SoundMessage(c, w, m) && PlacedMessage(c, w, m);
  }

  /** A drain from its list of due ids: a load that throws ends it, and nothing after that member is attended. */
  ghost function DrainList(c: Config, w: World, q: QueueKey, now: real, ids: seq<MessageId>, reply: Reply,
                           jitter: real): World
    requires IsStageQueue(q)
    decreases |ids|
  {
    if ids == [] || Unloadable(w.store, ids[0]) then w
    else DrainList(c, Run(w, Visit(c, w, q, ids[0], now, reply, jitter)), q, now, ids[1..], reply, jitter)
  }

  lemma UnloadableMemberStays(c: Config, w: World, q: QueueKey, m: MessageId, now: real, reply: Reply, jitter: real)
    requires IsStageQueue(q) && Unloadable(w.store, m)
    ensures Run(w, Visit(c, w, q, m, now, reply, jitter)) == w
  {
  }

  /** The due list of a queue whose head is due begins with that head. */
  lemma HeadComesFirst(s: Store, q: QueueKey, now: real, ids: seq<MessageId>, m: MessageId)
    requires IsHead(s, q, m) && s.zsets[(q, m)] <= now && IsDueBatch(s, q, now, ids)
    ensures ids != [] && ids[0] == m
  {
    assert forall x :: (q, x) in s.zsets ==> !Before(s, q, x, m);
    assert |ids| > 0 ==> ids[0] in ids && !Before(s, q, ids[0], m);
    assert m in ids;
    var k :| 0 <= k < |ids| && ids[k] == m;
    assert k == 0;
  }

  lemma AheadMembers(s: Store, q: QueueKey, m: MessageId, x: MessageId)
    requires (q, m) in s.zsets && (q, x) in s.zsets && x != m
    ensures x in Ahead(s, q, m) <==> Before(s, q, x, m)
    ensures Before(s, q, x, m) <==> !Before(s, q, m, x)
  {
    if Before(s, q, x, m) {
      assert (q, x).1 in Ahead(s, q, m);
    }
    BeforeIsTotal(s, q, m, x);
  }

  lemma NobodyAheadIsHead(s: Store, q: QueueKey, m: MessageId)
    requires (q, m) in s.zsets
    ensures Ahead(s, q, m) == {} <==> IsHead(s, q, m)
  {
    forall x | (q, x) in s.zsets && x != m ensures x in Ahead(s, q, m) <==> !Before(s, q, m, x) {
      AheadMembers(s, q, m, x);
    }
  }

  /**
   * A stage queue with an unloadable member at its due head is stuck: whatever else happens, as long as that member is
   * neither moved nor rescored, every later drain of the queue attends no one.
   */
  lemma PoisonedQueueIsStuck(c: Config, w: World, ops: seq<Op>, q: QueueKey, m: MessageId, score: real, now: real,
                             ids: seq<MessageId>, reply: Reply, jitter: real)
    requires IsStageQueue(q) && score <= w.clock && IsHead(w.store, q, m)
    requires AllAllowed(c, w, ops) && Unattended(w, ops, q, m, score)
    requires var later := Run(w, ops);
      Unloadable(later.store, m) && score <= now && IsDueBatch(later.store, q, now, ids)
    ensures DrainList(c, Run(w, ops), q, now, ids, reply, jitter) == Run(w, ops)
  {
    NobodyAheadIsHead(w.store, q, m);
    RunKeepsRank(c, w, ops, q, m, score);
    NobodyAheadIsHead(Run(w, ops).store, q, m);
    HeadComesFirst(Run(w, ops).store, q, now, ids, m);
  }
}
