/** The way of one message: where each handler leaves it, until when, and under which status. */
module Journey {
  import opened Domain
  import opened Stages
  import opened StoreSpec
  import opened World
  import opened Handlers
  import opened OnePlace
  import opened Soundness
  import opened Runs
  import opened Drain
  import QueueKeys

  /** `m` is in `q` and nowhere else, due at `due`, with the given status. */
  ghost predicate WaitsIn(w: World, m: MessageId, q: QueueKey, status: Status, due: real) {
    && m in w.store.hashes && w.store.hashes[m].status == status
    && (q, m) in w.store.zsets && w.store.zsets[(q, m)] == due
    && (forall x :: (x, m) in w.store.zsets ==> x == q)
  }

  lemma FetchedWaits(c: Config, w: World, key: string, p: Plugin, m: MessageId)
    requires Sound(c, w) && IsHead(w.store, ReadyQ(key), m) && m in w.store.hashes
    ensures var after := Do(w, FetchOf(c, w, key, p, m));
      && WaitsIn(after, m, NsQ, SentToNs, w.clock + p.tuning.nsInFlight)
      && Picks(after, m) == Picks(w, m) + 1 && Log(after, m) == Log(w, m)
      && (LimitFor(c, key).Some? ==> m in Occupants(after.store, LimitFor(c, key).value.key))
  {
    assert PlacedMessage(c, w, m);
  }

  lemma StartedWaits(w: World, m: MessageId, q: QueueKey, status: Status, due: real, first: bool)
    requires WaitsIn(w, m, q, status, due)
    ensures var after := Run(w, if first then [Notify(m, SentNote), BeginSend(m)] else [BeginSend(m)]);
      && WaitsIn(after, m, q, status, due) && m in after.outstanding && after.store == w.store
      && Picks(after, m) == Picks(w, m) && Log(after, m) == if first then Log(w, m) + [SentNote] else Log(w, m)
  {
    if first {
      RunTwo(w, Notify(m, SentNote), BeginSend(m));
    } else {
      RunOne(w, BeginSend(m));
    }
  }

  lemma PickedWaits(c: Config, w: World, key: string, p: Plugin, m: MessageId)
    requires Sound(c, w) && IsHead(w.store, ReadyQ(key), m) && m in w.store.hashes
    ensures var after := Run(w, Pick(c, w, key, p, Some(m)));
      && WaitsIn(after, m, NsQ, SentToNs, w.clock + p.tuning.nsInFlight) && m in after.outstanding
      && Picks(after, m) == Picks(w, m) + 1
      && Log(after, m) == (if w.store.hashes[m].retryCount == 0 then Log(w, m) + [SentNote] else Log(w, m))
      && (LimitFor(c, key).Some? ==> m in Occupants(after.store, LimitFor(c, key).value.key))
  {
    assert SoundMessage(c, w, m);
    var fetch := FetchOf(c, w, key, p, m);
    var first := w.store.hashes[m].retryCount == 0;
    var rest := if first then [Notify(m, SentNote), BeginSend(m)] else [BeginSend(m)];
    assert Pick(c, w, key, p, Some(m)) == [fetch] + rest;
    RunAppend(w, [fetch], rest);
    RunOne(w, fetch);
    FetchedWaits(c, w, key, p, m);
    StartedWaits(Do(w, fetch), m, NsQ, SentToNs, w.clock + p.tuning.nsInFlight, first);
  }

  /**
   * An admitted pass over a ready queue puts its head in the network-server queue for the plugin's timeout, with its
   * slot if the plugin is capped and its vendor call started, and announces it on its first send only.
   */
  lemma AdmittedHeadIsSent(c: Config, w: World, key: string, m: MessageId, unlocked: bool)
    requires Sound(c, w) && IsHead(w.store, ReadyQ(key), m) && m in w.store.hashes && Admits(c, w, key, unlocked)
    ensures var after := Run(w, Distribute(c, w, key, Some(m), unlocked));
      var p := c.registry[QueueKeys.PluginIdOf(key).value];
      && WaitsIn(after, m, NsQ, SentToNs, w.clock + p.tuning.nsInFlight) && m in after.outstanding
      && Picks(after, m) == Picks(w, m) + 1
      && Log(after, m) == (if w.store.hashes[m].retryCount == 0 then Log(w, m) + [SentNote] else Log(w, m))
      && (LimitFor(c, key).Some? ==> m in Occupants(after.store, LimitFor(c, key).value.key))
  {
    var sweep := AdmissionSweep(w.store, LimitFor(c, key));
    var swept := Run(w, sweep);
    DistributeShape(c, w, key, Some(m), unlocked);
    SweepKeepsRest(w, LimitFor(c, key));
    PickedWaits(c, swept, key, c.registry[QueueKeys.PluginIdOf(key).value], m);
  }

  lemma MovedWaits(c: Config, w: World, m: MessageId, from: QueueKey, to: QueueKey, score: real, status: Status,
                   d: Option<ExternalId>)
    requires Sound(c, w) && m in w.store.hashes && (from, m) in w.store.zsets
    ensures var after := Do(w, Move(m, from, to, score, status, d));
      && WaitsIn(after, m, to, status, score)
      && (d.Some? ==>
            after.store.hashes[m].externalId == d && d.value in after.store.ext && after.store.ext[d.value] == m)
  {
    assert PlacedMessage(c, w, m);
  }

  /** An accepted send waits for the relay node, or for its first poll, and is indexed under the id the vendor gave. */
  lemma AcceptedSendWaits(c: Config, w: World, m: MessageId, d: ExternalId, jitter: real)
    requires Sound(c, w) && m in w.store.hashes && (NsQ, m) in w.store.zsets
    ensures m in w.minted && w.minted[m].plugin in c.registry
    ensures var p := c.registry[w.minted[m].plugin];
      var after := Run(w, Settle(c, w, m, p, Accepted(d), jitter));
      && (if p.pattern == Push then WaitsIn(after, m, RelayQ, DeliveredToNs, w.clock + p.tuning.relayNodeInFlight)
          else WaitsIn(after, m, TaskQ(p.id), DeliveredToNs, w.clock + p.tuning.initialPollDelay))
      && after.store.hashes[m].externalId == Some(d) && d in after.store.ext && after.store.ext[d] == m
  {
    assert SoundMessage(c, w, m);
    var p := c.registry[w.minted[m].plugin];
    var move := Advance(c, w, m, p, Ns, Some(d))[0];
    MovedWaits(c, w, m, NsQ, move.to, move.score, move.status, Some(d));
    ReleasedKeepsStore(w, move, m);
    assert Settle(c, w, m, p, Accepted(d), jitter) == [move, EndSend(m)];
  }

  lemma ReleasedKeepsStore(w: World, op: Op, m: MessageId)
    ensures Run(w, [op, EndSend(m)]).store == Do(w, op).store
  {
    RunTwo(w, op, EndSend(m));
  }

  /** The hand-over to the radio starts the wait for the device. */
  lemma HandedOverWaits(c: Config, w: World, p: Plugin, d: ExternalId, failure: Option<FailureContext>, jitter: real)
    requires Sound(c, w) && p.pattern == Push && d in w.store.ext
    requires var m := w.store.ext[d]; m in w.store.hashes && (RelayQ, m) in w.store.zsets
    ensures var m := w.store.ext[d];
      var e := IncomingEvent(Some(d), SentToDevice, false, failure);
      WaitsIn(Run(w, ProcessEvent(c, w, p, e, jitter).ops), m, DeviceQ, SentToDevice, w.clock + p.tuning.deviceInFlight)
  {
    var m := w.store.ext[d];
    var move := Advance(c, w, m, p, RelayNode, None)[0];
    MovedWaits(c, w, m, RelayQ, DeviceQ, move.score, SentToDevice, None);
    RunOne(w, move);
  }

  /**
   * A failed attempt with retries left waits out a backoff between the capped delay and half as much again, one retry
   * richer, and keeps neither its external id nor its slot.
   */
  lemma FailedAttemptWaits(c: Config, w: World, m: MessageId, from: QueueKey, context: FailureContext, jitter: real)
    requires Sound(c, w) && ValidJitter(jitter) && m in w.store.hashes && IsStageQueue(from) && from != RetryQ
    requires (from, m) in w.store.zsets && !context.skipRetry && w.store.hashes[m].retryCount < c.delivery.maxRetries
    ensures var after := Run(w, RetryOrFail(c, w, m, from, context, jitter).ops);
      var capped := DelayInTurn(w.store.hashes[m].retryCount, c.delivery);
      && (exists due :: WaitsIn(after, m, RetryQ, ToRetry, due) && w.clock + capped <= due <= w.clock + 1.5 * capped)
      && after.store.hashes[m].retryCount == w.store.hashes[m].retryCount + 1
      && after.store.hashes[m].history
         == [Failure(w.store.hashes[m].status, context.reason, false)] + w.store.hashes[m].history
      && after.store.hashes[m].externalId.None? && (forall key :: m !in Occupants(after.store, key))
      && (forall d :: d in after.store.ext ==> after.store.ext[d] != m)
  {
    assert SoundMessage(c, w, m) && PlacedMessage(c, w, m);
    var h := w.store.hashes[m];
    var history := [Failure(h.status, context.reason, false)] + h.history;
    var due := w.clock + BackoffDelay(h.retryCount, c.delivery, jitter);
    BackoffBounds(h.retryCount, c.delivery, jitter);
    BackoffGrowsInTurn(h.retryCount, c.delivery);
    RetriedWaits(c, w, m, from, history, due);
    RunOne(w, CommitRetry(m, from, h.retryCount, history, due));
  }

  lemma RetriedWaits(c: Config, w: World, m: MessageId, from: QueueKey, history: seq<Failure>, due: real)
    requires Sound(c, w) && m in w.store.hashes && (from, m) in w.store.zsets
    ensures var after := Do(w, CommitRetry(m, from, w.store.hashes[m].retryCount, history, due));
      && WaitsIn(after, m, RetryQ, ToRetry, due)
      && after.store.hashes[m].retryCount == w.store.hashes[m].retryCount + 1
        && after.store.hashes[m].history == history
      && after.store.hashes[m].externalId.None? && (forall key :: m !in Occupants(after.store, key))
      && (forall d :: d in after.store.ext ==> after.store.ext[d] != m)
  {
    assert SoundMessage(c, w, m) && PlacedMessage(c, w, m);
  }

  /** A retry that is due goes back to the ready queue at its original priority, and the queue is listed. */
  lemma DueRetryIsReadyAgain(c: Config, w: World, m: MessageId, now: real, reply: Reply, jitter: real)
    requires Sound(c, w) && m in w.store.hashes && (RetryQ, m) in w.store.zsets
    ensures m in w.minted && var b := w.minted[m];
      var after := Run(w, Visit(c, w, RetryQ, m, now, reply, jitter));
      && WaitsIn(after, m, ReadyQ(b.readyKey), Queued, -b.priority) && b.readyKey in after.store.ready
      && after.store.hashes[m].retryCount == w.store.hashes[m].retryCount
  {
    assert SoundMessage(c, w, m);
    var b := w.minted[m];
    var move := Move(m, RetryQ, ReadyQ(b.readyKey), -b.priority, Queued, None);
    MovedWaits(c, w, m, RetryQ, ReadyQ(b.readyKey), -b.priority, Queued, None);
    assert Visit(c, w, RetryQ, m, now, reply, jitter) == [move, MarkReady(b.readyKey)];
    RunTwo(w, move, MarkReady(b.readyKey));
  }

  lemma PostponedWaits(c: Config, w: World, m: MessageId, q: QueueKey, score: real)
    requires Sound(c, w) && m in w.store.hashes && (q, m) in w.store.zsets
    ensures WaitsIn(Do(w, Postpone(m, q, score)), m, q, w.store.hashes[m].status, score)
    ensures Do(w, Postpone(m, q, score)).store.hashes == w.store.hashes
  {
    assert PlacedMessage(c, w, m);
  }

  lemma OwedPostponement(c: Config, w: World, q: QueueKey, m: MessageId, now: real, result: Result, jitter: real)
    requires KnownMember(c, w, q, m) && (result.Throws? || result == Reports(Rescheduled))
    ensures var h := w.store.hashes[m];
      var p := c.registry[h.body.value.plugin];
      var wait := RescheduleWait(StageOf(q), p.tuning, c.delivery, h.retryCount, now - m.time, jitter);
      Obligation(c, w, q, m, now, result, jitter) == [Postpone(m, q, w.clock + wait)]
  {
  }

  lemma WaitingActionChangesNothing(c: Config, w: World, q: QueueKey, m: MessageId, now: real, reply: Reply,
                                    jitter: real)
    requires KnownMember(c, w, q, m) && OwnIndex(w.store, m) && ReplyIsOwn(w, m, reply)
    ensures var action := StageAction(c, w, q, m, now, reply, jitter);
      action.result.Throws? || action.result == Reports(Rescheduled) ==> Run(w, action.ops) == w
  {
    ActionVacates(c, w, q, m, now, reply, jitter);
    RunOne(w, NotifyUnsolicited);
  }

  /**
   * A member whose action leaves it waiting, because its send is still held, the vendor still queues it, its poll told
   * nothing new, or the vendor call threw, stays as it is for the stage's wait: the poll ladder or the entry timeout.
   */
  lemma StillWaiting(c: Config, w: World, q: QueueKey, m: MessageId, now: real, reply: Reply, jitter: real)
    requires Sound(c, w) && ValidJitter(jitter) && IsStageQueue(q) && m in w.store.hashes && (q, m) in w.store.zsets
    requires ReplyIsOwn(w, m, reply)
    ensures KnownMember(c, w, q, m)
    ensures var h := w.store.hashes[m];
      var p := c.registry[h.body.value.plugin];
      var result := StageAction(c, w, q, m, now, reply, jitter).result;
      var after := Run(w, Visit(c, w, q, m, now, reply, jitter));
      var wait := RescheduleWait(StageOf(q), p.tuning, c.delivery, h.retryCount, now - m.time, jitter);
      result.Throws? || result == Reports(Rescheduled) ==>
        WaitsIn(after, m, q, h.status, w.clock + wait) && after.store.hashes[m] == h
  {
    assert SoundMessage(c, w, m) && PlacedMessage(c, w, m);
    var action := StageAction(c, w, q, m, now, reply, jitter);
    if action.result.Throws? || action.result == Reports(Rescheduled) {
      var owed := Obligation(c, w, q, m, now, action.result, jitter);
      WaitingActionChangesNothing(c, w, q, m, now, reply, jitter);
      OwedPostponement(c, w, q, m, now, action.result, jitter);
      RunAppend(w, action.ops, owed);
      RunOne(w, owed[0]);
      PostponedWaits(c, w, m, q, owed[0].score);
    }
  }

  lemma ResolvedIsAnnounced(w: World, m: MessageId, h: Hash, note: Note)
    requires h.body.Some?
    ensures var after := Run(w, [Notify(m, note), Purge(m, h, Resolved)]);
      m !in after.store.hashes && m in after.purged && Log(after, m) == Log(w, m) + [note]
  {
    RunTwo(w, Notify(m, note), Purge(m, h, Resolved));
  }

  /**
   * A success ends the message and tells the adopter, with the execution failure it carries, if any, as the final
   * entry.
   */
  lemma SuccessResolves(c: Config, w: World, p: Plugin, d: ExternalId, failure: Option<FailureContext>, jitter: real)
    requires Sound(c, w) && d in w.store.ext && w.store.ext[d] in w.store.hashes
    ensures var m := w.store.ext[d];
      var h := w.store.hashes[m];
      var after := Run(w, ProcessEvent(c, w, p, IncomingEvent(Some(d), DeliverySuccessful, false, failure),
        jitter).ops);
      && m !in after.store.hashes && m in after.purged
      && exists history: seq<Failure> :: Log(after, m) == Log(w, m) + [SuccessNote(history)]
           && (if failure.None? then history == h.history
               else |history| == |h.history| + 1 && history[1..] == h.history
                    && history[0] == Failure(DeliverySuccessful, failure.value.reason, true))
  {
    var m := w.store.ext[d];
    assert SoundMessage(c, w, m);
    var h := w.store.hashes[m];
    var history := if failure.Some?
                   then [Failure(DeliverySuccessful, failure.value.reason, true)] + h.history
                   else h.history;
    ResolvedIsAnnounced(w, m, h, SuccessNote(history));
    if failure.Some? {
      assert history[1..] == h.history;
    }
  }

  /** A task still unfinished after 48 hours fails for good at its next visit, whatever the vendor would answer. */
  lemma OldTaskFails(c: Config, w: World, q: QueueKey, m: MessageId, now: real, reply: Reply, jitter: real)
    requires Sound(c, w) && q.TaskQ? && m in w.store.hashes && now - m.time >= 48.0 * 3600000.0
    ensures var h := w.store.hashes[m];
      var after := Run(w, Visit(c, w, q, m, now, reply, jitter));
      && m !in after.store.hashes && m in after.purged
      && exists history: seq<Failure> :: Log(after, m) == Log(w, m) + [FailedNote(history)]
           && |history| == |h.history| + 1 && history[1..] == h.history
           && history[0] == Failure(DeliveredToNs, "Timed out waiting for remote task completion", true)
  {
    assert SoundMessage(c, w, m);
    var h := w.store.hashes[m];
    var history := [Failure(DeliveredToNs, TASK_TIMEOUT, true)] + h.history;
    ResolvedIsAnnounced(w, m, h, FailedNote(history));
    assert history[1..] == h.history;
    assert Visit(c, w, q, m, now, reply, jitter) == [Notify(m, FailedNote(history)), Purge(m, h, Resolved)];
  }
}
