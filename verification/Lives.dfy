/** Whole lives: the events of a message one after the other, from its ready queue to its end. */
module Lives {
  import opened Domain
  import opened Stages
  import opened StoreSpec
  import opened World
  import opened Handlers
  import opened OnePlace
  import opened Soundness
  import opened Runs
  import opened Continuation
  import opened Starvation
  import opened Termination
  import opened History
  import opened StaleVisits
  import opened Journey
  import opened Outcomes
  import QueueKeys

  /** From `w` the events can happen in this order, and lead to `v`. */
  ghost predicate Leads(c: Config, w: World, events: seq<Event>, v: World) {
    AllEnabled(c, w, events) && AfterAll(c, w, events) == v
  }

  lemma LeadsOne(c: Config, w: World, e: Event)
    requires Enabled(c, w, e.handler)
    ensures Leads(c, w, [e], After(c, w, e))
  {
    assert [e][1..] == [];
  }

  lemma {:induction false} LeadsOn(c: Config, w: World, a: seq<Event>, v: World, b: seq<Event>, u: World)
    requires Leads(c, w, a, v) && Leads(c, v, b, u)
    ensures Leads(c, w, a + b, u)
    decreases |a|
  {
    if a == [] {
      assert a + b == b;
    } else {
      assert (a + b)[0] == a[0] && (a + b)[1..] == a[1..] + b;
      LeadsOn(c, After(c, w, a[0]), a[1..], v, b, u);
    }
  }

  /** What has happened so far was about `m` alone. */
  ghost predicate OnlyTouches(w: World, v: World, m: MessageId) {
    && (forall x :: x != m ==> SameMessage(w, v, x))
    && (m in w.minted ==> m in v.minted && v.minted[m] == w.minted[m])
  }

  lemma OnlyTouchesOn(w: World, v: World, u: World, m: MessageId)
    requires OnlyTouches(w, v, m) && OnlyTouches(v, u, m)
    ensures OnlyTouches(w, u, m)
  {
    forall x | x != m ensures SameMessage(w, u, x) {
      assert SameMessage(w, v, x) && SameMessage(v, u, x);
    }
  }

  /** An event that may happen, whose script concerns `m` alone. */
  lemma EventTouchesOnly(c: Config, w: World, h: Handler, m: MessageId)
    requires Sound(c, w) && Enabled(c, w, h) && forall x :: x != m ==> LeavesAlone(Script(c, w, h), x)
    ensures Leads(c, w, [Completes(h)], After(c, w, Completes(h)))
    ensures Sound(c, After(c, w, Completes(h))) && OnlyTouches(w, After(c, w, Completes(h)), m)
  {
    LeadsOne(c, w, Completes(h));
    EventKeepsSound(c, w, Completes(h));
    ScriptIsFresh(c, w, h);
    if m in w.minted {
      RunKeepsMinted(c, w, Script(c, w, h), m);
    }
    forall x | x != m ensures SameMessage(w, After(c, w, Completes(h)), x) {
      assert LeavesAlone(Script(c, w, h), x);
      RunLeavesOthers(w, Script(c, w, h), x);
    }
  }

  /** `m` waits alone in its ready queue, which a pass admits once its lock is open. */
  ghost predicate Alone(c: Config, w: World, m: MessageId) {
    && Sound(c, w) && m in w.store.hashes && m in w.minted && w.store.hashes[m].status == Queued
    && (ReadyQ(w.minted[m].readyKey), m) in w.store.zsets && Admits(c, w, w.minted[m].readyKey, true)
    && (forall x :: (ReadyQ(w.minted[m].readyKey), x) in w.store.zsets ==> x == m)
  }

  /** `m` is with the network server and its vendor call is awaited. */
  ghost predicate Sending(c: Config, w: World, m: MessageId) {
    && Sound(c, w) && m in w.store.hashes && m in w.minted && w.store.hashes[m].status == SentToNs
    && (NsQ, m) in w.store.zsets && m in w.outstanding
  }

  function Announced(log: seq<Note>, retries: nat): seq<Note> {
    if retries == 0 then log + [SentNote] else log
  }

  lemma SendBegins(c: Config, w: World, m: MessageId) returns (events: seq<Event>, v: World)
    requires Alone(c, w, m)
    ensures Leads(c, w, events, v) && OnlyTouches(w, v, m) && Sending(c, v, m)
    ensures v.store.hashes[m].retryCount == w.store.hashes[m].retryCount
    ensures Log(v, m) == Announced(Log(w, m), w.store.hashes[m].retryCount) && v.clock == w.clock
  {
    var h := DistributeQueue(w.minted[m].readyKey, Some(m), true);
    events, v := [Completes(h)], After(c, w, Completes(h));
    forall x | x != m ensures LeavesAlone(Script(c, w, h), x) {
      PassLeavesAlone(c, w, w.minted[m].readyKey, Some(m), true, x);
    }
    EventTouchesOnly(c, w, h, m);
    AdmittedHeadIsSent(c, w, w.minted[m].readyKey, m, true);
    PassTakesNoTime(c, w, w.minted[m].readyKey, Some(m), true);
    assert SoundMessage(c, w, m) && SoundMessage(c, v, m);
  }

  lemma PassTakesNoTime(c: Config, w: World, key: string, head: Option<MessageId>, unlocked: bool)
    ensures Run(w, Distribute(c, w, key, head, unlocked)).clock == w.clock
  {
    RunKeepsClock(w, Distribute(c, w, key, head, unlocked));
  }

  /** A vendor call that throws, with retries left, puts its message into retry. */
  lemma SendThrows(c: Config, w: World, m: MessageId, context: FailureContext, jitter: real)
    returns (events: seq<Event>, v: World)
    requires Sending(c, w, m) && ValidJitter(jitter) && !context.skipRetry
    requires w.store.hashes[m].retryCount < c.delivery.maxRetries
    ensures Leads(c, w, events, v) && OnlyTouches(w, v, m) && Sound(c, v)
    ensures m in v.store.hashes && (RetryQ, m) in v.store.zsets && Picks(v, m) >= 1
    ensures v.store.hashes[m].retryCount == w.store.hashes[m].retryCount + 1 && Log(v, m) == Log(w, m)
  {
    assert SoundMessage(c, w, m);
    var h := SendSettles(m, SendThrew(context), jitter);
    events, v := [Completes(h)], After(c, w, Completes(h));
    forall x | x != m ensures LeavesAlone(Script(c, w, h), x) {
      SettleLeavesAlone(c, w, m, SendThrew(context), jitter, x);
    }
    EventTouchesOnly(c, w, h, m);
    ThrownSendWaits(c, w, m, context, jitter);
    assert SoundMessage(c, v, m);
  }

  lemma ThrownSendWaits(c: Config, w: World, m: MessageId, context: FailureContext, jitter: real)
    requires Sending(c, w, m) && ValidJitter(jitter) && !context.skipRetry && w.minted[m].plugin in c.registry
    requires w.store.hashes[m].retryCount < c.delivery.maxRetries
    ensures var v := Run(w, Settle(c, w, m, c.registry[w.minted[m].plugin], SendThrew(context), jitter));
      && m in v.store.hashes && (RetryQ, m) in v.store.zsets && v.store.hashes[m].status == ToRetry
      && v.store.hashes[m].retryCount == w.store.hashes[m].retryCount + 1 && Log(v, m) == Log(w, m)
  {
    FailedAttemptWaits(c, w, m, NsQ, context, jitter);
    var ops := RetryOrFail(c, w, m, NsQ, context, jitter).ops;
    RunAppend(w, ops, [EndSend(m)]);
    RunOne(Run(w, ops), EndSend(m));
    RetryIsSilent(c, w, m, NsQ, context, jitter);
  }

  lemma RetryIsSilent(c: Config, w: World, m: MessageId, from: QueueKey, context: FailureContext, jitter: real)
    requires Sound(c, w) && m in w.store.hashes && (from, m) in w.store.zsets
    requires !context.skipRetry && w.store.hashes[m].retryCount < c.delivery.maxRetries
    ensures Log(Run(w, RetryOrFail(c, w, m, from, context, jitter).ops), m) == Log(w, m)
  {
    assert SoundMessage(c, w, m);
    RunOne(w, RetryOrFail(c, w, m, from, context, jitter).ops[0]);
  }

  /** Time passes until the backoff has elapsed. */
  lemma TimePasses(c: Config, w: World, m: MessageId, until: real) returns (events: seq<Event>, v: World)
    requires Sound(c, w) && until >= w.clock
    ensures Leads(c, w, events, v) && OnlyTouches(w, v, m) && Sound(c, v) && v == w.(clock := until)
  {
    var h := Environment(Elapse(until));
    events, v := [Completes(h)], After(c, w, Completes(h));
    EventTouchesOnly(c, w, h, m);
    RunOne(w, Elapse(until));
  }

  /** A retry that is visited when due waits in its ready queue again. */
  lemma RetryReturns(c: Config, w: World, m: MessageId) returns (events: seq<Event>, v: World)
    requires Sound(c, w) && m in w.store.hashes && (RetryQ, m) in w.store.zsets && w.store.zsets[(RetryQ, m)] <= w.clock
    requires Picks(w, m) >= 1
    ensures Leads(c, w, events, v) && OnlyTouches(w, v, m) && Sound(c, v) && m in v.minted && m in v.store.hashes
    ensures v.store.hashes[m].status == Queued && (ReadyQ(v.minted[m].readyKey), m) in v.store.zsets
    ensures v.store.hashes[m].retryCount == w.store.hashes[m].retryCount && Log(v, m) == Log(w, m)
  {
    assert SoundMessage(c, w, m) && PlacedMessage(c, w, m);
    var h := Attend(RetryQ, m, w.clock, NoReply, 0.0);
    events, v := [Completes(h)], After(c, w, Completes(h));
    forall x | x != m ensures LeavesAlone(Script(c, w, h), x) {
      OtherVisitLeavesAlone(c, w, RetryQ, m, w.clock, NoReply, 0.0, x);
    }
    EventTouchesOnly(c, w, h, m);
    DueRetryIsReadyAgain(c, w, m, w.clock, NoReply, 0.0);
    RetryVisitIsSilent(c, w, m);
  }

  lemma RetryVisitIsSilent(c: Config, w: World, m: MessageId)
    requires Sound(c, w) && m in w.store.hashes && (RetryQ, m) in w.store.zsets
    ensures Log(Run(w, Visit(c, w, RetryQ, m, w.clock, NoReply, 0.0)), m) == Log(w, m)
  {
    assert SoundMessage(c, w, m);
    var b := w.minted[m];
    var move := Move(m, RetryQ, ReadyQ(b.readyKey), -b.priority, Queued, None);
    assert Visit(c, w, RetryQ, m, w.clock, NoReply, 0.0) == [move, MarkReady(b.readyKey)];
    RunTwo(w, move, MarkReady(b.readyKey));
  }

  /** Back in its ready queue, `m` is alone again, and nothing has taken its room. */
  lemma AloneAgain(c: Config, w: World, v: World, m: MessageId)
    requires Alone(c, w, m) && OnlyTouches(w, v, m) && Sound(c, v) && m in v.store.hashes
    requires v.store.hashes[m].status == Queued && (ReadyQ(w.minted[m].readyKey), m) in v.store.zsets
    ensures Alone(c, v, m)
  {
    var key := w.minted[m].readyKey;
    forall x | (ReadyQ(key), x) in v.store.zsets ensures x == m {
      assert x != m ==> SameMessage(w, v, x);
    }
    if LimitFor(c, key).Some? {
      RoomStays(c, w, v, m, LimitFor(c, key).value.key);
    }
  }

  /** The live members of a set were live members of it before, except perhaps for a message that now has no slot. */
  lemma RoomStays(c: Config, w: World, v: World, m: MessageId, k: string)
    requires Sound(c, w) && Sound(c, v) && OnlyTouches(w, v, m) && m in v.store.hashes
      && v.store.hashes[m].status == Queued
    ensures |Occupants(v.store, k) - DeadOccupants(v.store, k)| <= |Occupants(w.store, k) - DeadOccupants(w.store, k)|
  {
    assert SoundMessage(c, v, m);
    forall x ensures x in Occupants(v.store, k) - DeadOccupants(v.store, k) ==>
        x in Occupants(w.store, k) - DeadOccupants(w.store, k)
    {
      assert SoundMessage(c, w, x);
      assert x != m ==> SameMessage(w, v, x);
    }
    Smaller(Occupants(v.store, k) - DeadOccupants(v.store, k), Occupants(w.store, k) - DeadOccupants(w.store, k));
  }

  /** One round of a life: picked, sent, thrown, backed off and ready again, one retry richer. */
  lemma FailedRound(c: Config, w: World, m: MessageId, context: FailureContext, jitter: real)
    returns (events: seq<Event>, v: World)
    requires Alone(c, w, m) && ValidJitter(jitter) && !context.skipRetry
    requires w.store.hashes[m].retryCount < c.delivery.maxRetries
    ensures Leads(c, w, events, v) && Alone(c, v, m)
    ensures v.store.hashes[m].retryCount == w.store.hashes[m].retryCount + 1
    ensures Log(v, m) == Announced(Log(w, m), w.store.hashes[m].retryCount)
  {
    var sent, w1 := SendBegins(c, w, m);
    var thrown, w2 := SendThrows(c, w1, m, context, jitter);
    var due := w2.store.zsets[(RetryQ, m)];
    var passed, w3 := TimePasses(c, w2, m, if due > w2.clock then due else w2.clock);
    var returned, w4 := RetryReturns(c, w3, m);
    LeadsOn(c, w, sent, w1, thrown, w2);
    LeadsOn(c, w, sent + thrown, w2, passed, w3);
    LeadsOn(c, w, sent + thrown + passed, w3, returned, w4);
    OnlyTouchesOn(w, w1, w2, m);
    OnlyTouchesOn(w, w2, w3, m);
    OnlyTouchesOn(w, w3, w4, m);
    AloneAgain(c, w, w4, m);
    events, v := sent + thrown + passed + returned, w4;
  }

  /** A vendor call that throws with no retry left ends its message, with one entry per attempt. */
  lemma LastSendThrows(c: Config, w: World, m: MessageId, context: FailureContext, jitter: real)
    returns (events: seq<Event>, v: World, history: seq<Failure>)
    requires Sending(c, w, m) && ValidJitter(jitter) && w.store.hashes[m].retryCount == c.delivery.maxRetries
    ensures Leads(c, w, events, v) && m !in v.store.hashes && m in v.purged
    ensures Log(v, m) == Log(w, m) + [FailedNote(history)]
    ensures |history| == c.delivery.maxRetries + 1 == Picks(v, m)
  {
    assert SoundMessage(c, w, m);
    var h := SendSettles(m, SendThrew(context), jitter);
    events, v := [Completes(h)], After(c, w, Completes(h));
    LeadsOne(c, w, Completes(h));
    var hash := w.store.hashes[m];
    history := [Failure(hash.status, context.reason, true)] + hash.history;
    assert Script(c, w, h) == [Notify(m, FailedNote(history)), Purge(m, hash, Resolved)] + [EndSend(m)];
    ResolvedAndReleased(w, m, hash, FailedNote(history));
  }

  lemma ResolvedAndReleased(w: World, m: MessageId, h: Hash, note: Note)
    requires h.body.Some?
    ensures var v := Run(w, [Notify(m, note), Purge(m, h, Resolved)] + [EndSend(m)]);
      m !in v.store.hashes && m in v.purged && Log(v, m) == Log(w, m) + [note] && Picks(v, m) == Picks(w, m)
  {
    var ops := [Notify(m, note), Purge(m, h, Resolved)];
    RunAppend(w, ops, [EndSend(m)]);
    RunOne(Run(w, ops), EndSend(m));
    RunTwo(w, ops[0], ops[1]);
  }

  /**
   * The life of a message whose every vendor call throws, alone in its ready queue: it is announced once, picked once
   * more than it may be retried, and failed once, with one entry per attempt.
   */
  lemma {:induction false} FailingLife(c: Config, w: World, m: MessageId, context: FailureContext, jitter: real)
    returns (events: seq<Event>, v: World, history: seq<Failure>)
    requires Alone(c, w, m) && ValidJitter(jitter) && !context.skipRetry
    requires w.store.hashes[m].retryCount <= c.delivery.maxRetries
    ensures Leads(c, w, events, v) && m !in v.store.hashes && m in v.purged
    ensures Log(v, m) == Announced(Log(w, m), w.store.hashes[m].retryCount) + [FailedNote(history)]
    ensures |history| == c.delivery.maxRetries + 1 == Picks(v, m)
    decreases c.delivery.maxRetries - w.store.hashes[m].retryCount
  {
    if w.store.hashes[m].retryCount == c.delivery.maxRetries {
      var sent, w1 := SendBegins(c, w, m);
      var thrown;
      thrown, v, history := LastSendThrows(c, w1, m, context, jitter);
      LeadsOn(c, w, sent, w1, thrown, v);
      events := sent + thrown;
    } else {
      var round, w1 := FailedRound(c, w, m, context, jitter);
      var rest;
      rest, v, history := FailingLife(c, w1, m, context, jitter);
      LeadsOn(c, w, round, w1, rest, v);
      events := round + rest;
    }
  }

  ghost predicate IsPush(c: Config, w: World, m: MessageId) {
    m in w.minted && w.minted[m].plugin in c.registry && c.registry[w.minted[m].plugin].pattern == Push
  }

  /** The vendor accepts: its message waits for its hand-over or its first poll, found under the id it was given. */
  lemma SendAccepted(c: Config, w: World, m: MessageId, d: ExternalId) returns (events: seq<Event>, v: World)
    requires Sending(c, w, m) && UnusedExternalId(w, m, d)
    ensures w.minted[m].plugin in c.registry
    ensures Leads(c, w, events, v) && Sound(c, v) && OnlyTouches(w, v, m) && m in v.store.hashes
    ensures v.store.hashes[m].retryCount == w.store.hashes[m].retryCount && v.clock == w.clock && Picks(v, m) >= 1
    ensures var p := c.registry[w.minted[m].plugin];
      if p.pattern == Push then (RelayQ, m) in v.store.zsets
      else WaitsIn(v, m, TaskQ(p.id), DeliveredToNs, w.clock + p.tuning.initialPollDelay)
    ensures v.store.hashes[m].externalId == Some(d) && d in v.store.ext && v.store.ext[d] == m && Log(v, m) == Log(w, m)
  {
    assert SoundMessage(c, w, m);
    var h := SendSettles(m, Accepted(d), 0.0);
    events, v := [Completes(h)], After(c, w, Completes(h));
    forall x | x != m ensures LeavesAlone(Script(c, w, h), x) {
      SettleLeavesAlone(c, w, m, Accepted(d), 0.0, x);
    }
    EventTouchesOnly(c, w, h, m);
    AcceptedSendWaits(c, w, m, d, 0.0);
    AcceptedIsSilent(c, w, m, c.registry[w.minted[m].plugin], d, 0.0);
    assert SoundMessage(c, v, m);
  }

  /** The vendor reports the hand-over to the radio. */
  lemma HandOver(c: Config, w: World, m: MessageId, d: ExternalId) returns (events: seq<Event>, v: World)
    requires Sound(c, w) && IsPush(c, w, m) && m in w.store.hashes
    requires (RelayQ, m) in w.store.zsets && d in w.store.ext && w.store.ext[d] == m
    ensures Leads(c, w, events, v) && Sound(c, v) && OnlyTouches(w, v, m) && m in v.store.hashes
    ensures (DeviceQ, m) in v.store.zsets && d in v.store.ext && v.store.ext[d] == m && Log(v, m) == Log(w, m)
    ensures v.store.hashes[m].retryCount == w.store.hashes[m].retryCount
  {
    var p := c.registry[w.minted[m].plugin];
    var h := Ingress(p.id, IncomingEvent(Some(d), SentToDevice, false, None), 0.0);
    events, v := [Completes(h)], After(c, w, Completes(h));
    ProcessEventConcerns(c, w, p, h.event, 0.0);
    EventTouchesOnly(c, w, h, m);
    HandedOverWaits(c, w, p, d, None, 0.0);
    RunOne(w, Advance(c, w, m, p, RelayNode, None)[0]);
  }

  lemma Completion(c: Config, w: World, m: MessageId, d: ExternalId)
    returns (events: seq<Event>, v: World, history: seq<Failure>)
    requires Sound(c, w) && IsPush(c, w, m) && m in w.store.hashes && d in w.store.ext && w.store.ext[d] == m
    ensures Leads(c, w, events, v) && m !in v.store.hashes && m in v.purged
    ensures Log(v, m) == Log(w, m) + [SuccessNote(history)] && |history| == w.store.hashes[m].retryCount
  {
    assert SoundMessage(c, w, m);
    var p := c.registry[w.minted[m].plugin];
    var h := Ingress(p.id, IncomingEvent(Some(d), DeliverySuccessful, false, None), 0.0);
    LeadsOne(c, w, Completes(h));
    SuccessResolves(c, w, p, d, None, 0.0);
    events, v, history := [Completes(h)], After(c, w, Completes(h)), w.store.hashes[m].history;
  }

  /**
   * The life of a PUSH message that is delivered: picked, accepted under a fresh external id, handed to the radio and
   * reported done, it is announced once, succeeds once with one failure per retry it took, and is gone.
   */
  lemma DeliveredLife(c: Config, w: World, m: MessageId, d: ExternalId)
    returns (events: seq<Event>, v: World, history: seq<Failure>)
    requires Alone(c, w, m) && UnusedExternalId(w, m, d) && IsPush(c, w, m)
    ensures Leads(c, w, events, v) && m !in v.store.hashes && m in v.purged
    ensures Log(v, m) == Announced(Log(w, m), w.store.hashes[m].retryCount) + [SuccessNote(history)]
    ensures |history| == w.store.hashes[m].retryCount
  {
    var sent, w1 := SendBegins(c, w, m);
    StaysUnused(w, w1, m, d);
    var accepted, w2 := SendAccepted(c, w1, m, d);
    var handed, w3 := HandOver(c, w2, m, d);
    var done;
    done, v, history := Completion(c, w3, m, d);
    LeadsOn(c, w, sent, w1, accepted, w2);
    LeadsOn(c, w, sent + accepted, w2, handed, w3);
    LeadsOn(c, w, sent + accepted + handed, w3, done, v);
    events := sent + accepted + handed + done;
  }

  /** A due task whose vendor reports it done is gone after the poll. */
  lemma PolledDone(c: Config, w: World, m: MessageId, d: ExternalId)
    returns (events: seq<Event>, v: World, history: seq<Failure>)
    requires Sound(c, w) && IsPull(c, w, m) && m in w.store.hashes && w.store.hashes[m].externalId == Some(d)
    requires (TaskQ(w.minted[m].plugin), m) in w.store.zsets && Picks(w, m) >= 1 && w.clock - m.time < 48.0 * 3600000.0
    ensures Leads(c, w, events, v) && m !in v.store.hashes && m in v.purged
    ensures Log(v, m) == Log(w, m) + [SuccessNote(history)] && |history| == w.store.hashes[m].retryCount
  {
    assert SoundMessage(c, w, m);
    var reply := Reported(IncomingEvent(Some(d), DeliverySuccessful, false, None));
    var h := Attend(TaskQ(w.minted[m].plugin), m, w.clock, reply, 0.0);
    LeadsOne(c, w, Completes(h));
    PollOutcome(c, w, h.q, m, w.clock, reply, 0.0);
    events, v, history := [Completes(h)], After(c, w, Completes(h)), w.store.hashes[m].history;
  }

  /** A task waits for its first poll, and the vendor then reports it done. */
  lemma FirstPollSucceeds(c: Config, w: World, m: MessageId, d: ExternalId, wait: real)
    returns (events: seq<Event>, v: World, history: seq<Failure>)
    requires Sound(c, w) && IsPull(c, w, m) && m in w.store.hashes && w.store.hashes[m].externalId == Some(d)
    requires (TaskQ(w.minted[m].plugin), m) in w.store.zsets && Picks(w, m) >= 1 && wait >= 0.0
    requires w.clock + wait - m.time < 48.0 * 3600000.0
    ensures Leads(c, w, events, v) && m !in v.store.hashes && m in v.purged
    ensures Log(v, m) == Log(w, m) + [SuccessNote(history)] && |history| == w.store.hashes[m].retryCount
  {
    var passed, due := TimePasses(c, w, m, w.clock + wait);
    var done;
    done, v, history := PolledDone(c, due, m, d);
    LeadsOn(c, w, passed, due, done, v);
    events := passed + done;
  }

  /**
   * The life of a PULL message that is delivered: picked, accepted under a fresh external id, and reported done at its
   * first poll, it is announced once, succeeds once with one failure per retry it took, and is gone.
   */
  lemma PolledLife(c: Config, w: World, m: MessageId, d: ExternalId)
    returns (events: seq<Event>, v: World, history: seq<Failure>)
    requires Alone(c, w, m) && UnusedExternalId(w, m, d) && IsPull(c, w, m)
    requires w.clock + c.registry[w.minted[m].plugin].tuning.initialPollDelay - m.time < 48.0 * 3600000.0
    ensures Leads(c, w, events, v) && m !in v.store.hashes && m in v.purged
    ensures Log(v, m) == Announced(Log(w, m), w.store.hashes[m].retryCount) + [SuccessNote(history)]
    ensures |history| == w.store.hashes[m].retryCount
  {
    var sent, w1 := SendBegins(c, w, m);
    StaysUnused(w, w1, m, d);
    var accepted, w2 := SendAccepted(c, w1, m, d);
    var done;
    done, v, history := FirstPollSucceeds(c, w2, m, d, c.registry[w.minted[m].plugin].tuning.initialPollDelay);
    LeadsOn(c, w, sent, w1, accepted, w2);
    LeadsOn(c, w, sent + accepted, w2, done, v);
    events := sent + accepted + done;
  }

  lemma StaysUnused(w: World, v: World, m: MessageId, d: ExternalId)
    requires OnlyTouches(w, v, m) && UnusedExternalId(w, m, d)
    ensures UnusedExternalId(v, m, d)
  {
    forall x | x in v.store.hashes && x != m ensures v.store.hashes[x].externalId != Some(d) {
      assert SameMessage(w, v, x);
    }
  }
}
