/** Event history: what the adopter is told about each message when no handler is cut off half way. */
module History {
  import opened Domain
  import opened Stages
  import opened StoreSpec
  import opened World
  import opened Handlers
  import opened OnePlace
  import opened Soundness
  import opened Runs
  import opened InFlightRuns
  import QueueKeys

  function Opening(picks: nat): seq<Note> {
    if picks == 0 then [] else [SentNote]
  }

  ghost predicate OnlyHeadFinal(history: seq<Failure>) {
    |history| > 0 && history[0].isFinal && NoneFinal(history[1..])
  }

  /** A terminal notification: a failure lists every attempt and only its head is final. */
  ghost predicate GoodTerminal(w: World, m: MessageId, n: Note) {
    match n
    case SentNote => false
    case FailedNote(history) => OnlyHeadFinal(history) && Picks(w, m) <= |history| <= Picks(w, m) + 1
    case SuccessNote(history) => NoneFinal(history) || OnlyHeadFinal(history)
  }

  /**
   * A live message is in its home queue and has been announced exactly when it was ever picked; a resolved one got
   * exactly one terminal notification after that; a cancelled or expired one got none.
   */
  ghost predicate CalmMessage(c: Config, w: World, m: MessageId) {
    && (m !in w.minted ==> Log(w, m) == [])
    && (m in w.cancelled ==> m in w.purged)
    && (m in w.store.hashes && m in w.minted && w.minted[m].plugin in c.registry ==>
          && Home(c, w.minted[m], w.store.hashes[m].status).Some?
          && (Home(c, w.minted[m], w.store.hashes[m].status).value, m) in w.store.zsets
          && Log(w, m) == Opening(Picks(w, m)))
    && (m in w.minted && m !in w.store.hashes ==>
          if m in w.purged && m !in w.cancelled
          then Picks(w, m) >= 1 && |Log(w, m)| == 2 && Log(w, m)[0] == SentNote && GoodTerminal(w, m, Log(w, m)[1])
          else Log(w, m) == Opening(Picks(w, m)))
  }

  ghost predicate Calm(c: Config, w: World) {
    forall m :: CalmMessage(c, w, m)
  }

  lemma SameMessageIsCalm(c: Config, a: World, b: World, x: MessageId)
    requires CalmMessage(c, a, x) && SameMessage(a, b, x)
    ensures CalmMessage(c, b, x)
  {
  }

  lemma StepKeepsOthersCalm(c: Config, w: World, op: Op, x: MessageId)
    requires CalmMessage(c, w, x) && !Concerns(op, x)
    ensures CalmMessage(c, Do(w, op), x)
  {
    OthersStayTheSame(w, op, x);
    SameMessageIsCalm(c, w, Do(w, op), x);
  }

  lemma {:induction false} RunKeepsOthersCalm(c: Config, w: World, ops: seq<Op>, x: MessageId)
    requires CalmMessage(c, w, x)
    requires forall i :: 0 <= i < |ops| ==> !Concerns(ops[i], x)
    ensures CalmMessage(c, Run(w, ops), x)
    decreases |ops|
  {
    if ops != [] {
      StepKeepsOthersCalm(c, w, ops[0], x);
      RunKeepsOthersCalm(c, Do(w, ops[0]), ops[1..], x);
    }
  }

  /** A step that by itself keeps the message it concerns calm. */
  predicate Gentle(w: World, op: Op, x: MessageId) {
    match op
    case FetchNext(m, _, _, _) => m != x
    case Notify(m, _) => m != x
    case Purge(m, _, _) => m != x
    case Unlist(m, q) => m == x ==> x !in w.store.hashes || (q, x) !in w.store.zsets
    case _ => true
  }

  /** A committed move puts its message in the home queue of its new status. */
  lemma MoveGoesHome(c: Config, w: World, op: Op)
    requires op.Move? && Allowed(c, w, op) && MoveCommits(w.store, op.m, op.from) && PlacedMessage(c, w, op.m)
    ensures var s := Do(w, op).store;
      op.m in s.hashes && (op.to, op.m) in s.zsets && Home(c, w.minted[op.m], s.hashes[op.m].status) == Some(op.to)
  {
    CommittedMoveEffect(w, op);
    EngineMoveGoesHome(c, w.minted[op.m], op.from, op.to, op.status, op.externalId);
  }

  lemma MoveKeepsRecord(w: World, op: Op, x: MessageId)
    requires op.Move?
    ensures SameRecord(w, Do(w, op), x)
    ensures x in Do(w, op).store.hashes <==> x in w.store.hashes
    ensures !MoveCommits(w.store, op.m, op.from) && x in w.store.hashes ==> SameEntries(w, Do(w, op), x)
  {
  }

  lemma MoveKeepsCalm(c: Config, w: World, op: Op, x: MessageId)
    requires Sound(c, w) && Fresh(c, w, op) && op.Move? && CalmMessage(c, w, x)
    ensures CalmMessage(c, Do(w, op), x)
  {
    if x != op.m {
      StepKeepsOthersCalm(c, w, op, x);
    } else {
      assert PlacedMessage(c, w, x);
      MoveKeepsRecord(w, op, x);
      if MoveCommits(w.store, op.m, op.from) {
        MoveGoesHome(c, w, op);
      }
    }
  }

  lemma InsertKeepsCalm(c: Config, w: World, op: Op, x: MessageId)
    requires Sound(c, w) && Fresh(c, w, op) && op.Insert? && CalmMessage(c, w, x)
    ensures CalmMessage(c, Do(w, op), x)
  {
    assert PlacedMessage(c, w, x) && SoundMessage(c, w, x);
  }

  lemma CommitRetryKeepsCalm(c: Config, w: World, op: Op, x: MessageId)
    requires Sound(c, w) && Fresh(c, w, op) && op.CommitRetry? && CalmMessage(c, w, x)
    ensures CalmMessage(c, Do(w, op), x)
  {
    assert PlacedMessage(c, w, x) && SoundMessage(c, w, x);
  }

  lemma GentleStepKeepsCalm(c: Config, w: World, op: Op, x: MessageId)
    requires Sound(c, w) && Fresh(c, w, op) && CalmMessage(c, w, x) && Gentle(w, op, x)
    ensures CalmMessage(c, Do(w, op), x)
  {
    if op.Insert? {
      InsertKeepsCalm(c, w, op, x);
    } else if op.Move? {
      MoveKeepsCalm(c, w, op, x);
    } else if op.CommitRetry? {
      CommitRetryKeepsCalm(c, w, op, x);
    } else if !Concerns(op, x) {
      StepKeepsOthersCalm(c, w, op, x);
    } else {
      assert PlacedMessage(c, w, x);
    }
  }

  ghost predicate AllGentle(w: World, ops: seq<Op>, x: MessageId)
    decreases |ops|
  {
    ops == [] || (Gentle(w, ops[0], x) && AllGentle(Do(w, ops[0]), ops[1..], x))
  }

  lemma {:induction false} GentleRunKeepsCalm(c: Config, w: World, ops: seq<Op>, x: MessageId)
    requires Sound(c, w) && AllFresh(c, w, ops) && CalmMessage(c, w, x) && AllGentle(w, ops, x)
    ensures CalmMessage(c, Run(w, ops), x)
    decreases |ops|
  {
    if ops != [] {
      GentleStepKeepsCalm(c, w, ops[0], x);
      StepKeepsSound(c, w, ops[0]);
      GentleRunKeepsCalm(c, Do(w, ops[0]), ops[1..], x);
    }
  }

  predicate AlwaysGentle(op: Op) {
    !op.FetchNext? && !op.Notify? && !op.Purge? && !op.Unlist?
  }

  lemma {:induction false} AlwaysGentleRun(w: World, ops: seq<Op>, x: MessageId)
    requires forall i :: 0 <= i < |ops| ==> AlwaysGentle(ops[i])
    ensures AllGentle(w, ops, x)
    decreases |ops|
  {
    if ops != [] {
      AlwaysGentleRun(Do(w, ops[0]), ops[1..], x);
    }
  }

  /** Resolving a live message that has been announced. */
  lemma ResolveKeepsCalm(c: Config, w: World, m: MessageId, note: Note)
    requires Sound(c, w) && CalmMessage(c, w, m) && m in w.store.hashes && Picks(w, m) >= 1
    requires GoodTerminal(w, m, note)
    ensures CalmMessage(c, Run(w, [Notify(m, note), Purge(m, w.store.hashes[m], Resolved)]), m)
  {
    assert PlacedMessage(c, w, m) && SoundMessage(c, w, m);
    RunTwo(w, Notify(m, note), Purge(m, w.store.hashes[m], Resolved));
  }

  lemma CancelKeepsCalm(c: Config, w: World, m: MessageId, q: QueueKey)
    requires Sound(c, w) && CalmMessage(c, w, m) && m in w.store.hashes
    ensures CalmMessage(c, Run(w, [Unlist(m, q), Purge(m, w.store.hashes[m], Cancelled)]), m)
  {
    assert PlacedMessage(c, w, m) && SoundMessage(c, w, m);
    RunTwo(w, Unlist(m, q), Purge(m, w.store.hashes[m], Cancelled));
  }

  /** A failure that ends a message is recorded on top of one entry per retry already made. */
  lemma RetryOrFailKeepsCalm(c: Config, w: World, m: MessageId, from: QueueKey, context: FailureContext, jitter: real)
    requires Sound(c, w) && CalmMessage(c, w, m) && ValidJitter(jitter) && IsStageQueue(from) && from != RetryQ
    requires Picks(w, m) >= 1
    ensures CalmMessage(c, Run(w, RetryOrFail(c, w, m, from, context, jitter).ops), m)
  {
    var ops := RetryOrFail(c, w, m, from, context, jitter).ops;
    assert SoundMessage(c, w, m);
    if |ops| == 2 {
      var h := w.store.hashes[m];
      var history := [Failure(h.status, context.reason, true)] + h.history;
      assert history[1..] == h.history;
      ResolveKeepsCalm(c, w, m, FailedNote(history));
    } else {
      RetryOrFailIsFresh(c, w, m, from, context, jitter);
      AlwaysGentleRun(w, ops, m);
      GentleRunKeepsCalm(c, w, ops, m);
    }
  }

  ghost predicate OnlyConcerns(ops: seq<Op>, m: MessageId) {
    forall i, x :: 0 <= i < |ops| && x != m ==> !Concerns(ops[i], x)
  }

  lemma ProcessEventConcerns(c: Config, w: World, p: Plugin, e: IncomingEvent, jitter: real)
    ensures var ops := ProcessEvent(c, w, p, e, jitter).ops;
      if e.externalId.Some? && e.externalId.value in w.store.ext
      then OnlyConcerns(ops, w.store.ext[e.externalId.value])
      else forall m :: OnlyConcerns(ops, m)
  {
  }

  lemma SuccessKeepsCalm(c: Config, w: World, m: MessageId, failure: Option<FailureContext>)
    requires Sound(c, w) && CalmMessage(c, w, m) && m in w.store.hashes && Picks(w, m) >= 1
    ensures var h := w.store.hashes[m];
      var history := if failure.Some? then [Failure(DeliverySuccessful, failure.value.reason, true)] + h.history
                     else h.history;
      CalmMessage(c, Run(w, [Notify(m, SuccessNote(history)), Purge(m, h, Resolved)]), m)
  {
    assert SoundMessage(c, w, m);
    var h := w.store.hashes[m];
    if failure.Some? {
      assert ([Failure(DeliverySuccessful, failure.value.reason, true)] + h.history)[1..] == h.history;
      ResolveKeepsCalm(c, w, m, SuccessNote([Failure(DeliverySuccessful, failure.value.reason, true)] + h.history));
    } else {
      ResolveKeepsCalm(c, w, m, SuccessNote(h.history));
    }
  }

  lemma EventKeepsSubjectCalm(c: Config, w: World, p: Plugin, e: IncomingEvent, jitter: real, m: MessageId)
    requires Sound(c, w) && CalmMessage(c, w, m) && ValidJitter(jitter) && p.id in c.registry && c.registry[p.id] == p
    requires e.externalId.Some? && e.externalId.value in w.store.ext && m == w.store.ext[e.externalId.value]
    ensures CalmMessage(c, Run(w, ProcessEvent(c, w, p, e, jitter).ops), m)
  {
    var ops := ProcessEvent(c, w, p, e, jitter).ops;
    assert SoundMessage(c, w, m) && PlacedMessage(c, w, m);
    ProcessEventIsFresh(c, w, p, e, jitter);
    if e.unsolicited || m !in w.store.hashes || (e.status == SentToDevice && p.pattern == Push)
       || (e.status != DeliveryFailed && e.status != DeliverySuccessful) {
      AlwaysGentleRun(w, ops, m);
      GentleRunKeepsCalm(c, w, ops, m);
    } else {
      EventReachesInFlight(c, w, e.externalId.value);
      var h := w.store.hashes[m];
      if e.status == DeliveryFailed {
        var stage := StageForStatus(h.status, p.pattern).value;
        var context := if e.failure.Some? then e.failure.value else FailureContext(NEGATIVE_RESPONSE, false);
        RetryOrFailKeepsCalm(c, w, m, StageKeyFor(stage, p.id), context, jitter);
      } else {
        SuccessKeepsCalm(c, w, m, e.failure);
      }
    }
  }

  lemma ProcessEventKeepsCalm(c: Config, w: World, p: Plugin, e: IncomingEvent, jitter: real, x: MessageId)
    requires Sound(c, w) && CalmMessage(c, w, x) && ValidJitter(jitter) && p.id in c.registry && c.registry[p.id] == p
    ensures CalmMessage(c, Run(w, ProcessEvent(c, w, p, e, jitter).ops), x)
  {
    ProcessEventConcerns(c, w, p, e, jitter);
    if e.externalId.Some? && e.externalId.value in w.store.ext && x == w.store.ext[e.externalId.value] {
      EventKeepsSubjectCalm(c, w, p, e, jitter, x);
    } else {
      if !(e.externalId.Some? && e.externalId.value in w.store.ext) {
        var y := MessageId(x.time, x.entropy + 1);
        assert OnlyConcerns(ProcessEvent(c, w, p, e, jitter).ops, y);
      }
      RunKeepsOthersCalm(c, w, ProcessEvent(c, w, p, e, jitter).ops, x);
    }
  }

  lemma StageActionConcerns(c: Config, w: World, q: QueueKey, m: MessageId, now: real, reply: Reply, jitter: real)
    requires Sound(c, w) && IsStageQueue(q) && m in w.store.hashes && ReplyIsOwn(w, m, reply)
    requires w.store.hashes[m].body.Some? && w.store.hashes[m].body.value.plugin in c.registry
    ensures OnlyConcerns(StageAction(c, w, q, m, now, reply, jitter).ops, m)
  {
    assert SoundMessage(c, w, m);
    if q.TaskQ? && reply.Reported? {
      ProcessEventConcerns(c, w, c.registry[w.store.hashes[m].body.value.plugin], reply.event, jitter);
    }
  }

  lemma VisitConcerns(c: Config, w: World, p: QueueKey, x: MessageId, now: real, reply: Reply, jitter: real)
    requires IsStageQueue(p) && x in w.store.hashes && w.store.hashes[x].body.Some?
    requires w.store.hashes[x].body.value.plugin in c.registry
    requires OnlyConcerns(StageAction(c, w, p, x, now, reply, jitter).ops, x)
    ensures OnlyConcerns(Visit(c, w, p, x, now, reply, jitter), x)
  {
  }

  lemma StageActionKeepsCalm(c: Config, w: World, q: QueueKey, m: MessageId, now: real, reply: Reply, jitter: real)
    requires Sound(c, w) && CalmMessage(c, w, m) && ValidJitter(jitter) && IsStageQueue(q) && m in w.store.hashes
    requires w.store.hashes[m].body.Some? && w.store.hashes[m].body.value.plugin in c.registry
    requires Picks(w, m) >= 1 && ReplyIsOwn(w, m, reply)
    ensures CalmMessage(c, Run(w, StageAction(c, w, q, m, now, reply, jitter).ops), m)
  {
    var action := StageAction(c, w, q, m, now, reply, jitter);
    var h := w.store.hashes[m];
    assert SoundMessage(c, w, m);
    if action.ops == [] {
      assert Run(w, action.ops) == w;
    } else {
      match StageOf(q)
      case Ns => RetryOrFailKeepsCalm(c, w, m, NsQ, FailureContext(NS_TIMEOUT, false), jitter);
      case RelayNode => RetryOrFailKeepsCalm(c, w, m, q, FailureContext(RELAY_TIMEOUT, false), jitter);
      case Device => RetryOrFailKeepsCalm(c, w, m, q, FailureContext(DEVICE_TIMEOUT, false), jitter);
      case AwaitingTask =>
        if now - m.time >= PULL_MAX_MESSAGE_AGE {
          var history := [Failure(DeliveredToNs, TASK_TIMEOUT, true)] + h.history;
          assert history[1..] == h.history;
          ResolveKeepsCalm(c, w, m, FailedNote(history));
        } else {
          ProcessEventKeepsCalm(c, w, c.registry[h.body.value.plugin], reply.event, jitter, m);
        }
      case Retry =>
        StageActionIsFresh(c, w, q, m, now, reply, jitter);
        AlwaysGentleRun(w, action.ops, m);
        GentleRunKeepsCalm(c, w, action.ops, m);
    }
  }

  /** An action calls a loaded member orphaned only when the member is not in the queue any more. */
  lemma OrphanedMeansGone(c: Config, w: World, q: QueueKey, m: MessageId, now: real, reply: Reply, jitter: real)
    requires Sound(c, w) && IsStageQueue(q) && m in w.store.hashes && ReplyIsOwn(w, m, reply)
    requires w.store.hashes[m].body.Some? && w.store.hashes[m].body.value.plugin in c.registry
    requires StageAction(c, w, q, m, now, reply, jitter).result == Reports(Orphaned)
    ensures (q, m) !in Run(w, StageAction(c, w, q, m, now, reply, jitter).ops).store.zsets
  {
    assert SoundMessage(c, w, m) && PlacedMessage(c, w, m);
    var action := StageAction(c, w, q, m, now, reply, jitter);
    if q.RetryQ? {
      RunOne(w, action.ops[0]);
    } else {
      assert action.ops == [];
    }
  }

  lemma VisitKeepsSubjectCalm(c: Config, w: World, q: QueueKey, m: MessageId, now: real, reply: Reply, jitter: real)
    requires Sound(c, w) && CalmMessage(c, w, m) && ValidJitter(jitter) && IsStageQueue(q)
    requires Picks(w, m) >= 1 && ReplyIsOwn(w, m, reply) && now <= w.clock
    ensures CalmMessage(c, Run(w, Visit(c, w, q, m, now, reply, jitter)), m)
  {
    assert SoundMessage(c, w, m);
    if m !in w.store.hashes {
      GentleStepKeepsCalm(c, w, Unlist(m, q), m);
      RunOne(w, Unlist(m, q));
    } else {
      var action := StageAction(c, w, q, m, now, reply, jitter);
      var owed := Obligation(c, w, q, m, now, action.result, jitter);
      RunAppend(w, action.ops, owed);
      OwedIsGentle(c, w, q, m, now, reply, jitter);
      if owed != [] {
        GentleStepKeepsCalm(c, Run(w, action.ops), owed[0], m);
        RunOne(Run(w, action.ops), owed[0]);
      }
    }
  }

  /** After the action of a stage, what the runner owes the member keeps it calm. */
  lemma OwedIsGentle(c: Config, w: World, q: QueueKey, m: MessageId, now: real, reply: Reply, jitter: real)
    requires Sound(c, w) && CalmMessage(c, w, m) && ValidJitter(jitter) && IsStageQueue(q) && m in w.store.hashes
    requires w.store.hashes[m].body.Some? && w.store.hashes[m].body.value.plugin in c.registry
    requires Picks(w, m) >= 1 && ReplyIsOwn(w, m, reply) && now <= w.clock
    ensures var action := StageAction(c, w, q, m, now, reply, jitter);
      var owed := Obligation(c, w, q, m, now, action.result, jitter);
      var mid := Run(w, action.ops);
      && Sound(c, mid) && CalmMessage(c, mid, m) && |owed| <= 1
      && (owed != [] ==> Fresh(c, mid, owed[0]) && Gentle(mid, owed[0], m))
  {
    var action := StageAction(c, w, q, m, now, reply, jitter);
    StageActionIsFresh(c, w, q, m, now, reply, jitter);
    FreshRunKeepsSound(c, w, action.ops);
    StageActionKeepsCalm(c, w, q, m, now, reply, jitter);
    ActionKeepsClock(c, w, q, m, now, reply, jitter);
    ObligationIsFresh(c, w, Run(w, action.ops), q, m, now, action.result, jitter);
    if action.result == Reports(Orphaned) {
      OrphanedMeansGone(c, w, q, m, now, reply, jitter);
    }
  }

  lemma VisitKeepsCalm(c: Config, w: World, q: QueueKey, m: MessageId, now: real, reply: Reply, jitter: real,
                       x: MessageId)
    requires Sound(c, w) && CalmMessage(c, w, x) && ValidJitter(jitter) && IsStageQueue(q)
    requires Picks(w, m) >= 1 && ReplyIsOwn(w, m, reply) && now <= w.clock
    ensures CalmMessage(c, Run(w, Visit(c, w, q, m, now, reply, jitter)), x)
  {
    if x == m {
      VisitKeepsSubjectCalm(c, w, q, m, now, reply, jitter);
    } else {
      assert SoundMessage(c, w, m);
      if m in w.store.hashes {
        StageActionConcerns(c, w, q, m, now, reply, jitter);
      }
      RunKeepsOthersCalm(c, w, Visit(c, w, q, m, now, reply, jitter), x);
    }
  }

  lemma ClaimKeepsCalm(c: Config, w: World, key: string, p: Plugin, x: MessageId)
    requires Sound(c, w) && CalmMessage(c, w, x) && IsHead(w.store, ReadyQ(key), x) && x in w.store.hashes
    ensures var after := Do(w, FetchOf(c, w, key, p, x));
      && (w.store.hashes[x].retryCount == 0 ==> Log(after, x) == [])
      && (w.store.hashes[x].retryCount != 0 ==> Log(after, x) == [SentNote])
      && x in after.minted && x !in after.purged && x !in after.cancelled && after.minted[x].plugin in c.registry
      && x in after.store.hashes && after.store.hashes[x].status == SentToNs && (NsQ, x) in after.store.zsets
      && Picks(after, x) >= 1
  {
    assert PlacedMessage(c, w, x) && SoundMessage(c, w, x);
  }

  lemma AnnouncedIsCalm(c: Config, w: World, x: MessageId, first: bool)
    requires Log(w, x) == if first then [] else [SentNote]
    requires x in w.minted && x !in w.purged && x !in w.cancelled && w.minted[x].plugin in c.registry
    requires x in w.store.hashes && w.store.hashes[x].status == SentToNs && (NsQ, x) in w.store.zsets
      && Picks(w, x) >= 1
    ensures CalmMessage(c, Run(w, if first then [Notify(x, SentNote), BeginSend(x)] else [BeginSend(x)]), x)
  {
    if first {
      RunTwo(w, Notify(x, SentNote), BeginSend(x));
    } else {
      RunOne(w, BeginSend(x));
    }
  }

  lemma OrphanPopKeepsCalm(c: Config, w: World, key: string, p: Plugin, x: MessageId)
    requires CalmMessage(c, w, x) && x !in w.store.hashes
    ensures CalmMessage(c, Do(w, FetchOf(c, w, key, p, x)), x)
  {
  }

  lemma PickKeepsCalm(c: Config, w: World, key: string, p: Plugin, head: Option<MessageId>, x: MessageId)
    requires Sound(c, w) && CalmMessage(c, w, x)
    requires head.Some? ==> IsHead(w.store, ReadyQ(key), head.value)
    ensures CalmMessage(c, Run(w, Pick(c, w, key, p, head)), x)
  {
    var ops := Pick(c, w, key, p, head);
    assert SoundMessage(c, w, x);
    if head != Some(x) {
      RunKeepsOthersCalm(c, w, ops, x);
    } else if x !in w.store.hashes {
      OrphanPopKeepsCalm(c, w, key, p, x);
      RunOne(w, FetchOf(c, w, key, p, x));
    } else {
      var fetch := FetchOf(c, w, key, p, x);
      var first := w.store.hashes[x].retryCount == 0;
      var rest := if first then [Notify(x, SentNote), BeginSend(x)] else [BeginSend(x)];
      assert ops == [fetch] + rest;
      RunAppend(w, [fetch], rest);
      RunOne(w, fetch);
      ClaimKeepsCalm(c, w, key, p, x);
      AnnouncedIsCalm(c, Do(w, fetch), x, first);
    }
  }

  lemma DistributeKeepsCalm(c: Config, w: World, key: string, head: Option<MessageId>, unlocked: bool, x: MessageId)
    requires Sound(c, w) && CalmMessage(c, w, x) && RightHead(w, key, head)
    ensures CalmMessage(c, Run(w, Distribute(c, w, key, head, unlocked)), x)
  {
    var sweep := AdmissionSweep(w.store, LimitFor(c, key));
    DistributeShape(c, w, key, head, unlocked);
    RunKeepsOthersCalm(c, w, sweep, x);
    if Admits(c, w, key, unlocked) {
      PickKeepsCalm(c, Run(w, sweep), key, c.registry[QueueKeys.PluginIdOf(key).value], head, x);
    } else {
      assert Run(w, []) == w;
    }
  }

  lemma SettleKeepsCalm(c: Config, w: World, m: MessageId, sent: SendResult, jitter: real, x: MessageId)
    requires Sound(c, w) && CalmMessage(c, w, x) && ValidJitter(jitter) && m in w.minted
      && w.minted[m].plugin in c.registry
    requires sent.Accepted? ==> UnusedExternalId(w, m, sent.externalId)
    requires Picks(w, m) >= 1
    ensures CalmMessage(c, Run(w, Settle(c, w, m, c.registry[w.minted[m].plugin], sent, jitter)), x)
  {
    var p := c.registry[w.minted[m].plugin];
    var effect := SettleEffect(c, w, m, p, sent, jitter);
    RunAppend(w, effect, [EndSend(m)]);
    RunOne(Run(w, effect), EndSend(m));
    if x != m {
      RunKeepsOthersCalm(c, w, effect, x);
    } else {
      match sent
      case Accepted(d) =>
        AdvanceIsFresh(c, w, m, p, Ns, Some(d));
        AlwaysGentleRun(w, effect, m);
        GentleRunKeepsCalm(c, w, effect, m);
      case NoExternalId => RetryOrFailKeepsCalm(c, w, m, NsQ, FailureContext(EMPTY_EXTERNAL_ID, true), jitter);
      case SendThrew(context) => RetryOrFailKeepsCalm(c, w, m, NsQ, context, jitter);
    }
    EndSendKeepsCalm(c, Run(w, effect), m, x);
  }

  lemma EndSendKeepsCalm(c: Config, w: World, m: MessageId, x: MessageId)
    requires CalmMessage(c, w, x)
    ensures CalmMessage(c, Do(w, EndSend(m)), x)
  {
  }

  lemma CancelHandlerKeepsCalm(c: Config, w: World, m: MessageId, x: MessageId)
    requires Sound(c, w) && CalmMessage(c, w, x)
    ensures CalmMessage(c, Run(w, Cancel(c, w, m)), x)
  {
    var ops := Cancel(c, w, m);
    if x != m {
      RunKeepsOthersCalm(c, w, ops, x);
    } else if |ops| == 2 {
      CancelKeepsCalm(c, w, m, ops[0].q);
    } else if |ops| == 1 {
      RunOne(w, ops[0]);
      GentleStepKeepsCalm(c, w, ops[0], m);
    } else {
      assert Run(w, ops) == w;
    }
  }

  lemma HandlerKeepsCalm(c: Config, w: World, h: Handler, x: MessageId)
    requires Sound(c, w) && Held(w) && CalmMessage(c, w, x) && Enabled(c, w, h)
    ensures CalmMessage(c, Run(w, Script(c, w, h)), x)
  {
    match h
    case EnqueueOne(m, b) =>
      RunOne(w, Insert(m, b));
      InsertKeepsCalm(c, w, Insert(m, b), x);
    case DistributeQueue(key, head, unlocked) => DistributeKeepsCalm(c, w, key, head, unlocked, x);
    case SendSettles(m, sent, jitter) =>
      assert HeldMessage(w, m);
      if m in w.minted && w.minted[m].plugin in c.registry {
        SettleKeepsCalm(c, w, m, sent, jitter, x);
      }
    case Attend(q, m, now, reply, jitter) => VisitKeepsCalm(c, w, q, m, now, reply, jitter, x);
    case Ingress(p, e, jitter) => ProcessEventKeepsCalm(c, w, c.registry[p], e, jitter, x);
    case CancelOne(m) => CancelHandlerKeepsCalm(c, w, m, x);
    case Environment(op) =>
      RunOne(w, op);
      GentleStepKeepsCalm(c, w, op, x);
  }

  ghost predicate CrashFree(events: seq<Event>) {
    forall i :: 0 <= i < |events| ==> events[i].Completes?
  }

  lemma {:induction false} CrashFreeRunsAreCalm(c: Config, w: World, events: seq<Event>)
    requires Sound(c, w) && Held(w) && Calm(c, w) && AllEnabled(c, w, events) && CrashFree(events)
    ensures Calm(c, AfterAll(c, w, events)) && Sound(c, AfterAll(c, w, events))
    decreases |events|
  {
    if events != [] {
      EventKeepsSound(c, w, events[0]);
      forall x ensures HeldMessage(After(c, w, events[0]), x) && CalmMessage(c, After(c, w, events[0]), x) {
        HandlerKeepsHeld(c, w, events[0].handler, x);
        HandlerKeepsCalm(c, w, events[0].handler, x);
      }
      CrashFreeRunsAreCalm(c, After(c, w, events[0]), events[1..]);
    }
  }

  ghost predicate CalmlyReaches(c: Config, w: World) {
    exists events :: AllEnabled(c, INITIAL_WORLD, events) && CrashFree(events)
      && AfterAll(c, INITIAL_WORLD, events) == w
  }

  /**
   * Event history: in crash-free runs a message's notifications are a prefix of "sent" followed by exactly one
   * terminal event; it is resolved exactly when that event was issued and it was not cancelled; and a failure event
   * lists every attempt with only its head final.
   */
  lemma NotificationsAreInOrder(c: Config, w: World, m: MessageId)
    requires CalmlyReaches(c, w) && m in w.minted
    ensures Log(w, m) <= [SentNote] ||
      (|Log(w, m)| == 2 && Log(w, m)[0] == SentNote && IsTerminal(Log(w, m)[1]) && GoodTerminal(w, m, Log(w, m)[1]))
    ensures |Log(w, m)| == 2 <==> m in w.purged && m !in w.cancelled
    ensures |Log(w, m)| == 0 <==> Picks(w, m) == 0
  {
    var events :| AllEnabled(c, INITIAL_WORLD, events) && CrashFree(events) && AfterAll(c, INITIAL_WORLD, events) == w;
    InitiallySound(c);
    CrashFreeRunsAreCalm(c, INITIAL_WORLD, events);
    assert CalmMessage(c, w, m) && SoundMessage(c, w, m) && PlacedMessage(c, w, m);
  }

  /** A failure event carries one entry per retry made before it, plus its own. */
  lemma FailureListsEveryAttempt(c: Config, w: World, m: MessageId, from: QueueKey, context: FailureContext,
                                 jitter: real)
    requires Sound(c, w) && m in w.store.hashes
    ensures var ops := RetryOrFail(c, w, m, from, context, jitter).ops;
      (exists i :: 0 <= i < |ops| && ops[i].Notify?) <==>
        context.skipRetry || w.store.hashes[m].retryCount == c.delivery.maxRetries
    ensures var ops := RetryOrFail(c, w, m, from, context, jitter).ops;
      forall i :: 0 <= i < |ops| && ops[i].Notify? ==>
        ops[i].note.FailedNote? && |ops[i].note.history| == w.store.hashes[m].retryCount + 1
        && OnlyHeadFinal(ops[i].note.history)
  {
    assert SoundMessage(c, w, m);
    var h := w.store.hashes[m];
    var ops := RetryOrFail(c, w, m, from, context, jitter).ops;
    assert ([Failure(h.status, context.reason, true)] + h.history)[1..] == h.history;
    if context.skipRetry || h.retryCount == c.delivery.maxRetries {
      assert ops[0].Notify?;
    }
  }

  /**
   * What a failure recorded in `w` lists: one entry per retry made and its own, which is one entry per pick, and one
   * more exactly when the message was not in flight, that is, failed before its next pick.
   */
  ghost predicate FailsAsRecorded(w: World, m: MessageId, history: seq<Failure>) {
    && m in w.store.hashes && |history| == w.store.hashes[m].retryCount + 1
    && |history| == Picks(w, m) + (if InFlight(w.store.hashes[m].status) then 0 else 1)
  }

  ghost predicate RecordsFailures(w: World, ops: seq<Op>) {
    forall i :: 0 <= i < |ops| && ops[i].Notify? && ops[i].note.FailedNote? ==>
      FailsAsRecorded(w, ops[i].m, ops[i].note.history)
  }

  lemma RetryOrFailRecords(c: Config, w: World, m: MessageId, from: QueueKey, context: FailureContext, jitter: real)
    requires Sound(c, w)
    ensures RecordsFailures(w, RetryOrFail(c, w, m, from, context, jitter).ops)
  {
    assert SoundMessage(c, w, m);
  }

  lemma ProcessEventRecords(c: Config, w: World, p: Plugin, e: IncomingEvent, jitter: real)
    requires Sound(c, w)
    ensures RecordsFailures(w, ProcessEvent(c, w, p, e, jitter).ops)
  {
    if e.externalId.Some? && e.externalId.value in w.store.ext && w.store.ext[e.externalId.value] in w.store.hashes {
      var m := w.store.ext[e.externalId.value];
      assert SoundMessage(c, w, m);
      var stage := StageForStatus(w.store.hashes[m].status, p.pattern);
      if stage.Some? {
        var context := if e.failure.Some? then e.failure.value else FailureContext(NEGATIVE_RESPONSE, false);
        RetryOrFailRecords(c, w, m, StageKeyFor(stage.value, p.id), context, jitter);
      }
    }
  }

  lemma SettleRecords(c: Config, w: World, m: MessageId, p: Plugin, sent: SendResult, jitter: real)
    requires Sound(c, w)
    ensures RecordsFailures(w, Settle(c, w, m, p, sent, jitter))
  {
    match sent
    case Accepted(_) =>
    case NoExternalId => RetryOrFailRecords(c, w, m, NsQ, FailureContext(EMPTY_EXTERNAL_ID, true), jitter);
    case SendThrew(context) => RetryOrFailRecords(c, w, m, NsQ, context, jitter);
  }

  lemma StageActionRecords(c: Config, w: World, q: QueueKey, m: MessageId, now: real, reply: Reply, jitter: real)
    requires Sound(c, w) && IsStageQueue(q) && m in w.store.hashes && w.store.hashes[m].body.Some?
    requires w.store.hashes[m].body.value.plugin in c.registry
    ensures RecordsFailures(w, StageAction(c, w, q, m, now, reply, jitter).ops)
  {
    assert SoundMessage(c, w, m);
    match q
    case NsQ => RetryOrFailRecords(c, w, m, NsQ, FailureContext(NS_TIMEOUT, false), jitter);
    case RelayQ => RetryOrFailRecords(c, w, m, q, FailureContext(RELAY_TIMEOUT, false), jitter);
    case DeviceQ => RetryOrFailRecords(c, w, m, q, FailureContext(DEVICE_TIMEOUT, false), jitter);
    case TaskQ(_) =>
      if reply.Reported? {
        ProcessEventRecords(c, w, c.registry[w.store.hashes[m].body.value.plugin], reply.event, jitter);
      }
    case RetryQ =>
  }

  lemma VisitRecords(c: Config, w: World, q: QueueKey, m: MessageId, now: real, reply: Reply, jitter: real)
    requires Sound(c, w) && IsStageQueue(q)
    ensures RecordsFailures(w, Visit(c, w, q, m, now, reply, jitter))
  {
    assert SoundMessage(c, w, m);
    if m in w.store.hashes {
      StageActionRecords(c, w, q, m, now, reply, jitter);
    }
  }

  lemma HandlerRecordsFailures(c: Config, w: World, h: Handler)
    requires Sound(c, w) && Enabled(c, w, h)
    ensures RecordsFailures(w, Script(c, w, h))
  {
    match h
    case SendSettles(m, sent, jitter) =>
      if m in w.minted && w.minted[m].plugin in c.registry {
        SettleRecords(c, w, m, c.registry[w.minted[m].plugin], sent, jitter);
      }
    case Attend(q, m, now, reply, jitter) => VisitRecords(c, w, q, m, now, reply, jitter);
    case Ingress(p, e, jitter) => ProcessEventRecords(c, w, c.registry[p], e, jitter);
    case _ =>
  }

  /** Every note of a run was in the log before it or was written by one of its steps. */
  lemma {:induction false} RunLogs(w: World, ops: seq<Op>, m: MessageId, n: Note)
    requires n in Log(Run(w, ops), m)
    ensures n in Log(w, m) || Notify(m, n) in ops
    decreases |ops|
  {
    if ops != [] {
      RunLogs(Do(w, ops[0]), ops[1..], m, n);
      if n in Log(Do(w, ops[0]), m) {
        StepLogs(w, ops[0], m, n);
      }
    }
  }

  lemma StepLogs(w: World, op: Op, m: MessageId, n: Note)
    requires n in Log(Do(w, op), m)
    ensures n in Log(w, m) || op == Notify(m, n)
  {
  }

  /** One of the events records the failure `history` of `m`, and lists in it what `FailsAsRecorded` says. */
  ghost predicate FailedOnTheWay(c: Config, w: World, events: seq<Event>, m: MessageId, history: seq<Failure>)
    decreases |events|
  {
    events != [] &&
    (|| (Notify(m, FailedNote(history)) in Script(c, w, events[0].handler) && FailsAsRecorded(w, m, history))
     || FailedOnTheWay(c, After(c, w, events[0]), events[1..], m, history))
  }

  lemma EventRecordsFailure(c: Config, w: World, e: Event, m: MessageId, history: seq<Failure>)
    requires Sound(c, w) && Enabled(c, w, e.handler)
    requires FailedNote(history) in Log(After(c, w, e), m) && FailedNote(history) !in Log(w, m)
    ensures Notify(m, FailedNote(history)) in Script(c, w, e.handler) && FailsAsRecorded(w, m, history)
  {
    var script := Script(c, w, e.handler);
    HandlerRecordsFailures(c, w, e.handler);
    match e
    case Completes(_) => RunLogs(w, script, m, FailedNote(history));
    case Crashes(_, done) =>
      var begun := if done <= |script| then script[..done] else script;
      StepLogs(Run(w, begun), Restart, m, FailedNote(history));
      RunLogs(w, begun, m, FailedNote(history));
  }

  lemma {:induction false} FailuresAreRecorded(c: Config, w: World, events: seq<Event>, m: MessageId,
                                               history: seq<Failure>)
    requires Sound(c, w) && AllEnabled(c, w, events)
    requires FailedNote(history) in Log(AfterAll(c, w, events), m) && FailedNote(history) !in Log(w, m)
    ensures FailedOnTheWay(c, w, events, m, history)
    decreases |events|
  {
    if events != [] {
      if FailedNote(history) in Log(After(c, w, events[0]), m) {
        EventRecordsFailure(c, w, events[0], m, history);
      } else {
        EventKeepsSound(c, w, events[0]);
        FailuresAreRecorded(c, After(c, w, events[0]), events[1..], m, history);
      }
    }
  }

  /**
   * The length of every failure history, in every run, crashes included: one entry per pick of its message, and one
   * more exactly when the message was not in flight when it was failed.
   */
  lemma FailureLengthIsExact(c: Config, events: seq<Event>, m: MessageId, history: seq<Failure>)
    requires AllEnabled(c, INITIAL_WORLD, events) && FailedNote(history) in Log(AfterAll(c, INITIAL_WORLD, events), m)
    ensures FailedOnTheWay(c, INITIAL_WORLD, events, m, history)
  {
    InitiallySound(c);
    FailuresAreRecorded(c, INITIAL_WORLD, events, m, history);
  }

  /** Only a visit of a queue its message has left fails a message that is not in flight. */
  lemma OnlyLateVisitsFailEarly(c: Config, w: World, h: Handler, m: MessageId, history: seq<Failure>)
    requires RunReaches(c, w) && Enabled(c, w, h) && Notify(m, FailedNote(history)) in Script(c, w, h)
    ensures m in w.store.hashes
    ensures !InFlight(w.store.hashes[m].status) ==> h.Attend? && h.m == m && (h.q, m) !in w.store.zsets
  {
    RunsAreSound(c, w);
    HandlerRecordsFailures(c, w, h);
    RecordedIsLive(w, Script(c, w, h), m, history);
    match h
    case DistributeQueue(key, head, unlocked) => PassFailsNobody(c, w, key, head, unlocked, m, history);
    case SendSettles(x, sent, jitter) =>
      FailingSettlementIsOfSubject(c, w, x, sent, jitter, m, history);
      NoDuplicateSend(c, w, m, NsQ);
    case Attend(q, x, now, reply, jitter) => FailingVisitIsOfSubject(c, w, q, x, now, reply, jitter, m, history);
    case Ingress(p, e, jitter) => FailingEventIsOfSubject(c, w, c.registry[p], e, jitter, m, history);
    case _ =>
  }

  lemma RecordedIsLive(w: World, ops: seq<Op>, m: MessageId, history: seq<Failure>)
    requires RecordsFailures(w, ops) && Notify(m, FailedNote(history)) in ops
    ensures m in w.store.hashes
  {
    var i :| 0 <= i < |ops| && ops[i] == Notify(m, FailedNote(history));
    assert FailsAsRecorded(w, m, history);
  }

  lemma PassFailsNobody(c: Config, w: World, key: string, head: Option<MessageId>, unlocked: bool,
                        m: MessageId, history: seq<Failure>)
    ensures Notify(m, FailedNote(history)) !in Distribute(c, w, key, head, unlocked)
  {
  }

  lemma FailingSettlementIsOfSubject(c: Config, w: World, x: MessageId, sent: SendResult, jitter: real,
                                     m: MessageId, history: seq<Failure>)
    requires Notify(m, FailedNote(history)) in Script(c, w, SendSettles(x, sent, jitter))
    ensures x == m
  {
  }

  lemma FailingEventIsOfSubject(c: Config, w: World, p: Plugin, e: IncomingEvent, jitter: real,
                                m: MessageId, history: seq<Failure>)
    requires RunReaches(c, w) && Notify(m, FailedNote(history)) in ProcessEvent(c, w, p, e, jitter).ops
    ensures m in w.store.hashes && InFlight(w.store.hashes[m].status)
  {
    assert e.externalId.Some? && e.externalId.value in w.store.ext && w.store.ext[e.externalId.value] == m;
    RunsAreSound(c, w);
    ProcessEventRecords(c, w, p, e, jitter);
    RecordedIsLive(w, ProcessEvent(c, w, p, e, jitter).ops, m, history);
    EventReachesInFlight(c, w, e.externalId.value);
  }

  lemma FailingVisitIsOfSubject(c: Config, w: World, q: QueueKey, x: MessageId, now: real, reply: Reply, jitter: real,
                                m: MessageId, history: seq<Failure>)
    requires Sound(c, w) && IsStageQueue(q) && ReplyIsOwn(w, x, reply) && m in w.store.hashes
    requires Notify(m, FailedNote(history)) in Visit(c, w, q, x, now, reply, jitter)
    ensures x == m && ((q, m) in w.store.zsets ==> InFlight(w.store.hashes[m].status))
  {
    assert SoundMessage(c, w, x) && SoundMessage(c, w, m) && PlacedMessage(c, w, m);
    if x in w.store.hashes {
      StageActionConcerns(c, w, q, x, now, reply, jitter);
      VisitConcerns(c, w, q, x, now, reply, jitter);
      assert Concerns(Notify(m, FailedNote(history)), m);
    }
  }
}
