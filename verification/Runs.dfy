/** Runs of whole handlers, each of which may complete or be cut off by a crash between any two of its steps. */
module Runs {
  import opened Domain
  import opened Stages
  import opened StoreSpec
  import opened World
  import opened Handlers
  import opened OnePlace
  import opened Soundness
  import QueueKeys

  ghost predicate AllFresh(c: Config, w: World, ops: seq<Op>)
    decreases |ops|
  {
    ops == [] || (Fresh(c, w, ops[0]) && AllFresh(c, Do(w, ops[0]), ops[1..]))
  }

  lemma {:induction false} RunAppend(w: World, a: seq<Op>, b: seq<Op>)
    ensures Run(w, a + b) == Run(Run(w, a), b)
    decreases |a|
  {
    if a == [] {
      assert a + b == b;
    } else {
      assert (a + b)[1..] == a[1..] + b;
      RunAppend(Do(w, a[0]), a[1..], b);
    }
  }

  lemma {:induction false} FreshAppend(c: Config, w: World, a: seq<Op>, b: seq<Op>)
    requires AllFresh(c, w, a) && AllFresh(c, Run(w, a), b)
    ensures AllFresh(c, w, a + b)
    decreases |a|
  {
    if a == [] {
      assert a + b == b;
    } else {
      var ab := a + b;
      assert ab[0] == a[0] && ab[1..] == a[1..] + b;
      FreshAppend(c, Do(w, a[0]), a[1..], b);
    }
  }

  lemma {:induction false} FreshPrefix(c: Config, w: World, ops: seq<Op>, k: nat)
    requires k <= |ops| && AllFresh(c, w, ops)
    ensures AllFresh(c, w, ops[..k])
    decreases k
  {
    if k > 0 {
      assert ops[..k][1..] == ops[1..][..k - 1];
      FreshPrefix(c, Do(w, ops[0]), ops[1..], k - 1);
    }
  }

  lemma {:induction false} FreshRunKeepsSound(c: Config, w: World, ops: seq<Op>)
    requires Sound(c, w) && AllFresh(c, w, ops)
    ensures Sound(c, Run(w, ops)) && AllAllowed(c, w, ops)
    decreases |ops|
  {
    if ops != [] {
      StepKeepsSound(c, w, ops[0]);
      FreshRunKeepsSound(c, Do(w, ops[0]), ops[1..]);
    }
  }

  lemma RunOne(w: World, a: Op)
    ensures Run(w, [a]) == Do(w, a)
  {
    assert [a][1..] == [];
  }

  lemma RunTwo(w: World, a: Op, b: Op)
    ensures Run(w, [a, b]) == Do(Do(w, a), b)
  {
    assert [a, b][1..] == [b];
    RunOne(Do(w, a), b);
  }

  lemma FreshOne(c: Config, w: World, a: Op)
    requires Fresh(c, w, a)
    ensures AllFresh(c, w, [a])
  {
    assert [a][1..] == [];
  }

  lemma FreshTwo(c: Config, w: World, a: Op, b: Op)
    requires Fresh(c, w, a) && Fresh(c, Do(w, a), b)
    ensures AllFresh(c, w, [a, b])
  {
    assert [a, b][1..] == [b];
    FreshOne(c, Do(w, a), b);
  }

  lemma {:induction false} RunLeavesOthers(w: World, ops: seq<Op>, x: MessageId)
    requires forall i :: 0 <= i < |ops| ==> !Concerns(ops[i], x)
    ensures SameMessage(w, Run(w, ops), x)
    decreases |ops|
  {
    if ops != [] {
      OthersStayTheSame(w, ops[0], x);
      RunLeavesOthers(Do(w, ops[0]), ops[1..], x);
    }
  }

  /** Notify-then-purge of a live message with a terminal note. */
  lemma ResolveIsFresh(c: Config, w: World, m: MessageId, note: Note)
    requires Sound(c, w) && m in w.store.hashes && IsTerminal(note)
    ensures AllFresh(c, w, [Notify(m, note), Purge(m, w.store.hashes[m], Resolved)])
  {
    assert SoundMessage(c, w, m);
    TerminalStays(Log(w, m), note);
    FreshTwo(c, w, Notify(m, note), Purge(m, w.store.hashes[m], Resolved));
  }

  lemma RetryOrFailIsFresh(c: Config, w: World, m: MessageId, from: QueueKey, context: FailureContext, jitter: real)
    requires Sound(c, w) && ValidJitter(jitter) && IsStageQueue(from) && from != RetryQ
    ensures AllFresh(c, w, RetryOrFail(c, w, m, from, context, jitter).ops)
  {
    assert SoundMessage(c, w, m) && PlacedMessage(c, w, m);
    if m in w.store.hashes {
      var h := w.store.hashes[m];
      var isFinal := context.skipRetry || h.retryCount >= c.delivery.maxRetries;
      var history := [Failure(h.status, context.reason, isFinal)] + h.history;
      if isFinal {
        ResolveIsFresh(c, w, m, FailedNote(history));
      } else if (from, m) in w.store.zsets {
        BackoffBounds(h.retryCount, c.delivery, jitter);
        assert history[1..] == h.history;
        FreshOne(c, w, CommitRetry(m, from, h.retryCount, history,
          w.clock + BackoffDelay(h.retryCount, c.delivery, jitter)));
      }
    }
  }

  lemma AdvanceIsFresh(c: Config, w: World, m: MessageId, p: Plugin, from: Stage, d: Option<ExternalId>)
    requires Sound(c, w) && m in w.minted && w.minted[m].plugin in c.registry && p.id in c.registry
      && c.registry[p.id] == p
    requires from == Ns ==> d.Some? && UnusedExternalId(w, m, d.value) && p.id == w.minted[m].plugin
    requires from != Ns ==> from == RelayNode && p.pattern == Push && d.None?
    ensures AllFresh(c, w, Advance(c, w, m, p, from, d))
  {
    var next := NextStage(p.pattern, from);
    if next.Some? {
      WaitsArePositive(next.value, p.tuning, c.delivery, 0, 0.0, 0.0);
      FreshOne(c, w, Advance(c, w, m, p, from, d)[0]);
    }
  }

  /** A vendor event reaches only messages that are with the network server or the device. */
  lemma EventReachesInFlight(c: Config, w: World, d: ExternalId)
    requires Sound(c, w) && d in w.store.ext && w.store.ext[d] in w.store.hashes
    ensures w.store.hashes[w.store.ext[d]].status in {DeliveredToNs, SentToDevice}
  {
    assert SoundMessage(c, w, w.store.ext[d]);
  }

  lemma ProcessEventIsFresh(c: Config, w: World, p: Plugin, e: IncomingEvent, jitter: real)
    requires Sound(c, w) && ValidJitter(jitter) && p.id in c.registry && c.registry[p.id] == p
    ensures AllFresh(c, w, ProcessEvent(c, w, p, e, jitter).ops)
  {
    if e.unsolicited {
      FreshOne(c, w, NotifyUnsolicited);
    } else if e.externalId.Some? && e.externalId.value in w.store.ext {
      var m := w.store.ext[e.externalId.value];
      assert SoundMessage(c, w, m) && PlacedMessage(c, w, m);
      if e.status == SentToDevice && p.pattern == Push {
        AdvanceIsFresh(c, w, m, p, RelayNode, None);
      } else if m in w.store.hashes {
        EventReachesInFlight(c, w, e.externalId.value);
        var stage := StageForStatus(w.store.hashes[m].status, p.pattern).value;
        var context := if e.failure.Some? then e.failure.value else FailureContext(NEGATIVE_RESPONSE, false);
        RetryOrFailIsFresh(c, w, m, StageKeyFor(stage, p.id), context, jitter);
        var history := if e.failure.Some?
                       then [Failure(DeliverySuccessful, e.failure.value.reason, true)] + w.store.hashes[m].history
                       else w.store.hashes[m].history;
        ResolveIsFresh(c, w, m, SuccessNote(history));
      }
    }
  }

  lemma RequeueIsFresh(c: Config, w: World, m: MessageId)
    requires Sound(c, w) && m in w.store.hashes && m in w.minted
    ensures var b := w.minted[m]; var move := Move(m, RetryQ, ReadyQ(b.readyKey), -b.priority, Queued, None);
      AllFresh(c, w, [move, MarkReady(b.readyKey)])
  {
    assert SoundMessage(c, w, m);
    var b := w.minted[m];
    FreshTwo(c, w, Move(m, RetryQ, ReadyQ(b.readyKey), -b.priority, Queued, None), MarkReady(b.readyKey));
  }

  lemma StageActionIsFresh(c: Config, w: World, q: QueueKey, m: MessageId, now: real, reply: Reply, jitter: real)
    requires Sound(c, w) && ValidJitter(jitter) && IsStageQueue(q)
    requires m in w.store.hashes && w.store.hashes[m].body.Some? && w.store.hashes[m].body.value.plugin in c.registry
    ensures AllFresh(c, w, StageAction(c, w, q, m, now, reply, jitter).ops)
  {
    assert SoundMessage(c, w, m);
    var h := w.store.hashes[m];
    match StageOf(q)
    case Ns => RetryOrFailIsFresh(c, w, m, NsQ, FailureContext(NS_TIMEOUT, false), jitter);
    case RelayNode => RetryOrFailIsFresh(c, w, m, q, FailureContext(RELAY_TIMEOUT, false), jitter);
    case Device => RetryOrFailIsFresh(c, w, m, q, FailureContext(DEVICE_TIMEOUT, false), jitter);
    case AwaitingTask =>
      ResolveIsFresh(c, w, m, FailedNote([Failure(DeliveredToNs, TASK_TIMEOUT, true)] + h.history));
      if reply.Reported? {
        ProcessEventIsFresh(c, w, c.registry[h.body.value.plugin], reply.event, jitter);
      }
    case Retry => RequeueIsFresh(c, w, m);
  }

  lemma {:induction false} RunKeepsClock(w: World, ops: seq<Op>)
    requires forall i :: 0 <= i < |ops| ==> !ops[i].Elapse?
    ensures Run(w, ops).clock == w.clock
    decreases |ops|
  {
    if ops != [] {
      RunKeepsClock(Do(w, ops[0]), ops[1..]);
    }
  }

  lemma ActionKeepsClock(c: Config, w: World, q: QueueKey, m: MessageId, now: real, reply: Reply, jitter: real)
    requires IsStageQueue(q)
    requires m in w.store.hashes && w.store.hashes[m].body.Some? && w.store.hashes[m].body.value.plugin in c.registry
    ensures Run(w, StageAction(c, w, q, m, now, reply, jitter).ops).clock == w.clock
  {
    RunKeepsClock(w, StageAction(c, w, q, m, now, reply, jitter).ops);
  }

  lemma ObligationIsFresh(c: Config, w: World, after: World, q: QueueKey, m: MessageId, now: real, result: Result,
                          jitter: real)
    requires IsStageQueue(q) && ValidJitter(jitter) && after.clock == w.clock
    requires m in w.store.hashes && w.store.hashes[m].body.Some? && w.store.hashes[m].body.value.plugin in c.registry
    ensures AllFresh(c, after, Obligation(c, w, q, m, now, result, jitter))
  {
    var h := w.store.hashes[m];
    var p := c.registry[h.body.value.plugin];
    WaitsArePositive(StageOf(q), p.tuning, c.delivery, h.retryCount, now - m.time, jitter);
    var owed := Obligation(c, w, q, m, now, result, jitter);
    if owed != [] {
      FreshOne(c, after, owed[0]);
    }
  }

  lemma VisitIsFresh(c: Config, w: World, q: QueueKey, m: MessageId, now: real, reply: Reply, jitter: real)
    requires Sound(c, w) && ValidJitter(jitter) && IsStageQueue(q)
    ensures AllFresh(c, w, Visit(c, w, q, m, now, reply, jitter))
  {
    assert SoundMessage(c, w, m);
    if m !in w.store.hashes {
      FreshOne(c, w, Unlist(m, q));
    } else {
      var action := StageAction(c, w, q, m, now, reply, jitter);
      var after := Run(w, action.ops);
      StageActionIsFresh(c, w, q, m, now, reply, jitter);
      ActionKeepsClock(c, w, q, m, now, reply, jitter);
      ObligationIsFresh(c, w, after, q, m, now, action.result, jitter);
      FreshAppend(c, w, action.ops, Obligation(c, w, q, m, now, action.result, jitter));
    }
  }

  lemma SweepIsFresh(c: Config, w: World, limit: Option<Limit>)
    ensures AllFresh(c, w, AdmissionSweep(w.store, limit))
  {
    if AdmissionSweep(w.store, limit) != [] {
      FreshOne(c, w, AdmissionSweep(w.store, limit)[0]);
    }
  }

  function FetchOf(c: Config, w: World, key: string, p: Plugin, m: MessageId): Op {
    FetchNext(m, key, w.clock + EntryWait(Ns, p.tuning, c.delivery, 0, 0.0), LimitFor(c, key))
  }

  lemma FetchIsFresh(c: Config, w: World, key: string, p: Plugin, m: MessageId)
    requires Sound(c, w) && p.id in c.registry && c.registry[p.id] == p
    requires IsHead(w.store, ReadyQ(key), m)
    requires var limit := LimitFor(c, key); limit.Some? ==> |Occupants(w.store, limit.value.key)| < limit.value.max
    ensures Fresh(c, w, FetchOf(c, w, key, p, m))
    ensures m in w.store.hashes ==>
      var after := Do(w, FetchOf(c, w, key, p, m)); Sends(after, m) < Picks(after, m)
  {
    WaitsArePositive(Ns, p.tuning, c.delivery, 0, 0.0, 0.0);
    assert SoundMessage(c, w, m);
  }

  /** What follows the claim: a notification on a first send, then the vendor call. */
  lemma SendingIsFresh(c: Config, w: World, m: MessageId, first: bool)
    requires Sends(w, m) < Picks(w, m)
    ensures AllFresh(c, w, if first then [Notify(m, SentNote), BeginSend(m)] else [BeginSend(m)])
  {
    if first {
      FreshTwo(c, w, Notify(m, SentNote), BeginSend(m));
    } else {
      FreshOne(c, w, BeginSend(m));
    }
  }

  lemma ClaimAllowsSend(c: Config, w: World, key: string, p: Plugin, m: MessageId)
    requires m in w.store.hashes && Sends(w, m) <= Picks(w, m)
    ensures Sends(Do(w, FetchOf(c, w, key, p, m)), m) < Picks(Do(w, FetchOf(c, w, key, p, m)), m)
  {
  }

  lemma PickIsFresh(c: Config, w: World, key: string, p: Plugin, head: Option<MessageId>)
    requires Sound(c, w) && p.id in c.registry && c.registry[p.id] == p
    requires if head.Some? then IsHead(w.store, ReadyQ(key), head.value) else NoMembers(w.store, ReadyQ(key))
    requires var limit := LimitFor(c, key); limit.Some? ==> |Occupants(w.store, limit.value.key)| < limit.value.max
    ensures AllFresh(c, w, Pick(c, w, key, p, head))
  {
    if head.None? {
      FreshOne(c, w, FetchNothing(key));
    } else {
      assert SoundMessage(c, w, head.value);
      FetchIsFresh(c, w, key, p, head.value);
      if head.value in w.store.hashes {
        ClaimedPickIsFresh(c, w, key, p, head.value);
      } else {
        FreshOne(c, w, FetchOf(c, w, key, p, head.value));
      }
    }
  }

  lemma ClaimedPickIsFresh(c: Config, w: World, key: string, p: Plugin, m: MessageId)
    requires m in w.store.hashes && w.store.hashes[m].body.Some? && Sends(w, m) <= Picks(w, m)
    requires Fresh(c, w, FetchOf(c, w, key, p, m))
    ensures AllFresh(c, w, Pick(c, w, key, p, Some(m)))
  {
    var fetch := FetchOf(c, w, key, p, m);
    var first := w.store.hashes[m].retryCount == 0;
    var rest := if first then [Notify(m, SentNote), BeginSend(m)] else [BeginSend(m)];
    FreshOne(c, w, fetch);
    RunOne(w, fetch);
    ClaimAllowsSend(c, w, key, p, m);
    SendingIsFresh(c, Do(w, fetch), m, first);
    FreshAppend(c, w, [fetch], rest);
    assert Pick(c, w, key, p, Some(m)) == [fetch] + rest;
  }

  /** A pick reads nothing that the sweep before it changes. */
  lemma SweepKeepsRest(w: World, limit: Option<Limit>)
    ensures var after := Run(w, AdmissionSweep(w.store, limit));
      && after == w.(store := after.store) && after.store == w.store.(slots := after.store.slots)
      && (HasRoom(w.store, limit) && limit.Some? ==> |Occupants(after.store, limit.value.key)| < limit.value.max)
  {
    var sweep := AdmissionSweep(w.store, limit);
    if sweep != [] {
      RunOne(w, sweep[0]);
    } else if limit.Some? {
      assert Run(w, sweep) == w;
    }
  }

  ghost predicate RightHead(w: World, key: string, head: Option<MessageId>) {
    if head.Some? then IsHead(w.store, ReadyQ(key), head.value) else NoMembers(w.store, ReadyQ(key))
  }

  /** Whether a pass over `key` gets as far as the pick script. */
  predicate Admits(c: Config, w: World, key: string, unlocked: bool) {
    var owner := QueueKeys.PluginIdOf(key);
    var limit := LimitFor(c, key);
    owner.Some? && owner.value in c.registry && (limit.Some? || unlocked) && HasRoom(w.store, limit)
  }

  /** A pass is a sweep of dead slots and then, when admitted, a pick in the swept world. */
  lemma DistributeShape(c: Config, w: World, key: string, head: Option<MessageId>, unlocked: bool)
    requires Sound(c, w) && RightHead(w, key, head)
    ensures var ops := Distribute(c, w, key, head, unlocked);
      var sweep := AdmissionSweep(w.store, LimitFor(c, key));
      var after := Run(w, sweep);
      && AllFresh(c, w, sweep) && Sound(c, after) && RightHead(after, key, head)
      && (if Admits(c, w, key, unlocked)
          then var p := c.registry[QueueKeys.PluginIdOf(key).value];
            ops == sweep + Pick(c, after, key, p, head) && Run(w, ops) == Run(after, Pick(c, after, key, p, head))
            && (var limit := LimitFor(c, key); limit.Some? ==>
              |Occupants(after.store, limit.value.key)| < limit.value.max)
          else ops == [] || ops == sweep)
  {
    var limit := LimitFor(c, key);
    SweepIsFresh(c, w, limit);
    SweepKeepsRest(w, limit);
    FreshRunKeepsSound(c, w, AdmissionSweep(w.store, limit));
    if Admits(c, w, key, unlocked) {
      AdmittedShape(c, w, key, head, unlocked);
    } else {
      RefusedShape(c, w, key, head, unlocked);
    }
  }

  lemma AdmittedShape(c: Config, w: World, key: string, head: Option<MessageId>, unlocked: bool)
    requires Admits(c, w, key, unlocked)
    ensures var ops := Distribute(c, w, key, head, unlocked);
      var sweep := AdmissionSweep(w.store, LimitFor(c, key));
      var after := Run(w, sweep);
      var p := c.registry[QueueKeys.PluginIdOf(key).value];
      ops == sweep + Pick(c, after, key, p, head) && Run(w, ops) == Run(after, Pick(c, after, key, p, head))
  {
    var sweep := AdmissionSweep(w.store, LimitFor(c, key));
    var p := c.registry[QueueKeys.PluginIdOf(key).value];
    SweepKeepsRest(w, LimitFor(c, key));
    PickReadsNoSlots(c, w, Run(w, sweep), key, p, head);
    AdmittedOps(c, w, key, head, unlocked);
    RunAppend(w, sweep, Pick(c, w, key, p, head));
  }

  lemma PickReadsNoSlots(c: Config, w: World, v: World, key: string, p: Plugin, head: Option<MessageId>)
    requires v == w.(store := v.store) && v.store == w.store.(slots := v.store.slots)
    ensures Pick(c, v, key, p, head) == Pick(c, w, key, p, head)
  {
  }

  lemma AdmittedOps(c: Config, w: World, key: string, head: Option<MessageId>, unlocked: bool)
    requires Admits(c, w, key, unlocked)
    ensures Distribute(c, w, key, head, unlocked)
      == AdmissionSweep(w.store, LimitFor(c, key))
         + Pick(c, w, key, c.registry[QueueKeys.PluginIdOf(key).value], head)
  {
  }

  lemma RefusedShape(c: Config, w: World, key: string, head: Option<MessageId>, unlocked: bool)
    requires !Admits(c, w, key, unlocked)
    ensures var ops := Distribute(c, w, key, head, unlocked);
      ops == [] || ops == AdmissionSweep(w.store, LimitFor(c, key))
  {
  }

  lemma DistributeIsFresh(c: Config, w: World, key: string, head: Option<MessageId>, unlocked: bool)
    requires Sound(c, w) && RightHead(w, key, head)
    ensures AllFresh(c, w, Distribute(c, w, key, head, unlocked))
  {
    DistributeShape(c, w, key, head, unlocked);
    if Admits(c, w, key, unlocked) {
      var sweep := AdmissionSweep(w.store, LimitFor(c, key));
      var after := Run(w, sweep);
      var p := c.registry[QueueKeys.PluginIdOf(key).value];
      PickIsFresh(c, after, key, p, head);
      FreshAppend(c, w, sweep, Pick(c, after, key, p, head));
    }
  }

  lemma SettleIsFresh(c: Config, w: World, m: MessageId, sent: SendResult, jitter: real)
    requires Sound(c, w) && ValidJitter(jitter) && m in w.minted && w.minted[m].plugin in c.registry
    requires sent.Accepted? ==> UnusedExternalId(w, m, sent.externalId)
    ensures AllFresh(c, w, Settle(c, w, m, c.registry[w.minted[m].plugin], sent, jitter))
  {
    var p := c.registry[w.minted[m].plugin];
    var first := SettleEffect(c, w, m, p, sent, jitter);
    match sent {
      case Accepted(d) => AdvanceIsFresh(c, w, m, p, Ns, Some(d));
      case NoExternalId => RetryOrFailIsFresh(c, w, m, NsQ, FailureContext(EMPTY_EXTERNAL_ID, true), jitter);
      case SendThrew(context) => RetryOrFailIsFresh(c, w, m, NsQ, context, jitter);
    }
    FreshOne(c, Run(w, first), EndSend(m));
    FreshAppend(c, w, first, [EndSend(m)]);
  }

  lemma CancelIsFresh(c: Config, w: World, m: MessageId)
    requires Sound(c, w)
    ensures AllFresh(c, w, Cancel(c, w, m))
  {
    assert SoundMessage(c, w, m);
    if m in w.store.hashes {
      var h := w.store.hashes[m];
      var q := if h.status == ToRetry then RetryQ else ReadyQ(h.body.value.readyKey);
      FreshOne(c, w, Unlist(m, q));
      FreshTwo(c, w, Unlist(m, q), Purge(m, h, Cancelled));
    }
  }

  /** Every handler issues only steps that are current when they run. */
  lemma ScriptIsFresh(c: Config, w: World, h: Handler)
    requires Sound(c, w) && Enabled(c, w, h)
    ensures AllFresh(c, w, Script(c, w, h))
  {
    match h
    case EnqueueOne(m, b) => FreshOne(c, w, Insert(m, b));
    case DistributeQueue(key, head, unlocked) => DistributeIsFresh(c, w, key, head, unlocked);
    case SendSettles(m, sent, jitter) =>
      if m in w.minted && w.minted[m].plugin in c.registry {
        SettleIsFresh(c, w, m, sent, jitter);
      }
    case Attend(q, m, now, reply, jitter) => VisitIsFresh(c, w, q, m, now, reply, jitter);
    case Ingress(p, e, jitter) => ProcessEventIsFresh(c, w, c.registry[p], e, jitter);
    case CancelOne(m) => CancelIsFresh(c, w, m);
    case Environment(op) => FreshOne(c, w, op);
  }

  /** A handler either completes, or the process dies after `done` of its steps and restarts without its sends. */
  datatype Event = Completes(handler: Handler) | Crashes(handler: Handler, done: nat)

  ghost function After(c: Config, w: World, e: Event): World {
    var script := Script(c, w, e.handler);
    match e
    case Completes(_) => Run(w, script)
    case Crashes(_, done) => Do(Run(w, if done <= |script| then script[..done] else script), Restart)
  }

  ghost function AfterAll(c: Config, w: World, events: seq<Event>): World
    decreases |events|
  {
    if events == [] then w else AfterAll(c, After(c, w, events[0]), events[1..])
  }

  ghost predicate AllEnabled(c: Config, w: World, events: seq<Event>)
    decreases |events|
  {
    events == [] || (Enabled(c, w, events[0].handler) && AllEnabled(c, After(c, w, events[0]), events[1..]))
  }

  lemma EventKeepsSound(c: Config, w: World, e: Event)
    requires Sound(c, w) && Enabled(c, w, e.handler)
    ensures Sound(c, After(c, w, e))
  {
    var script := Script(c, w, e.handler);
    ScriptIsFresh(c, w, e.handler);
    match e
    case Completes(_) => FreshRunKeepsSound(c, w, script);
    case Crashes(_, done) =>
      var k := if done <= |script| then done else |script|;
      assert script[..|script|] == script;
      FreshPrefix(c, w, script, k);
      FreshRunKeepsSound(c, w, script[..k]);
      StepKeepsSound(c, Run(w, script[..k]), Restart);
  }

  lemma {:induction false} EventsKeepSound(c: Config, w: World, events: seq<Event>)
    requires Sound(c, w) && AllEnabled(c, w, events)
    ensures Sound(c, AfterAll(c, w, events))
    decreases |events|
  {
    if events != [] {
      EventKeepsSound(c, w, events[0]);
      EventsKeepSound(c, After(c, w, events[0]), events[1..]);
    }
  }

  /** A world some run of handlers leads to, crashes included. */
  ghost predicate RunReaches(c: Config, w: World) {
    exists events :: AllEnabled(c, INITIAL_WORLD, events) && AfterAll(c, INITIAL_WORLD, events) == w
  }

  lemma RunsAreSound(c: Config, w: World)
    requires RunReaches(c, w)
    ensures Sound(c, w)
  {
    var events :| AllEnabled(c, INITIAL_WORLD, events) && AfterAll(c, INITIAL_WORLD, events) == w;
    InitiallySound(c);
    EventsKeepSound(c, INITIAL_WORLD, events);
  }

  /** Send budget: in every run, crashes included, a message is sent at most maxRetries + 1 times. */
  lemma SendBudget(c: Config, w: World, m: MessageId)
    requires RunReaches(c, w)
    ensures Sends(w, m) <= Picks(w, m) <= c.delivery.maxRetries + 1
    ensures m in w.store.hashes ==>
      var h := w.store.hashes[m];
      h.retryCount <= c.delivery.maxRetries && Picks(w, m) == h.retryCount + (if InFlight(h.status) then 1 else 0)
  {
    RunsAreSound(c, w);
    assert SoundMessage(c, w, m);
  }

  /** No silent loss: whatever crashed, a purged message was cancelled or had a terminal event persisted. */
  lemma NoSilentLoss(c: Config, w: World, m: MessageId)
    requires RunReaches(c, w) && m in w.purged
    ensures m in w.cancelled || HasTerminal(Log(w, m))
  {
    RunsAreSound(c, w);
    assert SoundMessage(c, w, m);
  }

  /**
   * The external-id index is the exact inverse of the hash field over live messages, and an id is present exactly
   * for messages the network server or the device holds.
   */
  lemma IndexIsInverse(c: Config, w: World, m: MessageId, d: ExternalId)
    requires RunReaches(c, w) && m in w.store.hashes
    ensures (d in w.store.ext && w.store.ext[d] == m) <==> w.store.hashes[m].externalId == Some(d)
    ensures w.store.hashes[m].externalId.Some? <==> w.store.hashes[m].status in {DeliveredToNs, SentToDevice}
  {
    RunsAreSound(c, w);
    assert SoundMessage(c, w, m);
  }
}
