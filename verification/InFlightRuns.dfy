/** No duplicate vendor call: what runs of handlers, crashes included, keep about the sends a process still awaits. */
module InFlightRuns {
  import opened Domain
  import opened Stages
  import opened StoreSpec
  import opened World
  import opened Handlers
  import opened OnePlace
  import opened Soundness
  import opened Runs
  import QueueKeys

  /** An awaited send is the only one of its message, which, while its hash lives, is still waiting in `ns`. */
  ghost predicate HeldMessage(w: World, x: MessageId) {
    && w.outstanding[x] <= 1
    && (x in w.outstanding ==>
          && x in w.minted && Picks(w, x) >= 1
          && (x in w.store.hashes ==> w.store.hashes[x].status == SentToNs && (NsQ, x) in w.store.zsets))
  }

  ghost predicate Held(w: World) {
    forall x :: HeldMessage(w, x)
  }

  /** A step that cannot take `x` out of `ns` or start a second send of it. */
  predicate Spares(op: Op, x: MessageId) {
    match op
    case Move(m, from, _, _, _, _) => m == x ==> from != NsQ
    case CommitRetry(m, from, _, _, _) => m == x ==> from != NsQ
    case Unlist(m, q) => m == x ==> q != NsQ
    case BeginSend(m) => m != x
    case _ => true
  }

  lemma OthersKeepHeld(w: World, op: Op, x: MessageId)
    requires !Concerns(op, x) && HeldMessage(w, x)
    ensures HeldMessage(Do(w, op), x)
  {
    OthersStayTheSame(w, op, x);
  }

  lemma StepKeepsHeld(c: Config, w: World, op: Op, x: MessageId)
    requires Sound(c, w) && Fresh(c, w, op) && HeldMessage(w, x)
    requires Spares(op, x) || (op == Unlist(x, NsQ) && x !in w.store.hashes)
    ensures HeldMessage(Do(w, op), x)
  {
    if !Concerns(op, x) {
      OthersKeepHeld(w, op, x);
    } else {
      assert PlacedMessage(c, w, x) && SoundMessage(c, w, x);
    }
  }

  lemma {:induction false} SparingRunKeepsHeld(c: Config, w: World, ops: seq<Op>, x: MessageId)
    requires Sound(c, w) && AllFresh(c, w, ops) && HeldMessage(w, x)
    requires forall i :: 0 <= i < |ops| ==> Spares(ops[i], x)
    ensures HeldMessage(Run(w, ops), x)
    decreases |ops|
  {
    if ops != [] {
      StepKeepsHeld(c, w, ops[0], x);
      StepKeepsSound(c, w, ops[0]);
      SparingRunKeepsHeld(c, Do(w, ops[0]), ops[1..], x);
    }
  }

  /** Neither starting nor dropping a send. */
  predicate LeavesSends(op: Op) {
    !op.BeginSend? && !op.EndSend? && !op.Restart?
  }

  lemma {:induction false} RunLeavesSends(w: World, ops: seq<Op>)
    requires forall i :: 0 <= i < |ops| ==> LeavesSends(ops[i])
    ensures Run(w, ops).outstanding == w.outstanding
    decreases |ops|
  {
    if ops != [] {
      RunLeavesSends(Do(w, ops[0]), ops[1..]);
    }
  }

  lemma FetchedIsWaiting(c: Config, w: World, key: string, p: Plugin, x: MessageId)
    requires Sound(c, w) && HeldMessage(w, x) && IsHead(w.store, ReadyQ(key), x) && x in w.store.hashes
    ensures var after := Do(w, FetchOf(c, w, key, p, x));
      && x !in after.outstanding && x in after.minted && Picks(after, x) >= 1
      && x in after.store.hashes && after.store.hashes[x].status == SentToNs && (NsQ, x) in after.store.zsets
  {
    assert PlacedMessage(c, w, x) && SoundMessage(c, w, x);
  }

  lemma BegunIsHeld(w: World, x: MessageId, first: bool)
    requires x !in w.outstanding && x in w.minted && Picks(w, x) >= 1
    requires x in w.store.hashes && w.store.hashes[x].status == SentToNs && (NsQ, x) in w.store.zsets
    ensures HeldMessage(Run(w, if first then [Notify(x, SentNote), BeginSend(x)] else [BeginSend(x)]), x)
  {
    if first {
      var noted := Do(w, Notify(x, SentNote));
      RunTwo(w, Notify(x, SentNote), BeginSend(x));
      BegunAfterNote(w, noted, x);
      StartIsHeld(noted, x);
    } else {
      RunOne(w, BeginSend(x));
      StartIsHeld(w, x);
    }
  }

  lemma BegunAfterNote(w: World, noted: World, x: MessageId)
    requires noted == Do(w, Notify(x, SentNote))
    ensures noted == w.(log := noted.log) && Picks(noted, x) == Picks(w, x)
  {
  }

  lemma StartIsHeld(w: World, x: MessageId)
    requires x !in w.outstanding && x in w.minted && Picks(w, x) >= 1
    requires x in w.store.hashes && w.store.hashes[x].status == SentToNs && (NsQ, x) in w.store.zsets
    ensures HeldMessage(Do(w, BeginSend(x)), x)
  {
  }

  lemma PickKeepsHeld(c: Config, w: World, key: string, p: Plugin, head: Option<MessageId>, x: MessageId)
    requires Sound(c, w) && HeldMessage(w, x) && AllFresh(c, w, Pick(c, w, key, p, head))
    requires head.Some? ==> IsHead(w.store, ReadyQ(key), head.value)
    ensures HeldMessage(Run(w, Pick(c, w, key, p, head)), x)
  {
    var ops := Pick(c, w, key, p, head);
    assert SoundMessage(c, w, x);
    if head != Some(x) || x !in w.store.hashes {
      SparingRunKeepsHeld(c, w, ops, x);
    } else {
      var fetch := FetchOf(c, w, key, p, x);
      var first := w.store.hashes[x].retryCount == 0;
      var rest := if first then [Notify(x, SentNote), BeginSend(x)] else [BeginSend(x)];
      assert ops == [fetch] + rest;
      RunAppend(w, [fetch], rest);
      RunOne(w, fetch);
      FetchedIsWaiting(c, w, key, p, x);
      BegunIsHeld(Do(w, fetch), x, first);
    }
  }

  lemma SweepKeepsHeld(c: Config, w: World, limit: Option<Limit>, x: MessageId)
    requires Sound(c, w) && HeldMessage(w, x)
    ensures HeldMessage(Run(w, AdmissionSweep(w.store, limit)), x)
  {
    SweepIsFresh(c, w, limit);
    SparingRunKeepsHeld(c, w, AdmissionSweep(w.store, limit), x);
  }

  lemma DistributeKeepsHeld(c: Config, w: World, key: string, head: Option<MessageId>, unlocked: bool, x: MessageId)
    requires Sound(c, w) && HeldMessage(w, x) && RightHead(w, key, head)
    ensures HeldMessage(Run(w, Distribute(c, w, key, head, unlocked)), x)
  {
    DistributeShape(c, w, key, head, unlocked);
    SweepKeepsHeld(c, w, LimitFor(c, key), x);
    if Admits(c, w, key, unlocked) {
      var after := Run(w, AdmissionSweep(w.store, LimitFor(c, key)));
      var p := c.registry[QueueKeys.PluginIdOf(key).value];
      PickIsFresh(c, after, key, p, head);
      PickKeepsHeld(c, after, key, p, head, x);
    } else {
      assert Run(w, []) == w;
    }
  }

  lemma SettleKeepsHeld(c: Config, w: World, m: MessageId, sent: SendResult, jitter: real, x: MessageId)
    requires Sound(c, w) && HeldMessage(w, x) && ValidJitter(jitter) && m in w.minted
      && w.minted[m].plugin in c.registry
    requires sent.Accepted? ==> UnusedExternalId(w, m, sent.externalId)
    ensures HeldMessage(Run(w, Settle(c, w, m, c.registry[w.minted[m].plugin], sent, jitter)), x)
  {
    var p := c.registry[w.minted[m].plugin];
    var first := SettleEffect(c, w, m, p, sent, jitter);
    SettleIsFresh(c, w, m, sent, jitter);
    SettleLeavesOthers(c, w, m, p, sent, jitter, x);
    if x != m {
      SparingRunKeepsHeld(c, w, Settle(c, w, m, p, sent, jitter), x);
    } else {
      EndedSendIsReleased(w, first, m);
    }
  }

  lemma EndedSendIsReleased(w: World, first: seq<Op>, m: MessageId)
    requires HeldMessage(w, m) && forall i :: 0 <= i < |first| ==> LeavesSends(first[i])
    ensures m !in Run(w, first + [EndSend(m)]).outstanding
  {
    RunAppend(w, first, [EndSend(m)]);
    RunOne(Run(w, first), EndSend(m));
    RunLeavesSends(w, first);
  }

  lemma SettleLeavesOthers(c: Config, w: World, m: MessageId, p: Plugin, sent: SendResult, jitter: real, x: MessageId)
    ensures var ops := SettleEffect(c, w, m, p, sent, jitter);
      forall i :: 0 <= i < |ops| ==> LeavesSends(ops[i]) && (x != m ==> Spares(ops[i], x))
  {
  }

  lemma EventLeavesSends(c: Config, w: World, p: Plugin, e: IncomingEvent, jitter: real)
    ensures var ops := ProcessEvent(c, w, p, e, jitter).ops; forall i :: 0 <= i < |ops| ==> LeavesSends(ops[i])
  {
  }

  lemma VisitLeavesSends(c: Config, w: World, q: QueueKey, m: MessageId, now: real, reply: Reply, jitter: real)
    requires IsStageQueue(q)
    ensures var ops := Visit(c, w, q, m, now, reply, jitter); forall i :: 0 <= i < |ops| ==> LeavesSends(ops[i])
  {
    if m in w.store.hashes && w.store.hashes[m].body.Some? && w.store.hashes[m].body.value.plugin in c.registry {
      if reply.Reported? {
        EventLeavesSends(c, w, c.registry[w.store.hashes[m].body.value.plugin], reply.event, jitter);
      }
      var ops := StageAction(c, w, q, m, now, reply, jitter).ops;
      assert forall i :: 0 <= i < |ops| ==> LeavesSends(ops[i]);
    }
  }

  lemma VisitKeepsHeld(c: Config, w: World, q: QueueKey, m: MessageId, now: real, reply: Reply, jitter: real,
                       x: MessageId)
    requires Sound(c, w) && HeldMessage(w, x) && ValidJitter(jitter) && IsStageQueue(q)
    ensures HeldMessage(Run(w, Visit(c, w, q, m, now, reply, jitter)), x)
  {
    var ops := Visit(c, w, q, m, now, reply, jitter);
    VisitIsFresh(c, w, q, m, now, reply, jitter);
    assert SoundMessage(c, w, m);
    if m !in w.store.hashes {
      StepKeepsHeld(c, w, Unlist(m, q), x);
      RunOne(w, Unlist(m, q));
    } else if x !in w.outstanding {
      VisitLeavesSends(c, w, q, m, now, reply, jitter);
      RunLeavesSends(w, ops);
      assert x !in Run(w, ops).outstanding;
    } else {
      VisitSparesHeld(c, w, q, m, now, reply, jitter, x);
      SparingRunKeepsHeld(c, w, ops, x);
    }
  }

  lemma OwnNsVisitSpares(c: Config, w: World, m: MessageId, now: real, reply: Reply, jitter: real)
    requires Sound(c, w) && m in w.outstanding && m in w.store.hashes
    ensures var ops := Visit(c, w, NsQ, m, now, reply, jitter); forall i :: 0 <= i < |ops| ==> Spares(ops[i], m)
  {
    assert SoundMessage(c, w, m);
  }

  lemma ActionSpares(c: Config, w: World, q: QueueKey, m: MessageId, now: real, reply: Reply, jitter: real,
                     x: MessageId)
    requires Sound(c, w) && IsStageQueue(q) && m in w.store.hashes && (q != NsQ || m != x)
    requires w.store.hashes[m].body.Some? && w.store.hashes[m].body.value.plugin in c.registry
    ensures var ops := StageAction(c, w, q, m, now, reply, jitter).ops; forall i :: 0 <= i < |ops| ==> Spares(ops[i], x)
  {
    if q.TaskQ? && reply.Reported? {
      EventSpares(c, w, c.registry[w.store.hashes[m].body.value.plugin], reply.event, jitter, x);
    }
  }

  /** The runner never takes a message whose send the process still awaits. */
  lemma VisitSparesHeld(c: Config, w: World, q: QueueKey, m: MessageId, now: real, reply: Reply, jitter: real,
                        x: MessageId)
    requires Sound(c, w) && IsStageQueue(q) && x in w.outstanding && m in w.store.hashes
    ensures var ops := Visit(c, w, q, m, now, reply, jitter); forall i :: 0 <= i < |ops| ==> Spares(ops[i], x)
  {
    assert SoundMessage(c, w, m);
    if q == NsQ && m == x {
      OwnNsVisitSpares(c, w, m, now, reply, jitter);
    } else {
      ActionSpares(c, w, q, m, now, reply, jitter, x);
    }
  }

  lemma EventSpares(c: Config, w: World, p: Plugin, e: IncomingEvent, jitter: real, x: MessageId)
    requires Sound(c, w)
    ensures var ops := ProcessEvent(c, w, p, e, jitter).ops; forall i :: 0 <= i < |ops| ==> Spares(ops[i], x)
  {
    if e.externalId.Some? && e.externalId.value in w.store.ext && w.store.ext[e.externalId.value] in w.store.hashes {
      EventReachesInFlight(c, w, e.externalId.value);
    }
  }

  lemma HandlerKeepsHeld(c: Config, w: World, h: Handler, x: MessageId)
    requires Sound(c, w) && Held(w) && Enabled(c, w, h)
    ensures HeldMessage(Run(w, Script(c, w, h)), x)
  {
    assert HeldMessage(w, x);
    ScriptIsFresh(c, w, h);
    match h
    case DistributeQueue(key, head, unlocked) => DistributeKeepsHeld(c, w, key, head, unlocked, x);
    case SendSettles(m, sent, jitter) =>
      if m in w.minted && w.minted[m].plugin in c.registry {
        SettleKeepsHeld(c, w, m, sent, jitter, x);
      }
    case Attend(q, m, now, reply, jitter) => VisitKeepsHeld(c, w, q, m, now, reply, jitter, x);
    case Ingress(p, e, jitter) =>
      EventSpares(c, w, c.registry[p], e, jitter, x);
      SparingRunKeepsHeld(c, w, Script(c, w, h), x);
    case _ => SparingRunKeepsHeld(c, w, Script(c, w, h), x);
  }

  lemma {:induction false} EventsKeepHeld(c: Config, w: World, events: seq<Event>)
    requires Sound(c, w) && Held(w) && AllEnabled(c, w, events)
    ensures Held(AfterAll(c, w, events))
    decreases |events|
  {
    if events != [] {
      EventKeepsSound(c, w, events[0]);
      if events[0].Completes? {
        forall x ensures HeldMessage(After(c, w, events[0]), x) {
          HandlerKeepsHeld(c, w, events[0].handler, x);
        }
      }
      EventsKeepHeld(c, After(c, w, events[0]), events[1..]);
    }
  }

  lemma RunsAreHeld(c: Config, w: World, m: MessageId)
    requires RunReaches(c, w)
    ensures HeldMessage(w, m)
  {
    var events :| AllEnabled(c, INITIAL_WORLD, events) && AfterAll(c, INITIAL_WORLD, events) == w;
    InitiallySound(c);
    EventsKeepHeld(c, INITIAL_WORLD, events);
  }

  /**
   * No duplicate in-flight send: over every interleaving of distribute, tick, ingress, cancel and send completion,
   * with crashes, at most one vendor call per message is outstanding, and its message, while it lives, is in the `ns`
   * queue and nowhere else.
   */
  lemma NoDuplicateSend(c: Config, w: World, m: MessageId, q: QueueKey)
    requires RunReaches(c, w)
    ensures w.outstanding[m] <= 1
    ensures m in w.outstanding && m in w.store.hashes ==>
      w.store.hashes[m].status == SentToNs && ((q, m) in w.store.zsets <==> q == NsQ)
  {
    RunsAreSound(c, w);
    RunsAreHeld(c, w, m);
    assert PlacedMessage(c, w, m);
  }
}
