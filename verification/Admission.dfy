/** Ready queues and concurrency slots under every interleaving: work stays routable and caps are never exceeded. */
module Admission {
  import opened Domain
  import opened StoreSpec
  import opened World
  import opened OnePlace
  import opened Starvation
  import opened Soundness
  import opened Runs
  import opened Continuation
  import QueueKeys

  /** Every minted message's ready queue routes back to its plugin. */
  ghost predicate Routed(c: Config, w: World) {
    forall m :: m in w.minted ==>
      w.minted[m].plugin in c.registry && QueueKeys.PluginIdOf(w.minted[m].readyKey) == Some(w.minted[m].plugin)
  }

  /** A ready queue with members is in the distribute set, unless a requeue still owes it the SADD. */
  ghost predicate Listed(w: World, key: string) {
    NoMembers(w.store, ReadyQ(key)) || key in w.store.ready || key in w.owed
  }

  ghost predicate UnderCap(c: Config, w: World, key: string) {
    var limit := LimitFor(c, key);
    limit.Some? ==> |Occupants(w.store, limit.value.key)| <= limit.value.max
  }

  ghost predicate Admissible(c: Config, w: World) {
    Routed(c, w) && (forall key :: Listed(w, key)) && (forall key :: UnderCap(c, w, key))
  }

  lemma OnlyArrivalsJoin(w: World, op: Op, key: string, x: MessageId)
    requires (ReadyQ(key), x) in Do(w, op).store.zsets && (ReadyQ(key), x) !in w.store.zsets
    ensures op.Insert? || op.Move?
  {
  }

  lemma StepKeepsListed(c: Config, w: World, op: Op, key: string)
    requires Allowed(c, w, op) && Listed(w, key)
    requires op.Insert? ==> op.m !in w.minted
    ensures Listed(Do(w, op), key)
  {
    var after := Do(w, op);
    if !NoMembers(after.store, ReadyQ(key)) {
      var x :| (ReadyQ(key), x) in after.store.zsets;
      if op.FetchNext? {
        assert (ReadyQ(key), x) in w.store.zsets;
        var popped := w.store.(zsets := Withdraw(w.store.zsets, ReadyQ(op.key), op.m));
        assert (ReadyQ(key), x) in popped.zsets;
      } else if op.FetchNothing? {
        assert (ReadyQ(key), x) in w.store.zsets;
      } else if (ReadyQ(key), x) !in w.store.zsets {
        OnlyArrivalsJoin(w, op, key, x);
      }
    }
  }

  lemma StepKeepsUnderCap(c: Config, w: World, op: Op, key: string)
    requires Allowed(c, w, op) && UnderCap(c, w, key)
    ensures UnderCap(c, Do(w, op), key)
  {
    var limit := LimitFor(c, key);
    if limit.Some? {
      var before := Occupants(w.store, limit.value.key);
      var after := Occupants(Do(w, op).store, limit.value.key);
      if op.FetchNext? && op.limit.Some? && op.limit.value.key == limit.value.key && op.m in w.store.hashes {
        QueueKeys.RateLimitKeyInjective(key, op.key);
        assert after == before + {op.m};
      } else {
        assert after <= before;
        Smaller(after, before);
      }
    }
  }

  lemma StepKeepsRouted(c: Config, w: World, op: Op)
    requires Routed(c, w) && Allowed(c, w, op)
    ensures Routed(c, Do(w, op))
  {
  }

  lemma StepKeepsAdmissible(c: Config, w: World, op: Op)
    requires Admissible(c, w) && Allowed(c, w, op)
    ensures Admissible(c, Do(w, op))
  {
    StepKeepsRouted(c, w, op);
    forall key ensures Listed(Do(w, op), key) { StepKeepsListed(c, w, op, key); }
    forall key ensures UnderCap(c, Do(w, op), key) { StepKeepsUnderCap(c, w, op, key); }
  }

  lemma {:induction false} RunKeepsAdmissible(c: Config, w: World, ops: seq<Op>)
    requires Admissible(c, w) && AllAllowed(c, w, ops)
    ensures Admissible(c, Run(w, ops))
    decreases |ops|
  {
    if ops != [] {
      StepKeepsAdmissible(c, w, ops[0]);
      RunKeepsAdmissible(c, Do(w, ops[0]), ops[1..]);
    }
  }

  lemma ReachableIsAdmissible(c: Config, w: World)
    requires Reachable(c, w)
    ensures Admissible(c, w) && Placed(c, w)
  {
    var ops :| AllAllowed(c, INITIAL_WORLD, ops) && Run(INITIAL_WORLD, ops) == w;
    InitiallyPlaced(c);
    RunKeepsPlaced(c, INITIAL_WORLD, ops);
    RunKeepsAdmissible(c, INITIAL_WORLD, ops);
  }

  /**
   * Ready work stays reachable: unless a requeue is between its move and its SADD, the queue of every waiting message
   * is one the distributor looks at, and its key parses to the plugin that owns that message.
   */
  lemma ReadyWorkIsReachable(c: Config, w: World, m: MessageId, key: string)
    requires Reachable(c, w) && (ReadyQ(key), m) in w.store.zsets && key !in w.owed
    ensures key in w.store.ready
    ensures m in w.minted && w.minted[m].plugin in c.registry && QueueKeys.PluginIdOf(key) == Some(w.minted[m].plugin)
  {
    ReachableIsAdmissible(c, w);
    assert PlacedMessage(c, w, m) && Listed(w, key);
  }

  /** No concurrency set ever exceeds its plugin's cap, in any reachable world. */
  lemma SlotsNeverExceedCap(c: Config, w: World, key: string, plugin: PluginId)
    requires Reachable(c, w) && QueueKeys.PluginIdOf(key) == Some(plugin)
    requires plugin in c.registry && c.registry[plugin].admission.Concurrency?
    ensures QueueKeys.RateLimitKey(key).Some?
    ensures |Occupants(w.store, QueueKeys.RateLimitKey(key).value)| <= c.registry[plugin].admission.maxInFlight
  {
    ReachableIsAdmissible(c, w);
    assert UnderCap(c, w, key);
  }

  /**
   * Slots: a live message is in a concurrency set exactly when its hash carries that key, which is exactly while it is
   * past the ready queue and not in retry, if its plugin caps its messages in flight and the set is its queue's.
   */
  lemma SlotsFollowStatus(c: Config, w: World, m: MessageId, key: string)
    requires RunReaches(c, w) && m in w.store.hashes
    ensures m in w.minted && w.minted[m].plugin in c.registry
    ensures m in Occupants(w.store, key) <==> w.store.hashes[m].slot == Some(key)
    ensures w.store.hashes[m].slot == Some(key) <==>
      && w.store.hashes[m].status in {SentToNs, DeliveredToNs, SentToDevice}
      && c.registry[w.minted[m].plugin].admission.Concurrency?
      && QueueKeys.RateLimitKey(w.minted[m].readyKey) == Some(key)
  {
    RunsAreSound(c, w);
    RunsAreReachable(c, w);
    ReachableIsAdmissible(c, w);
    assert SoundMessage(c, w, m);
  }

  /**
   * A requeue that dies between its move and its SADD leaves a ready queue with work the distributor cannot see
   * exactly when that queue was not already listed.
   */
  lemma CrashedRequeueHidesWorkIff(c: Config, w: World, m: MessageId)
    requires Placed(c, w) && m in w.store.hashes && (RetryQ, m) in w.store.zsets
    ensures m in w.minted && var b := w.minted[m];
      var after := Run(w, [Move(m, RetryQ, ReadyQ(b.readyKey), -b.priority, Queued, None), Restart]);
      && Allowed(c, w, Move(m, RetryQ, ReadyQ(b.readyKey), -b.priority, Queued, None))
      && (ReadyQ(b.readyKey), m) in after.store.zsets
      && (b.readyKey !in after.store.ready <==> b.readyKey !in w.store.ready)
  {
    assert PlacedMessage(c, w, m);
    var b := w.minted[m];
    var move := Move(m, RetryQ, ReadyQ(b.readyKey), -b.priority, Queued, None);
    assert [move, Restart][1..] == [Restart];
    assert Run(w, [move, Restart]) == Run(Do(w, move), [Restart]);
    assert Run(Do(w, move), [Restart]) == Do(Do(w, move), Restart);
  }

  predicate Relists(op: Op, key: string) {
    (op.Insert? && op.body.readyKey == key) || (op.MarkReady? && op.key == key)
  }

  lemma StepKeepsHidden(w: World, op: Op, key: string)
    requires key !in w.store.ready && !Relists(op, key)
    ensures key !in Do(w, op).store.ready
  {
  }

  /** Hidden work stays hidden until an enqueue or another requeue names the same queue. */
  lemma {:induction false} HiddenWorkStaysHidden(w: World, ops: seq<Op>, key: string)
    requires key !in w.store.ready
    requires forall i :: 0 <= i < |ops| ==> !Relists(ops[i], key)
    ensures key !in Run(w, ops).store.ready
    decreases |ops|
  {
    if ops != [] {
      StepKeepsHidden(w, ops[0], key);
      HiddenWorkStaysHidden(Do(w, ops[0]), ops[1..], key);
    }
  }
}
