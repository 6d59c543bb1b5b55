/** One place per message, and no way back: what every interleaving of atomic steps keeps. */
module OnePlace {
  import opened Domain
  import opened Stages
  import opened StoreSpec
  import opened World

  ghost predicate InOneQueue(s: Store, m: MessageId) {
    forall q1, q2 :: (q1, m) in s.zsets && (q2, m) in s.zsets ==> q1 == q2
  }

  /** A queue the sweep list of `b` covers. */
  predicate Sweepable(b: Body, q: QueueKey) {
    q in PurgeKeys(b)
  }

  /** Where `m` may be: one queue; a sweepable one; and, while its hash lives, the one its status names. */
  ghost predicate PlacedMessage(c: Config, w: World, m: MessageId) {
    && InOneQueue(w.store, m)
    && (m in w.minted ==> w.minted[m].plugin in c.registry)
    && (m in w.store.hashes ==>
          m in w.minted && (w.store.hashes[m].body.Some? ==> w.store.hashes[m].body.value == w.minted[m]))
    && (forall q :: (q, m) in w.store.zsets ==>
          && m in w.minted
          && Sweepable(w.minted[m], q)
          && (m in w.store.hashes ==> Home(c, w.minted[m], w.store.hashes[m].status) == Some(q)))
    && (m in w.purged ==> m !in w.store.hashes && forall q :: (q, m) !in w.store.zsets)
    && (m in w.purged ==> m in w.minted)
  }

  ghost predicate Placed(c: Config, w: World) {
    forall m :: PlacedMessage(c, w, m)
  }

  lemma InitiallyPlaced(c: Config)
    ensures Placed(c, INITIAL_WORLD)
  {
  }

  lemma SameMessageIsPlaced(c: Config, a: World, b: World, x: MessageId)
    requires PlacedMessage(c, a, x) && SameMessage(a, b, x)
    ensures PlacedMessage(c, b, x)
  {
  }

  lemma InsertKeepsPlaced(c: Config, w: World, op: Op)
    requires op.Insert? && PlacedMessage(c, w, op.m) && Allowed(c, w, op)
    ensures PlacedMessage(c, Do(w, op), op.m)
  {
  }

  lemma FetchKeepsPlaced(c: Config, w: World, op: Op)
    requires op.FetchNext? && PlacedMessage(c, w, op.m) && Allowed(c, w, op)
    ensures PlacedMessage(c, Do(w, op), op.m)
  {
  }

  lemma MissedMoveKeepsPlaced(c: Config, w: World, op: Op)
    requires op.Move? && PlacedMessage(c, w, op.m) && !MoveCommits(w.store, op.m, op.from)
    ensures PlacedMessage(c, Do(w, op), op.m)
  {
  }

  /** The target of an engine move is the home of the status it writes, and is swept by a purge. */
  lemma EngineMoveGoesHome(c: Config, b: Body, from: QueueKey, to: QueueKey, status: Status, d: Option<ExternalId>)
    requires b.plugin in c.registry && EngineMove(c, b, from, to, status, d)
    ensures Home(c, b, status) == Some(to) && Sweepable(b, to)
  {
  }

  /** A committed move leaves its message in the target queue only, with the status it wrote. */
  lemma CommittedMoveEffect(w: World, op: Op)
    requires op.Move? && MoveCommits(w.store, op.m, op.from)
    ensures var after := Do(w, op);
      && after.minted == w.minted && after.purged == w.purged
      && (forall q :: (q, op.m) in after.store.zsets <==> q == op.to || ((q, op.m) in w.store.zsets && q != op.from))
      && op.m in after.store.hashes && after.store.hashes[op.m].status == op.status
      && after.store.hashes[op.m].body == w.store.hashes[op.m].body
  {
  }

  lemma CommittedMoveKeepsPlaced(c: Config, w: World, op: Op)
    requires op.Move? && PlacedMessage(c, w, op.m) && Allowed(c, w, op) && MoveCommits(w.store, op.m, op.from)
    ensures PlacedMessage(c, Do(w, op), op.m)
  {
    CommittedMoveEffect(w, op);
    EngineMoveGoesHome(c, w.minted[op.m], op.from, op.to, op.status, op.externalId);
    assert forall q :: (q, op.m) in w.store.zsets ==> q == op.from;
  }

  lemma MoveKeepsPlaced(c: Config, w: World, op: Op)
    requires op.Move? && PlacedMessage(c, w, op.m) && Allowed(c, w, op)
    ensures PlacedMessage(c, Do(w, op), op.m)
  {
    if MoveCommits(w.store, op.m, op.from) {
      CommittedMoveKeepsPlaced(c, w, op);
    } else {
      MissedMoveKeepsPlaced(c, w, op);
    }
  }

  lemma RetryKeepsPlaced(c: Config, w: World, op: Op)
    requires op.CommitRetry? && PlacedMessage(c, w, op.m) && Allowed(c, w, op)
    ensures PlacedMessage(c, Do(w, op), op.m)
  {
  }

  lemma PurgeKeepsPlaced(c: Config, w: World, op: Op)
    requires op.Purge? && PlacedMessage(c, w, op.m) && Allowed(c, w, op)
    ensures PlacedMessage(c, Do(w, op), op.m)
  {
  }

  lemma QuietKeepsPlaced(c: Config, w: World, op: Op, x: MessageId)
    requires PlacedMessage(c, w, x) && Allowed(c, w, op)
    requires !op.Insert? && !op.FetchNext? && !op.Move? && !op.CommitRetry? && !op.Purge?
    ensures PlacedMessage(c, Do(w, op), x)
  {
  }

  /** One allowed step keeps one message in place. */
  lemma StepKeepsPlaced(c: Config, w: World, op: Op, x: MessageId)
    requires PlacedMessage(c, w, x) && Allowed(c, w, op)
    ensures PlacedMessage(c, Do(w, op), x)
  {
    if !Concerns(op, x) {
      OthersStayTheSame(w, op, x);
      SameMessageIsPlaced(c, w, Do(w, op), x);
    } else {
      match op
      case Insert(_, _) => InsertKeepsPlaced(c, w, op);
      case FetchNext(_, _, _, _) => FetchKeepsPlaced(c, w, op);
      case Move(_, _, _, _, _, _) => MoveKeepsPlaced(c, w, op);
      case CommitRetry(_, _, _, _, _) => RetryKeepsPlaced(c, w, op);
      case Purge(_, _, _) => PurgeKeepsPlaced(c, w, op);
      case _ => QuietKeepsPlaced(c, w, op, x);
    }
  }

  lemma {:induction false} RunKeepsPlaced(c: Config, w: World, ops: seq<Op>)
    requires Placed(c, w) && AllAllowed(c, w, ops)
    ensures Placed(c, Run(w, ops))
    decreases |ops|
  {
    if ops != [] {
      forall x ensures PlacedMessage(c, Do(w, ops[0]), x) {
        assert PlacedMessage(c, w, x);
        StepKeepsPlaced(c, w, ops[0], x);
      }
      RunKeepsPlaced(c, Do(w, ops[0]), ops[1..]);
    }
  }

  /**
   * One place: in every world any interleaving reaches, a message is in at most one queue, and a live one only in the
   * queue its status and its plugin's pattern name.
   */
  lemma EveryReachableMessageIsPlaced(c: Config, w: World, m: MessageId, q1: QueueKey, q2: QueueKey)
    requires Reachable(c, w)
    requires (q1, m) in w.store.zsets && (q2, m) in w.store.zsets
    ensures q1 == q2
    ensures m in w.minted && w.minted[m].plugin in c.registry
    ensures m in w.store.hashes ==> Home(c, w.minted[m], w.store.hashes[m].status) == Some(q1)
  {
    var ops :| AllAllowed(c, INITIAL_WORLD, ops) && Run(INITIAL_WORLD, ops) == w;
    InitiallyPlaced(c);
    RunKeepsPlaced(c, INITIAL_WORLD, ops);
    assert PlacedMessage(c, w, m);
  }

  lemma {:induction false} PurgedStaysPurged(w: World, ops: seq<Op>, m: MessageId)
    requires m in w.purged
    ensures m in Run(w, ops).purged
    decreases |ops|
  {
    if ops != [] {
      PurgedStaysPurged(Do(w, ops[0]), ops[1..], m);
    }
  }

  /** No resurrection: once purged, an id is in no hash and no queue after any further interleaving. */
  lemma NoResurrection(c: Config, w: World, ops: seq<Op>, m: MessageId)
    requires Placed(c, w) && AllAllowed(c, w, ops) && m in w.purged
    ensures var s := Run(w, ops).store; m !in s.hashes && forall q :: (q, m) !in s.zsets
  {
    RunKeepsPlaced(c, w, ops);
    PurgedStaysPurged(w, ops, m);
    assert PlacedMessage(c, Run(w, ops), m);
  }

  ghost function AfterUngatedRetry(w: World, m: MessageId, from: QueueKey, retries: nat, history: seq<Failure>,
                                   dueAt: real, d: Option<ExternalId>, slot: Option<string>): World
  {
    w.(store := WriteRetry(w.store, m, from, retries, history, dueAt, d, slot))
  }

  /**
   * The retry write as the code issues it: its membership check ran earlier, so by now anything may have happened.
   * It keeps every message in place exactly when `m` was not purged meanwhile and no queue but `from` or the retry
   * queue holds it, which the check, repeated at this moment, would have established.
   */
  lemma UngatedRetryKeepsPlacedIff(c: Config, w: World, m: MessageId, from: QueueKey, retries: nat,
                                   history: seq<Failure>, dueAt: real, d: Option<ExternalId>, slot: Option<string>)
    requires Placed(c, w) && m in w.minted
    ensures Placed(c, AfterUngatedRetry(w, m, from, retries, history, dueAt, d, slot))
      <==> m !in w.purged && forall q :: (q, m) in w.store.zsets ==> q in {from, RetryQ}
    ensures (from, m) in w.store.zsets ==> m !in w.purged && forall q :: (q, m) in w.store.zsets ==> q in {from, RetryQ}
  {
    var after := AfterUngatedRetry(w, m, from, retries, history, dueAt, d, slot);
    assert PlacedMessage(c, w, m);
    assert (RetryQ, m) in after.store.zsets;
    if m !in w.purged && forall q :: (q, m) in w.store.zsets ==> q in {from, RetryQ} {
      forall x ensures PlacedMessage(c, after, x) {
        assert PlacedMessage(c, w, x);
      }
    } else if m !in w.purged {
      var q :| (q, m) in w.store.zsets && q !in {from, RetryQ};
      assert (q, m) in after.store.zsets;
      assert !PlacedMessage(c, after, m);
    } else {
      assert !PlacedMessage(c, after, m);
    }
  }

  /**
   * The interleaving the split leaves open, for every message waiting in a stage queue: its membership check passes,
   * another handler purges it, and the retry write lands. The purged id is back, as a hash without its device.
   */
  lemma SplitRetryResurrects(c: Config, w: World, m: MessageId, from: QueueKey, seen: Hash, history: seq<Failure>,
                             dueAt: real)
    requires Placed(c, w) && (from, m) in w.store.zsets && m in w.store.hashes
    requires seen == w.store.hashes[m] && seen.body.Some?
    ensures var purged := Do(w, Purge(m, seen, Resolved));
      var after := AfterUngatedRetry(purged, m, from, seen.retryCount, history, dueAt, seen.externalId, seen.slot);
      && Allowed(c, w, Purge(m, seen, Resolved))
      && m in after.purged && (RetryQ, m) in after.store.zsets
      && m in after.store.hashes && after.store.hashes[m].body.None?
  {
    assert PlacedMessage(c, w, m);
  }

  /**
   * Even with its guard at the write, entering retry recreates a hash without a body exactly when the hash had expired.
   */
  lemma RetryLeavesBodylessHashIff(c: Config, w: World, m: MessageId, from: QueueKey, retries: nat,
                                   history: seq<Failure>, dueAt: real)
    requires Placed(c, w) && (from, m) in w.store.zsets
    requires m in w.store.hashes ==> w.store.hashes[m].body.Some?
    ensures var s := Do(w, CommitRetry(m, from, retries, history, dueAt)).store;
      && m in s.hashes && (RetryQ, m) in s.zsets
      && (s.hashes[m].body.None? <==> m !in w.store.hashes)
  {
  }
}
