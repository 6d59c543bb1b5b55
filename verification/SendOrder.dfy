/** The order in which waiting messages are sent: by priority, and then by age. */
module SendOrder {
  import opened Domain
  import opened StoreSpec
  import opened World
  import opened Handlers
  import opened OnePlace
  import opened Soundness
  import opened Runs

  /** In a ready queue a message is in its own, and scored by its priority, the highest coming first. */
  ghost predicate Ranked(w: World, m: MessageId) {
    forall key :: (ReadyQ(key), m) in w.store.zsets ==>
      m in w.minted && w.minted[m].readyKey == key && w.store.zsets[(ReadyQ(key), m)] == -w.minted[m].priority
  }

  lemma OthersKeepRanked(w: World, op: Op, m: MessageId)
    requires Ranked(w, m) && !Concerns(op, m)
    ensures Ranked(Do(w, op), m)
  {
    OthersKeepMembership(w, op, m);
    forall key | (ReadyQ(key), m) in Do(w, op).store.zsets
      ensures (ReadyQ(key), m) in w.store.zsets
      ensures Do(w, op).store.zsets[(ReadyQ(key), m)] == w.store.zsets[(ReadyQ(key), m)]
    {
      OthersKeepReadyScore(w, op, m, key);
    }
  }

  lemma OthersKeepReadyScore(w: World, op: Op, m: MessageId, key: string)
    requires !Concerns(op, m) && (ReadyQ(key), m) in Do(w, op).store.zsets
    ensures (ReadyQ(key), m) in w.store.zsets
    ensures Do(w, op).store.zsets[(ReadyQ(key), m)] == w.store.zsets[(ReadyQ(key), m)]
  {
    OthersKeepQueues(w, op, m, ReadyQ(key));
  }

  lemma OwnStepKeepsRanked(c: Config, w: World, op: Op, m: MessageId)
    requires Ranked(w, m) && PlacedMessage(c, w, m) && Allowed(c, w, op) && Concerns(op, m)
    ensures Ranked(Do(w, op), m)
  {
    match op
    case Insert(_, _) =>
    case Move(_, from, to, _, _, _) => MoveKeepsRanked(c, w, op, m);
    case FetchNext(_, _, _, _) =>
    case CommitRetry(_, _, _, _, _) =>
    case Purge(_, _, _) =>
    case _ =>
  }

  lemma MoveKeepsRanked(c: Config, w: World, op: Op, m: MessageId)
    requires op.Move? && op.m == m && Ranked(w, m) && Allowed(c, w, op)
    ensures Ranked(Do(w, op), m)
  {
  }

  lemma {:induction false} RunKeepsRanked(c: Config, w: World, ops: seq<Op>, m: MessageId)
    requires Placed(c, w) && Ranked(w, m) && AllAllowed(c, w, ops)
    ensures Ranked(Run(w, ops), m)
    decreases |ops|
  {
    if ops != [] {
      assert PlacedMessage(c, w, m);
      if Concerns(ops[0], m) {
        OwnStepKeepsRanked(c, w, ops[0], m);
      } else {
        OthersKeepRanked(w, ops[0], m);
      }
      forall x ensures PlacedMessage(c, Do(w, ops[0]), x) {
        assert PlacedMessage(c, w, x);
        StepKeepsPlaced(c, w, ops[0], x);
      }
      RunKeepsRanked(c, Do(w, ops[0]), ops[1..], m);
    }
  }

  lemma ReachableIsRanked(c: Config, w: World, m: MessageId)
    requires Reachable(c, w)
    ensures Ranked(w, m)
  {
    var ops :| AllAllowed(c, INITIAL_WORLD, ops) && Run(INITIAL_WORLD, ops) == w;
    InitiallyPlaced(c);
    RunKeepsRanked(c, INITIAL_WORLD, ops, m);
  }

  /** `m` waits in the ready queue `key`, and every other message that waits there is less urgent or younger. */
  ghost predicate FirstInLine(w: World, key: string, m: MessageId) {
    && (ReadyQ(key), m) in w.store.zsets && m in w.minted
    && (forall x :: (ReadyQ(key), x) in w.store.zsets && x != m ==> x in w.minted && GoesBefore(w, m, x))
  }

  ghost predicate GoesBefore(w: World, m: MessageId, x: MessageId)
    requires m in w.minted && x in w.minted
  {
    || w.minted[x].priority < w.minted[m].priority
    || (w.minted[x].priority == w.minted[m].priority
        && (m.time < x.time || (m.time == x.time && m.entropy < x.entropy)))
  }

  /**
   * Send order: under every interleaving, with any requeues and retries, the head of a ready queue has the highest
   * priority waiting there, and is the oldest of those.
   */
  lemma HeadIsFirstInLine(c: Config, w: World, key: string, m: MessageId)
    requires Reachable(c, w)
    ensures IsHead(w.store, ReadyQ(key), m) <==> FirstInLine(w, key, m)
  {
    forall x ensures Ranked(w, x) {
      ReachableIsRanked(c, w, x);
    }
    if FirstInLine(w, key, m) {
      forall x | (ReadyQ(key), x) in w.store.zsets && x != m ensures Before(w.store, ReadyQ(key), m, x) {
        assert Ranked(w, m) && Ranked(w, x);
      }
    }
    if IsHead(w.store, ReadyQ(key), m) {
      assert Ranked(w, m);
      forall x | (ReadyQ(key), x) in w.store.zsets && x != m ensures x in w.minted && GoesBefore(w, m, x) {
        assert Ranked(w, x) && Before(w.store, ReadyQ(key), m, x);
      }
    }
  }
}
