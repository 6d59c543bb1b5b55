/** Extending a run by one more handler, and what holds of stage members in every run. */
module Continuation {
  import opened Domain
  import opened Stages
  import opened StoreSpec
  import opened World
  import opened Handlers
  import opened OnePlace
  import opened Soundness
  import opened Runs
  import opened Starvation

  lemma {:induction false} EventsAppend(c: Config, w: World, events: seq<Event>, e: Event)
    requires AllEnabled(c, w, events) && Enabled(c, AfterAll(c, w, events), e.handler)
    ensures AllEnabled(c, w, events + [e]) && AfterAll(c, w, events + [e]) == After(c, AfterAll(c, w, events), e)
    decreases |events|
  {
    if events == [] {
      assert [] + [e] == [e] && [e][1..] == [];
    } else {
      assert (events + [e])[1..] == events[1..] + [e];
      EventsAppend(c, After(c, w, events[0]), events[1..], e);
    }
  }

  /** One more enabled handler, completed or cut off, leads from a reached world to a reached world. */
  lemma RunContinues(c: Config, w: World, e: Event)
    requires RunReaches(c, w) && Enabled(c, w, e.handler)
    ensures RunReaches(c, After(c, w, e))
  {
    var events :| AllEnabled(c, INITIAL_WORLD, events) && AfterAll(c, INITIAL_WORLD, events) == w;
    EventsAppend(c, INITIAL_WORLD, events, e);
  }

  lemma RunsBegin(c: Config)
    ensures RunReaches(c, INITIAL_WORLD)
  {
    assert AllEnabled(c, INITIAL_WORLD, []) && AfterAll(c, INITIAL_WORLD, []) == INITIAL_WORLD;
  }

  lemma {:induction false} AllowedAppend(c: Config, w: World, a: seq<Op>, b: seq<Op>)
    requires AllAllowed(c, w, a) && AllAllowed(c, Run(w, a), b)
    ensures AllAllowed(c, w, a + b)
    decreases |a|
  {
    if a == [] {
      assert a + b == b;
    } else {
      assert (a + b)[0] == a[0] && (a + b)[1..] == a[1..] + b;
      AllowedAppend(c, Do(w, a[0]), a[1..], b);
    }
  }

  lemma ReachableOn(c: Config, w: World, ops: seq<Op>)
    requires Reachable(c, w) && AllAllowed(c, w, ops)
    ensures Reachable(c, Run(w, ops))
  {
    var before :| AllAllowed(c, INITIAL_WORLD, before) && Run(INITIAL_WORLD, before) == w;
    AllowedAppend(c, INITIAL_WORLD, before, ops);
    RunAppend(INITIAL_WORLD, before, ops);
  }

  lemma EventKeepsReachable(c: Config, w: World, e: Event)
    requires Sound(c, w) && Reachable(c, w) && Enabled(c, w, e.handler)
    ensures Reachable(c, After(c, w, e))
  {
    var script := Script(c, w, e.handler);
    ScriptIsFresh(c, w, e.handler);
    match e
    case Completes(_) =>
      FreshRunKeepsSound(c, w, script);
      ReachableOn(c, w, script);
    case Crashes(_, done) =>
      var k := if done <= |script| then done else |script|;
      assert script[..|script|] == script;
      FreshPrefix(c, w, script, k);
      FreshRunKeepsSound(c, w, script[..k]);
      ReachableOn(c, w, script[..k]);
      RestartIsAllowed(c, Run(w, script[..k]));
      ReachableOn(c, Run(w, script[..k]), [Restart]);
      RunOne(Run(w, script[..k]), Restart);
  }

  lemma RestartIsAllowed(c: Config, w: World)
    ensures AllAllowed(c, w, [Restart])
  {
    assert [Restart][1..] == [];
  }

  lemma {:induction false} EventsKeepReachable(c: Config, w: World, events: seq<Event>)
    requires Sound(c, w) && Reachable(c, w) && AllEnabled(c, w, events)
    ensures Reachable(c, AfterAll(c, w, events))
    decreases |events|
  {
    if events != [] {
      EventKeepsReachable(c, w, events[0]);
      EventKeepsSound(c, w, events[0]);
      EventsKeepReachable(c, After(c, w, events[0]), events[1..]);
    }
  }

  /** Every world a run of handlers reaches, crashes included, is one the atomic steps reach in some interleaving. */
  lemma RunsAreReachable(c: Config, w: World)
    requires RunReaches(c, w)
    ensures Reachable(c, w)
  {
    var events :| AllEnabled(c, INITIAL_WORLD, events) && AfterAll(c, INITIAL_WORLD, events) == w;
    InitiallySound(c);
    assert AllAllowed(c, INITIAL_WORLD, []) && Run(INITIAL_WORLD, []) == INITIAL_WORLD;
    EventsKeepReachable(c, INITIAL_WORLD, events);
  }

  ghost predicate InSomeStage(w: World, m: MessageId) {
    exists q :: IsStageQueue(q) && (q, m) in w.store.zsets
  }

  ghost predicate StagedWerePicked(w: World) {
    forall m :: InSomeStage(w, m) ==> Picks(w, m) >= 1
  }

  lemma PicksOnlyGrow(w: World, op: Op, m: MessageId)
    ensures Picks(w, m) <= Picks(Do(w, op), m)
  {
  }

  lemma {:induction false} RunPicksOnlyGrow(w: World, ops: seq<Op>, m: MessageId)
    ensures Picks(w, m) <= Picks(Run(w, ops), m)
    decreases |ops|
  {
    if ops != [] {
      PicksOnlyGrow(w, ops[0], m);
      RunPicksOnlyGrow(Do(w, ops[0]), ops[1..], m);
    }
  }

  lemma RetryLeavesAStage(c: Config, w: World, op: Op)
    requires Sound(c, w) && Fresh(c, w, op) && op.CommitRetry?
    ensures InSomeStage(w, op.m)
  {
    assert PlacedMessage(c, w, op.m) && SoundMessage(c, w, op.m);
    assert (op.from, op.m) in w.store.zsets;
  }

  /** A message enters the stages only by being picked. */
  lemma StagedBefore(c: Config, w: World, op: Op, q: QueueKey, m: MessageId)
    requires Sound(c, w) && Fresh(c, w, op) && !op.FetchNext?
    requires IsStageQueue(q) && (q, m) in Do(w, op).store.zsets
    ensures InSomeStage(w, m)
  {
    if (q, m) !in w.store.zsets {
      if op.CommitRetry? {
        RetryLeavesAStage(c, w, op);
      } else {
        assert op.Move? && op.m == m;
        assert (op.from, m) in w.store.zsets;
      }
    }
  }

  lemma PickedIsCounted(w: World, op: Op, q: QueueKey, m: MessageId)
    requires op.FetchNext? && IsStageQueue(q) && (q, m) in Do(w, op).store.zsets && (q, m) !in w.store.zsets
    ensures Picks(Do(w, op), m) >= 1
  {
  }

  lemma StepKeepsStagedPicked(c: Config, w: World, op: Op)
    requires Sound(c, w) && Fresh(c, w, op) && StagedWerePicked(w)
    ensures StagedWerePicked(Do(w, op))
  {
    forall m | InSomeStage(Do(w, op), m) ensures Picks(Do(w, op), m) >= 1 {
      var q :| IsStageQueue(q) && (q, m) in Do(w, op).store.zsets;
      PicksOnlyGrow(w, op, m);
      if op.FetchNext? && (q, m) !in w.store.zsets {
        PickedIsCounted(w, op, q, m);
      } else if !op.FetchNext? {
        StagedBefore(c, w, op, q, m);
      }
    }
  }

  lemma {:induction false} FreshRunKeepsStagedPicked(c: Config, w: World, ops: seq<Op>)
    requires Sound(c, w) && AllFresh(c, w, ops) && StagedWerePicked(w)
    ensures StagedWerePicked(Run(w, ops))
    decreases |ops|
  {
    if ops != [] {
      StepKeepsStagedPicked(c, w, ops[0]);
      StepKeepsSound(c, w, ops[0]);
      FreshRunKeepsStagedPicked(c, Do(w, ops[0]), ops[1..]);
    }
  }

  lemma EventKeepsStagedPicked(c: Config, w: World, e: Event)
    requires Sound(c, w) && Enabled(c, w, e.handler) && StagedWerePicked(w)
    ensures StagedWerePicked(After(c, w, e))
  {
    var script := Script(c, w, e.handler);
    ScriptIsFresh(c, w, e.handler);
    match e
    case Completes(_) => FreshRunKeepsStagedPicked(c, w, script);
    case Crashes(_, done) =>
      var k := if done <= |script| then done else |script|;
      assert script[..|script|] == script;
      FreshPrefix(c, w, script, k);
      FreshRunKeepsStagedPicked(c, w, script[..k]);
      FreshRunKeepsSound(c, w, script[..k]);
      StepKeepsStagedPicked(c, Run(w, script[..k]), Restart);
  }

  lemma {:induction false} EventsKeepStagedPicked(c: Config, w: World, events: seq<Event>)
    requires Sound(c, w) && AllEnabled(c, w, events) && StagedWerePicked(w)
    ensures StagedWerePicked(AfterAll(c, w, events))
    decreases |events|
  {
    if events != [] {
      EventKeepsSound(c, w, events[0]);
      EventKeepsStagedPicked(c, w, events[0]);
      EventsKeepStagedPicked(c, After(c, w, events[0]), events[1..]);
    }
  }

  /** In every run a member of a stage queue has been picked, whether or not its hash is still there. */
  lemma EveryStagedMessageWasPicked(c: Config, w: World, q: QueueKey, m: MessageId)
    requires RunReaches(c, w) && IsStageQueue(q) && (q, m) in w.store.zsets
    ensures Picks(w, m) >= 1
  {
    var events :| AllEnabled(c, INITIAL_WORLD, events) && AfterAll(c, INITIAL_WORLD, events) == w;
    InitiallySound(c);
    EventsKeepStagedPicked(c, INITIAL_WORLD, events);
    assert InSomeStage(w, m);
  }

  /** Whatever was settled at an earlier clock reading still is. */
  ghost predicate NothingFallsDue(a: World, b: World) {
    && a.clock <= b.clock
    && (forall q, x, now :: IsStageQueue(q) && now <= a.clock && Settled(a.store, q, x, now) ==>
      Settled(b.store, q, x, now))
  }

  lemma SettledOnward(a: World, b: World, d: World)
    requires NothingFallsDue(a, b) && NothingFallsDue(b, d)
    ensures NothingFallsDue(a, d)
  {
  }

  lemma {:induction false} AllowedRunIsMonotone(c: Config, w: World, ops: seq<Op>)
    requires AllAllowed(c, w, ops)
    ensures w.clock <= Run(w, ops).clock
    decreases |ops|
  {
    if ops != [] {
      ClockIsMonotone(c, w, ops[0]);
      AllowedRunIsMonotone(c, Do(w, ops[0]), ops[1..]);
    }
  }

  lemma HandlerLetsNothingFallDue(c: Config, w: World, h: Handler)
    requires Sound(c, w) && Enabled(c, w, h)
    ensures NothingFallsDue(w, After(c, w, Completes(h)))
  {
    var script := Script(c, w, h);
    ScriptIsFresh(c, w, h);
    FreshRunKeepsSound(c, w, script);
    AllowedRunIsMonotone(c, w, script);
    forall q, x, now | IsStageQueue(q) && now <= w.clock && Settled(w.store, q, x, now)
      ensures Settled(Run(w, script).store, q, x, now)
    {
      RunKeepsSettled(c, w, script, q, x, now);
    }
  }
}
