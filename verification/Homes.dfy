/** Where live messages are after any run, crashes included, and the one crash that loses one. */
module Homes {
  import opened Domain
  import opened Stages
  import opened StoreSpec
  import opened World
  import opened Handlers
  import opened OnePlace
  import opened Soundness
  import opened Runs
  import opened History

  /** A live message is in the queue its status names. */
  ghost predicate AtHome(c: Config, w: World, m: MessageId) {
    m in w.store.hashes && m in w.minted && w.minted[m].plugin in c.registry ==>
      var home := Home(c, w.minted[m], w.store.hashes[m].status);
      home.Some? && (home.value, m) in w.store.zsets
  }

  /** A message that, while it lives, waits to be sent or retried but is in no queue at all. */
  ghost predicate Adrift(w: World, m: MessageId) {
    m in w.store.hashes ==> w.store.hashes[m].status in {Queued, ToRetry} && forall q :: (q, m) !in w.store.zsets
  }

  /** Not a removal of a live message from a queue that holds it. */
  predicate Retains(w: World, op: Op, m: MessageId) {
    op.Unlist? && op.m == m ==> m !in w.store.hashes || (op.q, m) !in w.store.zsets
  }

  lemma OthersKeepHome(c: Config, w: World, op: Op, m: MessageId)
    requires AtHome(c, w, m) && !Concerns(op, m)
    ensures AtHome(c, Do(w, op), m)
  {
    OthersStayTheSame(w, op, m);
  }

  lemma QuietKeepsHome(c: Config, w: World, op: Op, m: MessageId)
    requires Sound(c, w) && AtHome(c, w, m) && Retains(w, op, m) && IsQuiet(op)
    ensures AtHome(c, Do(w, op), m)
  {
    if !Concerns(op, m) {
      OthersKeepHome(c, w, op, m);
    }
  }

  lemma MoveKeepsHome(c: Config, w: World, op: Op)
    requires Sound(c, w) && Fresh(c, w, op) && op.Move? && AtHome(c, w, op.m)
    ensures AtHome(c, Do(w, op), op.m)
  {
    assert PlacedMessage(c, w, op.m);
    History.MoveKeepsRecord(w, op, op.m);
    if MoveCommits(w.store, op.m, op.from) {
      MoveGoesHome(c, w, op);
    }
  }

  lemma WriteKeepsHome(c: Config, w: World, op: Op)
    requires op.Insert? || op.FetchNext? || op.CommitRetry? || op.Purge?
    requires Sound(c, w) && Fresh(c, w, op) && AtHome(c, w, op.m)
    ensures AtHome(c, Do(w, op), op.m)
  {
    assert PlacedMessage(c, w, op.m) && SoundMessage(c, w, op.m);
  }

  /** A message leaves its home only for its next one, or by a removal. */
  lemma StepKeepsHome(c: Config, w: World, op: Op, m: MessageId)
    requires Sound(c, w) && Fresh(c, w, op) && AtHome(c, w, m) && Retains(w, op, m)
    ensures AtHome(c, Do(w, op), m)
  {
    if !Concerns(op, m) {
      OthersKeepHome(c, w, op, m);
    } else if IsQuiet(op) {
      QuietKeepsHome(c, w, op, m);
    } else if op.Move? {
      MoveKeepsHome(c, w, op);
    } else {
      WriteKeepsHome(c, w, op);
    }
  }

  /** A message in no queue stays in none: every step that adds one to a queue takes it from another. */
  lemma StepKeepsAdrift(c: Config, w: World, op: Op, m: MessageId)
    requires Sound(c, w) && Fresh(c, w, op) && Adrift(w, m) && m in w.minted
    ensures Adrift(Do(w, op), m) && m in Do(w, op).minted
  {
    if !Concerns(op, m) {
      OthersStayTheSame(w, op, m);
    } else {
      assert PlacedMessage(c, w, m) && SoundMessage(c, w, m);
      if op.Move? || op.CommitRetry? {
        assert m in w.store.hashes ==> (op.from, m) !in w.store.zsets;
      }
    }
  }

  ghost predicate AllRetain(w: World, ops: seq<Op>, m: MessageId)
    decreases |ops|
  {
    ops == [] || (Retains(w, ops[0], m) && AllRetain(Do(w, ops[0]), ops[1..], m))
  }

  lemma {:induction false} RunKeepsHome(c: Config, w: World, ops: seq<Op>, m: MessageId)
    requires Sound(c, w) && AllFresh(c, w, ops) && AtHome(c, w, m) && AllRetain(w, ops, m)
    ensures AtHome(c, Run(w, ops), m)
    decreases |ops|
  {
    if ops != [] {
      StepKeepsHome(c, w, ops[0], m);
      StepKeepsSound(c, w, ops[0]);
      RunKeepsHome(c, Do(w, ops[0]), ops[1..], m);
    }
  }

  lemma {:induction false} RunKeepsAdrift(c: Config, w: World, ops: seq<Op>, m: MessageId)
    requires Sound(c, w) && AllFresh(c, w, ops) && Adrift(w, m) && m in w.minted
    ensures Adrift(Run(w, ops), m) && m in Run(w, ops).minted
    decreases |ops|
  {
    if ops != [] {
      StepKeepsAdrift(c, w, ops[0], m);
      StepKeepsSound(c, w, ops[0]);
      RunKeepsAdrift(c, Do(w, ops[0]), ops[1..], m);
    }
  }

  lemma {:induction false} NoRemovalRetains(w: World, ops: seq<Op>, m: MessageId)
    requires forall i :: 0 <= i < |ops| ==> !(ops[i].Unlist? && ops[i].m == m)
    ensures AllRetain(w, ops, m)
    decreases |ops|
  {
    if ops != [] {
      NoRemovalRetains(Do(w, ops[0]), ops[1..], m);
    }
  }

  lemma {:induction false} RetainAppend(w: World, a: seq<Op>, b: seq<Op>, m: MessageId)
    requires AllRetain(w, a, m) && AllRetain(Run(w, a), b, m)
    ensures AllRetain(w, a + b, m)
    decreases |a|
  {
    if a == [] {
      assert a + b == b;
    } else {
      var ab := a + b;
      assert ab[0] == a[0] && ab[1..] == a[1..] + b;
      RetainAppend(Do(w, a[0]), a[1..], b, m);
    }
  }

  lemma {:induction false} RetainPrefix(w: World, ops: seq<Op>, m: MessageId, k: nat)
    requires k <= |ops| && AllRetain(w, ops, m)
    ensures AllRetain(w, ops[..k], m)
    decreases k
  {
    if k > 0 {
      assert ops[..k][1..] == ops[1..][..k - 1];
      RetainPrefix(Do(w, ops[0]), ops[1..], m, k - 1);
    }
  }

  lemma ActionsDoNotUnlist(c: Config, w: World, q: QueueKey, m: MessageId, now: real, reply: Reply, jitter: real)
    requires IsStageQueue(q) && m in w.store.hashes && w.store.hashes[m].body.Some?
    requires w.store.hashes[m].body.value.plugin in c.registry
    ensures var ops := StageAction(c, w, q, m, now, reply, jitter).ops; forall i :: 0 <= i < |ops| ==> !ops[i].Unlist?
  {
  }

  /** A visit removes a live member only from a queue it has already left. */
  lemma VisitRetains(c: Config, w: World, q: QueueKey, m: MessageId, now: real, reply: Reply, jitter: real)
    requires Sound(c, w) && IsStageQueue(q) && ReplyIsOwn(w, m, reply)
    ensures AllRetain(w, Visit(c, w, q, m, now, reply, jitter), m)
  {
    assert SoundMessage(c, w, m);
    if m !in w.store.hashes {
      assert [Unlist(m, q)][1..] == [];
    } else {
      var action := StageAction(c, w, q, m, now, reply, jitter);
      var owed := Obligation(c, w, q, m, now, action.result, jitter);
      ActionsDoNotUnlist(c, w, q, m, now, reply, jitter);
      NoRemovalRetains(w, action.ops, m);
      if action.result == Reports(Orphaned) {
        OrphanedMeansGone(c, w, q, m, now, reply, jitter);
        assert [Unlist(m, q)][1..] == [];
      } else {
        NoRemovalRetains(Run(w, action.ops), owed, m);
      }
      RetainAppend(w, action.ops, owed, m);
    }
  }

  /** A cancel whose claim succeeds: the one script that takes a live message out of its queue before it purges it. */
  ghost predicate Claims(c: Config, w: World, h: Handler, m: MessageId) {
    h.CancelOne? && h.m == m && |Cancel(c, w, m)| == 2
  }

  lemma ScriptRetains(c: Config, w: World, h: Handler, m: MessageId)
    requires Sound(c, w) && Enabled(c, w, h) && !Claims(c, w, h, m)
    ensures AllRetain(w, Script(c, w, h), m)
  {
    if h.Attend? && h.m == m {
      VisitRetains(c, w, h.q, m, h.now, h.reply, h.jitter);
    } else if h.CancelOne? && h.m == m {
      var ops := Cancel(c, w, m);
      assert ops != [] ==> ops[1..] == [];
    } else {
      OthersDoNotUnlist(c, w, h, m);
      NoRemovalRetains(w, Script(c, w, h), m);
    }
  }

  lemma OthersDoNotUnlist(c: Config, w: World, h: Handler, m: MessageId)
    requires Enabled(c, w, h) && !(h.Attend? && h.m == m) && !(h.CancelOne? && h.m == m)
    ensures var ops := Script(c, w, h); forall i :: 0 <= i < |ops| ==> !(ops[i].Unlist? && ops[i].m == m)
  {
    if h.Attend? && h.m in w.store.hashes && w.store.hashes[h.m].body.Some?
       && w.store.hashes[h.m].body.value.plugin in c.registry {
      ActionsDoNotUnlist(c, w, h.q, h.m, h.now, h.reply, h.jitter);
    }
  }

  /** A cancel of `m` that dies between its claim and its purge. */
  ghost predicate ClaimCutOff(c: Config, w: World, e: Event, m: MessageId) {
    e.Crashes? && e.done == 1 && Claims(c, w, e.handler, m)
  }

  lemma ClaimEffects(c: Config, w: World, m: MessageId)
    requires Sound(c, w) && |Cancel(c, w, m)| == 2
    ensures var ops := Cancel(c, w, m);
      && m in w.store.hashes && m in w.minted
      && m in Run(w, ops[..1]).store.hashes && m in Run(w, ops[..1]).minted && Adrift(Run(w, ops[..1]), m)
      && m !in Run(w, ops).store.hashes
  {
    assert PlacedMessage(c, w, m) && SoundMessage(c, w, m);
    var ops := Cancel(c, w, m);
    assert ops[..1] == [ops[0]];
    RunOne(w, ops[0]);
    RunTwo(w, ops[0], ops[1]);
  }

  lemma EventKeepsHome(c: Config, w: World, e: Event, m: MessageId)
    requires Sound(c, w) && Enabled(c, w, e.handler) && AtHome(c, w, m) && !ClaimCutOff(c, w, e, m)
    ensures AtHome(c, After(c, w, e), m)
  {
    var script := Script(c, w, e.handler);
    ScriptIsFresh(c, w, e.handler);
    assert script[..|script|] == script;
    var k := if e.Crashes? && e.done <= |script| then e.done else |script|;
    if Claims(c, w, e.handler, m) {
      ClaimEffects(c, w, m);
      assert script[..0] == [];
      assert k == 0 || k == 2;
    } else {
      ScriptRetains(c, w, e.handler, m);
      FreshPrefix(c, w, script, k);
      RetainPrefix(w, script, m, k);
      RunKeepsHome(c, w, script[..k], m);
    }
  }

  lemma EventKeepsAdrift(c: Config, w: World, e: Event, m: MessageId)
    requires Sound(c, w) && Enabled(c, w, e.handler) && Adrift(w, m) && m in w.minted
    ensures Adrift(After(c, w, e), m) && m in After(c, w, e).minted
  {
    var script := Script(c, w, e.handler);
    ScriptIsFresh(c, w, e.handler);
    assert script[..|script|] == script;
    var k := if e.Crashes? && e.done <= |script| then e.done else |script|;
    FreshPrefix(c, w, script, k);
    RunKeepsAdrift(c, w, script[..k], m);
  }

  lemma CutOffSetsAdrift(c: Config, w: World, e: Event, m: MessageId)
    requires Sound(c, w) && ClaimCutOff(c, w, e, m)
    ensures Adrift(After(c, w, e), m) && m in After(c, w, e).minted && m in After(c, w, e).store.hashes
  {
    ClaimEffects(c, w, m);
  }

  /** Some cancel of `m` in the run was cut off after its claim. */
  ghost predicate WasCutOff(c: Config, w: World, events: seq<Event>, m: MessageId)
    decreases |events|
  {
    events != [] && (ClaimCutOff(c, w, events[0], m) || WasCutOff(c, After(c, w, events[0]), events[1..], m))
  }

  lemma {:induction false} AdriftForGood(c: Config, w: World, events: seq<Event>, m: MessageId)
    requires Sound(c, w) && AllEnabled(c, w, events) && Adrift(w, m) && m in w.minted
    ensures Adrift(AfterAll(c, w, events), m)
    decreases |events|
  {
    if events != [] {
      EventKeepsSound(c, w, events[0]);
      EventKeepsAdrift(c, w, events[0], m);
      AdriftForGood(c, After(c, w, events[0]), events[1..], m);
    }
  }

  lemma {:induction false} HomeUnlessCutOff(c: Config, w: World, events: seq<Event>, m: MessageId)
    requires Sound(c, w) && AllEnabled(c, w, events) && AtHome(c, w, m)
    ensures if WasCutOff(c, w, events, m) then Adrift(AfterAll(c, w, events), m)
      else AtHome(c, AfterAll(c, w, events), m)
    decreases |events|
  {
    if events != [] {
      EventKeepsSound(c, w, events[0]);
      var next := After(c, w, events[0]);
      if ClaimCutOff(c, w, events[0], m) {
        CutOffSetsAdrift(c, w, events[0], m);
        AdriftForGood(c, next, events[1..], m);
      } else {
        EventKeepsHome(c, w, events[0], m);
        HomeUnlessCutOff(c, next, events[1..], m);
      }
    }
  }

  /**
   * No lost message, exactly: after any run, with any crashes, a live message is in the queue its status names, and in
   * no other, unless a cancel of it died between its claim and its purge; then it is in no queue, for good.
   */
  lemma LiveMessageIsQueuedIff(c: Config, events: seq<Event>, m: MessageId)
    requires AllEnabled(c, INITIAL_WORLD, events) && m in AfterAll(c, INITIAL_WORLD, events).store.hashes
    ensures var w := AfterAll(c, INITIAL_WORLD, events);
      && m in w.minted && w.minted[m].plugin in c.registry
      && Home(c, w.minted[m], w.store.hashes[m].status).Some?
      && var home := Home(c, w.minted[m], w.store.hashes[m].status).value;
         && ((home, m) in w.store.zsets <==> !WasCutOff(c, INITIAL_WORLD, events, m))
         && (forall q :: (q, m) in w.store.zsets ==> q == home)
  {
    InitiallySound(c);
    EventsKeepSound(c, INITIAL_WORLD, events);
    HomeUnlessCutOff(c, INITIAL_WORLD, events, m);
    var w := AfterAll(c, INITIAL_WORLD, events);
    assert SoundMessage(c, w, m) && PlacedMessage(c, w, m);
  }

  /** Whatever crashed, a message the network server or the device holds is in the queue of its stage. */
  lemma InFlightMessageIsQueued(c: Config, w: World, m: MessageId)
    requires RunReaches(c, w) && m in w.store.hashes && InFlight(w.store.hashes[m].status)
    ensures m in w.minted && w.minted[m].plugin in c.registry
    ensures var home := Home(c, w.minted[m], w.store.hashes[m].status); home.Some? && (home.value, m) in w.store.zsets
  {
    var events :| AllEnabled(c, INITIAL_WORLD, events) && AfterAll(c, INITIAL_WORLD, events) == w;
    InitiallySound(c);
    HomeUnlessCutOff(c, INITIAL_WORLD, events, m);
    LiveMessageIsQueuedIff(c, events, m);
  }
}
