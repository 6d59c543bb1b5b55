/** The tick: every stage queue drained once, then a distribute pass. */
module Runner {
  import opened Domain
  import opened Stages
  import opened StoreSpec
  import opened World
  import opened Handlers
  import opened Soundness
  import opened Runs
  import opened Continuation
  import opened Starvation
  import opened Drain
  import opened RedisPort
  import opened Moves
  import opened Engine
  import opened Outgoing

  /** What the vendor answers a stage action, and what it answers a poll of a task. */
  datatype VendorAnswer =
    | Silent
    | Threw
    | StillQueued(failed: bool)
    | TaskStatus(status: Status, failure: Option<FailureContext>)

  /** One member's turn in a drain: how long it takes to come, what the vendor says, and the backoff's draw. */
  datatype Turn = Turn(delay: real, answer: VendorAnswer, jitter: real)

  predicate ValidTurn(t: Turn) {
    t.delay >= 0.0 && ValidJitter(t.jitter)
  }

  /** A status poll is answered with an event that carries the polled message's own external id. */
  function ReplyOf(s: Store, m: MessageId, answer: VendorAnswer): Reply {
    match answer
    case Silent => NoReply
    case Threw => ReplyThrew
    case StillQueued(failed) => RemoteStatus(failed)
    case TaskStatus(status, failure) =>
      Reported(IncomingEvent(if m in s.hashes then s.hashes[m].externalId else None, status, false, failure))
  }

  /** The members of a queue that are due at `now`. */
  ghost function Due(s: Store, q: QueueKey, now: real): set<MessageId> {
    set k | k in s.zsets && k.0 == q && s.zsets[k] <= now :: k.1
  }

  lemma DueMembers(s: Store, q: QueueKey, now: real, x: MessageId)
    ensures x in Due(s, q, now) <==> (q, x) in s.zsets && s.zsets[(q, x)] <= now
    ensures x in Due(s, q, now) <==> !Settled(s, q, x, now)
  {
    if (q, x) in s.zsets && s.zsets[(q, x)] <= now {
      assert (q, x).1 in Due(s, q, now);
    }
  }

  /** How many due members a drain leaves: none of fifty or fewer, fifty fewer of more. */
  function LeftDue(due: nat): nat {
    if due <= 50 then 0 else due - 50
  }

  lemma DrainShrinksDue(s: Store, after: Store, q: QueueKey, now: real, batch: seq<MessageId>)
    requires IsDueBatch(s, q, now, batch)
    requires forall x :: x in batch ==> Settled(after, q, x, now)
    requires forall x :: Settled(s, q, x, now) ==> Settled(after, q, x, now)
    ensures |Due(after, q, now)| <= LeftDue(|Due(s, q, now)|)
  {
    var attended := set x | x in batch;
    var before := Due(s, q, now);
    DistinctCount(batch);
    forall x ensures x in attended ==> x in before {
      DueMembers(s, q, now, x);
    }
    forall x | x in Due(after, q, now) ensures x in before - attended {
      DueMembers(after, q, now, x);
      DueMembers(s, q, now, x);
    }
    CardinalityAfterLeaving(before, Due(after, q, now), attended);
    if |batch| < BATCH_SIZE {
      forall x | x in before ensures x in attended {
        DueMembers(s, q, now, x);
      }
      assert before - attended == {};
      assert Due(after, q, now) == {};
    }
  }

  lemma DueOnlyShrinks(a: World, b: World, q: QueueKey, now: real)
    requires NothingFallsDue(a, b) && IsStageQueue(q) && now <= a.clock
    ensures |Due(b.store, q, now)| <= |Due(a.store, q, now)|
  {
    forall x ensures x in Due(b.store, q, now) ==> x in Due(a.store, q, now) {
      DueMembers(a.store, q, now, x);
      DueMembers(b.store, q, now, x);
    }
    Smaller(Due(b.store, q, now), Due(a.store, q, now));
  }

  /** A tick that began in `w` has drained the row `q` by `v`. */
  ghost predicate Drained(w: World, v: World, q: QueueKey, now: real) {
    |Due(v.store, q, now)| <= LeftDue(|Due(w.store, q, now)|)
  }

  /** One turn settles its member, whatever became of it since the due list was read. */
  lemma TurnSettles(c: Config, w: World, q: QueueKey, m: MessageId, now: real, reply: Reply, jitter: real)
    requires RunReaches(c, w) && Enabled(c, w, Handler.Attend(q, m, now, reply, jitter))
    ensures Settled(After(c, w, Completes(Handler.Attend(q, m, now, reply, jitter))).store, q, m, now)
  {
    RunsAreSound(c, w);
    RunsHaveNoUnloadableHash(c, w, q, m);
    if Settled(w.store, q, m, now) {
      HandlerLetsNothingFallDue(c, w, Handler.Attend(q, m, now, reply, jitter));
    } else {
      VisitSettlesIff(c, w, q, m, now, reply, jitter);
    }
  }

  lemma ReplyIsMessagesOwn(w: World, m: MessageId, answer: VendorAnswer)
    ensures ReplyIsOwn(w, m, ReplyOf(w.store, m, answer))
  {
  }

  lemma AttendFacts(c: Config, w: World, q: QueueKey, m: MessageId, now: real, reply: Reply, jitter: real)
    requires RunReaches(c, w) && Enabled(c, w, Handler.Attend(q, m, now, reply, jitter))
    ensures var after := After(c, w, Completes(Handler.Attend(q, m, now, reply, jitter)));
      && NothingFallsDue(w, after) && Settled(after.store, q, m, now)
      && (forall x :: Picks(w, x) <= Picks(after, x))
  {
    RunsAreSound(c, w);
    var visit := Handler.Attend(q, m, now, reply, jitter);
    HandlerLetsNothingFallDue(c, w, visit);
    TurnSettles(c, w, q, m, now, reply, jitter);
    forall x ensures Picks(w, x) <= Picks(After(c, w, Completes(visit)), x) {
      RunPicksOnlyGrow(w, Script(c, w, visit), x);
    }
  }

  class LifecycleRunner {
    const outgoing: OutgoingService
    const engine: DeliveryEngine
    /** Queues whose drain is still in progress. */
    var draining: set<QueueKey>

    ghost function Now(): World
      reads engine.moves
    {
      engine.Now()
    }

    ghost predicate Valid()
      reads this, outgoing, engine.moves, engine.moves.redis, engine.moves.sends
    {
      outgoing.engine == engine && outgoing.Valid()
    }

    constructor (outgoing: OutgoingService)
      requires outgoing.Valid()
      ensures Valid() && this.outgoing == outgoing && draining == {}
    {
      this.outgoing, engine, draining := outgoing, outgoing.engine, {};
    }

    /** Time passes before a turn. */
    method Await(delay: real)
      requires engine.Valid() && delay >= 0.0
      modifies engine.moves`world, engine.moves`clock
      ensures engine.Valid() && NothingFallsDue(old(Now()), Now()) && Now() == old(Now()).(clock := engine.moves.clock)
    {
      ghost var w := Now();
      var until := engine.moves.clock + delay;
      RunsAreSound(engine.config, w);
      HandlerLetsNothingFallDue(engine.config, w, Environment(Elapse(until)));
      RunOne(w, Elapse(until));
      engine.Elapse(until);
    }

    /** One member's turn: time passes, the vendor answers, the member is attended. */
    method TakeTurn(q: QueueKey, m: MessageId, now: real, turn: Turn)
      requires engine.Valid() && IsStageQueue(q) && now <= engine.moves.clock && ValidTurn(turn) && Picks(Now(), m) >= 1
      modifies engine.moves`world, engine.moves`clock, engine.moves`log, engine.moves.redis
      ensures engine.Valid() && NothingFallsDue(old(Now()), Now()) && Settled(Now().store, q, m, now)
      ensures engine.moves.redis.locks == old(engine.moves.redis.locks)
      ensures forall x :: Picks(old(Now()), x) <= Picks(Now(), x)
    {
      ghost var w := Now();
      Await(turn.delay);
      assert forall x :: Picks(w, x) == Picks(Now(), x);
      ghost var mid := Now();
      var reply := ReplyOf(engine.moves.redis.State(), m, turn.answer);
      ReplyIsMessagesOwn(mid, m, turn.answer);
      AttendFacts(engine.config, mid, q, m, now, reply, turn.jitter);
      engine.Attend(q, m, now, reply, turn.jitter);
      SettledOnward(w, mid, Now());
    }

    /** A drain settles every member of its batch, so it leaves at most the due members beyond the first fifty. */
    method Drain(q: QueueKey, now: real, turns: MessageId -> Turn)
      requires engine.Valid() && IsStageQueue(q) && now <= engine.moves.clock && forall m :: ValidTurn(turns(m))
      modifies engine.moves`world, engine.moves`clock, engine.moves`log, engine.moves.redis
      ensures engine.Valid() && NothingFallsDue(old(Now()), Now())
      ensures engine.moves.redis.locks == old(engine.moves.redis.locks)
      ensures |Due(Now().store, q, now)| <= LeftDue(|Due(old(Now()).store, q, now)|)
    {
      ghost var w := Now();
      var ids := engine.moves.redis.GetExpiredMessagesInQueue(q, now);
      forall m | m in ids ensures Picks(w, m) >= 1 {
        EveryStagedMessageWasPicked(engine.config, w, q, m);
      }
      TakeTurns(q, ids, now, turns);
      DrainShrinksDue(w.store, Now().store, q, now, ids);
    }

    ghost predicate AllPicked(w: World, ids: seq<MessageId>) {
      forall m :: m in ids ==> Picks(w, m) >= 1
    }

    ghost predicate AllSettled(w: World, q: QueueKey, ids: seq<MessageId>, now: real) {
      forall m :: m in ids ==> Settled(w.store, q, m, now)
    }

    lemma OneMoreSettled(w: World, v: World, q: QueueKey, ids: seq<MessageId>, i: nat, now: real)
      requires i < |ids| && IsStageQueue(q) && now <= w.clock && NothingFallsDue(w, v)
      requires AllSettled(w, q, ids[..i], now) && Settled(v.store, q, ids[i], now)
      ensures AllSettled(v, q, ids[..i + 1], now)
    {
      assert ids[..i + 1] == ids[..i] + [ids[i]];
    }

    /** The turns of a due list, in order. */
    method TakeTurns(q: QueueKey, ids: seq<MessageId>, now: real, turns: MessageId -> Turn)
      requires engine.Valid() && IsStageQueue(q) && now <= engine.moves.clock && forall m :: ValidTurn(turns(m))
      requires AllPicked(Now(), ids)
      modifies engine.moves`world, engine.moves`clock, engine.moves`log, engine.moves.redis
      ensures engine.Valid() && NothingFallsDue(old(Now()), Now())
      ensures engine.moves.redis.locks == old(engine.moves.redis.locks)
      ensures AllSettled(Now(), q, ids, now)
    {
      ghost var w := Now();
      for i := 0 to |ids|
        invariant engine.Valid() && now <= engine.moves.clock && NothingFallsDue(w, Now())
        invariant engine.moves.redis.locks == old(engine.moves.redis.locks)
        invariant AllPicked(Now(), ids) && AllSettled(Now(), q, ids[..i], now)
      {
        ghost var mid := Now();
        assert ids[i] in ids;
        TakeTurn(q, ids[i], now, turns(ids[i]));
        SettledOnward(w, mid, Now());
        OneMoreSettled(mid, Now(), q, ids, i, now);
      }
      assert ids[..|ids|] == ids;
    }

    /** The ids of the registered PULL plugins. */
    method PullPluginIds() returns (ids: seq<PluginId>)
      ensures forall p :: p in ids <==> p in engine.config.registry && engine.config.registry[p].pattern == Pull
    {
      ids := [];
      var rest := engine.config.registry.Keys;
      while rest != {}
        invariant rest <= engine.config.registry.Keys
        invariant forall p :: p in ids <==>
          p in engine.config.registry && p !in rest && engine.config.registry[p].pattern == Pull
        decreases |rest|
      {
        var p :| p in rest;
        rest := rest - {p};
        if engine.config.registry[p].pattern == Pull {
          ids := ids + [p];
        }
      }
    }

    /** The queues a tick looks after. */
    predicate IsRow(q: QueueKey) {
      q in {NsQ, RelayQ, DeviceQ, RetryQ}
      || (q.TaskQ? && q.plugin in engine.config.registry && engine.config.registry[q.plugin].pattern == Pull)
    }

    /** A row is skipped while its previous drain is still in progress. */
    method DrainRow(q: QueueKey, now: real, turns: MessageId -> Turn)
      requires engine.Valid() && IsStageQueue(q) && now <= engine.moves.clock && forall m :: ValidTurn(turns(m))
      modifies `draining, engine.moves`world, engine.moves`clock, engine.moves`log, engine.moves.redis
      ensures engine.Valid() && NothingFallsDue(old(Now()), Now()) && draining == old(draining)
      ensures engine.moves.redis.locks == old(engine.moves.redis.locks)
      ensures q !in draining ==> |Due(Now().store, q, now)| <= LeftDue(|Due(old(Now()).store, q, now)|)
    {
      if q !in draining {
        draining := draining + {q};
        Drain(q, now, turns);
        draining := draining - {q};
      }
    }

    /**
     * One tick: every row whose previous drain is over is drained at the tick's one clock reading, and then ready work
     * is distributed: each queue listed by then is passed over once.
     */
    method Tick(turns: MessageId -> Turn)
      returns (ghost drained: World, ghost keys: seq<string>, ghost passes: seq<Event>)
      requires Valid() && forall m :: ValidTurn(turns(m))
      modifies `draining, outgoing, engine.moves`world, engine.moves`clock, engine.moves`log, engine.moves.redis,
        engine.moves.sends
      ensures Valid() && draining == old(draining) && NothingFallsDue(old(Now()), Now())
      ensures forall q :: IsRow(q) && q !in draining ==> Drained(old(Now()), Now(), q, old(engine.moves.clock))
      ensures NothingFallsDue(old(Now()), drained) && drained.clock == engine.moves.clock
      ensures forall key :: key in keys <==> key in drained.store.ready
      ensures PassedOver(engine.config, drained, Now(), old(engine.moves.redis.locks), keys, passes)
    {
      ghost var w := Now();
      var now := engine.moves.clock;
      var pullIds := PullPluginIds();
      var rows := EnumerateStageQueues(pullIds);
      DrainRows(rows, now, turns);
      drained := Now();
      keys, passes := outgoing.DistributeToNetworkServers();
      SettledOnward(w, drained, Now());
      RowsStayDrained(w, drained, Now(), rows, draining, now);
    }

    method DrainRows(rows: seq<QueueKey>, now: real, turns: MessageId -> Turn)
      requires Valid() && now <= engine.moves.clock && forall m :: ValidTurn(turns(m))
      requires forall q :: q in rows ==> IsStageQueue(q)
      modifies `draining, engine.moves`world, engine.moves`clock, engine.moves`log, engine.moves.redis
      ensures Valid() && draining == old(draining) && NothingFallsDue(old(Now()), Now())
      ensures engine.moves.redis.locks == old(engine.moves.redis.locks)
      ensures forall q :: q in rows && q !in draining ==> Drained(old(Now()), Now(), q, now)
    {
      ghost var w := Now();
      for i := 0 to |rows|
        invariant Valid() && draining == old(draining) && NothingFallsDue(w, Now()) && now <= engine.moves.clock
        invariant engine.moves.redis.locks == old(engine.moves.redis.locks)
        invariant forall q :: q in rows[..i] && q !in draining ==> Drained(w, Now(), q, now)
      {
        ghost var mid := Now();
        DrainRow(rows[i], now, turns);
        OneMoreRow(w, mid, Now(), rows, i, draining, now);
        SettledOnward(w, mid, Now());
      }
      assert rows[..|rows|] == rows;
    }

    lemma OneMoreRow(w: World, a: World, b: World, rows: seq<QueueKey>, i: nat, skipped: set<QueueKey>, now: real)
      requires i < |rows| && NothingFallsDue(w, a) && NothingFallsDue(a, b) && now <= w.clock
      requires forall q :: q in rows ==> IsStageQueue(q)
      requires forall q :: q in rows[..i] && q !in skipped ==> Drained(w, a, q, now)
      requires rows[i] !in skipped ==> |Due(b.store, rows[i], now)| <= LeftDue(|Due(a.store, rows[i], now)|)
      ensures forall q :: q in rows[..i + 1] && q !in skipped ==> Drained(w, b, q, now)
    {
      RowsStayDrained(w, a, b, rows[..i], skipped, now);
      DueOnlyShrinks(w, a, rows[i], now);
      assert rows[..i + 1] == rows[..i] + [rows[i]];
    }

    lemma RowsStayDrained(w: World, a: World, b: World, rows: seq<QueueKey>, skipped: set<QueueKey>, now: real)
      requires NothingFallsDue(a, b) && now <= a.clock && forall q :: q in rows ==> IsStageQueue(q)
      requires forall q :: q in rows && q !in skipped ==> Drained(w, a, q, now)
      ensures forall q :: q in rows && q !in skipped ==> Drained(w, b, q, now)
    {
      forall q | q in rows && q !in skipped ensures Drained(w, b, q, now) {
        DueOnlyShrinks(a, b, q, now);
      }
    }
  }
}
