/**
 * The engine process and the transitions of its state machine: each method performs its Redis calls in order and
 * records them in the ghost world.
 */
module Moves {
  import opened Domain
  import opened Stages
  import opened StoreSpec
  import opened World
  import opened Handlers
  import opened RedisPort
  import opened Registry

  class StageMoves {
    const config: Config
    const redis: RedisStore
    const sends: InFlightSends
    var clock: real
    /** Notifications persisted for the adopter, per message. */
    var log: map<MessageId, seq<Note>>
    ghost var world: World

    /** The ghost world is what Redis, the clock, the notifications and the in-flight registry show. */
    ghost predicate Mirrors()
      reads this, redis, sends
    {
      && world.store == redis.State() && world.clock == clock && world.log == log
      && sends.Valid() && (forall m :: m in sends.sends <==> m in world.outstanding)
    }

    constructor (config: Config)
      ensures Mirrors() && world == INITIAL_WORLD && this.config == config
      ensures fresh(redis) && fresh(sends) && redis.locks == map[]
    {
      var store := new RedisStore();
      var registry := new InFlightSends();
      this.config, redis, sends := config, store, registry;
      clock, log := 0.0, map[];
      world := INITIAL_WORLD;
    }

    method EmitDeliveryEvent(m: MessageId, note: Note)
      requires Mirrors()
      modifies this`log, this`world
      ensures Mirrors() && world == Do(old(world), Notify(m, note))
    {
      log := log[m := (if m in log then log[m] else []) + [note]];
      world := Do(world, Notify(m, note));
    }

    /** Leaving a stage for the next one of the plugin's pipeline. */
    method Advance(m: MessageId, p: Plugin, from: Stage, externalId: Option<ExternalId>) returns (claimed: bool)
      requires Mirrors() && NextStage(p.pattern, from).Some?
      modifies this`world, redis
      ensures Mirrors() && redis.locks == old(redis.locks)
      ensures var ops := Handlers.Advance(config, old(world), m, p, from, externalId);
        |ops| == 1 && world == Do(old(world), ops[0])
      ensures claimed == MoveCommits(old(world).store, m, StageKeyFor(from, p.id))
    {
      var next := NextStage(p.pattern, from).value;
      var dueAt := clock + EntryWait(next, p.tuning, config.delivery, 0, 0.0);
      claimed := redis.MoveMessageBetweenQueues(
        m, StageKeyFor(from, p.id), StageKeyFor(next, p.id), dueAt, EntryStatus(next), externalId);
      world := Do(world, Move(m, StageKeyFor(from, p.id), StageKeyFor(next, p.id), dueAt, EntryStatus(next),
        externalId));
    }

    /** Entering retry: the membership guard, the read of the stale references, and the compound write. */
    method EnterRetry(m: MessageId, from: QueueKey, retries: nat, history: seq<Failure>, jitter: real)
      returns (entered: bool)
      requires Mirrors()
      modifies this`world, redis
      ensures Mirrors() && redis.locks == old(redis.locks)
      ensures entered == ((from, m) in old(world).store.zsets)
      ensures var dueAt := clock + BackoffDelay(retries, config.delivery, jitter);
        world == if entered then Do(old(world), CommitRetry(m, from, retries, history, dueAt)) else old(world)
    {
      entered := (from, m) in redis.zsets;
      if entered {
        var dueAt := clock + BackoffDelay(retries, config.delivery, jitter);
        var externalId, slot := None, None;
        if m in redis.hashes {
          externalId, slot := redis.hashes[m].externalId, redis.hashes[m].slot;
        }
        redis.WriteRetryEntry(m, from, retries, history, dueAt, externalId, slot);
        world := Do(world, CommitRetry(m, from, retries, history, dueAt));
      }
    }

    method Reschedule(m: MessageId, q: QueueKey, score: real)
      requires Mirrors()
      modifies this`world, redis
      ensures Mirrors() && redis.locks == old(redis.locks) && world == Do(old(world), Postpone(m, q, score))
    {
      redis.ZaddXx(m, q, score);
      world := Do(world, Postpone(m, q, score));
    }

    /** Every queue the message could be a member of is derived from the stage table, and swept. */
    method Purge(m: MessageId, seen: Hash, cause: Cause)
      requires Mirrors() && seen.body.Some?
      modifies this`world, redis
      ensures Mirrors() && redis.locks == old(redis.locks) && world == Do(old(world), Op.Purge(m, seen, cause))
    {
      var b := seen.body.value;
      var stages := EnumerateStageQueues([b.plugin]);
      var keys := stages + [ReadyQ(b.readyKey)];
      assert (set q | q in keys) == PurgeKeys(b);
      redis.MessageFullCleanup(m, seen, b.correlation, keys);
      world := Do(world, Op.Purge(m, seen, cause));
    }

    method ClaimFromQueue(m: MessageId, q: QueueKey) returns (claimed: bool)
      requires Mirrors()
      modifies this`world, redis
      ensures Mirrors() && redis.locks == old(redis.locks) && world == Do(old(world), Unlist(m, q))
      ensures claimed == ((q, m) in old(world).store.zsets)
    {
      claimed := redis.RemoveMessageFromQueue(m, q);
      world := Do(world, Unlist(m, q));
    }

    /** Back to the ready queue, which is listed for distribution only once the move committed. */
    method Requeue(m: MessageId, key: string, priority: real) returns (moved: bool)
      requires Mirrors()
      modifies this`world, redis
      ensures Mirrors() && redis.locks == old(redis.locks)
      ensures moved == MoveCommits(old(world).store, m, RetryQ)
      ensures var after := Do(old(world), Move(m, RetryQ, ReadyQ(key), -priority, Queued, None));
        world == if moved then Do(after, MarkReady(key)) else after
    {
      moved := redis.RequeueMessage(m, RetryQ, key, priority);
      world := Do(world, Move(m, RetryQ, ReadyQ(key), -priority, Queued, None));
      if moved {
        world := Do(world, MarkReady(key));
      }
    }

    /** The atomic pick of a ready queue that is below its cap. */
    method PickIntoNs(key: string, p: Plugin, limit: Option<Limit>)
      returns (head: Option<MessageId>, picked: Option<Hash>)
      requires Mirrors() && !AtCap(world.store, limit)
      modifies this`world, redis
      ensures Mirrors() && redis.locks == old(redis.locks)
      ensures head.Some? ==> IsHead(old(world).store, ReadyQ(key), head.value)
      ensures head.None? ==>
        NoMembers(old(world).store, ReadyQ(key)) && world == Do(old(world), FetchNothing(key)) && picked.None?
      ensures head.Some? ==>
        var dueAt := clock + EntryWait(Ns, p.tuning, config.delivery, 0, 0.0);
        world == Do(old(world), FetchNext(head.value, key, dueAt, limit))
      ensures head.Some? && head.value in old(world).store.hashes ==>
        head.value in redis.hashes && picked == Some(redis.hashes[head.value])
      ensures head.Some? && head.value !in old(world).store.hashes ==> picked.None?
    {
      var dueAt := clock + EntryWait(Ns, p.tuning, config.delivery, 0, 0.0);
      head, picked := redis.FetchNextMessageInQueueAndMove(key, dueAt, limit);
      ghost var op := if head.None? then FetchNothing(key) else FetchNext(head.value, key, dueAt, limit);
      RecordFetch(op);
    }

    /** What a fetch did to Redis becomes the next world. */
    ghost method RecordFetch(op: Op)
      requires op.FetchNothing? || op.FetchNext?
      requires redis.State() == Do(world, op).store && world.clock == clock && world.log == log
      requires sends.Valid() && forall m :: m in sends.sends <==> m in world.outstanding
      modifies this`world
      ensures Mirrors() && world == Do(old(world), op)
    {
      world := Do(world, op);
    }

    method SweepDeadSlots(key: string) returns (live: nat)
      requires Mirrors()
      modifies this`world, redis
      ensures Mirrors() && redis.locks == old(redis.locks)
      ensures world == Do(old(world), SweepSlots(key, DeadOccupants(old(world).store, key)))
      ensures live == |Occupants(old(world).store, key) - DeadOccupants(old(world).store, key)|
    {
      ghost var s := redis.State();
      live := redis.ValidateAndCleanConcurrencyRateLimit(key);
      assert DeadOccupants(s, key) == set x | x in Occupants(s, key) && x !in s.hashes;
      assert Occupants(redis.State(), key) == Occupants(s, key) - DeadOccupants(s, key);
      world := Do(world, SweepSlots(key, DeadOccupants(world.store, key)));
    }

    method TrackSend(m: MessageId) returns (promise: nat)
      requires Mirrors()
      modifies this`world, sends
      ensures Mirrors() && world == Do(old(world), BeginSend(m))
      ensures m in sends.sends && sends.sends[m] == promise
    {
      promise := sends.Track(m);
      world := Do(world, BeginSend(m));
    }

    /** The settlement of the one awaited send of `m`. */
    method SettleSend(m: MessageId, promise: nat)
      requires Mirrors() && m in sends.sends && sends.sends[m] == promise && world.outstanding[m] <= 1
      modifies this`world, sends
      ensures Mirrors() && world == Do(old(world), EndSend(m))
    {
      sends.Settle(m, promise);
      world := Do(world, EndSend(m));
    }
  }
}
