/** The engine's handlers, each proved equal to its script, on an engine that is always in a reachable world. */
module Engine {
  import opened Domain
  import opened Stages
  import opened StoreSpec
  import opened World
  import opened Handlers
  import opened Soundness
  import opened Runs
  import opened Continuation
  import opened InFlightRuns
  import opened RedisPort
  import opened Registry
  import opened Moves
  import QueueKeys

  class DeliveryEngine {
    const config: Config
    const moves: StageMoves

    /** The world, as the engine's parts show it. */
    ghost function Now(): World
      reads moves
    {
      moves.world
    }

    /** Redis, clock and registry agree with a world that some run of handlers leads to. */
    ghost predicate Valid()
      reads moves, moves.redis, moves.sends
    {
      moves.config == config && moves.Mirrors() && RunReaches(config, moves.world)
    }

    constructor (config: Config)
      ensures Valid() && Now() == INITIAL_WORLD
      ensures fresh(moves) && fresh(moves.redis) && fresh(moves.sends)
    {
      var m := new StageMoves(config);
      this.config, moves := config, m;
      RunsBegin(config);
    }

    /** Telling the adopter first, and only then dropping the message. */
    method Resolve(m: MessageId, h: Hash, note: Note)
      requires moves.Mirrors() && h.body.Some?
      modifies moves`world, moves`log, moves.redis
      ensures moves.Mirrors() && moves.redis.locks == old(moves.redis.locks)
      ensures Now() == Run(old(Now()), [Notify(m, note), Purge(m, h, Resolved)])
    {
      RunTwo(Now(), Notify(m, note), Purge(m, h, Resolved));
      moves.EmitDeliveryEvent(m, note);
      moves.Purge(m, h, Resolved);
    }

    /** Entering retry, unless another writer already moved the message. */
    method RetryLater(m: MessageId, from: QueueKey, retries: nat, history: seq<Failure>, jitter: real)
      returns (result: Result)
      requires moves.config == config && moves.Mirrors()
      modifies moves`world, moves.redis
      ensures moves.Mirrors() && moves.redis.locks == old(moves.redis.locks)
      ensures var dueAt := moves.clock + BackoffDelay(retries, config.delivery, jitter);
        if (from, m) in old(Now()).store.zsets
        then Now() == Run(old(Now()), [CommitRetry(m, from, retries, history, dueAt)]) && result == Reports(MovedOn)
        else Now() == Run(old(Now()), []) && result == Reports(Orphaned)
    {
      RunOne(Now(), CommitRetry(m, from, retries, history,
        moves.clock + BackoffDelay(retries, config.delivery, jitter)));
      var entered := moves.EnterRetry(m, from, retries, history, jitter);
      result := Reports(if entered then MovedOn else Orphaned);
    }

    /** The decision on a loaded message: fail for good, or retry. */
    method Decide(m: MessageId, from: QueueKey, h: Hash, context: FailureContext, jitter: real) returns (result: Result)
      requires moves.config == config && moves.Mirrors()
      requires m in Now().store.hashes && h == Now().store.hashes[m] && h.body.Some?
      modifies moves`world, moves`log, moves.redis
      ensures moves.Mirrors() && moves.redis.locks == old(moves.redis.locks)
      ensures var action := Handlers.RetryOrFail(config, old(Now()), m, from, context, jitter);
        Now() == Run(old(Now()), action.ops) && result == action.result
    {
      var isFinal := context.skipRetry || h.retryCount >= config.delivery.maxRetries;
      var history := [Failure(h.status, context.reason, isFinal)] + h.history;
      if isFinal {
        Resolve(m, h, FailedNote(history));
        result := Reports(Removed);
      } else {
        result := RetryLater(m, from, h.retryCount, history, jitter);
      }
    }

    /** Retry or permanent failure of one attempt. */
    method RetryOrFail(m: MessageId, from: QueueKey, context: FailureContext, jitter: real) returns (result: Result)
      requires moves.config == config && moves.Mirrors()
      modifies moves`world, moves`log, moves.redis
      ensures moves.Mirrors() && moves.redis.locks == old(moves.redis.locks)
      ensures var action := Handlers.RetryOrFail(config, old(Now()), m, from, context, jitter);
        Now() == Run(old(Now()), action.ops) && result == action.result
    {
      var load := moves.redis.GetMessageById(m);
      match load
      case Absent => result := Reports(Orphaned);
      case Broken => result := Throws;
      case Loaded(h) => result := Decide(m, from, h, context, jitter);
    }

    /** What a vendor event does, whether pushed or polled. */
    method ProcessEvent(p: Plugin, e: IncomingEvent, jitter: real) returns (result: Result)
      requires moves.config == config && moves.Mirrors()
      modifies moves`world, moves`log, moves.redis
      ensures moves.Mirrors() && moves.redis.locks == old(moves.redis.locks)
      ensures var action := Handlers.ProcessEvent(config, old(Now()), p, e, jitter);
        Now() == Run(old(Now()), action.ops) && result == action.result
    {
      ghost var w := Now();
      if e.unsolicited {
        RunOne(w, NotifyUnsolicited);
        return Reports(Rescheduled);
      }
      if e.externalId.None? {
        return Reports(Rescheduled);
      }
      if e.externalId.value !in moves.redis.ext {
        return Reports(Orphaned);
      }
      var m := moves.redis.ext[e.externalId.value];
      if e.status == SentToDevice && p.pattern == Push {
        var _ := moves.Advance(m, p, RelayNode, None);
        RunOne(w, Handlers.Advance(config, w, m, p, RelayNode, None)[0]);
        return Reports(MovedOn);
      }
      if e.status == DeliveryFailed {
        result := ProcessFailure(m, p, e, jitter);
        return;
      }
      if e.status != DeliverySuccessful {
        return Reports(Rescheduled);
      }
      var load := moves.redis.GetMessageById(m);
      if load.Absent? {
        return Reports(Orphaned);
      }
      if load.Broken? {
        return Throws;
      }
      var history := load.hash.history;
      if e.failure.Some? {
        history := [Failure(DeliverySuccessful, e.failure.value.reason, true)] + history;
      }
      Resolve(m, load.hash, SuccessNote(history));
      return Reports(Removed);
    }

    /** A negative event claims the stage the hash says the message is in. */
    method ProcessFailure(m: MessageId, p: Plugin, e: IncomingEvent, jitter: real) returns (result: Result)
      requires moves.config == config && moves.Mirrors()
      requires !e.unsolicited && e.externalId.Some? && e.externalId.value in Now().store.ext
      requires m == Now().store.ext[e.externalId.value] && e.status == DeliveryFailed
      modifies moves`world, moves`log, moves.redis
      ensures moves.Mirrors() && moves.redis.locks == old(moves.redis.locks)
      ensures var action := Handlers.ProcessEvent(config, old(Now()), p, e, jitter);
        Now() == Run(old(Now()), action.ops) && result == action.result
    {
      var load := moves.redis.GetMessageById(m);
      if load.Absent? {
        return Reports(Orphaned);
      }
      if load.Broken? {
        return Throws;
      }
      var stage := StageForStatus(load.hash.status, p.pattern);
      if stage.None? {
        return Reports(Orphaned);
      }
      var context := if e.failure.Some? then e.failure.value else FailureContext(NEGATIVE_RESPONSE, false);
      result := RetryOrFail(m, StageKeyFor(stage.value, p.id), context, jitter);
    }

    /** The poll of an awaiting task: age out, ask the vendor, or keep waiting. */
    method PollTask(q: QueueKey, m: MessageId, h: Hash, now: real, reply: Reply, jitter: real) returns (result: Result)
      requires moves.config == config && moves.Mirrors() && q.TaskQ?
      requires m in Now().store.hashes && h == Now().store.hashes[m] && h.body.Some?
        && h.body.value.plugin in config.registry
      modifies moves`world, moves`log, moves.redis
      ensures moves.Mirrors() && moves.redis.locks == old(moves.redis.locks)
      ensures var action := Handlers.StageAction(config, old(Now()), q, m, now, reply, jitter);
        Now() == Run(old(Now()), action.ops) && result == action.result
    {
      var p := config.registry[h.body.value.plugin];
      if now - m.time >= PULL_MAX_MESSAGE_AGE {
        var history := [Failure(DeliveredToNs, TASK_TIMEOUT, true)] + h.history;
        Resolve(m, h, FailedNote(history));
        return Reports(Removed);
      }
      if p.pattern != Pull || h.externalId.None? {
        return Reports(Rescheduled);
      }
      match reply {
        case Reported(e) => result := ProcessEvent(p, e, jitter);
        case ReplyThrew => result := Throws;
        case _ => result := Reports(Rescheduled);
      }
    }

    /** A member whose backoff elapsed goes back to its ready queue at its original priority. */
    method RequeueMember(m: MessageId, key: string, priority: real) returns (result: Result)
      requires moves.Mirrors()
      modifies moves`world, moves.redis
      ensures moves.Mirrors() && moves.redis.locks == old(moves.redis.locks)
      ensures var move := Move(m, RetryQ, ReadyQ(key), -priority, Queued, None);
        if MoveCommits(old(Now()).store, m, RetryQ)
        then Now() == Run(old(Now()), [move, MarkReady(key)]) && result == Reports(MovedOn)
        else Now() == Run(old(Now()), [move]) && result == Reports(Orphaned)
    {
      ghost var move := Move(m, RetryQ, ReadyQ(key), -priority, Queued, None);
      RunTwo(Now(), move, MarkReady(key));
      RunOne(Now(), move);
      var moved := moves.Requeue(m, key, priority);
      result := Reports(if moved then MovedOn else Orphaned);
    }

    /** The deadline of a send is held off while this process still awaits it. */
    method ExpireSend(m: MessageId, jitter: real) returns (result: Result)
      requires moves.config == config && moves.Mirrors()
      modifies moves`world, moves`log, moves.redis
      ensures moves.Mirrors() && moves.redis.locks == old(moves.redis.locks)
      ensures var action := if m in old(Now()).outstanding then Action([], Reports(Rescheduled))
        else Handlers.RetryOrFail(config, old(Now()), m, NsQ, FailureContext(NS_TIMEOUT, false), jitter);
        Now() == Run(old(Now()), action.ops) && result == action.result
    {
      var held := moves.sends.Has(m);
      if held {
        result := Reports(Rescheduled);
      } else {
        result := RetryOrFail(m, NsQ, FailureContext(NS_TIMEOUT, false), jitter);
      }
    }

    /** The deadline of a hand-over is held off while the vendor still has the message queued. */
    method ExpireRelay(m: MessageId, p: Plugin, reply: Reply, jitter: real) returns (result: Result)
      requires moves.config == config && moves.Mirrors()
      modifies moves`world, moves`log, moves.redis
      ensures moves.Mirrors() && moves.redis.locks == old(moves.redis.locks)
      ensures var action :=
          if p.pattern == Push && p.inspectsRemoteQueue && reply == RemoteStatus(false)
          then Action([], Reports(Rescheduled))
          else Handlers.RetryOrFail(config, old(Now()), m, RelayQ, FailureContext(RELAY_TIMEOUT, false), jitter);
        Now() == Run(old(Now()), action.ops) && result == action.result
    {
      if p.pattern == Push && p.inspectsRemoteQueue && reply == RemoteStatus(false) {
        return Reports(Rescheduled);
      }
      result := RetryOrFail(m, RelayQ, FailureContext(RELAY_TIMEOUT, false), jitter);
    }

    /** The stages whose members have a deadline. */
    method ExpireMember(q: QueueKey, m: MessageId, h: Hash, now: real, reply: Reply, jitter: real)
      returns (result: Result)
      requires moves.config == config && moves.Mirrors() && q in {NsQ, RelayQ, DeviceQ}
      requires m in Now().store.hashes && h == Now().store.hashes[m] && h.body.Some?
        && h.body.value.plugin in config.registry
      modifies moves`world, moves`log, moves.redis
      ensures moves.Mirrors() && moves.redis.locks == old(moves.redis.locks)
      ensures var action := Handlers.StageAction(config, old(Now()), q, m, now, reply, jitter);
        Now() == Run(old(Now()), action.ops) && result == action.result
    {
      match q {
        case NsQ => result := ExpireSend(m, jitter);
        case RelayQ => result := ExpireRelay(m, config.registry[h.body.value.plugin], reply, jitter);
        case DeviceQ => result := RetryOrFail(m, q, FailureContext(DEVICE_TIMEOUT, false), jitter);
      }
    }

    /** The action of a stage on a due member. */
    method StageAction(q: QueueKey, m: MessageId, h: Hash, now: real, reply: Reply, jitter: real)
      returns (result: Result)
      requires moves.config == config && moves.Mirrors() && IsStageQueue(q)
      requires m in Now().store.hashes && h == Now().store.hashes[m] && h.body.Some?
        && h.body.value.plugin in config.registry
      modifies moves`world, moves`log, moves.redis
      ensures moves.Mirrors() && moves.redis.locks == old(moves.redis.locks)
      ensures var action := Handlers.StageAction(config, old(Now()), q, m, now, reply, jitter);
        Now() == Run(old(Now()), action.ops) && result == action.result
    {
      match StageOf(q) {
        case AwaitingTask => result := PollTask(q, m, h, now, reply, jitter);
        case Retry => result := RequeueMember(m, h.body.value.readyKey, h.body.value.priority);
        case _ => result := ExpireMember(q, m, h, now, reply, jitter);
      }
    }

    /** What the runner still owes a member after its action: a scrub, a new score, or nothing. */
    method Oblige(q: QueueKey, m: MessageId, h: Hash, now: real, result: Result, jitter: real, ghost w: World)
      requires moves.config == config && moves.Mirrors() && IsStageQueue(q) && w.clock == moves.clock
      requires m in w.store.hashes && h == w.store.hashes[m] && h.body.Some? && h.body.value.plugin in config.registry
      modifies moves`world, moves.redis
      ensures moves.Mirrors() && moves.redis.locks == old(moves.redis.locks)
      ensures Now() == Run(old(Now()), Obligation(config, w, q, m, now, result, jitter))
    {
      ghost var mid := Now();
      var p := config.registry[h.body.value.plugin];
      if result == Reports(Orphaned) {
        RunOne(mid, Unlist(m, q));
        var _ := moves.ClaimFromQueue(m, q);
      } else if result.Throws? || result.outcome == Rescheduled {
        var wait := RescheduleWait(StageOf(q), p.tuning, config.delivery, h.retryCount, now - m.time, jitter);
        RunOne(mid, Postpone(m, StageKeyFor(StageOf(q), p.id), moves.clock + wait));
        moves.Reschedule(m, StageKeyFor(StageOf(q), p.id), moves.clock + wait);
      }
    }

    method Scrub(m: MessageId, q: QueueKey)
      requires moves.Mirrors()
      modifies moves`world, moves.redis
      ensures moves.Mirrors() && moves.redis.locks == old(moves.redis.locks) && Now() == Run(old(Now()), [Unlist(m, q)])
    {
      RunOne(Now(), Unlist(m, q));
      var _ := moves.ClaimFromQueue(m, q);
    }

    /** The loop body of a drain: scrub the member, or act on it and settle what the action left waiting. */
    method VisitMember(q: QueueKey, m: MessageId, now: real, reply: Reply, jitter: real)
      requires moves.config == config && moves.Mirrors() && IsStageQueue(q)
      modifies moves`world, moves`log, moves.redis
      ensures moves.Mirrors() && moves.redis.locks == old(moves.redis.locks)
      ensures Now() == Run(old(Now()), Visit(config, old(Now()), q, m, now, reply, jitter))
    {
      ghost var w := Now();
      var load := moves.redis.GetMessageById(m);
      if load.Absent? {
        Scrub(m, q);
      } else if load.Loaded? {
        var h := load.hash;
        if h.body.value.plugin !in config.registry {
          Scrub(m, q);
        } else {
          var result := StageAction(q, m, h, now, reply, jitter);
          ghost var action := Handlers.StageAction(config, w, q, m, now, reply, jitter);
          RunAppend(w, action.ops, Obligation(config, w, q, m, now, action.result, jitter));
          Oblige(q, m, h, now, result, jitter, w);
        }
      }
    }

    /** One due member of a drain. */
    method Attend(q: QueueKey, m: MessageId, now: real, reply: Reply, jitter: real)
      requires Valid() && Enabled(config, Now(), Handler.Attend(q, m, now, reply, jitter))
      modifies moves`world, moves`log, moves.redis
      ensures Valid() && Now() == After(config, old(Now()), Completes(Handler.Attend(q, m, now, reply, jitter)))
      ensures moves.redis.locks == old(moves.redis.locks)
    {
      RunContinues(config, Now(), Completes(Handler.Attend(q, m, now, reply, jitter)));
      VisitMember(q, m, now, reply, jitter);
    }

    /** A pushed vendor event. */
    method Ingress(plugin: PluginId, e: IncomingEvent, jitter: real)
      requires Valid() && Enabled(config, Now(), Handler.Ingress(plugin, e, jitter))
      modifies moves`world, moves`log, moves.redis
      ensures Valid() && Now() == After(config, old(Now()), Completes(Handler.Ingress(plugin, e, jitter)))
    {
      RunContinues(config, Now(), Completes(Handler.Ingress(plugin, e, jitter)));
      var _ := ProcessEvent(config.registry[plugin], e, jitter);
    }

    method Enqueue(m: MessageId, b: Body)
      requires Valid() && Enabled(config, Now(), EnqueueOne(m, b))
      modifies moves`world, moves.redis
      ensures Valid() && Now() == After(config, old(Now()), Completes(EnqueueOne(m, b)))
    {
      ghost var w := Now();
      RunContinues(config, w, Completes(EnqueueOne(m, b)));
      RunOne(w, Insert(m, b));
      moves.redis.EnqueueDeviceMessage(m, b);
      moves.world := Do(w, Insert(m, b));
    }

    method Elapse(until: real)
      requires Valid() && moves.clock <= until
      modifies moves`world, moves`clock
      ensures Valid() && Now() == After(config, old(Now()), Completes(Environment(Op.Elapse(until))))
    {
      ghost var w := Now();
      RunContinues(config, w, Completes(Environment(Op.Elapse(until))));
      RunOne(w, Op.Elapse(until));
      moves.clock := until;
      moves.world := Do(w, Op.Elapse(until));
    }

    /** The process dies between handlers and starts again: Redis stays, the awaited sends are gone. */
    method Restart()
      requires Valid()
      modifies moves`world, moves.sends
      ensures Valid() && Now() == After(config, old(Now()), Completes(Environment(Op.Restart)))
    {
      ghost var w := Now();
      RunContinues(config, w, Completes(Environment(Op.Restart)));
      RunOne(w, Op.Restart);
      moves.sends.Clear();
      moves.world := Do(w, Op.Restart);
    }
  }
}
