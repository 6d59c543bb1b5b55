/** Distribution of ready work, completion of vendor sends, and cancellation. */
module Outgoing {
  import opened Domain
  import opened Stages
  import opened StoreSpec
  import opened World
  import opened Handlers
  import opened OnePlace
  import opened Soundness
  import opened Runs
  import opened Continuation
  import opened InFlightRuns
  import opened Starvation
  import opened RedisPort
  import opened Moves
  import opened Engine
  import opened Outcomes
  import opened SendOrder
  import QueueKeys

  datatype CancelResult = CancelledAll | NotCancellable | NotFound

  lemma {:induction false} LeastExists(s: Store, q: QueueKey, members: set<MessageId>) returns (m: MessageId)
    requires members != {} && forall x :: x in members ==> (q, x) in s.zsets
    ensures m in members && forall x :: x in members && x != m ==> Before(s, q, m, x)
    decreases |members|
  {
    m :| m in members;
    var rest := members - {m};
    if rest != {} {
      var least := LeastExists(s, q, rest);
      BeforeIsTotal(s, q, m, least);
      if Before(s, q, least, m) {
        m := least;
      } else {
        forall x | x in rest && x != least ensures Before(s, q, m, x) {
          BeforeIsTransitive(s, q, m, least, x);
        }
      }
    }
  }

  /** Every ready queue has a head or no members. */
  lemma HeadExists(w: World, key: string) returns (head: Option<MessageId>)
    ensures RightHead(w, key, head)
  {
    var members := set k | k in w.store.zsets && k.0 == ReadyQ(key) :: k.1;
    if members == {} {
      head := None;
      assert forall x :: (ReadyQ(key), x) in w.store.zsets ==> (ReadyQ(key), x).1 in members;
    } else {
      var m := LeastExists(w.store, ReadyQ(key), members);
      head := Some(m);
      assert forall x :: (ReadyQ(key), x) in w.store.zsets ==> (ReadyQ(key), x).1 in members;
    }
  }

  /** Whether cancelling `m` would claim it. */
  predicate Cancellable(c: Config, s: Store, m: MessageId) {
    && m in s.hashes && s.hashes[m].body.Some?
    && s.hashes[m].status in {Queued, ToRetry} && s.hashes[m].body.value.plugin in c.registry
    && (if s.hashes[m].status == ToRetry then RetryQ else ReadyQ(s.hashes[m].body.value.readyKey), m) in s.zsets
  }

  /** Cancelling purges the message exactly when it could be claimed, and touches no other. */
  lemma CancelEffect(c: Config, w: World, m: MessageId, x: MessageId)
    ensures var after := Run(w, Cancel(c, w, m));
      && (Cancellable(c, w.store, m) ==> m !in after.store.hashes && m in after.cancelled)
      && (!Cancellable(c, w.store, m) ==> SameMessage(w, after, m))
      && (x != m ==> SameMessage(w, after, x))
  {
    var ops := Cancel(c, w, m);
    if x != m {
      RunLeavesOthers(w, ops, x);
    }
    if |ops| == 2 {
      RunTwo(w, ops[0], ops[1]);
    } else if |ops| == 1 {
      RunOne(w, ops[0]);
    }
  }

  lemma PickedComesFirst(c: Config, w: World, key: string, m: MessageId)
    requires RunReaches(c, w) && IsHead(w.store, ReadyQ(key), m)
    ensures FirstInLine(w, key, m)
  {
    RunsAreReachable(c, w);
    HeadIsFirstInLine(c, w, key, m);
  }

  /** What can still be claimed is what waits to be sent or retried. */
  lemma CancellableIsWaiting(c: Config, w: World, m: MessageId)
    requires Sound(c, w)
    ensures Cancellable(c, w.store, m) <==> m in w.store.hashes && IsWaiting(w, m)
  {
    assert SoundMessage(c, w, m) && PlacedMessage(c, w, m);
  }

  lemma {:induction false} NamedByKeys(s: Store, correlationId: string, phases: seq<string>, m: MessageId)
    requires m in NamedBy(s, correlationId, phases)
    ensures m in s.hashes
    ensures exists i ::
      0 <= i < |phases| && correlationId + phases[i] in s.corr && s.corr[correlationId + phases[i]] == m
    decreases |phases|
  {
    var key := correlationId + phases[0];
    if key in s.corr && s.corr[key] == m && m in s.hashes {
    } else {
      NamedByKeys(s, correlationId, phases[1..], m);
      var i :| 0 <= i < |phases[1..]| && correlationId + phases[1..][i] in s.corr
        && s.corr[correlationId + phases[1..][i]] == m;
      assert phases[1..][i] == phases[i + 1];
    }
  }

  lemma AppendIsInjective(a: string, b: string, d: string)
    requires a + b == a + d
    ensures b == d
  {
    assert b == (a + b)[|a|..];
    assert d == (a + d)[|a|..];
  }

  ghost predicate Distinct(ids: seq<MessageId>) {
    forall i, j :: 0 <= i < j < |ids| ==> ids[i] != ids[j]
  }

  lemma DistinctCons(m: MessageId, rest: seq<MessageId>)
    requires Distinct(rest) && m !in rest
    ensures Distinct([m] + rest)
  {
    var ids := [m] + rest;
    forall i, j | 0 <= i < j < |ids| ensures ids[i] != ids[j] {
      assert ids[j] == rest[j - 1];
    }
  }

  /** The messages of one correlation id are distinct: an index entry belongs to the message that carries its key. */
  lemma {:induction false} NamedByIsDistinct(w: World, correlationId: string, phases: seq<string>)
    requires CorrSound(w) && forall i, j :: 0 <= i < j < |phases| ==> phases[i] != phases[j]
    ensures Distinct(NamedBy(w.store, correlationId, phases))
    decreases |phases|
  {
    if phases != [] {
      NamedByIsDistinct(w, correlationId, phases[1..]);
      var rest := NamedBy(w.store, correlationId, phases[1..]);
      var key := correlationId + phases[0];
      if key in w.store.corr && w.store.corr[key] in w.store.hashes {
        HeadNamesAnother(w, correlationId, phases);
        DistinctCons(w.store.corr[key], rest);
      }
    }
  }

  lemma HeadNamesAnother(w: World, correlationId: string, phases: seq<string>)
    requires CorrSound(w) && phases != [] && forall i, j :: 0 <= i < j < |phases| ==> phases[i] != phases[j]
    requires correlationId + phases[0] in w.store.corr
    ensures w.store.corr[correlationId + phases[0]] !in NamedBy(w.store, correlationId, phases[1..])
  {
    var rest := NamedBy(w.store, correlationId, phases[1..]);
    forall m | m in rest ensures m != w.store.corr[correlationId + phases[0]] {
      NamedByKeys(w.store, correlationId, phases[1..], m);
      var i :| 0 <= i < |phases[1..]| && correlationId + phases[1..][i] in w.store.corr
               && w.store.corr[correlationId + phases[1..][i]] == m;
      assert phases[1..][i] == phases[i + 1];
      if correlationId + phases[1..][i] == correlationId + phases[0] {
        AppendIsInjective(correlationId, phases[1..][i], phases[0]);
      }
    }
  }

  /** Of `ids`, exactly those that were cancellable in `w` are gone and cancelled; no other message changed. */
  ghost predicate CancelledExactly(c: Config, w: World, after: World, ids: seq<MessageId>) {
    && (forall m :: m in ids && Cancellable(c, w.store, m) ==> m !in after.store.hashes && m in after.cancelled)
    && (forall m :: !(m in ids && Cancellable(c, w.store, m)) ==> SameMessage(w, after, m))
  }

  ghost predicate AllCancellable(c: Config, s: Store, ids: seq<MessageId>) {
    forall m :: m in ids ==> Cancellable(c, s, m)
  }

  lemma AllCancellableCons(c: Config, s: Store, ids: seq<MessageId>, m: MessageId)
    ensures AllCancellable(c, s, ids + [m]) <==> AllCancellable(c, s, ids) && Cancellable(c, s, m)
  {
    assert forall x :: x in ids + [m] <==> x in ids || x == m;
  }

  lemma SameMessageIsTransitive(a: World, b: World, d: World, x: MessageId)
    requires SameMessage(a, b, x) && SameMessage(b, d, x)
    ensures SameMessage(a, d, x)
  {
  }

  lemma SameIsCancellable(c: Config, a: World, b: World, m: MessageId)
    requires SameMessage(a, b, m)
    ensures Cancellable(c, a.store, m) == Cancellable(c, b.store, m)
  {
  }

  lemma CancelStepOn(c: Config, w: World, mid: World, after: World, ids: seq<MessageId>, m: MessageId)
    requires CancelledExactly(c, w, mid, ids) && m !in ids
    requires Cancellable(c, mid.store, m) ==> m !in after.store.hashes && m in after.cancelled
    requires !Cancellable(c, mid.store, m) ==> SameMessage(mid, after, m)
    requires forall x :: x != m ==> SameMessage(mid, after, x)
    ensures CancelledExactly(c, w, after, ids + [m])
    ensures Cancellable(c, mid.store, m) == Cancellable(c, w.store, m)
  {
    SameIsCancellable(c, w, mid, m);
    forall x | x in ids + [m] && Cancellable(c, w.store, x) ensures x !in after.store.hashes && x in after.cancelled {
      assert x != m ==> x in ids && SameMessage(mid, after, x);
    }
    forall x | !(x in ids + [m] && Cancellable(c, w.store, x)) ensures SameMessage(w, after, x) {
      assert m in ids + [m] && (x in ids ==> x in ids + [m]);
      SameMessageIsTransitive(w, mid, after, x);
    }
  }

  lemma CancelStep(c: Config, w: World, mid: World, ids: seq<MessageId>, m: MessageId)
    requires CancelledExactly(c, w, mid, ids) && m !in ids
    ensures CancelledExactly(c, w, Run(mid, Cancel(c, mid, m)), ids + [m])
    ensures Cancellable(c, mid.store, m) == Cancellable(c, w.store, m)
  {
    CancelEffect(c, mid, m, m);
    forall x ensures x != m ==> SameMessage(mid, Run(mid, Cancel(c, mid, m)), x) {
      CancelEffect(c, mid, m, x);
    }
    CancelStepOn(c, w, mid, Run(mid, Cancel(c, mid, m)), ids, m);
  }

  /** What follows the claim of a live head. */
  function SendOps(m: MessageId, first: bool): seq<Op> {
    if first then [Notify(m, SentNote), BeginSend(m)] else [BeginSend(m)]
  }

  lemma PickUnfolds(c: Config, w: World, key: string, p: Plugin, m: MessageId)
    ensures var picked := Run(w, Pick(c, w, key, p, Some(m)));
      var claimed := Do(w, FetchOf(c, w, key, p, m));
      if m in w.store.hashes && w.store.hashes[m].body.Some?
      then picked == Run(claimed, SendOps(m, w.store.hashes[m].retryCount == 0))
      else picked == claimed
  {
    var fetch := FetchOf(c, w, key, p, m);
    RunOne(w, fetch);
    if m in w.store.hashes && w.store.hashes[m].body.Some? {
      var rest := SendOps(m, w.store.hashes[m].retryCount == 0);
      RunAppend(w, [fetch], rest);
      assert Pick(c, w, key, p, Some(m)) == [fetch] + rest;
    }
  }

  lemma PickKeepsAttempt(c: Config, w: World, key: string, p: Plugin, m: MessageId)
    requires m in w.store.hashes
    ensures var s := Do(w, FetchOf(c, w, key, p, m)).store;
      m in s.hashes && s.hashes[m].body == w.store.hashes[m].body
        && s.hashes[m].retryCount == w.store.hashes[m].retryCount
  {
  }

  /** The spacing lock of a ready queue can be taken at `now`. */
  ghost predicate LockOpen(c: Config, locks: map<string, real>, key: string, now: real) {
    var owner := QueueKeys.PluginIdOf(key);
    && owner.Some? && owner.value in c.registry && c.registry[owner.value].admission.Spacing?
    && (key !in locks || locks[key] <= now)
  }

  ghost predicate SameLock(a: map<string, real>, b: map<string, real>, key: string) {
    (key in a <==> key in b) && (key in a ==> a[key] == b[key])
  }

  /** `passes` are one completed pass per key, each with what the key's lock said in `locks`. */
  ghost predicate PassesOver(c: Config, locks: map<string, real>, now: real, keys: seq<string>, passes: seq<Event>) {
    && |passes| == |keys|
    && (forall i, j :: 0 <= i < j < |keys| ==> keys[i] != keys[j])
    && (forall i :: 0 <= i < |keys| ==> IsPass(c, locks, now, keys[i], passes[i]))
  }

  ghost predicate IsPass(c: Config, locks: map<string, real>, now: real, key: string, e: Event) {
    && e.Completes? && e.handler.DistributeQueue? && e.handler.key == key
    && e.handler.unlocked == LockOpen(c, locks, key, now)
  }

  /** From `w`, one pass over each of `keys` has led to `v`. */
  ghost predicate PassedOver(c: Config, w: World, v: World, locks: map<string, real>, keys: seq<string>,
                             passes: seq<Event>)
  {
    PassesOver(c, locks, w.clock, keys, passes) && AllEnabled(c, w, passes) && v == AfterAll(c, w, passes)
  }

  lemma OneMorePass(c: Config, w: World, v: World, locks: map<string, real>, keys: seq<string>, passes: seq<Event>,
                    key: string, e: Event)
    requires PassedOver(c, w, v, locks, keys, passes) && key !in keys
    requires IsPass(c, locks, w.clock, key, e) && Enabled(c, v, e.handler)
    ensures PassedOver(c, w, After(c, v, e), locks, keys + [key], passes + [e])
  {
    EventsAppend(c, w, passes, e);
    var longer := keys + [key];
    forall i, j | 0 <= i < j < |longer| ensures longer[i] != longer[j] {
      assert longer[i] == keys[i] && (j < |keys| ==> longer[j] == keys[j]);
    }
  }

  /** A round over `ready` that still has `rest` to pass over, whose locks nobody has touched. */
  ghost predicate Halfway(c: Config, w: World, v: World, before: map<string, real>, locks: map<string, real>,
                          ready: set<string>, keys: seq<string>, passes: seq<Event>, rest: set<string>)
  {
    && NothingFallsDue(w, v) && v.clock == w.clock && PassedOver(c, w, v, before, keys, passes)
    && (forall key :: key in ready <==> key in keys || key in rest)
    && (forall key :: key in rest ==> key !in keys && SameLock(locks, before, key))
  }

  lemma RoundGoesOn(c: Config, w: World, v: World, next: World, before: map<string, real>, locks: map<string, real>,
                    after: map<string, real>, ready: set<string>, keys: seq<string>, passes: seq<Event>,
                    rest: set<string>,
                    key: string, e: Event)
    requires Halfway(c, w, v, before, locks, ready, keys, passes, rest) && key in rest
    requires IsPass(c, locks, v.clock, key, e) && Enabled(c, v, e.handler) && next == After(c, v, e)
    requires NothingFallsDue(v, next) && next.clock == v.clock && forall k :: k != key ==> SameLock(after, locks, k)
    ensures Halfway(c, w, next, before, after, ready, keys + [key], passes + [e], rest - {key})
  {
    OneMorePass(c, w, v, before, keys, passes, key, e);
    SettledOnward(w, v, next);
    assert forall k :: k in keys + [key] <==> k in keys || k == key;
    forall k | k in rest - {key} ensures SameLock(after, before, k) {
      assert SameLock(locks, before, k) && SameLock(after, locks, k);
    }
  }

  class OutgoingService {
    const engine: DeliveryEngine
    /** When each spaced ready queue was last admitted. */
    ghost var admittedAt: map<string, real>

    ghost function Now(): World
      reads engine.moves
    {
      engine.Now()
    }

    function Interval(key: string): real {
      var owner := QueueKeys.PluginIdOf(key);
      if owner.Some? && owner.value in engine.config.registry && engine.config.registry[owner.value].admission.Spacing?
      then engine.config.registry[owner.value].admission.minInterval else 0.0
    }

    /** The spacing lock of an admitted queue lasts for the plugin's interval. */
    ghost predicate Valid()
      reads this, engine.moves, engine.moves.redis, engine.moves.sends
    {
      && engine.Valid()
      && (forall key :: key in admittedAt ==>
            key in engine.moves.redis.locks && engine.moves.redis.locks[key] == admittedAt[key] + Interval(key))
    }

    constructor (engine: DeliveryEngine)
      requires engine.Valid()
      ensures Valid() && this.engine == engine && admittedAt == map[]
    {
      this.engine := engine;
      admittedAt := map[];
    }

    /** Whether a ready queue may yield a message: the spacing lock, or room below the cap after a sweep. */
    method CanAdmit(p: Plugin, key: string) returns (admitted: bool, unlocked: bool)
      requires Valid() && QueueKeys.PluginIdOf(key) == Some(p.id)
      requires p.id in engine.config.registry && engine.config.registry[p.id] == p
      modifies this, engine.moves`world, engine.moves.redis
      ensures engine.moves.Mirrors()
      ensures var limit := LimitFor(engine.config, key);
        && Now() == Run(old(Now()), AdmissionSweep(old(Now()).store, limit))
        && admitted == Admits(engine.config, old(Now()), key, unlocked)
      ensures forall k :: k in admittedAt ==>
        k in engine.moves.redis.locks && engine.moves.redis.locks[k] == admittedAt[k] + Interval(k)
      ensures unlocked == LockOpen(engine.config, old(engine.moves.redis.locks), key, engine.moves.clock)
      ensures forall k :: k != key ==> SameLock(engine.moves.redis.locks, old(engine.moves.redis.locks), k)
      ensures admittedAt == if unlocked then old(admittedAt)[key := engine.moves.clock] else old(admittedAt)
    {
      ghost var w := Now();
      match p.admission
      case Spacing(interval) =>
        unlocked := engine.moves.redis.LockQueueForTime(key, engine.moves.clock, interval);
        admitted := unlocked;
        if admitted {
          admittedAt := admittedAt[key := engine.moves.clock];
        }
      case Concurrency(max) =>
        unlocked := false;
        admitted := HasFreeSlot(LimitFor(engine.config, key).value);
    }

    /** Room below the cap, dead members swept only when the set looks full. */
    method HasFreeSlot(limit: Limit) returns (free: bool)
      requires engine.moves.Mirrors()
      modifies engine.moves`world, engine.moves.redis
      ensures engine.moves.Mirrors() && engine.moves.redis.locks == old(engine.moves.redis.locks)
      ensures Now() == Run(old(Now()), AdmissionSweep(old(Now()).store, Some(limit)))
      ensures free == HasRoom(old(Now()).store, Some(limit))
    {
      ghost var w := Now();
      var tracked := |Occupants(engine.moves.redis.State(), limit.key)|;
      if tracked >= limit.max {
        RunOne(w, SweepSlots(limit.key, DeadOccupants(w.store, limit.key)));
        var live := engine.moves.SweepDeadSlots(limit.key);
        free := live < limit.max;
      } else {
        Smaller(Occupants(w.store, limit.key) - DeadOccupants(w.store, limit.key), Occupants(w.store, limit.key));
        free := true;
      }
    }

    /** A first send is announced; then the vendor call starts, held from the start. */
    method StartSend(m: MessageId, first: bool) returns (promise: nat)
      requires engine.moves.Mirrors()
      modifies engine.moves`world, engine.moves`log, engine.moves.sends
      ensures engine.moves.Mirrors()
      ensures Now() == Run(old(Now()), SendOps(m, first))
      ensures m in engine.moves.sends.sends && engine.moves.sends.sends[m] == promise
    {
      if first {
        RunTwo(Now(), Notify(m, SentNote), BeginSend(m));
        engine.moves.EmitDeliveryEvent(m, SentNote);
      } else {
        RunOne(Now(), BeginSend(m));
      }
      promise := engine.moves.TrackSend(m);
    }

    /** The pick of an admitted queue and the start of its send. */
    method PickAndSend(key: string, p: Plugin) returns (head: Option<MessageId>)
      requires engine.moves.Mirrors() && engine.moves.config == engine.config
      requires !AtCap(Now().store, LimitFor(engine.config, key))
      modifies engine.moves`world, engine.moves`log, engine.moves.redis, engine.moves.sends
      ensures engine.moves.Mirrors() && engine.moves.redis.locks == old(engine.moves.redis.locks)
      ensures RightHead(old(Now()), key, head)
      ensures Now() == Run(old(Now()), Pick(engine.config, old(Now()), key, p, head))
    {
      ghost var w := Now();
      var picked;
      head, picked := engine.moves.PickIntoNs(key, p, LimitFor(engine.config, key));
      if head.None? {
        RunOne(w, FetchNothing(key));
      } else {
        if head.value in w.store.hashes {
          PickKeepsAttempt(engine.config, w, key, p, head.value);
        }
        SendPicked(head.value, picked, w, key, p);
      }
    }

    /** A claimed head that has a hash is sent; an orphaned one was only popped. */
    method SendPicked(m: MessageId, picked: Option<Hash>, ghost w: World, ghost key: string, ghost p: Plugin)
      requires engine.moves.Mirrors() && Now() == Do(w, FetchOf(engine.config, w, key, p, m))
      requires picked.Some? <==> m in w.store.hashes
      requires picked.Some? ==>
        picked.value.body == w.store.hashes[m].body && picked.value.retryCount == w.store.hashes[m].retryCount
      modifies engine.moves`world, engine.moves`log, engine.moves.sends
      ensures engine.moves.Mirrors() && Now() == Run(w, Pick(engine.config, w, key, p, Some(m)))
    {
      PickUnfolds(engine.config, w, key, p, m);
      if picked.Some? && picked.value.body.Some? {
        var _ := StartSend(m, picked.value.retryCount == 0);
      }
    }

    /**
     * One ready queue of a distribute pass. A spaced queue yields a message only once its interval has passed since it
     * was last admitted.
     */
    method DistributeQueue(key: string) returns (ghost head: Option<MessageId>, unlocked: bool)
      requires Valid()
      modifies this, engine.moves`world, engine.moves`log, engine.moves.redis, engine.moves.sends
      ensures Valid() && Enabled(engine.config, old(Now()), Handler.DistributeQueue(key, head, unlocked))
      ensures Now() == After(engine.config, old(Now()), Completes(Handler.DistributeQueue(key, head, unlocked)))
      ensures head.Some? ==> FirstInLine(old(Now()), key, head.value)
      ensures unlocked == LockOpen(engine.config, old(engine.moves.redis.locks), key, engine.moves.clock)
      ensures forall k :: k != key ==> SameLock(engine.moves.redis.locks, old(engine.moves.redis.locks), k)
      ensures unlocked && key in old(admittedAt) ==>
        var owner := QueueKeys.PluginIdOf(key);
        && owner.Some? && owner.value in engine.config.registry
          && engine.config.registry[owner.value].admission.Spacing?
        && old(admittedAt)[key] + engine.config.registry[owner.value].admission.minInterval <= engine.moves.clock
      ensures admittedAt == if unlocked then old(admittedAt)[key := engine.moves.clock] else old(admittedAt)
      ensures engine.moves.clock == old(engine.moves.clock)
    {
      ghost var w := Now();
      RunsAreSound(engine.config, w);
      var owner := QueueKeys.PluginIdOf(key);
      if owner.Some? && owner.value in engine.config.registry {
        head, unlocked := DistributeOwned(key, engine.config.registry[owner.value]);
      } else {
        unlocked := false;
        head := HeadExists(w, key);
      }
      if head.Some? {
        PickedComesFirst(engine.config, w, key, head.value);
      }
      RunContinues(engine.config, w, Completes(Handler.DistributeQueue(key, head, unlocked)));
    }

    method DistributeOwned(key: string, p: Plugin) returns (ghost head: Option<MessageId>, unlocked: bool)
      requires Valid() && Sound(engine.config, Now()) && QueueKeys.PluginIdOf(key) == Some(p.id)
      requires p.id in engine.config.registry && engine.config.registry[p.id] == p
      modifies this, engine.moves`world, engine.moves`log, engine.moves.redis, engine.moves.sends
      ensures engine.moves.Mirrors() && RightHead(old(Now()), key, head)
      ensures Now() == Run(old(Now()), Distribute(engine.config, old(Now()), key, head, unlocked))
      ensures forall k :: k in admittedAt ==>
        k in engine.moves.redis.locks && engine.moves.redis.locks[k] == admittedAt[k] + Interval(k)
      ensures unlocked == LockOpen(engine.config, old(engine.moves.redis.locks), key, engine.moves.clock)
      ensures forall k :: k != key ==> SameLock(engine.moves.redis.locks, old(engine.moves.redis.locks), k)
      ensures unlocked && key in old(admittedAt) ==> old(admittedAt)[key] + Interval(key) <= engine.moves.clock
      ensures admittedAt == if unlocked then old(admittedAt)[key := engine.moves.clock] else old(admittedAt)
    {
      ghost var w := Now();
      var admitted;
      admitted, unlocked := CanAdmit(p, key);
      if admitted {
        head := HeadExists(w, key);
        DistributeShape(engine.config, w, key, head, unlocked);
        var picked := PickAndSend(key, p);
        head := picked;
        AdmittedRun(engine.config, w, key, head, unlocked);
      } else {
        head := HeadExists(w, key);
        RefusedRun(engine.config, w, key, head, unlocked);
      }
    }

    lemma AdmittedRun(c: Config, w: World, key: string, head: Option<MessageId>, unlocked: bool)
      requires Sound(c, w) && Admits(c, w, key, unlocked)
      requires RightHead(Run(w, AdmissionSweep(w.store, LimitFor(c, key))), key, head)
      ensures RightHead(w, key, head)
      ensures var after := Run(w, AdmissionSweep(w.store, LimitFor(c, key)));
        Run(w, Distribute(c, w, key, head, unlocked))
        == Run(after, Pick(c, after, key, c.registry[QueueKeys.PluginIdOf(key).value], head))
    {
      PickedHeadWasHead(w, LimitFor(c, key), key, head);
      DistributeShape(c, w, key, head, unlocked);
    }

    lemma RefusedRun(c: Config, w: World, key: string, head: Option<MessageId>, unlocked: bool)
      requires !Admits(c, w, key, unlocked)
      requires QueueKeys.PluginIdOf(key).Some? && QueueKeys.PluginIdOf(key).value in c.registry
      ensures Run(w, Distribute(c, w, key, head, unlocked)) == Run(w, AdmissionSweep(w.store, LimitFor(c, key)))
    {
    }

    /**
     * Every listed ready queue is passed over exactly once, with what its spacing lock said when the round began, and
     * nothing that was not due becomes due.
     */
    method DistributeToNetworkServers() returns (ghost keys: seq<string>, ghost passes: seq<Event>)
      requires Valid()
      modifies this, engine.moves`world, engine.moves`log, engine.moves.redis, engine.moves.sends
      ensures Valid() && NothingFallsDue(old(Now()), Now()) && engine.moves.clock == old(engine.moves.clock)
      ensures forall key :: key in keys <==> key in old(engine.moves.redis.ready)
      ensures PassedOver(engine.config, old(Now()), Now(), old(engine.moves.redis.locks), keys, passes)
    {
      ghost var start, before, ready := Now(), engine.moves.redis.locks, engine.moves.redis.ready;
      var rest := engine.moves.redis.ready;
      keys, passes := [], [];
      while rest != {}
        invariant Valid()
        invariant Halfway(engine.config, start, Now(), before, engine.moves.redis.locks, ready, keys, passes, rest)
        decreases |rest|
      {
        var key :| key in rest;
        ghost var w, locks := Now(), engine.moves.redis.locks;
        ghost var pass := Pass(key);
        RoundGoesOn(
          engine.config, start, w, Now(), before, locks, engine.moves.redis.locks, ready, keys, passes, rest,
          key, pass);
        rest := rest - {key};
        keys, passes := keys + [key], passes + [pass];
      }
    }

    method Pass(key: string) returns (ghost pass: Event)
      requires Valid()
      modifies this, engine.moves`world, engine.moves`log, engine.moves.redis, engine.moves.sends
      ensures Valid() && NothingFallsDue(old(Now()), Now()) && engine.moves.clock == old(engine.moves.clock)
      ensures IsPass(engine.config, old(engine.moves.redis.locks), engine.moves.clock, key, pass)
      ensures forall k :: k != key ==> SameLock(engine.moves.redis.locks, old(engine.moves.redis.locks), k)
      ensures Enabled(engine.config, old(Now()), pass.handler) && Now() == After(engine.config, old(Now()), pass)
    {
      ghost var w := Now();
      RunsAreSound(engine.config, w);
      ghost var head, unlocked := DistributeQueue(key);
      HandlerLetsNothingFallDue(engine.config, w, Handler.DistributeQueue(key, head, unlocked));
      pass := Completes(Handler.DistributeQueue(key, head, unlocked));
    }

    lemma PickedHeadWasHead(w: World, limit: Option<Limit>, key: string, head: Option<MessageId>)
      requires RightHead(Run(w, AdmissionSweep(w.store, limit)), key, head)
      ensures RightHead(w, key, head)
    {
      SweepKeepsRest(w, limit);
    }

    /** A vendor call of `m` settles, whatever it answered, and releases its registration. */
    method SendSettles(m: MessageId, p: Plugin, promise: nat, sent: SendResult, jitter: real)
      requires Valid() && Enabled(engine.config, Now(), Handler.SendSettles(m, sent, jitter))
      requires m in engine.moves.sends.sends && engine.moves.sends.sends[m] == promise
      requires m in Now().minted && Now().minted[m].plugin in engine.config.registry
      requires p == engine.config.registry[Now().minted[m].plugin]
      modifies engine.moves`world, engine.moves`log, engine.moves.redis, engine.moves.sends
      ensures Valid() && Now() == After(engine.config, old(Now()), Completes(Handler.SendSettles(m, sent, jitter)))
    {
      ghost var w := Now();
      RunContinues(engine.config, w, Completes(Handler.SendSettles(m, sent, jitter)));
      NoDuplicateSend(engine.config, w, m, NsQ);
      ghost var effect := SettleEffect(engine.config, w, m, p, sent, jitter);
      Finish(m, p, sent, jitter);
      SettleLeavesOthers(engine.config, w, m, p, sent, jitter, m);
      RunLeavesSends(w, effect);
      RunAppend(w, effect, [EndSend(m)]);
      RunOne(Now(), EndSend(m));
      engine.moves.SettleSend(m, promise);
    }

    /** What the answer of the vendor leads to: forward on success, retry or fail otherwise. */
    method Finish(m: MessageId, p: Plugin, sent: SendResult, jitter: real)
      requires engine.moves.config == engine.config && engine.moves.Mirrors()
      modifies engine.moves`world, engine.moves`log, engine.moves.redis
      ensures engine.moves.Mirrors() && engine.moves.redis.locks == old(engine.moves.redis.locks)
      ensures Now() == Run(old(Now()), SettleEffect(engine.config, old(Now()), m, p, sent, jitter))
    {
      match sent
      case Accepted(d) =>
        RunOne(Now(), Handlers.Advance(engine.config, Now(), m, p, Ns, Some(d))[0]);
        var _ := engine.moves.Advance(m, p, Ns, Some(d));
      case NoExternalId =>
        var _ := engine.RetryOrFail(m, NsQ, FailureContext(EMPTY_EXTERNAL_ID, true), jitter);
      case SendThrew(context) =>
        var _ := engine.RetryOrFail(m, NsQ, context, jitter);
    }

    /** Claim first, then clean up: only a message still waiting is cancelled. */
    method CancelOneMessage(m: MessageId) returns (cancelled: bool)
      requires Valid()
      modifies engine.moves`world, engine.moves.redis
      ensures Valid() && Now() == After(engine.config, old(Now()), Completes(CancelOne(m)))
      ensures cancelled == Cancellable(engine.config, old(Now()).store, m)
      ensures cancelled <==> m in old(Now()).store.hashes && IsWaiting(old(Now()), m)
    {
      RunsAreSound(engine.config, Now());
      CancellableIsWaiting(engine.config, Now(), m);
      RunContinues(engine.config, Now(), Completes(CancelOne(m)));
      cancelled := CancelLoaded(m);
    }

    method CancelLoaded(m: MessageId) returns (cancelled: bool)
      requires engine.moves.Mirrors()
      modifies engine.moves`world, engine.moves.redis
      ensures engine.moves.Mirrors() && engine.moves.redis.locks == old(engine.moves.redis.locks)
      ensures cancelled == Cancellable(engine.config, old(Now()).store, m)
      ensures Now() == Run(old(Now()), Cancel(engine.config, old(Now()), m))
    {
      cancelled := false;
      var load := engine.moves.redis.GetMessageById(m);
      if load.Loaded? && load.hash.status in {Queued, ToRetry}
        && load.hash.body.value.plugin in engine.config.registry {
        var q := if load.hash.status == ToRetry then RetryQ else ReadyQ(load.hash.body.value.readyKey);
        cancelled := ClaimAndPurge(m, load.hash, q);
      }
    }

    method ClaimAndPurge(m: MessageId, h: Hash, q: QueueKey) returns (claimed: bool)
      requires engine.moves.Mirrors() && h.body.Some?
      modifies engine.moves`world, engine.moves.redis
      ensures engine.moves.Mirrors() && engine.moves.redis.locks == old(engine.moves.redis.locks)
      ensures claimed == ((q, m) in old(Now()).store.zsets)
      ensures Now() == Run(old(Now()), if claimed then [Unlist(m, q), Op.Purge(m, h, Cancelled)] else [Unlist(m, q)])
    {
      RunOne(Now(), Unlist(m, q));
      RunTwo(Now(), Unlist(m, q), Op.Purge(m, h, Cancelled));
      claimed := engine.moves.ClaimFromQueue(m, q);
      if claimed {
        engine.moves.Purge(m, h, Cancelled);
      }
    }

    /**
     * Cancelling a correlation id cancels exactly those of its messages that could still be claimed, phases included,
     * reports whether that was all of them, and touches no other message.
     */
    method CancelByCorrelationId(correlationId: string) returns (result: CancelResult)
      requires Valid()
      modifies engine.moves`world, engine.moves.redis
      ensures Valid()
      ensures var ids := NamedBy(old(Now()).store, correlationId, PHASES);
        && (result == NotFound <==> ids == [])
        && (result == CancelledAll <==> ids != [] && AllCancellable(engine.config, old(Now()).store, ids))
        && CancelledExactly(engine.config, old(Now()), Now(), ids)
    {
      ghost var w := Now();
      RunsAreSound(engine.config, w);
      var ids := engine.moves.redis.GetAllMessagesForCorrelationId(correlationId);
      PhasesDiffer();
      NamedByIsDistinct(w, correlationId, PHASES);
      if ids == [] {
        result := NotFound;
      } else {
        var all := CancelEach(ids);
        result := if all then CancelledAll else NotCancellable;
      }
    }

    method CancelEach(ids: seq<MessageId>) returns (all: bool)
      requires Valid() && Distinct(ids)
      modifies engine.moves`world, engine.moves.redis
      ensures Valid() && CancelledExactly(engine.config, old(Now()), Now(), ids)
      ensures all == AllCancellable(engine.config, old(Now()).store, ids)
    {
      ghost var w := Now();
      all := true;
      for i := 0 to |ids|
        invariant Valid() && CancelledExactly(engine.config, w, Now(), ids[..i])
        invariant all == AllCancellable(engine.config, w.store, ids[..i])
      {
        assert ids[..i + 1] == ids[..i] + [ids[i]];
        var cancelled := CancelNext(w, ids[..i], ids[i]);
        all := all && cancelled;
      }
      assert ids[..|ids|] == ids;
    }

    method CancelNext(ghost w: World, ghost ids: seq<MessageId>, m: MessageId) returns (cancelled: bool)
      requires Valid() && CancelledExactly(engine.config, w, Now(), ids) && m !in ids
      modifies engine.moves`world, engine.moves.redis
      ensures Valid() && CancelledExactly(engine.config, w, Now(), ids + [m])
      ensures AllCancellable(engine.config, w.store, ids + [m])
        == (AllCancellable(engine.config, w.store, ids) && cancelled)
    {
      CancelStep(engine.config, w, Now(), ids, m);
      AllCancellableCons(engine.config, w.store, ids, m);
      cancelled := CancelOneMessage(m);
    }

    lemma PhasesDiffer()
      ensures forall i, j :: 0 <= i < j < |PHASES| ==> PHASES[i] != PHASES[j]
    {
      assert |PHASES[0]| == 0 && |PHASES[1]| == 4 && |PHASES[2]| == 4 && |PHASES[3]| == 4;
      assert PHASES[1][3] == 'A' && PHASES[2][3] == 'B' && PHASES[3][3] == 'C';
    }
  }
}
