/** The engine as a machine of atomic steps: the store, the process's own sends, and a record of what happened. */
module World {
  import opened Domain
  import opened Stages
  import opened StoreSpec
  import QueueKeys

  /** A notification persisted for the adopter. */
  datatype Note = SentNote | SuccessNote(history: seq<Failure>) | FailedNote(history: seq<Failure>)

  datatype Cause = Resolved | Cancelled

  datatype Op =
    | Insert(m: MessageId, body: Body)
    | FetchNext(m: MessageId, key: string, dueAt: real, limit: Option<Limit>)
    | FetchNothing(key: string)
    | Move(m: MessageId, from: QueueKey, to: QueueKey, score: real, status: Status, externalId: Option<ExternalId>)
    | CommitRetry(m: MessageId, from: QueueKey, retries: nat, history: seq<Failure>, dueAt: real)
    | Postpone(m: MessageId, q: QueueKey, score: real)
    | Purge(m: MessageId, seen: Hash, cause: Cause)
    | Unlist(m: MessageId, q: QueueKey)
    | MarkReady(key: string)
    | SweepSlots(key: string, dead: set<MessageId>)
    | Notify(m: MessageId, note: Note)
    | NotifyUnsolicited
    | BeginSend(m: MessageId)
    | EndSend(m: MessageId)
    | ExpireHash(m: MessageId)
    | ExpireIndex(d: ExternalId)
    | ExpireCorrelation(c: string)
    | Restart
    | Elapse(until: real)

  /**
   * `minted` holds every id ever enqueued with its immutable fields; `purged` and `cancelled` the ids cleaned up;
   * `log` the notifications, `picks` and `sends` the claims and vendor calls per message; `outstanding` the vendor
   * calls this process still awaits; `owed` the ready queues whose requeue has not reached its SADD.
   */
  datatype World = World(
    store: Store,
    clock: real,
    minted: map<MessageId, Body>,
    purged: set<MessageId>,
    cancelled: set<MessageId>,
    log: map<MessageId, seq<Note>>,
    picks: map<MessageId, nat>,
    sends: map<MessageId, nat>,
    outstanding: multiset<MessageId>,
    owed: set<string>)

  function Log(w: World, m: MessageId): seq<Note> {
    if m in w.log then w.log[m] else []
  }

  function Picks(w: World, m: MessageId): nat {
    if m in w.picks then w.picks[m] else 0
  }

  function Sends(w: World, m: MessageId): nat {
    if m in w.sends then w.sends[m] else 0
  }

  ghost function Do(w: World, op: Op): World {
    match op
    case Insert(m, b) =>
      w.(store := InsertMessage(w.store, m, b), minted := w.minted[m := b], owed := w.owed - {b.readyKey})
    case FetchNext(m, key, dueAt, limit) =>
      w.(store := FetchHead(w.store, key, m, dueAt, limit),
         picks := if m in w.store.hashes then w.picks[m := Picks(w, m) + 1] else w.picks)
    case FetchNothing(key) =>
      w.(store := w.store.(ready := w.store.ready - {key}))
    case Move(m, from, to, score, status, d) =>
      w.(store := MoveBetween(w.store, m, from, to, score, status, d),
         owed := if to.ReadyQ? && MoveCommits(w.store, m, from) then w.owed + {to.name} else w.owed)
    case CommitRetry(m, from, retries, history, dueAt) =>
      w.(store := EnterRetry(w.store, m, from, retries, history, dueAt))
    case Postpone(m, q, score) =>
      w.(store := Reschedule(w.store, m, q, score))
    case Purge(m, seen, cause) =>
      if seen.body.None? then w
      else w.(store := PurgeMessage(w.store, m, seen), purged := w.purged + {m},
              cancelled := if cause == Cancelled then w.cancelled + {m} else w.cancelled)
    case Unlist(m, q) =>
      w.(store := RemoveFromQueue(w.store, m, q))
    case MarkReady(key) =>
      w.(store := w.store.(ready := w.store.ready + {key}), owed := w.owed - {key})
    case SweepSlots(key, dead) =>
      w.(store := SweepDead(w.store, key, dead))
    case Notify(m, note) =>
      w.(log := w.log[m := Log(w, m) + [note]])
    case NotifyUnsolicited => w
    case BeginSend(m) =>
      w.(outstanding := w.outstanding + multiset{m}, sends := w.sends[m := Sends(w, m) + 1])
    case EndSend(m) =>
      w.(outstanding := w.outstanding - multiset{m})
    case ExpireHash(m) =>
      w.(store := w.store.(hashes := w.store.hashes - {m}))
    case ExpireIndex(d) =>
      w.(store := w.store.(ext := w.store.ext - {d}))
    case ExpireCorrelation(c) =>
      w.(store := w.store.(corr := w.store.corr - {c}))
    case Restart =>
      w.(outstanding := multiset{})
    case Elapse(until) =>
      w.(clock := until)
  }

  ghost function Run(w: World, ops: seq<Op>): World
    decreases |ops|
  {
    if ops == [] then w else Run(Do(w, ops[0]), ops[1..])
  }

  const INITIAL_WORLD := World(EMPTY_STORE, 0.0, map[], {}, {}, map[], map[], map[], multiset{}, {})

  /** The queue a message belongs in, by its status and its plugin's pattern. */
  function Home(c: Config, b: Body, status: Status): Option<QueueKey>
    requires b.plugin in c.registry
  {
    if status == Queued then Some(ReadyQ(b.readyKey))
    else
      var stage := StageForStatus(status, c.registry[b.plugin].pattern);
      if stage.Some? then Some(StageKeyFor(stage.value, b.plugin)) else None
  }

  /** The moves the engine issues: out of `ns` with an external id, the relay-node hop, and the requeue. */
  ghost predicate EngineMove(c: Config, b: Body, from: QueueKey, to: QueueKey, status: Status, d: Option<ExternalId>)
    requires b.plugin in c.registry
  {
    || (var next := NextStage(c.registry[b.plugin].pattern, Ns);
        from == NsQ && next.Some? && to == StageKeyFor(next.value, b.plugin) && status == EntryStatus(next.value)
          && d.Some?)
    || (from == RelayQ && to == DeviceQ && status == SentToDevice && d.None?)
    || (from == RetryQ && to == ReadyQ(b.readyKey) && status == Queued && d.None?)
  }

  /**
   * The steps that any interleaving of handlers can issue, whatever snapshot a handler acts on: counts, histories,
   * external ids, slots and source queues are arbitrary; only the immutable fields of a message, its priority among
   * them, and the fact that a due time is computed from the clock, are taken from the code.
   */
  ghost predicate Allowed(c: Config, w: World, op: Op) {
    match op
    case Insert(m, b) =>
      m !in w.minted && m.time <= w.clock && b.plugin in c.registry
        && QueueKeys.PluginIdOf(b.readyKey) == Some(b.plugin)
    case FetchNext(m, key, dueAt, limit) =>
      && IsHead(w.store, ReadyQ(key), m) && dueAt > w.clock
      && limit == LimitFor(c, key) && (limit.Some? ==> limit.value.max > 0) && !AtCap(w.store, limit)
    case FetchNothing(key) => NoMembers(w.store, ReadyQ(key))
    case Move(m, from, to, score, status, d) =>
      m in w.minted && w.minted[m].plugin in c.registry && EngineMove(c, w.minted[m], from, to, status, d)
      && (if IsStageQueue(to) then score > w.clock else score == -w.minted[m].priority)
    case CommitRetry(m, from, _, _, dueAt) => dueAt > w.clock
    case Postpone(m, q, score) => IsStageQueue(q) && score > w.clock
    case Purge(m, seen, _) => m in w.minted && seen.body == Some(w.minted[m])
    case SweepSlots(key, dead) => forall x :: x in dead ==> x !in w.store.hashes
    case Elapse(until) => until >= w.clock
    case ExpireIndex(d) => d in w.store.ext ==> w.store.ext[d] !in w.store.hashes
    case ExpireCorrelation(r) => r in w.store.corr ==> w.store.corr[r] !in w.store.hashes
    case Unlist(_, _) => true
    case MarkReady(_) => true
    case Notify(_, _) => true
    case NotifyUnsolicited => true
    case BeginSend(_) => true
    case EndSend(_) => true
    case ExpireHash(_) => true
    case Restart => true
  }

  /** The admission payload the distributor passes when it picks from `key`. */
  function LimitFor(c: Config, key: string): Option<Limit> {
    var owner := QueueKeys.PluginIdOf(key);
    if owner.None? || owner.value !in c.registry then None
    else match c.registry[owner.value].admission
      case Spacing(_) => None
      case Concurrency(max) =>
        var rate := QueueKeys.RateLimitKey(key);
        Some(Limit(if rate.Some? then rate.value else "", max))
  }

  ghost predicate AllAllowed(c: Config, w: World, ops: seq<Op>)
    decreases |ops|
  {
    ops == [] || (Allowed(c, w, ops[0]) && AllAllowed(c, Do(w, ops[0]), ops[1..]))
  }

  /** A world some interleaving of allowed steps leads to. */
  ghost predicate Reachable(c: Config, w: World) {
    exists ops :: AllAllowed(c, INITIAL_WORLD, ops) && Run(INITIAL_WORLD, ops) == w
  }

  /** Whether a step is about the message `x`. */
  predicate Concerns(op: Op, x: MessageId) {
    match op
    case FetchNothing(_) => false
    case MarkReady(_) => false
    case SweepSlots(_, _) => false
    case NotifyUnsolicited => false
    case ExpireIndex(_) => false
    case ExpireCorrelation(_) => false
    case Restart => false
    case Elapse(_) => false
    case _ => op.m == x
  }

  /** Two worlds agree on the hash and the queues of `x`. */
  ghost predicate SameEntries(a: World, b: World, x: MessageId) {
    && (x in a.store.hashes <==> x in b.store.hashes)
    && (x in a.store.hashes ==> a.store.hashes[x] == b.store.hashes[x])
    && (forall q :: (q, x) in a.store.zsets <==> (q, x) in b.store.zsets)
  }

  /** Two worlds agree on the record of `x`. */
  ghost predicate SameRecord(a: World, b: World, x: MessageId) {
    && (x in a.minted <==> x in b.minted)
    && (x in a.minted ==> a.minted[x] == b.minted[x])
    && (x in a.purged <==> x in b.purged)
    && (x in a.cancelled <==> x in b.cancelled)
    && Log(a, x) == Log(b, x) && Picks(a, x) == Picks(b, x) && Sends(a, x) == Sends(b, x)
  }

  ghost predicate SameMessage(a: World, b: World, x: MessageId) {
    SameEntries(a, b, x) && SameRecord(a, b, x)
  }

  lemma OthersKeepHash(w: World, op: Op, x: MessageId)
    requires !Concerns(op, x)
    ensures var b := Do(w, op);
      && (x in w.store.hashes <==> x in b.store.hashes)
      && (x in w.store.hashes ==> w.store.hashes[x] == b.store.hashes[x])
  {
  }

  lemma OthersKeepQueues(w: World, op: Op, x: MessageId, q: QueueKey)
    requires !Concerns(op, x)
    ensures (q, x) in w.store.zsets <==> (q, x) in Do(w, op).store.zsets
  {
    match op
    case FetchNext(_, _, _, _) =>
    case Move(_, _, _, _, _, _) =>
    case CommitRetry(_, _, _, _, _) =>
    case Purge(_, _, _) =>
    case _ =>
  }

  lemma OthersKeepEntries(w: World, op: Op, x: MessageId)
    requires !Concerns(op, x)
    ensures SameEntries(w, Do(w, op), x)
  {
    OthersKeepHash(w, op, x);
    forall q ensures (q, x) in w.store.zsets <==> (q, x) in Do(w, op).store.zsets {
      OthersKeepQueues(w, op, x, q);
    }
  }

  lemma OthersKeepLog(w: World, op: Op, x: MessageId)
    requires !Concerns(op, x)
    ensures Log(w, x) == Log(Do(w, op), x)
  {
  }

  lemma OthersKeepPicks(w: World, op: Op, x: MessageId)
    requires !Concerns(op, x)
    ensures Picks(w, x) == Picks(Do(w, op), x)
  {
  }

  lemma OthersKeepSends(w: World, op: Op, x: MessageId)
    requires !Concerns(op, x)
    ensures Sends(w, x) == Sends(Do(w, op), x)
  {
  }

  lemma OthersKeepMembership(w: World, op: Op, x: MessageId)
    requires !Concerns(op, x)
    ensures var b := Do(w, op);
      && (x in w.minted <==> x in b.minted) && (x in w.minted ==> w.minted[x] == b.minted[x])
      && (x in w.purged <==> x in b.purged) && (x in w.cancelled <==> x in b.cancelled)
  {
  }

  lemma OthersStayTheSame(w: World, op: Op, x: MessageId)
    requires !Concerns(op, x)
    ensures SameMessage(w, Do(w, op), x)
  {
    OthersKeepEntries(w, op, x);
    OthersKeepLog(w, op, x);
    OthersKeepPicks(w, op, x);
    OthersKeepSends(w, op, x);
    OthersKeepMembership(w, op, x);
  }
}
