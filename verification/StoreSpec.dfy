/** The Redis state of the delivery engine as a value, and each atomic Redis operation as a function on it. */
module StoreSpec {
  import opened Domain

  /** Sorted sets are flattened: `zsets[(q, m)]` is the score of member `m` of queue `q`. */
  datatype Store = Store(
    hashes: map<MessageId, Hash>,
    zsets: map<(QueueKey, MessageId), real>,
    ready: set<string>,
    ext: map<ExternalId, MessageId>,
    corr: map<string, MessageId>,
    slots: map<string, set<MessageId>>)

  /** The admission payload of a pick: which concurrency set to claim a slot in, and its cap. */
  datatype Limit = Limit(key: string, max: nat)

  const EMPTY_STORE := Store(map[], map[], {}, map[], map[], map[])

  function Occupants(s: Store, key: string): set<MessageId> {
    if key in s.slots then s.slots[key] else {}
  }

  /** Member order of a sorted set: by score, then by member. */
  predicate Before(s: Store, q: QueueKey, a: MessageId, b: MessageId)
    requires (q, a) in s.zsets && (q, b) in s.zsets
  {
    s.zsets[(q, a)] < s.zsets[(q, b)] || (s.zsets[(q, a)] == s.zsets[(q, b)] && IdBefore(a, b))
  }

  lemma BeforeIsTransitive(s: Store, q: QueueKey, a: MessageId, b: MessageId, x: MessageId)
    requires (q, a) in s.zsets && (q, b) in s.zsets && (q, x) in s.zsets
    requires Before(s, q, a, b) && Before(s, q, b, x)
    ensures Before(s, q, a, x)
  {
  }

  lemma BeforeIsTotal(s: Store, q: QueueKey, a: MessageId, b: MessageId)
    requires (q, a) in s.zsets && (q, b) in s.zsets && a != b
    ensures Before(s, q, a, b) <==> !Before(s, q, b, a)
  {
    assert a.time != b.time || a.entropy != b.entropy;
  }

  ghost predicate IsHead(s: Store, q: QueueKey, m: MessageId) {
    && (q, m) in s.zsets
    && (forall x :: (q, x) in s.zsets && x != m ==> Before(s, q, m, x))
  }

  ghost predicate NoMembers(s: Store, q: QueueKey) {
    forall x :: (q, x) !in s.zsets
  }

  predicate AtCap(s: Store, limit: Option<Limit>) {
    limit.Some? && limit.value.max > 0 && |Occupants(s, limit.value.key)| >= limit.value.max
  }

  function Withdraw(zsets: map<(QueueKey, MessageId), real>, q: QueueKey, m: MessageId)
    : map<(QueueKey, MessageId), real>
  {
    zsets - {(q, m)}
  }

  /** Removing keys from the distribute set: a popped queue leaves it when its last member goes. */
  ghost function ReadyAfterPop(s: Store, key: string): set<string> {
    if NoMembers(s, ReadyQ(key)) then s.ready - {key} else s.ready
  }

  /** Enqueue: hash, ready-queue membership, distribute set and correlation index in one MULTI. */
  function InsertMessage(s: Store, m: MessageId, b: Body): Store {
    s.(hashes := s.hashes[m := Hash(Some(b), Queued, 0, None, None, [])],
       zsets := s.zsets[(ReadyQ(b.readyKey), m) := -b.priority],
       ready := s.ready + {b.readyKey},
       corr := if b.correlation.Some? then s.corr[b.correlation.value := m] else s.corr)
  }

  /** The pick script once its head member is known and the cap has room. */
  ghost function FetchHead(s: Store, key: string, m: MessageId, dueAt: real, limit: Option<Limit>): Store {
    var popped := s.(zsets := Withdraw(s.zsets, ReadyQ(key), m));
    var cleaned := popped.(ready := ReadyAfterPop(popped, key));
    if m !in s.hashes then cleaned
    else
      var h := s.hashes[m].(status := SentToNs);
      var claimed := if limit.Some? then h.(slot := Some(limit.value.key)) else h;
      cleaned.(
        hashes := s.hashes[m := claimed],
        zsets := cleaned.zsets[(NsQ, m) := dueAt],
        slots := if limit.Some? then s.slots[limit.value.key := Occupants(s, limit.value.key) + {m}] else s.slots)
  }

  /** The move script: gated on membership of the source queue and on the hash. */
  function MoveBetween(s: Store, m: MessageId, from: QueueKey, to: QueueKey, score: real, status: Status,
                       externalId: Option<ExternalId>): Store
  {
    if (from, m) !in s.zsets then s
    else if m !in s.hashes then s.(zsets := Withdraw(s.zsets, from, m))
    else
      var h := s.hashes[m].(status := status);
      s.(zsets := Withdraw(s.zsets, from, m)[(to, m) := score],
         hashes := s.hashes[m := if externalId.Some? then h.(externalId := externalId) else h],
         ext := if externalId.Some? then s.ext[externalId.value := m] else s.ext)
  }

  predicate MoveCommits(s: Store, m: MessageId, from: QueueKey) {
    (from, m) in s.zsets && m in s.hashes
  }

  function ReleaseSlot(slots: map<string, set<MessageId>>, key: Option<string>, m: MessageId)
    : map<string, set<MessageId>>
  {
    if key.Some? && key.value in slots then slots[key.value := slots[key.value] - {m}] else slots
  }

  function DropIndex(ext: map<ExternalId, MessageId>, d: Option<ExternalId>): map<ExternalId, MessageId> {
    if d.Some? then ext - {d.value} else ext
  }

  const BLANK_HASH := Hash(None, ToRetry, 0, None, None, [])

  /** The MULTI that enters retry, given the external id and slot key read beforehand. It has no gate of its own. */
  function WriteRetry(s: Store, m: MessageId, from: QueueKey, retries: nat, history: seq<Failure>, dueAt: real,
                      externalId: Option<ExternalId>, slot: Option<string>): Store
  {
    var h := if m in s.hashes then s.hashes[m] else BLANK_HASH;
    var written := h.(status := ToRetry, retryCount := retries + 1, history := history, externalId := None);
    s.(hashes := s.hashes[m := if slot.Some? then written.(slot := None) else written],
       zsets := Withdraw(s.zsets, from, m)[(RetryQ, m) := dueAt],
       ext := DropIndex(s.ext, externalId),
       slots := ReleaseSlot(s.slots, slot, m))
  }

  /** Entering retry with its membership guard, its read and its MULTI taken as one step. */
  function EnterRetry(s: Store, m: MessageId, from: QueueKey, retries: nat, history: seq<Failure>, dueAt: real): Store {
    if (from, m) !in s.zsets then s
    else
      var h := if m in s.hashes then s.hashes[m] else BLANK_HASH;
      WriteRetry(s, m, from, retries, history, dueAt, h.externalId, h.slot)
  }

  /** ZADD XX. */
  function Reschedule(s: Store, m: MessageId, q: QueueKey, score: real): Store {
    if (q, m) in s.zsets then s.(zsets := s.zsets[(q, m) := score]) else s
  }

  function RemoveFromQueue(s: Store, m: MessageId, q: QueueKey): Store {
    s.(zsets := Withdraw(s.zsets, q, m))
  }

  /** The sweep list of a purge: the plugin's five stage queues and the ready queue. */
  function PurgeKeys(b: Body): set<QueueKey> {
    {NsQ, RelayQ, DeviceQ, TaskQ(b.plugin), RetryQ, ReadyQ(b.readyKey)}
  }

  /** ZREM of one member from each of `keys`. */
  function SweepQueues(zsets: map<(QueueKey, MessageId), real>, m: MessageId, keys: set<QueueKey>)
    : map<(QueueKey, MessageId), real>
  {
    map k | k in zsets && !(k.1 == m && k.0 in keys) :: zsets[k]
  }

  /** Full cleanup from a snapshot `seen` of the hash, sweeping `keys`. */
  function FullCleanup(s: Store, m: MessageId, seen: Hash, correlation: Option<string>, keys: set<QueueKey>): Store {
    s.(hashes := s.hashes - {m},
       zsets := SweepQueues(s.zsets, m, keys),
       ext := DropIndex(s.ext, seen.externalId),
       corr := if correlation.Some? then s.corr - {correlation.value} else s.corr,
       slots := ReleaseSlot(s.slots, seen.slot, m))
  }

  function PurgeMessage(s: Store, m: MessageId, seen: Hash): Store
    requires seen.body.Some?
  {
    FullCleanup(s, m, seen, seen.body.value.correlation, PurgeKeys(seen.body.value))
  }

  /** Dropping dead members of a concurrency set. */
  function SweepDead(s: Store, key: string, dead: set<MessageId>): Store {
    if key in s.slots then s.(slots := s.slots[key := s.slots[key] - dead]) else s
  }

  /** What cleanup is for: the store with every entry that names `m` gone and every other entry kept. */
  ghost function EraseMessage(s: Store, m: MessageId): Store {
    Store(
      s.hashes - {m},
      map k | k in s.zsets && k.1 != m :: s.zsets[k],
      s.ready,
      map d | d in s.ext && s.ext[d] != m :: s.ext[d],
      map c | c in s.corr && s.corr[c] != m :: s.corr[c],
      map k | k in s.slots :: s.slots[k] - {m})
  }

  /** No hash, queue, index or slot names `m`. */
  ghost predicate Absent(s: Store, m: MessageId) {
    && m !in s.hashes
    && (forall q :: (q, m) !in s.zsets)
    && (forall d :: d in s.ext ==> s.ext[d] != m)
    && (forall c :: c in s.corr ==> s.corr[c] != m)
    && (forall k :: k in s.slots ==> m !in s.slots[k])
  }
}
