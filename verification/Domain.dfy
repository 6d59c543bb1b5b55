/** The vocabulary of the message lifecycle: identifiers, statuses, stages, plugins and configuration. */
module Domain {

  datatype Option<+T> = None | Some(value: T)

  /** A ULID: a creation instant and a random tail, compared in that order. */
  datatype MessageId = MessageId(time: real, entropy: nat)

  predicate IdBefore(a: MessageId, b: MessageId) {
    a.time < b.time || (a.time == b.time && a.entropy < b.entropy)
  }

  type PluginId = string
  type ExternalId = string

  datatype Status =
    | Queued
    | ToRetry
    | SentToNs
    | DeliveredToNs
    | SentToDevice
    | DeliverySuccessful
    | DeliveryFailed

  datatype Pattern = Push | Pull

  datatype Stage = Ns | RelayNode | Device | AwaitingTask | Retry

  /** A Redis sorted set: one of the five stage queues, or a ready queue named by its Redis key. */
  datatype QueueKey =
    | NsQ
    | RelayQ
    | DeviceQ
    | TaskQ(plugin: PluginId)
    | RetryQ
    | ReadyQ(name: string)

  predicate IsStageQueue(q: QueueKey) {
    !q.ReadyQ?
  }

  /** Per-plugin stage timeouts and first-poll delay, in milliseconds. */
  datatype Tuning = Tuning(nsInFlight: real, relayNodeInFlight: real, deviceInFlight: real, initialPollDelay: real)

  datatype Admission = Spacing(minInterval: real) | Concurrency(maxInFlight: nat)

  /** A registered delivery plugin. A token-only plugin is one the registry does not hold. */
  datatype Plugin = Plugin(
    id: PluginId,
    pattern: Pattern,
    admission: Admission,
    tuning: Tuning,
    inspectsRemoteQueue: bool)

  /** Retry knobs shared by every plugin. */
  datatype Delivery = Delivery(maxRetries: nat, baseDelay: real, multiplier: real, maxDelay: real)

  datatype RawConfig = RawConfig(delivery: Delivery, registry: map<PluginId, Plugin>)

  predicate ValidTuning(t: Tuning) {
    t.nsInFlight >= 1.0 && t.relayNodeInFlight >= 1.0 && t.deviceInFlight >= 1.0 && t.initialPollDelay >= 1.0
  }

  /** The bounds the configuration schema enforces: positive whole delays and a multiplier of at least one. */
  predicate ValidDelivery(d: Delivery) {
    d.baseDelay >= 1.0 && d.multiplier >= 1.0 && d.maxDelay >= 1.0
  }

  ghost predicate ValidConfig(c: RawConfig) {
    && ValidDelivery(c.delivery)
    && (forall p :: p in c.registry ==> c.registry[p].id == p && ValidTuning(c.registry[p].tuning))
  }

  ghost const EXAMPLE_CONFIG := RawConfig(Delivery(11, 2000.0, 2.0, 3600000.0), map[])

  type Config = c: RawConfig | ValidConfig(c) ghost witness EXAMPLE_CONFIG

  /** One recorded delivery failure; reasons are carried but never inspected. */
  datatype Failure = Failure(status: Status, reason: string, isFinal: bool)

  /** The fields a message is created with. They never change. */
  datatype Body = Body(plugin: PluginId, readyKey: string, priority: real, correlation: Option<string>)

  /**
   * A message hash. `body` is missing only when a write recreated a hash that had expired:
   * loading such a hash throws, because the device payload is gone.
   */
  datatype Hash = Hash(
    body: Option<Body>,
    status: Status,
    retryCount: nat,
    externalId: Option<ExternalId>,
    slot: Option<string>,
    history: seq<Failure>)

  /** Why an attempt failed. */
  datatype FailureContext = FailureContext(reason: string, skipRetry: bool)

  /** What a stage action reports to the runner. */
  datatype Outcome = Rescheduled | MovedOn | Removed | Orphaned
}
