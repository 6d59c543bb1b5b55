/** The stage table: where a message waits, what it is called meanwhile, and for how long. */
module Stages {
  import opened Domain

  const PUSH_PIPELINE := [Ns, RelayNode, Device]
  const PULL_PIPELINE := [Ns, AwaitingTask]

  /** How long a message may be polled before it fails for good: 48 hours. */
  const PULL_MAX_MESSAGE_AGE: real := 172800000.0

  function Pipeline(pattern: Pattern): seq<Stage> {
    match pattern
    case Push => PUSH_PIPELINE
    case Pull => PULL_PIPELINE
  }

  function IndexOf(stages: seq<Stage>, stage: Stage): (i: int)
    ensures -1 <= i < |stages|
    ensures i >= 0 ==> stages[i] == stage
    ensures i == -1 ==> stage !in stages
  {
    if stages == [] then -1
    else if stages[0] == stage then 0
    else
      var i := IndexOf(stages[1..], stage);
      if i == -1 then -1 else i + 1
  }

  function NextStage(pattern: Pattern, current: Stage): Option<Stage> {
    var stages := Pipeline(pattern);
    var i := IndexOf(stages, current);
    if i == -1 || i + 1 >= |stages| then None else Some(stages[i + 1])
  }

  function EntryStatus(stage: Stage): Status {
    match stage
    case Ns => SentToNs
    case RelayNode => DeliveredToNs
    case Device => SentToDevice
    case AwaitingTask => DeliveredToNs
    case Retry => ToRetry
  }

  function StageForStatus(status: Status, pattern: Pattern): Option<Stage> {
    match status
    case SentToNs => Some(Ns)
    case DeliveredToNs => Some(if pattern == Push then RelayNode else AwaitingTask)
    case SentToDevice => Some(Device)
    case ToRetry => Some(Retry)
    case Queued => None
    case DeliverySuccessful => None
    case DeliveryFailed => None
  }

  function StageKeyFor(stage: Stage, plugin: PluginId): QueueKey {
    match stage
    case Ns => NsQ
    case RelayNode => RelayQ
    case Device => DeviceQ
    case AwaitingTask => TaskQ(plugin)
    case Retry => RetryQ
  }

  function StageOf(q: QueueKey): Stage
    requires IsStageQueue(q)
  {
    match q
    case NsQ => Ns
    case RelayQ => RelayNode
    case DeviceQ => Device
    case TaskQ(_) => AwaitingTask
    case RetryQ => Retry
  }

  function Pow(base: real, exponent: nat): real {
    if exponent == 0 then 1.0 else base * Pow(base, exponent - 1)
  }

  function Min(a: real, b: real): real {
    if a <= b then a else b
  }

  function CappedBackoff(retryCount: nat, d: Delivery): real {
    Min(d.baseDelay * Pow(d.multiplier, retryCount), d.maxDelay)
  }

  /** `jitter` stands for the random draw, any real in [0, 1). */
  function BackoffDelay(retryCount: nat, d: Delivery, jitter: real): real {
    var capped := CappedBackoff(retryCount, d);
    capped + FlooredShare(jitter, capped * 0.5)
  }

  function FlooredShare(draw: real, span: real): real {
    (draw * span).Floor as real
  }

  function PollLadder(age: real): real {
    if age < 20000.0 then 10000.0
    else if age < 50000.0 then 15000.0
    else if age < 90000.0 then 20000.0
    else 30000.0
  }

  function EntryWait(stage: Stage, t: Tuning, d: Delivery, retryCount: nat, jitter: real): real {
    match stage
    case Ns => t.nsInFlight
    case RelayNode => t.relayNodeInFlight
    case Device => t.deviceInFlight
    case AwaitingTask => t.initialPollDelay
    case Retry => BackoffDelay(retryCount, d, jitter)
  }

  function RescheduleWait(stage: Stage, t: Tuning, d: Delivery, retryCount: nat, age: real, jitter: real): real {
    if stage == AwaitingTask then PollLadder(age) else EntryWait(stage, t, d, retryCount, jitter)
  }

  lemma {:induction false} PowAtLeastOne(base: real, exponent: nat)
    requires base >= 1.0
    ensures Pow(base, exponent) >= 1.0
  {
    if exponent > 0 {
      PowAtLeastOne(base, exponent - 1);
      MulAtLeastOne(base, Pow(base, exponent - 1));
    }
  }

  lemma MulAtLeastOne(a: real, b: real)
    requires a >= 1.0 && b >= 1.0
    ensures a * b >= 1.0
  {
    assert (a - 1.0) * (b - 1.0) >= 0.0;
  }

  lemma MulBounds(j: real, x: real)
    requires 0.0 <= j < 1.0 && x >= 0.0
    ensures 0.0 <= j * x <= x
  {
    assert (1.0 - j) * x >= 0.0;
  }

  lemma CappedBackoffAtLeastOne(retryCount: nat, d: Delivery)
    requires ValidDelivery(d)
    ensures CappedBackoff(retryCount, d) >= 1.0
  {
    PowAtLeastOne(d.multiplier, retryCount);
    MulAtLeastOne(d.baseDelay, Pow(d.multiplier, retryCount));
  }

  lemma FlooredShareBounds(draw: real, span: real)
    requires 0.0 <= draw < 1.0 && span >= 0.0
    ensures 0.0 <= FlooredShare(draw, span) <= span
  {
    MulBounds(draw, span);
    var x := draw * span;
    assert x.Floor as real <= x && x.Floor >= 0;
  }

  /** The delay before a retry lies between the capped delay and one and a half times it. */
  lemma BackoffBounds(retryCount: nat, d: Delivery, jitter: real)
    requires ValidDelivery(d) && 0.0 <= jitter < 1.0
    ensures 1.0 <= CappedBackoff(retryCount, d) <= BackoffDelay(retryCount, d, jitter)
    ensures BackoffDelay(retryCount, d, jitter) <= 1.5 * CappedBackoff(retryCount, d)
  {
    CappedBackoffAtLeastOne(retryCount, d);
    FlooredShareBounds(jitter, CappedBackoff(retryCount, d) * 0.5);
  }

  /** The first delay is the base delay, unless the cap is smaller. */
  lemma FirstBackoff(d: Delivery)
    requires ValidDelivery(d)
    ensures CappedBackoff(0, d) == if d.baseDelay <= d.maxDelay then d.baseDelay else d.maxDelay
  {
  }

  /** Every further delay is the one before times the multiplier, unless the cap is smaller: none is below the last. */
  lemma NextBackoff(retryCount: nat, d: Delivery)
    requires ValidDelivery(d)
    ensures var grown := d.multiplier * CappedBackoff(retryCount, d);
      CappedBackoff(retryCount + 1, d) == if grown <= d.maxDelay then grown else d.maxDelay
    ensures CappedBackoff(retryCount, d) <= CappedBackoff(retryCount + 1, d) <= d.maxDelay
  {
    var x := d.baseDelay * Pow(d.multiplier, retryCount);
    Reassociate(d.baseDelay, d.multiplier, Pow(d.multiplier, retryCount));
    CappedBackoffAtLeastOne(retryCount, d);
    assert x >= 1.0 by {
      PowAtLeastOne(d.multiplier, retryCount);
      MulAtLeastOne(d.baseDelay, Pow(d.multiplier, retryCount));
    }
    MulGrows(d.multiplier, x);
    MulGrows(d.multiplier, d.maxDelay);
    if x > d.maxDelay {
      MulMonotone(d.multiplier, d.maxDelay, x);
    }
  }

  /** The delays one after the other: the base, and each the multiplier times the one before, cut at the cap. */
  function DelayInTurn(retryCount: nat, d: Delivery): real {
    Min(if retryCount == 0 then d.baseDelay else d.multiplier * DelayInTurn(retryCount - 1, d), d.maxDelay)
  }

  lemma {:induction false} BackoffGrowsInTurn(retryCount: nat, d: Delivery)
    requires ValidDelivery(d)
    ensures CappedBackoff(retryCount, d) == DelayInTurn(retryCount, d)
  {
    if retryCount == 0 {
      FirstBackoff(d);
    } else {
      BackoffGrowsInTurn(retryCount - 1, d);
      NextInTurn(retryCount - 1, d, DelayInTurn(retryCount - 1, d));
    }
  }

  lemma NextInTurn(retryCount: nat, d: Delivery, delay: real)
    requires ValidDelivery(d) && CappedBackoff(retryCount, d) == delay
    ensures CappedBackoff(retryCount + 1, d) == Min(d.multiplier * delay, d.maxDelay)
  {
    NextBackoff(retryCount, d);
  }

  lemma Reassociate(a: real, b: real, c: real)
    ensures a * (b * c) == b * (a * c)
  {
  }

  lemma MulGrows(a: real, x: real)
    requires a >= 1.0 && x >= 0.0
    ensures a * x >= x
  {
    assert (a - 1.0) * x >= 0.0;
  }

  lemma MulMonotone(a: real, x: real, y: real)
    requires a >= 0.0 && x <= y
    ensures a * x <= a * y
  {
    assert a * (y - x) >= 0.0;
  }

  /** A delay that has reached the cap stays there. */
  lemma {:induction false} CappedStaysCapped(retryCount: nat, later: nat, d: Delivery)
    requires ValidDelivery(d) && CappedBackoff(retryCount, d) == d.maxDelay && retryCount <= later
    ensures CappedBackoff(later, d) == d.maxDelay
    decreases later - retryCount
  {
    if retryCount < later {
      NextBackoff(retryCount, d);
      CappedStaysCapped(retryCount + 1, later, d);
    }
  }

  lemma {:induction false} PowGrowsLinearly(base: real, exponent: nat)
    requires base >= 1.0
    ensures Pow(base, exponent) >= 1.0 + exponent as real * (base - 1.0)
    decreases exponent
  {
    if exponent > 0 {
      PowGrowsLinearly(base, exponent - 1);
      var rest := (exponent - 1) as real * (base - 1.0);
      assert rest >= 0.0;
      MulMonotone(base, 1.0 + rest, Pow(base, exponent - 1));
      assert base * (1.0 + rest) == 1.0 + rest + (base - 1.0) + (base - 1.0) * rest;
      assert (base - 1.0) * rest >= 0.0;
      assert exponent as real == (exponent - 1) as real + 1.0;
    }
  }

  /** With a multiplier above one the delays do reach the cap. */
  lemma BackoffReachesCap(d: Delivery) returns (retryCount: nat)
    requires ValidDelivery(d) && d.multiplier > 1.0
    ensures forall later :: later >= retryCount ==> CappedBackoff(later, d) == d.maxDelay
  {
    var step := d.multiplier - 1.0;
    retryCount := (d.maxDelay / step).Floor + 1;
    assert retryCount as real * step >= d.maxDelay by {
      assert retryCount as real >= d.maxDelay / step;
      MulMonotone(step, d.maxDelay / step, retryCount as real);
    }
    PowGrowsLinearly(d.multiplier, retryCount);
    MulMonotone(Pow(d.multiplier, retryCount), 1.0, d.baseDelay);
    forall later | later >= retryCount ensures CappedBackoff(later, d) == d.maxDelay {
      CappedStaysCapped(retryCount, later, d);
    }
  }

  const DEFAULT_DELIVERY := Delivery(11, 2000.0, 2.0, 3600000.0)

  ghost function BackoffTotal(retries: nat, d: Delivery): real {
    if retries == 0 then 0.0 else BackoffTotal(retries - 1, d) + CappedBackoff(retries - 1, d)
  }

  /** With the default knobs the delays are 2, 4, 8 seconds and so on, 68 minutes and 14 seconds in all. */
  lemma DefaultBackoffs()
    ensures CappedBackoff(0, DEFAULT_DELIVERY) == 2000.0
    ensures CappedBackoff(1, DEFAULT_DELIVERY) == 4000.0
    ensures CappedBackoff(2, DEFAULT_DELIVERY) == 8000.0
    ensures CappedBackoff(3, DEFAULT_DELIVERY) == 16000.0
    ensures BackoffTotal(DEFAULT_DELIVERY.maxRetries, DEFAULT_DELIVERY) == 4094000.0
  {
    FirstBackoff(DEFAULT_DELIVERY);
    forall k | 0 <= k < 10
      ensures CappedBackoff(k + 1, DEFAULT_DELIVERY) == Min(2.0 * CappedBackoff(k, DEFAULT_DELIVERY), 3600000.0)
    {
      NextBackoff(k, DEFAULT_DELIVERY);
    }
    assert CappedBackoff(4, DEFAULT_DELIVERY) == 32000.0 && CappedBackoff(5, DEFAULT_DELIVERY) == 64000.0;
    assert CappedBackoff(6, DEFAULT_DELIVERY) == 128000.0 && CappedBackoff(7, DEFAULT_DELIVERY) == 256000.0;
    assert CappedBackoff(8, DEFAULT_DELIVERY) == 512000.0 && CappedBackoff(9, DEFAULT_DELIVERY) == 1024000.0;
    assert CappedBackoff(10, DEFAULT_DELIVERY) == 2048000.0;
    assert BackoffTotal(4, DEFAULT_DELIVERY) == 30000.0;
    assert BackoffTotal(8, DEFAULT_DELIVERY) == 510000.0;
    assert BackoffTotal(11, DEFAULT_DELIVERY) == 4094000.0;
  }

  /** The jitter adds the draw's share of half the delay, in whole milliseconds. */
  lemma JitterIsShareOfHalf(retryCount: nat, d: Delivery, jitter: real) returns (extra: int)
    requires ValidDelivery(d) && 0.0 <= jitter < 1.0
    ensures BackoffDelay(retryCount, d, jitter) == CappedBackoff(retryCount, d) + extra as real
    ensures extra as real <= jitter * (CappedBackoff(retryCount, d) / 2.0) < extra as real + 1.0
  {
    var half := CappedBackoff(retryCount, d) * 0.5;
    assert half == CappedBackoff(retryCount, d) / 2.0;
    FloorOfShare(jitter, half);
    extra := (jitter * half).Floor;
  }

  lemma FloorOfShare(draw: real, span: real)
    ensures FlooredShare(draw, span) == (draw * span).Floor as real <= draw * span < (draw * span).Floor as real + 1.0
  {
  }

  /** What each stage waits before it looks at a waiting member again, and how a poll slows down with age. */
  lemma WaitsByStage(t: Tuning, d: Delivery, retryCount: nat, age: real, jitter: real)
    ensures RescheduleWait(Ns, t, d, retryCount, age, jitter) == t.nsInFlight
    ensures RescheduleWait(RelayNode, t, d, retryCount, age, jitter) == t.relayNodeInFlight
    ensures RescheduleWait(Device, t, d, retryCount, age, jitter) == t.deviceInFlight
    ensures var wait := RescheduleWait(AwaitingTask, t, d, retryCount, age, jitter);
      && (wait == 10000.0 <==> age < 20000.0) && (wait == 15000.0 <==> 20000.0 <= age < 50000.0)
      && (wait == 20000.0 <==> 50000.0 <= age < 90000.0) && (wait == 30000.0 <==> 90000.0 <= age)
  {
  }

  /** Every wait the table produces is at least one millisecond. */
  lemma WaitsArePositive(stage: Stage, t: Tuning, d: Delivery, retryCount: nat, age: real, jitter: real)
    requires ValidTuning(t) && ValidDelivery(d) && 0.0 <= jitter < 1.0
    ensures EntryWait(stage, t, d, retryCount, jitter) >= 1.0
    ensures RescheduleWait(stage, t, d, retryCount, age, jitter) >= 1.0
  {
    BackoffBounds(retryCount, d, jitter);
  }

  /** Every stage queue of a service whose PULL plugins are `pluginIds`, in table order. */
  method EnumerateStageQueues(pluginIds: seq<PluginId>) returns (queues: seq<QueueKey>)
    ensures forall q :: q in queues <==> (q in {NsQ, RelayQ, DeviceQ, RetryQ} || (q.TaskQ? && q.plugin in pluginIds))
  {
    var stages := [Ns, RelayNode, Device, AwaitingTask, Retry];
    queues := [];
    for i := 0 to |stages|
      invariant forall q :: q in queues <==>
          ((q == NsQ && i > 0) || (q == RelayQ && i > 1) || (q == DeviceQ && i > 2) || (q == RetryQ && i > 4)
           || (q.TaskQ? && q.plugin in pluginIds && i > 3))
    {
      if stages[i] != AwaitingTask {
        queues := queues + [StageKeyFor(stages[i], "")];
      } else {
        for j := 0 to |pluginIds|
          invariant forall q :: q in queues <==>
              (q in {NsQ, RelayQ, DeviceQ} || (q.TaskQ? && q.plugin in pluginIds[..j]))
        {
          queues := queues + [StageKeyFor(stages[i], pluginIds[j])];
        }
      }
    }
  }
}
