/** Starvation freedom of the stage queues: a due member is attended after a bounded number of drains. */
module Starvation {
  import opened Domain
  import opened StoreSpec
  import opened World

  const BATCH_SIZE: nat := 50

  /** What a range query by score with the batch limit returns: the first due members in member order. */
  ghost predicate IsDueBatch(s: Store, q: QueueKey, now: real, ids: seq<MessageId>) {
    && |ids| <= BATCH_SIZE
    && (forall i, j :: 0 <= i < j < |ids| ==> ids[i] != ids[j])
    && (forall x :: x in ids ==> (q, x) in s.zsets && s.zsets[(q, x)] <= now)
    && (forall i, j :: 0 <= i < j < |ids| ==> Before(s, q, ids[i], ids[j]))
    && (forall x :: (q, x) in s.zsets && s.zsets[(q, x)] <= now && x !in ids ==>
          |ids| == BATCH_SIZE && forall y :: y in ids ==> Before(s, q, y, x))
  }

  /** The drain obligation for one id: out of the queue, or due later than the drain's clock reading. */
  predicate Settled(s: Store, q: QueueKey, x: MessageId, now: real) {
    (q, x) in s.zsets ==> s.zsets[(q, x)] > now
  }

  ghost function Ahead(s: Store, q: QueueKey, m: MessageId): set<MessageId>
    requires (q, m) in s.zsets
  {
    set k | k in s.zsets && k.0 == q && k.1 != m && Before(s, q, k.1, m) :: k.1
  }

  ghost function Rank(s: Store, q: QueueKey, m: MessageId): nat
    requires (q, m) in s.zsets
  {
    |Ahead(s, q, m)|
  }

  ghost predicate HasScore(s: Store, q: QueueKey, m: MessageId, score: real) {
    (q, m) in s.zsets && s.zsets[(q, m)] == score
  }

  /** No step of the run moves `m` out of `q` or rescores it. */
  ghost predicate Unattended(w: World, ops: seq<Op>, q: QueueKey, m: MessageId, score: real)
    decreases |ops|
  {
    HasScore(w.store, q, m, score) && (ops != [] ==> Unattended(Do(w, ops[0]), ops[1..], q, m, score))
  }

  /** Every score an allowed step writes to a stage queue lies in the future. */
  lemma WritesAreFuture(c: Config, w: World, op: Op, q: QueueKey, x: MessageId)
    requires Allowed(c, w, op) && IsStageQueue(q)
    requires (q, x) in Do(w, op).store.zsets
    ensures HasScore(w.store, q, x, Do(w, op).store.zsets[(q, x)]) || Do(w, op).store.zsets[(q, x)] > w.clock
  {
  }

  lemma ClockIsMonotone(c: Config, w: World, op: Op)
    requires Allowed(c, w, op)
    ensures w.clock <= Do(w, op).clock
  {
  }

  lemma StepKeepsRank(c: Config, w: World, op: Op, q: QueueKey, m: MessageId, score: real)
    requires Allowed(c, w, op) && IsStageQueue(q) && score <= w.clock
    requires HasScore(w.store, q, m, score) && HasScore(Do(w, op).store, q, m, score)
    ensures Ahead(Do(w, op).store, q, m) <= Ahead(w.store, q, m)
  {
    var after := Do(w, op).store;
    forall x | x in Ahead(after, q, m) ensures x in Ahead(w.store, q, m) {
      WritesAreFuture(c, w, op, q, x);
      assert (q, x) in w.store.zsets;
    }
  }

  lemma StepKeepsSettled(c: Config, w: World, op: Op, q: QueueKey, x: MessageId, now: real)
    requires Allowed(c, w, op) && IsStageQueue(q) && now <= w.clock && Settled(w.store, q, x, now)
    ensures Settled(Do(w, op).store, q, x, now)
  {
    if (q, x) in Do(w, op).store.zsets {
      WritesAreFuture(c, w, op, q, x);
    }
  }

  /** Once a drain has settled an id, no interleaving makes it due at that drain's reading again. */
  lemma {:induction false} RunKeepsSettled(c: Config, w: World, ops: seq<Op>, q: QueueKey, x: MessageId, now: real)
    requires AllAllowed(c, w, ops) && IsStageQueue(q) && now <= w.clock && Settled(w.store, q, x, now)
    ensures Settled(Run(w, ops).store, q, x, now)
    decreases |ops|
  {
    if ops != [] {
      StepKeepsSettled(c, w, ops[0], q, x, now);
      ClockIsMonotone(c, w, ops[0]);
      RunKeepsSettled(c, Do(w, ops[0]), ops[1..], q, x, now);
    }
  }

  lemma {:induction false} RunKeepsRank(c: Config, w: World, ops: seq<Op>, q: QueueKey, m: MessageId, score: real)
    requires AllAllowed(c, w, ops) && IsStageQueue(q) && score <= w.clock && Unattended(w, ops, q, m, score)
    ensures w.clock <= Run(w, ops).clock
    ensures HasScore(Run(w, ops).store, q, m, score)
    ensures Ahead(Run(w, ops).store, q, m) <= Ahead(w.store, q, m)
    decreases |ops|
  {
    if ops != [] {
      ClockIsMonotone(c, w, ops[0]);
      StepKeepsRank(c, w, ops[0], q, m, score);
      RunKeepsRank(c, Do(w, ops[0]), ops[1..], q, m, score);
    }
  }

  /** One completed drain: whatever happens before it, its batch, and whatever happens while it runs. */
  datatype Round = Round(gap: seq<Op>, now: real, batch: seq<MessageId>, ops: seq<Op>)

  ghost predicate CompletedDrain(c: Config, w: World, r: Round, q: QueueKey) {
    var start := Run(w, r.gap);
    var end := Run(start, r.ops);
    && AllAllowed(c, w, r.gap) && AllAllowed(c, start, r.ops)
    && r.now <= start.clock
    && IsDueBatch(start.store, q, r.now, r.batch)
    && (forall x :: x in r.batch ==> Settled(end.store, q, x, r.now))
  }

  /** Through all of these completed drains the due member `m` is never in a batch, moved or rescored. */
  ghost predicate Starved(c: Config, w: World, rounds: seq<Round>, q: QueueKey, m: MessageId, score: real)
    decreases |rounds|
  {
    rounds != [] ==>
      var r := rounds[0];
      var start := Run(w, r.gap);
      && CompletedDrain(c, w, r, q)
      && score <= r.now && m !in r.batch
      && Unattended(w, r.gap, q, m, score) && Unattended(start, r.ops, q, m, score)
      && Starved(c, Run(start, r.ops), rounds[1..], q, m, score)
  }

  lemma {:induction false} DistinctCount(ids: seq<MessageId>)
    requires forall i, j :: 0 <= i < j < |ids| ==> ids[i] != ids[j]
    ensures |set x | x in ids| == |ids|
  {
    if ids != [] {
      DistinctCount(ids[1..]);
      assert (set x | x in ids) == (set x | x in ids[1..]) + {ids[0]};
    }
  }

  lemma CardinalityAfterLeaving(before: set<MessageId>, after: set<MessageId>, left: set<MessageId>)
    requires after <= before - left && left <= before
    ensures |after| + |left| <= |before|
  {
    Smaller(after, before - left);
    assert before == (before - left) + left;
  }

  lemma {:induction false} Smaller(a: set<MessageId>, b: set<MessageId>)
    requires a <= b
    ensures |a| <= |b|
  {
    if a != {} {
      var x :| x in a;
      Smaller(a - {x}, b - {x});
    }
  }

  /** A completed drain that passes a due member over leaves fifty fewer members ahead of it. */
  lemma PassedOverDrainLowersRank(c: Config, w: World, r: Round, q: QueueKey, m: MessageId, score: real)
    requires IsStageQueue(q) && score <= w.clock && score <= r.now && m !in r.batch
    requires CompletedDrain(c, w, r, q)
    requires Unattended(w, r.gap, q, m, score) && Unattended(Run(w, r.gap), r.ops, q, m, score)
    ensures var end := Run(Run(w, r.gap), r.ops);
      HasScore(end.store, q, m, score) && HasScore(w.store, q, m, score) && w.clock <= end.clock
      && Rank(end.store, q, m) + BATCH_SIZE <= Rank(w.store, q, m)
  {
    var start := Run(w, r.gap);
    RunKeepsRank(c, w, r.gap, q, m, score);
    RunKeepsRank(c, start, r.ops, q, m, score);
    var end := Run(start, r.ops);
    var batch := set x | x in r.batch;
    DistinctCount(r.batch);
    assert |batch| == BATCH_SIZE;
    forall x | x in batch ensures x in Ahead(start.store, q, m) && x !in Ahead(end.store, q, m) {
      assert (q, x) in start.store.zsets && Before(start.store, q, x, m);
      assert Settled(end.store, q, x, r.now);
    }
    CardinalityAfterLeaving(Ahead(start.store, q, m), Ahead(end.store, q, m), batch);
    Smaller(Ahead(start.store, q, m), Ahead(w.store, q, m));
  }

  lemma {:induction false} StarvationIsBounded(c: Config, w: World, rounds: seq<Round>, q: QueueKey, m: MessageId,
                                               score: real)
    requires IsStageQueue(q) && HasScore(w.store, q, m, score) && score <= w.clock
    requires Starved(c, w, rounds, q, m, score)
    ensures 50 * |rounds| <= Rank(w.store, q, m)
    decreases |rounds|
  {
    if rounds != [] {
      PassedOverDrainLowersRank(c, w, rounds[0], q, m, score);
      StarvationIsBounded(c, Run(Run(w, rounds[0].gap), rounds[0].ops), rounds[1..], q, m, score);
    }
  }

  /**
   * Starvation freedom: whatever else is inserted, moved or rescheduled, a due member of rank r is attended within
   * r / 50 + 1 completed drains.
   */
  lemma DueMemberIsAttended(c: Config, w: World, rounds: seq<Round>, q: QueueKey, m: MessageId, score: real)
    requires IsStageQueue(q) && HasScore(w.store, q, m, score) && score <= w.clock
    requires |rounds| == Rank(w.store, q, m) / 50 + 1
    ensures !Starved(c, w, rounds, q, m, score)
  {
    if Starved(c, w, rounds, q, m, score) {
      StarvationIsBounded(c, w, rounds, q, m, score);
    }
  }
}
