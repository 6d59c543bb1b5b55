/** Termination of PULL delivery: every move and every poll uses up part of a finite allowance. */
module Termination {
  import opened Domain
  import opened Stages
  import opened StoreSpec
  import opened World
  import opened Handlers
  import opened OnePlace
  import opened Soundness
  import opened Runs
  import opened Drain

  const POLL_STEP: real := 10000.0

  /** Ten-second slots in 48 hours, and the slot a member may start in. */
  const MAX_POLLS: nat := 17281

  /** Moves left in the current round: requeue, pick, hand-over, resolution. */
  function RoundMoves(status: Status): nat {
    match status
    case ToRetry => 4
    case Queued => 3
    case SentToNs => 2
    case DeliveredToNs => 1
    case _ => 0
  }

  ghost function MovesLeft(c: Config, w: World, m: MessageId): nat {
    if m in w.store.hashes && w.store.hashes[m].retryCount <= c.delivery.maxRetries
    then 4 * (c.delivery.maxRetries - w.store.hashes[m].retryCount) + RoundMoves(w.store.hashes[m].status)
    else 0
  }

  /** Poll slots between a due time and the age cap. */
  function Slots(m: MessageId, score: real): (n: nat)
    ensures score >= m.time ==> n <= MAX_POLLS
  {
    var left := m.time + PULL_MAX_MESSAGE_AGE - score;
    if left <= 0.0 then 0 else (left / POLL_STEP).Floor + 1
  }

  ghost function PollsLeft(w: World, m: MessageId): nat {
    if m in w.store.hashes && m in w.minted && (TaskQ(w.minted[m].plugin), m) in w.store.zsets
    then Slots(m, w.store.zsets[(TaskQ(w.minted[m].plugin), m)])
    else 0
  }

  ghost function Fuel(c: Config, w: World, m: MessageId): nat {
    MovesLeft(c, w, m) * (MAX_POLLS + 1) + PollsLeft(w, m)
  }

  lemma LaterPollHasFewerSlots(m: MessageId, before: real, after: real)
    requires after >= before + POLL_STEP
    ensures Slots(m, after) <= Slots(m, before)
    ensures before < m.time + PULL_MAX_MESSAGE_AGE ==> Slots(m, after) < Slots(m, before)
  {
    var a := (m.time + PULL_MAX_MESSAGE_AGE - after) / POLL_STEP;
    var b := (m.time + PULL_MAX_MESSAGE_AGE - before) / POLL_STEP;
    assert a <= b - 1.0;
    assert a.Floor as real <= a;
    assert b < b.Floor as real + 1.0;
  }

  ghost predicate IsPull(c: Config, w: World, m: MessageId) {
    m in w.minted && w.minted[m].plugin in c.registry && c.registry[w.minted[m].plugin].pattern == Pull
  }

  ghost predicate Timely(w: World, m: MessageId) {
    m in w.minted ==> m.time <= w.clock
  }

  /** A committed move of `m`: pick, hand-over, retry, requeue or purge. */
  ghost predicate MovesMessage(w: World, op: Op, m: MessageId) {
    m in w.store.hashes &&
    match op
    case FetchNext(x, _, _, _) => x == m
    case Move(x, from, _, _, _, _) => x == m && (from, m) in w.store.zsets
    case CommitRetry(x, _, _, _, _) => x == m
    case Purge(x, _, _) => x == m
    case _ => false
  }

  /** A poll of `m` is put off by at least one slot. */
  ghost predicate Steady(w: World, op: Op, m: MessageId) {
    op.Postpone? && op.m == m && op.q.TaskQ? && (op.q, m) in w.store.zsets ==>
      op.score >= w.store.zsets[(op.q, m)] + POLL_STEP
  }

  lemma StepKeepsTimely(c: Config, w: World, op: Op, m: MessageId)
    requires Allowed(c, w, op) && Timely(w, m)
    ensures Timely(Do(w, op), m)
  {
  }

  lemma FetchShrinks(c: Config, w: World, op: Op)
    requires op.FetchNext? && SoundMessage(c, w, op.m) && PlacedMessage(c, w, op.m) && Fresh(c, w, op)
      && IsPull(c, w, op.m)
    ensures MovesLeft(c, Do(w, op), op.m) + (if MovesMessage(w, op, op.m) then 1 else 0) <= MovesLeft(c, w, op.m)
  {
  }

  lemma MoveShrinks(c: Config, w: World, op: Op)
    requires op.Move? && SoundMessage(c, w, op.m) && PlacedMessage(c, w, op.m) && Fresh(c, w, op) && IsPull(c, w, op.m)
    ensures MovesLeft(c, Do(w, op), op.m) + (if MovesMessage(w, op, op.m) then 1 else 0) <= MovesLeft(c, w, op.m)
  {
  }

  lemma RetryShrinks(c: Config, w: World, op: Op)
    requires op.CommitRetry? && SoundMessage(c, w, op.m) && PlacedMessage(c, w, op.m) && Fresh(c, w, op)
      && IsPull(c, w, op.m)
    ensures MovesLeft(c, Do(w, op), op.m) + (if MovesMessage(w, op, op.m) then 1 else 0) <= MovesLeft(c, w, op.m)
  {
  }

  lemma PurgeShrinks(c: Config, w: World, op: Op)
    requires op.Purge? && SoundMessage(c, w, op.m) && PlacedMessage(c, w, op.m) && Fresh(c, w, op) && IsPull(c, w, op.m)
    ensures MovesLeft(c, Do(w, op), op.m) + (if MovesMessage(w, op, op.m) then 1 else 0) <= MovesLeft(c, w, op.m)
  {
  }

  lemma OthersKeepMovesLeft(c: Config, w: World, op: Op, m: MessageId)
    requires !Concerns(op, m)
    ensures MovesLeft(c, Do(w, op), m) == MovesLeft(c, w, m) && !MovesMessage(w, op, m)
  {
    OthersStayTheSame(w, op, m);
  }

  lemma QuietKeepsMovesLeft(c: Config, w: World, op: Op, m: MessageId)
    requires IsQuiet(op) && Concerns(op, m)
    ensures MovesLeft(c, Do(w, op), m) <= MovesLeft(c, w, m) && !MovesMessage(w, op, m)
  {
  }

  /** Moves only ever use up the allowance, one or more per move. */
  lemma MovesOnlyShrink(c: Config, w: World, op: Op, m: MessageId)
    requires Sound(c, w) && Fresh(c, w, op) && IsPull(c, w, m)
    ensures MovesLeft(c, Do(w, op), m) + (if MovesMessage(w, op, m) then 1 else 0) <= MovesLeft(c, w, m)
  {
    assert SoundMessage(c, w, m) && PlacedMessage(c, w, m);
    if !Concerns(op, m) {
      OthersKeepMovesLeft(c, w, op, m);
    } else if IsQuiet(op) {
      QuietKeepsMovesLeft(c, w, op, m);
    } else if op.FetchNext? {
      FetchShrinks(c, w, op);
    } else if op.Move? {
      MoveShrinks(c, w, op);
    } else if op.CommitRetry? {
      RetryShrinks(c, w, op);
    } else if op.Purge? {
      PurgeShrinks(c, w, op);
    }
  }

  /** Without a move, polls are only used up. */
  lemma PollsOnlyShrink(c: Config, w: World, op: Op, m: MessageId)
    requires Sound(c, w) && Fresh(c, w, op) && Steady(w, op, m) && IsPull(c, w, m) && !MovesMessage(w, op, m)
    ensures PollsLeft(Do(w, op), m) <= PollsLeft(w, m)
  {
    assert SoundMessage(c, w, m) && PlacedMessage(c, w, m);
    var q := TaskQ(w.minted[m].plugin);
    if op.Postpone? && op.m == m && op.q == q && (q, m) in w.store.zsets {
      LaterPollHasFewerSlots(m, w.store.zsets[(q, m)], op.score);
    } else if !Concerns(op, m) {
      OthersKeepPolls(c, w, op, m);
    }
  }

  lemma OthersKeepPolls(c: Config, w: World, op: Op, m: MessageId)
    requires !Concerns(op, m) && m in w.minted
    ensures PollsLeft(Do(w, op), m) == PollsLeft(w, m)
  {
    var q := TaskQ(w.minted[m].plugin);
    OthersStayTheSame(w, op, m);
    if (q, m) in w.store.zsets {
      OthersKeepScores(w, op, m, q);
    }
  }

  lemma OthersKeepScores(w: World, op: Op, m: MessageId, q: QueueKey)
    requires !Concerns(op, m) && (q, m) in w.store.zsets
    ensures (q, m) in Do(w, op).store.zsets && Do(w, op).store.zsets[(q, m)] == w.store.zsets[(q, m)]
  {
  }

  /** Right after a move the polls left are bounded by the slots of a whole life. */
  lemma MovedPollsAreBounded(c: Config, w: World, op: Op, m: MessageId)
    requires Sound(c, w) && Fresh(c, w, op) && Timely(w, m) && IsPull(c, w, m) && MovesMessage(w, op, m)
    ensures PollsLeft(Do(w, op), m) <= MAX_POLLS
  {
    assert SoundMessage(c, w, m) && PlacedMessage(c, w, m);
    var q := TaskQ(w.minted[m].plugin);
    if op.Move? && (q, m) in Do(w, op).store.zsets {
      assert op.to == q && Do(w, op).store.zsets[(q, m)] == op.score > w.clock;
    }
  }

  lemma FuelArithmetic(before: nat, after: nat, pollsBefore: nat, pollsAfter: nat, moved: bool)
    requires after + (if moved then 1 else 0) <= before
    requires if moved then pollsAfter <= MAX_POLLS else pollsAfter <= pollsBefore
    ensures after * (MAX_POLLS + 1) + pollsAfter <= before * (MAX_POLLS + 1) + pollsBefore
    ensures moved || pollsAfter < pollsBefore ==>
      after * (MAX_POLLS + 1) + pollsAfter < before * (MAX_POLLS + 1) + pollsBefore
  {
  }

  /** No step gives a PULL message fuel; a move always burns some. */
  lemma StepBurnsFuel(c: Config, w: World, op: Op, m: MessageId)
    requires Sound(c, w) && Fresh(c, w, op) && Steady(w, op, m) && Timely(w, m) && IsPull(c, w, m)
    ensures Fuel(c, Do(w, op), m) <= Fuel(c, w, m)
    ensures MovesMessage(w, op, m) || PollsLeft(Do(w, op), m) < PollsLeft(w, m) ==>
      Fuel(c, Do(w, op), m) < Fuel(c, w, m)
    ensures IsPull(c, Do(w, op), m)
  {
    MovesOnlyShrink(c, w, op, m);
    var moved := MovesMessage(w, op, m);
    if moved {
      MovedPollsAreBounded(c, w, op, m);
    } else {
      PollsOnlyShrink(c, w, op, m);
    }
    FuelArithmetic(MovesLeft(c, w, m), MovesLeft(c, Do(w, op), m), PollsLeft(w, m), PollsLeft(Do(w, op), m), moved);
    MintedStays(c, w, op, m);
  }

  lemma MintedStays(c: Config, w: World, op: Op, m: MessageId)
    requires Allowed(c, w, op) && m in w.minted
    ensures m in Do(w, op).minted && Do(w, op).minted[m] == w.minted[m]
  {
  }

  lemma {:induction false} RunKeepsMinted(c: Config, w: World, ops: seq<Op>, m: MessageId)
    requires AllFresh(c, w, ops) && m in w.minted
    ensures m in Run(w, ops).minted && Run(w, ops).minted[m] == w.minted[m]
    decreases |ops|
  {
    if ops != [] {
      MintedStays(c, w, ops[0], m);
      RunKeepsMinted(c, Do(w, ops[0]), ops[1..], m);
    }
  }

  ghost predicate AllSteady(w: World, ops: seq<Op>, m: MessageId)
    decreases |ops|
  {
    ops == [] || (Steady(w, ops[0], m) && AllSteady(Do(w, ops[0]), ops[1..], m))
  }

  ghost predicate SteadyFresh(c: Config, w: World, ops: seq<Op>, m: MessageId) {
    AllFresh(c, w, ops) && AllSteady(w, ops, m)
  }

  ghost function MoveCount(w: World, ops: seq<Op>, m: MessageId): nat
    decreases |ops|
  {
    if ops == [] then 0 else (if MovesMessage(w, ops[0], m) then 1 else 0) + MoveCount(Do(w, ops[0]), ops[1..], m)
  }

  lemma {:induction false} MovesAreBounded(c: Config, w: World, ops: seq<Op>, m: MessageId)
    requires Sound(c, w) && AllFresh(c, w, ops) && IsPull(c, w, m)
    ensures MoveCount(w, ops, m) + MovesLeft(c, Run(w, ops), m) <= MovesLeft(c, w, m)
    decreases |ops|
  {
    if ops != [] {
      MovesOnlyShrink(c, w, ops[0], m);
      MintedStays(c, w, ops[0], m);
      StepKeepsSound(c, w, ops[0]);
      MovesAreBounded(c, Do(w, ops[0]), ops[1..], m);
    }
  }

  /** From its enqueue on, a PULL message makes at most 4 * maxRetries + 3 moves, whatever the interleaving. */
  lemma PullMovesWithinBudget(c: Config, w: World, m: MessageId, b: Body, ops: seq<Op>)
    requires Sound(c, w) && Fresh(c, w, Insert(m, b)) && c.registry[b.plugin].pattern == Pull
    requires AllFresh(c, Do(w, Insert(m, b)), ops)
    ensures MoveCount(Do(w, Insert(m, b)), ops, m) <= 4 * c.delivery.maxRetries + 3
  {
    StepKeepsSound(c, w, Insert(m, b));
    MovesAreBounded(c, Do(w, Insert(m, b)), ops, m);
  }

  lemma {:induction false} SteadyRunBurnsFuel(c: Config, w: World, ops: seq<Op>, m: MessageId)
    requires Sound(c, w) && SteadyFresh(c, w, ops, m) && Timely(w, m) && IsPull(c, w, m)
    ensures Fuel(c, Run(w, ops), m) <= Fuel(c, w, m)
    ensures Timely(Run(w, ops), m) && IsPull(c, Run(w, ops), m) && Sound(c, Run(w, ops)) && AllFresh(c, w, ops)
    decreases |ops|
  {
    if ops != [] {
      StepBurnsFuel(c, w, ops[0], m);
      StepKeepsTimely(c, w, ops[0], m);
      StepKeepsSound(c, w, ops[0]);
      SteadyRunBurnsFuel(c, Do(w, ops[0]), ops[1..], m);
    }
  }

  lemma {:induction false} AllSteadyPrefix(w: World, ops: seq<Op>, m: MessageId, k: nat)
    requires k <= |ops| && AllSteady(w, ops, m)
    ensures AllSteady(w, ops[..k], m)
    decreases k
  {
    if k > 0 {
      assert ops[..k][1..] == ops[1..][..k - 1];
      AllSteadyPrefix(Do(w, ops[0]), ops[1..], m, k - 1);
    }
  }

  lemma SteadyPrefix(c: Config, w: World, ops: seq<Op>, m: MessageId, k: nat)
    requires k <= |ops| && SteadyFresh(c, w, ops, m)
    ensures SteadyFresh(c, w, ops[..k], m)
  {
    FreshPrefix(c, w, ops, k);
    AllSteadyPrefix(w, ops, m, k);
  }

  lemma {:induction false} FreshWithoutPostponeIsSteady(c: Config, w: World, ops: seq<Op>, m: MessageId)
    requires AllFresh(c, w, ops)
    requires forall i :: 0 <= i < |ops| && ops[i].Postpone? ==> ops[i].m != m || !ops[i].q.TaskQ?
    ensures SteadyFresh(c, w, ops, m)
    decreases |ops|
  {
    if ops != [] {
      FreshWithoutPostponeIsSteady(c, Do(w, ops[0]), ops[1..], m);
    }
  }

  lemma {:induction false} AllSteadyAppend(w: World, a: seq<Op>, b: seq<Op>, m: MessageId)
    requires AllSteady(w, a, m) && AllSteady(Run(w, a), b, m)
    ensures AllSteady(w, a + b, m)
    decreases |a|
  {
    if a == [] {
      assert a + b == b;
    } else {
      assert (a + b)[0] == a[0] && (a + b)[1..] == a[1..] + b;
      AllSteadyAppend(Do(w, a[0]), a[1..], b, m);
    }
  }

  lemma SteadyAppend(c: Config, w: World, a: seq<Op>, b: seq<Op>, m: MessageId)
    requires SteadyFresh(c, w, a, m) && SteadyFresh(c, Run(w, a), b, m)
    ensures SteadyFresh(c, w, a + b, m)
  {
    FreshAppend(c, w, a, b);
    AllSteadyAppend(w, a, b, m);
  }

  /** A poll of `m`, if it finds `m` in the awaiting-task queue, finds it due. Visits of other queues may come late. */
  ghost predicate OnTime(w: World, h: Handler, m: MessageId) {
    h.Attend? && h.m == m && h.q.TaskQ? && m in w.minted && m in w.store.hashes ==>
      var q := TaskQ(w.minted[m].plugin);
      (q, m) in w.store.zsets ==> h.q == q && w.store.zsets[(q, m)] <= h.now
  }

  /** A poll that does not find `m` in the awaiting-task queue puts nothing off. */
  lemma AbsentPollIsSteady(c: Config, w: World, q: QueueKey, m: MessageId, now: real, reply: Reply, jitter: real)
    requires Sound(c, w) && Enabled(c, w, Attend(q, m, now, reply, jitter)) && m in w.store.hashes && q.TaskQ?
    requires m in w.minted && (TaskQ(w.minted[m].plugin), m) !in w.store.zsets
    ensures SteadyFresh(c, w, Visit(c, w, q, m, now, reply, jitter), m)
  {
    assert SoundMessage(c, w, m) && PlacedMessage(c, w, m);
    var action := StageAction(c, w, q, m, now, reply, jitter);
    var owed := Obligation(c, w, q, m, now, action.result, jitter);
    StageActionIsFresh(c, w, q, m, now, reply, jitter);
    ActionsDoNotPostpone(c, w, q, m, now, reply, jitter);
    FreshWithoutPostponeIsSteady(c, w, action.ops, m);
    ActionKeepsClock(c, w, q, m, now, reply, jitter);
    ObligationIsFresh(c, w, Run(w, action.ops), q, m, now, action.result, jitter);
    if owed != [] && owed[0].Postpone? {
      WaitingPollDoesNothing(c, w, q, m, now, reply, jitter);
      if action.ops != [] {
        RunOne(w, NotifyUnsolicited);
      }
      assert [owed[0]][1..] == [] && Steady(w, owed[0], m);
    } else {
      FreshWithoutPostponeIsSteady(c, Run(w, action.ops), owed, m);
    }
    SteadyAppend(c, w, action.ops, owed, m);
  }

  lemma WaitingPollDoesNothing(c: Config, w: World, q: QueueKey, m: MessageId, now: real, reply: Reply, jitter: real)
    requires q.TaskQ? && m in w.store.hashes && w.store.hashes[m].body.Some?
    requires w.store.hashes[m].body.value.plugin in c.registry
    ensures var action := StageAction(c, w, q, m, now, reply, jitter);
      action.result.Throws? || action.result == Reports(Rescheduled) ==>
        action.ops == [] || action.ops == [NotifyUnsolicited]
  {
  }

  lemma ActionsDoNotPostpone(c: Config, w: World, q: QueueKey, m: MessageId, now: real, reply: Reply, jitter: real)
    requires IsStageQueue(q) && m in w.store.hashes && w.store.hashes[m].body.Some?
    requires w.store.hashes[m].body.value.plugin in c.registry
    ensures var ops := StageAction(c, w, q, m, now, reply, jitter).ops; forall i :: 0 <= i < |ops| ==> !ops[i].Postpone?
  {
  }

  lemma OnTimeVisitIsSteady(c: Config, w: World, q: QueueKey, m: MessageId, now: real, reply: Reply, jitter: real)
    requires Sound(c, w) && Enabled(c, w, Attend(q, m, now, reply, jitter)) && m in w.store.hashes
    requires (q, m) in w.store.zsets && w.store.zsets[(q, m)] <= now
    ensures SteadyFresh(c, w, Visit(c, w, q, m, now, reply, jitter), m)
  {
    assert SoundMessage(c, w, m) && PlacedMessage(c, w, m);
    var action := StageAction(c, w, q, m, now, reply, jitter);
    var owed := Obligation(c, w, q, m, now, action.result, jitter);
    var mid := Run(w, action.ops);
    StageActionIsFresh(c, w, q, m, now, reply, jitter);
    ActionsDoNotPostpone(c, w, q, m, now, reply, jitter);
    FreshWithoutPostponeIsSteady(c, w, action.ops, m);
    ActionKeepsClock(c, w, q, m, now, reply, jitter);
    ObligationIsFresh(c, w, mid, q, m, now, action.result, jitter);
    if q.TaskQ? && owed != [] && owed[0].Postpone? {
      PollVacates(c, w, q, m, now, reply, jitter);
      if action.ops != [] {
        RunOne(w, NotifyUnsolicited);
      }
      assert mid.store == w.store;
      assert [owed[0]][1..] == [];
      assert Steady(mid, owed[0], m);
    } else {
      FreshWithoutPostponeIsSteady(c, mid, owed, m);
    }
    SteadyAppend(c, w, action.ops, owed, m);
  }

  lemma ScriptIsSteady(c: Config, w: World, h: Handler, m: MessageId)
    requires Sound(c, w) && Enabled(c, w, h) && OnTime(w, h, m)
    ensures SteadyFresh(c, w, Script(c, w, h), m)
  {
    ScriptIsFresh(c, w, h);
    assert SoundMessage(c, w, m);
    if h.Attend? && h.m == m && h.q.TaskQ? && m in w.store.hashes {
      var q := TaskQ(w.minted[m].plugin);
      if (q, m) in w.store.zsets {
        OnTimeVisitIsSteady(c, w, h.q, m, h.now, h.reply, h.jitter);
      } else {
        AbsentPollIsSteady(c, w, h.q, m, h.now, h.reply, h.jitter);
      }
    } else {
      OthersDoNotPostpone(c, w, h, m);
      FreshWithoutPostponeIsSteady(c, w, Script(c, w, h), m);
    }
  }

  lemma OthersDoNotPostpone(c: Config, w: World, h: Handler, m: MessageId)
    requires Enabled(c, w, h) && (h.Attend? ==> h.m != m || m !in w.store.hashes || !h.q.TaskQ?)
    ensures var ops := Script(c, w, h);
      forall i :: 0 <= i < |ops| && ops[i].Postpone? ==> ops[i].m != m || !ops[i].q.TaskQ?
  {
    if h.Attend? && h.m in w.store.hashes && w.store.hashes[h.m].body.Some?
      && w.store.hashes[h.m].body.value.plugin in c.registry {
      ActionsDoNotPostpone(c, w, h.q, h.m, h.now, h.reply, h.jitter);
    }
  }

  lemma EventBurnsFuel(c: Config, w: World, e: Event, m: MessageId)
    requires Sound(c, w) && Timely(w, m) && IsPull(c, w, m) && Enabled(c, w, e.handler) && OnTime(w, e.handler, m)
    ensures Fuel(c, After(c, w, e), m) <= Fuel(c, w, m)
    ensures Timely(After(c, w, e), m) && IsPull(c, After(c, w, e), m) && Sound(c, After(c, w, e))
  {
    var script := Script(c, w, e.handler);
    ScriptIsSteady(c, w, e.handler, m);
    match e
    case Completes(_) => SteadyRunBurnsFuel(c, w, script, m);
    case Crashes(_, done) =>
      var k := if done <= |script| then done else |script|;
      assert script[..|script|] == script;
      SteadyPrefix(c, w, script, m, k);
      SteadyRunBurnsFuel(c, w, script[..k], m);
      StepBurnsFuel(c, Run(w, script[..k]), Restart, m);
      StepKeepsSound(c, Run(w, script[..k]), Restart);
  }

  /** A script that begins by moving `m`, or that notifies and purges it. */
  predicate Resolves(w: World, ops: seq<Op>, m: MessageId) {
    && |ops| >= 1 && m in w.store.hashes
    && (|| (ops[0].CommitRetry? && ops[0].m == m)
        || (ops[0].Move? && ops[0].m == m && (ops[0].from, m) in w.store.zsets)
        || (|ops| >= 2 && ops[0].Notify? && ops[1].Purge? && ops[1].m == m))
  }

  lemma ResolvingScriptBurnsFuel(c: Config, w: World, ops: seq<Op>, m: MessageId)
    requires Sound(c, w) && SteadyFresh(c, w, ops, m) && Timely(w, m) && IsPull(c, w, m) && Resolves(w, ops, m)
    ensures Fuel(c, Run(w, ops), m) < Fuel(c, w, m)
  {
    var w1 := Do(w, ops[0]);
    StepBurnsFuel(c, w, ops[0], m);
    StepKeepsTimely(c, w, ops[0], m);
    StepKeepsSound(c, w, ops[0]);
    SteadyRunBurnsFuel(c, w1, ops[1..], m);
    if ops[0].Notify? {
      var rest := ops[1..];
      assert rest[0] == ops[1];
      StepBurnsFuel(c, w1, ops[1], m);
      StepKeepsTimely(c, w1, ops[1], m);
      StepKeepsSound(c, w1, ops[1]);
      SteadyRunBurnsFuel(c, Do(w1, ops[1]), rest[1..], m);
    }
  }

  /** What the action of a due PULL member does: settle its fate, or leave it to be polled again. */
  lemma PullActionShape(c: Config, w: World, q: QueueKey, m: MessageId, now: real, reply: Reply, jitter: real)
    requires Sound(c, w) && IsPull(c, w, m) && m in w.store.hashes && w.store.hashes[m].body == Some(w.minted[m])
    requires IsStageQueue(q) && (q, m) in w.store.zsets && ReplyIsOwn(w, m, reply)
    requires q == NsQ ==> m !in w.outstanding
    ensures var action := StageAction(c, w, q, m, now, reply, jitter);
      || Resolves(w, action.ops, m)
      || (&& q == TaskQ(w.minted[m].plugin) && (action.ops == [] || action.ops == [NotifyUnsolicited])
          && (action.result.Throws? || action.result == Reports(Rescheduled)) && now - m.time < PULL_MAX_MESSAGE_AGE)
  {
    assert SoundMessage(c, w, m) && PlacedMessage(c, w, m);
    if q.TaskQ? {
      PollVacates(c, w, q, m, now, reply, jitter);
    }
  }

  lemma PostponedPollBurnsFuel(c: Config, w: World, q: QueueKey, m: MessageId, score: real)
    requires Sound(c, w) && Timely(w, m) && IsPull(c, w, m) && m in w.store.hashes && q == TaskQ(w.minted[m].plugin)
    requires (q, m) in w.store.zsets && score >= w.store.zsets[(q, m)] + POLL_STEP && score > w.clock
    requires w.store.zsets[(q, m)] < m.time + PULL_MAX_MESSAGE_AGE
    ensures Fuel(c, Do(w, Postpone(m, q, score)), m) < Fuel(c, w, m)
  {
    LaterPollHasFewerSlots(m, w.store.zsets[(q, m)], score);
    StepBurnsFuel(c, w, Postpone(m, q, score), m);
  }

  /**
   * Progress: every visit of a due PULL member, unless its send is still outstanding, burns fuel: retries left, then
   * stages left in the round, then poll slots left before the age cap.
   */
  lemma VisitMakesProgress(c: Config, w: World, q: QueueKey, m: MessageId, now: real, reply: Reply, jitter: real)
    requires Sound(c, w) && Timely(w, m) && IsPull(c, w, m) && m in w.store.hashes
    requires Enabled(c, w, Attend(q, m, now, reply, jitter))
    requires (q, m) in w.store.zsets && w.store.zsets[(q, m)] <= now && (q == NsQ ==> m !in w.outstanding)
    ensures Fuel(c, After(c, w, Completes(Attend(q, m, now, reply, jitter))), m) < Fuel(c, w, m)
  {
    assert SoundMessage(c, w, m);
    var action := StageAction(c, w, q, m, now, reply, jitter);
    var ops := Visit(c, w, q, m, now, reply, jitter);
    PullActionShape(c, w, q, m, now, reply, jitter);
    if Resolves(w, action.ops, m) {
      OnTimeVisitIsSteady(c, w, q, m, now, reply, jitter);
      assert Resolves(w, ops, m);
      ResolvingScriptBurnsFuel(c, w, ops, m);
    } else {
      IdlePollBurnsFuel(c, w, q, m, now, reply, jitter);
    }
  }

  /** A poll that tells nothing new is put off by a poll step, and one slot fewer is left. */
  lemma IdlePollBurnsFuel(c: Config, w: World, q: QueueKey, m: MessageId, now: real, reply: Reply, jitter: real)
    requires Sound(c, w) && Timely(w, m) && IsPull(c, w, m) && m in w.store.hashes && q == TaskQ(w.minted[m].plugin)
    requires w.store.hashes[m].body == Some(w.minted[m]) && now <= w.clock && now - m.time < PULL_MAX_MESSAGE_AGE
    requires (q, m) in w.store.zsets && w.store.zsets[(q, m)] <= now
    requires var action := StageAction(c, w, q, m, now, reply, jitter);
      (action.ops == [] || action.ops == [NotifyUnsolicited])
        && (action.result.Throws? || action.result == Reports(Rescheduled))
    ensures Fuel(c, Run(w, Visit(c, w, q, m, now, reply, jitter)), m) < Fuel(c, w, m)
  {
    var action := StageAction(c, w, q, m, now, reply, jitter);
    var owed := Obligation(c, w, q, m, now, action.result, jitter);
    RunAppend(w, action.ops, owed);
    if action.ops != [] {
      RunOne(w, NotifyUnsolicited);
    }
    assert Run(w, action.ops) == w;
    RunOne(w, owed[0]);
    OwedPollIsLater(c, w, q, m, now, action.result, jitter);
    PostponedPollBurnsFuel(c, w, q, m, owed[0].score);
  }

  lemma OwedPollIsLater(c: Config, w: World, q: QueueKey, m: MessageId, now: real, result: Result, jitter: real)
    requires IsPull(c, w, m) && m in w.store.hashes && q == TaskQ(w.minted[m].plugin)
    requires w.store.hashes[m].body == Some(w.minted[m]) && now <= w.clock
    requires (q, m) in w.store.zsets && w.store.zsets[(q, m)] <= now
    requires result.Throws? || result == Reports(Rescheduled)
    ensures var owed := Obligation(c, w, q, m, now, result, jitter);
      && |owed| == 1 && owed[0].Postpone? && owed[0].m == m && owed[0].q == q
      && owed[0].score >= w.store.zsets[(q, m)] + POLL_STEP && owed[0].score > w.clock
  {
  }

  /** A completed visit of `m` that finds it live and due, and is not excused by an outstanding send. */
  ghost predicate IsDueVisit(w: World, e: Event, m: MessageId) {
    && e.Completes? && e.handler.Attend? && e.handler.m == m && m in w.store.hashes
    && (e.handler.q, m) in w.store.zsets && w.store.zsets[(e.handler.q, m)] <= e.handler.now
    && (e.handler.q == NsQ ==> m !in w.outstanding)
  }

  ghost function VisitCount(c: Config, w: World, events: seq<Event>, m: MessageId): nat
    decreases |events|
  {
    if events == [] then 0
    else (if IsDueVisit(w, events[0], m) then 1 else 0) + VisitCount(c, After(c, w, events[0]), events[1..], m)
  }

  ghost predicate AllOnTime(c: Config, w: World, events: seq<Event>, m: MessageId)
    decreases |events|
  {
    events == [] || (OnTime(w, events[0].handler, m) && AllOnTime(c, After(c, w, events[0]), events[1..], m))
  }

  /**
   * Termination: whatever happens to other messages, wherever the process crashes, and however late the visits of other
   * queues come, a PULL message whose polls are on time is visited, when due, at most as often as its fuel allows.
   */
  lemma {:induction false} DueVisitsAreBounded(c: Config, w: World, events: seq<Event>, m: MessageId)
    requires Sound(c, w) && Timely(w, m) && IsPull(c, w, m)
    requires AllEnabled(c, w, events) && AllOnTime(c, w, events, m)
    ensures VisitCount(c, w, events, m) + Fuel(c, AfterAll(c, w, events), m) <= Fuel(c, w, m)
    decreases |events|
  {
    if events != [] {
      EventBurnsFuel(c, w, events[0], m);
      if IsDueVisit(w, events[0], m) {
        var h := events[0].handler;
        VisitMakesProgress(c, w, h.q, m, h.now, h.reply, h.jitter);
      }
      DueVisitsAreBounded(c, After(c, w, events[0]), events[1..], m);
    }
  }

  /** The fuel of a freshly enqueued message, and so the most visits it can ever need. */
  lemma EnqueuedFuel(c: Config, w: World, m: MessageId, b: Body)
    requires Sound(c, w) && Fresh(c, w, Insert(m, b))
    ensures Fuel(c, Do(w, Insert(m, b)), m) == (4 * c.delivery.maxRetries + 3) * 17282
  {
    assert PlacedMessage(c, w, m);
    assert (TaskQ(b.plugin), m) !in Do(w, Insert(m, b)).store.zsets;
  }

  /** While a message lives its fuel is not spent, so a spent one has been purged, cancelled or has expired. */
  lemma SpentFuelMeansGone(c: Config, w: World, m: MessageId)
    requires Sound(c, w) && IsPull(c, w, m)
    ensures Fuel(c, w, m) == 0 <==> m !in w.store.hashes
  {
    assert SoundMessage(c, w, m);
    if m in w.store.hashes {
      assert MovesLeft(c, w, m) >= 1;
    }
  }
}
