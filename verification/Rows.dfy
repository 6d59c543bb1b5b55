/**
 * The tick's rows: a due list is read once and worked through member by member, under a guard that lets no second drain
 * of the same queue begin meanwhile.
 */
module Rows {
  import opened Domain
  import opened Stages
  import opened StoreSpec
  import opened World
  import opened Handlers
  import opened OnePlace
  import opened Soundness
  import opened Runs
  import opened Starvation
  import opened Continuation
  import opened Termination
  import opened History

  /** A drain in progress: its clock reading and the members it has yet to attend. */
  datatype Row = Row(now: real, todo: seq<MessageId>)

  /** A drain begins with its due list, ends early when something in it throws, or a handler runs. */
  datatype TickEvent =
    | Opens(q: QueueKey, now: real, ids: seq<MessageId>)
    | Aborts(q: QueueKey)
    | Acts(event: Event)

  type RowMap = map<QueueKey, Row>

  /**
   * A queue is opened only when no drain of it is in progress, and a visit is of the next member of the row's list, at
   * the row's clock reading. Every other handler may run at any time.
   */
  ghost predicate CanTick(c: Config, w: World, rows: RowMap, e: TickEvent) {
    match e
    case Opens(q, now, ids) => IsStageQueue(q) && q !in rows && now <= w.clock && IsDueBatch(w.store, q, now, ids)
    case Aborts(q) => q in rows
    case Acts(event) =>
      match event.handler
      case Attend(q, m, now, reply, jitter) =>
        && q in rows && rows[q].todo != [] && rows[q].todo[0] == m && rows[q].now == now
        && ReplyIsOwn(w, m, reply) && ValidJitter(jitter)
      case _ => Enabled(c, w, event.handler)
  }

  /** A row closes when its list is empty; a dying process forgets every row. */
  function RowsAfter(rows: RowMap, e: TickEvent): RowMap {
    match e
    case Opens(q, now, ids) => if ids == [] then rows else rows[q := Row(now, ids)]
    case Aborts(q) => rows - {q}
    case Acts(event) =>
      if event.Crashes? || (event.handler.Environment? && event.handler.op.Restart?) then map[]
      else if event.handler.Attend? && event.handler.q in rows && rows[event.handler.q].todo != [] then
        var row := rows[event.handler.q];
        if |row.todo| == 1 then rows - {event.handler.q} else rows[event.handler.q := row.(todo := row.todo[1..])]
      else rows
  }

  ghost function WorldAfter(c: Config, w: World, e: TickEvent): World {
    if e.Acts? then After(c, w, e.event) else w
  }

  /** What holds of the members a row has yet to attend. */
  ghost predicate GoodMember(c: Config, w: World, q: QueueKey, now: real, m: MessageId) {
    && Picks(w, m) >= 1 && m in w.minted
    && (q.TaskQ? ==> q.plugin == w.minted[m].plugin)
    && (q.TaskQ? && m in w.store.hashes ==> HasDue(w, q, now, m))
  }

  ghost predicate HasDue(w: World, q: QueueKey, now: real, m: MessageId) {
    (q, m) in w.store.zsets && w.store.zsets[(q, m)] <= now
  }

  ghost predicate GoodRow(c: Config, w: World, q: QueueKey, row: Row) {
    && IsStageQueue(q) && row.now <= w.clock
    && (forall i, j :: 0 <= i < j < |row.todo| ==> row.todo[i] != row.todo[j])
    && (forall m :: m in row.todo ==> GoodMember(c, w, q, row.now, m))
  }

  ghost predicate GoodRows(c: Config, w: World, rows: RowMap) {
    forall q :: q in rows ==> GoodRow(c, w, q, rows[q])
  }

  ghost predicate Ticking(c: Config, w: World, rows: RowMap) {
    Sound(c, w) && StagedWerePicked(w) && GoodRows(c, w, rows)
  }

  /** A visit the guard lets through is one of the handlers of a run. */
  lemma TickIsEnabled(c: Config, w: World, rows: RowMap, e: TickEvent)
    requires Ticking(c, w, rows) && CanTick(c, w, rows, e) && e.Acts?
    ensures Enabled(c, w, e.event.handler)
  {
    if e.event.handler.Attend? {
      var q := e.event.handler.q;
      assert GoodRow(c, w, q, rows[q]);
      assert GoodMember(c, w, q, rows[q].now, rows[q].todo[0]);
    }
  }

  /** A step that leaves a waiting task where it is, as due as it was. */
  predicate SparesTask(op: Op, q: QueueKey, m: MessageId) {
    match op
    case Postpone(x, p, _) => !(x == m && p == q)
    case Unlist(x, p) => !(x == m && p == q)
    case CommitRetry(x, from, _, _, _) => !(x == m && from == q)
    case _ => true
  }

  /** While a task waits in its queue, only its own drain can move or rescore it. */
  lemma StepSparesTask(c: Config, w: World, op: Op, q: QueueKey, now: real, m: MessageId)
    requires Sound(c, w) && Fresh(c, w, op) && SparesTask(op, q, m) && q.TaskQ? && m in w.minted
    requires m in w.store.hashes ==> HasDue(w, q, now, m)
    ensures m in Do(w, op).store.hashes ==> HasDue(Do(w, op), q, now, m)
  {
    assert PlacedMessage(c, w, m) && SoundMessage(c, w, m);
    if !Concerns(op, m) {
      OthersStayTheSame(w, op, m);
      if (q, m) in w.store.zsets {
        OthersKeepScores(w, op, m, q);
      }
    } else {
      OwnStepSparesTask(c, w, op, q, now, m);
    }
  }

  lemma OwnStepSparesTask(c: Config, w: World, op: Op, q: QueueKey, now: real, m: MessageId)
    requires Fresh(c, w, op) && SparesTask(op, q, m) && q.TaskQ? && m in w.minted && Concerns(op, m)
    requires PlacedMessage(c, w, m) && SoundMessage(c, w, m) && (m in w.store.hashes ==> HasDue(w, q, now, m))
    ensures m in Do(w, op).store.hashes ==> HasDue(Do(w, op), q, now, m)
  {
    match op
    case Move(_, _, _, _, _, _) => MoveSparesTask(c, w, op, q, now, m);
    case CommitRetry(_, _, _, _, _) => assert false;
    case FetchNext(_, _, _, _) => assert m !in w.store.hashes;
    case Purge(_, seen, _) => PurgeTakesHash(w, m, seen, op.cause);
    case _ => PlainStepSparesTask(c, w, op, q, now, m);
  }

  /** No move of the engine leaves an awaiting-task queue. */
  lemma MoveSparesTask(c: Config, w: World, op: Op, q: QueueKey, now: real, m: MessageId)
    requires op.Move? && op.m == m && Allowed(c, w, op) && q.TaskQ? && PlacedMessage(c, w, m)
    requires m in w.store.hashes ==> HasDue(w, q, now, m)
    ensures m in Do(w, op).store.hashes ==> HasDue(Do(w, op), q, now, m)
  {
    assert op.from != q;
    assert !MoveCommits(w.store, m, op.from);
  }

  lemma PlainStepSparesTask(c: Config, w: World, op: Op, q: QueueKey, now: real, m: MessageId)
    requires Fresh(c, w, op) && SparesTask(op, q, m) && q.TaskQ? && m in w.minted && Concerns(op, m)
    requires !op.Move? && !op.CommitRetry? && !op.FetchNext? && !op.Purge?
    requires m in w.store.hashes ==> HasDue(w, q, now, m)
    ensures m in Do(w, op).store.hashes ==> HasDue(Do(w, op), q, now, m)
  {
  }

  lemma PurgeTakesHash(w: World, m: MessageId, seen: Hash, cause: Cause)
    requires seen.body.Some?
    ensures m !in Do(w, Purge(m, seen, cause)).store.hashes
  {
  }

  lemma StepKeepsMember(c: Config, w: World, op: Op, q: QueueKey, now: real, m: MessageId)
    requires Sound(c, w) && Fresh(c, w, op) && SparesTask(op, q, m) && GoodMember(c, w, q, now, m)
    ensures GoodMember(c, Do(w, op), q, now, m)
  {
    PicksOnlyGrow(w, op, m);
    MintedStays(c, w, op, m);
    if q.TaskQ? {
      StepSparesTask(c, w, op, q, now, m);
    }
  }

  lemma {:induction false} RunKeepsMember(c: Config, w: World, ops: seq<Op>, q: QueueKey, now: real, m: MessageId)
    requires Sound(c, w) && AllFresh(c, w, ops) && GoodMember(c, w, q, now, m)
    requires forall i :: 0 <= i < |ops| ==> SparesTask(ops[i], q, m)
    ensures GoodMember(c, Run(w, ops), q, now, m)
    decreases |ops|
  {
    if ops != [] {
      StepKeepsMember(c, w, ops[0], q, now, m);
      StepKeepsSound(c, w, ops[0]);
      RunKeepsMember(c, Do(w, ops[0]), ops[1..], q, now, m);
    }
  }

  ghost predicate AllSpare(ops: seq<Op>, q: QueueKey, m: MessageId) {
    forall i :: 0 <= i < |ops| ==> SparesTask(ops[i], q, m)
  }

  /** A pushed event never names an awaiting-task queue. */
  lemma PushedEventSpares(c: Config, w: World, p: Plugin, e: IncomingEvent, jitter: real, q: QueueKey, m: MessageId)
    requires p.pattern == Push && q.TaskQ?
    ensures AllSpare(ProcessEvent(c, w, p, e, jitter).ops, q, m)
  {
  }

  lemma OtherQueueVisitSpares(c: Config, w: World, p: QueueKey, now: real, reply: Reply, jitter: real, q: QueueKey,
                              m: MessageId)
    requires IsStageQueue(p) && !p.TaskQ? && q.TaskQ?
    ensures AllSpare(Visit(c, w, p, m, now, reply, jitter), q, m)
  {
  }

  lemma OtherMessageVisitSpares(c: Config, w: World, p: QueueKey, x: MessageId, now: real, reply: Reply, jitter: real,
                                q: QueueKey, m: MessageId)
    requires Sound(c, w) && IsStageQueue(p) && x != m && ReplyIsOwn(w, x, reply)
    ensures AllSpare(Visit(c, w, p, x, now, reply, jitter), q, m)
  {
    assert SoundMessage(c, w, x);
    var ops := Visit(c, w, p, x, now, reply, jitter);
    if x in w.store.hashes {
      StageActionConcerns(c, w, p, x, now, reply, jitter);
      VisitConcerns(c, w, p, x, now, reply, jitter);
    }
    OnlyOthersSpare(ops, x, q, m);
  }

  lemma OnlyOthersSpare(ops: seq<Op>, x: MessageId, q: QueueKey, m: MessageId)
    requires OnlyConcerns(ops, x) && x != m
    ensures AllSpare(ops, q, m)
  {
    forall i | 0 <= i < |ops| ensures SparesTask(ops[i], q, m) {
      assert !Concerns(ops[i], m);
    }
  }

  lemma SettleSpares(c: Config, w: World, x: MessageId, sent: SendResult, jitter: real, q: QueueKey, m: MessageId)
    requires q.TaskQ?
    ensures AllSpare(Script(c, w, SendSettles(x, sent, jitter)), q, m)
  {
  }

  lemma PassSpares(c: Config, w: World, key: string, head: Option<MessageId>, unlocked: bool, q: QueueKey, m: MessageId)
    requires q.TaskQ?
    ensures AllSpare(Distribute(c, w, key, head, unlocked), q, m)
  {
  }

  /** Only the visit of `m` in its awaiting-task queue moves it out of there or rescores it. */
  lemma ScriptSparesTask(c: Config, w: World, h: Handler, q: QueueKey, m: MessageId)
    requires Sound(c, w) && Enabled(c, w, h) && q.TaskQ?
    requires h.Attend? && h.m == m ==> !h.q.TaskQ?
    ensures AllSpare(Script(c, w, h), q, m)
  {
    match h
    case Attend(p, x, now, reply, jitter) =>
      if x == m {
        OtherQueueVisitSpares(c, w, p, now, reply, jitter, q, m);
      } else {
        OtherMessageVisitSpares(c, w, p, x, now, reply, jitter, q, m);
      }
    case Ingress(p, e, jitter) => PushedEventSpares(c, w, c.registry[p], e, jitter, q, m);
    case SendSettles(x, sent, jitter) => SettleSpares(c, w, x, sent, jitter, q, m);
    case DistributeQueue(key, head, unlocked) => PassSpares(c, w, key, head, unlocked, q, m);
    case _ =>
  }

  /** Outside the awaiting-task queues a member's record only has to survive. */
  lemma StepKeepsPlainMember(c: Config, w: World, op: Op, q: QueueKey, now: real, m: MessageId)
    requires Allowed(c, w, op) && !q.TaskQ? && GoodMember(c, w, q, now, m)
    ensures GoodMember(c, Do(w, op), q, now, m)
  {
    PicksOnlyGrow(w, op, m);
    MintedStays(c, w, op, m);
  }

  lemma {:induction false} RunKeepsPlainMember(c: Config, w: World, ops: seq<Op>, q: QueueKey, now: real, m: MessageId)
    requires AllFresh(c, w, ops) && !q.TaskQ? && GoodMember(c, w, q, now, m)
    ensures GoodMember(c, Run(w, ops), q, now, m)
    decreases |ops|
  {
    if ops != [] {
      StepKeepsPlainMember(c, w, ops[0], q, now, m);
      RunKeepsPlainMember(c, Do(w, ops[0]), ops[1..], q, now, m);
    }
  }

  lemma HandlerKeepsMember(c: Config, w: World, h: Handler, q: QueueKey, now: real, m: MessageId)
    requires Sound(c, w) && Enabled(c, w, h) && GoodMember(c, w, q, now, m)
    requires h.Attend? && h.m == m && q.TaskQ? ==> !h.q.TaskQ?
    ensures GoodMember(c, After(c, w, Completes(h)), q, now, m)
  {
    ScriptIsFresh(c, w, h);
    if q.TaskQ? {
      ScriptSparesTask(c, w, h, q, m);
      RunKeepsMember(c, w, Script(c, w, h), q, now, m);
    } else {
      RunKeepsPlainMember(c, w, Script(c, w, h), q, now, m);
    }
  }

  /** A completed handler keeps every row but its own, and its own from the next member on. */
  lemma HandlerKeepsRows(c: Config, w: World, rows: RowMap, h: Handler)
    requires Ticking(c, w, rows) && CanTick(c, w, rows, Acts(Completes(h)))
    ensures GoodRows(c, After(c, w, Completes(h)), RowsAfter(rows, Acts(Completes(h))))
  {
    TickIsEnabled(c, w, rows, Acts(Completes(h)));
    ScriptIsFresh(c, w, h);
    FreshRunKeepsSound(c, w, Script(c, w, h));
    AllowedRunIsMonotone(c, w, Script(c, w, h));
    var after := After(c, w, Completes(h));
    var left := RowsAfter(rows, Acts(Completes(h)));
    forall q | q in left ensures GoodRow(c, after, q, left[q]) {
      assert GoodRow(c, w, q, rows[q]);
      forall m | m in left[q].todo ensures GoodMember(c, after, q, left[q].now, m) {
        assert m in rows[q].todo && GoodMember(c, w, q, rows[q].now, m);
        if h.Attend? && h.m == m && q.TaskQ? {
          VisitedElsewhere(c, w, rows, h, q, m);
        }
        HandlerKeepsMember(c, w, h, q, left[q].now, m);
      }
    }
  }

  /** A member a task row has yet to attend is not the one being attended in a task row. */
  lemma VisitedElsewhere(c: Config, w: World, rows: RowMap, h: Handler, q: QueueKey, m: MessageId)
    requires Ticking(c, w, rows) && CanTick(c, w, rows, Acts(Completes(h))) && h.Attend? && h.m == m && q.TaskQ?
    requires q in RowsAfter(rows, Acts(Completes(h))) && m in RowsAfter(rows, Acts(Completes(h)))[q].todo
    ensures !h.q.TaskQ?
  {
    assert GoodRow(c, w, q, rows[q]) && GoodRow(c, w, h.q, rows[h.q]);
    assert m in rows[q].todo && GoodMember(c, w, q, rows[q].now, m);
    assert GoodMember(c, w, h.q, rows[h.q].now, m);
    var left := RowsAfter(rows, Acts(Completes(h)));
    assert h.q in left ==> rows[h.q].todo[0] !in left[h.q].todo;
  }

  lemma OpeningIsGood(c: Config, w: World, rows: RowMap, q: QueueKey, now: real, ids: seq<MessageId>)
    requires Ticking(c, w, rows) && CanTick(c, w, rows, Opens(q, now, ids))
    ensures GoodRow(c, w, q, Row(now, ids))
  {
    forall m | m in ids ensures GoodMember(c, w, q, now, m) {
      assert PlacedMessage(c, w, m);
      assert (q, m) in w.store.zsets && InSomeStage(w, m);
    }
  }

  lemma TickKeepsTicking(c: Config, w: World, rows: RowMap, e: TickEvent)
    requires Ticking(c, w, rows) && CanTick(c, w, rows, e)
    ensures Ticking(c, WorldAfter(c, w, e), RowsAfter(rows, e))
  {
    match e
    case Opens(q, now, ids) => OpeningIsGood(c, w, rows, q, now, ids);
    case Aborts(q) =>
    case Acts(event) =>
      TickIsEnabled(c, w, rows, e);
      EventKeepsSound(c, w, event);
      EventKeepsStagedPicked(c, w, event);
      if event.Completes? {
        HandlerKeepsRows(c, w, rows, event.handler);
      }
  }

  ghost predicate CanTickAll(c: Config, w: World, rows: RowMap, events: seq<TickEvent>)
    decreases |events|
  {
    events == [] ||
    (CanTick(c, w, rows, events[0])
      && CanTickAll(c, WorldAfter(c, w, events[0]), RowsAfter(rows, events[0]), events[1..]))
  }

  /** The handlers of a guarded run. */
  function Handled(events: seq<TickEvent>): seq<Event> {
    if events == [] then []
    else (if events[0].Acts? then [events[0].event] else []) + Handled(events[1..])
  }

  /** A run in which drains are guarded is one of the runs of handlers: what holds of every run holds of it. */
  lemma {:induction false} GuardedRunIsARun(c: Config, w: World, rows: RowMap, events: seq<TickEvent>)
    requires Ticking(c, w, rows) && CanTickAll(c, w, rows, events)
    ensures AllEnabled(c, w, Handled(events))
    decreases |events|
  {
    if events != [] {
      TickKeepsTicking(c, w, rows, events[0]);
      GuardedRunIsARun(c, WorldAfter(c, w, events[0]), RowsAfter(rows, events[0]), events[1..]);
      if events[0].Acts? {
        TickIsEnabled(c, w, rows, events[0]);
        assert Handled(events)[0] == events[0].event && Handled(events)[1..] == Handled(events[1..]);
      } else {
        assert Handled(events) == Handled(events[1..]);
      }
    }
  }

  lemma BeginsTicking(c: Config)
    ensures Ticking(c, INITIAL_WORLD, map[])
  {
    InitiallySound(c);
  }

  /** Under the guard every poll of a live message finds it in its queue, and due. */
  lemma GuardedPollIsOnTime(c: Config, w: World, rows: RowMap, e: TickEvent, m: MessageId)
    requires Ticking(c, w, rows) && CanTick(c, w, rows, e) && e.Acts?
    ensures OnTime(w, e.event.handler, m)
    ensures var h := e.event.handler;
      h.Attend? && h.m == m && h.q.TaskQ? && m in w.store.hashes ==> HasDue(w, h.q, h.now, m)
  {
    var h := e.event.handler;
    if h.Attend? && h.m == m {
      assert GoodRow(c, w, h.q, rows[h.q]);
      assert m in rows[h.q].todo && GoodMember(c, w, h.q, rows[h.q].now, m);
    }
  }

  lemma {:induction false} GuardedPollsAreOnTime(c: Config, w: World, rows: RowMap, events: seq<TickEvent>,
                                                 m: MessageId)
    requires Ticking(c, w, rows) && CanTickAll(c, w, rows, events)
    ensures AllOnTime(c, w, Handled(events), m)
    decreases |events|
  {
    if events != [] {
      TickKeepsTicking(c, w, rows, events[0]);
      GuardedPollsAreOnTime(c, WorldAfter(c, w, events[0]), RowsAfter(rows, events[0]), events[1..], m);
      if events[0].Acts? {
        GuardedPollIsOnTime(c, w, rows, events[0], m);
        assert Handled(events)[0] == events[0].event && Handled(events)[1..] == Handled(events[1..]);
      } else {
        assert Handled(events) == Handled(events[1..]);
      }
    }
  }

  /**
   * Termination: in any run whose drains the row guard keeps apart, with drains of other rows, vendor calls, cancels
   * and enqueues between any two of their visits, with late visits, aborted drains and crashes, a PULL message is
   * visited, when due, at most as often as its fuel allows before it is gone.
   */
  lemma PullVisitsAreBounded(c: Config, w: World, rows: RowMap, events: seq<TickEvent>, m: MessageId)
    requires Ticking(c, w, rows) && CanTickAll(c, w, rows, events) && Timely(w, m) && IsPull(c, w, m)
    ensures AllEnabled(c, w, Handled(events))
    ensures VisitCount(c, w, Handled(events), m) + Fuel(c, AfterAll(c, w, Handled(events)), m) <= Fuel(c, w, m)
  {
    GuardedRunIsARun(c, w, rows, events);
    GuardedPollsAreOnTime(c, w, rows, events, m);
    DueVisitsAreBounded(c, w, Handled(events), m);
  }

  /** Only an enqueue mints an id. */
  lemma {:induction false} RunMintsNothing(w: World, ops: seq<Op>, m: MessageId)
    requires m !in w.minted && forall i :: 0 <= i < |ops| ==> !(ops[i].Insert? && ops[i].m == m)
    ensures m !in Run(w, ops).minted
    decreases |ops|
  {
    if ops != [] {
      RunMintsNothing(Do(w, ops[0]), ops[1..], m);
    }
  }

  lemma OnlyEnqueuesInsert(c: Config, w: World, h: Handler)
    requires Enabled(c, w, h) && !h.EnqueueOne?
    ensures forall i :: 0 <= i < |Script(c, w, h)| ==> !Script(c, w, h)[i].Insert?
  {
    match h
    case DistributeQueue(key, head, unlocked) => PassInsertsNothing(c, w, key, head, unlocked);
    case SendSettles(_, _, _) =>
    case Attend(q, x, now, reply, jitter) => VisitInsertsNothing(c, w, q, x, now, reply, jitter);
    case Ingress(_, _, _) =>
    case _ =>
  }

  lemma PassInsertsNothing(c: Config, w: World, key: string, head: Option<MessageId>, unlocked: bool)
    ensures var ops := Distribute(c, w, key, head, unlocked); forall i :: 0 <= i < |ops| ==> !ops[i].Insert?
  {
  }

  lemma VisitInsertsNothing(c: Config, w: World, q: QueueKey, x: MessageId, now: real, reply: Reply, jitter: real)
    requires IsStageQueue(q)
    ensures var ops := Visit(c, w, q, x, now, reply, jitter); forall i :: 0 <= i < |ops| ==> !ops[i].Insert?
  {
    if x in w.store.hashes && w.store.hashes[x].body.Some? && w.store.hashes[x].body.value.plugin in c.registry {
      var ops := StageAction(c, w, q, x, now, reply, jitter).ops;
      assert forall i :: 0 <= i < |ops| ==> !ops[i].Insert?;
    }
  }

  lemma OnlyItsEnqueueMints(c: Config, w: World, e: Event, m: MessageId)
    requires Enabled(c, w, e.handler) && m !in w.minted && m in After(c, w, e).minted
    ensures e.handler.EnqueueOne? && e.handler.m == m
  {
    var script := Script(c, w, e.handler);
    if !(e.handler.EnqueueOne? && e.handler.m == m) {
      if !e.handler.EnqueueOne? {
        OnlyEnqueuesInsert(c, w, e.handler);
      }
      var begun := if e.Completes? || e.done > |script| then script else script[..e.done];
      RunMintsNothing(w, begun, m);
    }
  }

  /** The event that mints a PULL message gives it its whole fuel. */
  lemma MintedIsFuelled(c: Config, w: World, e: Event, m: MessageId)
    requires Sound(c, w) && Enabled(c, w, e.handler) && m !in w.minted && IsPull(c, After(c, w, e), m)
    ensures Timely(After(c, w, e), m)
    ensures Fuel(c, After(c, w, e), m) <= (4 * c.delivery.maxRetries + 3) * 17282
  {
    OnlyItsEnqueueMints(c, w, e, m);
    var insert := Insert(m, e.handler.body);
    var v := Do(w, insert);
    EnqueuedFuel(c, w, m, e.handler.body);
    StepKeepsSound(c, w, insert);
    RunOne(w, insert);
    if e.Crashes? {
      assert e.done >= 1 by {
        if e.done == 0 {
          assert Script(c, w, e.handler)[..0] == [];
        }
      }
      assert Script(c, w, e.handler)[..1] == [insert];
      StepBurnsFuel(c, v, Restart, m);
    }
  }

  /**
   * Termination, from before a message exists: in every guarded run, whatever else happens in it, a PULL message is
   * visited when due no more often than a bound that depends on the configured retries alone.
   */
  lemma {:induction false} PullMessageIsVisitedBoundedly(c: Config, w: World, rows: RowMap, events: seq<TickEvent>,
                                                         m: MessageId)
    requires Ticking(c, w, rows) && CanTickAll(c, w, rows, events) && m !in w.minted
    requires IsPull(c, AfterAll(c, w, Handled(events)), m)
    ensures VisitCount(c, w, Handled(events), m) <= (4 * c.delivery.maxRetries + 3) * 17282
    decreases |events|
  {
    if events != [] {
      var e := events[0];
      var next, left := WorldAfter(c, w, e), RowsAfter(rows, e);
      TickKeepsTicking(c, w, rows, e);
      if e.Aborts? || e.Opens? {
        assert Handled(events) == Handled(events[1..]);
        PullMessageIsVisitedBoundedly(c, next, left, events[1..], m);
      } else {
        TickIsEnabled(c, w, rows, e);
        HandledActs(events);
        assert PlacedMessage(c, w, m);
        if m !in next.minted {
          PullMessageIsVisitedBoundedly(c, next, left, events[1..], m);
        } else {
          GuardedRunIsARun(c, next, left, events[1..]);
          MintedForGood(c, next, Handled(events[1..]), m);
          MintedIsFuelled(c, w, e.event, m);
          PullVisitsAreBounded(c, next, left, events[1..], m);
        }
      }
    }
  }

  lemma HandledActs(events: seq<TickEvent>)
    requires events != [] && events[0].Acts?
    ensures Handled(events) != [] && Handled(events)[0] == events[0].event
      && Handled(events)[1..] == Handled(events[1..])
  {
  }

  lemma {:induction false} MintedForGood(c: Config, w: World, events: seq<Event>, m: MessageId)
    requires Sound(c, w) && AllEnabled(c, w, events) && m in w.minted
    ensures m in AfterAll(c, w, events).minted && AfterAll(c, w, events).minted[m] == w.minted[m]
    decreases |events|
  {
    if events != [] {
      EventKeepsSound(c, w, events[0]);
      EventKeepsMinted(c, w, events[0], m);
      MintedForGood(c, After(c, w, events[0]), events[1..], m);
    }
  }

  lemma EventKeepsMinted(c: Config, w: World, e: Event, m: MessageId)
    requires Sound(c, w) && Enabled(c, w, e.handler) && m in w.minted
    ensures m in After(c, w, e).minted && After(c, w, e).minted[m] == w.minted[m]
  {
    var script := Script(c, w, e.handler);
    ScriptIsFresh(c, w, e.handler);
    match e
    case Completes(_) => RunKeepsMinted(c, w, script, m);
    case Crashes(_, done) =>
      var k := if done <= |script| then done else |script|;
      assert script[..|script|] == script;
      FreshPrefix(c, w, script, k);
      RunKeepsMinted(c, w, script[..k], m);
  }
}
