/**
 * The work of the outbound event messenger's running drain: a lease before each POST, and an end that may come
 * anywhere. That at most one drain runs is what `WebhookChain` derives from the chain of kicked drains.
 */
module Webhook {
  import opened Domain
  import opened Texts
  import Stages

  type EventId = string

  datatype Event = Event(id: EventId, body: string)

  /** `attemptCount` is the number of POSTs whose outcome was recorded. */
  datatype StoredRecord = StoredRecord(event: Event, attemptCount: nat, lastError: Option<string>)

  /** The messenger's Redis keys: the pending scores, the payloads, and the dead letters. */
  datatype Db = Db(pending: map<EventId, real>, payload: map<EventId, StoredRecord>, dead: map<EventId, StoredRecord>)

  datatype RawKnobs = RawKnobs(maxAttempts: nat, baseDelay: real, multiplier: real, maxDelay: real)

  predicate ValidKnobs(t: RawKnobs) {
    t.maxAttempts >= 1 && t.baseDelay >= 1.0 && t.multiplier >= 1.0 && t.maxDelay >= 1.0
  }

  const DEFAULTS := RawKnobs(6, 2000.0, 2.0, 60000.0)

  type Knobs = t: RawKnobs | ValidKnobs(t) witness DEFAULTS

  const CLAIM_LEASE: real := 60000.0

  function Max(a: int, b: int): int {
    if a >= b then a else b
  }

  /** The wait after the given number of failed POSTs. */
  function BackoffDelay(failed: nat, t: Knobs): real {
    Stages.Min(t.baseDelay * Stages.Pow(t.multiplier, Max(1, failed) - 1), t.maxDelay)
  }

  /** All the waits between the first POST and the one after `failed` failures. */
  function BackoffSum(failed: nat, t: Knobs): real {
    if failed == 0 then 0.0 else BackoffSum(failed - 1, t) + BackoffDelay(failed, t)
  }

  lemma BackoffIsPositive(failed: nat, t: Knobs)
    ensures 1.0 <= BackoffDelay(failed, t) <= t.maxDelay
  {
    Stages.PowAtLeastOne(t.multiplier, Max(1, failed) - 1);
    Stages.MulAtLeastOne(t.baseDelay, Stages.Pow(t.multiplier, Max(1, failed) - 1));
  }

  /** The first delay is the base, each further one the multiplier times the one before, all cut at the cap. */
  lemma BackoffGrows(failed: nat, t: Knobs)
    requires failed >= 1
    ensures BackoffDelay(1, t) == if t.baseDelay <= t.maxDelay then t.baseDelay else t.maxDelay
    ensures var grown := t.multiplier * BackoffDelay(failed, t);
      BackoffDelay(failed + 1, t) == if grown <= t.maxDelay then grown else t.maxDelay
  {
    var d := Delivery(t.maxAttempts, t.baseDelay, t.multiplier, t.maxDelay);
    Stages.FirstBackoff(d);
    Stages.NextBackoff(failed - 1, d);
    assert BackoffDelay(failed, t) == Stages.CappedBackoff(failed - 1, d);
  }

  /** With the default knobs the first and last POST are 62 seconds of waiting apart. */
  lemma DefaultWindow()
    ensures BackoffSum(DEFAULTS.maxAttempts - 1, DEFAULTS) == 62000.0
  {
    var m := DEFAULTS.multiplier;
    assert Stages.Pow(m, 0) == 1.0;
    assert Stages.Pow(m, 1) == m * Stages.Pow(m, 0) == 2.0;
    assert Stages.Pow(m, 2) == m * Stages.Pow(m, 1) == 4.0;
    assert Stages.Pow(m, 3) == m * Stages.Pow(m, 2) == 8.0;
    assert Stages.Pow(m, 4) == m * Stages.Pow(m, 3) == 16.0;
    assert BackoffSum(0, DEFAULTS) == 0.0;
    assert BackoffSum(1, DEFAULTS) == 2000.0;
    assert BackoffSum(2, DEFAULTS) == 6000.0;
    assert BackoffSum(3, DEFAULTS) == 14000.0;
    assert BackoffSum(4, DEFAULTS) == 30000.0;
    assert BackoffSum(5, DEFAULTS) == 62000.0;
  }

  datatype Answer = NetworkError(reason: string) | Responded(status: nat)

  predicate IsOk(status: nat) {
    200 <= status <= 299
  }

  predicate IsRetryableStatus(status: nat) {
    status == 408 || status == 429 || status >= 500
  }

  /** What an answer decides about an attempt. */
  datatype Verdict = Success | TryAgain | GiveUp

  function Judge(t: Knobs, r: StoredRecord, answer: Answer): Verdict {
    if answer.Responded? && IsOk(answer.status) then Success
    else if answer.Responded? && !IsRetryableStatus(answer.status) then GiveUp
    else if r.attemptCount + 1 >= t.maxAttempts then GiveUp
    else TryAgain
  }

  function Failed(r: StoredRecord, error: string): StoredRecord {
    r.(attemptCount := r.attemptCount + 1, lastError := Some(error))
  }

  function ErrorText(answer: Answer): string {
    match answer
    case NetworkError(reason) => reason
    case Responded(status) => "HTTP " + DecimalText(status)
  }

  function Put(db: Db, r: StoredRecord, at: real): Db {
    db.(payload := db.payload[r.event.id := r], pending := db.pending[r.event.id := at])
  }

  function Complete(db: Db, id: EventId): Db {
    db.(pending := db.pending - {id}, payload := db.payload - {id})
  }

  function DeadLetter(db: Db, r: StoredRecord): Db {
    Complete(db, r.event.id).(dead := db.dead[r.event.id := r])
  }

  /** Where a drain stands. */
  datatype Phase =
    | Idle
    | Draining(todo: seq<EventId>)
    | Leased(record: StoredRecord, todo: seq<EventId>)
    | Posting(record: StoredRecord, todo: seq<EventId>)

  /**
   * The history of one event: its POSTs, those cut off before their outcome was recorded, when the first began, when it
   * was last leased, and when the POST that was cut off was leased.
   */
  datatype Ledger = Ledger(posts: nat, lost: nat, firstPost: Option<real>, leasedAt: Option<real>,
    abandoned: Option<real>)

  const BLANK := Ledger(0, 0, None, None, None)

  /** `stored`, `delivered` and `buried` record every event ever accepted, delivered or dead-lettered. */
  datatype Machine = Machine(
    db: Db,
    clock: real,
    phase: Phase,
    stored: map<EventId, Event>,
    delivered: set<EventId>,
    buried: set<EventId>,
    ledgers: map<EventId, Ledger>)

  const INITIAL_MACHINE := Machine(Db(map[], map[], map[]), 0.0, Idle, map[], {}, {}, map[])

  function LedgerOf(w: Machine, id: EventId): Ledger {
    if id in w.ledgers then w.ledgers[id] else BLANK
  }

  datatype Step =
    | Accept(event: Event)
    | BeginDrain(ids: seq<EventId>)
    | Claim
    | BeginPost
    | Conclude(answer: Answer)
    | EndDrain
    | CutOff
    | ExpireDeadLetter(id: EventId)
    | Elapse(until: real)

  ghost predicate DistinctIds(ids: seq<EventId>) {
    forall i, j :: 0 <= i < j < |ids| ==> ids[i] != ids[j]
  }

  /** Which steps the running drain, the clock and the engine can take. A drain works through a list of due ids. */
  ghost predicate CanTake(w: Machine, s: Step) {
    match s
    case Accept(e) => e.id !in w.stored
    case BeginDrain(ids) =>
      w.phase.Idle? && DistinctIds(ids) && forall id :: id in ids ==> id in w.db.pending && w.db.pending[id] <= w.clock
    case Claim => w.phase.Draining? && w.phase.todo != []
    case BeginPost => w.phase.Leased?
    case Conclude(_) => w.phase.Posting?
    case EndDrain => w.phase.Draining? && w.phase.todo == []
    case Elapse(until) => until >= w.clock
    case CutOff => true
    case ExpireDeadLetter(_) => true
  }

  /** What a verdict does: the record is dropped, buried, or put back for `retryAt`. */
  function Settle(w: Machine, id: EventId, verdict: Verdict, failed: StoredRecord, retryAt: real): Machine {
    match verdict
    case Success => w.(db := Complete(w.db, id), delivered := w.delivered + {id})
    case GiveUp => w.(db := DeadLetter(w.db, failed), buried := w.buried + {id})
    case TryAgain => w.(db := Put(w.db, failed, retryAt))
  }

  function Posted(l: Ledger, now: real): Ledger {
    l.(posts := l.posts + 1, firstPost := if l.firstPost.Some? then l.firstPost else Some(now), abandoned := None)
  }

  ghost function Take(t: Knobs, w: Machine, s: Step): Machine
    requires CanTake(w, s)
  {
    match s
    case Accept(e) =>
      w.(db := Put(w.db, StoredRecord(e, 0, None), w.clock), stored := w.stored[e.id := e])
    case BeginDrain(ids) => w.(phase := Draining(ids))
    case Claim =>
      var id := w.phase.todo[0];
      var rest := w.phase.todo[1..];
      if id !in w.db.payload then w.(db := Complete(w.db, id), phase := Draining(rest))
      else
        var r := w.db.payload[id];
        w.(db := Put(w.db, r, w.clock + CLAIM_LEASE), phase := Leased(r, rest),
           ledgers := w.ledgers[id := LedgerOf(w, id).(leasedAt := Some(w.clock))])
    case BeginPost =>
      var id := w.phase.record.event.id;
      w.(phase := Posting(w.phase.record, w.phase.todo), ledgers := w.ledgers[id := Posted(LedgerOf(w, id), w.clock)])
    case Conclude(answer) =>
      var r := w.phase.record;
      var retryAt := w.clock + BackoffDelay(r.attemptCount + 1, t);
      Settle(w, r.event.id, Judge(t, r, answer), Failed(r, ErrorText(answer)),
        retryAt).(phase := Draining(w.phase.todo))
    case EndDrain => w.(phase := Idle)
    case CutOff =>
      if w.phase.Posting? then
        var id := w.phase.record.event.id;
        var l := LedgerOf(w, id);
        w.(phase := Idle, ledgers := w.ledgers[id := l.(lost := l.lost + 1, abandoned := l.leasedAt)])
      else w.(phase := Idle)
    case ExpireDeadLetter(id) => w.(db := w.db.(dead := w.db.dead - {id}))
    case Elapse(until) => w.(clock := until)
  }

  predicate IsPosting(w: Machine, id: EventId) {
    w.phase.Posting? && w.phase.record.event.id == id
  }

  /** Conservation: a stored event is in exactly one of three places, and only a stored event is in any. */
  ghost predicate Conserved(w: Machine, id: EventId) {
    && (id in w.db.pending <==> id in w.db.payload)
    && !(id in w.db.payload && id in w.delivered) && !(id in w.db.payload && id in w.buried)
    && !(id in w.delivered && id in w.buried)
    && (id in w.stored <==> id in w.db.payload || id in w.delivered || id in w.buried)
    && (id in w.stored ==> w.stored[id].id == id)
    && (id in w.db.payload ==> w.db.payload[id].event == w.stored[id])
  }

  /** The attempt budget: every POST was either recorded, cut off, or is under way. */
  ghost predicate Budgeted(t: Knobs, w: Machine, id: EventId) {
    var l := LedgerOf(w, id);
    && (id !in w.stored ==> l == BLANK)
    && (id in w.db.payload ==>
          && w.db.payload[id].attemptCount < t.maxAttempts
          && l.posts == w.db.payload[id].attemptCount + l.lost + (if IsPosting(w, id) then 1 else 0))
    && (id in w.delivered || id in w.buried ==> l.lost < l.posts <= t.maxAttempts + l.lost)
  }

  function Later(a: real, b: real): real {
    if a >= b then a else b
  }

  /** The schedule: never before the backoff waits so far, nor before the lease of a POST that was cut off. */
  ghost predicate Scheduled(t: Knobs, w: Machine, id: EventId) {
    var l := LedgerOf(w, id);
    && (l.firstPost.Some? <==> l.posts > 0)
    && (id in w.db.payload && id in w.db.pending ==>
          && (l.firstPost.Some? ==>
                l.firstPost.value + BackoffSum(w.db.payload[id].attemptCount, t) <= Later(w.db.pending[id], w.clock))
          && (l.abandoned.Some? ==> l.abandoned.value + CLAIM_LEASE <= w.db.pending[id]))
  }

  ghost predicate GoodEvent(t: Knobs, w: Machine, id: EventId) {
    Conserved(w, id) && Budgeted(t, w, id) && Scheduled(t, w, id)
  }

  ghost predicate AllDue(w: Machine, ids: seq<EventId>) {
    DistinctIds(ids) && forall id :: id in ids && id in w.db.pending ==> w.db.pending[id] <= w.clock
  }

  /** The record being worked on is the stored one, leased, and was due when it was leased. */
  ghost predicate GoodClaim(t: Knobs, w: Machine, r: StoredRecord, todo: seq<EventId>) {
    var id := r.event.id;
    var l := LedgerOf(w, id);
    && id in w.db.payload && w.db.payload[id] == r && id in w.db.pending && l.leasedAt.Some? && id !in todo
    && w.db.pending[id] == l.leasedAt.value + CLAIM_LEASE && l.leasedAt.value <= w.clock
    && (l.firstPost.Some? ==> l.firstPost.value + BackoffSum(r.attemptCount, t) <= w.clock)
    && (l.abandoned.Some? ==> l.abandoned.value + CLAIM_LEASE <= l.leasedAt.value)
  }

  ghost predicate GoodPhase(t: Knobs, w: Machine) {
    match w.phase
    case Idle => true
    case Draining(todo) => AllDue(w, todo)
    case Leased(r, todo) => AllDue(w, todo) && GoodClaim(t, w, r, todo)
    case Posting(r, todo) => AllDue(w, todo) && GoodClaim(t, w, r, todo) && LedgerOf(w, r.event.id).abandoned.None?
  }

  ghost predicate Good(t: Knobs, w: Machine) {
    GoodPhase(t, w) && forall id :: GoodEvent(t, w, id)
  }

  lemma InitiallyGood(t: Knobs)
    ensures Good(t, INITIAL_MACHINE)
  {
  }

  lemma SumGrows(failed: nat, t: Knobs)
    ensures BackoffSum(failed + 1, t) == BackoffSum(failed, t) + BackoffDelay(failed + 1, t)
  {
  }

  /** The event a step is about, if any. */
  function Subject(w: Machine, s: Step): Option<EventId> {
    match s
    case Accept(e) => Some(e.id)
    case Claim => if w.phase.Draining? && w.phase.todo != [] then Some(w.phase.todo[0]) else None
    case BeginPost => if w.phase.Leased? then Some(w.phase.record.event.id) else None
    case Conclude(_) => if w.phase.Posting? then Some(w.phase.record.event.id) else None
    case CutOff => if w.phase.Posting? then Some(w.phase.record.event.id) else None
    case _ => None
  }

  /** What a step about another event leaves alone. */
  ghost predicate SamePlace(a: Machine, b: Machine, id: EventId) {
    && (id in a.db.pending <==> id in b.db.pending) && (id in a.db.pending ==> a.db.pending[id] == b.db.pending[id])
    && (id in a.db.payload <==> id in b.db.payload) && (id in a.db.payload ==> a.db.payload[id] == b.db.payload[id])
    && (id in a.delivered <==> id in b.delivered) && (id in a.buried <==> id in b.buried)
    && (id in a.stored <==> id in b.stored) && (id in a.stored ==> a.stored[id] == b.stored[id])
  }

  lemma SettleKeepsOthers(w: Machine, r: StoredRecord, verdict: Verdict, failed: StoredRecord, retryAt: real,
                          id: EventId)
    requires r.event.id == failed.event.id != id
    ensures SamePlace(w, Settle(w, r.event.id, verdict, failed, retryAt), id)
    ensures LedgerOf(w, id) == LedgerOf(Settle(w, r.event.id, verdict, failed, retryAt), id)
  {
  }

  lemma OtherPlaceUntouched(t: Knobs, w: Machine, s: Step, id: EventId)
    requires CanTake(w, s) && Subject(w, s) != Some(id)
    requires s.Claim? && w.phase.todo[0] in w.db.payload ==> w.db.payload[w.phase.todo[0]].event.id == w.phase.todo[0]
    ensures SamePlace(w, Take(t, w, s), id)
  {
    if s.Conclude? {
      var r := w.phase.record;
      var retryAt := w.clock + BackoffDelay(r.attemptCount + 1, t);
      SettleKeepsOthers(w, r, Judge(t, r, s.answer), Failed(r, ErrorText(s.answer)), retryAt, id);
    }
  }

  lemma OtherLedgerUntouched(t: Knobs, w: Machine, s: Step, id: EventId)
    requires CanTake(w, s) && Subject(w, s) != Some(id)
    ensures LedgerOf(w, id) == LedgerOf(Take(t, w, s), id) && w.clock <= Take(t, w, s).clock
  {
    if s.Conclude? {
      var r := w.phase.record;
      var retryAt := w.clock + BackoffDelay(r.attemptCount + 1, t);
      SettleKeepsOthers(w, r, Judge(t, r, s.answer), Failed(r, ErrorText(s.answer)), retryAt, id);
    }
  }

  lemma OtherPostingUntouched(t: Knobs, w: Machine, s: Step, id: EventId)
    requires CanTake(w, s) && Subject(w, s) != Some(id)
    ensures IsPosting(Take(t, w, s), id) == IsPosting(w, id)
  {
  }

  lemma UntouchedIsGood(t: Knobs, w: Machine, after: Machine, id: EventId)
    requires GoodEvent(t, w, id) && SamePlace(w, after, id) && LedgerOf(w, id) == LedgerOf(after, id)
    requires IsPosting(after, id) == IsPosting(w, id) && w.clock <= after.clock
    ensures GoodEvent(t, after, id)
  {
  }

  lemma OtherEventsStayGood(t: Knobs, w: Machine, s: Step, id: EventId)
    requires Good(t, w) && CanTake(w, s) && Subject(w, s) != Some(id)
    ensures GoodEvent(t, Take(t, w, s), id)
  {
    if s.Claim? {
      assert GoodEvent(t, w, w.phase.todo[0]);
    }
    OtherPlaceUntouched(t, w, s, id);
    OtherLedgerUntouched(t, w, s, id);
    OtherPostingUntouched(t, w, s, id);
    UntouchedIsGood(t, w, Take(t, w, s), id);
  }

  lemma ClaimKeepsGood(t: Knobs, w: Machine)
    requires Good(t, w) && CanTake(w, Claim)
    ensures GoodEvent(t, Take(t, w, Claim), w.phase.todo[0])
  {
    var id := w.phase.todo[0];
    assert GoodEvent(t, w, id) && id in w.phase.todo;
  }

  lemma ConcludeKeepsGood(t: Knobs, w: Machine, answer: Answer)
    requires Good(t, w) && CanTake(w, Conclude(answer))
    ensures GoodEvent(t, Take(t, w, Conclude(answer)), w.phase.record.event.id)
  {
    var r := w.phase.record;
    assert GoodEvent(t, w, r.event.id);
    SumGrows(r.attemptCount, t);
  }

  lemma SubjectStaysGood(t: Knobs, w: Machine, s: Step, id: EventId)
    requires Good(t, w) && CanTake(w, s) && Subject(w, s) == Some(id)
    ensures GoodEvent(t, Take(t, w, s), id)
  {
    assert GoodEvent(t, w, id);
    match s
    case Claim => ClaimKeepsGood(t, w);
    case Conclude(answer) => ConcludeKeepsGood(t, w, answer);
    case BeginPost => assert BackoffSum(0, t) == 0.0;
    case _ =>
  }

  lemma LeasePhaseStaysGood(t: Knobs, w: Machine, s: Step)
    requires Good(t, w) && CanTake(w, s) && (w.phase.Leased? || w.phase.Posting?)
    ensures GoodPhase(t, Take(t, w, s))
  {
    var id := w.phase.record.event.id;
    assert GoodEvent(t, w, id);
    if s.Accept? {
      assert GoodEvent(t, w, s.event.id);
    }
  }

  lemma ClaimPhaseIsGood(t: Knobs, w: Machine)
    requires Good(t, w) && CanTake(w, Claim)
    ensures GoodPhase(t, Take(t, w, Claim))
  {
    var id := w.phase.todo[0];
    assert GoodEvent(t, w, id) && id in w.phase.todo;
    var rest := w.phase.todo[1..];
    assert forall x :: x in rest ==> x in w.phase.todo;
    assert id !in rest && DistinctIds(rest);
  }

  lemma PhaseStaysGood(t: Knobs, w: Machine, s: Step)
    requires Good(t, w) && CanTake(w, s)
    ensures GoodPhase(t, Take(t, w, s))
  {
    if w.phase.Leased? || w.phase.Posting? {
      LeasePhaseStaysGood(t, w, s);
    } else if s.Claim? {
      ClaimPhaseIsGood(t, w);
    }
  }

  lemma StepKeepsGood(t: Knobs, w: Machine, s: Step)
    requires Good(t, w) && CanTake(w, s)
    ensures Good(t, Take(t, w, s))
  {
    PhaseStaysGood(t, w, s);
    forall id ensures GoodEvent(t, Take(t, w, s), id) {
      if Subject(w, s) == Some(id) {
        SubjectStaysGood(t, w, s, id);
      } else {
        OtherEventsStayGood(t, w, s, id);
      }
    }
  }

  ghost predicate CanTakeAll(t: Knobs, w: Machine, steps: seq<Step>)
    decreases |steps|
  {
    steps == [] || (CanTake(w, steps[0]) && CanTakeAll(t, Take(t, w, steps[0]), steps[1..]))
  }

  ghost function TakeAll(t: Knobs, w: Machine, steps: seq<Step>): Machine
    requires CanTakeAll(t, w, steps)
    decreases |steps|
  {
    if steps == [] then w else TakeAll(t, Take(t, w, steps[0]), steps[1..])
  }

  /** A machine some run of the messenger leads to, with its drains cut off wherever they can be. */
  ghost predicate Reached(t: Knobs, w: Machine) {
    exists steps :: CanTakeAll(t, INITIAL_MACHINE, steps) && TakeAll(t, INITIAL_MACHINE, steps) == w
  }

  lemma {:induction false} RunKeepsGood(t: Knobs, w: Machine, steps: seq<Step>)
    requires Good(t, w) && CanTakeAll(t, w, steps)
    ensures Good(t, TakeAll(t, w, steps))
    decreases |steps|
  {
    if steps != [] {
      StepKeepsGood(t, w, steps[0]);
      RunKeepsGood(t, Take(t, w, steps[0]), steps[1..]);
    }
  }

  lemma ReachedIsGood(t: Knobs, w: Machine)
    requires Reached(t, w)
    ensures Good(t, w)
  {
    var steps :| CanTakeAll(t, INITIAL_MACHINE, steps) && TakeAll(t, INITIAL_MACHINE, steps) == w;
    InitiallyGood(t);
    RunKeepsGood(t, INITIAL_MACHINE, steps);
  }

  /**
   * Conservation: in every run, cut-off drains included, a stored event is in exactly one place: pending with its
   * payload, delivered, or dead-lettered.
   */
  lemma StoredEventsAreConserved(t: Knobs, w: Machine, id: EventId)
    requires Reached(t, w)
    ensures id in w.stored <==> id in w.db.payload || id in w.delivered || id in w.buried
    ensures !(id in w.db.payload && id in w.delivered) && !(id in w.db.payload && id in w.buried)
    ensures !(id in w.delivered && id in w.buried)
    ensures id in w.db.pending <==> id in w.db.payload
    ensures id in w.db.payload ==> w.db.payload[id].event == w.stored[id]
  {
    ReachedIsGood(t, w);
    assert GoodEvent(t, w, id);
  }

  /**
   * Attempt budget: a pending event has failed fewer times than the limit, and in every run an event is POSTed at most
   * as often as the limit and the POSTs of it that were cut off allow.
   */
  lemma PostsAreBounded(t: Knobs, w: Machine, id: EventId)
    requires Reached(t, w)
    ensures id in w.db.payload ==> w.db.payload[id].attemptCount < t.maxAttempts
    ensures LedgerOf(w, id).posts <= t.maxAttempts + LedgerOf(w, id).lost
    ensures id in w.delivered || id in w.buried ==> LedgerOf(w, id).posts > LedgerOf(w, id).lost
  {
    ReachedIsGood(t, w);
    assert GoodEvent(t, w, id);
  }

  /**
   * Backoff: the next POST of an event that failed k times begins no sooner after its first POST than the sum of the
   * first k delays, whatever else happened; and no sooner than a lease after one that was cut off was leased.
   */
  lemma NextPostWaits(t: Knobs, w: Machine)
    requires Reached(t, w) && CanTake(w, BeginPost)
    ensures var r := w.phase.record; var l := LedgerOf(w, r.event.id);
      && (l.firstPost.Some? ==> l.firstPost.value + BackoffSum(r.attemptCount, t) <= w.clock)
      && (l.abandoned.Some? ==> l.abandoned.value + 60000.0 <= w.clock)
      && (l.firstPost.None? <==> l.posts == 0)
  {
    ReachedIsGood(t, w);
    assert GoodEvent(t, w, w.phase.record.event.id);
  }

  /** Where the event of a concluded POST is, and nowhere else. */
  ghost predicate IsPendingAs(w: Machine, r: StoredRecord, at: real) {
    var id := r.event.id;
    && id in w.db.payload && w.db.payload[id] == r && id in w.db.pending && w.db.pending[id] == at
    && id !in w.delivered && id !in w.buried
  }

  ghost predicate IsBuriedAs(w: Machine, r: StoredRecord) {
    var id := r.event.id;
    && id in w.buried && id in w.db.dead && w.db.dead[id] == r
    && id !in w.db.payload && id !in w.db.pending && id !in w.delivered
  }

  ghost predicate IsDelivered(w: Machine, id: EventId) {
    id in w.delivered && id !in w.db.payload && id !in w.db.pending && id !in w.buried
  }

  /**
   * What one answer leads to, by its status: 200 to 299 delivers; 408, 429, anything from 500 up, and no answer at all
   * leave the event pending for its next delay while attempts are left, and bury it on the last; every other status
   * buries it at once. The record then counts one failure more and says what went wrong.
   */
  lemma ConclusionIsExact(t: Knobs, w: Machine, answer: Answer)
    requires Reached(t, w) && CanTake(w, Conclude(answer))
    ensures var r := w.phase.record;
      var after := Take(t, w, Conclude(answer));
      var last := r.attemptCount + 1 >= t.maxAttempts;
      var retryAt := w.clock + BackoffDelay(r.attemptCount + 1, t);
      match answer
      case NetworkError(reason) =>
        var failed := StoredRecord(r.event, r.attemptCount + 1, Some(reason));
        if last then IsBuriedAs(after, failed) else IsPendingAs(after, failed, retryAt)
      case Responded(status) =>
        var failed := StoredRecord(r.event, r.attemptCount + 1, Some("HTTP " + DecimalText(status)));
        if 200 <= status <= 299 then IsDelivered(after, r.event.id)
        else if (status == 408 || status == 429 || 500 <= status) && !last then IsPendingAs(after, failed, retryAt)
        else IsBuriedAs(after, failed)
  {
    ReachedIsGood(t, w);
    assert GoodEvent(t, w, w.phase.record.event.id);
  }

  lemma {:induction false} TakeAppend(t: Knobs, w: Machine, steps: seq<Step>, s: Step)
    requires CanTakeAll(t, w, steps) && CanTake(TakeAll(t, w, steps), s)
    ensures CanTakeAll(t, w, steps + [s]) && TakeAll(t, w, steps + [s]) == Take(t, TakeAll(t, w, steps), s)
    decreases |steps|
  {
    if steps == [] {
      assert [] + [s] == [s] && [s][1..] == [];
    } else {
      assert (steps + [s])[1..] == steps[1..] + [s];
      TakeAppend(t, Take(t, w, steps[0]), steps[1..], s);
    }
  }

  lemma ReachedContinues(t: Knobs, w: Machine, s: Step)
    requires Reached(t, w) && CanTake(w, s)
    ensures Reached(t, Take(t, w, s))
  {
    var steps :| CanTakeAll(t, INITIAL_MACHINE, steps) && TakeAll(t, INITIAL_MACHINE, steps) == w;
    TakeAppend(t, INITIAL_MACHINE, steps, s);
  }
}
