/** The messenger's Redis store and its serialised drain, as objects that follow the messenger machine. */
module WebhookMessenger {
  import opened Domain
  import opened Webhook

  const DRAIN_BATCH_SIZE: nat := 50

  /** What the due-id range query returns: the earliest due members, at most a batch of them. */
  ghost predicate IsDueList(db: Db, now: real, ids: seq<EventId>) {
    && |ids| <= 50 && DistinctIds(ids)
    && (forall id :: id in ids ==> id in db.pending && db.pending[id] <= now)
    && (forall i, j :: 0 <= i < j < |ids| ==> db.pending[ids[i]] <= db.pending[ids[j]])
    && (forall id :: id in db.pending && db.pending[id] <= now && id !in ids ==>
          |ids| == 50 && forall x :: x in ids ==> db.pending[x] <= db.pending[id])
  }

  class WebhookStore {
    var pending: map<EventId, real>
    var payload: map<EventId, StoredRecord>
    var dead: map<EventId, StoredRecord>

    function State(): Db
      reads this
    {
      Db(pending, payload, dead)
    }

    constructor ()
      ensures State() == Db(map[], map[], map[])
    {
      pending, payload, dead := map[], map[], map[];
    }

    method Enqueue(r: StoredRecord, at: real)
      modifies this
      ensures State() == Put(old(State()), r, at)
    {
      payload := payload[r.event.id := r];
      pending := pending[r.event.id := at];
    }

    method Reschedule(r: StoredRecord, at: real)
      modifies this
      ensures State() == Put(old(State()), r, at)
    {
      payload := payload[r.event.id := r];
      pending := pending[r.event.id := at];
    }

    method CompleteEvent(id: EventId)
      modifies this
      ensures State() == Complete(old(State()), id)
    {
      pending := pending - {id};
      payload := payload - {id};
    }

    method BuryEvent(r: StoredRecord)
      modifies this
      ensures State() == DeadLetter(old(State()), r)
    {
      dead := dead[r.event.id := r];
      pending := pending - {r.event.id};
      payload := payload - {r.event.id};
    }

    method GetRecord(id: EventId) returns (r: Option<StoredRecord>)
      ensures r == if id in payload then Some(payload[id]) else None
    {
      r := if id in payload then Some(payload[id]) else None;
    }

    /** The earliest pending member outside `taken`. */
    method EarliestOutside(taken: seq<EventId>) returns (least: Option<EventId>)
      ensures least.None? ==> forall id :: id in pending ==> id in taken
      ensures least.Some? ==> least.value in pending && least.value !in taken
      ensures least.Some? ==> forall id :: id in pending && id !in taken ==> pending[least.value] <= pending[id]
    {
      least := None;
      var rest := pending.Keys;
      while rest != {}
        invariant rest <= pending.Keys
        invariant least.Some? ==> least.value in pending && least.value !in taken
        invariant least.Some? ==> forall id :: id in pending && id !in rest && id !in taken ==>
          pending[least.value] <= pending[id]
        invariant least.None? ==> forall id :: id in pending && id !in taken ==> id in rest
        decreases |rest|
      {
        var id :| id in rest;
        rest := rest - {id};
        if id !in taken && (least.None? || pending[id] < pending[least.value]) {
          least := Some(id);
        }
      }
    }

    method ListDueEventIds(now: real) returns (ids: seq<EventId>)
      ensures IsDueList(State(), now, ids)
    {
      ids := [];
      var done := false;
      while |ids| < DRAIN_BATCH_SIZE && !done
        invariant |ids| <= DRAIN_BATCH_SIZE && DistinctIds(ids)
        invariant forall id :: id in ids ==> id in pending && pending[id] <= now
        invariant forall i, j :: 0 <= i < j < |ids| ==> pending[ids[i]] <= pending[ids[j]]
        invariant forall id :: id in pending && id !in ids ==> forall x :: x in ids ==> pending[x] <= pending[id]
        invariant done ==> forall id :: id in pending && id !in ids ==> pending[id] > now
        decreases !done, DRAIN_BATCH_SIZE - |ids|
      {
        var next := EarliestOutside(ids);
        if next.None? || pending[next.value] > now {
          done := true;
        } else {
          ids := ids + [next.value];
        }
      }
    }
  }

  /** The receiver's answer to one POST and the time that passes until the next step. */
  datatype Exchange = Exchange(answer: Answer, beforePost: real, afterPost: real)

  predicate ValidExchange(x: Exchange) {
    x.beforePost >= 0.0 && x.afterPost >= 0.0
  }

  class WebhookService {
    const knobs: Knobs
    const store: WebhookStore
    var clock: real
    ghost var machine: Machine

    /** Between kicks no drain is running; Redis and the clock are those of a reachable machine. */
    ghost predicate Follows()
      reads this, store
    {
      machine.db == store.State() && machine.clock == clock && Good(knobs, machine)
    }

    ghost predicate Valid()
      reads this, store
    {
      Follows() && machine.phase.Idle?
    }

    constructor (knobs: Knobs)
      ensures Valid() && this.knobs == knobs && machine == INITIAL_MACHINE && fresh(store)
    {
      var s := new WebhookStore();
      this.knobs, store, clock := knobs, s, 0.0;
      machine := INITIAL_MACHINE;
      InitiallyGood(knobs);
    }

    /** An event that cannot be built is dropped; otherwise it is durable, and due, when this returns. */
    method Accept(built: Option<Event>)
      requires Valid() && (built.Some? ==> built.value.id !in machine.stored)
      modifies this`machine, store
      ensures Valid()
      ensures built.None? ==> machine == old(machine)
      ensures built.Some? ==>
        && machine == Take(knobs, old(machine), Step.Accept(built.value))
        && built.value.id in store.payload && store.pending[built.value.id] == clock
    {
      if built.Some? {
        StepKeepsGood(knobs, machine, Step.Accept(built.value));
        store.Enqueue(StoredRecord(built.value, 0, None), clock);
        machine := Take(knobs, machine, Step.Accept(built.value));
      }
    }

    method Await(delay: real)
      requires Follows() && delay >= 0.0
      modifies this`machine, this`clock
      ensures Follows() && clock == old(clock) + delay && machine == old(machine).(clock := clock)
    {
      StepKeepsGood(knobs, machine, Elapse(clock + delay));
      clock := clock + delay;
      machine := Take(knobs, machine, Elapse(clock));
    }

    /** Success drops the event, a final answer or the last attempt buries it, anything else backs off. */
    method Conclude(r: StoredRecord, answer: Answer)
      requires Follows() && machine.phase.Posting? && machine.phase.record == r
      modifies this`machine, store
      ensures Follows() && machine == Take(knobs, old(machine), Step.Conclude(answer))
    {
      StepKeepsGood(knobs, machine, Step.Conclude(answer));
      ghost var before := machine;
      if answer.NetworkError? {
        OnFailure(r, ErrorText(answer));
      } else if IsOk(answer.status) {
        store.CompleteEvent(r.event.id);
      } else if !IsRetryableStatus(answer.status) {
        store.BuryEvent(Failed(r, ErrorText(answer)));
      } else {
        OnFailure(r, ErrorText(answer));
      }
      machine := Take(knobs, before, Step.Conclude(answer));
    }

    method OnFailure(r: StoredRecord, error: string)
      modifies store
      ensures store.State() ==
        if r.attemptCount + 1 >= knobs.maxAttempts then DeadLetter(old(store.State()), Failed(r, error))
        else Put(old(store.State()), Failed(r, error), clock + BackoffDelay(r.attemptCount + 1, knobs))
    {
      if r.attemptCount + 1 >= knobs.maxAttempts {
        store.BuryEvent(Failed(r, error));
      } else {
        store.Reschedule(Failed(r, error), clock + BackoffDelay(r.attemptCount + 1, knobs));
      }
    }

    /** The POST of a leased record, from its start to its outcome. */
    method Post(r: StoredRecord, ghost rest: seq<EventId>, x: Exchange)
      requires Follows() && ValidExchange(x) && machine.phase == Leased(r, rest)
      modifies this`machine, this`clock, store
      ensures Follows() && machine.phase == Draining(rest) && old(clock) <= clock
      ensures Attempted(old(machine), machine, r.event.id) && OthersUntouched(old(machine), machine, r.event.id)
      ensures r.event.id in store.pending ==> store.pending[r.event.id] > old(clock)
    {
      Await(x.beforePost);
      StepKeepsGood(knobs, machine, BeginPost);
      ghost var leased := machine;
      machine := Take(knobs, machine, BeginPost);
      StepLeavesOthers(knobs, leased, BeginPost);
      Await(x.afterPost);
      ghost var posted := machine;
      StepLeavesOthers(knobs, posted, Step.Conclude(x.answer));
      BackoffIsPositive(r.attemptCount + 1, knobs);
      assert GoodEvent(knobs, posted, r.event.id);
      Conclude(r, x.answer);
    }

    /** A due event was POSTed once more, and no crash cut anything off. */
    ghost predicate Attempted(a: Machine, b: Machine, id: EventId) {
      LedgerOf(b, id).posts == LedgerOf(a, id).posts + 1 && LedgerOf(b, id).lost == LedgerOf(a, id).lost
    }

    ghost predicate OthersUntouched(a: Machine, b: Machine, id: EventId) {
      forall x :: x != id ==> SamePlace(a, b, x) && LedgerOf(a, x) == LedgerOf(b, x)
    }

    lemma OthersStayUntouched(a: Machine, b: Machine, d: Machine, id: EventId)
      requires OthersUntouched(a, b, id) && OthersUntouched(b, d, id)
      ensures OthersUntouched(a, d, id)
    {
      forall x | x != id ensures SamePlace(a, d, x) && LedgerOf(a, x) == LedgerOf(d, x) {
        assert SamePlace(a, b, x) && SamePlace(b, d, x) && LedgerOf(a, x) == LedgerOf(b, x);
      }
    }

    /** What a drain has done to the events it attended, and to the others. */
    ghost predicate Attended(a: Machine, b: Machine, now: real, ids: seq<EventId>) {
      && (forall id :: id in ids ==> Attempted(a, b, id) && (id in b.db.pending ==> b.db.pending[id] > now))
      && (forall id :: id !in ids ==> SamePlace(a, b, id) && LedgerOf(a, id) == LedgerOf(b, id))
    }

    lemma AttendOneMore(a: Machine, b: Machine, d: Machine, now: real, ids: seq<EventId>, id: EventId)
      requires Attended(a, b, now, ids) && id !in ids && OthersUntouched(b, d, id) && Attempted(b, d, id)
      requires id in d.db.pending ==> d.db.pending[id] > now
      ensures Attended(a, d, now, ids + [id])
    {
      forall x ensures x in ids + [id] <==> x in ids || x == id {}
      forall x | x in ids ensures Attempted(a, d, x) && (x in d.db.pending ==> d.db.pending[x] > now) {
        assert SamePlace(b, d, x) && LedgerOf(b, x) == LedgerOf(d, x);
      }
      assert LedgerOf(a, id) == LedgerOf(b, id);
      forall x | x !in ids + [id] ensures SamePlace(a, d, x) && LedgerOf(a, x) == LedgerOf(d, x) {
        assert x !in ids && x != id;
        assert SamePlace(a, b, x) && SamePlace(b, d, x) && LedgerOf(b, x) == LedgerOf(d, x);
      }
    }

    lemma StepLeavesOthers(t: Knobs, w: Machine, s: Step)
      requires Good(t, w) && CanTake(w, s) && Subject(w, s).Some?
      ensures OthersUntouched(w, Take(t, w, s), Subject(w, s).value)
    {
      if s.Claim? {
        assert GoodEvent(t, w, w.phase.todo[0]);
      }
      forall x | x != Subject(w, s).value
        ensures SamePlace(w, Take(t, w, s), x) && LedgerOf(w, x) == LedgerOf(Take(t, w, s), x)
      {
        OtherPlaceUntouched(t, w, s, x);
        OtherLedgerUntouched(t, w, s, x);
      }
    }

    /** The head of the due list: lease it and POST it; a member without payload is dropped. */
    method DeliverOne(id: EventId, ghost rest: seq<EventId>, x: Exchange)
      requires Follows() && ValidExchange(x) && machine.phase == Draining([id] + rest)
      modifies this`machine, this`clock, store
      ensures Follows() && machine.phase == Draining(rest) && old(clock) <= clock
      ensures id in old(store.pending) ==> Attempted(old(machine), machine, id)
      ensures OthersUntouched(old(machine), machine, id)
      ensures id in store.pending ==> store.pending[id] > old(clock)
    {
      ghost var start := machine;
      assert ([id] + rest)[1..] == rest;
      assert GoodEvent(knobs, start, id);
      StepKeepsGood(knobs, start, Claim);
      StepLeavesOthers(knobs, start, Claim);
      var record := store.GetRecord(id);
      if record.None? {
        store.CompleteEvent(id);
        machine := Take(knobs, start, Claim);
      } else {
        store.Reschedule(record.value, clock + CLAIM_LEASE);
        machine := Take(knobs, start, Claim);
        ghost var leased := machine;
        Post(record.value, rest, x);
        OthersStayUntouched(start, leased, machine, id);
      }
    }

    /**
     * One drain: every event of the due batch is POSTed exactly once more and is afterwards gone or due later than the
     * drain began; no other event is touched.
     */
    method DrainOnce(exchanges: EventId -> Exchange) returns (ids: seq<EventId>)
      requires Valid() && forall id :: ValidExchange(exchanges(id))
      modifies this`machine, this`clock, store
      ensures Valid() && old(clock) <= clock && IsDueList(old(store.State()), old(clock), ids)
      ensures Attended(old(machine), machine, old(clock), ids)
    {
      ids := store.ListDueEventIds(clock);
      StepKeepsGood(knobs, machine, BeginDrain(ids));
      machine := Take(knobs, machine, BeginDrain(ids));
      DeliverAll(ids, exchanges);
      StepKeepsGood(knobs, machine, EndDrain);
      machine := Take(knobs, machine, EndDrain);
    }

    /** One more event of the batch: it was pending when the batch was read, and is still. */
    method DeliverNext(ghost start: Machine, ghost since: real, ids: seq<EventId>, i: nat, x: Exchange)
      requires Follows() && ValidExchange(x) && i < |ids| && DistinctIds(ids) && machine.phase == Draining(ids[i..])
      requires ids[i] in start.db.pending && since <= clock && Attended(start, machine, since, ids[..i])
      modifies this`machine, this`clock, store
      ensures Follows() && machine.phase == Draining(ids[i + 1..]) && since <= clock
      ensures Attended(start, machine, since, ids[..i + 1])
    {
      assert ids[i..] == [ids[i]] + ids[i + 1..] && ids[..i + 1] == ids[..i] + [ids[i]];
      assert ids[i] !in ids[..i] && SamePlace(start, machine, ids[i]);
      ghost var before := machine;
      DeliverOne(ids[i], ids[i + 1..], x);
      AttendOneMore(start, before, machine, since, ids[..i], ids[i]);
    }

    method DeliverAll(ids: seq<EventId>, exchanges: EventId -> Exchange)
      requires Follows() && machine.phase == Draining(ids) && DistinctIds(ids)
        && forall id :: ValidExchange(exchanges(id))
      requires forall id :: id in ids ==> id in store.pending
      modifies this`machine, this`clock, store
      ensures Follows() && machine.phase == Draining([]) && old(clock) <= clock
      ensures Attended(old(machine), machine, old(clock), ids)
    {
      ghost var start := machine;
      var i := 0;
      while i < |ids|
        invariant 0 <= i <= |ids| && Follows() && machine.phase == Draining(ids[i..]) && old(clock) <= clock
        invariant Attended(start, machine, old(clock), ids[..i])
      {
        DeliverNext(start, old(clock), ids, i, exchanges(ids[i]));
        i := i + 1;
      }
      assert ids[..|ids|] == ids;
    }
  }
}
