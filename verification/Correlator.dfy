/** Joining an uplink with its acknowledgement, in whichever order they arrive. */
module Correlator {
  import opened Domain

  const CORRELATION_TTL: real := 10000.0

  /** What the vendor sends: a positive acknowledgement naming the queue item, or a decoded uplink. */
  datatype Message =
    | Ack(id: string, queueItemId: string)
    | Up(id: string, decoded: string, device: string)

  /** One half waiting for the other, and when it arrived. */
  datatype Entry = Entry(half: Message, timestamp: real)

  /** The combined event of a pair; `id` is the deduplication id both halves carried. */
  datatype Combined = Combined(id: string, queueItemId: string, decoded: string, device: string)

  /** An input of the correlator: a message, or a garbage-collection tick. */
  datatype Input = Arrive(at: real, msg: Message) | Sweep(at: real)

  datatype State = State(pending: map<string, Entry>, emitted: seq<Combined>)

  /** Whether a waiting entry can be completed by `msg`. An empty queue item id counts as absent. */
  predicate Completes(e: Entry, msg: Message) {
    match msg
    case Ack(_, _) => e.half.Up?
    case Up(_, _, _) => e.half.Ack? && e.half.queueItemId != ""
  }

  function Combine(a: Message, b: Message): Combined
    requires a.Ack? != b.Ack?
  {
    if a.Ack? then Combined(b.id, a.queueItemId, b.decoded, b.device)
    else Combined(a.id, b.queueItemId, a.decoded, a.device)
  }

  predicate IsStale(e: Entry, now: real) {
    now - e.timestamp > CORRELATION_TTL
  }

  function Collect(pending: map<string, Entry>, now: real): map<string, Entry> {
    map id | id in pending && !IsStale(pending[id], now) :: pending[id]
  }

  /** What the correlator does with a message it is given. */
  function Correlate(s: State, now: real, msg: Message): State {
    if msg.id in s.pending && Completes(s.pending[msg.id], msg)
    then State(s.pending - {msg.id}, s.emitted + [Combine(s.pending[msg.id].half, msg)])
    else s.(pending := s.pending[msg.id := Entry(msg, now)])
  }

  /** The ingress handler drops an acknowledgement without a queue item id before the correlator sees it. */
  predicate Passes(msg: Message) {
    msg.Ack? ==> msg.queueItemId != ""
  }

  function Step(s: State, i: Input): State {
    match i
    case Sweep(now) => s.(pending := Collect(s.pending, now))
    case Arrive(now, msg) => if Passes(msg) then Correlate(s, now, msg) else s
  }

  function Run(inputs: seq<Input>): State {
    if inputs == [] then State(map[], []) else Step(Run(inputs[..|inputs| - 1]), inputs[|inputs| - 1])
  }

  /** The messages among the inputs that reach the correlator. */
  function Messages(inputs: seq<Input>): seq<Message> {
    if inputs == [] then []
    else
      var rest := Messages(inputs[..|inputs| - 1]);
      match inputs[|inputs| - 1]
      case Arrive(_, msg) => if Passes(msg) then rest + [msg] else rest
      case Sweep(_) => rest
  }

  ghost predicate Arrived(inputs: seq<Input>, at: real, msg: Message) {
    Passes(msg) && Arrive(at, msg) in inputs
  }

  /** At most one acknowledgement and one uplink per deduplication id. */
  ghost predicate Once(msgs: seq<Message>) {
    forall i, j :: 0 <= i < j < |msgs| ==> !(msgs[i].id == msgs[j].id && msgs[i].Ack? == msgs[j].Ack?)
  }

  /** The clock does not go back, and the two halves of a pair arrive within the TTL of each other. */
  ghost predicate Timely(inputs: seq<Input>) {
    && (forall i, j :: 0 <= i < j < |inputs| ==> inputs[i].at <= inputs[j].at)
    && (forall a, m, b, n :: Arrived(inputs, a, m) && Arrived(inputs, b, n) && m.id == n.id ==>
      b - a <= 10000.0)
  }

  ghost predicate IsPair(msgs: seq<Message>, a: Message, u: Message) {
    a in msgs && u in msgs && a.Ack? && u.Up? && a.id == u.id
  }

  /** How often `c` should be emitted: once if both its halves are among the messages. */
  ghost function ExpectedCount(msgs: seq<Message>, c: Combined): nat {
    if IsPair(msgs, Ack(c.id, c.queueItemId), Up(c.id, c.decoded, c.device)) then 1 else 0
  }

  ghost predicate Alone(msgs: seq<Message>, m: Message) {
    m in msgs && forall n :: n in msgs && n.id == m.id ==> n == m
  }

  /** A waiting entry is the only message of its id; a message alone that is not waiting was collected as stale. */
  ghost predicate GoodPending(inputs: seq<Input>, pending: map<string, Entry>) {
    && (forall id :: id in pending ==>
          pending[id].half.id == id && Arrived(inputs, pending[id].timestamp, pending[id].half)
          && Alone(Messages(inputs), pending[id].half))
    && (forall at, m :: Arrived(inputs, at, m) && Alone(Messages(inputs), m) && m.id !in pending ==>
          exists g :: Sweep(g) in inputs && g - at > CORRELATION_TTL)
  }

  ghost predicate GoodEmitted(msgs: seq<Message>, emitted: seq<Combined>) {
    forall c :: multiset(emitted)[c] == ExpectedCount(msgs, c)
  }

  lemma ArrivedInLonger(pre: seq<Input>, last: Input, at: real, m: Message)
    ensures Arrived(pre + [last], at, m) <==> Arrived(pre, at, m) || (Passes(m) && last == Arrive(at, m))
  {
  }

  lemma {:induction false} MessagesArrive(inputs: seq<Input>, m: Message)
    ensures m in Messages(inputs) <==> exists at :: Arrived(inputs, at, m)
    decreases |inputs|
  {
    if inputs != [] {
      var pre, last := inputs[..|inputs| - 1], inputs[|inputs| - 1];
      assert inputs == pre + [last];
      MessagesArrive(pre, m);
      if m in Messages(pre) {
        var at :| Arrived(pre, at, m);
        assert Arrived(inputs, at, m);
      } else if last.Arrive? && last.msg == m && Passes(m) {
        assert Arrived(inputs, last.at, m);
      } else {
        forall at ensures !Arrived(inputs, at, m) {
          ArrivedInLonger(pre, last, at, m);
          assert !Arrived(pre, at, m);
        }
      }
    }
  }

  lemma OncePrefix(pre: seq<Message>, m: Message)
    requires Once(pre + [m])
    ensures Once(pre) && forall n :: n in pre ==> !(n.id == m.id && n.Ack? == m.Ack?)
  {
    var all := pre + [m];
    assert all[|pre|] == m;
    forall i, j | 0 <= i < j < |pre| ensures !(pre[i].id == pre[j].id && pre[i].Ack? == pre[j].Ack?) {
      assert all[i] == pre[i] && all[j] == pre[j];
    }
    forall n | n in pre ensures !(n.id == m.id && n.Ack? == m.Ack?) && n in all {
      var i :| 0 <= i < |pre| && pre[i] == n;
      assert all[i] == n;
    }
  }

  lemma TimelyPrefix(inputs: seq<Input>)
    requires inputs != [] && Timely(inputs)
    ensures Timely(inputs[..|inputs| - 1])
    ensures forall i :: i in inputs[..|inputs| - 1] ==> i.at <= inputs[|inputs| - 1].at
  {
    var pre := inputs[..|inputs| - 1];
    assert forall a, m :: Arrived(pre, a, m) ==> Arrived(inputs, a, m);
  }

  lemma AloneInPrefix(pre: seq<Message>, m: Message, n: Message)
    ensures Alone(pre + [m], n) && n != m ==> Alone(pre, n) && m.id != n.id
    ensures Alone(pre, n) && m.id != n.id ==> Alone(pre + [m], n)
    ensures Alone(pre + [m], m) <==> forall x :: x in pre && x.id == m.id ==> x == m
  {
    assert forall x :: x in pre + [m] <==> x in pre || x == m;
  }

  /** A message that comes once comes at one time. */
  lemma {:induction false} ArrivesOnce(inputs: seq<Input>, a: real, b: real, m: Message)
    requires Once(Messages(inputs)) && Arrived(inputs, a, m) && Arrived(inputs, b, m)
    ensures a == b
    decreases |inputs|
  {
    var pre, last := inputs[..|inputs| - 1], inputs[|inputs| - 1];
    assert inputs == pre + [last];
    ArrivedInLonger(pre, last, a, m);
    ArrivedInLonger(pre, last, b, m);
    MessagesArrive(pre, m);
    if last.Arrive? && Passes(last.msg) {
      OncePrefix(Messages(pre), last.msg);
    }
    if Arrived(pre, a, m) && Arrived(pre, b, m) {
      ArrivesOnce(pre, a, b, m);
    }
  }

  lemma SweepKeepsGood(pre: seq<Input>, g: real, s: State)
    requires GoodPending(pre, s.pending) && Once(Messages(pre))
    ensures Messages(pre + [Sweep(g)]) == Messages(pre)
    ensures GoodPending(pre + [Sweep(g)], Step(s, Sweep(g)).pending)
  {
    var inputs := pre + [Sweep(g)];
    var after := Step(s, Sweep(g)).pending;
    assert inputs[..|inputs| - 1] == pre;
    assert Messages(inputs) == Messages(pre);
    forall id | id in after ensures Arrived(inputs, after[id].timestamp, after[id].half) {
      ArrivedInLonger(pre, Sweep(g), after[id].timestamp, after[id].half);
    }
    forall at, m | Arrived(inputs, at, m) && Alone(Messages(inputs), m) && m.id !in after
      ensures exists x :: Sweep(x) in inputs && x - at > CORRELATION_TTL
    {
      ArrivedInLonger(pre, Sweep(g), at, m);
      if m.id !in s.pending {
        var x :| Sweep(x) in pre && x - at > CORRELATION_TTL;
        assert Sweep(x) in inputs;
      } else {
        LoneEntry(pre, s.pending, at, m);
        ArrivesOnce(pre, at, s.pending[m.id].timestamp, m);
        assert Sweep(g) in inputs;
      }
    }
  }

  /** The entry waiting under the id of a lone message is that message, with an arrival of it. */
  lemma LoneEntry(pre: seq<Input>, pending: map<string, Entry>, at: real, m: Message)
    requires GoodPending(pre, pending) && Arrived(pre, at, m) && m.id in pending
    ensures pending[m.id].half == m
  {
    MessagesArrive(pre, m);
  }

  /** The partner of a message that now arrives is waiting: it came within the TTL, so no sweep collected it. */
  lemma PartnerWaits(pre: seq<Input>, now: real, msg: Message, s: State, at: real, partner: Message)
    requires var inputs := pre + [Arrive(now, msg)]; Timely(inputs) && Once(Messages(inputs)) && Passes(msg)
    requires GoodPending(pre, s.pending)
    requires Arrived(pre, at, partner) && partner.id == msg.id
    ensures msg.id in s.pending && s.pending[msg.id].half == partner && partner.Ack? != msg.Ack?
    ensures Completes(s.pending[msg.id], msg)
  {
    var inputs := pre + [Arrive(now, msg)];
    assert inputs[..|inputs| - 1] == pre;
    OncePrefix(Messages(pre), msg);
    MessagesArrive(pre, partner);
    PartnerIsAlone(Messages(pre), msg, partner);
    if msg.id !in s.pending {
      var g :| Sweep(g) in pre && g - at > CORRELATION_TTL;
      NotYetStale(pre, now, msg, at, partner, g);
    }
    LoneEntry(pre, s.pending, at, partner);
  }

  lemma NotYetStale(pre: seq<Input>, now: real, msg: Message, at: real, partner: Message, g: real)
    requires Timely(pre + [Arrive(now, msg)]) && Passes(msg)
    requires Arrived(pre, at, partner) && partner.id == msg.id && Sweep(g) in pre
    ensures g - at <= CORRELATION_TTL
  {
    var inputs := pre + [Arrive(now, msg)];
    assert inputs[..|inputs| - 1] == pre;
    TimelyPrefix(inputs);
    assert Arrived(inputs, at, partner) && Arrived(inputs, now, msg);
    assert Sweep(g).at <= now;
  }

  lemma PartnerIsAlone(pre: seq<Message>, msg: Message, partner: Message)
    requires Once(pre + [msg]) && partner in pre && partner.id == msg.id
    ensures Alone(pre, partner) && partner.Ack? != msg.Ack?
  {
    OncePrefix(pre, msg);
    forall n | n in pre && n.id == partner.id ensures n == partner {
      var i :| 0 <= i < |pre| && pre[i] == partner;
      var j :| 0 <= j < |pre| && pre[j] == n;
    }
  }

  lemma ArriveKeepsPending(pre: seq<Input>, now: real, msg: Message, s: State)
    requires var inputs := pre + [Arrive(now, msg)]; Timely(inputs) && Once(Messages(inputs)) && Passes(msg)
    requires GoodPending(pre, s.pending)
    ensures GoodPending(pre + [Arrive(now, msg)], Step(s, Arrive(now, msg)).pending)
  {
    var last := Arrive(now, msg);
    var inputs := pre + [last];
    var after := Step(s, last).pending;
    assert inputs[..|inputs| - 1] == pre;
    OncePrefix(Messages(pre), msg);
    forall id | id in after
      ensures after[id].half.id == id && Arrived(inputs, after[id].timestamp, after[id].half)
      ensures Alone(Messages(inputs), after[id].half)
    {
      ArrivedInLonger(pre, last, after[id].timestamp, after[id].half);
      AloneInPrefix(Messages(pre), msg, after[id].half);
      if id == msg.id {
        WaitingIsAlone(pre, now, msg, s);
      }
    }
    forall at, m | Arrived(inputs, at, m) && Alone(Messages(inputs), m) && m.id !in after
      ensures exists x :: Sweep(x) in inputs && x - at > CORRELATION_TTL
    {
      ArrivedInLonger(pre, last, at, m);
      AloneInPrefix(Messages(pre), msg, m);
      if m == msg {
        AloneWaits(pre, msg, s, now);
      } else {
        var x :| Sweep(x) in pre && x - at > CORRELATION_TTL;
        assert Sweep(x) in inputs;
      }
    }
  }

  /** A message that goes on waiting has met no other of its id. */
  lemma WaitingIsAlone(pre: seq<Input>, now: real, msg: Message, s: State)
    requires var inputs := pre + [Arrive(now, msg)]; Timely(inputs) && Once(Messages(inputs)) && Passes(msg)
    requires GoodPending(pre, s.pending) && msg.id in Step(s, Arrive(now, msg)).pending
    ensures Alone(Messages(pre) + [msg], msg)
  {
    if exists x :: x in Messages(pre) && x.id == msg.id {
      var x :| x in Messages(pre) && x.id == msg.id;
      MessagesArrive(pre, x);
      var at :| Arrived(pre, at, x);
      PartnerWaits(pre, now, msg, s, at, x);
      assert false;
    }
    AloneInPrefix(Messages(pre), msg, msg);
  }

  lemma AloneIsFirst(pre: seq<Message>, msg: Message)
    requires Once(pre + [msg]) && Alone(pre + [msg], msg)
    ensures forall n :: n in pre ==> n.id != msg.id
  {
    OncePrefix(pre, msg);
    assert forall n :: n in pre ==> n in pre + [msg];
  }

  lemma AloneWaits(pre: seq<Input>, msg: Message, s: State, now: real)
    requires Passes(msg) && GoodPending(pre, s.pending)
    requires Once(Messages(pre) + [msg]) && Alone(Messages(pre) + [msg], msg)
    ensures msg.id in Step(s, Arrive(now, msg)).pending
  {
    AloneIsFirst(Messages(pre), msg);
  }

  lemma ExpectedUnchanged(pre: seq<Message>, msg: Message, c: Combined)
    requires forall n :: n in pre ==> n.id != msg.id
    ensures ExpectedCount(pre + [msg], c) == ExpectedCount(pre, c)
  {
    assert forall x :: x in pre + [msg] <==> x in pre || x == msg;
  }

  /** A completing message brings exactly one new pair. */
  lemma ExpectedGrows(pre: seq<Message>, msg: Message, partner: Message, c: Combined)
    requires Once(pre + [msg]) && partner in pre && partner.id == msg.id && partner.Ack? != msg.Ack?
    ensures ExpectedCount(pre + [msg], c) == ExpectedCount(pre, c) + (if c == Combine(partner, msg) then 1 else 0)
  {
    assert forall x :: x in pre + [msg] <==> x in pre || x == msg;
    OncePrefix(pre, msg);
    PartnerIsAlone(pre, msg, partner);
  }

  lemma NothingWaits(pre: seq<Input>, id: string, s: State)
    requires GoodPending(pre, s.pending) && forall n :: n in Messages(pre) ==> n.id != id
    ensures id !in s.pending
  {
  }

  lemma ArriveKeepsEmitted(pre: seq<Input>, now: real, msg: Message, s: State)
    requires var inputs := pre + [Arrive(now, msg)]; Timely(inputs) && Once(Messages(inputs)) && Passes(msg)
    requires GoodPending(pre, s.pending) && GoodEmitted(Messages(pre), s.emitted)
    ensures GoodEmitted(Messages(pre) + [msg], Step(s, Arrive(now, msg)).emitted)
  {
    var inputs := pre + [Arrive(now, msg)];
    var after := Step(s, Arrive(now, msg)).emitted;
    assert inputs[..|inputs| - 1] == pre;
    OncePrefix(Messages(pre), msg);
    if partner :| partner in Messages(pre) && partner.id == msg.id {
      MessagesArrive(pre, partner);
      var at :| Arrived(pre, at, partner);
      PartnerWaits(pre, now, msg, s, at, partner);
      assert after == s.emitted + [Combine(partner, msg)];
      forall c ensures multiset(after)[c] == ExpectedCount(Messages(pre) + [msg], c) {
        ExpectedGrows(Messages(pre), msg, partner, c);
      }
    } else {
      forall c ensures multiset(after)[c] == ExpectedCount(Messages(pre) + [msg], c) {
        ExpectedUnchanged(Messages(pre), msg, c);
      }
      NothingWaits(pre, msg.id, s);
    }
  }

  /** A message the handler drops leaves no trace. */
  lemma DroppedKeepsPending(pre: seq<Input>, now: real, msg: Message, s: State)
    requires GoodPending(pre, s.pending) && !Passes(msg)
    ensures Messages(pre + [Arrive(now, msg)]) == Messages(pre)
    ensures GoodPending(pre + [Arrive(now, msg)], s.pending)
  {
    var last := Arrive(now, msg);
    var inputs := pre + [last];
    assert inputs[..|inputs| - 1] == pre;
    forall id | id in s.pending ensures Arrived(inputs, s.pending[id].timestamp, s.pending[id].half) {
      ArrivedInLonger(pre, last, s.pending[id].timestamp, s.pending[id].half);
    }
    forall at, m | Arrived(inputs, at, m) && Alone(Messages(inputs), m) && m.id !in s.pending
      ensures exists g :: Sweep(g) in inputs && g - at > CORRELATION_TTL
    {
      ArrivedInLonger(pre, last, at, m);
      var g :| Sweep(g) in pre && g - at > CORRELATION_TTL;
      assert Sweep(g) in inputs;
    }
  }

  /** Every run keeps exactly the lone halves that are not stale, and has emitted each pair once. */
  lemma {:induction false} RunIsGood(inputs: seq<Input>)
    requires Timely(inputs) && Once(Messages(inputs))
    ensures GoodPending(inputs, Run(inputs).pending) && GoodEmitted(Messages(inputs), Run(inputs).emitted)
    decreases |inputs|
  {
    if inputs != [] {
      var pre, last := inputs[..|inputs| - 1], inputs[|inputs| - 1];
      assert inputs == pre + [last];
      TimelyPrefix(inputs);
      match last {
        case Sweep(g) =>
          RunIsGood(pre);
          SweepKeepsGood(pre, g, Run(pre));
        case Arrive(now, msg) =>
          if Passes(msg) {
            OncePrefix(Messages(pre), msg);
            RunIsGood(pre);
            ArriveKeepsPending(pre, now, msg, Run(pre));
            ArriveKeepsEmitted(pre, now, msg, Run(pre));
          } else {
            RunIsGood(pre);
            DroppedKeepsPending(pre, now, msg, Run(pre));
          }
      }
    }
  }

  lemma SameMessagesSameExpectation(a: seq<Message>, b: seq<Message>, c: Combined)
    requires multiset(a) == multiset(b)
    ensures ExpectedCount(a, c) == ExpectedCount(b, c)
  {
    assert forall m :: m in a <==> m in multiset(a);
    assert forall m :: m in b <==> m in multiset(b);
  }

  /**
   * Confluence: two runs over the same messages, in any orders, at any times within the TTL, with any garbage
   * collection and any dropped acknowledgements between, emit the same combined events, each pair exactly once.
   */
  lemma OrderDoesNotMatter(a: seq<Input>, b: seq<Input>)
    requires Timely(a) && Timely(b) && Once(Messages(a)) && Once(Messages(b))
    requires multiset(Messages(a)) == multiset(Messages(b))
    ensures multiset(Run(a).emitted) == multiset(Run(b).emitted)
    ensures forall c :: multiset(Run(a).emitted)[c] == ExpectedCount(Messages(a), c)
  {
    RunIsGood(a);
    RunIsGood(b);
    forall c ensures multiset(Run(a).emitted)[c] == multiset(Run(b).emitted)[c] {
      SameMessagesSameExpectation(Messages(a), Messages(b), c);
    }
  }

  /** Without garbage collection exactly the ids with one half are left waiting. */
  lemma LoneHalvesWait(inputs: seq<Input>, id: string)
    requires Timely(inputs) && Once(Messages(inputs)) && forall i :: i in inputs ==> i.Arrive?
    ensures id in Run(inputs).pending <==> exists m :: Alone(Messages(inputs), m) && m.id == id
  {
    RunIsGood(inputs);
    if m :| Alone(Messages(inputs), m) && m.id == id {
      MessagesArrive(inputs, m);
    }
  }

  /** What an acknowledgement yields at once: nothing, a delivery failure, or a completed pair. */
  datatype AckOutcome = Nothing | Nack(queueItemId: string) | Pair(combined: Combined)

  /** The process-local correlator, updated in place by each event. */
  class EventCorrelator {
    var pending: map<string, Entry>

    constructor ()
      ensures pending == map[]
    {
      pending := map[];
    }

    method OnAckEvent(id: string, queueItemId: string, now: real) returns (combined: Option<Combined>)
      modifies this
      ensures forall emitted :: var after := Correlate(State(old(pending), emitted), now, Ack(id, queueItemId));
        pending == after.pending && after.emitted == if combined.Some? then emitted + [combined.value] else emitted
    {
      if id in pending && pending[id].half.Up? {
        var up := pending[id].half;
        pending := pending - {id};
        return Some(Combined(up.id, queueItemId, up.decoded, up.device));
      }
      pending := pending[id := Entry(Ack(id, queueItemId), now)];
      return None;
    }

    /**
     * The ingress handler of acknowledgements: no queue item id, no event; a negative one is a failure of its own and
     * takes no part in the correlation.
     */
    method HandleAck(id: string, queueItemId: string, acknowledged: bool, now: real) returns (outcome: AckOutcome)
      modifies this
      ensures outcome.Nack? <==> queueItemId != "" && !acknowledged
      ensures outcome.Nack? ==> outcome.queueItemId == queueItemId && pending == old(pending)
      ensures acknowledged || queueItemId == "" ==>
        forall emitted :: var after := Step(State(old(pending), emitted), Arrive(now, Ack(id, queueItemId)));
          pending == after.pending && after.emitted == if outcome.Pair? then emitted + [outcome.combined] else emitted
    {
      if queueItemId == "" {
        return Nothing;
      }
      if !acknowledged {
        return Nack(queueItemId);
      }
      var combined := OnAckEvent(id, queueItemId, now);
      outcome := if combined.Some? then Pair(combined.value) else Nothing;
    }

    method OnUpEvent(id: string, decoded: string, device: string, now: real) returns (combined: Option<Combined>)
      modifies this
      ensures forall emitted :: var after := Correlate(State(old(pending), emitted), now, Up(id, decoded, device));
        pending == after.pending && after.emitted == if combined.Some? then emitted + [combined.value] else emitted
    {
      if id in pending && pending[id].half.Ack? && pending[id].half.queueItemId != "" {
        var ack := pending[id].half;
        pending := pending - {id};
        return Some(Combined(id, ack.queueItemId, decoded, device));
      }
      pending := pending[id := Entry(Up(id, decoded, device), now)];
      return None;
    }

    method RunGarbageCollection(now: real)
      modifies this
      ensures pending == Collect(old(pending), now)
      ensures forall id :: id in pending <==> id in old(pending) && now - old(pending)[id].timestamp <= 10000.0
      ensures forall id :: id in pending ==> pending[id] == old(pending)[id]
    {
      var rest := pending.Keys;
      while rest != {}
        invariant rest <= old(pending).Keys
        invariant forall id :: id in pending <==> id in old(pending) && (id in rest || !IsStale(old(pending)[id], now))
        invariant forall id :: id in pending ==> pending[id] == old(pending)[id]
        decreases |rest|
      {
        var id :| id in rest;
        rest := rest - {id};
        if IsStale(pending[id], now) {
          pending := pending - {id};
        }
      }
    }
  }
}
