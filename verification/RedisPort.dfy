/** The Redis ports of the engine: message hashes, stage queues and admission sets, updated in place. */
module RedisPort {
  import opened Domain
  import opened StoreSpec
  import opened Starvation

  /** Loading a message: its hash is missing, cannot be read back for want of a device, or is loaded. */
  datatype Load = Absent | Broken | Loaded(hash: Hash)

  /** What a load answers. */
  function LoadOf(s: Store, m: MessageId): Load {
    if m !in s.hashes then Load.Absent
    else if s.hashes[m].body.None? then Broken
    else Loaded(s.hashes[m])
  }

  const PHASES := ["", "_phA", "_phB", "_phC"]

  /** The messages the index entries of a correlation id and its phases name, in that order. */
  function NamedBy(s: Store, correlationId: string, phases: seq<string>): seq<MessageId> {
    if phases == [] then []
    else
      var key := correlationId + phases[0];
      var rest := NamedBy(s, correlationId, phases[1..]);
      if key in s.corr && s.corr[key] in s.hashes then [s.corr[key]] + rest else rest
  }

  predicate NamedUnder(s: Store, key: string, m: MessageId) {
    key in s.corr && s.corr[key] == m
  }

  /** The messages of a correlation id: those live ones its own entry or a phase's entry names. */
  lemma NamedByPhases(s: Store, id: string, m: MessageId)
    ensures m in NamedBy(s, id, PHASES) <==>
      && m in s.hashes
      && (NamedUnder(s, id, m) || NamedUnder(s, id + "_phA", m) || NamedUnder(s, id + "_phB", m)
          || NamedUnder(s, id + "_phC", m))
  {
    NamedByOneMore(s, id, PHASES, m);
    NamedByOneMore(s, id, ["_phA", "_phB", "_phC"], m);
    NamedByOneMore(s, id, ["_phB", "_phC"], m);
    NamedByOneMore(s, id, ["_phC"], m);
    assert PHASES[1..] == ["_phA", "_phB", "_phC"] && PHASES[1..][1..] == ["_phB", "_phC"];
    assert id + "" == id;
  }

  lemma NamedByOneMore(s: Store, id: string, phases: seq<string>, m: MessageId)
    requires phases != []
    ensures m in NamedBy(s, id, phases) <==>
      (m in s.hashes && NamedUnder(s, id + phases[0], m)) || m in NamedBy(s, id, phases[1..])
  {
  }

  class RedisStore {
    var hashes: map<MessageId, Hash>
    var zsets: map<(QueueKey, MessageId), real>
    var ready: set<string>
    var ext: map<ExternalId, MessageId>
    var corr: map<string, MessageId>
    var slots: map<string, set<MessageId>>
    /** Spacing locks: when each expires. */
    var locks: map<string, real>

    function State(): Store
      reads this
    {
      Store(hashes, zsets, ready, ext, corr, slots)
    }

    constructor ()
      ensures State() == EMPTY_STORE && locks == map[]
    {
      hashes, zsets, ready, ext, corr, slots, locks := map[], map[], {}, map[], map[], map[], map[];
    }

    method EnqueueDeviceMessage(m: MessageId, b: Body)
      modifies this
      ensures State() == InsertMessage(old(State()), m, b) && locks == old(locks)
    {
      hashes := hashes[m := Hash(Some(b), Queued, 0, None, None, [])];
      zsets := zsets[(ReadyQ(b.readyKey), m) := -b.priority];
      ready := ready + {b.readyKey};
      if b.correlation.Some? {
        corr := corr[b.correlation.value := m];
      }
    }

    method GetMessageById(m: MessageId) returns (load: Load)
      ensures load == LoadOf(State(), m)
    {
      if m !in hashes {
        load := Load.Absent;
      } else if hashes[m].body.None? {
        load := Broken;
      } else {
        load := Loaded(hashes[m]);
      }
    }

    /** Only live messages are returned; a dangling index entry names none. */
    method GetAllMessagesForCorrelationId(correlationId: string) returns (ids: seq<MessageId>)
      ensures ids == NamedBy(State(), correlationId, PHASES)
    {
      ids := [];
      var i := |PHASES|;
      while i > 0
        invariant 0 <= i <= |PHASES|
        invariant ids == NamedBy(State(), correlationId, PHASES[i..])
      {
        i := i - 1;
        var key := correlationId + PHASES[i];
        assert PHASES[i..][0] == PHASES[i] && PHASES[i..][1..] == PHASES[i + 1..];
        if key in corr && corr[key] in hashes {
          ids := [corr[key]] + ids;
        }
      }
      assert PHASES[0..] == PHASES;
    }

    /** The lowest member of a sorted set, found by comparing every member. */
    method FindHead(q: QueueKey) returns (head: Option<MessageId>)
      ensures head.Some? ==> IsHead(State(), q, head.value)
      ensures head.None? ==> NoMembers(State(), q)
    {
      head := None;
      var rest := zsets.Keys;
      while rest != {}
        invariant rest <= zsets.Keys
        invariant head.Some? ==> (q, head.value) in zsets && (q, head.value) !in rest
        invariant head.Some? ==> forall x :: (q, x) in zsets && (q, x) !in rest && x != head.value ==>
                                   Before(State(), q, head.value, x)
        invariant head.None? ==> forall x :: (q, x) in zsets ==> (q, x) in rest
        decreases rest
      {
        var k :| k in rest;
        rest := rest - {k};
        if k.0 == q {
          if head.None? {
            head := Some(k.1);
          } else if Before(State(), q, k.1, head.value) {
            head := Some(k.1);
          } else {
            BeforeIsTotal(State(), q, head.value, k.1);
          }
        }
      }
    }

    /** The pick script: refuse at the cap, pop the head, unlist an emptied queue, skip an orphan, claim the rest. */
    method FetchNextMessageInQueueAndMove(key: string, dueAt: real, limit: Option<Limit>)
      returns (popped: Option<MessageId>, picked: Option<Hash>)
      modifies this
      ensures locks == old(locks)
      ensures AtCap(old(State()), limit) ==> State() == old(State()) && popped.None? && picked.None?
      ensures !AtCap(old(State()), limit) && popped.None? ==>
        NoMembers(old(State()), ReadyQ(key)) && State() == old(State()).(ready := old(ready) - {key}) && picked.None?
      ensures popped.Some? ==> !AtCap(old(State()), limit) && IsHead(old(State()), ReadyQ(key), popped.value)
      ensures popped.Some? ==> State() == FetchHead(old(State()), key, popped.value, dueAt, limit)
      ensures popped.Some? && popped.value in old(hashes) ==>
        popped.value in hashes && picked == Some(hashes[popped.value])
      ensures popped.Some? && popped.value !in old(hashes) ==> picked.None?
    {
      popped, picked := None, None;
      if limit.Some? && limit.value.max > 0 && |Occupants(State(), limit.value.key)| >= limit.value.max {
        return;
      }
      popped := FindHead(ReadyQ(key));
      if popped.None? {
        ready := ready - {key};
        return;
      }
      var m := popped.value;
      zsets := Withdraw(zsets, ReadyQ(key), m);
      var successor := FindHead(ReadyQ(key));
      if successor.None? {
        ready := ready - {key};
      }
      if m in hashes {
        zsets := zsets[(NsQ, m) := dueAt];
        ClaimHash(m, limit);
        picked := Some(hashes[m]);
      }
    }

    /** Status, and the concurrency slot when the plugin has a cap. */
    method ClaimHash(m: MessageId, limit: Option<Limit>)
      requires m in hashes
      modifies this`hashes, this`slots
      ensures var h := old(hashes)[m].(status := SentToNs);
        hashes == old(hashes)[m := if limit.Some? then h.(slot := Some(limit.value.key)) else h]
      ensures slots ==
        if limit.None? then old(slots)
        else old(slots)[limit.value.key := Occupants(old(State()), limit.value.key) + {m}]
    {
      var h := hashes[m].(status := SentToNs);
      if limit.Some? {
        slots := slots[limit.value.key := Occupants(State(), limit.value.key) + {m}];
        h := h.(slot := Some(limit.value.key));
      }
      hashes := hashes[m := h];
    }

    /** The move script. */
    method MoveMessageBetweenQueues(m: MessageId, from: QueueKey, to: QueueKey, score: real, status: Status,
                                    externalId: Option<ExternalId>) returns (moved: bool)
      modifies this
      ensures State() == MoveBetween(old(State()), m, from, to, score, status, externalId) && locks == old(locks)
      ensures moved == MoveCommits(old(State()), m, from)
    {
      moved := false;
      ghost var before := State();
      if (from, m) !in zsets {
        return;
      }
      zsets := Withdraw(zsets, from, m);
      if m !in hashes {
        return;
      }
      zsets := zsets[(to, m) := score];
      var h := hashes[m].(status := status);
      if externalId.Some? {
        h := h.(externalId := externalId);
        ext := ext[externalId.value := m];
      }
      hashes := hashes[m := h];
      moved := true;
      ghost var spec := MoveBetween(before, m, from, to, score, status, externalId);
      assert spec.hashes == hashes;
      assert spec == Store(spec.hashes, spec.zsets, spec.ready, spec.ext, spec.corr, spec.slots);
    }

    /** The range query of a drain: repeatedly the lowest due member not yet taken, at most a batch of them. */
    method GetExpiredMessagesInQueue(q: QueueKey, cutoff: real) returns (ids: seq<MessageId>)
      ensures IsDueBatch(State(), q, cutoff, ids)
    {
      ids := [];
      ghost var s := State();
      var done := false;
      while |ids| < BATCH_SIZE && !done
        invariant |ids| <= BATCH_SIZE
        invariant forall i, j :: 0 <= i < j < |ids| ==> ids[i] != ids[j]
        invariant forall x :: x in ids ==> (q, x) in s.zsets && s.zsets[(q, x)] <= cutoff
        invariant forall i, j :: 0 <= i < j < |ids| ==> Before(s, q, ids[i], ids[j])
        invariant forall x :: (q, x) in s.zsets && x !in ids ==> forall y :: y in ids ==> Before(s, q, y, x)
        invariant done ==> forall x :: (q, x) in s.zsets && x !in ids ==> s.zsets[(q, x)] > cutoff
        decreases !done, BATCH_SIZE - |ids|
      {
        var next := FindHeadOutside(q, ids);
        if next.None? || zsets[(q, next.value)] > cutoff {
          done := true;
        } else {
          ids := ids + [next.value];
        }
      }
    }

    /** The lowest member of `q` that is not among `taken`. */
    method FindHeadOutside(q: QueueKey, taken: seq<MessageId>) returns (head: Option<MessageId>)
      ensures head.None? ==> forall x :: (q, x) in zsets ==> x in taken
      ensures head.Some? ==> (q, head.value) in zsets && head.value !in taken
      ensures head.Some? ==> forall x :: (q, x) in zsets && x !in taken && x != head.value ==>
                               Before(State(), q, head.value, x)
    {
      head := None;
      var rest := zsets.Keys;
      while rest != {}
        invariant rest <= zsets.Keys
        invariant head.Some? ==> (q, head.value) in zsets && (q, head.value) !in rest && head.value !in taken
        invariant head.Some? ==> forall x :: (q, x) in zsets && (q, x) !in rest && x !in taken && x != head.value ==>
                                   Before(State(), q, head.value, x)
        invariant head.None? ==> forall x :: (q, x) in zsets && x !in taken ==> (q, x) in rest
        decreases rest
      {
        var k :| k in rest;
        rest := rest - {k};
        if k.0 == q && k.1 !in taken {
          if head.None? {
            head := Some(k.1);
          } else if Before(State(), q, k.1, head.value) {
            head := Some(k.1);
          } else {
            BeforeIsTotal(State(), q, head.value, k.1);
          }
        }
      }
    }

    method RemoveMessageFromQueue(m: MessageId, q: QueueKey) returns (removed: bool)
      modifies this
      ensures State() == RemoveFromQueue(old(State()), m, q) && locks == old(locks)
      ensures removed == ((q, m) in old(zsets))
    {
      removed := (q, m) in zsets;
      zsets := Withdraw(zsets, q, m);
    }

    /** Retry queue back to a ready queue; only a committed move lists the queue for distribution. */
    method RequeueMessage(m: MessageId, from: QueueKey, key: string, priority: real) returns (moved: bool)
      modifies this
      ensures moved == MoveCommits(old(State()), m, from) && locks == old(locks)
      ensures var s := MoveBetween(old(State()), m, from, ReadyQ(key), -priority, Queued, None);
        State() == if moved then s.(ready := s.ready + {key}) else s
    {
      moved := MoveMessageBetweenQueues(m, from, ReadyQ(key), -priority, Queued, None);
      if moved {
        ready := ready + {key};
      }
    }

    /** Delete a message and every reference the snapshot and the given queues name, queue by queue. */
    method MessageFullCleanup(m: MessageId, seen: Hash, correlation: Option<string>, keys: seq<QueueKey>)
      modifies this
      ensures State() == FullCleanup(old(State()), m, seen, correlation, set q | q in keys) && locks == old(locks)
    {
      hashes := hashes - {m};
      RemoveFromQueues(m, keys);
      slots := ReleaseSlot(slots, seen.slot, m);
      ext := DropIndex(ext, seen.externalId);
      if correlation.Some? {
        corr := corr - {correlation.value};
      }
    }

    method RemoveFromQueues(m: MessageId, keys: seq<QueueKey>)
      modifies this`zsets
      ensures zsets == SweepQueues(old(zsets), m, set q | q in keys)
    {
      for i := 0 to |keys|
        invariant forall k :: k in zsets <==> k in old(zsets) && !(k.1 == m && k.0 in keys[..i])
        invariant forall k :: k in zsets ==> zsets[k] == old(zsets)[k]
      {
        zsets := Withdraw(zsets, keys[i], m);
      }
      assert keys[..|keys|] == keys;
    }

    /** The compound write that enters retry, from the values read before it. */
    method WriteRetryEntry(m: MessageId, from: QueueKey, retries: nat, history: seq<Failure>, dueAt: real,
                           externalId: Option<ExternalId>, slot: Option<string>)
      modifies this
      ensures State() == WriteRetry(old(State()), m, from, retries, history, dueAt, externalId, slot)
        && locks == old(locks)
    {
      var h := if m in hashes then hashes[m] else BLANK_HASH;
      h := h.(status := ToRetry, retryCount := retries + 1, history := history, externalId := None);
      zsets := Withdraw(zsets, from, m)[(RetryQ, m) := dueAt];
      if externalId.Some? {
        ext := ext - {externalId.value};
      }
      if slot.Some? {
        h := h.(slot := None);
        if slot.value in slots {
          slots := slots[slot.value := slots[slot.value] - {m}];
        }
      }
      hashes := hashes[m := h];
    }

    /** Rescore a member only if it is still there. */
    method ZaddXx(m: MessageId, q: QueueKey, score: real)
      modifies this
      ensures State() == Reschedule(old(State()), m, q, score) && locks == old(locks)
    {
      if (q, m) in zsets {
        zsets := zsets[(q, m) := score];
      }
    }

    /** Drop the members of a concurrency set whose hash is gone; the number left. */
    method ValidateAndCleanConcurrencyRateLimit(key: string) returns (live: nat)
      modifies this
      ensures State() == SweepDead(old(State()), key, set x | x in Occupants(old(State()), key) && x !in old(hashes))
      ensures live == |Occupants(State(), key)| && locks == old(locks)
    {
      var members := Occupants(State(), key);
      var rest, dead := members, {};
      while rest != {}
        invariant rest <= members
        invariant dead == set x | x in members && x !in rest && x !in hashes
        invariant slots == old(slots)
        decreases rest
      {
        var x :| x in rest;
        rest := rest - {x};
        if x !in hashes {
          dead := dead + {x};
        }
      }
      assert dead == set x | x in Occupants(old(State()), key) && x !in old(hashes);
      if key in slots {
        slots := slots[key := slots[key] - dead];
      }
      live := |Occupants(State(), key)|;
    }

    /** A lock that is not taken, or has expired, is acquired for `duration`. */
    method LockQueueForTime(key: string, now: real, duration: real) returns (acquired: bool)
      modifies this
      ensures State() == old(State())
      ensures acquired <==> key !in old(locks) || old(locks)[key] <= now
      ensures locks == if acquired then old(locks)[key := now + duration] else old(locks)
    {
      acquired := key !in locks || locks[key] <= now;
      if acquired {
        locks := locks[key := now + duration];
      }
    }
  }
}
