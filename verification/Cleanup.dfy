/** Cleanup completeness: a resolved, failed or cancelled message leaves nothing behind, and nothing else changes. */
module Cleanup {
  import opened Domain
  import opened Stages
  import opened StoreSpec
  import opened World
  import opened Handlers
  import opened OnePlace
  import opened Soundness
  import opened Runs
  import QueueKeys

  lemma ErasedIsAbsent(s: Store, m: MessageId)
    ensures Absent(EraseMessage(s, m), m)
  {
  }

  /** The derived sweep list covers every queue the message can occupy. */
  lemma SweepCoversQueues(c: Config, w: World, m: MessageId, seen: Hash)
    requires Placed(c, w) && m in w.minted && seen.body == Some(w.minted[m])
    ensures PurgeMessage(w.store, m, seen).zsets == EraseMessage(w.store, m).zsets
  {
    assert PlacedMessage(c, w, m);
    assert forall k :: k in w.store.zsets && k.1 == m ==> (k.0, m) in w.store.zsets && k.0 in PurgeKeys(w.minted[m]);
  }

  /** Whether dropping the external id a snapshot carries drops what the live hash carries. */
  predicate SeesIndex(s: Store, h: Hash, seen: Hash) {
    seen.externalId == h.externalId || (h.externalId.None? && seen.externalId.value !in s.ext)
  }

  predicate SeesSlot(h: Hash, seen: Hash) {
    h.slot.Some? ==> seen.slot == h.slot
  }

  lemma IndexDropIsExact(c: Config, w: World, m: MessageId, seen: Hash)
    requires Sound(c, w) && m in w.store.hashes
    ensures DropIndex(w.store.ext, seen.externalId) == EraseMessage(w.store, m).ext
      <==> SeesIndex(w.store, w.store.hashes[m], seen)
  {
    assert SoundMessage(c, w, m);
    var h := w.store.hashes[m];
    var dropped := DropIndex(w.store.ext, seen.externalId);
    var erased := EraseMessage(w.store, m).ext;
    if h.externalId.Some? {
      assert h.externalId.value in w.store.ext && h.externalId.value !in erased;
    }
    if SeesIndex(w.store, h, seen) {
      forall d ensures d in dropped <==> d in erased {}
    } else if seen.externalId.Some? && h.externalId.None? {
      assert seen.externalId.value in erased;
    }
  }

  lemma SlotReleaseIsExact(c: Config, w: World, m: MessageId, seen: Hash)
    requires Sound(c, w) && m in w.store.hashes
    ensures ReleaseSlot(w.store.slots, seen.slot, m) == EraseMessage(w.store, m).slots
      <==> SeesSlot(w.store.hashes[m], seen)
  {
    assert SoundMessage(c, w, m);
    var h := w.store.hashes[m];
    var released := ReleaseSlot(w.store.slots, seen.slot, m);
    var erased := EraseMessage(w.store, m).slots;
    if SeesSlot(h, seen) {
      forall k | k in w.store.slots ensures released[k] == erased[k] {}
    } else {
      assert m in w.store.slots[h.slot.value] && m in released[h.slot.value] && m !in erased[h.slot.value];
    }
  }

  lemma CorrelationDropIsExact(c: Config, w: World, m: MessageId)
    requires Sound(c, w) && m in w.store.hashes
    ensures m in w.minted && var r := w.minted[m].correlation;
      (if r.Some? then w.store.corr - {r.value} else w.store.corr) == EraseMessage(w.store, m).corr
  {
    assert SoundMessage(c, w, m);
  }

  /**
   * A purge from a snapshot is complete, and touches nothing else, exactly when the snapshot still shows the external
   * id and the slot the live hash carries.
   */
  lemma PurgeIsCompleteIff(c: Config, w: World, m: MessageId, seen: Hash)
    requires Sound(c, w) && m in w.store.hashes && m in w.minted && seen.body == Some(w.minted[m])
    ensures PurgeMessage(w.store, m, seen) == EraseMessage(w.store, m)
      <==> SeesIndex(w.store, w.store.hashes[m], seen) && SeesSlot(w.store.hashes[m], seen)
  {
    SweepCoversQueues(c, w, m, seen);
    IndexDropIsExact(c, w, m, seen);
    SlotReleaseIsExact(c, w, m, seen);
    CorrelationDropIsExact(c, w, m);
    var purged := PurgeMessage(w.store, m, seen);
    var erased := EraseMessage(w.store, m);
    assert purged == Store(purged.hashes, purged.zsets, purged.ready, purged.ext, purged.corr, purged.slots);
    assert erased == Store(erased.hashes, erased.zsets, erased.ready, erased.ext, erased.corr, erased.slots);
  }

  lemma CurrentPurgeErases(c: Config, w: World, m: MessageId)
    requires Sound(c, w) && m in w.store.hashes
    ensures w.store.hashes[m].body.Some?
    ensures PurgeMessage(w.store, m, w.store.hashes[m]) == EraseMessage(w.store, m)
  {
    assert SoundMessage(c, w, m);
    PurgeIsCompleteIff(c, w, m, w.store.hashes[m]);
  }

  /** A script that purges `m` and does nothing else to the store. */
  ghost predicate ErasesOnly(w: World, ops: seq<Op>, m: MessageId) {
    Run(w, ops).store == EraseMessage(w.store, m) && Run(w, ops).purged == w.purged + {m}
  }

  ghost predicate PurgesNothing(w: World, ops: seq<Op>) {
    Run(w, ops).purged == w.purged
  }

  lemma {:induction false} NoPurgeInScript(w: World, ops: seq<Op>)
    requires forall i :: 0 <= i < |ops| ==> !ops[i].Purge?
    ensures PurgesNothing(w, ops)
    decreases |ops|
  {
    if ops != [] {
      NoPurgeInScript(Do(w, ops[0]), ops[1..]);
    }
  }

  lemma ResolveErases(c: Config, w: World, m: MessageId, note: Note)
    requires Sound(c, w) && m in w.store.hashes
    ensures ErasesOnly(w, [Notify(m, note), Purge(m, w.store.hashes[m], Resolved)], m)
  {
    RunTwo(w, Notify(m, note), Purge(m, w.store.hashes[m], Resolved));
    CurrentPurgeErases(c, w, m);
  }

  lemma CancelErases(c: Config, w: World, m: MessageId, q: QueueKey)
    requires Sound(c, w) && m in w.store.hashes
    ensures ErasesOnly(w, [Unlist(m, q), Purge(m, w.store.hashes[m], Cancelled)], m)
  {
    CurrentPurgeErases(c, w, m);
    var h := w.store.hashes[m];
    RunTwo(w, Unlist(m, q), Purge(m, h, Cancelled));
    var claimed := RemoveFromQueue(w.store, m, q);
    assert PlacedMessage(c, w, m) && SoundMessage(c, w, m);
    assert PurgeMessage(claimed, m, h).zsets == PurgeMessage(w.store, m, h).zsets by {
      assert forall k :: k in claimed.zsets && !(k.1 == m && k.0 in PurgeKeys(h.body.value)) <==>
        k in w.store.zsets && !(k.1 == m && k.0 in PurgeKeys(h.body.value));
    }
  }

  ghost predicate CleanOrNothing(w: World, ops: seq<Op>) {
    PurgesNothing(w, ops) || exists m :: ErasesOnly(w, ops, m)
  }

  lemma RetryOrFailIsClean(c: Config, w: World, m: MessageId, from: QueueKey, context: FailureContext, jitter: real)
    requires Sound(c, w)
    ensures CleanOrNothing(w, RetryOrFail(c, w, m, from, context, jitter).ops)
  {
    var ops := RetryOrFail(c, w, m, from, context, jitter).ops;
    if |ops| == 2 {
      ResolveErases(c, w, m, ops[0].note);
      assert ErasesOnly(w, ops, m);
    } else {
      NoPurgeInScript(w, ops);
    }
  }

  lemma ProcessEventIsClean(c: Config, w: World, p: Plugin, e: IncomingEvent, jitter: real)
    requires Sound(c, w)
    ensures CleanOrNothing(w, ProcessEvent(c, w, p, e, jitter).ops)
  {
    var ops := ProcessEvent(c, w, p, e, jitter).ops;
    if |ops| == 2 {
      var m := w.store.ext[e.externalId.value];
      assert ops[0].Notify? && ops[0].m == m && ops[1] == Purge(m, w.store.hashes[m], Resolved);
      ResolveErases(c, w, m, ops[0].note);
      assert ErasesOnly(w, ops, m);
    } else {
      NoPurgeInScript(w, ops);
    }
  }

  lemma StageActionIsClean(c: Config, w: World, q: QueueKey, m: MessageId, now: real, reply: Reply, jitter: real)
    requires Sound(c, w) && IsStageQueue(q)
    requires m in w.store.hashes && w.store.hashes[m].body.Some? && w.store.hashes[m].body.value.plugin in c.registry
    ensures CleanOrNothing(w, StageAction(c, w, q, m, now, reply, jitter).ops)
  {
    var action := StageAction(c, w, q, m, now, reply, jitter);
    match StageOf(q)
    case Ns => RetryOrFailIsClean(c, w, m, NsQ, FailureContext(NS_TIMEOUT, false), jitter);
      NoPurgeInScript(w, []);
    case RelayNode => RetryOrFailIsClean(c, w, m, q, FailureContext(RELAY_TIMEOUT, false), jitter);
      NoPurgeInScript(w, []);
    case Device => RetryOrFailIsClean(c, w, m, q, FailureContext(DEVICE_TIMEOUT, false), jitter);
    case AwaitingTask =>
      if now - m.time >= PULL_MAX_MESSAGE_AGE {
        ResolveErases(c, w, m, action.ops[0].note);
        assert ErasesOnly(w, action.ops, m);
      } else {
        NoPurgeInScript(w, []);
        if reply.Reported? {
          ProcessEventIsClean(c, w, c.registry[w.store.hashes[m].body.value.plugin], reply.event, jitter);
        }
      }
    case Retry => NoPurgeInScript(w, action.ops);
  }

  /** Steps that neither purge nor touch what an erased store still holds of anyone. */
  lemma CleanThenEndSend(w: World, ops: seq<Op>, m: MessageId)
    requires CleanOrNothing(w, ops)
    ensures CleanOrNothing(w, ops + [EndSend(m)])
  {
    RunAppend(w, ops, [EndSend(m)]);
    RunOne(Run(w, ops), EndSend(m));
    if !PurgesNothing(w, ops) {
      var x :| ErasesOnly(w, ops, x);
      assert ErasesOnly(w, ops + [EndSend(m)], x);
    }
  }

  lemma OwedAfterNoPurge(c: Config, w: World, q: QueueKey, m: MessageId, now: real, reply: Reply, jitter: real)
    requires IsStageQueue(q)
    requires m in w.store.hashes && w.store.hashes[m].body.Some? && w.store.hashes[m].body.value.plugin in c.registry
    requires var result := StageAction(c, w, q, m, now, reply, jitter).result;
      result.Throws? || result.outcome != Removed
    ensures var ops := StageAction(c, w, q, m, now, reply, jitter).ops;
      forall i :: 0 <= i < |ops| ==> !ops[i].Purge?
  {
  }

  lemma VisitIsClean(c: Config, w: World, q: QueueKey, m: MessageId, now: real, reply: Reply, jitter: real)
    requires Sound(c, w) && IsStageQueue(q)
    ensures CleanOrNothing(w, Visit(c, w, q, m, now, reply, jitter))
  {
    var ops := Visit(c, w, q, m, now, reply, jitter);
    if m !in w.store.hashes || w.store.hashes[m].body.None? || w.store.hashes[m].body.value.plugin !in c.registry {
      NoPurgeInScript(w, ops);
    } else {
      var action := StageAction(c, w, q, m, now, reply, jitter);
      if action.result == Reports(Removed) {
        StageActionIsClean(c, w, q, m, now, reply, jitter);
        assert ops == action.ops;
      } else {
        OwedAfterNoPurge(c, w, q, m, now, reply, jitter);
        NoPurgeInScript(w, ops);
      }
    }
  }

  lemma SettleIsClean(c: Config, w: World, m: MessageId, p: Plugin, sent: SendResult, jitter: real)
    requires Sound(c, w)
    ensures CleanOrNothing(w, Settle(c, w, m, p, sent, jitter))
  {
    match sent
    case Accepted(d) => NoPurgeInScript(w, Settle(c, w, m, p, sent, jitter));
    case NoExternalId =>
      var context := FailureContext(EMPTY_EXTERNAL_ID, true);
      RetryOrFailIsClean(c, w, m, NsQ, context, jitter);
      CleanThenEndSend(w, RetryOrFail(c, w, m, NsQ, context, jitter).ops, m);
    case SendThrew(context) =>
      RetryOrFailIsClean(c, w, m, NsQ, context, jitter);
      CleanThenEndSend(w, RetryOrFail(c, w, m, NsQ, context, jitter).ops, m);
  }

  lemma CancelIsClean(c: Config, w: World, m: MessageId)
    requires Sound(c, w)
    ensures CleanOrNothing(w, Cancel(c, w, m))
  {
    var ops := Cancel(c, w, m);
    if |ops| == 2 {
      CancelErases(c, w, m, ops[0].q);
      assert ErasesOnly(w, ops, m);
    } else {
      NoPurgeInScript(w, ops);
    }
  }

  lemma ScriptIsClean(c: Config, w: World, h: Handler)
    requires Sound(c, w) && Enabled(c, w, h)
    ensures CleanOrNothing(w, Script(c, w, h))
  {
    match h
    case EnqueueOne(m, b) => NoPurgeInScript(w, Script(c, w, h));
    case DistributeQueue(key, head, unlocked) => NoPurgeInScript(w, Script(c, w, h));
    case SendSettles(m, sent, jitter) =>
      if m in w.minted && w.minted[m].plugin in c.registry {
        SettleIsClean(c, w, m, c.registry[w.minted[m].plugin], sent, jitter);
      } else {
        NoPurgeInScript(w, []);
      }
    case Attend(q, m, now, reply, jitter) => VisitIsClean(c, w, q, m, now, reply, jitter);
    case Ingress(p, e, jitter) => ProcessEventIsClean(c, w, c.registry[p], e, jitter);
    case CancelOne(m) => CancelIsClean(c, w, m);
    case Environment(op) => NoPurgeInScript(w, [op]);
  }

  /**
   * Cleanup completeness with its frame: whichever handler resolves, fails, ages out or cancels a message, no hash,
   * queue, slot or index names it afterwards, and every entry of every other message is as it was.
   */
  lemma PurgedMessageIsErased(c: Config, w: World, h: Handler, m: MessageId)
    requires RunReaches(c, w) && Enabled(c, w, h)
    requires m in After(c, w, Completes(h)).purged && m !in w.purged
    ensures var after := After(c, w, Completes(h)).store;
      after == EraseMessage(w.store, m) && Absent(after, m)
  {
    RunsAreSound(c, w);
    ScriptIsClean(c, w, h);
    var x :| ErasesOnly(w, Script(c, w, h), x);
    assert x == m;
    ErasedIsAbsent(w.store, m);
  }
}
