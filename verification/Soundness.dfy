/**
 * What handlers acting on current snapshots keep at every atomic step, and therefore at every point a crash may
 * interrupt them: the external-id index, the concurrency slots, the send budget, and no silent loss.
 */
module Soundness {
  import opened Domain
  import opened Stages
  import opened StoreSpec
  import opened World
  import opened Handlers
  import opened OnePlace
  import QueueKeys

  /** Handed to the network server and not yet resolved or in retry. */
  predicate InFlight(status: Status) {
    status in {SentToNs, DeliveredToNs, SentToDevice}
  }

  function SlotOf(c: Config, b: Body, status: Status): Option<string> {
    var limit := LimitFor(c, b.readyKey);
    if InFlight(status) && limit.Some? then Some(limit.value.key) else None
  }

  ghost predicate NoneFinal(history: seq<Failure>) {
    forall i :: 0 <= i < |history| ==> !history[i].isFinal
  }

  /** The fields of one live message, against its status. */
  ghost predicate SoundFields(c: Config, w: World, m: MessageId)
    requires m in w.store.hashes
  {
    var h := w.store.hashes[m];
    && m in w.minted && h.body == Some(w.minted[m])
    && w.minted[m].plugin in c.registry
    && (h.status in {Queued, ToRetry} || InFlight(h.status))
    && (h.status == SentToDevice ==> c.registry[w.minted[m].plugin].pattern == Push)
    && h.retryCount <= c.delivery.maxRetries
    && |h.history| == h.retryCount && NoneFinal(h.history)
    && Picks(w, m) == h.retryCount + (if InFlight(h.status) then 1 else 0)
    && (h.externalId.Some? <==> h.status in {DeliveredToNs, SentToDevice})
    && h.slot == SlotOf(c, w.minted[m], h.status)
  }

  /** What the indexes and sets say about one live message. */
  ghost predicate SoundReferences(w: World, m: MessageId)
    requires m in w.store.hashes && m in w.minted
  {
    var h := w.store.hashes[m];
    && (h.externalId.Some? ==> h.externalId.value in w.store.ext && w.store.ext[h.externalId.value] == m)
    && (h.slot.Some? ==> m in Occupants(w.store, h.slot.value))
    && (w.minted[m].correlation.Some? ==>
          w.minted[m].correlation.value in w.store.corr && w.store.corr[w.minted[m].correlation.value] == m)
  }

  predicate IsTerminal(n: Note) {
    n.SuccessNote? || n.FailedNote?
  }

  ghost predicate HasTerminal(log: seq<Note>) {
    exists i :: 0 <= i < |log| && IsTerminal(log[i])
  }

  /** What stays true of an id for ever: its send budget, and that nothing was dropped without a word. */
  ghost predicate SoundRecord(c: Config, w: World, m: MessageId) {
    && Sends(w, m) <= Picks(w, m) <= c.delivery.maxRetries + 1
    && (m !in w.minted ==> Picks(w, m) == 0)
    && (m in w.purged ==> m in w.cancelled || HasTerminal(Log(w, m)))
  }

  ghost predicate SoundMessage(c: Config, w: World, m: MessageId) {
    && SoundRecord(c, w, m)
    && (m in w.store.hashes ==> SoundFields(c, w, m) && SoundReferences(w, m))
  }

  ghost predicate ExtSound(w: World) {
    forall d :: d in w.store.ext ==>
      w.store.ext[d] in w.minted
      && (w.store.ext[d] in w.store.hashes ==> w.store.hashes[w.store.ext[d]].externalId == Some(d))
  }

  ghost predicate CorrSound(w: World) {
    forall r :: r in w.store.corr ==>
      w.store.corr[r] in w.minted && w.minted[w.store.corr[r]].correlation == Some(r)
  }

  ghost predicate SlotsSound(w: World) {
    forall k, m :: k in w.store.slots && m in w.store.slots[k] ==>
      m in w.minted && (m in w.store.hashes ==> w.store.hashes[m].slot == Some(k))
  }

  ghost predicate SoundIndexes(w: World) {
    ExtSound(w) && CorrSound(w) && SlotsSound(w)
  }

  ghost predicate Sound(c: Config, w: World) {
    && Placed(c, w)
    && SoundIndexes(w)
    && (forall m :: SoundMessage(c, w, m))
  }

  /** A step issued on a current snapshot. */
  ghost predicate Fresh(c: Config, w: World, op: Op) {
    && Allowed(c, w, op)
    && match op
       case Insert(_, b) => UnusedCorrelation(w, b.correlation)
       case Move(m, _, _, _, _, d) => d.Some? ==> UnusedExternalId(w, m, d.value)
       case CommitRetry(m, from, retries, history, _) =>
         && m in w.store.hashes && (from, m) in w.store.zsets
         && InFlight(w.store.hashes[m].status)
         && retries == w.store.hashes[m].retryCount < c.delivery.maxRetries
         && |history| == retries + 1 && !history[0].isFinal && history[1..] == w.store.hashes[m].history
       case Purge(m, seen, cause) =>
         && m in w.store.hashes && seen == w.store.hashes[m]
         && (cause == Resolved ==> HasTerminal(Log(w, m)))
       case BeginSend(m) => Sends(w, m) < Picks(w, m)
       case _ => true
  }

  lemma InitiallySound(c: Config)
    ensures Sound(c, INITIAL_WORLD)
  {
  }

  lemma SameMessageIsSound(c: Config, a: World, b: World, x: MessageId)
    requires SoundMessage(c, a, x) && SameMessage(a, b, x)
    ensures SoundRecord(c, b, x) && (x in b.store.hashes ==> SoundFields(c, b, x))
  {
  }

  /** The steps that write the external-id index. */
  predicate WritesIndex(op: Op) {
    op.Move? || op.CommitRetry? || op.Purge? || op.ExpireIndex?
  }

  predicate WritesCorrelation(op: Op) {
    op.Insert? || op.Purge? || op.ExpireCorrelation?
  }

  predicate WritesSlots(op: Op) {
    op.FetchNext? || op.CommitRetry? || op.Purge? || op.SweepSlots?
  }

  lemma IndexUnwritten(w: World, op: Op)
    requires !WritesIndex(op)
    ensures Do(w, op).store.ext == w.store.ext
  {
  }

  lemma CorrelationUnwritten(w: World, op: Op)
    requires !WritesCorrelation(op)
    ensures Do(w, op).store.corr == w.store.corr
  {
  }

  lemma SlotsUnwritten(w: World, op: Op)
    requires !WritesSlots(op)
    ensures Do(w, op).store.slots == w.store.slots
  {
  }

  lemma ExternalIdsStaySound(w: World, op: Op)
    requires op.FetchNext? && ExtSound(w)
    ensures ExtSound(Do(w, op))
  {
    IndexUnwritten(w, op);
  }

  lemma CorrelationStaysSound(w: World, op: Op)
    requires (op.FetchNext? || op.Move?) && CorrSound(w)
    ensures CorrSound(Do(w, op))
  {
    CorrelationUnwritten(w, op);
  }

  lemma SlotsStaySound(w: World, op: Op)
    requires op.Move? && SlotsSound(w)
    ensures SlotsSound(Do(w, op))
  {
    SlotsUnwritten(w, op);
  }

  /** The entry of `x` under the external id `d`. */
  predicate Indexed(s: Store, d: ExternalId, x: MessageId) {
    d in s.ext && s.ext[d] == x
  }

  predicate Named(s: Store, r: string, x: MessageId) {
    r in s.corr && s.corr[r] == x
  }

  /** The external id that a retry or a purge unindexes is its own message's. */
  lemma UnindexingSparesOthers(w: World, op: Op, x: MessageId, d: ExternalId)
    requires (op.Purge? || op.CommitRetry?) && op.m != x && op.m in w.store.hashes
    requires op.Purge? ==> op.seen == w.store.hashes[op.m]
    requires w.store.hashes[op.m].externalId.Some? ==> Indexed(w.store, w.store.hashes[op.m].externalId.value, op.m)
    requires Indexed(w.store, d, x)
    ensures Indexed(Do(w, op).store, d, x)
  {
  }

  /** The external id that a move indexes is nobody else's. */
  lemma IndexingSparesOthers(w: World, op: Op, x: MessageId, d: ExternalId)
    requires op.Move? && op.m != x && (op.externalId.Some? ==> UnusedExternalId(w, op.m, op.externalId.value))
    requires Indexed(w.store, d, x) && x in w.store.hashes && w.store.hashes[x].externalId == Some(d)
    ensures Indexed(Do(w, op).store, d, x)
  {
  }

  /** A step about another message leaves the external-id entry of `x` alone. */
  lemma OthersKeepIndexEntry(c: Config, w: World, op: Op, x: MessageId, d: ExternalId)
    requires SoundMessage(c, w, x) && (op.Purge? || op.CommitRetry? ==> SoundMessage(c, w, op.m))
    requires Fresh(c, w, op) && !Concerns(op, x) && x in w.store.hashes && w.store.hashes[x].externalId == Some(d)
    ensures Indexed(Do(w, op).store, d, x)
  {
    if op.Purge? || op.CommitRetry? {
      UnindexingSparesOthers(w, op, x, d);
    } else if op.Move? {
      IndexingSparesOthers(w, op, x, d);
    } else if op.ExpireIndex? {
      assert op.d != d;
    } else {
      IndexUnwritten(w, op);
    }
  }

  /** The correlation id that an enqueue takes, or a purge gives up, is not another live message's. */
  lemma NamingSparesOthers(w: World, op: Op, x: MessageId, r: string)
    requires Named(w.store, r, x) && x in w.store.hashes
    requires op.Insert? || op.Purge? || op.ExpireCorrelation?
    requires op.Insert? ==> UnusedCorrelation(w, op.body.correlation)
    requires op.Purge? ==> op.seen.body.None? || op.seen.body.value.correlation != Some(r)
    requires op.ExpireCorrelation? && op.c in w.store.corr ==> w.store.corr[op.c] !in w.store.hashes
    ensures Named(Do(w, op).store, r, x)
  {
  }

  lemma OthersKeepCorrelationEntry(c: Config, w: World, op: Op, x: MessageId, r: string)
    requires Sound(c, w) && Fresh(c, w, op) && !Concerns(op, x) && x in w.store.hashes && x in w.minted
    requires w.minted[x].correlation == Some(r)
    ensures Named(Do(w, op).store, r, x)
  {
    assert SoundMessage(c, w, x);
    if !WritesCorrelation(op) {
      CorrelationUnwritten(w, op);
    } else {
      if op.Purge? {
        assert SoundMessage(c, w, op.m);
      }
      NamingSparesOthers(w, op, x, r);
    }
  }

  /** Only its own message, or a dead one, is taken out of a set. */
  lemma OthersKeepSlot(c: Config, w: World, op: Op, x: MessageId, k: string)
    requires Allowed(c, w, op) && !Concerns(op, x) && x in w.store.hashes && x in Occupants(w.store, k)
    ensures x in Occupants(Do(w, op).store, k)
  {
    if !WritesSlots(op) {
      SlotsUnwritten(w, op);
    }
  }

  lemma OthersKeepMessage(c: Config, w: World, op: Op, x: MessageId)
    requires Sound(c, w) && Fresh(c, w, op) && !Concerns(op, x)
    ensures SoundMessage(c, Do(w, op), x)
  {
    assert SoundMessage(c, w, x);
    OthersStayTheSame(w, op, x);
    SameMessageIsSound(c, w, Do(w, op), x);
    if x in w.store.hashes {
      var h := w.store.hashes[x];
      if h.externalId.Some? {
        assert op.Purge? || op.CommitRetry? ==> SoundMessage(c, w, op.m);
        OthersKeepIndexEntry(c, w, op, x, h.externalId.value);
      }
      if h.slot.Some? { OthersKeepSlot(c, w, op, x, h.slot.value); }
      if w.minted[x].correlation.Some? { OthersKeepCorrelationEntry(c, w, op, x, w.minted[x].correlation.value); }
    }
  }

  lemma InsertKeepsRecord(c: Config, w: World, op: Op)
    requires op.Insert? && SoundMessage(c, w, op.m) && PlacedMessage(c, w, op.m) && Fresh(c, w, op)
    ensures SoundRecord(c, Do(w, op), op.m)
  {
  }

  lemma InsertKeepsFields(c: Config, w: World, op: Op)
    requires op.Insert? && SoundMessage(c, w, op.m) && PlacedMessage(c, w, op.m) && Fresh(c, w, op)
    requires op.m in Do(w, op).store.hashes
    ensures SoundFields(c, Do(w, op), op.m)
  {
  }

  lemma InsertKeepsReferences(c: Config, w: World, op: Op)
    requires op.Insert? && SoundMessage(c, w, op.m) && PlacedMessage(c, w, op.m) && Fresh(c, w, op)
    requires op.m in Do(w, op).store.hashes && op.m in Do(w, op).minted
    ensures SoundReferences(Do(w, op), op.m)
  {
  }

  lemma InsertKeepsIndexes(c: Config, w: World, op: Op)
    requires Sound(c, w) && Fresh(c, w, op) && op.Insert?
    ensures SoundIndexes(Do(w, op))
  {
    assert SoundMessage(c, w, op.m) && PlacedMessage(c, w, op.m);
  }

  lemma FetchKeepsRecord(c: Config, w: World, op: Op)
    requires op.FetchNext? && SoundMessage(c, w, op.m) && PlacedMessage(c, w, op.m) && Fresh(c, w, op)
    ensures SoundRecord(c, Do(w, op), op.m)
  {
  }

  lemma FetchKeepsFields(c: Config, w: World, op: Op)
    requires op.FetchNext? && SoundMessage(c, w, op.m) && PlacedMessage(c, w, op.m) && Fresh(c, w, op)
    requires op.m in Do(w, op).store.hashes
    ensures SoundFields(c, Do(w, op), op.m)
  {
  }

  lemma FetchKeepsReferences(c: Config, w: World, op: Op)
    requires op.FetchNext? && SoundMessage(c, w, op.m) && PlacedMessage(c, w, op.m) && Fresh(c, w, op)
    requires op.m in Do(w, op).store.hashes && op.m in Do(w, op).minted
    ensures SoundReferences(Do(w, op), op.m)
  {
  }

  /** Only the fetched message joins a set, and it was in none. */
  lemma FetchKeepsSlots(w: World, op: Op)
    requires op.FetchNext? && SlotsSound(w) && op.m in w.minted
    requires op.m in w.store.hashes ==> w.store.hashes[op.m].slot.None?
    ensures SlotsSound(Do(w, op))
  {
  }

  lemma FetchKeepsIndexes(c: Config, w: World, op: Op)
    requires Sound(c, w) && Fresh(c, w, op) && op.FetchNext?
    ensures SoundIndexes(Do(w, op))
  {
    CorrelationStaysSound(w, op);
    ExternalIdsStaySound(w, op);
    assert SoundMessage(c, w, op.m) && PlacedMessage(c, w, op.m);
    FetchKeepsSlots(w, op);
  }

  lemma MoveKeepsRecord(c: Config, w: World, op: Op)
    requires op.Move? && SoundMessage(c, w, op.m) && PlacedMessage(c, w, op.m) && Fresh(c, w, op)
    ensures SoundRecord(c, Do(w, op), op.m)
  {
  }

  lemma CommittedMoveKeepsFields(c: Config, w: World, op: Op)
    requires op.Move? && SoundMessage(c, w, op.m) && PlacedMessage(c, w, op.m) && Fresh(c, w, op)
    requires MoveCommits(w.store, op.m, op.from)
    ensures op.m in Do(w, op).store.hashes && SoundFields(c, Do(w, op), op.m)
  {
  }

  lemma MoveKeepsFields(c: Config, w: World, op: Op)
    requires op.Move? && SoundMessage(c, w, op.m) && PlacedMessage(c, w, op.m) && Fresh(c, w, op)
    requires op.m in Do(w, op).store.hashes
    ensures SoundFields(c, Do(w, op), op.m)
  {
    if MoveCommits(w.store, op.m, op.from) {
      CommittedMoveKeepsFields(c, w, op);
    }
  }

  lemma MoveKeepsReferences(c: Config, w: World, op: Op)
    requires op.Move? && SoundMessage(c, w, op.m) && PlacedMessage(c, w, op.m) && Fresh(c, w, op)
    requires op.m in Do(w, op).store.hashes && op.m in Do(w, op).minted
    ensures SoundReferences(Do(w, op), op.m)
  {
  }

  lemma MoveKeepsExternalIds(c: Config, w: World, op: Op)
    requires Sound(c, w) && Fresh(c, w, op) && op.Move?
    ensures ExtSound(Do(w, op))
  {
    assert SoundMessage(c, w, op.m) && PlacedMessage(c, w, op.m);
  }

  lemma MoveKeepsIndexes(c: Config, w: World, op: Op)
    requires Sound(c, w) && Fresh(c, w, op) && op.Move?
    ensures SoundIndexes(Do(w, op))
  {
    CorrelationStaysSound(w, op);
    MoveKeepsExternalIds(c, w, op);
    SlotsStaySound(w, op);
  }

  lemma RetryKeepsRecord(c: Config, w: World, op: Op)
    requires op.CommitRetry? && SoundMessage(c, w, op.m) && PlacedMessage(c, w, op.m) && Fresh(c, w, op)
    ensures SoundRecord(c, Do(w, op), op.m)
  {
  }

  lemma RetryKeepsFields(c: Config, w: World, op: Op)
    requires op.CommitRetry? && SoundMessage(c, w, op.m) && PlacedMessage(c, w, op.m) && Fresh(c, w, op)
    requires op.m in Do(w, op).store.hashes
    ensures SoundFields(c, Do(w, op), op.m)
  {
  }

  lemma RetryKeepsReferences(c: Config, w: World, op: Op)
    requires op.CommitRetry? && SoundMessage(c, w, op.m) && PlacedMessage(c, w, op.m) && Fresh(c, w, op)
    requires op.m in Do(w, op).store.hashes && op.m in Do(w, op).minted
    ensures SoundReferences(Do(w, op), op.m)
  {
  }

  lemma RetryKeepsIndexes(c: Config, w: World, op: Op)
    requires Sound(c, w) && Fresh(c, w, op) && op.CommitRetry?
    ensures SoundIndexes(Do(w, op))
  {
    assert SoundMessage(c, w, op.m) && PlacedMessage(c, w, op.m);
  }

  lemma PurgeKeepsRecord(c: Config, w: World, op: Op)
    requires op.Purge? && SoundMessage(c, w, op.m) && PlacedMessage(c, w, op.m) && Fresh(c, w, op)
    ensures SoundRecord(c, Do(w, op), op.m)
  {
  }

  lemma PurgeKeepsIndexes(c: Config, w: World, op: Op)
    requires Sound(c, w) && Fresh(c, w, op) && op.Purge?
    ensures SoundIndexes(Do(w, op))
  {
    assert SoundMessage(c, w, op.m) && PlacedMessage(c, w, op.m);
  }

  lemma TerminalStays(log: seq<Note>, n: Note)
    ensures HasTerminal(log) || IsTerminal(n) ==> HasTerminal(log + [n])
  {
    if HasTerminal(log) {
      var i :| 0 <= i < |log| && IsTerminal(log[i]);
      assert (log + [n])[i] == log[i];
    } else {
      assert (log + [n])[|log|] == n;
    }
  }

  predicate IsQuiet(op: Op) {
    !op.Insert? && !op.FetchNext? && !op.Move? && !op.CommitRetry? && !op.Purge?
  }

  lemma QuietKeepsMessage(c: Config, w: World, op: Op, x: MessageId)
    requires SoundMessage(c, w, x) && Fresh(c, w, op) && IsQuiet(op) && Concerns(op, x)
    ensures SoundMessage(c, Do(w, op), x)
  {
    if op.Notify? {
      NoteKeepsMessage(c, w, x, op.note);
    }
  }

  lemma NoteKeepsMessage(c: Config, w: World, x: MessageId, note: Note)
    requires SoundMessage(c, w, x)
    ensures SoundMessage(c, Do(w, Notify(x, note)), x)
  {
    TerminalStays(Log(w, x), note);
  }

  lemma QuietKeepsIndexes(c: Config, w: World, op: Op)
    requires Sound(c, w) && Fresh(c, w, op) && IsQuiet(op)
    ensures SoundIndexes(Do(w, op))
  {
  }

  lemma InsertKeepsMessage(c: Config, w: World, op: Op)
    requires op.Insert? && SoundMessage(c, w, op.m) && PlacedMessage(c, w, op.m) && Fresh(c, w, op)
    ensures SoundMessage(c, Do(w, op), op.m)
  {
    InsertKeepsRecord(c, w, op);
    if op.m in Do(w, op).store.hashes {
      InsertKeepsFields(c, w, op);
      InsertKeepsReferences(c, w, op);
    }
  }

  lemma FetchKeepsMessage(c: Config, w: World, op: Op)
    requires op.FetchNext? && SoundMessage(c, w, op.m) && PlacedMessage(c, w, op.m) && Fresh(c, w, op)
    ensures SoundMessage(c, Do(w, op), op.m)
  {
    FetchKeepsRecord(c, w, op);
    if op.m in Do(w, op).store.hashes {
      FetchKeepsFields(c, w, op);
      FetchKeepsReferences(c, w, op);
    }
  }

  lemma MoveKeepsMessage(c: Config, w: World, op: Op)
    requires op.Move? && SoundMessage(c, w, op.m) && PlacedMessage(c, w, op.m) && Fresh(c, w, op)
    ensures SoundMessage(c, Do(w, op), op.m)
  {
    MoveKeepsRecord(c, w, op);
    if op.m in Do(w, op).store.hashes {
      MoveKeepsFields(c, w, op);
      MoveKeepsReferences(c, w, op);
    }
  }

  lemma RetryKeepsMessage(c: Config, w: World, op: Op)
    requires op.CommitRetry? && SoundMessage(c, w, op.m) && PlacedMessage(c, w, op.m) && Fresh(c, w, op)
    ensures SoundMessage(c, Do(w, op), op.m)
  {
    RetryKeepsRecord(c, w, op);
    if op.m in Do(w, op).store.hashes {
      RetryKeepsFields(c, w, op);
      RetryKeepsReferences(c, w, op);
    }
  }

  lemma StepKeepsOwnMessage(c: Config, w: World, op: Op)
    requires Sound(c, w) && Fresh(c, w, op) && !IsQuiet(op)
    ensures SoundMessage(c, Do(w, op), op.m)
  {
    assert SoundMessage(c, w, op.m) && PlacedMessage(c, w, op.m);
    match op
    case Insert(_, _) => InsertKeepsMessage(c, w, op);
    case FetchNext(_, _, _, _) => FetchKeepsMessage(c, w, op);
    case Move(_, _, _, _, _, _) => MoveKeepsMessage(c, w, op);
    case CommitRetry(_, _, _, _, _) => RetryKeepsMessage(c, w, op);
    case Purge(_, _, _) => PurgeKeepsRecord(c, w, op);
  }

  lemma StepKeepsIndexes(c: Config, w: World, op: Op)
    requires Sound(c, w) && Fresh(c, w, op)
    ensures SoundIndexes(Do(w, op))
  {
    match op
    case Insert(_, _) => InsertKeepsIndexes(c, w, op);
    case FetchNext(_, _, _, _) => FetchKeepsIndexes(c, w, op);
    case Move(_, _, _, _, _, _) => MoveKeepsIndexes(c, w, op);
    case CommitRetry(_, _, _, _, _) => RetryKeepsIndexes(c, w, op);
    case Purge(_, _, _) => PurgeKeepsIndexes(c, w, op);
    case _ => QuietKeepsIndexes(c, w, op);
  }

  lemma StepKeepsSoundMessage(c: Config, w: World, op: Op, x: MessageId)
    requires Sound(c, w) && Fresh(c, w, op)
    ensures SoundMessage(c, Do(w, op), x)
  {
    assert SoundMessage(c, w, x);
    if !Concerns(op, x) {
      OthersKeepMessage(c, w, op, x);
    } else if IsQuiet(op) {
      QuietKeepsMessage(c, w, op, x);
    } else {
      StepKeepsOwnMessage(c, w, op);
    }
  }

  lemma StepKeepsSound(c: Config, w: World, op: Op)
    requires Sound(c, w) && Fresh(c, w, op)
    ensures Sound(c, Do(w, op))
  {
    StepKeepsIndexes(c, w, op);
    forall x ensures PlacedMessage(c, Do(w, op), x) && SoundMessage(c, Do(w, op), x) {
      assert PlacedMessage(c, w, x);
      StepKeepsPlaced(c, w, op, x);
      StepKeepsSoundMessage(c, w, op, x);
    }
  }
}
