/** The vendor calls this process still awaits: one registration per message, the latest one. */
module Registry {
  import opened Domain

  class InFlightSends {
    /** For each message, the promise tracked last, while it has not settled. */
    var sends: map<MessageId, nat>
    var nextPromise: nat
    /** Which message each promise ever tracked belongs to. */
    ghost var owner: map<nat, MessageId>
    ghost var settled: set<nat>

    ghost predicate Latest(promise: nat, m: MessageId)
      reads this
    {
      promise in owner && owner[promise] == m && forall p :: p in owner && owner[p] == m ==> p <= promise
    }

    ghost predicate Valid()
      reads this
    {
      && (forall p :: p in owner ==> p < nextPromise)
      && settled <= owner.Keys
      && (forall m :: m in sends ==> Latest(sends[m], m) && sends[m] !in settled)
      && (forall p, m :: Latest(p, m) && p !in settled ==> m in sends && sends[m] == p)
    }

    constructor ()
      ensures Valid() && sends == map[] && owner == map[] && settled == {}
    {
      sends, nextPromise, owner, settled := map[], 0, map[], {};
    }

    /** Registration is synchronous: the id is held as soon as the promise exists, whatever it replaces. */
    method Track(m: MessageId) returns (promise: nat)
      requires Valid()
      modifies this
      ensures Valid() && Latest(promise, m)
      ensures promise !in old(owner) && owner == old(owner)[promise := m] && settled == old(settled)
      ensures sends == old(sends)[m := promise]
    {
      promise := nextPromise;
      nextPromise := nextPromise + 1;
      owner := owner[promise := m];
      sends := sends[m := promise];
      forall p: nat, x | Latest(p, x) && p !in settled ensures x in sends && sends[x] == p {
        if x == m {
          assert promise in owner && owner[promise] == m;
        } else {
          assert forall o :: o in old(owner) && old(owner)[o] == x ==> o in owner && owner[o] == x;
          assert old(Latest(p, x));
        }
      }
    }

    /** What a promise does when it settles: it drops the registration only if that is still its own. */
    method Settle(m: MessageId, promise: nat)
      requires Valid() && promise in owner && owner[promise] == m
      modifies this`sends, this`settled
      ensures Valid() && settled == old(settled) + {promise}
      ensures sends == if promise !in old(settled) && old(Latest(promise, m)) then old(sends) - {m} else old(sends)
    {
      settled := settled + {promise};
      if m in sends && sends[m] == promise {
        sends := sends - {m};
      }
    }

    method Has(m: MessageId) returns (held: bool)
      requires Valid()
      ensures held <==> m in sends
      ensures held <==> exists p :: Latest(p, m) && p !in settled
    {
      held := m in sends;
      assert held ==> Latest(sends[m], m);
    }

    /** Losing the process loses the set. */
    method Clear()
      requires Valid()
      modifies this
      ensures Valid() && sends == map[] && owner == old(owner) && settled == owner.Keys
    {
      sends := map[];
      settled := owner.Keys;
    }
  }
}
