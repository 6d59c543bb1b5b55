/**
 * The chain of drains the messenger kicks: every kick, from the timer or from an accepted event, appends a drain that
 * starts when the one before it has settled, whether that one succeeded or failed.
 */
module WebhookChain {
  import opened Domain
  import opened Webhook

  /** One kicked drain: waiting for its predecessor, running, or settled. */
  datatype Link = Waiting | Running(phase: Phase) | Settled

  /** The messenger's Redis, clock and history, and the chain of drains its process has kicked. */
  datatype Messenger = Messenger(
    db: Db,
    clock: real,
    stored: map<EventId, Event>,
    delivered: set<EventId>,
    buried: set<EventId>,
    ledgers: map<EventId, Ledger>,
    chain: seq<Link>)

  /** What one drain in the given phase sees and works on. */
  function View(m: Messenger, phase: Phase): Machine {
    Machine(m.db, m.clock, phase, m.stored, m.delivered, m.buried, m.ledgers)
  }

  /** The messenger after a drain's work left `w`. */
  function With(w: Machine, chain: seq<Link>): Messenger {
    Messenger(w.db, w.clock, w.stored, w.delivered, w.buried, w.ledgers, chain)
  }

  const INITIAL_MESSENGER := With(INITIAL_MACHINE, [])

  function PhaseOf(link: Link): Phase {
    if link.Running? then link.phase else Idle
  }

  function LinkOf(phase: Phase): Link {
    if phase.Idle? then Settled else Running(phase)
  }

  /**
   * What can happen: something outside the drains, a kick, a drain starting, working, ending early because a Redis
   * command failed, or the death of the process with its whole chain.
   */
  datatype Act =
    | Outside(step: Step)
    | Kick
    | Start(k: nat, ids: seq<EventId>)
    | Work(k: nat, step: Step)
    | Fail(k: nat)
    | Die

  predicate IsOutside(s: Step) {
    s.Accept? || s.ExpireDeadLetter? || s.Elapse?
  }

  predicate IsWork(s: Step) {
    s.Claim? || s.BeginPost? || s.Conclude? || s.EndDrain?
  }

  /**
   * A drain starts once its predecessor has settled; nothing else orders the drains, and kicks may come at any time.
   */
  ghost predicate CanAct(m: Messenger, a: Act) {
    match a
    case Outside(s) => IsOutside(s) && CanTake(View(m, Idle), s)
    case Kick => true
    case Start(k, ids) =>
      && k < |m.chain| && m.chain[k].Waiting? && (k == 0 || m.chain[k - 1].Settled?)
      && CanTake(View(m, Idle), BeginDrain(ids))
    case Work(k, s) => k < |m.chain| && m.chain[k].Running? && IsWork(s) && CanTake(View(m, m.chain[k].phase), s)
    case Fail(k) => k < |m.chain| && m.chain[k].Running?
    case Die => true
  }

  /** Every drain of a dying process is cut off. */
  ghost function CutAll(t: Knobs, m: Messenger, links: seq<Link>): Messenger
    decreases |links|
  {
    if links == [] then m
    else CutAll(t, With(Take(t, View(m, PhaseOf(links[0])), CutOff), m.chain), links[1..])
  }

  ghost function Perform(t: Knobs, m: Messenger, a: Act): Messenger
    requires CanAct(m, a)
  {
    match a
    case Outside(s) => With(Take(t, View(m, Idle), s), m.chain)
    case Kick => m.(chain := m.chain + [Waiting])
    case Start(k, ids) =>
      var w := Take(t, View(m, Idle), BeginDrain(ids));
      With(w, m.chain[k := LinkOf(w.phase)])
    case Work(k, s) =>
      var w := Take(t, View(m, m.chain[k].phase), s);
      With(w, m.chain[k := LinkOf(w.phase)])
    case Fail(k) => With(Take(t, View(m, m.chain[k].phase), CutOff), m.chain[k := Settled])
    case Die => CutAll(t, m, m.chain).(chain := [])
  }

  /** Whatever has started is preceded only by settled drains. */
  ghost predicate Serial(chain: seq<Link>) {
    forall i, j :: 0 <= i < j < |chain| && !chain[j].Waiting? ==> chain[i].Settled?
  }

  ghost predicate Busy(chain: seq<Link>) {
    forall i :: 0 <= i < |chain| && chain[i].Running? ==> !chain[i].phase.Idle?
  }

  function Current(chain: seq<Link>): Phase {
    if chain == [] then Idle
    else if chain[0].Running? then chain[0].phase
    else Current(chain[1..])
  }

  /** The one machine the messenger amounts to. */
  function Abstract(m: Messenger): Machine {
    View(m, Current(m.chain))
  }

  lemma {:induction false} CurrentIsRunning(chain: seq<Link>, k: nat)
    requires k < |chain| && forall i :: 0 <= i < |chain| && i != k ==> !chain[i].Running?
    ensures Current(chain) == PhaseOf(chain[k])
    decreases |chain|
  {
    if k > 0 {
      CurrentIsRunning(chain[1..], k - 1);
    } else if !chain[0].Running? {
      NoneRunning(chain[1..]);
    }
  }

  lemma {:induction false} NoneRunning(chain: seq<Link>)
    requires forall i :: 0 <= i < |chain| ==> !chain[i].Running?
    ensures Current(chain) == Idle
    decreases |chain|
  {
    if chain != [] {
      NoneRunning(chain[1..]);
    }
  }

  /** In a serial chain a drain that runs, or may start, is the only one that could be running. */
  lemma OthersRest(chain: seq<Link>, k: nat)
    requires Serial(chain) && k < |chain|
    requires chain[k].Running? || (chain[k].Waiting? && (k == 0 || chain[k - 1].Settled?))
    ensures forall i :: 0 <= i < k ==> chain[i].Settled?
    ensures forall i :: k < i < |chain| ==> chain[i].Waiting?
  {
    if !chain[k].Running? && k > 0 {
      assert forall i :: 0 <= i < k - 1 ==> chain[i].Settled?;
    }
  }

  lemma ChangedLink(chain: seq<Link>, k: nat, link: Link)
    requires Serial(chain) && Busy(chain) && k < |chain| && !link.Waiting? && (link.Running? ==> !link.phase.Idle?)
    requires chain[k].Running? || (chain[k].Waiting? && (k == 0 || chain[k - 1].Settled?))
    ensures Serial(chain[k := link]) && Busy(chain[k := link])
    ensures Current(chain) == PhaseOf(chain[k]) && Current(chain[k := link]) == PhaseOf(link)
  {
    OthersRest(chain, k);
    CurrentIsRunning(chain, k);
    CurrentIsRunning(chain[k := link], k);
  }

  lemma {:induction false} KickedChain(chain: seq<Link>)
    ensures Current(chain + [Waiting]) == Current(chain)
    decreases |chain|
  {
    var kicked := chain + [Waiting];
    if chain != [] && !chain[0].Running? {
      assert kicked[1..] == chain[1..] + [Waiting];
      KickedChain(chain[1..]);
    } else if chain == [] {
      assert kicked[1..] == [];
    }
  }

  /** The messenger is sound when its chain is serial and the machine it amounts to is a reached one. */
  ghost predicate Ordered(t: Knobs, m: Messenger) {
    Serial(m.chain) && Busy(m.chain) && Reached(t, Abstract(m))
  }

  lemma InitiallyOrdered(t: Knobs)
    ensures Ordered(t, INITIAL_MESSENGER)
  {
    assert CanTakeAll(t, INITIAL_MACHINE, []) && TakeAll(t, INITIAL_MACHINE, []) == INITIAL_MACHINE;
  }

  lemma OutsideKeepsOrdered(t: Knobs, m: Messenger, s: Step)
    requires Ordered(t, m) && CanAct(m, Outside(s))
    ensures Ordered(t, Perform(t, m, Outside(s)))
  {
    ReachedContinues(t, Abstract(m), s);
    assert Abstract(Perform(t, m, Outside(s))) == Take(t, Abstract(m), s);
  }

  lemma StartKeepsOrdered(t: Knobs, m: Messenger, k: nat, ids: seq<EventId>)
    requires Ordered(t, m) && CanAct(m, Start(k, ids))
    ensures Ordered(t, Perform(t, m, Start(k, ids)))
  {
    ChangedLink(m.chain, k, Running(Draining(ids)));
    ReachedContinues(t, Abstract(m), BeginDrain(ids));
  }

  lemma WorkKeepsOrdered(t: Knobs, m: Messenger, k: nat, s: Step)
    requires Ordered(t, m) && CanAct(m, Work(k, s))
    ensures Ordered(t, Perform(t, m, Work(k, s)))
  {
    var w := Take(t, View(m, m.chain[k].phase), s);
    ChangedLink(m.chain, k, LinkOf(w.phase));
    ReachedContinues(t, Abstract(m), s);
  }

  lemma FailKeepsOrdered(t: Knobs, m: Messenger, k: nat)
    requires Ordered(t, m) && CanAct(m, Fail(k))
    ensures Ordered(t, Perform(t, m, Fail(k)))
  {
    ChangedLink(m.chain, k, Settled);
    ReachedContinues(t, Abstract(m), CutOff);
  }

  lemma {:induction false} CutAllCutsCurrent(t: Knobs, m: Messenger, links: seq<Link>)
    requires Serial(links)
    ensures CutAll(t, m, links) == With(Take(t, View(m, Current(links)), CutOff), m.chain)
    decreases |links|
  {
    if links != [] {
      assert forall i, j :: 0 <= i < j < |links[1..]| && !links[1..][j].Waiting? ==> links[1..][i] == links[i + 1];
      assert Serial(links[1..]);
      CutAllCutsCurrent(t, With(Take(t, View(m, PhaseOf(links[0])), CutOff), m.chain), links[1..]);
      if links[0].Running? {
        assert forall i :: 0 <= i < |links[1..]| ==> links[1..][i] == links[i + 1] && links[i + 1].Waiting?;
        NoneRunning(links[1..]);
      }
    }
  }

  lemma DieKeepsOrdered(t: Knobs, m: Messenger)
    requires Ordered(t, m)
    ensures Ordered(t, Perform(t, m, Die))
  {
    CutAllCutsCurrent(t, m, m.chain);
    ReachedContinues(t, Abstract(m), CutOff);
  }

  lemma ActKeepsOrdered(t: Knobs, m: Messenger, a: Act)
    requires Ordered(t, m) && CanAct(m, a)
    ensures Ordered(t, Perform(t, m, a))
  {
    match a
    case Outside(s) => OutsideKeepsOrdered(t, m, s);
    case Kick => KickedChain(m.chain);
    case Start(k, ids) => StartKeepsOrdered(t, m, k, ids);
    case Work(k, s) => WorkKeepsOrdered(t, m, k, s);
    case Fail(k) => FailKeepsOrdered(t, m, k);
    case Die => DieKeepsOrdered(t, m);
  }

  ghost predicate CanActAll(t: Knobs, m: Messenger, acts: seq<Act>)
    decreases |acts|
  {
    acts == [] || (CanAct(m, acts[0]) && CanActAll(t, Perform(t, m, acts[0]), acts[1..]))
  }

  ghost function PerformAll(t: Knobs, m: Messenger, acts: seq<Act>): Messenger
    requires CanActAll(t, m, acts)
    decreases |acts|
  {
    if acts == [] then m else PerformAll(t, Perform(t, m, acts[0]), acts[1..])
  }

  lemma {:induction false} RunKeepsOrdered(t: Knobs, m: Messenger, acts: seq<Act>)
    requires Ordered(t, m) && CanActAll(t, m, acts)
    ensures Ordered(t, PerformAll(t, m, acts))
    decreases |acts|
  {
    if acts != [] {
      ActKeepsOrdered(t, m, acts[0]);
      RunKeepsOrdered(t, Perform(t, m, acts[0]), acts[1..]);
    }
  }

  /**
   * The promise chain serialises the drains: from the start, whatever is kicked, fails or dies and when, at most one
   * drain runs, those before it have settled and those after it wait; and the messenger is one run of the machine in
   * which a single drain works at a time.
   */
  lemma DrainsRunOneAtATime(t: Knobs, acts: seq<Act>, k: nat)
    requires CanActAll(t, INITIAL_MESSENGER, acts)
    ensures var m := PerformAll(t, INITIAL_MESSENGER, acts);
      && Reached(t, Abstract(m))
      && (k < |m.chain| && m.chain[k].Running? ==>
            && Abstract(m).phase == m.chain[k].phase
            && (forall i :: 0 <= i < k ==> m.chain[i].Settled?)
            && (forall i :: k < i < |m.chain| ==> m.chain[i].Waiting?))
  {
    var m := PerformAll(t, INITIAL_MESSENGER, acts);
    InitiallyOrdered(t);
    RunKeepsOrdered(t, INITIAL_MESSENGER, acts);
    if k < |m.chain| && m.chain[k].Running? {
      OthersRest(m.chain, k);
      CurrentIsRunning(m.chain, k);
    }
  }

  predicate IsPosting(link: Link) {
    link.Running? && link.phase.Posting?
  }

  predicate EndsPost(a: Act, k: nat) {
    a.Die? || a == Fail(k) || (a.Work? && a.k == k && a.step.Conclude?)
  }

  /** A drain whose POST is under way stays there until the POST ends. */
  lemma {:induction false} PostGoesOn(t: Knobs, m: Messenger, acts: seq<Act>, k: nat)
    requires Ordered(t, m) && CanActAll(t, m, acts) && k < |m.chain| && IsPosting(m.chain[k])
    requires forall i :: 0 <= i < |acts| ==> !EndsPost(acts[i], k)
    ensures Ordered(t, PerformAll(t, m, acts))
    ensures k < |PerformAll(t, m, acts).chain| && PerformAll(t, m, acts).chain[k] == m.chain[k]
    decreases |acts|
  {
    if acts != [] {
      ActKeepsOrdered(t, m, acts[0]);
      PostGoesOn(t, Perform(t, m, acts[0]), acts[1..], k);
    }
  }

  /**
   * POSTs never overlap: once the drain `k` has begun one, no drain begins another, of the same event or of any, before
   * that POST was answered, its drain failed, or the process died.
   */
  lemma PostEndsBeforeNext(t: Knobs, m: Messenger, acts: seq<Act>, k: nat, next: nat)
    requires Ordered(t, m) && CanActAll(t, m, acts) && k < |m.chain| && IsPosting(m.chain[k])
    requires CanAct(PerformAll(t, m, acts), Work(next, BeginPost))
    ensures exists i :: 0 <= i < |acts| && EndsPost(acts[i], k)
  {
    if forall i :: 0 <= i < |acts| ==> !EndsPost(acts[i], k) {
      PostGoesOn(t, m, acts, k);
      OthersRest(PerformAll(t, m, acts).chain, k);
      assert false;
    }
  }

  /** The chain never stalls: while a drain waits, one is running or the first that waits can start. */
  lemma {:induction false} ChainNeverStalls(chain: seq<Link>, k: nat)
    requires Serial(chain) && k < |chain| && chain[k].Waiting?
    ensures (exists i :: 0 <= i < k && chain[i].Running?)
      || (exists i :: 0 <= i <= k && chain[i].Waiting? && (i == 0 || chain[i - 1].Settled?))
    decreases k
  {
    if k > 0 && chain[k - 1].Waiting? {
      ChainNeverStalls(chain, k - 1);
    }
  }

  /** A failed drain does not block the chain: the one after it can start. */
  lemma FailureReleasesNext(t: Knobs, m: Messenger, k: nat, ids: seq<EventId>)
    requires Ordered(t, m) && CanAct(m, Fail(k)) && k + 1 < |m.chain|
    requires CanTake(View(Perform(t, m, Fail(k)), Idle), BeginDrain(ids))
    ensures CanAct(Perform(t, m, Fail(k)), Start(k + 1, ids))
  {
    OthersRest(m.chain, k);
  }
}
