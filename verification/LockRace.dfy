/**
 * The histories of module DirectoryLock in which its guarantee fails, step by step: a compare and
 * a remove that are two steps, for an observation without an owner; and a live owner that may not
 * be signalled.  Process 1 reclaims, in code that never waits; every other call is of process 2.
 */
module LockRace {
  import opened Options
  import opened Incarnation
  import opened DirectoryLock
  import B = Bakery

  const RECLAIMER := Run(0, 1, 0, 0)
  const WORKER := Run(1, 2, 0, 0)
  const HOST := Host(0, {0}, 0, 2, map[1 := RECLAIMER, 2 := WORKER])
  const UNREAD := Markers(None, None)
  const PROBE := Reading(Delivered, UNREAD)
  const NAME: B.Name := "1"
  const IDLE := B.State(HOST, map[], map[])
  const FIRST := Owner(0, 2, UNREAD)
  const LOCK := Lock(7, FIRST)

  /** Call 0 of the worker, and call 1 of the reclaimer. */
  function Two(first: Phase, second: Phase): map<CallId, Call> {
    map[0 := Call(WORKER, first), 1 := Call(RECLAIMER, second)]
  }

  /** `h` goes on to `now`, with whatever hazards it had. */
  ghost predicate Continues(h: History, now: State, h': History) {
    IsHistory(h') && h'.now == now && (NoHazard(h') ==> NoHazard(h))
  }

  lemma Acting(h: History, step: Step, s: State) returns (h': History)
    requires IsHistory(h) && !step.Contend? && Acts(h.now, step, s)
    ensures h' == Then(h, step, s) && Continues(h, s, h')
  {
    h' := Then(h, step, s);
  }

  lemma Contending(h: History, step: B.Step, b: B.State) returns (h': History)
    requires IsHistory(h) && !step.Announce? && !step.Finish? && B.Next(h.now.bakery, step, b)
    ensures Continues(h, h.now.(bakery := b), h')
  {
    h' := Then(h, Contend(1, step), h.now.(bakery := b));
  }

  /** Call 0 publishes; call 1 arrives, and its rename is refused. */
  lemma FirstHolder() returns (h: History)
    ensures IsHistory(h) && h.now == State(IDLE, Some(LOCK), Two(Holding, Refused))
  {
    var s := State(IDLE, None, map[]);
    h := Start(s);
    h := Acting(h, Begin(0, WORKER), s.(calls := map[0 := Call(WORKER, Trying)]));
    h := Acting(h, Publish(0, 7, PROBE), State(IDLE, Some(LOCK), map[0 := Call(WORKER, Holding)]));
    h := Acting(h, Begin(1, RECLAIMER), State(IDLE, Some(LOCK), Two(Holding, Trying)));
    h := Acting(h, Refuse(1), State(IDLE, Some(LOCK), Two(Holding, Refused)));
  }

  // ---- alone in the bakery -----------------------------------------------------------------

  function Alone(choosing: bool, ticket: nat, phase: B.Phase): B.State {
    B.State(HOST, map[NAME := B.Claim(1, choosing, ticket, UNREAD)], map[NAME := B.Contender(RECLAIMER, UNREAD, phase)])
  }

  lemma Reads(choosing: bool, ticket: nat, phase: B.Phase)
    ensures Alone(choosing, ticket, phase).files.Keys == {NAME}
    ensures B.Look(Alone(choosing, ticket, phase), NAME, NAME, PROBE) == B.Contents(B.Claim(1, choosing, ticket, UNREAD))
    ensures {NAME} - {NAME} == {}
  {}

  /** A condemned lock: call 1 announces itself to the empty bakery and lists it. */
  lemma AnnounceAlone(h: History, first: Phase, lock: Option<Lock>, seen: Bytes) returns (h': History)
    requires IsHistory(h) && h.now == State(IDLE, lock, Two(first, Condemned(seen)))
    ensures Continues(h, State(Alone(true, 0, B.Picking({NAME}, 0)), lock, Two(first, Reclaiming(NAME, seen))), h')
  {
    Reads(true, 0, B.Choosing);
    var s1 := State(Alone(true, 0, B.Choosing), lock, Two(first, Reclaiming(NAME, seen)));
    h' := Acting(h, StartReclaim(1, NAME, PROBE), s1);
    h' := Contending(h', B.ListForTicket(NAME), Alone(true, 0, B.Picking({NAME}, 0)));
  }

  /** It takes ticket 1. */
  lemma PickAlone(h: History, first: Phase, lock: Option<Lock>, seen: Bytes) returns (h': History)
    requires IsHistory(h) && h.now == State(IDLE, lock, Two(first, Condemned(seen)))
    ensures Continues(h, State(Alone(true, 0, B.Picked(1)), lock, Two(first, Reclaiming(NAME, seen))), h')
  {
    h' := AnnounceAlone(h, first, lock, seen);
    Reads(true, 0, B.Picking({NAME}, 0));
    h' := Contending(h', B.ReadForTicket(NAME, NAME, PROBE), Alone(true, 0, B.Picking({}, 0)));
    h' := Contending(h', B.Choose(NAME), Alone(true, 0, B.Picked(1)));
  }

  lemma PublishAlone(h: History, first: Phase, lock: Option<Lock>, seen: Bytes) returns (h': History)
    requires IsHistory(h) && h.now == State(IDLE, lock, Two(first, Condemned(seen)))
    ensures Continues(h, State(Alone(false, 1, B.Scanning(1, {NAME}, false)), lock, Two(first, Reclaiming(NAME, seen))), h')
  {
    h' := PickAlone(h, first, lock, seen);
    h' := Contending(h', B.Publish(NAME), Alone(false, 1, B.Waiting(1)));
    Reads(false, 1, B.Waiting(1));
    h' := Contending(h', B.ListForWait(NAME), Alone(false, 1, B.Scanning(1, {NAME}, false)));
  }

  /** It is in the section, where the lock it observed is still as it observed it. */
  lemma EnterAlone(h: History, first: Phase, lock: Option<Lock>, seen: Bytes) returns (h': History)
    requires IsHistory(h) && h.now == State(IDLE, lock, Two(first, Condemned(seen)))
    ensures Continues(h, State(Alone(false, 1, B.InWork(1)), lock, Two(first, Reclaiming(NAME, seen))), h')
  {
    h' := PublishAlone(h, first, lock, seen);
    Reads(false, 1, B.Scanning(1, {NAME}, false));
    h' := Contending(h', B.ReadForWait(NAME, NAME, PROBE), Alone(false, 1, B.Scanning(1, {}, false)));
    h' := Contending(h', B.Enter(NAME), Alone(false, 1, B.InWork(1)));
  }

  lemma RereadOwner(h: History, first: Phase, lock: Option<Lock>) returns (h': History)
    requires IsHistory(h) && h.now == State(IDLE, lock, Two(first, Condemned(BytesOf(lock))))
    ensures Continues(h, State(Alone(false, 1, B.InWork(1)), lock,
                               Two(first, Rechecked(NAME, BytesOf(lock), BytesOf(lock).owner))), h')
  {
    var seen := BytesOf(lock);
    h' := EnterAlone(h, first, lock, seen);
    h' := Acting(h', RecheckOwner(1), h'.now.(calls := Two(first, Rechecked(NAME, seen, seen.owner))));
  }

  lemma CompareEqual(h: History, first: Phase, lock: Option<Lock>) returns (h': History)
    requires IsHistory(h) && h.now == State(IDLE, lock, Two(first, Condemned(BytesOf(lock))))
    ensures Continues(h, State(Alone(false, 1, B.InWork(1)), lock, Two(first, Matched(NAME, BytesOf(lock)))), h')
  {
    h' := RereadOwner(h, first, lock);
    h' := Acting(h', RecheckStamp(1), h'.now.(calls := Two(first, Matched(NAME, BytesOf(lock)))));
  }

  function BytesOf(lock: Option<Lock>): Bytes {
    match lock
    case None => Bytes(None, None)
    case Some(l) => Bytes(Some(l.stamp), Some(l.owner))
  }

  /** The worker takes the free lock in a call of its own. */
  lemma Arrive(h: History, c: CallId) returns (h': History)
    requires IsHistory(h) && h.now.lock.None? && h.now.bakery.host == HOST && c !in h.now.calls
    ensures Continues(h, h.now.(lock := Some(Lock(8, Owner(c, 2, UNREAD))), calls := h.now.calls[c := Call(WORKER, Holding)]), h')
  {
    var s1 := h.now.(calls := h.now.calls[c := Call(WORKER, Trying)]);
    var h1 := Acting(h, Begin(c, WORKER), s1);
    var s2 := At(s1.(lock := Some(Lock(8, Owner(c, 2, UNREAD)))), c, Holding);
    assert s2.calls == h.now.calls[c := Call(WORKER, Holding)];
    h' := Acting(h1, Publish(c, 8, PROBE), s2);
  }

  // ---- an observation without an owner --------------------------------------------------------

  /** The lock is released only after the rename of call 1 was refused, so call 1 observes none. */
  lemma CondemnNothing() returns (h: History)
    ensures IsHistory(h) && h.now == State(IDLE, None, Two(Finished, Condemned(BytesOf(None))))
  {
    h := FirstHolder();
    h := Acting(h, CheckRelease(0), State(IDLE, Some(LOCK), Two(Releasing, Refused)));
    h := Acting(h, Release(0), State(IDLE, None, Two(Finished, Refused)));
    h := ObserveNothing(h);
  }

  lemma ObserveNothing(h: History) returns (h': History)
    requires IsHistory(h) && h.now == State(IDLE, None, Two(Finished, Refused))
    ensures IsHistory(h') && h'.now == State(IDLE, None, Two(Finished, Condemned(BytesOf(None))))
  {
    h' := Acting(h, ReadOwner(1), State(IDLE, None, Two(Finished, SawOwner(None))));
    h' := Acting(h', ReadStamp(1), State(IDLE, None, Two(Finished, Observed(BytesOf(None)))));
    h' := SuspectNobody(h');
  }

  lemma SuspectNobody(h: History) returns (h': History)
    requires IsHistory(h) && h.now == State(IDLE, None, Two(Finished, Observed(BytesOf(None))))
    ensures IsHistory(h') && h'.now == State(IDLE, None, Two(Finished, Condemned(BytesOf(None))))
  {
    h' := Acting(h, ReadSuspect(1), State(IDLE, None, Two(Finished, Suspects(BytesOf(None), None))));
    h' := Acting(h', Condemn(1, PROBE), State(IDLE, None, Two(Finished, Condemned(BytesOf(None)))));
  }

  /** A lock published since the comparison is removed. */
  lemma Robbed(h: History) returns (h': History)
    requires IsHistory(h) && h.now.lock.Some? && h.now.bakery.host == HOST
    requires 1 in h.now.calls && h.now.calls[1] == Call(RECLAIMER, Matched(NAME, BytesOf(None)))
    ensures IsHistory(h') && !NoHazard(h') && h'.now == At(h.now.(lock := None), 1, Cleared(NAME))
  {
    h' := Acting(h, Remove(1), At(h.now.(lock := None), 1, Cleared(NAME)));
  }

  /**
   * Without `NoHazard` the guarantee is false: a reclaimer that observed the lock already
   * gone is overtaken by call 2 between compare and remove, removes the lock of call 2, and
   * call 3 then holds the lock together with call 2.
   */
  lemma OwnerlessRemovalBreaksExclusion() returns (h: History)
    ensures IsHistory(h) && !NoHazard(h)
    ensures Alive(h.now, 2) && Alive(h.now, 3) && PhaseOf(h.now, 2).Holding? && PhaseOf(h.now, 3).Holding?
  {
    var h0 := CondemnNothing();
    var h1 := CompareEqual(h0, Finished, None);
    var h2 := Arrive(h1, 2);
    var h3 := Robbed(h2);
    h := Arrive(h3, 3);
  }

  // ---- an owner that may not be signalled --------------------------------------------------------

  const REFUSED := Reading(NotPermitted, UNREAD)

  lemma ObserveTheLiving() returns (h: History)
    ensures IsHistory(h) && h.now == State(IDLE, Some(LOCK), Two(Holding, Observed(BytesOf(Some(LOCK)))))
  {
    h := FirstHolder();
    h := Acting(h, ReadOwner(1), State(IDLE, Some(LOCK), Two(Holding, SawOwner(Some(FIRST)))));
    h := Acting(h, ReadStamp(1), State(IDLE, Some(LOCK), Two(Holding, Observed(BytesOf(Some(LOCK))))));
  }

  lemma CondemnTheLiving() returns (h: History)
    ensures IsHistory(h) && !NoHazard(h) && h.now == State(IDLE, Some(LOCK), Two(Holding, Condemned(BytesOf(Some(LOCK)))))
  {
    var seen := BytesOf(Some(LOCK));
    h := ObserveTheLiving();
    h := Acting(h, ReadSuspect(1), State(IDLE, Some(LOCK), Two(Holding, Suspects(seen, Some(FIRST)))));
    h := Acting(h, Condemn(1, REFUSED), State(IDLE, Some(LOCK), Two(Holding, Condemned(seen))));
  }

  /** The lock of a live owner that may not be signalled is reclaimed, and call 2 holds it too. */
  lemma RefusedSignalBreaksExclusion() returns (h: History)
    ensures IsHistory(h) && !NoHazard(h)
    ensures Alive(h.now, 0) && Alive(h.now, 2) && PhaseOf(h.now, 0).Holding? && PhaseOf(h.now, 2).Holding?
  {
    var h0 := CondemnTheLiving();
    var h1 := CompareEqual(h0, Holding, Some(LOCK));
    var s := State(Alone(false, 1, B.InWork(1)), None, Two(Holding, Cleared(NAME)));
    var h2 := Acting(h1, Remove(1), s);
    h := Arrive(h2, 2);
  }
}
