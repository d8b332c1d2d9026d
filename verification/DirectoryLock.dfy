/**
 * `withFileLock` and `reclaimDeadHolder`: a lock directory published by one
 * rename, released by its owner, and taken away from a dead owner inside the
 * bakery of module Bakery.
 *
 * Each file read, the rename and `rmSync(lockPath)` are one step.  The holder's
 * bytes are read owner first, then stamp, so a reading may mix two holders.
 * Expiry (`staleMs`, `waited`) is a free choice: safety never depends on it.
 */
module DirectoryLock {
  import opened Options
  import opened Incarnation
  import B = Bakery

  type CallId = nat                      // the random token of one `withFileLock` call

  datatype Owner = Owner(token: CallId, pid: Pid, markers: Markers)

  datatype Lock = Lock(stamp: int, owner: Owner)

  /** What `holder()` returns; `null` is both parts missing. */
  datatype Bytes = Bytes(stamp: Option<int>, owner: Option<Owner>)

  datatype Phase =
    | Trying
    | Refused                                              // the rename found a lock in place
    | SawOwner(owner: Option<Owner>)
    | Observed(seen: Bytes)
    | Suspects(seen: Bytes, suspect: Option<Owner>)        // owner read again, for the liveness check
    | Condemned(seen: Bytes)                               // judged dead and expired
    | Reclaiming(n: B.Name, seen: Bytes)                   // in the bakery, section not yet entered or left
    | Rechecked(n: B.Name, seen: Bytes, owner: Option<Owner>)
    | Matched(n: B.Name, seen: Bytes)                      // compared equal, about to remove
    | Cleared(n: B.Name)
    | Holding                                              // between the rename and the release
    | Releasing                                            // read its own token, about to remove
    | Finished

  datatype Call = Call(process: Run, phase: Phase)

  datatype State = State(bakery: B.State, lock: Option<Lock>, calls: map<CallId, Call>)

  datatype Step =
    | Begin(c: CallId, process: Run)
    | Publish(c: CallId, stamp: int, own: Reading)
    | Refuse(c: CallId)
    | ReadOwner(c: CallId)
    | ReadStamp(c: CallId)
    | ReadSuspect(c: CallId)
    | Condemn(c: CallId, probe: Reading)
    | BackOff(c: CallId)
    | StartReclaim(c: CallId, n: B.Name, own: Reading)
    | Contend(c: CallId, step: B.Step)
    | RecheckOwner(c: CallId)
    | RecheckStamp(c: CallId)
    | Remove(c: CallId)
    | Resume(c: CallId)
    | CheckRelease(c: CallId)
    | Release(c: CallId)
    | Abandon(c: CallId)

  // ---- the step relation -------------------------------------------------------

  predicate Alive(s: State, c: CallId) {
    c in s.calls && Live(s.bakery.host, s.calls[c].process)
  }

  function PhaseOf(s: State, c: CallId): Phase
    requires c in s.calls
  {
    s.calls[c].phase
  }

  function At(s: State, c: CallId, phase: Phase): State
    requires c in s.calls
  {
    s.(calls := s.calls[c := s.calls[c].(phase := phase)])
  }

  function OwnerNow(s: State): Option<Owner> {
    if s.lock.Some? then Some(s.lock.value.owner) else None
  }

  function StampNow(s: State): Option<int> {
    if s.lock.Some? then Some(s.lock.value.stamp) else None
  }

  /** The caller is inside `work` of the reclaim section. */
  predicate InSection(s: State, n: B.Name) {
    B.Running(s.bakery, n) && B.PhaseOf(s.bakery, n).InWork?
  }

  predicate LeftBakery(s: State, n: B.Name) {
    n in s.bakery.contenders && B.PhaseOf(s.bakery, n).Done?
  }

  ghost predicate Next(s: State, step: Step, s': State) {
    if step.Contend? then Contends(s, step.c, step.step, s') else Acts(s, step, s')
  }

  /** A step of the bakery or of the host; the section is left only when its caller is done in it. */
  ghost predicate Contends(s: State, c: CallId, b: B.Step, s': State) {
    && !b.Announce?
    && (b.Finish? ==> c in s.calls && PhaseOf(s, c) == Cleared(b.n))
    && B.Next(s.bakery, b, s'.bakery)
    && s' == s.(bakery := s'.bakery)
  }

  ghost predicate Acts(s: State, step: Step, s': State)
    requires !step.Contend?
  {
    match step
    case Begin(c, process) =>
      && c !in s.calls && Live(s.bakery.host, process)
      && s' == s.(calls := s.calls[c := Call(process, Trying)])
    case Publish(c, stamp, own) =>
      && Alive(s, c) && PhaseOf(s, c).Trying? && s.lock.None?
      && Honest(s.bakery.host, s.calls[c].process.pid, own)
      && s' == At(s.(lock := Some(Lock(stamp, Owner(c, s.calls[c].process.pid, own.markers)))), c, Holding)
    case Refuse(c) =>
      && Alive(s, c) && PhaseOf(s, c).Trying? && s.lock.Some?
      && s' == At(s, c, Refused)
    case ReadOwner(c) =>
      && Alive(s, c) && PhaseOf(s, c).Refused?
      && s' == At(s, c, SawOwner(OwnerNow(s)))
    case ReadStamp(c) =>
      && Alive(s, c) && PhaseOf(s, c).SawOwner?
      && s' == At(s, c, Observed(Bytes(StampNow(s), PhaseOf(s, c).owner)))
    case ReadSuspect(c) =>
      && Alive(s, c) && PhaseOf(s, c).Observed?
      && s' == At(s, c, Suspects(PhaseOf(s, c).seen, OwnerNow(s)))
    case Condemn(c, probe) =>
      && Alive(s, c) && PhaseOf(s, c).Suspects?
      && (match PhaseOf(s, c).suspect
          case None => true                // no readable owner: nobody to be alive
          case Some(o) => Honest(s.bakery.host, o.pid, probe) && JudgedDeadByDirectoryLock(o.markers, probe))
      && s' == At(s, c, Condemned(PhaseOf(s, c).seen))
    case BackOff(c) =>
      && Alive(s, c)
      && (match PhaseOf(s, c)
          case Refused => true
          case SawOwner(_) => true
          case Observed(_) => true
          case Suspects(_, _) => true
          case Condemned(_) => true
          case _ => false)
      && s' == At(s, c, Trying)
    case StartReclaim(c, n, own) =>
      && Alive(s, c) && PhaseOf(s, c).Condemned?
      && B.Next(s.bakery, B.Announce(n, s.calls[c].process, own), s'.bakery)
      && s' == At(s.(bakery := s'.bakery), c, Reclaiming(n, PhaseOf(s, c).seen))
    case RecheckOwner(c) =>
      && Alive(s, c) && PhaseOf(s, c).Reclaiming? && InSection(s, PhaseOf(s, c).n)
      && s' == At(s, c, Rechecked(PhaseOf(s, c).n, PhaseOf(s, c).seen, OwnerNow(s)))
    case RecheckStamp(c) =>
      && Alive(s, c) && PhaseOf(s, c).Rechecked?
      && var p := PhaseOf(s, c);
         s' == At(s, c, if Bytes(StampNow(s), p.owner) == p.seen then Matched(p.n, p.seen) else Cleared(p.n))
    case Remove(c) =>
      && Alive(s, c) && PhaseOf(s, c).Matched?
      && s' == At(s.(lock := None), c, Cleared(PhaseOf(s, c).n))
    case Resume(c) =>
      && Alive(s, c) && (PhaseOf(s, c).Reclaiming? || PhaseOf(s, c).Cleared?) && LeftBakery(s, PhaseOf(s, c).n)
      && s' == At(s, c, Trying)
    case CheckRelease(c) =>
      && Alive(s, c) && PhaseOf(s, c).Holding?
      && s' == At(s, c, if s.lock.Some? && s.lock.value.owner.token == c then Releasing else Finished)
    case Release(c) =>
      && Alive(s, c) && PhaseOf(s, c).Releasing?
      && s' == At(s.(lock := None), c, Finished)
    case Abandon(c) =>
      && Alive(s, c) && PhaseOf(s, c).Trying?
      && s' == At(s, c, Finished)
  }

  ghost predicate Init(s: State) {
    B.Init(s.bakery) && s.lock.None? && s.calls == map[]
  }

  /**
   * The two steps that endanger a live holder.  A reclaimer that could read no owner (the lock
   * vanished under it) is about to remove, but meanwhile somebody published: the two-step compare
   * and remove lets that slip in.  Or a live owner is condemned because the signal to it is refused.
   */
  predicate Hazard(s: State, step: Step) {
    match step
    case Remove(c) =>
      c in s.calls && PhaseOf(s, c).Matched? && PhaseOf(s, c).seen.owner.None? && s.lock.Some?
    case Condemn(c, probe) =>
      && c in s.calls && PhaseOf(s, c).Suspects? && PhaseOf(s, c).suspect.Some?
      && Alive(s, PhaseOf(s, c).suspect.value.token) && probe.signal.NotPermitted?
    case _ => false
  }

  // ---- the invariant -------------------------------------------------------------

  predicate Published(p: Phase) { p.Holding? || p.Releasing? || p.Finished? }

  predicate Critical(p: Phase) { p.Holding? || p.Releasing? }

  /** `o` is the record some call has published about itself. */
  predicate Known(s: State, o: Owner) {
    && o.token in s.calls && Published(PhaseOf(s, o.token))
    && o.pid == s.calls[o.token].process.pid
    && RecordedBy(o.markers, s.calls[o.token].process)
  }

  predicate KnownIfAny(s: State, o: Option<Owner>) { o.Some? ==> Known(s, o.value) }

  predicate Dead(s: State, o: Owner)
  {
    o.token in s.calls && !Live(s.bakery.host, s.calls[o.token].process)
  }

  /** If the lock is still the one observed, its owner is dead. */
  predicate DeadIfStill(s: State, seen: Bytes) {
    KnownIfAny(s, seen.owner) && (seen.owner.Some? && OwnerNow(s) == seen.owner ==> Dead(s, seen.owner.value))
  }

  predicate PhaseOk(s: State, p: Phase) {
    match p
    case SawOwner(o) => KnownIfAny(s, o)
    case Observed(seen) => KnownIfAny(s, seen.owner)
    case Suspects(seen, suspect) =>
      && KnownIfAny(s, seen.owner) && KnownIfAny(s, suspect)
      && (seen.owner.Some? && OwnerNow(s) == seen.owner ==> suspect == seen.owner)
    case Condemned(seen) => DeadIfStill(s, seen)
    case Reclaiming(n, seen) => DeadIfStill(s, seen)
    case Rechecked(n, seen, o) =>
      && InSection(s, n) && DeadIfStill(s, seen)
      && (o.Some? && o == seen.owner ==> OwnerNow(s) == seen.owner)
    case Matched(n, seen) =>
      && InSection(s, n) && DeadIfStill(s, seen)
      && (seen.owner.Some? ==> OwnerNow(s) == seen.owner)
    case _ => true
  }

  predicate InBakery(p: Phase) { p.Reclaiming? || p.Rechecked? || p.Matched? || p.Cleared? }

  ghost predicate CallsOk(s: State) {
    && (forall c :: c in s.calls ==> s.calls[c].process.uid < s.bakery.host.nextUid)
    && (forall c :: c in s.calls && InBakery(PhaseOf(s, c)) ==>
          var n := PhaseOf(s, c).n;
          n in s.bakery.contenders && s.bakery.contenders[n].run == s.calls[c].process)
    && (forall c, d :: c in s.calls && d in s.calls && c != d
                       && InBakery(PhaseOf(s, c)) && InBakery(PhaseOf(s, d)) ==>
          PhaseOf(s, c).n != PhaseOf(s, d).n)
  }

  ghost predicate LockOk(s: State) {
    && KnownIfAny(s, OwnerNow(s))
    && (forall c :: Alive(s, c) && Critical(PhaseOf(s, c)) ==>
          s.lock.Some? && s.lock.value.owner.token == c)
  }

  ghost predicate PhasesOk(s: State) {
    forall c :: Alive(s, c) ==> PhaseOk(s, PhaseOf(s, c))
  }

  ghost predicate Consistent(s: State) {
    CallsOk(s) && LockOk(s) && PhasesOk(s)
  }

  ghost predicate Inv(s: State) {
    B.Inv(s.bakery) && Consistent(s)
  }

  // ---- what every step does to the world ------------------------------------------------

  /** The host and the bakery only move forward; `finished` is the contender leaving `work`, if any. */
  ghost predicate Moved(b: B.State, finished: Option<B.Name>, b': B.State) {
    && b.host.nextUid <= b'.host.nextUid
    && (forall r: Run :: r.uid < b.host.nextUid && Live(b'.host, r) ==> Live(b.host, r))
    && (forall n :: n in b.contenders ==> n in b'.contenders && b'.contenders[n].run == b.contenders[n].run)
    && (forall n :: n in b.contenders && B.PhaseOf(b, n).InWork? && finished != Some(n) ==>
          n in b'.contenders && B.PhaseOf(b', n).InWork?)
  }

  function FinishedBy(step: Step): Option<B.Name> {
    if step.Contend? && step.step.Finish? then Some(step.step.n) else None
  }

  /** A call keeps its process and never unpublishes; the lock goes away or is published afresh. */
  ghost predicate Evolved(s: State, s': State) {
    && (forall c :: c in s.calls ==>
          && c in s'.calls && s'.calls[c].process == s.calls[c].process
          && (Published(PhaseOf(s, c)) ==> Published(PhaseOf(s', c))))
    && (OwnerNow(s') == OwnerNow(s) || OwnerNow(s').None?
        || (OwnerNow(s).None? && var c := OwnerNow(s').value.token; c in s.calls && !Published(PhaseOf(s, c))))
  }

  lemma BakeryMoves(b: B.State, step: B.Step, b': B.State)
    requires B.Inv(b) && B.Next(b, step, b')
    ensures B.Inv(b') && Moved(b, if step.Finish? then Some(step.n) else None, b')
  {
    B.StepKeepsFilesMatch(b, step, b');
    B.StepKeepsOrdered(b, step, b');
    forall n | n in b.contenders
      ensures n in b'.contenders && b'.contenders[n].run == b.contenders[n].run
      ensures B.PhaseOf(b, n).InWork? ==> B.PhaseOf(b', n).InWork? || step == B.Finish(n)
    {
      B.StepKeepsContenders(b, step, b', n);
    }
    if step.OnHost? {
      HostKeepsInv(b.host, step.step, b'.host);
      forall r: Run | r.uid < b.host.nextUid && Live(b'.host, r) ensures Live(b.host, r) {
        EndedStaysEnded(b.host, step.step, b'.host, r);
      }
    }
  }

  lemma StepMoves(s: State, step: Step, s': State)
    requires B.Inv(s.bakery) && Next(s, step, s')
    ensures B.Inv(s'.bakery) && Moved(s.bakery, FinishedBy(step), s'.bakery)
  {
    if step.Contend? {
      BakeryMoves(s.bakery, step.step, s'.bakery);
    } else if step.StartReclaim? {
      BakeryMoves(s.bakery, B.Announce(step.n, s.calls[step.c].process, step.own), s'.bakery);
    }
  }

  lemma ActKeepsCalls(s: State, step: Step, s': State)
    requires !step.Contend? && Acts(s, step, s')
    ensures forall c :: c in s.calls ==>
              && c in s'.calls && s'.calls[c].process == s.calls[c].process
              && (Published(PhaseOf(s, c)) ==> Published(PhaseOf(s', c)))
  {}

  lemma ActMovesOwner(s: State, step: Step, s': State)
    requires !step.Contend? && Acts(s, step, s')
    ensures OwnerNow(s') == OwnerNow(s) || OwnerNow(s').None?
            || (OwnerNow(s).None? && var c := OwnerNow(s').value.token; c in s.calls && !Published(PhaseOf(s, c)))
  {}

  lemma ActEvolves(s: State, step: Step, s': State)
    requires !step.Contend? && Acts(s, step, s')
    ensures Evolved(s, s')
  {
    ActKeepsCalls(s, step, s');
    ActMovesOwner(s, step, s');
  }

  lemma StepEvolves(s: State, step: Step, s': State)
    requires Next(s, step, s')
    ensures Evolved(s, s')
  {
    if !step.Contend? {
      ActEvolves(s, step, s');
    }
  }

  // ---- preservation ----------------------------------------------------------------

  lemma AliveWasAlive(s: State, finished: Option<B.Name>, s': State, c: CallId)
    requires CallsOk(s) && Moved(s.bakery, finished, s'.bakery) && Evolved(s, s') && Alive(s', c) && c in s.calls
    ensures Alive(s, c)
  {}

  lemma ContendKeepsCallsOk(s: State, finished: Option<B.Name>, s': State)
    requires CallsOk(s) && s'.calls == s.calls && Moved(s.bakery, finished, s'.bakery)
    ensures CallsOk(s')
  {}

  /** A call enters the bakery under a name no contender had, and keeps that name. */
  lemma ActKeepsName(s: State, step: Step, s': State, c: CallId)
    requires CallsOk(s) && !step.Contend? && Acts(s, step, s') && Moved(s.bakery, None, s'.bakery)
    requires c in s'.calls
    ensures s'.calls[c].process.uid < s'.bakery.host.nextUid || step.Begin?
    ensures InBakery(PhaseOf(s', c)) ==>
              var n := PhaseOf(s', c).n;
              && n in s'.bakery.contenders && s'.bakery.contenders[n].run == s'.calls[c].process
              && if c in s.calls && InBakery(PhaseOf(s, c)) then n == PhaseOf(s, c).n
                 else step.c == c && n !in s.bakery.contenders
  {}

  lemma ActKeepsCallsOk(s: State, step: Step, s': State)
    requires B.Inv(s.bakery) && CallsOk(s) && !step.Contend? && Acts(s, step, s')
    requires Moved(s.bakery, None, s'.bakery)
    ensures CallsOk(s')
  {
    forall c | c in s'.calls
      ensures s'.calls[c].process.uid < s'.bakery.host.nextUid
      ensures InBakery(PhaseOf(s', c)) ==>
                var n := PhaseOf(s', c).n;
                n in s'.bakery.contenders && s'.bakery.contenders[n].run == s'.calls[c].process
    {
      ActKeepsName(s, step, s', c);
    }
    forall c, d | c in s'.calls && d in s'.calls && c != d && InBakery(PhaseOf(s', c)) && InBakery(PhaseOf(s', d))
      ensures PhaseOf(s', c).n != PhaseOf(s', d).n
    {
      ActKeepsName(s, step, s', c);
      ActKeepsName(s, step, s', d);
    }
  }

  /** Bakery mutual exclusion, for the reclaim section. */
  lemma OneInSection(s: State, c: CallId, d: CallId)
    requires Inv(s) && Alive(s, c) && Alive(s, d)
    requires InBakery(PhaseOf(s, c)) && InBakery(PhaseOf(s, d))
    requires InSection(s, PhaseOf(s, c).n) && InSection(s, PhaseOf(s, d).n)
    ensures c == d
  {
    B.AtMostOneInWork(s.bakery, PhaseOf(s, c).n, PhaseOf(s, d).n);
  }

  /** A known record stays known, and a dead owner stays dead. */
  lemma KnownStays(s: State, finished: Option<B.Name>, s': State, o: Owner)
    requires CallsOk(s) && Moved(s.bakery, finished, s'.bakery) && Evolved(s, s') && Known(s, o)
    ensures Known(s', o) && (Dead(s, o) ==> Dead(s', o))
  {}

  /** Only an owner that has published before is remembered, so no lock ever comes back. */
  lemma OwnerNeverReturns(s: State, s': State, o: Owner)
    requires Evolved(s, s') && Known(s, o) && OwnerNow(s') == Some(o)
    ensures OwnerNow(s) == Some(o)
  {}

  lemma DeadIfStillStays(s: State, finished: Option<B.Name>, s': State, seen: Bytes)
    requires CallsOk(s) && Moved(s.bakery, finished, s'.bakery) && Evolved(s, s') && DeadIfStill(s, seen)
    ensures DeadIfStill(s', seen)
  {
    if seen.owner.Some? {
      KnownStays(s, finished, s', seen.owner.value);
      if OwnerNow(s') == seen.owner {
        OwnerNeverReturns(s, s', seen.owner.value);
      }
    }
  }

  /** A lock changes hands only by its owner's release, by removal of a dead one, or in a hazard. */
  lemma LockLostOnlyByOwnerOrDeath(s: State, step: Step, s': State)
    requires Consistent(s) && !step.Contend? && Acts(s, step, s') && !Hazard(s, step)
    requires s.lock.Some? && s'.lock != s.lock
    ensures s'.lock.None?
    ensures (step.Release? && step.c == s.lock.value.owner.token) || (step.Remove? && Dead(s, s.lock.value.owner))
  {
    if step.Remove? {
      assert PhaseOk(s, PhaseOf(s, step.c));
    }
  }

  lemma ContendKeepsLockOk(s: State, finished: Option<B.Name>, s': State)
    requires Consistent(s) && s'.calls == s.calls && s'.lock == s.lock && Moved(s.bakery, finished, s'.bakery)
    ensures LockOk(s')
  {
    forall c | Alive(s', c) && Critical(PhaseOf(s', c))
      ensures s'.lock.Some? && s'.lock.value.owner.token == c
    {
      AliveWasAlive(s, finished, s', c);
    }
  }

  lemma ActKeepsOwnerKnown(s: State, step: Step, s': State)
    requires HostInv(s.bakery.host) && Consistent(s) && !step.Contend? && Acts(s, step, s')
    requires Moved(s.bakery, None, s'.bakery) && Evolved(s, s')
    ensures KnownIfAny(s', OwnerNow(s'))
  {
    if step.Publish? {
      OwnMarkersAreRight(s.bakery.host, s.calls[step.c].process, step.own);
    } else if OwnerNow(s').Some? {
      KnownStays(s, None, s', OwnerNow(s').value);
    }
  }

  lemma ActKeepsHolder(s: State, step: Step, s': State, c: CallId)
    requires Consistent(s) && !step.Contend? && Acts(s, step, s') && !Hazard(s, step)
    requires Moved(s.bakery, None, s'.bakery) && Evolved(s, s')
    requires Alive(s', c) && Critical(PhaseOf(s', c))
    ensures s'.lock.Some? && s'.lock.value.owner.token == c
  {
    if c in s.calls && Critical(PhaseOf(s, c)) {
      AliveWasAlive(s, None, s', c);
      if s'.lock != s.lock {
        LockLostOnlyByOwnerOrDeath(s, step, s');
      }
    } else {
      BecomesCriticalByPublishing(s, step, s', c);
    }
  }

  lemma BecomesCriticalByPublishing(s: State, step: Step, s': State, c: CallId)
    requires !step.Contend? && Acts(s, step, s') && c in s'.calls && Critical(PhaseOf(s', c))
    requires c in s.calls ==> !Critical(PhaseOf(s, c))
    ensures s'.lock.Some? && s'.lock.value.owner.token == c
  {}

  lemma ActKeepsLockOk(s: State, step: Step, s': State)
    requires HostInv(s.bakery.host) && Consistent(s) && !step.Contend? && Acts(s, step, s') && !Hazard(s, step)
    requires Moved(s.bakery, None, s'.bakery) && Evolved(s, s')
    ensures LockOk(s')
  {
    ActKeepsOwnerKnown(s, step, s');
    forall c | Alive(s', c) && Critical(PhaseOf(s', c))
      ensures s'.lock.Some? && s'.lock.value.owner.token == c
    {
      ActKeepsHolder(s, step, s', c);
    }
  }

  /** The caller leaves the section only when it is done there. */
  lemma SectionIsKept(s: State, step: Step, s': State, c: CallId)
    requires Inv(s) && Next(s, step, s') && Moved(s.bakery, FinishedBy(step), s'.bakery)
    requires Alive(s, c) && Alive(s', c) && (PhaseOf(s, c).Rechecked? || PhaseOf(s, c).Matched?)
    ensures InSection(s', PhaseOf(s, c).n)
  {
    var n := PhaseOf(s, c).n;
    assert PhaseOk(s, PhaseOf(s, c)) && s.bakery.contenders[n].run == s.calls[c].process;
    if FinishedBy(step).Some? {
      assert PhaseOf(s, step.c) == Cleared(step.step.n) && step.c != c;
    }
    assert FinishedBy(step) != Some(n);
  }

  /** Inside the section nobody else can take away the dead lock that was re-read. */
  lemma SectionStays(s: State, step: Step, s': State, c: CallId)
    requires Inv(s) && Next(s, step, s') && !Hazard(s, step) && Moved(s.bakery, FinishedBy(step), s'.bakery)
    requires Alive(s, c) && Alive(s', c) && s'.calls[c] == s.calls[c]
    requires PhaseOf(s, c).Rechecked? || PhaseOf(s, c).Matched?
    ensures InSection(s', PhaseOf(s, c).n)
    ensures OwnerNow(s).Some? && Dead(s, OwnerNow(s).value) ==> OwnerNow(s') == OwnerNow(s)
  {
    SectionIsKept(s, step, s', c);
    if !step.Contend? && s.lock.Some? && s'.lock != s.lock {
      LockLostOnlyByOwnerOrDeath(s, step, s');
      if step.Remove? {
        assert PhaseOk(s, PhaseOf(s, c)) && PhaseOk(s, PhaseOf(s, step.c));
        OneInSection(s, c, step.c);
      }
    }
  }

  /** Somebody else's step leaves the phase of `c` justified. */
  lemma OthersKeepPhase(s: State, finished: Option<B.Name>, s': State, c: CallId)
    requires Consistent(s) && Moved(s.bakery, finished, s'.bakery) && Evolved(s, s')
    requires Alive(s, c) && Alive(s', c) && PhaseOf(s', c) == PhaseOf(s, c)
    requires PhaseOf(s, c).Rechecked? || PhaseOf(s, c).Matched? ==>
               && InSection(s', PhaseOf(s, c).n)
               && (OwnerNow(s).Some? && Dead(s, OwnerNow(s).value) ==> OwnerNow(s') == OwnerNow(s))
    ensures PhaseOk(s', PhaseOf(s, c))
  {
    var p := PhaseOf(s, c);
    assert PhaseOk(s, p);
    match p
    case SawOwner(o) =>
      if o.Some? { KnownStays(s, finished, s', o.value); }
    case Observed(seen) =>
      if seen.owner.Some? { KnownStays(s, finished, s', seen.owner.value); }
    case Suspects(seen, suspect) =>
      if suspect.Some? { KnownStays(s, finished, s', suspect.value); }
      if seen.owner.Some? {
        KnownStays(s, finished, s', seen.owner.value);
        if OwnerNow(s') == seen.owner { OwnerNeverReturns(s, s', seen.owner.value); }
      }
    case Condemned(seen) => DeadIfStillStays(s, finished, s', seen);
    case Reclaiming(n, seen) => DeadIfStillStays(s, finished, s', seen);
    case Rechecked(n, seen, o) => DeadIfStillStays(s, finished, s', seen);
    case Matched(n, seen) => DeadIfStillStays(s, finished, s', seen);
    case _ =>
  }

  lemma CondemnedIsDead(s: State, c: CallId, probe: Reading, s': State)
    requires HostInv(s.bakery.host) && Consistent(s) && Acts(s, Condemn(c, probe), s') && !Hazard(s, Condemn(c, probe))
    ensures DeadIfStill(s, PhaseOf(s, c).seen)
  {
    assert PhaseOk(s, PhaseOf(s, c));
    match PhaseOf(s, c).suspect
    case None =>
    case Some(o) =>
      if Live(s.bakery.host, s.calls[o.token].process) {
        DirectoryLockVerdictOnLiveRun(s.bakery.host, s.calls[o.token].process, o.markers, probe);
      }
  }

  /** Reading the lock remembers only an owner that is there, and a condemned one only if dead. */
  lemma ObserverKeepsPhase(s: State, step: Step, s': State)
    requires step.ReadOwner? || step.ReadStamp? || step.ReadSuspect? || step.Condemn?
    requires HostInv(s.bakery.host) && Consistent(s) && Acts(s, step, s') && !Hazard(s, step)
    ensures PhaseOk(s', PhaseOf(s', step.c))
  {
    assert PhaseOk(s, PhaseOf(s, step.c));
    if step.Condemn? {
      CondemnedIsDead(s, step.c, step.probe, s');
    }
  }

  lemma ReclaimerKeepsPhase(s: State, step: Step, s': State)
    requires step.StartReclaim? || step.RecheckOwner? || step.RecheckStamp?
    requires Consistent(s) && Acts(s, step, s') && Moved(s.bakery, None, s'.bakery) && Evolved(s, s')
    ensures PhaseOk(s', PhaseOf(s', step.c))
  {
    assert PhaseOk(s, PhaseOf(s, step.c));
    DeadIfStillStays(s, None, s', PhaseOf(s, step.c).seen);
  }

  lemma OwnStepKeepsPhase(s: State, step: Step, s': State)
    requires HostInv(s.bakery.host) && Consistent(s) && !step.Contend? && Acts(s, step, s') && !Hazard(s, step)
    requires Moved(s.bakery, None, s'.bakery) && Evolved(s, s')
    ensures PhaseOk(s', PhaseOf(s', step.c))
  {
    if step.ReadOwner? || step.ReadStamp? || step.ReadSuspect? || step.Condemn? {
      ObserverKeepsPhase(s, step, s');
    } else if step.StartReclaim? || step.RecheckOwner? || step.RecheckStamp? {
      ReclaimerKeepsPhase(s, step, s');
    }
  }

  lemma OtherCallUntouched(s: State, step: Step, s': State, c: CallId)
    requires Next(s, step, s') && c in s.calls && (step.Contend? || c != step.c)
    ensures c in s'.calls && s'.calls[c] == s.calls[c]
  {}

  lemma StepKeepsPhasesOk(s: State, step: Step, s': State)
    requires Inv(s) && Next(s, step, s') && !Hazard(s, step)
    requires Moved(s.bakery, FinishedBy(step), s'.bakery) && Evolved(s, s')
    ensures PhasesOk(s')
  {
    forall c | Alive(s', c) ensures PhaseOk(s', PhaseOf(s', c)) {
      if c == step.c && !step.Contend? {
        OwnStepKeepsPhase(s, step, s');
      } else {
        AliveWasAlive(s, FinishedBy(step), s', c);
        OtherCallUntouched(s, step, s', c);
        if PhaseOf(s, c).Rechecked? || PhaseOf(s, c).Matched? {
          SectionStays(s, step, s', c);
        }
        OthersKeepPhase(s, FinishedBy(step), s', c);
      }
    }
  }

  lemma StepKeepsInv(s: State, step: Step, s': State)
    requires Inv(s) && Next(s, step, s') && !Hazard(s, step)
    ensures Inv(s')
  {
    StepMoves(s, step, s');
    StepEvolves(s, step, s');
    if step.Contend? {
      ContendKeepsCallsOk(s, FinishedBy(step), s');
      ContendKeepsLockOk(s, FinishedBy(step), s');
    } else {
      ActKeepsCallsOk(s, step, s');
      ActKeepsLockOk(s, step, s');
    }
    StepKeepsPhasesOk(s, step, s');
  }

  // ---- runs --------------------------------------------------------------------------

  datatype History = Start(now: State) | Then(past: History, step: Step, now: State)

  ghost predicate IsHistory(h: History) {
    match h
    case Start(s) => Init(s)
    case Then(past, step, now) => IsHistory(past) && Next(past.now, step, now)
  }

  /** No ownerless observation ever removed a lock published meanwhile, and no live owner was condemned. */
  ghost predicate NoHazard(h: History) {
    h.Then? ==> NoHazard(h.past) && !Hazard(h.past.now, h.step)
  }

  lemma {:induction false} HistoryKeepsInv(h: History)
    requires IsHistory(h) && NoHazard(h)
    ensures Inv(h.now)
  {
    if h.Then? {
      HistoryKeepsInv(h.past);
      StepKeepsInv(h.past.now, h.step, h.now);
    }
  }

  /** At most one live caller is between its successful rename and its own release. */
  lemma MutualExclusion(h: History, c: CallId, d: CallId)
    requires IsHistory(h) && NoHazard(h)
    requires Alive(h.now, c) && Alive(h.now, d) && Critical(PhaseOf(h.now, c)) && Critical(PhaseOf(h.now, d))
    ensures c == d
  {
    HistoryKeepsInv(h);
  }

  /** A live holder's lock is removed by that holder only. */
  lemma LiveHolderKeepsLock(h: History, step: Step, s': State, c: CallId)
    requires IsHistory(h) && NoHazard(h) && Next(h.now, step, s') && !Hazard(h.now, step)
    requires Alive(h.now, c) && Critical(PhaseOf(h.now, c))
    ensures h.now.lock.Some? && h.now.lock.value.owner.token == c
    ensures s'.lock == h.now.lock || (step.Release? && step.c == c)
  {
    HistoryKeepsInv(h);
    if !step.Contend? && s'.lock != h.now.lock {
      LockLostOnlyByOwnerOrDeath(h.now, step, s');
    }
  }

  /** A reclaimer that observed the owner `o` removes the lock of `o`, which is dead, and no successor's. */
  lemma ReclaimTakesOnlyTheObserved(h: History, c: CallId, s': State, o: Owner)
    requires IsHistory(h) && NoHazard(h) && Next(h.now, Remove(c), s')
    requires PhaseOf(h.now, c).seen.owner == Some(o)
    ensures h.now.lock.Some? && h.now.lock.value.owner == o && Dead(h.now, o)
  {
    HistoryKeepsInv(h);
    assert PhaseOk(h.now, PhaseOf(h.now, c));
  }

  /** A removal that hits a live caller's lock had an observation without an owner. */
  lemma RemovalOfLiveLockIsOwnerless(h: History, c: CallId, s': State)
    requires IsHistory(h) && NoHazard(h) && Next(h.now, Remove(c), s')
    requires h.now.lock.Some? && Alive(h.now, h.now.lock.value.owner.token)
    ensures PhaseOf(h.now, c).seen.owner.None?
  {
    if PhaseOf(h.now, c).seen.owner.Some? {
      ReclaimTakesOnlyTheObserved(h, c, s', PhaseOf(h.now, c).seen.owner.value);
    }
  }

  /** And a caller gives up on a live owner if and only if its signal to that owner is refused. */
  lemma LiveOwnerCondemnedIffRefused(h: History, c: CallId, probe: Reading, o: Owner)
    requires IsHistory(h) && NoHazard(h) && Alive(h.now, c) && PhaseOf(h.now, c).Suspects?
    requires PhaseOf(h.now, c).suspect == Some(o) && Alive(h.now, o.token) && Honest(h.now.bakery.host, o.pid, probe)
    ensures (exists s' :: Next(h.now, Condemn(c, probe), s')) <==> probe.signal.NotPermitted?
  {
    HistoryKeepsInv(h);
    assert PhaseOk(h.now, PhaseOf(h.now, c));
    DirectoryLockVerdictOnLiveRun(h.now.bakery.host, h.now.calls[o.token].process, o.markers, probe);
    if probe.signal.NotPermitted? {
      assert Next(h.now, Condemn(c, probe), At(h.now, c, Condemned(PhaseOf(h.now, c).seen)));
    }
  }
}
