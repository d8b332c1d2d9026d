/**
 * `withCreationTransaction`, seen from outside: any number of processes reserve a role name and
 * an identity name, run a body, roll it back if it throws, and release both names.
 *
 * The creation lock is `withFileLock`: `DirectoryLock.MutualExclusion` is why at most one live
 * process is between `Acquire` and its way out, and why a dead holder does not keep it.
 * Reservation files carry, besides their bytes, who wrote them, for the proofs to speak of.
 */
module Creation {
  import opened Options

  type Id = nat

  /** How a call ended, with what it could not do. */
  datatype How =
    | Succeeded
    | RolledBack
    | Conflict                       // a name was taken, or the lock could not be had
    | IdentityWriteFailed(left: bool)      // `left`: the failed write still made a file
    | RoleWriteFailed(left: bool)
    | RoleReleaseFailed
    | IdentityReleaseFailed(ok: bool)      // swallowed by the original

  datatype Phase =
    | Waiting
    | Locked                          // in the lock, nothing checked yet
    | RoleFree                        // the role name was free
    | BothFree                        // and the identity too
    | IdentityTaken                   // identity file written
    | Reserved                        // both files written, lock not yet released
    | InBody
    | RollingBack
    | ReleasingRole(ok: bool)
    | ReleasingIdentity(ok: bool)
    | Ended(how: How)

  datatype Transaction = Transaction(role: string, identity: string, phase: Phase)

  datatype State = State(
    txs: map<Id, Transaction>, dead: set<Id>, lock: Option<Id>,
    roles: map<string, Id>, identities: map<string, Id>)

  datatype Step =
    | Start(t: Id, role: string, identity: string)
    | Die(t: Id)
    | Acquire(t: Id)
    | GiveUp(t: Id)
    | CheckRole(t: Id)
    | CheckIdentity(t: Id)
    | TakeIdentity(t: Id)
    | FailIdentity(t: Id, left: bool)
    | TakeRole(t: Id)
    | FailRole(t: Id, left: bool)
    | Unlock(t: Id)
    | EndBody(t: Id, ok: bool)
    | EndRollback(t: Id)
    | ReleaseRole(t: Id)
    | FailReleaseRole(t: Id)
    | ReleaseIdentity(t: Id)
    | FailReleaseIdentity(t: Id)

  // ---- the step relation -------------------------------------------------------------------

  predicate Alive(s: State, t: Id) {
    t in s.txs && t !in s.dead
  }

  function PhaseOf(s: State, t: Id): Phase
    requires t in s.txs
  {
    s.txs[t].phase
  }

  function At(s: State, t: Id, phase: Phase): State
    requires t in s.txs
  {
    s.(txs := s.txs[t := s.txs[t].(phase := phase)])
  }

  /** Out of the lock, and out of the call. */
  function Thrown(s: State, t: Id, how: How): State
    requires t in s.txs
  {
    At(s.(lock := None), t, Ended(how))
  }

  function WithRole(s: State, t: Id): State
    requires t in s.txs
  {
    s.(roles := s.roles[s.txs[t].role := t])
  }

  function WithIdentity(s: State, t: Id): State
    requires t in s.txs
  {
    s.(identities := s.identities[s.txs[t].identity := t])
  }

  /** The end of a call whose body went as `ok` says. */
  function Verdict(ok: bool): How {
    if ok then Succeeded else RolledBack
  }

  predicate Next(s: State, step: Step, s': State) {
    match step
    case Start(t, role, identity) =>
      t !in s.txs && t !in s.dead && s' == s.(txs := s.txs[t := Transaction(role, identity, Waiting)])
    case Die(t) => Alive(s, t) && s' == s.(dead := s.dead + {t})
    case _ => Alive(s, step.t) && Acts(s, step, s')
  }

  predicate Acts(s: State, step: Step, s': State)
    requires Alive(s, step.t)
  {
    var phase := PhaseOf(s, step.t);
    match step
    case Acquire(t) =>
      phase.Waiting? && (s.lock.None? || s.lock.value in s.dead) && s' == At(s.(lock := Some(t)), t, Locked)
    case GiveUp(t) =>
      phase.Waiting? && s' == At(s, t, Ended(Conflict))
    case CheckRole(t) =>
      phase.Locked? && s' == if s.txs[t].role in s.roles then Thrown(s, t, Conflict) else At(s, t, RoleFree)
    case CheckIdentity(t) =>
      && phase.RoleFree?
      && s' == if s.txs[t].identity in s.identities then Thrown(s, t, Conflict) else At(s, t, BothFree)
    case TakeIdentity(t) =>
      phase.BothFree? && s' == At(WithIdentity(s, t), t, IdentityTaken)
    case FailIdentity(t, left) =>
      phase.BothFree? && s' == Thrown(if left then WithIdentity(s, t) else s, t, IdentityWriteFailed(left))
    case TakeRole(t) =>
      phase.IdentityTaken? && s' == At(WithRole(s, t), t, Reserved)
    case FailRole(t, left) =>
      phase.IdentityTaken? && s' == Thrown(if left then WithRole(s, t) else s, t, RoleWriteFailed(left))
    case Unlock(t) =>
      phase.Reserved? && s' == At(s.(lock := None), t, InBody)
    case EndBody(t, ok) =>
      phase.InBody? && s' == At(s, t, if ok then ReleasingRole(true) else RollingBack)
    case EndRollback(t) =>
      phase.RollingBack? && s' == At(s, t, ReleasingRole(false))
    case ReleaseRole(t) =>
      phase.ReleasingRole? && s' == At(s.(roles := s.roles - {s.txs[t].role}), t, ReleasingIdentity(phase.ok))
    case FailReleaseRole(t) =>                // inside `try` a throw still rolls back
      phase.ReleasingRole? && s' == At(s, t, if phase.ok then RollingBack else Ended(RoleReleaseFailed))
    case ReleaseIdentity(t) =>
      && phase.ReleasingIdentity?
      && s' == At(s.(identities := s.identities - {s.txs[t].identity}), t, Ended(Verdict(phase.ok)))
    case FailReleaseIdentity(t) =>
      phase.ReleasingIdentity? && s' == At(s, t, Ended(IdentityReleaseFailed(phase.ok)))
    case _ => false
  }

  predicate Init(s: State) {
    s == State(map[], {}, None, map[], map[])
  }

  // ---- the invariant -------------------------------------------------------------------------

  predicate InLock(p: Phase) {
    p.Locked? || p.RoleFree? || p.BothFree? || p.IdentityTaken? || p.Reserved?
  }

  predicate HoldsRole(p: Phase) {
    match p
    case Reserved => true
    case InBody => true
    case RollingBack => true
    case ReleasingRole(_) => true
    case Ended(how) => how.RoleReleaseFailed? || how == RoleWriteFailed(true)
    case _ => false
  }

  predicate HoldsIdentity(p: Phase) {
    match p
    case IdentityTaken => true
    case ReleasingIdentity(_) => true
    case Ended(how) => how.RoleReleaseFailed? || how.RoleWriteFailed? || how == IdentityWriteFailed(true) || how.IdentityReleaseFailed?
    case _ => HoldsRole(p)
  }

  ghost predicate RolesOk(s: State) {
    && (forall t: Id :: t in s.txs && HoldsRole(PhaseOf(s, t)) ==>
          s.txs[t].role in s.roles && s.roles[s.txs[t].role] == t)
    && (forall r :: r in s.roles ==>
          s.roles[r] in s.txs && s.txs[s.roles[r]].role == r && HoldsRole(PhaseOf(s, s.roles[r])))
  }

  ghost predicate IdentitiesOk(s: State) {
    && (forall t: Id :: t in s.txs && HoldsIdentity(PhaseOf(s, t)) ==>
          s.txs[t].identity in s.identities && s.identities[s.txs[t].identity] == t)
    && (forall i :: i in s.identities ==>
          s.identities[i] in s.txs && s.txs[s.identities[i]].identity == i && HoldsIdentity(PhaseOf(s, s.identities[i])))
  }

  ghost predicate LockOk(s: State) {
    forall t: Id :: Alive(s, t) && InLock(PhaseOf(s, t)) ==> s.lock == Some(t) && Unclaimed(s, t)
  }

  /** The reservation files are exactly those of the calls whose phase says so. */
  ghost predicate Inv(s: State) {
    RolesOk(s) && IdentitiesOk(s) && LockOk(s)
  }

  /** What a call in the lock has checked is still so. */
  predicate Unclaimed(s: State, t: Id)
    requires t in s.txs
  {
    && (PhaseOf(s, t).RoleFree? || PhaseOf(s, t).BothFree? || PhaseOf(s, t).IdentityTaken? ==> s.txs[t].role !in s.roles)
    && (PhaseOf(s, t).BothFree? ==> s.txs[t].identity !in s.identities)
  }

  /** Nothing but call `t` is different, and its names are the same. */
  ghost predicate OnlyCall(s: State, t: Id, s': State) {
    && t in s'.txs
    && (forall u: Id :: u != t ==> (u in s'.txs <==> u in s.txs) && (u in s.txs ==> s'.txs[u] == s.txs[u]))
    && (t in s.txs ==> s'.txs[t].role == s.txs[t].role && s'.txs[t].identity == s.txs[t].identity)
  }

  /** The reservations of one kind after `t` kept, gained or lost the one called `name`. */
  predicate Reservations(before: map<string, Id>, after: map<string, Id>, name: string, t: Id, held: bool, holds: bool) {
    if held == holds then after == before
    else if holds then name !in before && after == before[name := t]
    else after == before - {name}
  }

  lemma StepIsLocal(s: State, step: Step, s': State)
    requires Next(s, step, s')
    ensures OnlyCall(s, step.t, s')
  {}

  lemma StepMovesRole(s: State, step: Step, s': State)
    requires step.t in s.txs && (step.TakeRole? || step.FailRole?) ==> Unclaimed(s, step.t)
    requires Next(s, step, s')
    ensures Reservations(s.roles, s'.roles, s'.txs[step.t].role, step.t,
                         step.t in s.txs && HoldsRole(PhaseOf(s, step.t)), HoldsRole(PhaseOf(s', step.t)))
  {}

  lemma StepMovesIdentity(s: State, step: Step, s': State)
    requires step.t in s.txs && (step.TakeIdentity? || step.FailIdentity?) ==> Unclaimed(s, step.t)
    requires Next(s, step, s')
    ensures Reservations(s.identities, s'.identities, s'.txs[step.t].identity, step.t,
                         step.t in s.txs && HoldsIdentity(PhaseOf(s, step.t)), HoldsIdentity(PhaseOf(s', step.t)))
  {}

  lemma MoveKeepsRoles(s: State, t: Id, s': State)
    requires RolesOk(s) && OnlyCall(s, t, s')
    requires Reservations(s.roles, s'.roles, s'.txs[t].role, t,
                          t in s.txs && HoldsRole(PhaseOf(s, t)), HoldsRole(PhaseOf(s', t)))
    ensures RolesOk(s')
  {}

  lemma MoveKeepsIdentities(s: State, t: Id, s': State)
    requires IdentitiesOk(s) && OnlyCall(s, t, s')
    requires Reservations(s.identities, s'.identities, s'.txs[t].identity, t,
                          t in s.txs && HoldsIdentity(PhaseOf(s, t)), HoldsIdentity(PhaseOf(s', t)))
    ensures IdentitiesOk(s')
  {}

  /** Only the holder of the lock adds reservations, so what it has checked stays so. */
  lemma StepKeepsLock(s: State, step: Step, s': State)
    requires LockOk(s) && Next(s, step, s')
    ensures LockOk(s')
  {
    forall t: Id | Alive(s', t) && InLock(PhaseOf(s', t)) ensures s'.lock == Some(t) && Unclaimed(s', t) {
      if t != step.t {
        StepIsLocal(s, step, s');
        assert Alive(s, t) && InLock(PhaseOf(s, t)) && s.lock == Some(t) && Unclaimed(s, t);
        OthersKeepOut(s, step, s', t);
      } else {
        assert t in s.txs && InLock(PhaseOf(s, t)) && Alive(s, t) ==> s.lock == Some(t) && Unclaimed(s, t);
      }
    }
  }

  /** While `t` is alive in the lock, others neither take the lock nor add reservations. */
  lemma OthersKeepOut(s: State, step: Step, s': State, t: Id)
    requires LockOk(s) && Next(s, step, s') && step.t != t && Alive(s, t) && InLock(PhaseOf(s, t))
    ensures s'.lock == s.lock && s'.roles.Keys <= s.roles.Keys && s'.identities.Keys <= s.identities.Keys
  {
    assert s.lock == Some(t);
    assert Alive(s, step.t) && InLock(PhaseOf(s, step.t)) ==> s.lock == Some(step.t);
  }

  lemma StepKeepsInv(s: State, step: Step, s': State)
    requires Inv(s) && Next(s, step, s')
    ensures Inv(s')
  {
    StepIsLocal(s, step, s');
    assert step.TakeRole? || step.FailRole? || step.TakeIdentity? || step.FailIdentity? ==>
      Alive(s, step.t) && InLock(PhaseOf(s, step.t));
    StepMovesRole(s, step, s');
    StepMovesIdentity(s, step, s');
    MoveKeepsRoles(s, step.t, s');
    MoveKeepsIdentities(s, step.t, s');
    StepKeepsLock(s, step, s');
  }

  datatype History = Begin(now: State) | Then(past: History, step: Step, now: State)

  ghost predicate IsHistory(h: History) {
    match h
    case Begin(s) => Init(s)
    case Then(past, step, now) => IsHistory(past) && Next(past.now, step, now)
  }

  lemma {:induction false} HistoryKeepsInv(h: History)
    requires IsHistory(h)
    ensures Inv(h.now)
  {
    if h.Then? {
      HistoryKeepsInv(h.past);
      StepKeepsInv(h.past.now, h.step, h.now);
    }
  }

  /**
   * No two calls hold the same role name, or the same identity, at once: not in their bodies, and
   * not while one of them still rolls back or releases.
   */
  lemma HoldersExclude(h: History, t: Id, u: Id)
    requires IsHistory(h) && t in h.now.txs && u in h.now.txs && t != u
    ensures HoldsRole(PhaseOf(h.now, t)) && HoldsRole(PhaseOf(h.now, u)) ==> h.now.txs[t].role != h.now.txs[u].role
    ensures HoldsIdentity(PhaseOf(h.now, t)) && HoldsIdentity(PhaseOf(h.now, u)) ==>
              h.now.txs[t].identity != h.now.txs[u].identity
  {
    HistoryKeepsInv(h);
  }

  /** No reservation file in the state was written by `t`. */
  ghost predicate LeftNothing(s: State, t: Id) {
    t !in s.roles.Values && t !in s.identities.Values
  }

  /**
   * A step of `t` that costs a name: writing the role file throws, a throw leaves the identity file
   * behind, releasing the identity throws, or releasing the role throws when there is no rollback
   * left to try again.
   */
  predicate Costly(s: State, step: Step, t: Id) {
    && step.t == t
    && match step
       case FailRole(_, _) => true
       case FailIdentity(_, left) => left
       case FailReleaseIdentity(_) => true
       case FailReleaseRole(_) => t in s.txs && PhaseOf(s, t) == ReleasingRole(false)
       case _ => false
  }

  ghost predicate EverCostly(h: History, t: Id) {
    h.Then? && (EverCostly(h.past, t) || Costly(h.past.now, h.step, t))
  }

  predicate EndedBadly(s: State, t: Id) {
    && t in s.txs && PhaseOf(s, t).Ended?
    && var how := PhaseOf(s, t).how;
       how.RoleWriteFailed? || how == IdentityWriteFailed(true) || how.IdentityReleaseFailed? || how.RoleReleaseFailed?
  }

  lemma StepEndsBadlyIffCostly(s: State, step: Step, s': State, t: Id)
    requires Next(s, step, s')
    ensures EndedBadly(s', t) <==> EndedBadly(s, t) || Costly(s, step, t)
  {
    if step.t != t {
      StepIsLocal(s, step, s');
    }
  }

  lemma {:induction false} EndsBadlyIffCostly(h: History, t: Id)
    requires IsHistory(h)
    ensures EndedBadly(h.now, t) <==> EverCostly(h, t)
  {
    if h.Then? {
      EndsBadlyIffCostly(h.past, t);
      StepEndsBadlyIffCostly(h.past.now, h.step, h.now, t);
    }
  }

  /**
   * When a call that has ended keeps a name from being used again, exactly: when one of its steps
   * was costly.  In particular a role file that cannot be written leaks the identity.
   */
  lemma NamesAreFreeIff(h: History, t: Id)
    requires IsHistory(h) && t in h.now.txs && PhaseOf(h.now, t).Ended?
    ensures LeftNothing(h.now, t) <==> !EverCostly(h, t)
  {
    HistoryKeepsInv(h);
    EndsBadlyIffCostly(h, t);
    var s := h.now;
    if HoldsRole(PhaseOf(s, t)) {
      assert s.roles[s.txs[t].role] in s.roles.Values;
    }
    if HoldsIdentity(PhaseOf(s, t)) {
      assert s.identities[s.txs[t].identity] in s.identities.Values;
    }
  }

  // ---- what a call comes to --------------------------------------------------------------------

  ghost predicate Took(h: History, step: Step) {
    h.Then? && (h.step == step || Took(h.past, step))
  }

  /** Neither the body of `t` has ended nor anything after it. */
  ghost predicate BodyNotEnded(h: History, t: Id) {
    && !Took(h, EndBody(t, true)) && !Took(h, EndBody(t, false))
    && !Took(h, EndRollback(t)) && !Took(h, ReleaseRole(t)) && !Took(h, FailReleaseRole(t))
  }

  /** The body went well, and so did everything since. */
  ghost predicate AllWell(h: History, t: Id) {
    && Took(h, EndBody(t, true)) && !Took(h, EndBody(t, false))
    && !Took(h, EndRollback(t)) && !Took(h, FailReleaseRole(t))
  }

  /** The body threw, or went well and its role could not be released. */
  ghost predicate Threw(h: History, t: Id) {
    Took(h, EndBody(t, false)) || (Took(h, EndBody(t, true)) && Took(h, FailReleaseRole(t)))
  }

  /** What the steps of `t` have been, by its phase. */
  ghost predicate Story(h: History, t: Id) {
    if t !in h.now.txs then BodyNotEnded(h, t)
    else match PhaseOf(h.now, t)
         case RollingBack => Threw(h, t) && !Took(h, EndRollback(t))
         case ReleasingRole(ok) => if ok then AllWell(h, t) else Threw(h, t) && Took(h, EndRollback(t))
         case ReleasingIdentity(ok) => if ok then AllWell(h, t) else Threw(h, t) && Took(h, EndRollback(t))
         case Ended(Succeeded) => AllWell(h, t)
         case Ended(IdentityReleaseFailed(true)) => AllWell(h, t)
         case Ended(RolledBack) => Threw(h, t) && Took(h, EndRollback(t))
         case Ended(IdentityReleaseFailed(false)) => Threw(h, t) && Took(h, EndRollback(t))
         case Ended(RoleReleaseFailed) => Threw(h, t) && Took(h, EndRollback(t))
         case _ => BodyNotEnded(h, t)
  }

  lemma StepTellsStory(h: History, t: Id)
    requires h.Then? && Next(h.past.now, h.step, h.now) && Story(h.past, t)
    ensures Story(h, t)
  {
    if h.step.t != t {
      StepIsLocal(h.past.now, h.step, h.now);
    }
  }

  lemma {:induction false} HistoryTellsStory(h: History, t: Id)
    requires IsHistory(h)
    ensures Story(h, t)
  {
    if h.Then? {
      HistoryTellsStory(h.past, t);
      StepTellsStory(h, t);
    }
  }

  /**
   * A call that has ended was rolled back if and only if its body threw or, after that went well,
   * its role could not be released; and it returned the result of its body if and only if that
   * went well and nothing was rolled back.
   */
  lemma OutcomeIff(h: History, t: Id)
    requires IsHistory(h) && t in h.now.txs && PhaseOf(h.now, t).Ended?
    ensures Took(h, EndRollback(t)) <==>
            Took(h, EndBody(t, false)) || (Took(h, EndBody(t, true)) && Took(h, FailReleaseRole(t)))
    ensures PhaseOf(h.now, t).how in {Succeeded, IdentityReleaseFailed(true)} <==>
            Took(h, EndBody(t, true)) && !Took(h, EndRollback(t))
  {
    HistoryTellsStory(h, t);
  }

  /** `h'` goes on from `h` by steps of `t` alone. */
  ghost predicate Follows(h': History, h: History, t: Id) {
    h' == h || (h'.Then? && h'.step.t == t && Follows(h'.past, h, t))
  }

  predicate LockIsFree(s: State) {
    s.lock.None? || s.lock.value in s.dead
  }

  lemma Taking(h0: History, h: History, t: Id, step: Step, s: State) returns (h': History)
    requires IsHistory(h) && Follows(h, h0, t) && step.t == t && Next(h.now, step, s)
    ensures IsHistory(h') && Follows(h', h0, t) && h'.now == s
  {
    h' := Then(h, step, s);
  }

  /** The last phase counts. */
  lemma AtTwice(s: State, t: Id, p: Phase, p': Phase)
    requires t in s.txs
    ensures At(At(s, t, p), t, p') == At(s, t, p')
  {}

  /** A name that is taken is refused under the lock, and nothing is left of the call. */
  lemma IsRefused(h: History, t: Id) returns (h': History)
    requires IsHistory(h) && Alive(h.now, t) && PhaseOf(h.now, t).Waiting? && LockIsFree(h.now)
    requires h.now.txs[t].role in h.now.roles || h.now.txs[t].identity in h.now.identities
    ensures IsHistory(h') && Follows(h', h, t)
    ensures h'.now == At(h.now.(lock := None), t, Ended(Conflict))
  {
    var s, locked := h.now, h.now.(lock := Some(t));
    var h1 := Taking(h, h, t, Acquire(t), At(locked, t, Locked));
    AtTwice(locked, t, Locked, RoleFree);
    AtTwice(s.(lock := None), t, Locked, Ended(Conflict));
    AtTwice(s.(lock := None), t, RoleFree, Ended(Conflict));
    if s.txs[t].role in s.roles {
      h' := Taking(h, h1, t, CheckRole(t), At(s.(lock := None), t, Ended(Conflict)));
    } else {
      var h2 := Taking(h, h1, t, CheckRole(t), At(locked, t, RoleFree));
      h' := Taking(h, h2, t, CheckIdentity(t), At(s.(lock := None), t, Ended(Conflict)));
    }
  }

  lemma FindsFree(h: History, t: Id) returns (h': History)
    requires IsHistory(h) && Alive(h.now, t) && PhaseOf(h.now, t).Waiting? && LockIsFree(h.now)
    requires h.now.txs[t].role !in h.now.roles && h.now.txs[t].identity !in h.now.identities
    ensures IsHistory(h') && Follows(h', h, t) && h'.now == At(h.now.(lock := Some(t)), t, BothFree)
  {
    var locked := h.now.(lock := Some(t));
    var h1 := Taking(h, h, t, Acquire(t), At(locked, t, Locked));
    AtTwice(locked, t, Locked, RoleFree);
    var h2 := Taking(h, h1, t, CheckRole(t), At(locked, t, RoleFree));
    AtTwice(locked, t, RoleFree, BothFree);
    h' := Taking(h, h2, t, CheckIdentity(t), At(locked, t, BothFree));
  }

  /** What is free is reserved, and the call gets into its body with the lock let go. */
  lemma Reserves(h0: History, h: History, s: State, t: Id) returns (h': History)
    requires IsHistory(h) && Follows(h, h0, t) && Alive(s, t) && h.now == At(s, t, BothFree)
    ensures IsHistory(h') && Follows(h', h0, t)
    ensures h'.now == At(s.(lock := None, roles := s.roles[s.txs[t].role := t],
                            identities := s.identities[s.txs[t].identity := t]), t, InBody)
  {
    var one := s.(identities := s.identities[s.txs[t].identity := t]);
    AtTwice(one, t, BothFree, IdentityTaken);
    var h1 := Taking(h0, h, t, TakeIdentity(t), At(one, t, IdentityTaken));
    var both := one.(roles := s.roles[s.txs[t].role := t]);
    AtTwice(both, t, IdentityTaken, Reserved);
    var h2 := Taking(h0, h1, t, TakeRole(t), At(both, t, Reserved));
    AtTwice(both.(lock := None), t, Reserved, InBody);
    h' := Taking(h0, h2, t, Unlock(t), At(both.(lock := None), t, InBody));
  }

  /** The body ends as `ok` says, and what it recorded is undone if it threw. */
  lemma EndsBody(h0: History, h: History, s: State, t: Id, ok: bool) returns (h': History)
    requires IsHistory(h) && Follows(h, h0, t) && Alive(s, t) && h.now == At(s, t, InBody)
    ensures IsHistory(h') && Follows(h', h0, t) && h'.now == At(s, t, ReleasingRole(ok))
  {
    if ok {
      AtTwice(s, t, InBody, ReleasingRole(true));
      h' := Taking(h0, h, t, EndBody(t, true), At(s, t, ReleasingRole(true)));
    } else {
      AtTwice(s, t, InBody, RollingBack);
      var h1 := Taking(h0, h, t, EndBody(t, false), At(s, t, RollingBack));
      AtTwice(s, t, RollingBack, ReleasingRole(false));
      h' := Taking(h0, h1, t, EndRollback(t), At(s, t, ReleasingRole(false)));
    }
  }

  lemma ReleasesBoth(h0: History, h: History, s: State, t: Id, ok: bool) returns (h': History)
    requires IsHistory(h) && Follows(h, h0, t) && Alive(s, t) && h.now == At(s, t, ReleasingRole(ok))
    ensures IsHistory(h') && Follows(h', h0, t)
    ensures h'.now == At(s.(roles := s.roles - {s.txs[t].role}, identities := s.identities - {s.txs[t].identity}),
                         t, Ended(if ok then Succeeded else RolledBack))
  {
    var less := s.(roles := s.roles - {s.txs[t].role});
    AtTwice(less, t, ReleasingRole(ok), ReleasingIdentity(ok));
    var h1 := Taking(h0, h, t, ReleaseRole(t), At(less, t, ReleasingIdentity(ok)));
    var none := less.(identities := s.identities - {s.txs[t].identity});
    var end := Ended(if ok then Succeeded else RolledBack);
    AtTwice(none, t, ReleasingIdentity(ok), end);
    h' := Taking(h0, h1, t, ReleaseIdentity(t), At(none, t, end));
  }

  lemma TakenAndGiven(reservations: map<string, Id>, name: string, t: Id)
    requires name !in reservations
    ensures reservations[name := t] - {name} == reservations
  {}

  /**
   * A call whose names are free gets by its own steps into its body and out again, as the body
   * goes, and leaves the reservations as it found them.
   */
  lemma GoesThrough(h: History, t: Id, ok: bool) returns (inside: History, h': History)
    requires IsHistory(h) && Alive(h.now, t) && PhaseOf(h.now, t).Waiting? && LockIsFree(h.now)
    requires h.now.txs[t].role !in h.now.roles && h.now.txs[t].identity !in h.now.identities
    ensures IsHistory(inside) && Follows(inside, h, t)
    ensures t in inside.now.txs && PhaseOf(inside.now, t).InBody? && inside.now.lock.None?
    ensures inside.now.roles == h.now.roles[h.now.txs[t].role := t]
    ensures inside.now.identities == h.now.identities[h.now.txs[t].identity := t]
    ensures IsHistory(h') && Follows(h', inside, t)
    ensures h'.now == At(h.now.(lock := None), t, Ended(if ok then Succeeded else RolledBack))
  {
    var s, x := h.now, h.now.txs[t];
    var free := FindsFree(h, t);
    inside := Reserves(h, free, s.(lock := Some(t)), t);
    var held := s.(lock := None, roles := s.roles[x.role := t], identities := s.identities[x.identity := t]);
    var ended := EndsBody(inside, inside, held, t, ok);
    h' := ReleasesBoth(inside, ended, held, t, ok);
    TakenAndGiven(s.roles, x.role, t);
    TakenAndGiven(s.identities, x.identity, t);
  }

  // ---- a leaked identity -------------------------------------------------------------------------

  lemma Going(h: History, step: Step, s: State) returns (h': History)
    requires IsHistory(h) && Next(h.now, step, s)
    ensures IsHistory(h') && h' == Then(h, step, s)
  {
    h' := Then(h, step, s);
  }

  function Only(role: string, identity: string, phase: Phase): map<Id, Transaction> {
    map[0 := Transaction(role, identity, phase)]
  }

  /** Call 0 finds both names free. */
  lemma FindsBothFree(role: string, identity: string) returns (h: History)
    ensures IsHistory(h)
    ensures h.now == State(Only(role, identity, BothFree), {}, Some(0), map[], map[])
  {
    h := Begin(State(map[], {}, None, map[], map[]));
    h := Going(h, Start(0, role, identity), State(Only(role, identity, Waiting), {}, None, map[], map[]));
    h := Going(h, Acquire(0), State(Only(role, identity, Locked), {}, Some(0), map[], map[]));
    h := Going(h, CheckRole(0), State(Only(role, identity, RoleFree), {}, Some(0), map[], map[]));
    h := Going(h, CheckIdentity(0), State(Only(role, identity, BothFree), {}, Some(0), map[], map[]));
  }

  /** It takes the identity, fails to write its role, and is gone. */
  lemma RoleWriteFails(role: string, identity: string) returns (h: History)
    ensures IsHistory(h)
    ensures h.now == State(Only(role, identity, Ended(RoleWriteFailed(false))), {}, None, map[], map[identity := 0])
  {
    h := FindsBothFree(role, identity);
    h := Going(h, TakeIdentity(0), State(Only(role, identity, IdentityTaken), {}, Some(0), map[], map[identity := 0]));
    h := Going(h, FailRole(0, false),
               State(Only(role, identity, Ended(RoleWriteFailed(false))), {}, None, map[], map[identity := 0]));
  }

  /** With nobody left, a second call for that identity, under whatever role name, gets the lock. */
  lemma SecondCallLocks(role: string, other: string, identity: string) returns (h: History)
    ensures IsHistory(h)
    ensures h.now == State(Only(role, identity, Ended(RoleWriteFailed(false)))[1 := Transaction(other, identity, Locked)],
                           {}, Some(1), map[], map[identity := 0])
  {
    h := RoleWriteFails(role, identity);
    var s := h.now;
    h := Going(h, Start(1, other, identity), s.(txs := s.txs[1 := Transaction(other, identity, Waiting)]));
    h := Going(h, Acquire(1), s.(txs := s.txs[1 := Transaction(other, identity, Locked)], lock := Some(1)));
  }

  /** And it is refused. */
  lemma LeakedIdentityIsRefused(role: string, other: string, identity: string) returns (h: History)
    ensures IsHistory(h) && h.now.lock.None? && h.now.roles == map[]
    ensures h.now.txs == Only(role, identity, Ended(RoleWriteFailed(false)))[1 := Transaction(other, identity, Ended(Conflict))]
  {
    h := SecondCallLocks(role, other, identity);
    var s := h.now;
    h := Going(h, CheckRole(1), s.(txs := s.txs[1 := Transaction(other, identity, RoleFree)]));
    h := Going(h, CheckIdentity(1), s.(txs := s.txs[1 := Transaction(other, identity, Ended(Conflict))], lock := None));
  }
}

/** The inside of a creation transaction: the journal, and the loop that undoes it. */
module CreationRollback {
  type World = map<string, string>

  datatype Undone = Undone(world: World, ok: bool)

  datatype Entry = Entry(stage: string, undo: World -> Undone)

  /** A step of the body with the entry it records, and the only keys either may touch. */
  datatype Act = Act(apply: World -> World, entry: Entry, region: set<string>)

  function Entries(acts: seq<Act>): seq<Entry> {
    seq(|acts|, i requires 0 <= i < |acts| => acts[i].entry)
  }

  /** The world after the steps of the body. */
  function After(acts: seq<Act>, w: World): World {
    if acts == [] then w else acts[|acts| - 1].apply(After(acts[..|acts| - 1], w))
  }

  /** The world after every undo has been attempted, last entry first. */
  function Unwound(journal: seq<Entry>, w: World): World {
    if journal == [] then w
    else Unwound(journal[..|journal| - 1], journal[|journal| - 1].undo(w).world)
  }

  /** The stages whose undo threw, in the order of the attempts. */
  function Failures(journal: seq<Entry>, w: World): seq<string> {
    if journal == [] then []
    else
      var last := journal[|journal| - 1];
      (if last.undo(w).ok then [] else [last.stage]) + Failures(journal[..|journal| - 1], last.undo(w).world)
  }

  /** The world in which the undo of entry `k` is attempted. */
  function WorldFor(journal: seq<Entry>, w: World, k: nat): World
    requires k < |journal|
  {
    if k == |journal| - 1 then w
    else WorldFor(journal[..|journal| - 1], journal[|journal| - 1].undo(w).world, k)
  }

  /** Undoing the last of the first `k + 1` entries leaves the first `k`. */
  lemma OneUndone(journal: seq<Entry>, k: nat, w: World, failures: seq<string>)
    requires k < |journal|
    ensures var undone := journal[k].undo(w);
            && Unwound(journal[..k + 1], w) == Unwound(journal[..k], undone.world)
            && failures + Failures(journal[..k + 1], w)
               == (if undone.ok then failures else failures + [journal[k].stage]) + Failures(journal[..k], undone.world)
  {
    var all := journal[..k + 1];
    assert all != [] && all[|all| - 1] == journal[k] && all[..|all| - 1] == journal[..k];
  }

  class Transaction {
    var world: World
    var journal: seq<Entry>

    constructor (world: World)
      ensures this.world == world && journal == []
    {
      this.world, journal := world, [];
    }

    /** The body, which may throw after any of its steps. */
    method Body(acts: seq<Act>, throwsAfter: nat) returns (ok: bool)
      requires journal == []
      modifies this
      ensures ok <==> |acts| <= throwsAfter
      ensures var done := if ok then acts else acts[..throwsAfter];
              world == After(done, old(world)) && journal == Entries(done)
    {
      for i := 0 to |acts|
        invariant i <= throwsAfter
        invariant world == After(acts[..i], old(world)) && journal == Entries(acts[..i])
      {
        if i == throwsAfter {
          return false;
        }
        assert acts[..i + 1][..i] == acts[..i];
        world := acts[i].apply(world);
        journal := journal + [acts[i].entry];
      }
      assert acts[..|acts|] == acts;
      ok := true;
    }

    /** Every undo is attempted, newest first, and one that throws stops none of the others. */
    method RollBack() returns (failures: seq<string>)
      modifies this`world
      ensures world == Unwound(journal, old(world)) && failures == Failures(journal, old(world))
    {
      var k := |journal|;
      failures := [];
      assert journal[..k] == journal;
      while k > 0
        invariant 0 <= k <= |journal|
        invariant Unwound(journal, old(world)) == Unwound(journal[..k], world)
        invariant Failures(journal, old(world)) == failures + Failures(journal[..k], world)
      {
        k := k - 1;
        OneUndone(journal, k, world, failures);
        var undone := journal[k].undo(world);
        world := undone.world;
        if !undone.ok {
          failures := failures + [journal[k].stage];
        }
      }
    }

    /** A body that throws leaves the world as it was, when its undos invert its steps. */
    method Run(acts: seq<Act>, throwsAfter: nat) returns (ok: bool, failures: seq<string>)
      requires journal == []
      modifies this
      ensures ok <==> |acts| <= throwsAfter
      ensures ok ==> world == After(acts, old(world)) && failures == []
      ensures !ok && Inverts(acts[..throwsAfter], old(world)) ==> world == old(world) && failures == []
    {
      ok := Body(acts, throwsAfter);
      failures := [];
      if !ok {
        ghost var before := old(world);
        failures := RollBack();
        if Inverts(acts[..throwsAfter], before) {
          UnwindingRestores(acts[..throwsAfter], before);
        }
      }
    }
  }

  /** Each undo, in the world its step left, gives back the world its step found. */
  ghost predicate Inverts(acts: seq<Act>, w: World) {
    forall k :: 0 <= k < |acts| ==> UndoesAt(acts, w, k)
  }

  predicate UndoesAt(acts: seq<Act>, w: World, k: nat)
    requires k < |acts|
  {
    acts[k].entry.undo(After(acts[..k + 1], w)) == Undone(After(acts[..k], w), true)
  }

  lemma {:induction false} UnwindingRestores(acts: seq<Act>, w: World)
    requires Inverts(acts, w)
    ensures Unwound(Entries(acts), After(acts, w)) == w && Failures(Entries(acts), After(acts, w)) == []
  {
    if acts != [] {
      var n := |acts| - 1;
      var front := acts[..n];
      forall k | 0 <= k < n ensures UndoesAt(front, w, k) {
        assert UndoesAt(acts, w, k) && front[..k] == acts[..k] && front[..k + 1] == acts[..k + 1];
      }
      UnwindingRestores(front, w);
      assert UndoesAt(acts, w, n) && acts[..n + 1] == acts;
      assert Entries(acts)[..n] == Entries(front);
    }
  }

  // ---- failed undos -------------------------------------------------------------------------------

  predicate Same(a: World, b: World, key: string) {
    (key in a <==> key in b) && (key in a ==> a[key] == b[key])
  }

  predicate Agree(a: World, b: World, keys: set<string>) {
    forall key :: key in keys ==> Same(a, b, key)
  }

  /** Neither the step nor its undo touches a key outside the region. */
  ghost predicate Confined(act: Act) {
    && (forall w: World, key :: key !in act.region ==> Same(act.apply(w), w, key))
    && (forall w: World, key :: key !in act.region ==> Same(act.entry.undo(w).world, w, key))
  }

  /** From wherever the effect of the step on `w` still stands, an undo that succeeds takes it back. */
  ghost predicate TakesBack(act: Act, w: World) {
    forall v: World :: Agree(v, act.apply(w), act.region) && act.entry.undo(v).ok ==>
      Agree(act.entry.undo(v).world, w, act.region)
  }

  /** A body that starts in `w`: every step keeps to its own region, and its undo fits the world it found. */
  ghost predicate Fits(acts: seq<Act>, w: World, k: nat)
    requires k < |acts|
  {
    Confined(acts[k]) && TakesBack(acts[k], After(acts[..k], w))
  }

  ghost predicate Apart(acts: seq<Act>, w: World) {
    && (forall k :: 0 <= k < |acts| ==> Fits(acts, w, k))
    && (forall j, k :: 0 <= j < k < |acts| ==> acts[j].region !! acts[k].region)
  }

  /** Steps elsewhere, forwards or backwards, leave a region alone. */
  lemma {:induction false} ElsewhereUntouched(acts: seq<Act>, w: World, keys: set<string>)
    requires forall k :: 0 <= k < |acts| ==> Confined(acts[k]) && keys !! acts[k].region
    ensures Agree(After(acts, w), w, keys) && Agree(Unwound(Entries(acts), w), w, keys)
  {
    if acts != [] {
      var n := |acts| - 1;
      ElsewhereUntouched(acts[..n], w, keys);
      assert Agree(acts[n].apply(After(acts[..n], w)), After(acts[..n], w), keys);
      assert Agree(acts[n].entry.undo(w).world, w, keys);
      ElsewhereUntouched(acts[..n], acts[n].entry.undo(w).world, keys);
      assert Entries(acts)[..n] == Entries(acts[..n]);
    }
  }

  /** The undo of step `n - 1` in the world `v`. */
  function Back(acts: seq<Act>, v: World, n: nat): World
    requires 0 < n <= |acts|
  {
    acts[n - 1].entry.undo(v).world
  }

  /** The first attempt is the last entry's; the others follow in the world it leaves. */
  lemma UnwindingGoesOn(acts: seq<Act>, v: World, n: nat, k: nat)
    requires k < n <= |acts|
    ensures Unwound(Entries(acts[..n]), v) == Unwound(Entries(acts[..n - 1]), Back(acts, v, n))
    ensures WorldFor(Entries(acts[..n]), v, k) ==
            if k == n - 1 then v else WorldFor(Entries(acts[..n - 1]), Back(acts, v, n), k)
  {
    assert Entries(acts[..n])[..n - 1] == Entries(acts[..n - 1]);
  }

  /** What an undo leaves of a region, its own or another's. */
  lemma OneUndo(acts: seq<Act>, w: World, v: World, n: nat, k: nat)
    requires Apart(acts, w) && k < n <= |acts| && Agree(v, After(acts[..n], w), acts[k].region)
    requires k == n - 1 ==> acts[k].entry.undo(v).ok
    ensures Agree(Back(acts, v, n), After(acts[..n - 1], w), acts[k].region)
  {
    var last, before := acts[n - 1], After(acts[..n - 1], w);
    assert acts[..n][..n - 1] == acts[..n - 1];
    if k < n - 1 {
      assert acts[k].region !! last.region && Fits(acts, w, n - 1);
    } else {
      assert Fits(acts, w, n - 1);
    }
  }

  /** The steps before step `k`, forwards or backwards, leave its region alone. */
  lemma EarlierStepsLeave(acts: seq<Act>, w: World, v: World, k: nat)
    requires Apart(acts, w) && k < |acts|
    ensures Agree(After(acts[..k], w), w, acts[k].region)
    ensures Agree(Unwound(Entries(acts[..k]), v), v, acts[k].region)
  {
    forall j | 0 <= j < k ensures Confined(acts[..k][j]) && acts[k].region !! acts[..k][j].region {
      assert acts[j].region !! acts[k].region && Fits(acts, w, j);
    }
    ElsewhereUntouched(acts[..k], w, acts[k].region);
    ElsewhereUntouched(acts[..k], v, acts[k].region);
  }

  lemma AgreeOn(a: World, b: World, c: World, keys: set<string>)
    requires Agree(a, b, keys) && Agree(b, c, keys)
    ensures Agree(a, c, keys)
  {}

  /** The rollback of the first `n` steps, from a world in which the effect of step `k` still stands. */
  lemma {:induction false} UndoStands(acts: seq<Act>, w: World, v: World, n: nat, k: nat)
    requires Apart(acts, w) && k < n <= |acts| && Agree(v, After(acts[..n], w), acts[k].region)
    requires acts[k].entry.undo(WorldFor(Entries(acts[..n]), v, k)).ok
    ensures Agree(Unwound(Entries(acts[..n]), v), w, acts[k].region)
    decreases n
  {
    UnwindingGoesOn(acts, v, n, k);
    OneUndo(acts, w, v, n, k);
    if k == n - 1 {
      EarlierStepsLeave(acts, w, Back(acts, v, n), k);
      AgreeOn(Back(acts, v, n), After(acts[..k], w), w, acts[k].region);
      AgreeOn(Unwound(Entries(acts[..k]), Back(acts, v, n)), Back(acts, v, n), w, acts[k].region);
    } else {
      UndoStands(acts, w, Back(acts, v, n), n - 1, k);
    }
  }

  /**
   * When the steps keep to regions of their own, every step whose undo succeeded is taken back,
   * whichever other undos threw and whatever those left behind.
   */
  lemma SuccessfulUndosStand(acts: seq<Act>, w: World, v: World, k: nat)
    requires Apart(acts, w) && k < |acts| && Agree(v, After(acts, w), acts[k].region)
    requires acts[k].entry.undo(WorldFor(Entries(acts), v, k)).ok
    ensures Agree(Unwound(Entries(acts), v), w, acts[k].region)
  {
    assert acts[..|acts|] == acts;
    UndoStands(acts, w, v, |acts|, k);
  }

  // ---- files -----------------------------------------------------------------------------------------

  /**
   * `writeRoleFile`: writes a file, and removes it again unless it existed before.  A removal that
   * is `stuck` throws and leaves the file.
   */
  function WriteFile(path: string, contents: string, existed: bool, stuck: bool): Act {
    Act((w: World) => w[path := contents],
        Entry("Agent file " + path, (v: World) => Undone(if existed || stuck then v else v - {path}, !stuck)),
        {path})
  }

  /** The undo of a written file takes the write back exactly when that made the file, or changed nothing. */
  lemma FileIsTakenBackIffNew(path: string, contents: string, w: World)
    ensures TakesBack(WriteFile(path, contents, path in w, false), w) <==> path !in w || w[path] == contents
  {
    var act := WriteFile(path, contents, path in w, false);
    var v := act.apply(w);
    assert path in act.region;
    if path in w && w[path] != contents {
      assert Agree(v, act.apply(w), act.region) && act.entry.undo(v).ok;
      assert !Agree(act.entry.undo(v).world, w, act.region);
    }
  }

  /** A body that makes new files, one after another, of which those in `stuck` cannot be removed. */
  function NewFiles(files: seq<(string, string)>, stuck: set<string>): seq<Act> {
    seq(|files|, i requires 0 <= i < |files| => WriteFile(files[i].0, files[i].1, false, files[i].0 in stuck))
  }

  predicate AllNew(files: seq<(string, string)>, w: World) {
    && (forall i :: 0 <= i < |files| ==> files[i].0 !in w)
    && (forall i, j :: 0 <= i < j < |files| ==> files[i].0 != files[j].0)
  }

  lemma FileIsConfined(path: string, contents: string, existed: bool, stuck: bool)
    ensures Confined(WriteFile(path, contents, existed, stuck))
  {
    var act := WriteFile(path, contents, existed, stuck);
    assert act.region == {path};
  }

  lemma NewFilesAreApart(files: seq<(string, string)>, stuck: set<string>, w: World)
    requires AllNew(files, w)
    ensures Apart(NewFiles(files, stuck), w)
  {
    var acts := NewFiles(files, stuck);
    forall k | 0 <= k < |acts| ensures Fits(acts, w, k) {
      var path := files[k].0;
      FileIsConfined(path, files[k].1, false, path in stuck);
      forall j | 0 <= j < k ensures Confined(acts[..k][j]) && {path} !! acts[..k][j].region {
        FileIsConfined(files[j].0, files[j].1, false, files[j].0 in stuck);
        assert acts[j].region == {files[j].0};
      }
      ElsewhereUntouched(acts[..k], w, {path});
      assert path in {path} && path !in After(acts[..k], w);
    }
    forall j, k | 0 <= j < k < |acts| ensures acts[j].region !! acts[k].region {
      assert acts[j].region == {files[j].0} && acts[k].region == {files[k].0};
    }
  }

  /** After the rollback every new file that could be removed is gone, however many others could not. */
  lemma OnlyStuckFilesRemain(files: seq<(string, string)>, stuck: set<string>, w: World, k: nat)
    requires AllNew(files, w) && k < |files| && files[k].0 !in stuck
    ensures var acts := NewFiles(files, stuck); files[k].0 !in Unwound(Entries(acts), After(acts, w))
  {
    var acts := NewFiles(files, stuck);
    NewFilesAreApart(files, stuck, w);
    SuccessfulUndosStand(acts, w, After(acts, w), k);
    assert files[k].0 in acts[k].region;
  }
}
