/**
 * `withSynchronousFileLock`: a Lamport bakery whose numbers live in one claim
 * file per call, on a host whose processes may die between any two steps.
 *
 * One contender is one call, named by its token, and names are never reused.
 * Listing the directory, reading one claim, replacing one claim and removing
 * one claim are each a single step; a scan is therefore not atomic.  Reading a
 * claim is fused with judging its owner and, on a dead verdict, with removing
 * it: a death verdict stays true and nobody writes a dead contender's path.
 */
module Bakery {
  import opened Incarnation
  import opened Options
  import opened StringOrder

  type Name = string

  const MAX_SAFE_INTEGER: nat := 0x1F_FFFF_FFFF_FFFF

  datatype Claim = Claim(pid: Pid, choosing: bool, ticket: nat, markers: Markers)

  datatype Phase =
    | Choosing                                            // claim written, nothing listed yet
    | Picking(todo: set<Name>, max: nat)                  // reading claims for the ticket
    | Picked(ticket: nat)                                 // ticket computed, not yet written
    | Waiting(ticket: nat)                                // ticket written, between two scans
    | Scanning(ticket: nat, todo: set<Name>, blocked: bool)
    | InWork(ticket: nat)
    | Leaving                                             // in `finally`, claim not yet removed
    | Done

  datatype Contender = Contender(run: Run, markers: Markers, phase: Phase)

  datatype State = State(host: Host, files: map<Name, Claim>, contenders: map<Name, Contender>)

  datatype Step =
    | OnHost(step: HostStep)
    | Announce(n: Name, run: Run, own: Reading)
    | ListForTicket(n: Name)
    | ReadForTicket(n: Name, m: Name, probe: Reading)
    | Choose(n: Name)
    | Publish(n: Name)
    | ListForWait(n: Name)
    | ReadForWait(n: Name, m: Name, probe: Reading)
    | Retry(n: Name)
    | Enter(n: Name)
    | Finish(n: Name)
    | GiveUp(n: Name)
    | Withdraw(n: Name)

  // ---- the step relation ---------------------------------------------------

  predicate Running(s: State, n: Name) {
    n in s.contenders && Live(s.host, s.contenders[n].run)
  }

  function PhaseOf(s: State, n: Name): Phase
    requires n in s.contenders
  {
    s.contenders[n].phase
  }

  function At(s: State, n: Name, phase: Phase): State
    requires n in s.contenders
  {
    s.(contenders := s.contenders[n := s.contenders[n].(phase := phase)])
  }

  function Written(s: State, n: Name, choosing: bool, ticket: nat): State
    requires n in s.contenders
  {
    var c := s.contenders[n];
    s.(files := s.files[n := Claim(c.run.pid, choosing, ticket, c.markers)])
  }

  /** What reading claim `m` yields to `n`: gone, swept because its owner is dead, or its contents. */
  datatype Seen = Missing | Swept | Contents(claim: Claim)

  function Look(s: State, n: Name, m: Name, probe: Reading): Seen {
    if m !in s.files then Missing
    else if m != n && JudgedDead(s.files[m].markers, probe) then Swept
    else Contents(s.files[m])
  }

  function AfterLook(s: State, m: Name, seen: Seen): State {
    if seen.Swept? then s.(files := s.files - {m}) else s
  }

  /** `claim` named `m` goes before ticket `ticket` held by `n`. */
  predicate Precedes(claim: Claim, m: Name, ticket: nat, n: Name) {
    claim.choosing || claim.ticket < ticket || (claim.ticket == ticket && Before(m, n))
  }

  function Max(a: nat, b: nat): nat { if a < b then b else a }

  ghost predicate Next(s: State, step: Step, s': State) {
    match step
    case OnHost(h) =>
      HostNext(s.host, h, s'.host) && s' == s.(host := s'.host)
    case Announce(n, run, own) =>
      && n !in s.contenders && n !in s.files
      && Live(s.host, run) && Honest(s.host, run.pid, own)
      && s' == Written(s.(contenders := s.contenders[n := Contender(run, own.markers, Choosing)]), n, true, 0)
    case ListForTicket(n) =>
      && Running(s, n) && PhaseOf(s, n).Choosing?
      && s' == At(s, n, Picking(s.files.Keys, 0))
    case ReadForTicket(n, m, probe) =>
      && Running(s, n) && PhaseOf(s, n).Picking? && m in PhaseOf(s, n).todo
      && (m in s.files ==> Honest(s.host, s.files[m].pid, probe))
      && var p := PhaseOf(s, n);
         var seen := Look(s, n, m, probe);
         var max := if seen.Contents? then Max(p.max, seen.claim.ticket) else p.max;
         s' == At(AfterLook(s, m, seen), n, Picking(p.todo - {m}, max))
    case Choose(n) =>
      && Running(s, n) && PhaseOf(s, n).Picking? && PhaseOf(s, n).todo == {}
      && PhaseOf(s, n).max + 1 <= MAX_SAFE_INTEGER
      && s' == At(s, n, Picked(PhaseOf(s, n).max + 1))
    case Publish(n) =>
      && Running(s, n) && PhaseOf(s, n).Picked?
      && s' == At(Written(s, n, false, PhaseOf(s, n).ticket), n, Waiting(PhaseOf(s, n).ticket))
    case ListForWait(n) =>
      && Running(s, n) && PhaseOf(s, n).Waiting?
      && s' == At(s, n, Scanning(PhaseOf(s, n).ticket, s.files.Keys, false))
    case ReadForWait(n, m, probe) =>
      && Running(s, n) && PhaseOf(s, n).Scanning? && m in PhaseOf(s, n).todo
      && (m in s.files ==> Honest(s.host, s.files[m].pid, probe))
      && var p := PhaseOf(s, n);
         var seen := Look(s, n, m, probe);
         var blocks := m != n && seen.Contents? && Precedes(seen.claim, m, p.ticket, n);
         s' == At(AfterLook(s, m, seen), n, Scanning(p.ticket, p.todo - {m}, p.blocked || blocks))
    case Retry(n) =>
      && Running(s, n) && PhaseOf(s, n).Scanning? && PhaseOf(s, n).todo == {} && PhaseOf(s, n).blocked
      && s' == At(s, n, Waiting(PhaseOf(s, n).ticket))
    case Enter(n) =>
      && Running(s, n) && PhaseOf(s, n).Scanning? && PhaseOf(s, n).todo == {} && !PhaseOf(s, n).blocked
      && s' == At(s, n, InWork(PhaseOf(s, n).ticket))
    case Finish(n) =>
      && Running(s, n) && PhaseOf(s, n).InWork?
      && s' == At(s, n, Leaving)
    case GiveUp(n) =>                       // timeout, ticket overflow or any throw before `work`
      && Running(s, n) && !PhaseOf(s, n).InWork? && HoldsClaim(PhaseOf(s, n))
      && s' == At(s, n, Leaving)
    case Withdraw(n) =>
      && Running(s, n) && PhaseOf(s, n).Leaving?
      && s' == At(s.(files := s.files - {n}), n, Done)
  }

  ghost predicate Init(s: State) {
    HostInv(s.host) && s.files == map[] && s.contenders == map[]
  }

  // ---- the invariant -------------------------------------------------------

  predicate HoldsClaim(p: Phase) { !p.Done? }

  /** The ticket is in the claim file. */
  predicate TicketWritten(p: Phase) {
    p.Waiting? || p.Scanning? || p.InWork?
  }

  /** The claim file of a contender matches its phase. */
  predicate ClaimMatches(c: Contender, claim: Claim) {
    && claim.pid == c.run.pid && claim.markers == c.markers
    && (c.phase.Choosing? || c.phase.Picking? || c.phase.Picked? ==> claim.choosing && claim.ticket == 0)
    && (TicketWritten(c.phase) ==> !claim.choosing && claim.ticket == c.phase.ticket)
  }

  ghost predicate FilesMatch(s: State) {
    && HostInv(s.host)
    && (forall n :: n in s.contenders ==>
          s.contenders[n].run.uid < s.host.nextUid && RecordedBy(s.contenders[n].markers, s.contenders[n].run))
    && (forall n :: n in s.files ==>
          && n in s.contenders
          && s.files[n].pid == s.contenders[n].run.pid && s.files[n].markers == s.contenders[n].markers)
    && (forall n :: Running(s, n) && HoldsClaim(PhaseOf(s, n)) ==>
          n in s.files && ClaimMatches(s.contenders[n], s.files[n]))
  }

  /** In its current scan `i` is already past `j` without having been blocked. */
  predicate Passed(s: State, i: Name, j: Name)
    requires i in s.contenders
  {
    var p := PhaseOf(s, i);
    p.InWork? || (p.Scanning? && !p.blocked && j !in p.todo)
  }

  /** `j` is bound to come after the contender `i`, whose ticket is `t`. */
  predicate BoundAfter(p: Phase, j: Name, t: nat, i: Name) {
    match p
    case Choosing => true
    case Picking(todo, max) => i in todo || t <= max
    case Leaving => true
    case Done => true
    case _ => t < p.ticket || (t == p.ticket && Before(i, j))
  }

  ghost predicate Ordered(s: State) {
    forall i, j :: i != j && Running(s, i) && Running(s, j) && Passed(s, i, j) ==>
      BoundAfter(PhaseOf(s, j), j, PhaseOf(s, i).ticket, i)
  }

  ghost predicate Inv(s: State) {
    FilesMatch(s) && Ordered(s)
  }

  /** Nobody running now was dead before, so only a dead contender's claim is ever swept. */
  lemma RunningWasRunning(s: State, step: Step, s': State, n: Name)
    requires FilesMatch(s) && Next(s, step, s') && Running(s', n) && n in s.contenders
    ensures Running(s, n) && s.contenders[n].run == s'.contenders[n].run
  {
    if step.OnHost? {
      EndedStaysEnded(s.host, step.step, s'.host, s.contenders[n].run);
    }
  }

  lemma SweptIsDead(s: State, n: Name, m: Name, probe: Reading)
    requires FilesMatch(s) && m in s.files && Honest(s.host, s.files[m].pid, probe)
    ensures Look(s, n, m, probe).Swept? ==> !Running(s, m)
  {
    if Look(s, n, m, probe).Swept? {
      DeadVerdictIsSound(s.host, s.contenders[m].run, s.contenders[m].markers, probe);
    }
  }

  lemma ClaimStays(s: State, step: Step, s': State, n: Name)
    requires FilesMatch(s) && Next(s, step, s') && Running(s', n) && HoldsClaim(PhaseOf(s', n))
    ensures n in s'.files && ClaimMatches(s'.contenders[n], s'.files[n])
  {
    if n in s.contenders {
      RunningWasRunning(s, step, s', n);
      if (step.ReadForTicket? || step.ReadForWait?) && step.m == n && n in s.files {
        SweptIsDead(s, step.n, n, step.probe);
      }
    }
  }

  lemma RecordsStay(s: State, step: Step, s': State, n: Name)
    requires FilesMatch(s) && Next(s, step, s') && n in s'.contenders
    ensures s'.contenders[n].run.uid < s'.host.nextUid
    ensures RecordedBy(s'.contenders[n].markers, s'.contenders[n].run)
    ensures n in s'.files ==>
              && s'.files[n].pid == s'.contenders[n].run.pid
              && s'.files[n].markers == s'.contenders[n].markers
  {
    if step.OnHost? {
      HostKeepsInv(s.host, step.step, s'.host);
    } else if step.Announce? {
      OwnMarkersAreRight(s.host, step.run, step.own);
    }
  }

  lemma StepKeepsFilesMatch(s: State, step: Step, s': State)
    requires FilesMatch(s) && Next(s, step, s')
    ensures FilesMatch(s')
  {
    if step.OnHost? {
      HostKeepsInv(s.host, step.step, s'.host);
    }
    forall n | n in s'.contenders
      ensures s'.contenders[n].run.uid < s'.host.nextUid
      ensures RecordedBy(s'.contenders[n].markers, s'.contenders[n].run)
    {
      RecordsStay(s, step, s', n);
    }
    forall n | n in s'.files
      ensures n in s'.contenders
      ensures s'.files[n].pid == s'.contenders[n].run.pid && s'.files[n].markers == s'.contenders[n].markers
    {
      RecordsStay(s, step, s', n);
    }
    forall n | Running(s', n) && HoldsClaim(PhaseOf(s', n))
      ensures n in s'.files && ClaimMatches(s'.contenders[n], s'.files[n])
    {
      ClaimStays(s, step, s', n);
    }
  }

  lemma StepKeepsOrdered(s: State, step: Step, s': State)
    requires Inv(s) && Next(s, step, s')
    ensures Ordered(s')
  {
    forall i, j | i != j && Running(s', i) && Running(s', j) && Passed(s', i, j)
      ensures BoundAfter(PhaseOf(s', j), j, PhaseOf(s', i).ticket, i)
    {
      if i in s.contenders && j in s.contenders {
        RunningWasRunning(s, step, s', i);
        RunningWasRunning(s, step, s', j);
        PairStaysOrdered(s, step, s', i, j);
      }
    }
  }

  /** The contender whose code a step runs; on the host, nobody. */
  predicate StepOf(step: Step, n: Name) {
    !step.OnHost? && step.n == n
  }

  lemma OthersStay(s: State, step: Step, s': State, j: Name)
    requires Next(s, step, s') && !StepOf(step, j)
    ensures j in s'.contenders <==> j in s.contenders
    ensures j in s.contenders ==> s'.contenders[j] == s.contenders[j]
  {}

  /** A step of `j` that does not overlook the claim of `i` keeps `j` behind the ticket in it. */
  lemma OwnStepStaysBound(s: State, step: Step, s': State, i: Name, j: Name, t: nat)
    requires Next(s, step, s') && StepOf(step, j) && i != j && j in s.contenders && j in s'.contenders
    requires i in s.files && s.files[i].ticket == t && BoundAfter(PhaseOf(s, j), j, t, i)
    requires step.ReadForTicket? && step.m == i ==> Look(s, j, i, step.probe).Contents?
    ensures BoundAfter(PhaseOf(s', j), j, t, i)
  {}

  lemma PassedKeepsTicket(s: State, step: Step, s': State, i: Name, j: Name)
    requires Next(s, step, s') && i in s.contenders && Passed(s, i, j) && i in s'.contenders && Passed(s', i, j)
    ensures PhaseOf(s', i).ticket == PhaseOf(s, i).ticket
  {}

  /** Once `i` has passed `j`, whatever `j` does next keeps it after `i`. */
  lemma PassedStaysOrdered(s: State, step: Step, s': State, i: Name, j: Name)
    requires Inv(s) && Next(s, step, s')
    requires i != j && Running(s, i) && Running(s, j) && Running(s', i) && Running(s', j)
    requires Passed(s, i, j) && Passed(s', i, j)
    ensures BoundAfter(PhaseOf(s', j), j, PhaseOf(s', i).ticket, i)
  {
    assert ClaimMatches(s.contenders[i], s.files[i]);
    assert BoundAfter(PhaseOf(s, j), j, PhaseOf(s, i).ticket, i);
    PassedKeepsTicket(s, step, s', i, j);
    if StepOf(step, j) {
      if step.ReadForTicket? && step.m == i {
        SweptIsDead(s, j, i, step.probe);
      }
      OwnStepStaysBound(s, step, s', i, j, PhaseOf(s, i).ticket);
    } else {
      OthersStay(s, step, s', j);
    }
  }

  /** Reading the claim of `j` lets `i` pass only if `j` comes after it. */
  lemma ReadingOrders(s: State, s': State, i: Name, j: Name, probe: Reading)
    requires FilesMatch(s) && Next(s, ReadForWait(i, j, probe), s')
    requires i != j && Running(s, j) && Passed(s', i, j)
    ensures BoundAfter(PhaseOf(s', j), j, PhaseOf(s', i).ticket, i)
  {
    if j in s.files {
      SweptIsDead(s, i, j, probe);
      Total(i, j);
    }
  }

  /** The bakery argument for one pair. */
  lemma PairStaysOrdered(s: State, step: Step, s': State, i: Name, j: Name)
    requires Inv(s) && Next(s, step, s')
    requires i != j && Running(s, i) && Running(s, j) && Running(s', i) && Running(s', j) && Passed(s', i, j)
    ensures BoundAfter(PhaseOf(s', j), j, PhaseOf(s', i).ticket, i)
  {
    if Passed(s, i, j) {
      PassedStaysOrdered(s, step, s', i, j);
    } else if step.ReadForWait? && step.n == i && step.m == j {
      ReadingOrders(s, s', i, j, step.probe);
    } else {
      // only a fresh listing passes names wholesale, and it passes those without a claim
      assert step.ListForWait? && step.n == i;
      assert j !in s.files;
    }
  }

  // ---- runs ----------------------------------------------------------------

  /** Every state some interleaving reaches, with the steps that led to it. */
  datatype History = Start(now: State) | Then(past: History, step: Step, now: State)

  ghost predicate IsHistory(h: History) {
    match h
    case Start(s) => Init(s)
    case Then(past, step, now) => IsHistory(past) && Next(past.now, step, now)
  }

  lemma {:induction false} HistoryKeepsInv(h: History)
    requires IsHistory(h)
    ensures Inv(h.now)
  {
    if h.Then? {
      HistoryKeepsInv(h.past);
      StepKeepsFilesMatch(h.past.now, h.step, h.now);
      StepKeepsOrdered(h.past.now, h.step, h.now);
    }
  }

  lemma AtMostOneInWork(s: State, i: Name, j: Name)
    requires Inv(s) && Running(s, i) && Running(s, j) && PhaseOf(s, i).InWork? && PhaseOf(s, j).InWork?
    ensures i == j
  {
    if i != j {
      assert BoundAfter(PhaseOf(s, j), j, PhaseOf(s, i).ticket, i);
      assert BoundAfter(PhaseOf(s, i), i, PhaseOf(s, j).ticket, j);
      Asymmetric(i, j);
    }
  }

  /** Mutual exclusion over every run: two live calls are never inside `work` together. */
  lemma MutualExclusion(h: History, i: Name, j: Name)
    requires IsHistory(h) && Running(h.now, i) && Running(h.now, j)
    requires PhaseOf(h.now, i).InWork? && PhaseOf(h.now, j).InWork?
    ensures i == j
  {
    HistoryKeepsInv(h);
    AtMostOneInWork(h.now, i, j);
  }

  // ---- order ----------------------------------------------------------------

  ghost predicate Extends(h: History, past: History) {
    h == past || (h.Then? && Extends(h.past, past))
  }

  /** A claim with its ticket in it, whether or not its owner still runs. */
  predicate TicketedClaim(s: State, i: Name) {
    i in s.files && !s.files[i].choosing
  }

  /** `j` has not finished a scan past the ticketed claim of `i`, and is bound to a later ticket. */
  predicate StuckBehind(s: State, i: Name, j: Name) {
    TicketedClaim(s, i) && j in s.contenders ==>
      var t := s.files[i].ticket;
      match PhaseOf(s, j)
      case Choosing => true
      case Picking(todo, max) => i in todo || t <= max
      case Picked(u) => t < u
      case Waiting(u) => t < u
      case Scanning(u, todo, blocked) => t < u && (blocked || i in todo)
      case InWork(_) => false
      case _ => true
  }

  /** A ticketed claim is never rewritten. */
  lemma TicketStays(s: State, step: Step, s': State, i: Name)
    requires Inv(s) && Next(s, step, s') && TicketedClaim(s, i) && i in s'.files
    ensures s'.files[i] == s.files[i]
  {
    if step.Publish? {
      PublishReplacesChoosing(s, step.n, s');
    }
  }

  lemma OwnStepKeepsStuckBehind(s: State, step: Step, s': State, i: Name, j: Name)
    requires Next(s, step, s') && StepOf(step, j) && i != j
    requires TicketedClaim(s, i) && i in s'.files && s'.files[i] == s.files[i] && StuckBehind(s, i, j)
    ensures StuckBehind(s', i, j)
  {}

  lemma StepKeepsStuckBehind(s: State, step: Step, s': State, i: Name, j: Name)
    requires Inv(s) && Next(s, step, s') && i != j
    requires TicketedClaim(s, i) && i in s'.files && StuckBehind(s, i, j)
    ensures TicketedClaim(s', i) && StuckBehind(s', i, j)
  {
    TicketStays(s, step, s', i);
    if StepOf(step, j) {
      OwnStepKeepsStuckBehind(s, step, s', i, j);
    } else {
      OthersStay(s, step, s', j);
    }
  }

  lemma PublishReplacesChoosing(s: State, n: Name, s': State)
    requires Inv(s) && Next(s, Publish(n), s')
    ensures n in s.files && s.files[n].choosing
  {
    assert ClaimMatches(s.contenders[n], s.files[n]);
  }

  /** Names are never reused: a claim that is there now was there ever since it was announced. */
  lemma ClaimWasThere(s: State, step: Step, s': State, i: Name)
    requires Inv(s) && Next(s, step, s') && i in s.contenders && i in s'.files
    ensures i in s.files
  {
    if step.Publish? && step.n == i {
      assert HoldsClaim(PhaseOf(s, i));
    }
  }

  lemma StepKeepsContenders(s: State, step: Step, s': State, i: Name)
    requires Next(s, step, s') && i in s.contenders
    ensures i in s'.contenders && s'.contenders[i].run == s.contenders[i].run
    ensures PhaseOf(s, i).InWork? ==> PhaseOf(s', i).InWork? || step == Finish(i)
  {}

  lemma {:induction false} ContendersStay(h: History, past: History, i: Name)
    requires IsHistory(h) && Extends(h, past) && i in past.now.contenders
    ensures i in h.now.contenders
  {
    if h != past {
      ContendersStay(h.past, past, i);
      StepKeepsContenders(h.past.now, h.step, h.now, i);
    }
  }

  /**
   * First come, first served: a call that announces itself after `i` wrote its ticket is
   * not inside `work` for as long as the claim of `i` exists, dead or alive.
   */
  lemma {:induction false} LaterArrivalWaits(h: History, past: History, i: Name, j: Name)
    requires IsHistory(h) && Extends(h, past)
    requires i in past.now.contenders && TicketedClaim(past.now, i) && j !in past.now.contenders
    requires i in h.now.files
    ensures TicketedClaim(h.now, i) && StuckBehind(h.now, i, j)
    ensures j in h.now.contenders ==> !PhaseOf(h.now, j).InWork?
  {
    if h != past {
      HistoryKeepsInv(h.past);
      ContendersStay(h.past, past, i);
      ClaimWasThere(h.past.now, h.step, h.now, i);
      LaterArrivalWaits(h.past, past, i, j);
      StepKeepsStuckBehind(h.past.now, h.step, h.now, i, j);
    }
  }

  // ---- what a call leaves behind ------------------------------------------------------------

  /** Only calls that have not returned have claims. */
  predicate OnlyOpenClaims(s: State) {
    forall n :: n in s.files ==> n in s.contenders && HoldsClaim(PhaseOf(s, n))
  }

  lemma StepKeepsOpenClaims(s: State, step: Step, s': State)
    requires Inv(s) && OnlyOpenClaims(s) && Next(s, step, s')
    ensures OnlyOpenClaims(s')
  {
    forall n | n in s'.files ensures n in s'.contenders && HoldsClaim(PhaseOf(s', n)) {
      if !StepOf(step, n) {
        OthersStay(s, step, s', n);
      }
    }
  }

  /**
   * A call that has returned, whether from `work` or from a throw, has no claim file; and a live
   * one that has not returned has exactly its own.
   */
  lemma ReturnedLeavesNothing(h: History, n: Name)
    requires IsHistory(h) && n in h.now.contenders
    ensures OnlyOpenClaims(h.now)
    ensures PhaseOf(h.now, n).Done? ==> n !in h.now.files
    ensures Running(h.now, n) ==> (n in h.now.files <==> !PhaseOf(h.now, n).Done?)
  {
    ClaimsAreOpen(h);
    HistoryKeepsInv(h);
  }

  lemma {:induction false} ClaimsAreOpen(h: History)
    requires IsHistory(h)
    ensures OnlyOpenClaims(h.now)
  {
    if h.Then? {
      ClaimsAreOpen(h.past);
      HistoryKeepsInv(h.past);
      StepKeepsOpenClaims(h.past.now, h.step, h.now);
    }
  }

  // ---- tickets stay safe integers ---------------------------------------------

  /** Every ticket in a claim file, or on its way into one, is one that the reader of claims accepts. */
  predicate SafeTickets(s: State) {
    && (forall n :: n in s.files ==> s.files[n].ticket <= 9_007_199_254_740_991)
    && forall n :: n in s.contenders && PhaseOf(s, n).Picked? ==> PhaseOf(s, n).ticket <= 9_007_199_254_740_991
  }

  lemma StepKeepsSafeTickets(s: State, step: Step, s': State)
    requires SafeTickets(s) && Next(s, step, s')
    ensures SafeTickets(s')
  {
    forall m | m in s'.contenders && PhaseOf(s', m).Picked? ensures PhaseOf(s', m).ticket <= 9_007_199_254_740_991 {
      assert step.Choose? || (m in s.contenders && PhaseOf(s, m) == PhaseOf(s', m));
    }
  }

  lemma {:induction false} TicketsAreSafe(h: History)
    requires IsHistory(h)
    ensures SafeTickets(h.now)
  {
    if h.Then? {
      TicketsAreSafe(h.past);
      StepKeepsSafeTickets(h.past.now, h.step, h.now);
    }
  }

  /** A call that has read all claims takes the next ticket, unless that is beyond the safe integers. */
  lemma TicketIsTakenIff(s: State, n: Name)
    requires Running(s, n) && PhaseOf(s, n).Picking? && PhaseOf(s, n).todo == {}
    ensures (exists s' :: Next(s, Choose(n), s')) <==> PhaseOf(s, n).max < 9_007_199_254_740_991
  {
    assert PhaseOf(s, n).max < 9_007_199_254_740_991 ==> Next(s, Choose(n), At(s, n, Picked(PhaseOf(s, n).max + 1)));
  }

  // ---- progress ---------------------------------------------------------------

  /** `h'` goes on from `h` by steps of `n` alone. */
  ghost predicate Follows(h': History, h: History, n: Name) {
    h' == h || (h'.Then? && StepOf(h'.step, n) && Next(h'.past.now, h'.step, h'.now) && Follows(h'.past, h, n))
  }

  lemma {:induction false} FollowsIsHistory(h': History, h: History, n: Name)
    requires IsHistory(h) && Follows(h', h, n)
    ensures IsHistory(h') && Extends(h', h)
  {
    if h' != h {
      FollowsIsHistory(h'.past, h, n);
    }
  }

  lemma {:induction false} FollowsOn(h'': History, h': History, h: History, n: Name)
    requires Follows(h'', h', n) && Follows(h', h, n)
    ensures Follows(h'', h, n)
  {
    if h'' != h' {
      FollowsOn(h''.past, h', h, n);
    }
  }

  lemma {:induction false} FollowsKeepsInv(h': History, h: History, n: Name)
    requires Inv(h.now) && Follows(h', h, n)
    ensures Inv(h'.now)
  {
    if h' != h {
      FollowsKeepsInv(h'.past, h, n);
      StepKeepsFilesMatch(h'.past.now, h'.step, h'.now);
      StepKeepsOrdered(h'.past.now, h'.step, h'.now);
    }
  }

  /** One step of `n` more. */
  lemma Taking(h: History, n: Name, step: Step, s': State) returns (h': History)
    requires Inv(h.now) && StepOf(step, n) && Next(h.now, step, s')
    ensures h' == Then(h, step, s') && Follows(h', h, n) && Inv(s')
  {
    h' := Then(h, step, s');
    assert Follows(h, h, n);
    FollowsKeepsInv(h', h, n);
  }

  /** From wherever it is, a live call can leave, and its claim goes with it. */
  lemma Leaves(h: History, n: Name) returns (h': History)
    requires Inv(h.now) && Running(h.now, n) && HoldsClaim(PhaseOf(h.now, n))
    ensures Follows(h', h, n) && h'.now == At(h.now.(files := h.now.files - {n}), n, Done)
  {
    var h1 := h;
    assert Follows(h, h, n);
    if PhaseOf(h.now, n).InWork? {
      h1 := Taking(h, n, Finish(n), At(h.now, n, Leaving));
    } else if !PhaseOf(h.now, n).Leaving? {
      h1 := Taking(h, n, GiveUp(n), At(h.now, n, Leaving));
    }
    var s' := At(h1.now.(files := h1.now.files - {n}), n, Done);
    h' := Taking(h1, n, Withdraw(n), s');
    FollowsOn(h', h1, h, n);
    assert s' == At(h.now.(files := h.now.files - {n}), n, Done);
  }

  /** Every other claim is of an owner that is recognisably gone. */
  predicate OthersGone(s: State, n: Name) {
    forall m :: m in s.files && m != n ==> Unmistakable(s.host, s.files[m].pid, s.files[m].markers)
  }

  function FilesAfter(s: State, n: Name, todo: set<Name>): map<Name, Claim> {
    s.files - (todo - {n})
  }

  lemma SweptSoFar(s: State, s': State, n: Name, m: Name, todo: set<Name>)
    requires m in todo && s'.files == FilesAfter(s, n, {m}) && s'.host == s.host && OthersGone(s, n)
    ensures FilesAfter(s', n, todo - {m}) == FilesAfter(s, n, todo) && OthersGone(s', n)
  {
    assert ({m} - {n}) + ((todo - {m}) - {n}) == todo - {n};
  }

  /** The last of two changes to the files and the phase counts. */
  lemma AtTwice(s: State, n: Name, files: map<Name, Claim>, p: Phase, files': map<Name, Claim>, p': Phase)
    requires n in s.contenders
    ensures At(At(s.(files := files), n, p).(files := files'), n, p') == At(s.(files := files'), n, p')
  {
    var c := s.contenders[n];
    assert s.contenders[n := c.(phase := p)][n := c.(phase := p')] == s.contenders[n := c.(phase := p')];
  }

  lemma NoSweep(s: State, n: Name)
    requires n in s.contenders
    ensures At(s.(files := FilesAfter(s, n, {})), n, PhaseOf(s, n)) == s
  {
    assert FilesAfter(s, n, {}) == s.files;
    assert s.contenders[n := s.contenders[n]] == s.contenders;
  }

  /** Reads the claims listed for the ticket: those of the others are swept, its own says nothing. */
  lemma {:induction false} PickOn(h: History, n: Name) returns (h': History)
    requires Inv(h.now) && Running(h.now, n) && PhaseOf(h.now, n).Picking? && OthersGone(h.now, n)
    ensures Follows(h', h, n)
    ensures h'.now == At(h.now.(files := FilesAfter(h.now, n, PhaseOf(h.now, n).todo)), n, Picking({}, PhaseOf(h.now, n).max))
    decreases PhaseOf(h.now, n).todo
  {
    var s, p := h.now, PhaseOf(h.now, n);
    if p.todo == {} {
      h' := h;
      NoSweep(s, n);
    } else {
      var m :| m in p.todo;
      var files := FilesAfter(s, n, {m});
      var s' := At(s.(files := files), n, Picking(p.todo - {m}, p.max));
      PickOne(s, n, m);
      SweptSoFar(s, s', n, m, p.todo);
      var h1 := Taking(h, n, ReadForTicket(n, m, ProbeOf(s, m)), s');
      h' := PickOn(h1, n);
      FollowsOn(h', h1, h, n);
      AtTwice(s, n, files, PhaseOf(s', n), FilesAfter(s, n, p.todo), Picking({}, p.max));
    }
  }

  function ProbeOf(s: State, m: Name): Reading {
    FullReading(s.host, if m in s.files then s.files[m].pid else 0)
  }

  lemma PickOne(s: State, n: Name, m: Name)
    requires Inv(s) && Running(s, n) && PhaseOf(s, n).Picking? && OthersGone(s, n) && m in PhaseOf(s, n).todo
    ensures var p := PhaseOf(s, n);
            Next(s, ReadForTicket(n, m, ProbeOf(s, m)),
                 At(s.(files := FilesAfter(s, n, {m})), n, Picking(p.todo - {m}, p.max)))
  {
    if m in s.files {
      FullReadingTells(s.host, s.files[m].pid, s.files[m].markers);
    }
    if m == n {
      assert ClaimMatches(s.contenders[n], s.files[n]);
      assert s.files - ({m} - {n}) == s.files;
    } else {
      assert {m} - {n} == {m};
      assert m !in s.files ==> s.files - {m} == s.files;
    }
  }

  /** Reads the claims listed for a scan likewise, and nothing blocks. */
  lemma {:induction false} SweepOn(h: History, n: Name) returns (h': History)
    requires Inv(h.now) && Running(h.now, n) && PhaseOf(h.now, n).Scanning? && OthersGone(h.now, n)
    ensures var p := PhaseOf(h.now, n);
            && Follows(h', h, n)
            && h'.now == At(h.now.(files := FilesAfter(h.now, n, p.todo)), n, Scanning(p.ticket, {}, p.blocked))
    decreases PhaseOf(h.now, n).todo
  {
    var s, p := h.now, PhaseOf(h.now, n);
    if p.todo == {} {
      h' := h;
      NoSweep(s, n);
    } else {
      var m :| m in p.todo;
      var files := FilesAfter(s, n, {m});
      var s' := At(s.(files := files), n, Scanning(p.ticket, p.todo - {m}, p.blocked));
      SweepOne(s, n, m);
      SweptSoFar(s, s', n, m, p.todo);
      var h1 := Taking(h, n, ReadForWait(n, m, ProbeOf(s, m)), s');
      h' := SweepOn(h1, n);
      FollowsOn(h', h1, h, n);
      AtTwice(s, n, files, PhaseOf(s', n), FilesAfter(s, n, p.todo), Scanning(p.ticket, {}, p.blocked));
    }
  }

  lemma SweepOne(s: State, n: Name, m: Name)
    requires Inv(s) && Running(s, n) && PhaseOf(s, n).Scanning? && OthersGone(s, n) && m in PhaseOf(s, n).todo
    ensures var p := PhaseOf(s, n);
            Next(s, ReadForWait(n, m, ProbeOf(s, m)),
                 At(s.(files := FilesAfter(s, n, {m})), n, Scanning(p.ticket, p.todo - {m}, p.blocked)))
  {
    if m in s.files {
      FullReadingTells(s.host, s.files[m].pid, s.files[m].markers);
    }
    if m == n {
      assert s.files - ({m} - {n}) == s.files;
    } else {
      assert {m} - {n} == {m};
      assert m !in s.files ==> s.files - {m} == s.files;
    }
  }

  /** The state when `n` has swept all others and is at `phase`, with `ticket` in its claim. */
  function AloneAt(s: State, n: Name, choosing: bool, ticket: nat, phase: Phase): State
    requires n in s.contenders
  {
    var c := s.contenders[n];
    State(s.host, map[n := Claim(c.run.pid, choosing, ticket, c.markers)], s.contenders[n := c.(phase := phase)])
  }

  /** Sweeping all others leaves the own claim alone. */
  lemma SweptIsAlone(s: State, n: Name, choosing: bool, ticket: nat, phase: Phase)
    requires n in s.contenders && n in s.files
    requires s.files[n] == Claim(s.contenders[n].run.pid, choosing, ticket, s.contenders[n].markers)
    ensures At(s.(files := FilesAfter(s, n, s.files.Keys)), n, phase) == AloneAt(s, n, choosing, ticket, phase)
  {
    assert FilesAfter(s, n, s.files.Keys) == map[n := s.files[n]];
  }

  lemma PickAlone(h: History, n: Name) returns (h': History)
    requires Inv(h.now) && Running(h.now, n) && PhaseOf(h.now, n).Choosing? && OthersGone(h.now, n)
    ensures Follows(h', h, n) && h'.now == AloneAt(h.now, n, true, 0, Picking({}, 0))
  {
    var s := h.now;
    assert ClaimMatches(s.contenders[n], s.files[n]);
    var s' := At(s, n, Picking(s.files.Keys, 0));
    var h1 := Taking(h, n, ListForTicket(n), s');
    h' := PickOn(h1, n);
    FollowsOn(h', h1, h, n);
    SweptIsAlone(s', n, true, 0, Picking({}, 0));
  }

  lemma TicketAlone(h: History, n: Name) returns (h': History)
    requires Inv(h.now) && Running(h.now, n) && PhaseOf(h.now, n).Choosing? && OthersGone(h.now, n)
    ensures Follows(h', h, n) && h'.now == AloneAt(h.now, n, true, 0, Picked(1))
  {
    var h1 := PickAlone(h, n);
    FollowsKeepsInv(h1, h, n);
    h' := Taking(h1, n, Choose(n), AloneAt(h.now, n, true, 0, Picked(1)));
    FollowsOn(h', h1, h, n);
  }

  lemma SweepAlone(h: History, n: Name) returns (h': History)
    requires Inv(h.now) && Running(h.now, n) && h.now == AloneAt(h.now, n, false, 1, Waiting(1))
    ensures Follows(h', h, n) && h'.now == AloneAt(h.now, n, false, 1, Scanning(1, {}, false))
  {
    var s := h.now;
    assert PhaseOf(s, n) == Waiting(1);
    var s' := At(s, n, Scanning(1, s.files.Keys, false));
    var h1 := Taking(h, n, ListForWait(n), s');
    h' := SweepOn(h1, n);
    FollowsOn(h', h1, h, n);
    SweptIsAlone(s', n, false, 1, Scanning(1, {}, false));
  }

  lemma ScanAlone(h: History, n: Name) returns (h': History)
    requires Inv(h.now) && Running(h.now, n) && h.now == AloneAt(h.now, n, false, 1, Waiting(1))
    ensures Follows(h', h, n) && h'.now == AloneAt(h.now, n, false, 1, InWork(1))
  {
    var h1 := SweepAlone(h, n);
    FollowsKeepsInv(h1, h, n);
    h' := Taking(h1, n, Enter(n), AloneAt(h.now, n, false, 1, InWork(1)));
    FollowsOn(h', h1, h, n);
  }

  /**
   * A call whose only company is claims of owners that are recognisably gone gets from its
   * announcement into `work` by its own steps, and sweeps these claims.
   */
  lemma GetsInAlone(h: History, n: Name) returns (h': History)
    requires Inv(h.now) && Running(h.now, n) && PhaseOf(h.now, n).Choosing? && OthersGone(h.now, n)
    ensures Follows(h', h, n) && h'.now == AloneAt(h.now, n, false, 1, InWork(1))
  {
    var h1 := TicketAlone(h, n);
    FollowsKeepsInv(h1, h, n);
    var s' := AloneAt(h.now, n, false, 1, Waiting(1));
    assert s'.files == h1.now.files[n := s'.files[n]];
    var h2 := Taking(h1, n, Publish(n), s');
    h' := ScanAlone(h2, n);
    FollowsOn(h2, h1, h, n);
    FollowsOn(h', h2, h, n);
  }

  /**
   * The lock is there for the next call: where nothing but claims of owners that are recognisably
   * gone is left, a new call of a live process comes, is in `work`, and goes by its own steps, and
   * leaves no claim at all.
   */
  lemma ComesAndGoes(h: History, n: Name, run: Run, own: Reading) returns (inside: History, h': History)
    requires IsHistory(h) && n !in h.now.contenders && n !in h.now.files && OthersGone(h.now, n)
    requires Live(h.now.host, run) && Honest(h.now.host, run.pid, own)
    ensures IsHistory(inside) && Follows(inside, h, n) && Running(inside.now, n) && PhaseOf(inside.now, n).InWork?
    ensures IsHistory(h') && Follows(h', inside, n) && h'.now.files == map[] && PhaseOf(h'.now, n).Done?
    ensures forall m :: m in h.now.contenders ==> m in h'.now.contenders && h'.now.contenders[m] == h.now.contenders[m]
  {
    HistoryKeepsInv(h);
    var s := h.now;
    var s' := Written(s.(contenders := s.contenders[n := Contender(run, own.markers, Choosing)]), n, true, 0);
    var h1 := Taking(h, n, Announce(n, run, own), s');
    inside := GetsInAlone(h1, n);
    FollowsOn(inside, h1, h, n);
    FollowsIsHistory(inside, h, n);
    FollowsKeepsInv(inside, h, n);
    h' := Leaves(inside, n);
    FollowsIsHistory(h', inside, n);
    assert h'.now.files == map[];
  }


  /** Every claim left is a live one with its ticket written. */
  predicate SweptAndChosen(s: State) {
    forall m :: m in s.files ==> Running(s, m) && !s.files[m].choosing
  }

  predicate BlockedBy(s: State, n: Name, m: Name)
    requires n in s.files && m in s.files
  {
    m != n && Precedes(s.files[m], m, s.files[n].ticket, n)
  }

  predicate First(s: State, n: Name) {
    n in s.files && forall m :: m in s.files ==> !BlockedBy(s, n, m)
  }

  lemma {:induction false} FirstAmong(s: State, names: set<Name>) returns (n: Name)
    requires SweptAndChosen(s) && names != {} && names <= s.files.Keys
    ensures n in names && forall m :: m in names ==> !BlockedBy(s, n, m)
    decreases names
  {
    var x :| x in names;
    if names == {x} {
      n := x;
    } else {
      var y := FirstAmong(s, names - {x});
      Total(x, y);
      n := if BlockedBy(s, y, x) then x else y;
      forall m | m in names ensures !BlockedBy(s, n, m) {
        if n == x && m != x && BlockedBy(s, x, m) {
          FirstIsTransitive(s, m, x, y);
        }
      }
    }
  }

  lemma FirstIsTransitive(s: State, a: Name, b: Name, c: Name)
    requires SweptAndChosen(s) && a in s.files && b in s.files && c in s.files
    requires BlockedBy(s, b, a) && BlockedBy(s, c, b)
    ensures BlockedBy(s, c, a)
  {
    if s.files[a].ticket == s.files[b].ticket == s.files[c].ticket {
      Transitive(a, b, c);
      Asymmetric(a, b);
    }
  }

  lemma SomeoneIsFirst(s: State)
    requires SweptAndChosen(s) && s.files != map[]
    ensures exists n :: First(s, n)
  {
    var m :| m in s.files;
    assert m in s.files.Keys;
    var n := FirstAmong(s, s.files.Keys);
    assert First(s, n);
  }

  /** One more read of a scan; the first claim in line is not blocked by it. */
  lemma ReadOne(s: State, n: Name, m: Name)
    requires Inv(s) && SweptAndChosen(s) && First(s, n) && PhaseOf(s, n).Scanning? && m in PhaseOf(s, n).todo
    ensures var p := PhaseOf(s, n);
            Next(s, ReadForWait(n, m, Reading(Delivered, Markers(None, None))),
                 At(s, n, Scanning(p.ticket, p.todo - {m}, p.blocked)))
  {
    assert m in s.files ==> Running(s, m) && !BlockedBy(s, n, m);
    assert ClaimMatches(s.contenders[n], s.files[n]);
  }

  /** Reads the rest of a scan. */
  lemma {:induction false} ReadOn(h: History, n: Name) returns (h': History)
    requires Inv(h.now) && SweptAndChosen(h.now) && First(h.now, n) && PhaseOf(h.now, n).Scanning?
    ensures Follows(h', h, n)
    ensures h'.now == At(h.now, n, Scanning(PhaseOf(h.now, n).ticket, {}, PhaseOf(h.now, n).blocked))
    decreases PhaseOf(h.now, n).todo
  {
    var p := PhaseOf(h.now, n);
    if p.todo == {} {
      h' := h;
      assert At(h.now, n, p) == h.now;
    } else {
      var m :| m in p.todo;
      var step := ReadForWait(n, m, Reading(Delivered, Markers(None, None)));
      var s' := At(h.now, n, Scanning(p.ticket, p.todo - {m}, p.blocked));
      ReadOne(h.now, n, m);
      SameClaimsSameOrder(h.now, s', n);
      var h1 := Taking(h, n, step, s');
      h' := ReadOn(h1, n);
      FollowsOn(h', h1, h, n);
    }
  }

  /** The first claim in line, between two scans, lists, reads everything and enters. */
  lemma ScanAndEnter(h: History, n: Name) returns (h': History)
    requires Inv(h.now) && SweptAndChosen(h.now) && First(h.now, n) && PhaseOf(h.now, n).Waiting?
    ensures Follows(h', h, n) && h'.now == At(h.now, n, InWork(PhaseOf(h.now, n).ticket))
  {
    var t := PhaseOf(h.now, n).ticket;
    var listed := At(h.now, n, Scanning(t, h.now.files.Keys, false));
    SameClaimsSameOrder(h.now, listed, n);
    var h1 := Taking(h, n, ListForWait(n), listed);
    var h2 := ReadOn(h1, n);
    FollowsKeepsInv(h2, h1, n);
    h' := Taking(h2, n, Enter(n), At(h2.now, n, InWork(t)));
    FollowsOn(h2, h1, h, n);
    FollowsOn(h', h2, h, n);
  }

  lemma SameClaimsSameOrder(s: State, s': State, n: Name)
    requires SweptAndChosen(s) && First(s, n)
    requires s'.files == s.files && forall m :: Running(s, m) ==> Running(s', m)
    ensures SweptAndChosen(s') && First(s', n)
  {
    forall m | m in s'.files ensures Running(s', m) && !BlockedBy(s', n, m) {
      assert Running(s, m) && !BlockedBy(s, n, m);
    }
  }

  /** A scan that has read everything ends in `work`, at once or, if it was blocked, after another. */
  lemma ScanEnds(h: History, n: Name) returns (h': History)
    requires Inv(h.now) && SweptAndChosen(h.now) && First(h.now, n)
    requires PhaseOf(h.now, n).Scanning? && PhaseOf(h.now, n).todo == {}
    ensures Follows(h', h, n) && h'.now == At(h.now, n, InWork(PhaseOf(h.now, n).ticket))
  {
    var t := PhaseOf(h.now, n).ticket;
    if !PhaseOf(h.now, n).blocked {
      h' := Taking(h, n, Enter(n), At(h.now, n, InWork(t)));
    } else {
      var h1 := Taking(h, n, Retry(n), At(h.now, n, Waiting(t)));
      SameClaimsSameOrder(h.now, h1.now, n);
      h' := ScanAndEnter(h1, n);
      FollowsOn(h', h1, h, n);
    }
  }

  /**
   * No deadlock: once dead claims are swept and nobody is choosing, the first claim in line
   * gets into `work` by its own steps alone.
   */
  lemma FirstGetsIn(h: History, n: Name) returns (h': History)
    requires Inv(h.now) && SweptAndChosen(h.now) && First(h.now, n) && TicketWritten(PhaseOf(h.now, n))
    ensures Follows(h', h, n) && (IsHistory(h) ==> IsHistory(h'))
    ensures h'.now == At(h.now, n, InWork(PhaseOf(h.now, n).ticket))
  {
    h' := FirstScans(h, n);
    if IsHistory(h) {
      FollowsIsHistory(h', h, n);
    }
  }

  lemma FirstScans(h: History, n: Name) returns (h': History)
    requires Inv(h.now) && SweptAndChosen(h.now) && First(h.now, n) && TicketWritten(PhaseOf(h.now, n))
    ensures Follows(h', h, n) && h'.now == At(h.now, n, InWork(PhaseOf(h.now, n).ticket))
  {
    var t := PhaseOf(h.now, n).ticket;
    match PhaseOf(h.now, n)
    case InWork(_) =>
      h' := h;
      assert At(h.now, n, InWork(t)) == h.now;
    case Waiting(_) =>
      h' := ScanAndEnter(h, n);
    case Scanning(_, _, _) =>
      var h1 := ReadOn(h, n);
      FollowsKeepsInv(h1, h, n);
      SameClaimsSameOrder(h.now, h1.now, n);
      h' := ScanEnds(h1, n);
      FollowsOn(h', h1, h, n);
  }
}
