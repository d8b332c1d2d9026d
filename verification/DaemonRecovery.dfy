/**
 * `RoleRecoveryController`: recovery runs that a newer `recover`, `cancel` or `noteLoss`
 * supersedes.  A run is two paths that call an operation, wait and call again; each method
 * below is the code between two awaits, so any interleaving of the methods is a schedule.
 */
module DaemonRecovery {
  import opened Options

  const MAX_ATTEMPTS: nat := 6
  const INITIAL_BACKOFF_MS: nat := 1_000
  const MAX_BACKOFF_MS: nat := 5_000

  // ---- backoff and reasons ---------------------------------------------------------------

  function Least(a: int, b: int): int { if a < b then a else b }

  function Greatest(a: int, b: int): int { if a < b then b else a }

  function PowerOf2(n: nat): (p: nat)
    ensures p >= 1
  {
    if n == 0 then 1 else 2 * PowerOf2(n - 1)
  }

  function DaemonRecoveryBackoff(attempt: int): nat {
    Least(INITIAL_BACKOFF_MS * PowerOf2(Greatest(0, Least(attempt - 1, 30))), MAX_BACKOFF_MS)
  }

  lemma {:induction false} PowerGrows(a: nat, b: nat)
    requires a <= b
    ensures PowerOf2(a) <= PowerOf2(b)
  {
    if a < b { PowerGrows(a, b - 1); }
  }

  /** The waits double from one second up to five; the bound of 30 never shows. */
  lemma BackoffDoublesToTheCap(attempt: int)
    ensures attempt <= 1 ==> DaemonRecoveryBackoff(attempt) == 1000
    ensures attempt >= 1 && 2 * DaemonRecoveryBackoff(attempt) <= 5000 ==>
              DaemonRecoveryBackoff(attempt + 1) == 2 * DaemonRecoveryBackoff(attempt)
    ensures attempt >= 1 && 2 * DaemonRecoveryBackoff(attempt) > 5000 ==> DaemonRecoveryBackoff(attempt + 1) == 5000
  {
    if attempt >= 30 {
      assert PowerOf2(3) == 8;
      PowerGrows(3, attempt - 1);
      PowerGrows(3, 29);
      PowerGrows(3, 30);
    }
  }

  predicate ReasonChar(c: char) {
    'A' <= c <= 'Z' || '0' <= c <= '9' || c == '_'
  }

  predicate SafeReason(reason: string) {
    1 <= |reason| <= 96 && 'A' <= reason[0] <= 'Z' && forall i :: 0 <= i < |reason| ==> ReasonChar(reason[i])
  }

  function SafeRecoveryReason(reason: string, fallback: string): string {
    if SafeReason(reason) then reason else fallback
  }

  /** What the reader of the file takes for a reason. */
  predicate ReadableReason(reason: string) {
    && 1 <= |reason| <= 96
    && forall i :: 0 <= i < |reason| ==> reason[i] == '_' || '0' <= reason[i] <= '9' || 'A' <= reason[i] <= 'Z'
  }

  /** A reason is kept if the reader would take it and it starts with a letter. */
  predicate Keepable(reason: string) {
    ReadableReason(reason) && reason[0] != '_' && !('0' <= reason[0] <= '9')
  }

  lemma SafeIffKeepable(reason: string)
    ensures SafeReason(reason) <==> Keepable(reason)
  {
    assert SafeReason(reason) ==> ReasonChar(reason[0]);
  }

  const PATH_FAILED := "RECOVERY_PATH_FAILED"
  const UNKNOWN_ERROR := "RECOVERY_UNKNOWN_ERROR"
  const DEADLINE_EXCEEDED := "RECOVERY_DEADLINE_EXCEEDED"
  const UNAVAILABLE := "DAEMON_UNAVAILABLE"

  // ---- state ----------------------------------------------------------------------------------

  datatype Path = Agent | Owner

  /** One of each path, by name. */
  datatype Both<T> = Both(agent: T, owner: T) {
    function Get(p: Path): T {
      if p.Agent? then agent else owner
    }

    function Set(p: Path, x: T): Both<T> {
      if p.Agent? then this.(agent := x) else this.(owner := x)
    }
  }

  datatype PathStatus = Pending(attempts: nat) | Recovered(attempts: nat) | Degraded(attempts: nat, reason: string)

  datatype Overall = Recovering | AllRecovered | SomeDegraded | Cancelled

  datatype Status = Status(epoch: string, state: Overall, paths: Both<PathStatus>)

  /** What one call of a path's operation came to; a lost race with the timer is `Refused`. */
  datatype Answer = Yes | Refused(reason: string) | Threw(reason: string)

  function ReasonOf(answer: Answer): string {
    match answer
    case Yes => ""
    case Refused(reason) => SafeRecoveryReason(reason, PATH_FAILED)
    case Threw(reason) => SafeRecoveryReason(reason, UNKNOWN_ERROR)
  }

  /** Where the loop of a path stands: before an attempt, inside its operation, or returned. */
  datatype Stage = Ready(attempt: nat) | Calling(attempt: nat) | Over

  datatype PathRun = PathRun(stage: Stage, answers: seq<Answer>)

  datatype Run = Run(token: nat, status: Status, paths: Both<PathRun>, finished: bool)

  /** The status object the controller holds: the one of a run, which that run still changes, or its own. */
  datatype Held = OfRun(run: nat) | Loss(status: Status)

  datatype Writer = ByRun(run: nat) | ByCancel | ByLoss

  /** One write of the status file, with the token that was current. */
  datatype Written = Written(writer: Writer, token: nat, status: Status)

  datatype Action =
    | Recover(epoch: string)
    | Begin(run: nat, path: Path, late: bool)
    | Settle(run: nat, path: Path, answer: Answer)
    | Finish(run: nat)
    | Cancel
    | NoteLoss(reason: string)

  // ---- what holds ---------------------------------------------------------------------------------

  predicate NoYes(answers: seq<Answer>) {
    forall k :: 0 <= k < |answers| ==> !answers[k].Yes?
  }

  /** The last answer, and only the last, is a yes. */
  predicate YesAtLast(answers: seq<Answer>) {
    answers != [] && answers[|answers| - 1].Yes? && NoYes(answers[..|answers| - 1])
  }

  /** What a path's status says about what its operation has answered. */
  predicate PathOk(p: PathRun, st: PathStatus, current: bool) {
    match p.stage
    case Ready(k) => 1 <= k <= MAX_ATTEMPTS && |p.answers| == k - 1 && NoYes(p.answers) && st == Pending(k - 1)
    case Calling(k) => 1 <= k <= MAX_ATTEMPTS && |p.answers| == k - 1 && NoYes(p.answers) && st == Pending(k)
    case Over =>
      && |p.answers| <= MAX_ATTEMPTS
      && match st
         case Pending(_) => !current
         case Recovered(k) => k == |p.answers| && YesAtLast(p.answers)
         case Degraded(k, reason) =>
           && k == |p.answers| && NoYes(p.answers)
           && (reason == DEADLINE_EXCEEDED || (k == MAX_ATTEMPTS && reason == ReasonOf(p.answers[k - 1])))
  }

  predicate BothOver(r: Run) {
    r.paths.agent.stage.Over? && r.paths.owner.stage.Over?
  }

  predicate BothRecovered(st: Status) {
    st.paths.agent.Recovered? && st.paths.owner.Recovered?
  }

  predicate RunOk(r: Run, current: bool) {
    && PathOk(r.paths.agent, r.status.paths.agent, current)
    && PathOk(r.paths.owner, r.status.paths.owner, current)
    && (r.finished ==> BothOver(r))
    && (r.status.state.AllRecovered? ==> r.finished && BothRecovered(r.status))
    && (current ==>
          if !r.finished then r.status.state.Recovering?
          else r.status.state == if BothRecovered(r.status) then AllRecovered else SomeDegraded)
  }

  /** Both operations have said yes in this run. */
  predicate BothSaidYes(r: Run) {
    YesAtLast(r.paths.agent.answers) && YesAtLast(r.paths.owner.answers)
  }

  /** `readDaemonRecoveryStatus` accepts it. */
  predicate Readable(st: Status) {
    forall p: Path :: st.paths.Get(p).Degraded? ==> ReadableReason(st.paths.Get(p).reason)
  }

  /** How often the loop of a path has called its operation. */
  function Calls(p: PathRun): nat {
    match p.stage
    case Ready(k) => if k == 0 then 0 else k - 1
    case Calling(k) => k
    case Over => |p.answers|
  }

  lemma FallbacksAreReadable()
    ensures ReadableReason(PATH_FAILED) && ReadableReason(UNKNOWN_ERROR)
  {}

  lemma OwnReasonsAreReadable()
    ensures ReadableReason(DEADLINE_EXCEEDED) && ReadableReason(UNAVAILABLE)
  {}

  lemma ReasonIsReadable(answer: Answer)
    ensures !answer.Yes? ==> ReadableReason(ReasonOf(answer))
    ensures ReadableReason(DEADLINE_EXCEEDED)
  {
    FallbacksAreReadable();
    OwnReasonsAreReadable();
    if !answer.Yes? { SafeIffKeepable(answer.reason); }
  }

  /** What the file tells of an operation that did not succeed. */
  ghost predicate Tells(answer: Answer, reason: string) {
    match answer
    case Yes => false
    case Refused(given) =>
      reason == if Keepable(given) then given else "RECOVERY_PATH_FAILED"
    case Threw(given) =>
      reason == if Keepable(given) then given else "RECOVERY_UNKNOWN_ERROR"
  }

  lemma ReasonIsTold(answer: Answer)
    requires !answer.Yes?
    ensures Tells(answer, ReasonOf(answer))
  {
    SafeIffKeepable(answer.reason);
  }

  lemma PathIsReadable(p: PathRun, st: PathStatus, current: bool)
    requires PathOk(p, st, current)
    ensures st.Degraded? ==> ReadableReason(st.reason)
  {
    if st.Degraded? {
      if st.reason == DEADLINE_EXCEEDED {
        ReasonIsReadable(Yes);
      } else {
        ReasonIsReadable(p.answers[|p.answers| - 1]);
      }
    }
  }

  lemma RunIsReadable(r: Run, current: bool)
    requires RunOk(r, current)
    ensures Readable(r.status)
  {
    forall p: Path | r.status.paths.Get(p).Degraded?
      ensures ReadableReason(r.status.paths.Get(p).reason)
    {
      match p
      case Agent => PathIsReadable(r.paths.agent, r.status.paths.agent, current);
      case Owner => PathIsReadable(r.paths.owner, r.status.paths.owner, current);
    }
  }

  // ---- the controller as a value ---------------------------------------------------------------

  predicate Current(runs: seq<Run>, token: nat, i: nat) {
    i < |runs| && runs[i].token == token
  }

  predicate RunsOk(runs: seq<Run>, token: nat) {
    && (forall i :: 0 <= i < |runs| ==> runs[i].token <= token && RunOk(runs[i], runs[i].token == token))
    && (forall i, j :: 0 <= i < j < |runs| ==> runs[i].token < runs[j].token)
  }

  /** What the controller refers to. */
  datatype Hold = Hold(activeEpoch: Option<string>, active: Option<nat>, status: Option<Held>)

  /** A current run is the active one, under its epoch, and its status is the one held. */
  predicate HoldOk(runs: seq<Run>, token: nat, hold: Hold) {
    && (forall i :: 0 <= i < |runs| && runs[i].token == token ==>
          hold == Hold(Some(runs[i].status.epoch), Some(i), Some(OfRun(i))))
    && (hold.activeEpoch.Some? <==> hold.active.Some?)
    && (hold.active.Some? ==> Current(runs, token, hold.active.value))
    && (hold.status.Some? && hold.status.value.OfRun? ==>
          && hold.status.value.run < |runs|
          && (runs[hold.status.value.run].status.state.Recovering? ==> Current(runs, token, hold.status.value.run)))
    && (hold.status.Some? && hold.status.value.Loss? ==> hold.status.value.status.state.SomeDegraded?)
  }

  /** A write of a run happens under its own token; `recovered` means both operations said yes. */
  predicate EntryOk(runs: seq<Run>, w: Written) {
    && Readable(w.status)
    && (w.writer.ByRun? ==> w.writer.run < |runs| && runs[w.writer.run].token == w.token)
    && (w.status.state.AllRecovered? ==>
          w.writer.ByRun? && w.writer.run < |runs| && runs[w.writer.run].finished && BothSaidYes(runs[w.writer.run]))
  }

  function Last(trail: seq<Written>): Option<Status> {
    if trail == [] then None else Some(trail[|trail| - 1].status)
  }

  /** The writes, oldest first; the last one is the file, and a current run's status is in it. */
  predicate TrailOk(runs: seq<Run>, token: nat, trail: seq<Written>) {
    && (forall k :: 0 <= k < |trail| ==> EntryOk(runs, trail[k]) && trail[k].token <= token)
    && (forall k, l :: 0 <= k < l < |trail| ==> trail[k].token <= trail[l].token)
    && (forall i :: 0 <= i < |runs| && runs[i].token == token ==> Last(trail) == Some(runs[i].status))
  }

  ghost predicate CallsOk(runs: seq<Run>, calls: multiset<(nat, Path)>) {
    && (forall i :: 0 <= i < |runs| ==> RunCalls(runs[i], i, calls))
    && (forall i, p :: |runs| <= i ==> (i, p) !in calls)
  }

  predicate RunCalls(r: Run, i: nat, calls: multiset<(nat, Path)>) {
    calls[(i, Agent)] == Calls(r.paths.agent) && calls[(i, Owner)] == Calls(r.paths.owner)
  }

  /** Run `i` may become `r` in one step of its own. */
  predicate Steps(runs: seq<Run>, token: nat, i: nat, r: Run, write: bool) {
    && i < |runs| && !runs[i].finished
    && r.token == runs[i].token && r.status.epoch == runs[i].status.epoch
    && RunOk(r, r.token == token)
    && (r.status.state.Recovering? ==> runs[i].status.state.Recovering?)
    && (r.token == token && !write ==> r.status == runs[i].status)
  }

  lemma StepKeepsRuns(runs: seq<Run>, token: nat, hold: Hold, i: nat, r: Run, write: bool)
    requires RunsOk(runs, token) && HoldOk(runs, token, hold) && Steps(runs, token, i, r, write)
    ensures RunsOk(runs[i := r], token) && HoldOk(runs[i := r], token, hold)
  {}

  lemma StepKeepsTrail(runs: seq<Run>, token: nat, trail: seq<Written>, i: nat, r: Run, write: bool)
    requires RunsOk(runs, token) && TrailOk(runs, token, trail) && Steps(runs, token, i, r, write)
    ensures TrailOk(runs[i := r], token,
                    if write && r.token == token then trail + [Written(ByRun(i), token, r.status)] else trail)
  {
    RunIsReadable(r, r.token == token);
    forall k | 0 <= k < |trail| ensures EntryOk(runs[i := r], trail[k]) {
      assert EntryOk(runs, trail[k]);
    }
    if write && r.token == token && r.status.state.AllRecovered? {
      assert BothSaidYes(r);
    }
  }

  lemma StepKeepsCalls(runs: seq<Run>, calls: multiset<(nat, Path)>, i: nat, r: Run, called: multiset<(nat, Path)>)
    requires CallsOk(runs, calls) && i < |runs| && RunCalls(r, i, calls + called)
    requires forall j, p :: j != i ==> (j, p) !in called
    ensures CallsOk(runs[i := r], calls + called)
  {
    var after := runs[i := r];
    forall j | 0 <= j < |after| ensures RunCalls(after[j], j, calls + called) {
      if j != i {
        assert after[j] == runs[j] && RunCalls(runs[j], j, calls);
      }
    }
  }

  /** A write counts only under the current token. */
  function TrailAfter(trail: seq<Written>, token: nat, st: Option<(Status, nat, Writer)>): seq<Written> {
    if st.Some? && st.value.1 == token then trail + [Written(st.value.2, token, st.value.0)] else trail
  }

  /** All that holds of the controller. */
  ghost predicate AllOk(runs: seq<Run>, token: nat, hold: Hold, trail: seq<Written>, calls: multiset<(nat, Path)>) {
    RunsOk(runs, token) && HoldOk(runs, token, hold) && TrailOk(runs, token, trail) && CallsOk(runs, calls)
  }

  lemma StepKeepsAll(runs: seq<Run>, token: nat, hold: Hold, trail: seq<Written>, calls: multiset<(nat, Path)>,
                     i: nat, r: Run, write: bool, called: multiset<(nat, Path)>)
    requires AllOk(runs, token, hold, trail, calls) && Steps(runs, token, i, r, write)
    requires RunCalls(r, i, calls + called) && forall j, p :: j != i ==> (j, p) !in called
    ensures AllOk(runs[i := r], token, hold,
                  if write && r.token == token then trail + [Written(ByRun(i), token, r.status)] else trail,
                  calls + called)
    ensures Last(trail) == Some(runs[i].status) || r.token != token
  {
    StepKeepsRuns(runs, token, hold, i, r, write);
    StepKeepsTrail(runs, token, trail, i, r, write);
    StepKeepsCalls(runs, calls, i, r, called);
  }

  /** A new token makes every run stale and leaves everything it wrote justified. */
  lemma Supersede(runs: seq<Run>, token: nat, trail: seq<Written>)
    requires RunsOk(runs, token) && TrailOk(runs, token, trail)
    ensures RunsOk(runs, token + 1) && TrailOk(runs, token + 1, trail)
  {}

  function Fresh(epoch: string, token: nat): Run {
    Run(token, Status(epoch, Recovering, Both(Pending(0), Pending(0))),
        Both(PathRun(Ready(1), []), PathRun(Ready(1), [])), false)
  }

  /** `r` with path `p` further on. */
  function WithPath(r: Run, p: Path, path: PathRun, st: PathStatus): Run {
    r.(paths := r.paths.Set(p, path), status := r.status.(paths := r.status.paths.Set(p, st)))
  }

  lemma WithPathOk(r: Run, current: bool, p: Path, path: PathRun, st: PathStatus)
    requires RunOk(r, current) && !r.finished && PathOk(path, st, current)
    ensures RunOk(WithPath(r, p, path, st), current)
  {}

  lemma PathIsOk(r: Run, current: bool, p: Path)
    requires RunOk(r, current)
    ensures PathOk(r.paths.Get(p), r.status.paths.Get(p), current)
  {}

  lemma StartKeepsAll(runs: seq<Run>, token: nat, trail: seq<Written>, calls: multiset<(nat, Path)>, epoch: string)
    requires RunsOk(runs, token) && TrailOk(runs, token, trail) && CallsOk(runs, calls)
    ensures var runs' := runs + [Fresh(epoch, token + 1)];
            var written := Written(ByRun(|runs|), token + 1, Fresh(epoch, token + 1).status);
            AllOk(runs', token + 1, Hold(Some(epoch), Some(|runs|), Some(OfRun(|runs|))), trail + [written], calls)
  {
    Supersede(runs, token, trail);
    var runs' := runs + [Fresh(epoch, token + 1)];
    forall k | 0 <= k < |trail| ensures EntryOk(runs', trail[k]) {
      assert EntryOk(runs, trail[k]);
    }
    forall j | 0 <= j < |runs'| ensures RunCalls(runs'[j], j, calls) {
      if j < |runs| {
        assert runs'[j] == runs[j] && RunCalls(runs[j], j, calls);
      }
    }
  }

  /** The run whose status is held, if it is still recovering. */
  function Interrupted(runs: seq<Run>, status: Option<Held>): (i: Option<nat>)
    ensures i.Some? ==> i.value < |runs|
  {
    match status
    case Some(OfRun(i)) => if i < |runs| && runs[i].status.state.Recovering? then Some(i) else None
    case _ => None
  }

  /** It is the current run, unless that has finished. */
  lemma InterruptedIsCurrent(runs: seq<Run>, token: nat, hold: Hold, i: nat)
    requires RunsOk(runs, token) && HoldOk(runs, token, hold)
    ensures Interrupted(runs, hold.status) == Some(i) <==> Current(runs, token, i) && !runs[i].finished
  {
    if Current(runs, token, i) {
      assert hold.status == Some(OfRun(i)) && RunOk(runs[i], true);
    }
  }

  lemma OnlyCurrentIsInterrupted(runs: seq<Run>, token: nat, hold: Hold)
    requires RunsOk(runs, token) && HoldOk(runs, token, hold)
    ensures forall i: nat :: Current(runs, token, i) && !runs[i].finished ==> Interrupted(runs, hold.status) == Some(i)
    ensures Interrupted(runs, hold.status).Some? ==>
              && Current(runs, token, Interrupted(runs, hold.status).value)
              && !runs[Interrupted(runs, hold.status).value].finished
  {
    forall i: nat | Current(runs, token, i) && !runs[i].finished ensures Interrupted(runs, hold.status) == Some(i) {
      InterruptedIsCurrent(runs, token, hold, i);
    }
    if Interrupted(runs, hold.status).Some? {
      InterruptedIsCurrent(runs, token, hold, Interrupted(runs, hold.status).value);
    }
  }

  lemma WithdrawKeepsAll(runs: seq<Run>, token: nat, hold: Hold, trail: seq<Written>, calls: multiset<(nat, Path)>)
    requires AllOk(runs, token, hold, trail, calls) && Interrupted(runs, hold.status).None?
    ensures AllOk(runs, token + 1, Hold(None, None, hold.status), trail, calls)
  {
    Supersede(runs, token, trail);
  }

  function CancelledRun(r: Run): Run {
    r.(status := r.status.(state := Cancelled))
  }

  lemma CancelKeepsAll(runs: seq<Run>, token: nat, hold: Hold, trail: seq<Written>, calls: multiset<(nat, Path)>, i: nat)
    requires AllOk(runs, token, hold, trail, calls) && i < |runs| && runs[i].status.state.Recovering?
    ensures AllOk(runs[i := CancelledRun(runs[i])], token + 1, Hold(None, None, Some(OfRun(i))),
                  trail + [Written(ByCancel, token + 1, CancelledRun(runs[i]).status)], calls)
  {
    Supersede(runs, token, trail);
    var r := CancelledRun(runs[i]);
    assert RunOk(r, false);
    RunIsReadable(r, false);
    assert RunCalls(runs[i], i, calls) && calls + multiset{} == calls;
    StepKeepsCalls(runs, calls, i, r, multiset{});
    forall k | 0 <= k < |trail| ensures EntryOk(runs[i := r], trail[k]) {
      assert EntryOk(runs, trail[k]);
    }
  }

  function LossStatus(reason: string): Status {
    var path := Degraded(0, SafeRecoveryReason(reason, UNAVAILABLE));
    Status("", SomeDegraded, Both(path, path))
  }

  lemma LossIsReadable(reason: string)
    ensures Readable(LossStatus(reason))
  {
    SafeIffKeepable(reason);
    OwnReasonsAreReadable();
  }

  lemma LossKeepsAll(runs: seq<Run>, token: nat, hold: Hold, trail: seq<Written>, calls: multiset<(nat, Path)>,
                     reason: string)
    requires AllOk(runs, token, hold, trail, calls)
    ensures AllOk(runs, token + 1, Hold(None, None, Some(Loss(LossStatus(reason)))),
                  trail + [Written(ByLoss, token + 1, LossStatus(reason))], calls)
  {
    Supersede(runs, token, trail);
    LossIsReadable(reason);
  }

  lemma CallsAreBounded(runs: seq<Run>, token: nat, calls: multiset<(nat, Path)>, i: nat, p: Path)
    requires RunsOk(runs, token) && CallsOk(runs, calls)
    ensures calls[(i, p)] <= MAX_ATTEMPTS
  {
    if i < |runs| {
      assert RunCalls(runs[i], i, calls) && RunOk(runs[i], runs[i].token == token);
    } else {
      assert (i, p) !in calls;
    }
  }

  /** One path moves, and calls its operation at most once. */
  lemma PathCalls(r: Run, i: nat, p: Path, path: PathRun, st: PathStatus,
                  calls: multiset<(nat, Path)>, called: multiset<(nat, Path)>)
    requires RunCalls(r, i, calls)
    requires called == if Calls(path) > Calls(r.paths.Get(p)) then multiset{(i, p)} else multiset{}
    requires Calls(r.paths.Get(p)) <= Calls(path) <= Calls(r.paths.Get(p)) + 1
    ensures RunCalls(WithPath(r, p, path, st), i, calls + called)
  {}

  /** The file says `recovered` exactly when the current run has finished and both operations said yes. */
  lemma RecoveredExactly(runs: seq<Run>, token: nat, hold: Hold, trail: seq<Written>, calls: multiset<(nat, Path)>, i: nat)
    requires AllOk(runs, token, hold, trail, calls) && Current(runs, token, i)
    ensures Last(trail).Some?
    ensures Last(trail).value.state.AllRecovered? <==> runs[i].finished && BothSaidYes(runs[i])
    ensures Last(trail).value.state.SomeDegraded? <==> runs[i].finished && !BothSaidYes(runs[i])
  {
    assert RunOk(runs[i], true);
  }

  /** And if it ever said so, for whatever run, both operations of that run had said yes. */
  lemma RecoveredNeverLies(runs: seq<Run>, token: nat, hold: Hold, trail: seq<Written>, calls: multiset<(nat, Path)>, k: nat)
    requires AllOk(runs, token, hold, trail, calls) && k < |trail| && trail[k].status.state.AllRecovered?
    ensures trail[k].writer.ByRun? && trail[k].writer.run < |runs|
    ensures runs[trail[k].writer.run].token == trail[k].token && BothSaidYes(runs[trail[k].writer.run])
  {
    assert EntryOk(runs, trail[k]);
  }

  class Controller {
    var token: nat
    var activeEpoch: Option<string>
    var active: Option<nat>
    var status: Option<Held>
    var runs: seq<Run>
    var file: Option<Status>
    ghost var trail: seq<Written>
    ghost var calls: multiset<(nat, Path)>     // every call of an operation, by run and path

    ghost predicate Valid()
      reads this
    {
      AllOk(runs, token, Hold(activeEpoch, active, status), trail, calls) && file == Last(trail)
    }

    constructor ()
      ensures Valid() && runs == [] && file == None && trail == []
    {
      token, activeEpoch, active, status, runs, file := 0, None, None, None, [], None;
      trail, calls := [], multiset{};
    }

    /** Every write since `was` happened under a token of at least `from`. */
    ghost predicate Extended(was: seq<Written>, from: nat)
      reads this
    {
      was <= trail && token >= from && forall k :: |was| <= k < |trail| ==> trail[k].token >= from
    }

    /** Runs are only added, and keep their tokens. */
    ghost predicate Kept(was: seq<Run>)
      reads this
    {
      |was| <= |runs| && forall i :: 0 <= i < |was| ==> runs[i].token == was[i].token
    }

    /** Nothing but path `p` of run `i` is different from `was`. */
    ghost predicate Only(was: seq<Run>, i: nat, p: Path)
      reads this
    {
      && i < |was| == |runs| && (forall j :: 0 <= j < |runs| && j != i ==> runs[j] == was[j])
      && runs[i] == WithPath(was[i], p, runs[i].paths.Get(p), runs[i].status.paths.Get(p))
    }

    /** `write`, on a status that has already been changed. */
    method Write(st: Status, tokenOfWriter: nat, ghost writer: Writer)
      modifies this`file, this`trail
      ensures tokenOfWriter == token ==> file == Some(st) && trail == old(trail) + [Written(writer, token, st)]
      ensures tokenOfWriter != token ==> file == old(file) && trail == old(trail)
    {
      if tokenOfWriter == token {
        file := Some(st);
        trail := trail + [Written(writer, token, st)];
      }
    }

    /** Sets the fields, then writes `st` if there is one to write: kept apart so that its proof is. */
    method Become(runs': seq<Run>, token': nat, hold: Hold, st: Option<(Status, nat, Writer)>,
                  ghost calls': multiset<(nat, Path)>)
      requires file == Last(trail)
      requires AllOk(runs', token', hold, TrailAfter(trail, token', st), calls')
      modifies this
      ensures Valid() && runs == runs' && token == token' && calls == calls'
      ensures Hold(activeEpoch, active, status) == hold && trail == TrailAfter(old(trail), token', st)
      ensures Extended(old(trail), token')
    {
      runs, token, calls := runs', token', calls';
      activeEpoch, active, status := hold.activeEpoch, hold.active, hold.status;
      if st.Some? {
        Write(st.value.0, st.value.1, st.value.2);
      }
    }

    /** A run changes its own state, and writes when it says so. */
    method Advance(i: nat, r: Run, write: bool, ghost called: multiset<(nat, Path)>)
      requires Valid() && Steps(runs, token, i, r, write)
      requires RunCalls(r, i, calls + called) && forall j, p :: j != i ==> (j, p) !in called
      modifies this
      ensures Valid() && runs == old(runs)[i := r] && token == old(token)
      ensures Hold(activeEpoch, active, status) == old(Hold(activeEpoch, active, status))
      ensures write && r.token == token ==>
                file == Some(r.status) && trail == old(trail) + [Written(ByRun(i), token, r.status)]
      ensures !write || r.token != token ==> file == old(file) && trail == old(trail)
      ensures calls == old(calls) + called
    {
      var hold := Hold(activeEpoch, active, status);
      StepKeepsAll(runs, token, hold, trail, calls, i, r, write, called);
      Become(runs[i := r], token, hold, if write then Some((r.status, r.token, ByRun(i))) else None, calls + called);
    }

    /** Path `p` of run `i` goes on to `path`, with status `st`. */
    method AdvancePath(i: nat, p: Path, path: PathRun, st: PathStatus, write: bool)
      requires Valid() && i < |runs|
      requires !runs[i].finished && PathOk(path, st, Current(runs, token, i))
      requires Calls(runs[i].paths.Get(p)) <= Calls(path) <= Calls(runs[i].paths.Get(p)) + 1
      requires Current(runs, token, i) && !write ==> st == runs[i].status.paths.Get(p)
      modifies this
      ensures token == old(token) && Hold(activeEpoch, active, status) == old(Hold(activeEpoch, active, status))
      ensures Valid() && runs == old(runs)[i := WithPath(old(runs[i]), p, path, st)]
      ensures if write && Current(old(runs), token, i)
              then file == Some(runs[i].status) && trail == old(trail) + [Written(ByRun(i), token, runs[i].status)]
              else file == old(file) && trail == old(trail)
      ensures Extended(old(trail), token) && Kept(old(runs)) && Only(old(runs), i, p)
      ensures runs[i].paths.Get(p) == path && runs[i].status.paths.Get(p) == st
      ensures calls == if Calls(path) > Calls(old(runs[i].paths.Get(p))) then old(calls) + multiset{(i, p)} else old(calls)
    {
      var r := WithPath(runs[i], p, path, st);
      WithPathOk(runs[i], Current(runs, token, i), p, path, st);
      ghost var called := if Calls(path) > Calls(runs[i].paths.Get(p)) then multiset{(i, p)} else multiset{};
      PathCalls(runs[i], i, p, path, st, calls, called);
      assert Current(runs, token, i) && !write ==> r.status.paths == runs[i].status.paths;
      Advance(i, r, write, called);
      PathMoved(old(runs), i, p, path, st);
    }

    lemma PathMoved(was: seq<Run>, i: nat, p: Path, path: PathRun, st: PathStatus)
      requires i < |was| && runs == was[i := WithPath(was[i], p, path, st)]
      ensures Kept(was) && Only(was, i, p)
      ensures runs[i].paths.Get(p) == path && runs[i].status.paths.Get(p) == st
    {}

    /** A new run, which makes every older one stale. */
    method StartRun(epoch: string)
      requires Valid()
      modifies this
      ensures Valid() && runs == old(runs) + [Fresh(epoch, token)] && token == old(token) + 1 && calls == old(calls)
      ensures activeEpoch == Some(epoch) && active == Some(|old(runs)|)
      ensures file == Some(Fresh(epoch, token).status)
      ensures trail == old(trail) + [Written(ByRun(|old(runs)|), token, Fresh(epoch, token).status)]
    {
      StartKeepsAll(runs, token, trail, calls, epoch);
      var n, first := |runs|, Fresh(epoch, token + 1);
      Become(runs + [first], token + 1, Hold(Some(epoch), Some(n), Some(OfRun(n))),
             Some((first.status, token + 1, ByRun(n))), calls);
    }

    /** Starts a run, unless the epoch is the active one: then the run is the one that is already there. */
    method Recover(epoch: string) returns (run: nat)
      requires Valid()
      modifies this
      ensures Valid() && Extended(old(trail), old(token)) && Kept(old(runs))
      ensures old(activeEpoch) == Some(epoch) ==>
                && old(active) == Some(run) && runs == old(runs) && token == old(token)
                && file == old(file) && trail == old(trail) && calls == old(calls)
      ensures old(activeEpoch) != Some(epoch) ==>
                && token == old(token) + 1 && run == |old(runs)| && |runs| == run + 1 && runs[..run] == old(runs)
                && runs[run] == Run(token, Status(epoch, Recovering, Both(Pending(0), Pending(0))),
                                    Both(PathRun(Ready(1), []), PathRun(Ready(1), [])), false)
                && file == Some(runs[run].status) && calls == old(calls)
      ensures activeEpoch == Some(epoch) && Current(runs, token, run)
    {
      if activeEpoch == Some(epoch) && active.Some? {
        run := active.value;
      } else {
        run := |runs|;
        StartRun(epoch);
      }
    }

    /** The top of a path's loop: superseded, past the deadline, or one more call of the operation. */
    method Begin(i: nat, p: Path, late: bool)
      requires Valid() && i < |runs| && runs[i].paths.Get(p).stage.Ready?
      modifies this
      ensures token == old(token) && Hold(activeEpoch, active, status) == old(Hold(activeEpoch, active, status))
      ensures Valid() && Extended(old(trail), token) && Kept(old(runs))
      ensures Only(old(runs), i, p) && runs[i].paths.Get(p).answers == old(runs[i].paths.Get(p).answers)
      ensures !Current(runs, token, i) ==>
                && runs[i].paths.Get(p).stage.Over? && runs[i].status == old(runs[i].status)
                && calls == old(calls) && file == old(file) && trail == old(trail)
      ensures Current(runs, token, i) && late ==>
                && runs[i].paths.Get(p).stage.Over? && calls == old(calls) && file == Some(runs[i].status)
                && runs[i].status.paths.Get(p) == Degraded(|runs[i].paths.Get(p).answers|, "RECOVERY_DEADLINE_EXCEEDED")
      ensures Current(runs, token, i) && !late ==>
                && runs[i].paths.Get(p).stage == Calling(old(runs[i].paths.Get(p).stage).attempt)
                && runs[i].status.paths.Get(p) == Pending(old(runs[i].paths.Get(p).stage).attempt)
                && calls == old(calls) + multiset{(i, p)} && file == Some(runs[i].status)
    {
      var path, st, current := runs[i].paths.Get(p), runs[i].status.paths.Get(p), token == runs[i].token;
      assert PathOk(path, st, current) by { PathIsOk(runs[i], current, p); }
      var attempt := path.stage.attempt;
      var next, st' := path.(stage := Over), st;
      if current && late {
        st' := Degraded(st.attempts, DEADLINE_EXCEEDED);
      } else if current {
        next, st' := path.(stage := Calling(attempt)), Pending(attempt);
      }
      AdvancePath(i, p, next, st', current);
    }

    /** The operation has answered, or the timer won the race, or it threw. */
    method Settle(i: nat, p: Path, answer: Answer)
      requires Valid() && i < |runs| && runs[i].paths.Get(p).stage.Calling?
      modifies this
      ensures token == old(token) && Hold(activeEpoch, active, status) == old(Hold(activeEpoch, active, status))
      ensures Valid() && Extended(old(trail), token) && Kept(old(runs)) && calls == old(calls)
      ensures Only(old(runs), i, p) && runs[i].paths.Get(p).answers == old(runs[i].paths.Get(p).answers) + [answer]
      ensures runs[i].paths.Get(p).stage ==
              if old(runs[i].paths.Get(p).stage).attempt < 6 && (answer.Threw? || (answer.Refused? && Current(runs, token, i)))
              then Ready(old(runs[i].paths.Get(p).stage).attempt + 1) else Over
      ensures !Current(runs, token, i) || runs[i].paths.Get(p).stage.Ready? ==>
                runs[i].status == old(runs[i].status) && file == old(file) && trail == old(trail)
      ensures Current(runs, token, i) && runs[i].paths.Get(p).stage.Over? ==>
                && file == Some(runs[i].status)
                && match answer
                   case Yes => runs[i].status.paths.Get(p) == Recovered(old(runs[i].paths.Get(p).stage).attempt)
                   case _ =>
                     && runs[i].status.paths.Get(p).Degraded? && runs[i].status.paths.Get(p).attempts == 6
                     && Tells(answer, runs[i].status.paths.Get(p).reason)
    {
      var path, st, current := runs[i].paths.Get(p), runs[i].status.paths.Get(p), token == runs[i].token;
      assert PathOk(path, st, current) by { PathIsOk(runs[i], current, p); }
      var attempt := path.stage.attempt;
      var heard := path.answers + [answer];
      assert heard[..attempt - 1] == path.answers;
      var next, st', write := PathRun(Over, heard), st, false;
      if answer.Threw? || current {
        if answer.Yes? {
          st', write := Recovered(attempt), true;
        } else if attempt < MAX_ATTEMPTS {
          next := PathRun(Ready(attempt + 1), heard);
        } else if current {
          st', write := Degraded(st.attempts, ReasonOf(answer)), true;
          ReasonIsTold(answer);
        }
      }
      AdvancePath(i, p, next, st', write);
    }

    /** Both paths have returned. */
    method Finish(i: nat)
      requires Valid() && i < |runs| && BothOver(runs[i]) && !runs[i].finished
      modifies this
      ensures token == old(token) && Hold(activeEpoch, active, status) == old(Hold(activeEpoch, active, status))
      ensures Valid() && Extended(old(trail), token) && Kept(old(runs)) && calls == old(calls)
      ensures |runs| == |old(runs)| && runs[i].paths == old(runs[i].paths) && runs[i].finished
      ensures runs[i].status.paths == old(runs[i].status.paths) && runs[i].status.epoch == old(runs[i].status.epoch)
      ensures forall j :: 0 <= j < |runs| && j != i ==> runs[j] == old(runs[j])
      ensures !Current(runs, token, i) ==>
                runs[i].status.state.Cancelled? && file == old(file) && trail == old(trail)
      ensures Current(runs, token, i) ==>
                && file == Some(runs[i].status)
                && (runs[i].status.state.AllRecovered? <==> BothSaidYes(runs[i]))
                && (runs[i].status.state.SomeDegraded? <==> !BothSaidYes(runs[i]))
    {
      var r := runs[i].(finished := true);
      assert multiset{} + calls == calls;
      if token != r.token {
        Advance(i, r.(status := r.status.(state := Cancelled)), false, multiset{});
      } else {
        var state := if r.status.paths.agent.Recovered? && r.status.paths.owner.Recovered? then AllRecovered else SomeDegraded;
        Advance(i, r.(status := r.status.(state := state)), true, multiset{});
      }
    }

    method Interrupt(i: nat)
      requires Valid() && Interrupted(runs, status) == Some(i)
      modifies this
      ensures Valid() && Extended(old(trail), token) && calls == old(calls)
      ensures token == old(token) + 1 && activeEpoch == None
      ensures runs == old(runs)[i := CancelledRun(old(runs)[i])] && file == Some(runs[i].status)
    {
      CancelKeepsAll(runs, token, Hold(activeEpoch, active, status), trail, calls, i);
      var r := CancelledRun(runs[i]);
      Become(runs[i := r], token + 1, Hold(None, None, status), Some((r.status, token + 1, ByCancel)), calls);
    }

    /** Withdraws the active run; one that was still recovering is written down as cancelled. */
    method Cancel()
      requires Valid()
      modifies this
      ensures Valid() && Extended(old(trail), old(token) + 1) && Kept(old(runs)) && calls == old(calls)
      ensures token == old(token) + 1 && activeEpoch == None
      ensures (forall i: nat :: Current(old(runs), old(token), i) ==> old(runs)[i].finished) ==>
                runs == old(runs) && file == old(file) && trail == old(trail)
      ensures forall i: nat :: Current(old(runs), old(token), i) && !old(runs)[i].finished ==>
                && file == Some(old(runs)[i].status.(state := Cancelled))
                && runs == old(runs)[i := old(runs)[i].(status := old(runs)[i].status.(state := Cancelled))]
    {
      OnlyCurrentIsInterrupted(runs, token, Hold(activeEpoch, active, status));
      match Interrupted(runs, status)
      case None =>
        WithdrawKeepsAll(runs, token, Hold(activeEpoch, active, status), trail, calls);
        Become(runs, token + 1, Hold(None, None, status), None, calls);
      case Some(i) => Interrupt(i);
    }

    /** The daemon is gone: whatever runs is stale, and both paths are written down as degraded. */
    method NoteLoss(reason: string)
      requires Valid()
      modifies this
      ensures Valid() && Extended(old(trail), old(token) + 1) && Kept(old(runs)) && calls == old(calls)
      ensures token == old(token) + 1 && activeEpoch == None && runs == old(runs)
      ensures file.Some? && file.value.epoch == "" && file.value.state == SomeDegraded
      ensures file.value.paths.agent == file.value.paths.owner
              == Degraded(0, if Keepable(reason) then reason else "DAEMON_UNAVAILABLE")
      ensures trail == old(trail) + [Written(ByLoss, token, file.value)]
    {
      SafeIffKeepable(reason);
      var st := LossStatus(reason);
      LossKeepsAll(runs, token, Hold(activeEpoch, active, status), trail, calls, reason);
      ghost var after := trail + [Written(ByLoss, token + 1, st)];
      assert TrailAfter(trail, token + 1, Some((st, token + 1, ByLoss))) == after;
      Become(runs, token + 1, Hold(None, None, Some(Loss(st))), Some((st, token + 1, ByLoss)), calls);
      assert after[|after| - 1].status == st;
    }

    predicate Enabled(a: Action)
      reads this
    {
      match a
      case Begin(i, p, _) => i < |runs| && runs[i].paths.Get(p).stage.Ready?
      case Settle(i, p, _) => i < |runs| && runs[i].paths.Get(p).stage.Calling?
      case Finish(i) => i < |runs| && BothOver(runs[i]) && !runs[i].finished
      case _ => true
    }

    /** One action of the schedule, or nothing if it cannot happen now. */
    method Act(a: Action)
      requires Valid()
      modifies this
      ensures Valid() && Extended(old(trail), old(token)) && Kept(old(runs))
    {
      if Enabled(a) {
        match a
        case Recover(epoch) => var _ := Recover(epoch);
        case Begin(i, p, late) => Begin(i, p, late);
        case Settle(i, p, answer) => Settle(i, p, answer);
        case Finish(i) => Finish(i);
        case Cancel => Cancel();
        case NoteLoss(reason) => NoteLoss(reason);
      }
    }

    /**
     * Any schedule: a run that was superseded when it began writes nothing in it, and no path of
     * any run, old or new, calls its operation more than six times.
     */
    method Drive(schedule: seq<Action>)
      requires Valid()
      modifies this
      ensures Valid() && old(trail) <= trail
      ensures forall k :: |old(trail)| <= k < |trail| && trail[k].writer.ByRun? && trail[k].writer.run < |old(runs)| ==>
                Current(old(runs), old(token), trail[k].writer.run)
      ensures forall i, p :: calls[(i, p)] <= 6
    {
      ghost var was, from, earlier := trail, token, runs;
      for n := 0 to |schedule|
        invariant Valid() && Extended(was, from) && Kept(earlier)
      {
        ghost var before, least, known := trail, token, runs;
        Act(schedule[n]);
        ExtendedOn(was, from, before, least);
        KeptOn(earlier, known);
      }
      forall k | |was| <= k < |trail| && trail[k].writer.ByRun? && trail[k].writer.run < |earlier|
        ensures Current(earlier, from, trail[k].writer.run)
      {
        assert EntryOk(runs, trail[k]);
      }
      forall i, p ensures calls[(i, p)] <= MAX_ATTEMPTS { CallsAreBounded(runs, token, calls, i, p); }
    }

    lemma ExtendedOn(was: seq<Written>, from: nat, before: seq<Written>, least: nat)
      requires was <= before && least >= from && Extended(before, least)
      requires forall k :: |was| <= k < |before| ==> before[k].token >= from
      ensures Extended(was, from)
    {}

    lemma KeptOn(was: seq<Run>, known: seq<Run>)
      requires |was| <= |known| && (forall i :: 0 <= i < |was| ==> known[i].token == was[i].token) && Kept(known)
      ensures Kept(was)
    {}
  }
}
