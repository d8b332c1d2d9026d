/**
 * Which run of a process a recorded pid names, over a host whose pids are
 * reused, whose processes exit, and which reboots.
 *
 * A boot id and a start time are only ever compared for equality, so both are
 * numbers here.  Any probe may fail, which is the `None` of a reading.
 */
module Incarnation {
  import opened Options

  type Pid = nat

  /** One run of a process; `uid` tells apart runs that no marker can tell apart. */
  datatype Run = Run(uid: nat, pid: Pid, boot: nat, start: nat)

  datatype Host = Host(boot: nat, boots: set<nat>, ticks: nat, nextUid: nat, live: map<Pid, Run>)

  datatype HostStep =
    | Spawn(pid: Pid)
    | Exit(pid: Pid)
    | Tick
    | Reboot(boot: nat)

  ghost predicate HostNext(h: Host, step: HostStep, h': Host) {
    match step
    case Spawn(pid) =>
      && pid !in h.live
      && h' == h.(live := h.live[pid := Run(h.nextUid, pid, h.boot, h.ticks)], nextUid := h.nextUid + 1)
    case Exit(pid) => h' == h.(live := h.live - {pid})
    case Tick => h' == h.(ticks := h.ticks + 1)
    case Reboot(boot) =>
      && boot !in h.boots
      && h' == h.(boot := boot, boots := h.boots + {boot}, ticks := 0, live := map[])
  }

  ghost predicate HostInv(h: Host) {
    && h.boot in h.boots
    && forall pid :: pid in h.live ==>
         var r := h.live[pid]; r.pid == pid && r.boot == h.boot && r.uid < h.nextUid
  }

  predicate Live(h: Host, r: Run) {
    r.pid in h.live && h.live[r.pid] == r
  }

  lemma HostKeepsInv(h: Host, step: HostStep, h': Host)
    requires HostInv(h) && HostNext(h, step, h')
    ensures HostInv(h') && h.nextUid <= h'.nextUid
  {}

  /** Death is permanent: a run that was ever given out and has ended never runs again. */
  lemma EndedStaysEnded(h: Host, step: HostStep, h': Host, r: Run)
    requires HostNext(h, step, h') && r.uid < h.nextUid && Live(h', r)
    ensures Live(h, r)
  {}

  // ---- markers and probes ------------------------------------------------

  /** The `boot` and `start` a record carries, each absent where it could not be read. */
  datatype Markers = Markers(boot: Option<nat>, start: Option<nat>)

  datatype Signal = Delivered | NoSuchProcess | NotPermitted

  /** What signal 0, the boot id and the start time answered for one pid. */
  datatype Reading = Reading(signal: Signal, markers: Markers)

  ghost predicate Honest(h: Host, pid: Pid, p: Reading) {
    && (p.signal.NoSuchProcess? <==> pid !in h.live)
    && (p.markers.boot.Some? ==> p.markers.boot.value == h.boot)
    && (p.markers.start.Some? ==> pid in h.live && p.markers.start.value == h.live[pid].start)
  }

  /** `m` could have been recorded by run `r` about itself: a marker is right or absent. */
  predicate RecordedBy(m: Markers, r: Run) {
    && (m.boot.Some? ==> m.boot.value == r.boot)
    && (m.start.Some? ==> m.start.value == r.start)
  }

  predicate Differs(recorded: Option<nat>, now: Option<nat>) {
    recorded.Some? && now.Some? && now.value != recorded.value
  }

  predicate IncarnationEnded(recorded: Markers, now: Markers) {
    Differs(recorded.boot, now.boot) || Differs(recorded.start, now.start)
  }

  /** The bakery's verdict: only ESRCH counts as a missing process. */
  predicate JudgedDead(recorded: Markers, p: Reading) {
    p.signal.NoSuchProcess? || IncarnationEnded(recorded, p.markers)
  }

  /** The directory lock's verdict: every failed signal, EPERM included, counts as missing. */
  predicate JudgedDeadByDirectoryLock(recorded: Markers, p: Reading) {
    !p.signal.Delivered? || IncarnationEnded(recorded, p.markers)
  }

  /** What a live run records about itself is always `RecordedBy` it. */
  lemma OwnMarkersAreRight(h: Host, r: Run, p: Reading)
    requires HostInv(h) && Live(h, r) && Honest(h, r.pid, p)
    ensures RecordedBy(p.markers, r)
  {}

  /** The liveness check is sound: a run judged dead has ended, whatever its pid names now. */
  lemma DeadVerdictIsSound(h: Host, r: Run, m: Markers, p: Reading)
    requires HostInv(h) && RecordedBy(m, r) && Honest(h, r.pid, p) && JudgedDead(m, p)
    ensures !Live(h, r)
  {}

  /**
   * The directory lock's check is right about a live run exactly when signal 0
   * was not refused: for a holder run by another user EPERM reads as death.
   */
  lemma DirectoryLockVerdictOnLiveRun(h: Host, r: Run, m: Markers, p: Reading)
    requires HostInv(h) && RecordedBy(m, r) && Honest(h, r.pid, p) && Live(h, r)
    ensures JudgedDeadByDirectoryLock(m, p) <==> p.signal.NotPermitted?
  {}

  /**
   * About a run that has ended, the directory lock's check is right unless its pid is in use
   * again, the signal was delivered, and no marker that is recorded and readable differs.
   */
  lemma DirectoryLockVerdictOnEndedRun(h: Host, r: Run, m: Markers, p: Reading)
    requires Honest(h, r.pid, p) && !Live(h, r)
    ensures !JudgedDeadByDirectoryLock(m, p) <==>
            && r.pid in h.live && p.signal == Delivered
            && (m.boot.Some? && p.markers.boot.Some? ==> m.boot.value == h.boot)
            && (m.start.Some? && p.markers.start.Some? ==> m.start.value == h.live[r.pid].start)
  {}

  /** With everything recorded and readable and the signal permitted, its verdict is as exact as the bakery's. */
  lemma DirectoryLockVerdictIsExact(h: Host, r: Run, m: Markers, p: Reading)
    requires HostInv(h) && Honest(h, r.pid, p) && !p.signal.NotPermitted?
    requires m == Markers(Some(r.boot), Some(r.start))
    requires p.markers.boot.Some? && (r.pid in h.live ==> p.markers.start.Some?)
    ensures JudgedDeadByDirectoryLock(m, p) <==> !Live(h, r) && !ReusedInSameTick(h, r)
  {
    if r.pid in h.live && h.live[r.pid] == r {
      assert h.live[r.pid].boot == h.boot;
    }
  }

  /** A record that names no run of this moment: its pid is free, or a marker of it is of another boot or start. */
  predicate Unmistakable(h: Host, pid: Pid, m: Markers) {
    || pid !in h.live
    || (m.boot.Some? && m.boot.value != h.boot)
    || (m.start.Some? && m.start.value != h.live[pid].start)
  }

  /** The answer to a probe when nothing fails. */
  function FullReading(h: Host, pid: Pid): Reading {
    if pid in h.live then Reading(Delivered, Markers(Some(h.boot), Some(h.live[pid].start)))
    else Reading(NoSuchProcess, Markers(Some(h.boot), None))
  }

  /** When no probe fails, both locks see through exactly such records. */
  lemma FullReadingTells(h: Host, pid: Pid, m: Markers)
    ensures Honest(h, pid, FullReading(h, pid))
    ensures JudgedDead(m, FullReading(h, pid)) <==> Unmistakable(h, pid, m)
    ensures JudgedDeadByDirectoryLock(m, FullReading(h, pid)) <==> Unmistakable(h, pid, m)
  {}

  /** The pid was given to another run within the same clock tick of the same boot. */
  predicate ReusedInSameTick(h: Host, r: Run) {
    r.pid in h.live && h.live[r.pid] != r && h.boot == r.boot && h.live[r.pid].start == r.start
  }

  /** With both markers recorded and readable the verdict is exact up to reuse within one tick. */
  lemma DeadVerdictIsExact(h: Host, r: Run, m: Markers, p: Reading)
    requires HostInv(h) && Honest(h, r.pid, p)
    requires m == Markers(Some(r.boot), Some(r.start))
    requires p.markers.boot.Some? && (r.pid in h.live ==> p.markers.start.Some?)
    ensures JudgedDead(m, p) <==> !Live(h, r) && !ReusedInSameTick(h, r)
  {
    if r.pid in h.live && h.live[r.pid] == r {
      assert h.live[r.pid].boot == h.boot;
    }
  }
}
