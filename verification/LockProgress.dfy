/**
 * What module DirectoryLock only permits, its calls can also do: a holder lets go, a free lock is
 * taken, and the lock of an owner that is recognisably gone is reclaimed and taken over, each by
 * the steps of one call alone.  Expiry is a free choice there, so these are the runs in which
 * the call waits no longer than it has to.
 */
module LockProgress {
  import opened Options
  import opened Incarnation
  import opened DirectoryLock
  import B = Bakery

  /** The code of call `c`, and inside the bakery that of its contender `n`. */
  predicate OwnStep(step: Step, c: CallId, n: B.Name) {
    step.c == c && (step.Contend? ==> B.StepOf(step.step, n))
  }

  ghost predicate Sound(h: History) {
    IsHistory(h) && NoHazard(h)
  }

  /** `h'` goes on from `h` by steps of `c` alone. */
  ghost predicate Follows(h': History, h: History, c: CallId, n: B.Name) {
    h' == h || (h'.Then? && OwnStep(h'.step, c, n) && Follows(h'.past, h, c, n))
  }

  lemma {:induction false} FollowsOn(h'': History, h': History, h: History, c: CallId, n: B.Name)
    requires Follows(h'', h', c, n) && Follows(h', h, c, n)
    ensures Follows(h'', h, c, n)
  {
    if h'' != h' {
      FollowsOn(h''.past, h', h, c, n);
    }
  }

  /** One step of `c` more, on what follows from `h0`. */
  lemma Taking(h0: History, h: History, c: CallId, n: B.Name, step: Step, s: State) returns (h': History)
    requires Sound(h) && Follows(h, h0, c, n) && OwnStep(step, c, n) && Next(h.now, step, s) && !Hazard(h.now, step)
    ensures Sound(h') && Follows(h', h0, c, n) && h'.now == s
  {
    h' := Then(h, step, s);
  }

  /** The last phase counts. */
  lemma AtTwice(s: State, c: CallId, p: Phase, p': Phase)
    requires c in s.calls
    ensures At(At(s, c, p), c, p') == At(s, c, p')
  {}

  // ---- coming and going ----------------------------------------------------------------------

  lemma Arrives(h0: History, h: History, c: CallId, n: B.Name, stamp: int) returns (h': History)
    requires Sound(h) && Follows(h, h0, c, n) && Alive(h.now, c) && PhaseOf(h.now, c).Trying? && h.now.lock.None?
    ensures Sound(h') && Follows(h', h0, c, n) && Alive(h'.now, c) && PhaseOf(h'.now, c).Holding?
    ensures h'.now.lock.Some? && h'.now.lock.value.owner.token == c && h'.now.lock.value.stamp == stamp
    ensures h'.now.bakery == h.now.bakery
  {
    var process := h.now.calls[c].process;
    var own := FullReading(h.now.bakery.host, process.pid);
    FullReadingTells(h.now.bakery.host, process.pid, own.markers);
    var lock := Some(Lock(stamp, Owner(c, process.pid, own.markers)));
    h' := Taking(h0, h, c, n, Publish(c, stamp, own), At(h.now.(lock := lock), c, Holding));
  }

  /** A holder lets go of its lock. */
  lemma Releases(h: History, c: CallId, n: B.Name) returns (h': History)
    requires Sound(h) && Alive(h.now, c) && PhaseOf(h.now, c).Holding?
    ensures Sound(h') && Follows(h', h, c, n) && h'.now.lock.None?
    ensures c in h'.now.calls && PhaseOf(h'.now, c).Finished?
  {
    HistoryKeepsInv(h);
    assert Follows(h, h, c, n);
    var h1 := Taking(h, h, c, n, CheckRelease(c), At(h.now, c, Releasing));
    h' := Taking(h, h1, c, n, Release(c), At(h1.now.(lock := None), c, Finished));
  }

  /** A caller that has found a lock in place may stop at every point before the reclaim section, and nothing is changed. */
  lemma StandsBack(h: History, c: CallId, n: B.Name) returns (h': History)
    requires Sound(h) && Alive(h.now, c)
    requires var p := PhaseOf(h.now, c); p.Trying? || p.Refused? || p.SawOwner? || p.Observed? || p.Suspects? || p.Condemned?
    ensures Sound(h') && Follows(h', h, c, n) && h'.now == At(h.now, c, Finished)
  {
    assert Follows(h, h, c, n);
    if PhaseOf(h.now, c).Trying? {
      h' := Taking(h, h, c, n, Abandon(c), At(h.now, c, Finished));
    } else {
      var h1 := Taking(h, h, c, n, BackOff(c), At(h.now, c, Trying));
      AtTwice(h.now, c, Trying, Finished);
      h' := Taking(h, h1, c, n, Abandon(c), At(h.now, c, Finished));
    }
  }

  /** `h'` goes on from `h` by the code of `c` alone, whatever has gone wrong before. */
  ghost predicate Runs(h': History, h: History, c: CallId, n: B.Name) {
    h' == h || (h'.Then? && OwnStep(h'.step, c, n) && Next(h'.past.now, h'.step, h'.now) && Runs(h'.past, h, c, n))
  }

  /** A holder whose lock has been taken from it, as the two hazards allow, never takes away that of a successor. */
  lemma {:induction false} ReleaseSparesOthers(h': History, h: History, c: CallId, n: B.Name)
    requires Runs(h', h, c, n) && c in h.now.calls && PhaseOf(h.now, c).Holding?
    requires h.now.lock.Some? ==> h.now.lock.value.owner.token != c
    ensures h'.now.lock == h.now.lock
    ensures c in h'.now.calls && (PhaseOf(h'.now, c).Holding? || PhaseOf(h'.now, c).Finished?)
  {
    if h' != h {
      ReleaseSparesOthers(h'.past, h, c, n);
    }
  }

  // ---- reclamation -----------------------------------------------------------------------------

  function SeenOf(lock: Lock): Bytes {
    Bytes(Some(lock.stamp), Some(lock.owner))
  }

  /** The lock in place names an owner that is recognisably gone. */
  predicate Orphaned(s: State) {
    s.lock.Some? && var o := s.lock.value.owner; Unmistakable(s.bakery.host, o.pid, o.markers)
  }

  lemma Observes(h: History, c: CallId, n: B.Name) returns (h': History)
    requires Sound(h) && Alive(h.now, c) && PhaseOf(h.now, c).Trying? && h.now.lock.Some?
    ensures Sound(h') && Follows(h', h, c, n) && h'.now == At(h.now, c, Observed(SeenOf(h.now.lock.value)))
  {
    var s, lock := h.now, h.now.lock.value;
    assert Follows(h, h, c, n);
    var h1 := Taking(h, h, c, n, Refuse(c), At(s, c, Refused));
    AtTwice(s, c, Refused, SawOwner(Some(lock.owner)));
    var h2 := Taking(h, h1, c, n, ReadOwner(c), At(s, c, SawOwner(Some(lock.owner))));
    AtTwice(s, c, SawOwner(Some(lock.owner)), Observed(SeenOf(lock)));
    h' := Taking(h, h2, c, n, ReadStamp(c), At(s, c, Observed(SeenOf(lock))));
  }

  lemma Condemns(h: History, c: CallId, n: B.Name) returns (h': History)
    requires Sound(h) && Alive(h.now, c) && PhaseOf(h.now, c).Trying? && Orphaned(h.now)
    ensures Sound(h') && Follows(h', h, c, n) && h'.now == At(h.now, c, Condemned(SeenOf(h.now.lock.value)))
  {
    var s, seen, o := h.now, SeenOf(h.now.lock.value), h.now.lock.value.owner;
    var h1 := Observes(h, c, n);
    AtTwice(s, c, Observed(seen), Suspects(seen, Some(o)));
    var h2 := Taking(h, h1, c, n, ReadSuspect(c), At(s, c, Suspects(seen, Some(o))));
    var probe := FullReading(s.bakery.host, o.pid);
    FullReadingTells(s.bakery.host, o.pid, o.markers);
    AtTwice(s, c, Suspects(seen, Some(o)), Condemned(seen));
    h' := Taking(h, h2, c, n, Condemn(c, probe), At(s, c, Condemned(seen)));
  }

  /** A trip of `n` through the bakery that is not on its way out. */
  lemma {:induction false} Contending(h0: History, h: History, c: CallId, n: B.Name, from: B.History, end: B.History)
    returns (h': History)
    requires Sound(h) && Follows(h, h0, c, n) && h.now.bakery == from.now && B.Follows(end, from, n)
    requires n in from.now.contenders && n in end.now.contenders
    requires !B.PhaseOf(end.now, n).Leaving? && !B.PhaseOf(end.now, n).Done?
    ensures Sound(h') && Follows(h', h0, c, n) && h'.now == h.now.(bakery := end.now)
    decreases end
  {
    if end == from {
      h' := h;
    } else {
      StaysContender(end.past, from, n);
      NotLeaving(end.past.now, end.step, end.now, n);
      var h1 := Contending(h0, h, c, n, from, end.past);
      h' := Taking(h0, h1, c, n, Contend(c, end.step), h.now.(bakery := end.now));
    }
  }

  lemma {:induction false} StaysContender(end: B.History, from: B.History, n: B.Name)
    requires B.Follows(end, from, n) && n in from.now.contenders
    ensures n in end.now.contenders
  {
    if end != from {
      StaysContender(end.past, from, n);
      B.StepKeepsContenders(end.past.now, end.step, end.now, n);
    }
  }

  lemma NotLeaving(b: B.State, step: B.Step, b': B.State, n: B.Name)
    requires B.Next(b, step, b') && B.StepOf(step, n) && n in b.contenders && n in b'.contenders
    requires !B.PhaseOf(b', n).Leaving? && !B.PhaseOf(b', n).Done?
    ensures !B.PhaseOf(b, n).Leaving? && !B.PhaseOf(b, n).Done? && !step.Finish? && !step.Announce?
  {}

  /** Nobody that might still be alive is in the reclaim section or on its way there. */
  predicate SectionFree(s: State, n: B.Name) {
    n !in s.bakery.contenders && n !in s.bakery.files && B.OthersGone(s.bakery, n)
  }

  lemma Announces(h0: History, h: History, c: CallId, n: B.Name, seen: Bytes) returns (h': History)
    requires Sound(h) && Follows(h, h0, c, n) && Alive(h.now, c) && PhaseOf(h.now, c) == Condemned(seen)
    requires SectionFree(h.now, n)
    ensures Sound(h') && Follows(h', h0, c, n) && h'.now == At(h.now, c, Reclaiming(n, seen)).(bakery := h'.now.bakery)
    ensures h'.now.bakery.host == h.now.bakery.host && B.Running(h'.now.bakery, n)
    ensures B.PhaseOf(h'.now.bakery, n).Choosing? && B.OthersGone(h'.now.bakery, n)
  {
    var s, b := h.now, h.now.bakery;
    var process := s.calls[c].process;
    var own := FullReading(b.host, process.pid);
    FullReadingTells(b.host, process.pid, own.markers);
    var b' := B.Written(b.(contenders := b.contenders[n := B.Contender(process, own.markers, B.Choosing)]), n, true, 0);
    h' := Taking(h0, h, c, n, StartReclaim(c, n, own), At(s.(bakery := b'), c, Reclaiming(n, seen)));
  }

  lemma EntersSection(h0: History, h: History, c: CallId, n: B.Name, seen: Bytes) returns (h': History)
    requires Sound(h) && Follows(h, h0, c, n) && Alive(h.now, c) && PhaseOf(h.now, c) == Condemned(seen)
    requires SectionFree(h.now, n)
    ensures Sound(h') && Follows(h', h0, c, n) && h'.now == At(h.now, c, Reclaiming(n, seen)).(bakery := h'.now.bakery)
    ensures h'.now.bakery.host == h.now.bakery.host && InSection(h'.now, n) && h'.now.bakery.files.Keys == {n}
  {
    var h1 := Announces(h0, h, c, n, seen);
    HistoryKeepsInv(h1);
    var from := B.Start(h1.now.bakery);
    var end := B.GetsInAlone(from, n);
    h' := Contending(h0, h1, c, n, from, end);
  }

  /** In the section it finds the lock it observed, and removes it. */
  lemma Removes(h0: History, h: History, c: CallId, n: B.Name, lock: Lock) returns (h': History)
    requires Sound(h) && Follows(h, h0, c, n) && Alive(h.now, c) && PhaseOf(h.now, c) == Reclaiming(n, SeenOf(lock))
    requires InSection(h.now, n) && h.now.lock == Some(lock)
    ensures Sound(h') && Follows(h', h0, c, n) && h'.now == At(h.now.(lock := None), c, Cleared(n))
  {
    var s, seen := h.now, SeenOf(lock);
    var h1 := Taking(h0, h, c, n, RecheckOwner(c), At(s, c, Rechecked(n, seen, Some(lock.owner))));
    AtTwice(s, c, Rechecked(n, seen, Some(lock.owner)), Matched(n, seen));
    var h2 := Taking(h0, h1, c, n, RecheckStamp(c), At(s, c, Matched(n, seen)));
    h' := Taking(h0, h2, c, n, Remove(c), At(h2.now.(lock := None), c, Cleared(n)));
  }

  /** It leaves the section, and tries again. */
  lemma LeavesSection(h0: History, h: History, c: CallId, n: B.Name) returns (h': History)
    requires Sound(h) && Follows(h, h0, c, n) && Alive(h.now, c) && PhaseOf(h.now, c) == Cleared(n)
    requires InSection(h.now, n)
    ensures Sound(h') && Follows(h', h0, c, n) && Alive(h'.now, c) && PhaseOf(h'.now, c).Trying?
    ensures h'.now.lock == h.now.lock && h'.now.bakery.files == h.now.bakery.files - {n}
  {
    var s, b := h.now, h.now.bakery;
    var b1 := B.At(b, n, B.Leaving);
    var h1 := Taking(h0, h, c, n, Contend(c, B.Finish(n)), s.(bakery := b1));
    var b2 := B.At(b1.(files := b1.files - {n}), n, B.Done);
    var h2 := Taking(h0, h1, c, n, Contend(c, B.Withdraw(n)), s.(bakery := b2));
    h' := Taking(h0, h2, c, n, Resume(c), At(h2.now, c, Trying));
  }

  /** Where the lock is no longer the one it observed, it leaves it in place, takes its claim away and tries again. */
  lemma Spares(h: History, c: CallId, n: B.Name, seen: Bytes) returns (h': History)
    requires Sound(h) && Alive(h.now, c) && PhaseOf(h.now, c) == Reclaiming(n, seen) && InSection(h.now, n)
    requires seen != match h.now.lock case None => Bytes(None, None) case Some(lock) => SeenOf(lock)
    ensures Sound(h') && Follows(h', h, c, n) && Alive(h'.now, c) && PhaseOf(h'.now, c).Trying?
    ensures h'.now.lock == h.now.lock && h'.now.bakery.files == h.now.bakery.files - {n}
  {
    var s, o := h.now, OwnerNow(h.now);
    assert Follows(h, h, c, n);
    var h1 := Taking(h, h, c, n, RecheckOwner(c), At(s, c, Rechecked(n, seen, o)));
    AtTwice(s, c, Rechecked(n, seen, o), Cleared(n));
    var h2 := Taking(h, h1, c, n, RecheckStamp(c), At(s, c, Cleared(n)));
    h' := LeavesSection(h, h2, c, n);
  }

  /** Where it cannot get into the section, it takes its claim away and tries again. */
  lemma GivesUpSection(h: History, c: CallId, n: B.Name, seen: Bytes) returns (h': History)
    requires Sound(h) && Alive(h.now, c) && PhaseOf(h.now, c) == Reclaiming(n, seen)
    requires B.Running(h.now.bakery, n) && B.HoldsClaim(B.PhaseOf(h.now.bakery, n)) && !InSection(h.now, n)
    ensures Sound(h') && Follows(h', h, c, n) && Alive(h'.now, c) && PhaseOf(h'.now, c).Trying?
    ensures h'.now.lock == h.now.lock && h'.now.bakery.files == h.now.bakery.files - {n}
  {
    var s, b := h.now, h.now.bakery;
    assert Follows(h, h, c, n);
    var b1 := B.At(b, n, B.Leaving);
    var h1 := Taking(h, h, c, n, Contend(c, B.GiveUp(n)), s.(bakery := b1));
    var b2 := B.At(b1.(files := b1.files - {n}), n, B.Done);
    var h2 := Taking(h, h1, c, n, Contend(c, B.Withdraw(n)), s.(bakery := b2));
    h' := Taking(h, h2, c, n, Resume(c), At(h2.now, c, Trying));
  }

  /**
   * A dead holder blocks nobody for good: a live call that finds the lock of an owner that is
   * recognisably gone, with nobody alive in the reclaim section, holds the lock under its own
   * token after steps of its own alone, and leaves no claim in the section.
   */
  lemma TakesOver(h: History, c: CallId, n: B.Name, stamp: int) returns (h': History)
    requires Sound(h) && Alive(h.now, c) && PhaseOf(h.now, c).Trying? && Orphaned(h.now) && SectionFree(h.now, n)
    ensures Sound(h') && Follows(h', h, c, n) && Alive(h'.now, c) && PhaseOf(h'.now, c).Holding?
    ensures h'.now.lock.Some? && h'.now.lock.value.owner.token == c && h'.now.lock.value.stamp == stamp
    ensures h'.now.bakery.files == map[]
  {
    var lock := h.now.lock.value;
    var h1 := Condemns(h, c, n);
    var h2 := EntersSection(h, h1, c, n, SeenOf(lock));
    var h3 := Removes(h, h2, c, n, lock);
    var h4 := LeavesSection(h, h3, c, n);
    assert h4.now.bakery.files == map[];
    h' := Arrives(h, h4, c, n, stamp);
  }
}
