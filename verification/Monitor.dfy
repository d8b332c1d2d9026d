/**
 * The supervisor's mail monitor: an observed cursor, a durable delivered cursor and an
 * in-memory batch, between a daemon that serves pages of a growing log and a session that
 * accepts or refuses wakes, on a process that may die before any durable effect.
 */
module Monitor {
  import opened Options

  datatype Event = Event(
    kind: Option<string>, from: Option<string>, msgId: Option<string>, fileId: Option<string>, rest: string)

  // ---- expressions -------------------------------------------------------------------

  function OrEmpty(s: Option<string>): string {
    if s.Some? then s.value else ""
  }

  function NotificationKey(e: Event): Option<string> {
    var id := if e.kind == Some("file_received") then e.fileId else e.msgId;
    if id.None? then None else Some(OrEmpty(e.kind) + "\0" + OrEmpty(e.from) + "\0" + id.value)
  }

  predicate Wakes(e: Event, wake: set<string>) {
    e.kind.Some? && e.kind.value in wake
  }

  function FilterEvents(events: seq<Event>, wake: set<string>): (kept: seq<Event>)
    ensures forall e :: e in kept <==> e in events && e.kind.Some? && e.kind.value in wake
    ensures |kept| <= |events| && (|events| == 1 && Wakes(events[0], wake) ==> kept == events)
  {
    if events == [] then []
    else if Wakes(events[0], wake) then [events[0]] + FilterEvents(events[1..], wake)
    else FilterEvents(events[1..], wake)
  }

  /** Event by event, so that order and repetitions stay. */
  lemma {:induction false} FilterGoesOn(a: seq<Event>, b: seq<Event>, wake: set<string>)
    ensures FilterEvents(a + b, wake) == FilterEvents(a, wake) + FilterEvents(b, wake)
  {
    if a == [] {
      assert a + b == b;
    } else {
      var first, kept := [a[0]], FilterEvents(a[1..], wake);
      assert (a + b)[0] == a[0] && (a + b)[1..] == a[1..] + b;
      FilterGoesOn(a[1..], b, wake);
      assert first + (kept + FilterEvents(b, wake)) == (first + kept) + FilterEvents(b, wake);
    }
  }

  // ---- what a notification key tells apart -----------------------------------------------

  const SEPARATOR := '\0'

  /** The id of an event: of the file for a received file, of the message for any other. */
  predicate HasId(e: Event, id: string) {
    if e.kind == Some("file_received") then e.fileId == Some(id) else e.msgId == Some(id)
  }

  /** An absent part counts as an empty one. */
  predicate Alike(x: Option<string>, y: Option<string>) {
    x == y || (x in {None, Some("")} && y in {None, Some("")})
  }

  /** One notification: the same kind, sender and id. */
  predicate SameMessage(a: Event, b: Event) {
    && Alike(a.kind, b.kind) && Alike(a.from, b.from)
    && exists id :: id in Ids(a) && HasId(a, id) && HasId(b, id)
  }

  function Ids(e: Event): set<string> {
    (if e.fileId.Some? then {e.fileId.value} else {}) + (if e.msgId.Some? then {e.msgId.value} else {})
  }

  /** The separator is in none of the three parts. */
  predicate Plain(e: Event) {
    && (e.kind.Some? ==> SEPARATOR !in e.kind.value) && (e.from.Some? ==> SEPARATOR !in e.from.value)
    && forall id :: id in Ids(e) && HasId(e, id) ==> SEPARATOR !in id
  }

  lemma KeyAbsentIff(e: Event)
    ensures NotificationKey(e).None? <==> forall id :: !HasId(e, id)
  {
    assert e.fileId.Some? ==> HasId(e, e.fileId.value) || e.kind != Some("file_received");
    assert e.msgId.Some? ==> HasId(e, e.msgId.value) || e.kind == Some("file_received");
  }

  /** Where the separators are in a key of plain parts. */
  lemma Separators(kind: string, from: string, id: string, key: string, p: nat)
    requires SEPARATOR !in kind && SEPARATOR !in from && SEPARATOR !in id
    requires key == kind + "\0" + from + "\0" + id && p < |key|
    ensures key[p] == SEPARATOR <==> p == |kind| || p == |kind| + 1 + |from|
  {
    var q := p - |kind| - 1;
    if p < |kind| {
      assert key[p] == kind[p];
    } else if 0 <= q < |from| {
      assert key[p] == from[q];
    } else if q > |from| {
      assert key[p] == id[q - |from| - 1];
    }
  }

  lemma SeparatorsAre(kind: string, from: string, id: string, key: string)
    requires key == kind + "\0" + from + "\0" + id
    ensures |kind| + 1 + |from| < |key| && key[|kind|] == SEPARATOR && key[|kind| + 1 + |from|] == SEPARATOR
    ensures kind == key[..|kind|] && from == key[|kind| + 1..|kind| + 1 + |from|] && id == key[|kind| + |from| + 2..]
  {}

  /** A key of plain parts is split at its separators in one way only. */
  lemma PlainKeySplits(kind: string, from: string, id: string, kind': string, from': string, id': string)
    requires SEPARATOR !in kind && SEPARATOR !in from && SEPARATOR !in id
    requires kind + "\0" + from + "\0" + id == kind' + "\0" + from' + "\0" + id'
    ensures kind == kind' && from == from' && id == id'
  {
    var key := kind + "\0" + from + "\0" + id;
    SeparatorsAre(kind, from, id, key);
    SeparatorsAre(kind', from', id', key);
    Separators(kind, from, id, key, |kind'|);
    Separators(kind, from, id, key, |kind'| + 1 + |from'|);
  }

  lemma SameMessageSameKey(a: Event, b: Event)
    requires SameMessage(a, b)
    ensures NotificationKey(a).Some? && NotificationKey(a) == NotificationKey(b)
  {}

  /** When neither kind, sender nor id has a separator, the key is that of one notification. */
  lemma SameKeyIff(a: Event, b: Event)
    requires Plain(a) && NotificationKey(a).Some?
    ensures NotificationKey(a) == NotificationKey(b) <==> SameMessage(a, b)
  {
    var id := if a.kind == Some("file_received") then a.fileId else a.msgId;
    assert HasId(a, id.value) && id.value in Ids(a);
    if NotificationKey(a) == NotificationKey(b) {
      var id' := if b.kind == Some("file_received") then b.fileId else b.msgId;
      PlainKeySplits(OrEmpty(a.kind), OrEmpty(a.from), id.value, OrEmpty(b.kind), OrEmpty(b.from), id'.value);
      assert HasId(b, id.value);
    }
  }

  function Sent(kind: string, from: string, id: string): Event {
    Event(Some(kind), Some(from), Some(id), Some(id), "")
  }

  /** With a separator in one of the parts, some other notification has the same key. */
  lemma AnotherHasTheKey(e: Event) returns (other: Event)
    requires NotificationKey(e).Some? && !Plain(e)
    ensures NotificationKey(other) == NotificationKey(e) && !SameMessage(e, other)
  {
    var kind, from := OrEmpty(e.kind), OrEmpty(e.from);
    var id := (if e.kind == Some("file_received") then e.fileId else e.msgId).value;
    if SEPARATOR in id {
      var p :| 0 <= p < |id| && id[p] == SEPARATOR;
      assert id == id[..p] + "\0" + id[p + 1..];
      other := Sent(kind, from + "\0" + id[..p], id[p + 1..]);
      assert from + "\0" + id == (from + "\0" + id[..p]) + "\0" + id[p + 1..];
      Joined(kind, from, id, from + "\0" + id[..p], id[p + 1..]);
    } else if SEPARATOR in from {
      var p :| 0 <= p < |from| && from[p] == SEPARATOR;
      assert from == from[..p] + "\0" + from[p + 1..];
      other := Sent(kind, from[..p], from[p + 1..] + "\0" + id);
      assert from + "\0" + id == from[..p] + "\0" + (from[p + 1..] + "\0" + id);
      Joined(kind, from, id, from[..p], from[p + 1..] + "\0" + id);
    } else {
      var p :| 0 <= p < |kind| && kind[p] == SEPARATOR;
      assert kind == kind[..p] + "\0" + kind[p + 1..];
      other := Sent(kind[..p], kind[p + 1..] + "\0" + from, id);
      assert kind + "\0" + from == kind[..p] + "\0" + (kind[p + 1..] + "\0" + from);
    }
  }

  lemma Joined(kind: string, from: string, id: string, from': string, id': string)
    requires from + "\0" + id == from' + "\0" + id'
    ensures kind + "\0" + from + "\0" + id == kind + "\0" + from' + "\0" + id'
  {
    assert kind + "\0" + from + "\0" + id == kind + "\0" + (from + "\0" + id);
    assert kind + "\0" + from' + "\0" + id' == kind + "\0" + (from' + "\0" + id');
  }

  /** A key tells its notification apart from every other exactly when no part has a separator. */
  lemma KeyTellsApartIff(e: Event)
    requires NotificationKey(e).Some?
    ensures (forall other :: NotificationKey(other) == NotificationKey(e) ==> SameMessage(e, other)) <==> Plain(e)
  {
    if Plain(e) {
      forall other | NotificationKey(other) == NotificationKey(e) ensures SameMessage(e, other) { SameKeyIff(e, other); }
    } else {
      var other := AnotherHasTheKey(e);
    }
  }

  // ---- batches ------------------------------------------------------------------------------

  predicate SameNotification(a: Event, b: Event) {
    a == b || (NotificationKey(a).Some? && NotificationKey(a) == NotificationKey(b))
  }

  /** `e` itself, or an event with its notification key, is in `batch`. */
  ghost predicate Represented(e: Event, batch: set<Event>) {
    exists other :: other in batch && SameNotification(e, other)
  }

  predicate KeySeen(events: seq<Event>, key: Option<string>) {
    key.Some? && exists e :: e in events && NotificationKey(e) == key
  }

  /** `target` followed by those of `additions` whose key is not there yet. */
  function Appended(target: seq<Event>, additions: seq<Event>): (result: seq<Event>)
    ensures target <= result
    decreases |additions|
  {
    if additions == [] then target
    else
      var n := |additions| - 1;
      var before := Appended(target, additions[..n]);
      if KeySeen(before, NotificationKey(additions[n])) then before else before + [additions[n]]
  }

  method AppendUniqueEvents(target: seq<Event>, additions: seq<Event>) returns (result: seq<Event>)
    ensures result == Appended(target, additions)
  {
    result := target;
    var seen := set e | e in target && NotificationKey(e).Some? :: NotificationKey(e).value;
    for i := 0 to |additions|
      invariant result == Appended(target, additions[..i])
      invariant forall key :: key in seen <==> KeySeen(result, Some(key))
    {
      var event := additions[i];
      var key := NotificationKey(event);
      assert additions[..i + 1][..i] == additions[..i];
      if !(key.Some? && key.value in seen) {
        ghost var before := result;
        result := result + [event];
        assert forall k :: KeySeen(result, k) <==> KeySeen(before, k) || (k.Some? && k == key);
        if key.Some? {
          seen := seen + {key.value};
        }
      }
    }
    assert additions[..|additions|] == additions;
  }

  function Elements(events: seq<Event>): set<Event> {
    set e | e in events
  }

  /** Nothing is lost up to its key, and nothing is made up. */
  lemma {:induction false} AppendedRepresents(target: seq<Event>, additions: seq<Event>, e: Event)
    ensures e in target || e in additions ==> Represented(e, Elements(Appended(target, additions)))
    ensures e in Appended(target, additions) ==> e in target || e in additions
    decreases |additions|
  {
    var all := Appended(target, additions);
    if additions == [] {
      if e in target { assert e in Elements(all); }
    } else {
      var n := |additions| - 1;
      AppendedRepresents(target, additions[..n], e);
      var before := Appended(target, additions[..n]);
      assert additions == additions[..n] + [additions[n]];
      if e == additions[n] && KeySeen(before, NotificationKey(e)) {
        var other :| other in before && NotificationKey(other) == NotificationKey(e);
        assert other in Elements(all) && SameNotification(e, other);
      } else if e == additions[n] {
        assert e in Elements(all);
      } else if Represented(e, Elements(before)) {
        RepresentedMonotone(e, Elements(before), Elements(all));
      }
    }
  }

  function Keyless(events: seq<Event>): seq<Event> {
    if events == [] then []
    else
      var n := |events| - 1;
      Keyless(events[..n]) + if NotificationKey(events[n]).None? then [events[n]] else []
  }

  /** Events without a stable id are all kept, in order, even when they look the same. */
  lemma {:induction false} KeylessAreKept(target: seq<Event>, additions: seq<Event>)
    ensures Keyless(Appended(target, additions)) == Keyless(target) + Keyless(additions)
    decreases |additions|
  {
    if additions != [] {
      var n := |additions| - 1;
      KeylessAreKept(target, additions[..n]);
      var before := Appended(target, additions[..n]);
      assert (before + [additions[n]])[..|before|] == before;
    }
  }

  /** No notification key is appended a second time. */
  lemma {:induction false} AppendedKeysDistinct(target: seq<Event>, additions: seq<Event>, i: nat, j: nat)
    requires i < j < |Appended(target, additions)| && |target| <= j
    requires NotificationKey(Appended(target, additions)[j]).Some?
    ensures NotificationKey(Appended(target, additions)[i]) != NotificationKey(Appended(target, additions)[j])
    decreases |additions|
  {
    var n := |additions| - 1;
    var before := Appended(target, additions[..n]);
    if j < |before| {
      AppendedKeysDistinct(target, additions[..n], i, j);
    } else {
      assert before[i] in before;
    }
  }

  /** Of one notification at most one event is appended, whatever its parts are. */
  lemma AppendedOnce(target: seq<Event>, additions: seq<Event>, i: nat, j: nat)
    requires i < j < |Appended(target, additions)| && |target| <= j
    ensures !SameMessage(Appended(target, additions)[i], Appended(target, additions)[j])
  {
    var all := Appended(target, additions);
    if SameMessage(all[i], all[j]) {
      SameMessageSameKey(all[i], all[j]);
      AppendedKeysDistinct(target, additions, i, j);
    }
  }

  /** `e` itself, or an event of the same kind, sender and id, is in `batch`. */
  ghost predicate Told(e: Event, batch: set<Event>) {
    exists other :: other in batch && (other == e || SameMessage(e, other))
  }

  /** Without separators in its parts, an event is represented by its own notification only. */
  lemma RepresentedIsTold(e: Event, batch: set<Event>)
    requires Plain(e) && Represented(e, batch)
    ensures Told(e, batch)
  {
    var other :| other in batch && SameNotification(e, other);
    if other != e {
      SameKeyIff(e, other);
    }
  }

  lemma RepresentedMonotone(e: Event, small: set<Event>, large: set<Event>)
    requires Represented(e, small) && small <= large
    ensures Represented(e, large)
  {}

  // ---- the world outside the monitor ------------------------------------------------------

  /** `.monitor-state.json`, as far as a restart reads it back, and `.notify-cursor`. */
  datatype StateFile = StateFile(observed: Option<nat>, delivered: Option<nat>)
  datatype Disk = Disk(cursorFile: Option<nat>, stateFile: Option<StateFile>)

  /** A page covers the log from the requested position up to its cursor, and may overlap earlier pages. */
  datatype Page = Page(cursor: Option<nat>, events: seq<Event>)

  /** How the daemon answers one request: not at all, or after `grown` arrived. */
  datatype Serving = Unanswered | Answered(grown: seq<Event>, upTo: nat, overlap: nat, withCursor: bool)

  /**
   * What becomes of one external effect: a file write may fail or leave a torn number (a prefix
   * of the digits), a wake may be refused, and the process may die just before it.
   */
  datatype Fate = Succeeds | Fails | Torn(left: Option<nat>) | Dies

  /** Every wake-source event of the log in `[from, upTo)` is represented in `got`. */
  ghost predicate Covers(log: seq<Event>, wake: set<string>, from: nat, upTo: nat, got: set<Event>) {
    upTo <= |log| && forall k :: from <= k < upTo && Wakes(log[k], wake) ==> Represented(log[k], got)
  }

  lemma CoversMonotone(log: seq<Event>, log': seq<Event>, wake: set<string>,
                       from: nat, from': nat, upTo: nat, upTo': nat, got: set<Event>, got': set<Event>)
    requires Covers(log, wake, from, upTo, got) && log <= log' && from <= from' && upTo' <= upTo && got <= got'
    ensures Covers(log', wake, from', upTo', got')
  {
    forall k | from' <= k < upTo' && Wakes(log'[k], wake) ensures Represented(log'[k], got') {
      RepresentedMonotone(log[k], got, got');
    }
  }

  function Least(a: nat, b: nat): nat { if a < b then a else b }

  /** The page an answered request gets from a log: what was asked for, with up to `overlap` events before it. */
  function PageOf(log: seq<Event>, since: nat, upTo: nat, overlap: nat, withCursor: bool): (page: Page)
    ensures forall e :: e in page.events ==> e in log
    ensures page.cursor.Some? ==> page.cursor.value <= |log|
    ensures page.cursor.Some? ==> forall k :: since <= k < page.cursor.value ==> log[k] in page.events
  {
    var to := Least(upTo, |log|);
    var start := Least(if overlap < since then since - overlap else 0, to);
    assert forall k :: start <= k < to ==> log[k] == log[start..to][k - start];
    Page(if withCursor then Some(to) else None, log[start..to])
  }

  /** The initial unread check: unavailable or malformed, or the counts the role wakes on. */
  datatype Unread = Unavailable | Counts(messages: nat, files: nat)

  /** The state file alone tells a restart where to resume. */
  predicate Resumable(disk: Disk) {
    disk.stateFile.Some? && disk.stateFile.value.delivered.Some?
  }

  class World {
    const wake: set<string>
    var log: seq<Event>
    var disk: Disk
    var alive: bool
    var fates: seq<Fate>
    ghost var accepted: set<Event>   // every event of every batch the session accepted
    ghost var base: nat              // the last tip a durable cursor was primed at
    ghost var backlogs: seq<Unread>  // every backlog wake the session accepted

    /** What a restart resumes from, when it can read it. */
    function DurableCursor(): Option<nat>
      reads this
    {
      if disk.stateFile.Some? && disk.stateFile.value.delivered.Some? then disk.stateFile.value.delivered
      else disk.cursorFile
    }

    ghost predicate Delivered(from: nat, cursor: Option<nat>)
      reads this
    {
      cursor.Some? ==> Covers(log, wake, from, cursor.value, accepted)
    }

    /** Whatever a restart may resume from has all been delivered; nothing else was. */
    ghost predicate Safe()
      reads this
    {
      && base <= |log|
      && Delivered(base, disk.cursorFile)
      && (disk.stateFile.Some? ==> Delivered(base, disk.stateFile.value.delivered))
      && (forall e :: e in accepted ==> e in log && Wakes(e, wake))
    }

    constructor (wake: set<string>, log: seq<Event>)
      ensures this.wake == wake && this.log == log && disk == Disk(None, None) && Safe()
      ensures accepted == {} && base == 0
    {
      this.wake, this.log, disk, alive, fates := wake, log, Disk(None, None), true, [];
      accepted, base, backlogs := {}, 0, [];
    }

    /** Nothing is going to fail any more. */
    predicate Calm()
      reads this
    {
      alive && fates == []
    }

    method NextFate() returns (fate: Fate)
      modifies this`alive, this`fates
      ensures alive <==> !fate.Dies?
      ensures !old(alive) ==> fate.Dies?
      ensures old(Calm()) ==> fate.Succeeds? && Calm()
    {
      if !alive {
        fate := Dies;
      } else if fates == [] {
        fate := Succeeds;
      } else {
        fate, fates := fates[0], fates[1..];
        alive := !fate.Dies?;
      }
    }

    /** The daemon: an honest page of a log that may have grown. */
    method Serve(since: nat, serving: Serving) returns (page: Option<Page>)
      modifies this`log
      requires Safe()
      ensures Safe() && old(log) <= log
      ensures match serving
              case Unanswered => page == None && log == old(log)
              case Answered(grown, upTo, overlap, withCursor) =>
                log == old(log) + grown && page == Some(PageOf(log, since, upTo, overlap, withCursor))
    {
      match serving
      case Unanswered => page := None;
      case Answered(grown, upTo, overlap, withCursor) =>
        ghost var before := log;
        log := log + grown;
        LogGrew(before);
        page := Some(PageOf(log, since, upTo, overlap, withCursor));
    }

    lemma LogGrew(before: seq<Event>)
      requires before <= log
      ensures forall from: nat, upTo: nat, got: set<Event> ::
                Covers(before, wake, from, upTo, got) ==> Covers(log, wake, from, upTo, got)
    {
      forall from: nat, upTo: nat, got: set<Event> | Covers(before, wake, from, upTo, got)
        ensures Covers(log, wake, from, upTo, got)
      {
        CoversMonotone(before, log, wake, from, from, upTo, upTo, got, got);
      }
    }

    /** The tip of the stream; an answer without a numeric cursor counts as position 0. */
    method Tip(serving: Serving) returns (tip: Option<nat>)
      modifies this`log
      requires Safe()
      ensures Safe()
      ensures old(log) <= log
      ensures tip.None? <==> serving.Unanswered?
      ensures tip.Some? ==> tip.value == if serving.withCursor then |log| else 0
    {
      match serving
      case Unanswered => tip := None;
      case Answered(grown, _, _, withCursor) =>
        ghost var before := log;
        log := log + grown;
        LogGrew(before);
        tip := Some(if withCursor then |log| else 0);
    }

    /** `writeFileSync` of the cursor file; true unless it threw. */
    method WriteCursor(cursor: nat, ghost from: nat) returns (ok: bool)
      requires Safe() && from <= |log| && Delivered(from, Some(cursor))
      modifies this`disk, this`alive, this`fates, this`base
      ensures Safe() && disk.stateFile == old(disk.stateFile)
      ensures base == old(base) || base == from >= old(base)
      ensures ok ==> disk.cursorFile == Some(cursor)
      ensures !alive ==> disk == old(disk)
      ensures old(Calm()) ==> ok && Calm()
    {
      var fate := NextFate();
      ok := fate.Succeeds?;
      if fate.Succeeds? || fate.Torn? {
        var left := match fate case Torn(None) => None case Torn(Some(n)) => Some(Least(n, cursor)) case _ => Some(cursor);
        RaiseBase(from);
        CoversMonotone(log, log, wake, from, base, cursor, if left.Some? then left.value else 0, accepted, accepted);
        disk := disk.(cursorFile := left);
      }
    }

    /** The atomic replacement of the state file. */
    method WriteState(observed: Option<nat>, delivered: Option<nat>, ghost from: nat)
      requires Safe() && from <= |log| && Delivered(from, delivered)
      modifies this`disk, this`alive, this`fates, this`base
      ensures Safe() && disk.cursorFile == old(disk.cursorFile)
      ensures base == old(base) || base == from >= old(base)
      ensures disk.stateFile == old(disk.stateFile) || disk.stateFile == Some(StateFile(observed, delivered))
      ensures !alive ==> disk == old(disk)
      ensures old(Calm()) ==> Calm() && disk.stateFile == Some(StateFile(observed, delivered))
    {
      var fate := NextFate();
      if fate.Succeeds? {
        if delivered.Some? {
          RaiseBase(from);
          CoversMonotone(log, log, wake, from, base, delivered.value, delivered.value, accepted, accepted);
        }
        disk := disk.(stateFile := Some(StateFile(observed, delivered)));
      }
    }

    ghost method RaiseBase(from: nat)
      requires Safe() && from <= |log|
      modifies this`base
      ensures Safe() && base == (if old(base) < from then from else old(base))
    {
      var b := if base < from then from else base;
      if disk.cursorFile.Some? {
        CoversMonotone(log, log, wake, base, b, disk.cursorFile.value, disk.cursorFile.value, accepted, accepted);
      }
      if disk.stateFile.Some? && disk.stateFile.value.delivered.Some? {
        var d := disk.stateFile.value.delivered.value;
        CoversMonotone(log, log, wake, base, b, d, d, accepted, accepted);
      }
      base := b;
    }

    /** The session takes the wake and runs it to the end, or does not. */
    method Submit(batch: seq<Event>) returns (succeeded: bool)
      requires Safe() && forall e :: e in batch ==> e in log && Wakes(e, wake)
      modifies this`alive, this`fates, this`accepted
      ensures Safe() && accepted == if succeeded then old(accepted) + Elements(batch) else old(accepted)
      ensures old(Calm()) ==> succeeded && Calm()
    {
      var fate := NextFate();
      succeeded := fate.Succeeds?;
      if succeeded {
        ghost var before := accepted;
        accepted := accepted + Elements(batch);
        StillDelivered(before);
      }
    }

    /** The wake for work that was unread before the first poll. */
    method SubmitBacklog(unread: Unread) returns (succeeded: bool)
      requires Safe()
      modifies this`alive, this`fates, this`backlogs
      ensures Safe() && backlogs == if succeeded then old(backlogs) + [unread] else old(backlogs)
      ensures old(Calm()) ==> succeeded && Calm()
    {
      var fate := NextFate();
      succeeded := fate.Succeeds?;
      if succeeded {
        backlogs := backlogs + [unread];
      }
    }

    lemma StillDelivered(before: set<Event>)
      requires before <= accepted
      ensures forall from: nat, cursor: Option<nat> :: (cursor.Some? ==> Covers(log, wake, from, cursor.value, before)) ==>
                Delivered(from, cursor)
    {
      forall from: nat, cursor: Option<nat> | cursor.Some? && Covers(log, wake, from, cursor.value, before)
        ensures Delivered(from, cursor)
      {
        CoversMonotone(log, log, wake, from, from, cursor.value, cursor.value, before, accepted);
      }
    }
  }

  // ---- the monitor ---------------------------------------------------------------------

  /** One turn of the run loop, as the environment answers it; `coalesce` may be skipped. */
  datatype Round = Round(unread: Unread, poll: Serving, coalesce: Option<Serving>)

  class Monitor {
    const world: World
    var cursor: Option<nat>             // observed
    var delivered: Option<nat>          // what the next state write records as delivered
    var pending: seq<Event>             // the batch of the run loop
    var initialBacklogPending: bool
    ghost var from: nat                 // where this run of the monitor was primed

    /** Everything up to the observed cursor is delivered or pending. */
    ghost predicate Observing()
      reads this, world
    {
      cursor.Some? ==> Covers(world.log, world.wake, from, cursor.value, world.accepted + Elements(pending))
    }

    ghost predicate Sound()
      reads this, world
    {
      && world.Safe() && from <= |world.log| && world.Delivered(from, delivered)
      && (forall e :: e in pending ==> e in world.log && Wakes(e, world.wake))
    }

    ghost predicate Valid()
      reads this, world
    {
      Sound() && Observing()
    }

    constructor (world: World)
      requires world.Safe()
      ensures Valid() && this.world == world && initialBacklogPending
      ensures cursor.None? && delivered.None? && pending == []
    {
      this.world := world;
      cursor, delivered, pending, initialBacklogPending, from := None, None, [], true, 0;
    }

    method PersistState()
      requires Sound()
      modifies world`disk, world`alive, world`fates, world`base
      ensures Sound() && world.disk.cursorFile == old(world.disk.cursorFile)
      ensures old(world.Calm()) ==> world.Calm() && world.disk.stateFile == Some(StateFile(cursor, delivered))
      ensures old(Resumable(world.disk)) && old(delivered).Some? ==> Resumable(world.disk) && delivered.Some?
      ensures world.base == old(world.base) || world.base == from
    {
      world.WriteState(cursor, delivered, from);
    }

    /** Commits the observed cursor; only an empty batch makes that sound. */
    method PersistCursor()
      requires Valid() && pending == []
      modifies this`delivered, world`disk, world`alive, world`fates, world`base
      ensures Valid() && delivered == if cursor.Some? then cursor else old(delivered)
      ensures old(world.Calm()) ==> world.Calm()
      ensures old(world.Calm()) && cursor.Some? ==>
                world.disk == Disk(cursor, Some(StateFile(cursor, cursor))) && world.DurableCursor() == cursor
      ensures old(Resumable(world.disk)) && old(delivered).Some? ==> Resumable(world.disk) && delivered.Some?
      ensures world.base == old(world.base) || world.base == from
    {
      assert world.accepted + Elements(pending) == world.accepted;
      if cursor.Some? {
        delivered := cursor;
        var ok := world.WriteCursor(cursor.value, from);
        if ok {
          PersistState();
        }
      }
    }

    /** Resumes the delivered cursor, or primes a new monitor at the tip when there is none to trust. */
    method Prime(reset: bool, readable: bool, serving: Serving)
      requires Valid() && cursor.None? && delivered.None? && pending == []
      modifies this, world`log, world`disk, world`alive, world`fates, world`base
      ensures Valid() && pending == [] && initialBacklogPending == old(initialBacklogPending)
      ensures old(world.log) <= world.log
      ensures !reset && readable && old(world.DurableCursor()).Some? ==>
                && cursor == delivered == old(world.DurableCursor())
                && world.disk == old(world.disk) && from == world.base == old(world.base)
      ensures world.base == old(world.base) || cursor == Some(world.base)
      ensures !reset && readable && old(world.disk.stateFile).Some? && old(world.disk.stateFile).value.delivered.Some? ==>
                cursor == old(world.disk.stateFile).value.delivered
      ensures !reset && readable && old(world.disk.cursorFile).Some?
              && (old(world.disk.stateFile).None? || old(world.disk.stateFile).value.delivered.None?) ==>
                cursor == old(world.disk.cursorFile)
      ensures (reset || !readable || old(world.DurableCursor()).None?) ==>
                cursor == if serving.Unanswered? then None else Some(if serving.withCursor then |world.log| else 0)
      ensures old(world.Calm()) ==> world.Calm() && (cursor.Some? ==> world.DurableCursor() == cursor == delivered)
    {
      var persisted := if reset || !readable then None else world.DurableCursor();
      if persisted.Some? {
        cursor, delivered, from := persisted, persisted, world.base;
        assert world.accepted + Elements(pending) == world.accepted;
      } else {
        var tip := world.Tip(serving);
        if tip.Some? {
          cursor, from := tip, tip.value;
          PersistCursor();
        } else {
          from := 0;
        }
      }
    }

    /** The log may grow before the daemon answers; that takes nothing away. */
    method Poll(serving: Serving) returns (page: Option<Page>)
      requires Valid()
      modifies world`log
      ensures Valid() && old(world.log) <= world.log
      ensures match serving
              case Unanswered => page == None && world.log == old(world.log)
              case Answered(grown, upTo, overlap, withCursor) =>
                var since := if cursor.Some? then cursor.value else 0;
                world.log == old(world.log) + grown && page == Some(PageOf(world.log, since, upTo, overlap, withCursor))
    {
      ghost var log := world.log;
      page := world.Serve(if cursor.Some? then cursor.value else 0, serving);
      world.LogGrew(log);
    }

    /** One request and what it changes: the observed cursor moves, its events join the batch. */
    method Fetch(serving: Serving) returns (answered: bool)
      requires Valid()
      modifies this`cursor, this`pending, world`log, world`disk, world`alive, world`fates, world`base
      ensures Valid() && old(world.log) <= world.log && old(pending) <= pending
      ensures old(Resumable(world.disk)) && old(delivered).Some? ==> Resumable(world.disk) && delivered.Some?
      ensures world.base == old(world.base) || world.base == from
      ensures answered <==> !serving.Unanswered?
      ensures !answered ==> cursor == old(cursor) && pending == old(pending) && world.disk == old(world.disk)
      ensures answered ==>
                var since := if old(cursor).Some? then old(cursor).value else 0;
                var page := PageOf(world.log, since, serving.upTo, serving.overlap, serving.withCursor);
                && world.log == old(world.log) + serving.grown
                && pending == Appended(old(pending), FilterEvents(page.events, world.wake))
                && cursor == if page.cursor.Some? then page.cursor else old(cursor)
      ensures world.disk.cursorFile == old(world.disk.cursorFile)
      ensures old(world.Calm()) ==> world.Calm()
    {
      var page := Poll(serving);
      answered := page.Some?;
      if answered {
        Absorb(page.value);
      }
    }

    /** The page, which goes on from the cursor, becomes part of the batch. */
    method Absorb(page: Page)
      requires Valid() && (page.cursor.Some? ==> page.cursor.value <= |world.log|)
      requires page.cursor.Some? ==>
                 forall k :: (if cursor.Some? then cursor.value else 0) <= k < page.cursor.value ==> world.log[k] in page.events
      requires forall e :: e in page.events ==> e in world.log
      modifies this`cursor, this`pending, world`disk, world`alive, world`fates, world`base
      ensures Valid() && old(pending) <= pending
      ensures old(Resumable(world.disk)) && old(delivered).Some? ==> Resumable(world.disk) && delivered.Some?
      ensures world.base == old(world.base) || world.base == from
      ensures pending == Appended(old(pending), FilterEvents(page.events, world.wake))
      ensures cursor == if page.cursor.Some? then page.cursor else old(cursor)
      ensures world.disk.cursorFile == old(world.disk.cursorFile)
      ensures old(world.Calm()) ==> world.Calm()
    {
      ghost var batch := pending;
      var observed := cursor;
      if page.cursor.Some? && page.cursor != cursor {
        cursor := page.cursor;
        PersistState();
      }
      var filtered := FilterEvents(page.events, world.wake);
      pending := AppendUniqueEvents(pending, filtered);
      BatchCovers(observed, batch, filtered, page);
    }

    /** The page and the batch before it together cover everything up to the new cursor. */
    lemma BatchCovers(observed: Option<nat>, batch: seq<Event>, filtered: seq<Event>, page: Page)
      requires pending == Appended(batch, filtered)
      requires filtered == FilterEvents(page.events, world.wake)
      requires cursor == if page.cursor.Some? then page.cursor else observed
      requires observed.Some? ==>
                 Covers(world.log, world.wake, from, observed.value, world.accepted + Elements(batch))
      requires page.cursor.Some? ==> page.cursor.value <= |world.log|
      requires page.cursor.Some? ==>
                 forall k :: (if observed.Some? then observed.value else 0) <= k < page.cursor.value ==>
                   world.log[k] in page.events
      requires forall e :: e in page.events ==> e in world.log
      requires forall e :: e in batch ==> e in world.log && Wakes(e, world.wake)
      ensures Observing()
      ensures forall e :: e in pending ==> e in world.log && Wakes(e, world.wake)
    {
      var got := world.accepted + Elements(pending);
      forall e | e in pending ensures e in world.log && Wakes(e, world.wake) {
        AppendedRepresents(batch, filtered, e);
      }
      if cursor.Some? {
        forall k | from <= k < cursor.value && Wakes(world.log[k], world.wake) ensures Represented(world.log[k], got) {
          var e := world.log[k];
          if observed.Some? && k < observed.value {
            RepresentedMonotone(e, world.accepted + Elements(batch), got);
          } else {
            assert e in filtered;
            AppendedRepresents(batch, filtered, e);
            RepresentedMonotone(e, Elements(pending), got);
          }
        }
      }
    }

    /** The unread work found before the first poll: the loop goes on once there is none or the session took the wake. */
    method CheckBacklog(unread: Unread) returns (ready: bool)
      requires Valid()
      modifies this`initialBacklogPending, world`alive, world`fates, world`backlogs
      ensures Valid() && (ready <==> !initialBacklogPending)
      ensures !old(initialBacklogPending) ==> ready && world.backlogs == old(world.backlogs)
      ensures old(initialBacklogPending) ==>
                match unread
                case Unavailable => !ready && world.backlogs == old(world.backlogs)
                case Counts(messages, files) =>
                  && (messages == 0 && files == 0 ==> ready && world.backlogs == old(world.backlogs))
                  && (messages > 0 || files > 0 ==>
                        world.backlogs == if ready then old(world.backlogs) + [unread] else old(world.backlogs))
      ensures old(world.Calm()) ==> world.Calm() && (!unread.Unavailable? ==> ready)
    {
      ready := !initialBacklogPending;
      if initialBacklogPending && !unread.Unavailable? {
        ready := true;
        if unread.messages != 0 || unread.files != 0 {
          ready := world.SubmitBacklog(unread);
        }
        initialBacklogPending := !ready;
      }
    }

    /** One turn of the run loop. */
    method RunRound(round: Round)
      requires Valid()
      modifies this`cursor, this`delivered, this`pending, this`initialBacklogPending
      modifies world`log, world`disk, world`alive, world`fates, world`base, world`accepted, world`backlogs
      ensures Valid() && old(world.log) <= world.log && old(world.accepted) <= world.accepted
      ensures old(Resumable(world.disk)) && old(delivered).Some? ==> Resumable(world.disk) && delivered.Some?
      ensures world.base == old(world.base) || world.base == from
      ensures initialBacklogPending ==> world.disk == old(world.disk) && cursor == old(cursor) && pending == old(pending)
      ensures old(initialBacklogPending) && !initialBacklogPending ==>
                round.unread == Counts(0, 0) || world.backlogs == old(world.backlogs) + [round.unread]
      ensures pending == [] || old(pending) <= pending
      ensures delivered != old(delivered) ==> pending == [] && delivered == cursor
      ensures old(world.Calm()) ==> world.Calm()
      ensures old(world.Calm()) && !round.unread.Unavailable? && !round.poll.Unanswered? ==>
                && pending == [] && !initialBacklogPending && Elements(old(pending)) <= world.accepted
                && (cursor.Some? ==> world.DurableCursor() == cursor)
                && (round.poll.withCursor ==> cursor.Some?)
    {
      var ready := CheckBacklog(round.unread);
      if ready {
        PollAndDeliver(round.poll, round.coalesce);
      }
    }

    /** The rest of a turn: a poll, and what came of it put to the session or committed. */
    method PollAndDeliver(poll: Serving, coalesce: Option<Serving>)
      requires Valid()
      modifies this`cursor, this`delivered, this`pending
      modifies world`log, world`disk, world`alive, world`fates, world`base, world`accepted
      ensures Valid() && old(world.log) <= world.log && old(world.accepted) <= world.accepted
      ensures old(Resumable(world.disk)) && old(delivered).Some? ==> Resumable(world.disk) && delivered.Some?
      ensures world.base == old(world.base) || world.base == from
      ensures pending == [] || old(pending) <= pending
      ensures delivered != old(delivered) ==> pending == [] && delivered == cursor
      ensures old(world.Calm()) ==> world.Calm()
      ensures old(world.Calm()) && !poll.Unanswered? ==>
                && pending == [] && Elements(old(pending)) <= world.accepted
                && (cursor.Some? ==> world.DurableCursor() == cursor)
                && (poll.withCursor ==> cursor.Some?)
    {
      var answered := Fetch(poll);
      if answered {
        if pending == [] {
          PersistCursor();
        } else {
          CollectAndDeliver(coalesce);
        }
      }
    }

    /** A non-empty batch: recorded, topped up with stragglers, then put to the session. */
    method CollectAndDeliver(coalesce: Option<Serving>)
      requires Valid()
      modifies this`cursor, this`delivered, this`pending
      modifies world`log, world`disk, world`alive, world`fates, world`base, world`accepted
      ensures Valid() && old(world.log) <= world.log && old(world.accepted) <= world.accepted
      ensures old(Resumable(world.disk)) && old(delivered).Some? ==> Resumable(world.disk) && delivered.Some?
      ensures world.base == old(world.base) || world.base == from
      ensures pending == [] || old(pending) <= pending
      ensures delivered != old(delivered) ==> pending == [] && delivered == cursor
      ensures old(cursor).Some? ==> cursor.Some?
      ensures old(world.Calm()) ==>
                && world.Calm() && pending == [] && Elements(old(pending)) <= world.accepted
                && (cursor.Some? ==> world.DurableCursor() == cursor)
    {
      PersistState();
      if coalesce.Some? {
        var _ := Fetch(coalesce.value);
      }
      Deliver();
    }

    /** The wake for the whole batch; only its acceptance empties the batch and commits. */
    method Deliver()
      requires Valid()
      modifies this`delivered, this`pending
      modifies world`disk, world`alive, world`fates, world`base, world`accepted
      ensures Valid() && old(world.accepted) <= world.accepted
      ensures old(Resumable(world.disk)) && old(delivered).Some? ==> Resumable(world.disk) && delivered.Some?
      ensures world.base == old(world.base) || world.base == from
      ensures pending == [] || pending == old(pending)
      ensures delivered != old(delivered) ==> pending == [] && delivered == cursor
      ensures pending == [] ==> Elements(old(pending)) <= world.accepted
      ensures old(world.Calm()) ==> world.Calm() && pending == [] && (cursor.Some? ==> world.DurableCursor() == cursor)
    {
      var accepted := world.Submit(pending);
      if accepted {
        assert world.accepted + Elements([]) == old(world.accepted) + Elements(pending);
        pending := [];
        PersistCursor();
      }
    }
  }

  // ---- whole runs ------------------------------------------------------------------------

  /** One life of the supervisor: how it primes, what answers it, and the fates of its effects. */
  datatype Life = Life(reset: bool, readable: bool, tip: Serving, rounds: seq<Round>, fates: seq<Fate>)

  predicate AllResume(lives: seq<Life>) {
    forall i :: 0 <= i < |lives| ==> !lives[i].reset && lives[i].readable
  }

  /**
   * At least once, over every sequence of lives: each life starts from nothing but the disk, dies
   * wherever its fates say, and meets any poll failures, torn writes and refused wakes.  Every
   * wake-source event between the last tip a durable cursor was primed at and the durable cursor
   * was in a batch the session accepted, itself or by an event of the same kind, sender and id;
   * if one of these has the separator in it, by one with its notification key.  And once the
   * state file records a delivered cursor, that tip never moves again unless a life resets or cannot read it.
   */
  method LiveThrough(world: World, lives: seq<Life>)
    requires world.Safe()
    modifies world
    ensures world.Safe() && old(world.log) <= world.log && old(world.accepted) <= world.accepted
    ensures world.base <= |world.log|
    ensures world.DurableCursor().Some? ==>
              && world.DurableCursor().value <= |world.log|
              && forall k :: world.base <= k < world.DurableCursor().value
                             && world.log[k].kind.Some? && world.log[k].kind.value in world.wake ==>
                   && Represented(world.log[k], world.accepted)
                   && (Plain(world.log[k]) ==> Told(world.log[k], world.accepted))
    ensures old(Resumable(world.disk)) && AllResume(lives) ==> Resumable(world.disk) && world.base == old(world.base)
  {
    for i := 0 to |lives|
      invariant world.Safe() && old(world.log) <= world.log && old(world.accepted) <= world.accepted
      invariant old(Resumable(world.disk)) && AllResume(lives) ==> Resumable(world.disk) && world.base == old(world.base)
    {
      var life := lives[i];
      world.alive, world.fates := true, life.fates;
      var monitor := new Monitor(world);
      monitor.Prime(life.reset, life.readable, life.tip);
      for j := 0 to |life.rounds|
        invariant monitor.Valid() && monitor.world == world
        invariant old(world.log) <= world.log && old(world.accepted) <= world.accepted
        invariant old(Resumable(world.disk)) && AllResume(lives) ==>
                    && Resumable(world.disk) && monitor.delivered.Some?
                    && world.base == old(world.base) == monitor.from
      {
        monitor.RunRound(life.rounds[j]);
      }
    }
    if world.DurableCursor().Some? {
      forall k | world.base <= k < world.DurableCursor().value && Wakes(world.log[k], world.wake) && Plain(world.log[k])
        ensures Told(world.log[k], world.accepted)
      {
        assert Represented(world.log[k], world.accepted);
        RepresentedIsTold(world.log[k], world.accepted);
      }
    }
  }
}