/**
 * The collection of lifecycle events of one managed command: recorded as they happen, handed to
 * checkpoints while the command runs, and consumed with its outcome.  A checkpoint is delivered
 * or fails later than it starts, so the rest of the command may run in between; every method is
 * the code between two awaits.
 */
module LifecycleEvents {
  import opened Options

  /** `digest` is what events are told apart by. */
  datatype Event = Event(digest: string, contents: string)

  datatype Op = RecordOp(e: Event) | StartOp | DeliverOp(k: nat) | FailOp(k: nat) | ConsumeOp

  predicate Same(a: Event, b: Event) { a.digest == b.digest }

  /** An event of the same digest is there. */
  predicate In(e: Event, events: seq<Event>) {
    exists other :: other in events && Same(e, other)
  }

  function Without(batches: seq<seq<Event>>, k: nat): seq<seq<Event>>
    requires k < |batches|
  {
    batches[..k] + batches[k + 1..]
  }

  // What a caller can see of a collection, and what operations do to it

  /** `held` is undefined once consumed; `flying` are the batches under way, oldest first. */
  datatype View = View(held: Option<seq<Event>>, flying: seq<seq<Event>>)

  const EMPTY := View(Some([]), [])

  /** Only a batch that is under way settles. */
  predicate Enabled(v: View, op: Op) {
    op.DeliverOp? || op.FailOp? ==> op.k < |v.flying|
  }

  function After(v: View, op: Op): View {
    if !Enabled(v, op) then v else
    match op
    case RecordOp(e) => if v.held.Some? && !In(e, v.held.value) then v.(held := Some(v.held.value + [e])) else v
    case StartOp => if v.held.Some? && v.held.value != [] then View(Some([]), v.flying + [v.held.value]) else v
    case DeliverOp(k) => v.(flying := Without(v.flying, k))
    case FailOp(k) => View(if v.held.Some? then Some(v.flying[k] + v.held.value) else None, Without(v.flying, k))
    case ConsumeOp => v.(held := None)
  }

  function AfterAll(v: View, ops: seq<Op>): View {
    if ops == [] then v else After(AfterAll(v, ops[..|ops| - 1]), ops[|ops| - 1])
  }

  /** A checkpoint starts while another is under way. */
  predicate Overlaps(v: View, op: Op) {
    op.StartOp? && v.held.Some? && v.held.value != [] && v.flying != []
  }

  /** One of several checkpoints under way is delivered before the oldest, or goes back before the newest. */
  predicate OutOfTurn(v: View, op: Op) {
    && Enabled(v, op)
    && (op.DeliverOp? ==> op.k > 0)
    && (op.FailOp? ==> v.held.Some? && op.k < |v.flying| - 1)
    && (op.DeliverOp? || op.FailOp?)
  }

  /** A checkpoint fails when there is nothing left to go back to. */
  predicate FailsLate(v: View, op: Op) {
    op.FailOp? && Enabled(v, op) && v.held.None?
  }

  predicate EverOverlaps(v: View, ops: seq<Op>) {
    var n := |ops| - 1;
    n >= 0 && (EverOverlaps(v, ops[..n]) || Overlaps(AfterAll(v, ops[..n]), ops[n]))
  }

  predicate EverOutOfTurn(v: View, ops: seq<Op>) {
    var n := |ops| - 1;
    n >= 0 && (EverOutOfTurn(v, ops[..n]) || OutOfTurn(AfterAll(v, ops[..n]), ops[n]))
  }

  predicate EverFailsLate(v: View, ops: seq<Op>) {
    var n := |ops| - 1;
    n >= 0 && (EverFailsLate(v, ops[..n]) || FailsLate(AfterAll(v, ops[..n]), ops[n]))
  }

  lemma OneMore(v: View, ops: seq<Op>, n: nat)
    requires n < |ops|
    ensures AfterAll(v, ops[..n + 1]) == After(AfterAll(v, ops[..n]), ops[n])
    ensures EverOutOfTurn(v, ops[..n + 1]) <==> EverOutOfTurn(v, ops[..n]) || OutOfTurn(AfterAll(v, ops[..n]), ops[n])
    ensures EverFailsLate(v, ops[..n + 1]) <==> EverFailsLate(v, ops[..n]) || FailsLate(AfterAll(v, ops[..n]), ops[n])
  {
    var upTo := ops[..n + 1];
    assert upTo[..n] == ops[..n] && upTo[n] == ops[n];
  }

  /** As long as no checkpoint starts while another is under way, at most one is, and none settles out of turn. */
  lemma {:induction false} OneAtATimeIsInTurn(v: View, ops: seq<Op>)
    requires |v.flying| <= 1 && !EverOverlaps(v, ops)
    ensures |AfterAll(v, ops).flying| <= 1 && !EverOutOfTurn(v, ops)
  {
    if ops != [] {
      OneAtATimeIsInTurn(v, ops[..|ops| - 1]);
    }
  }

  // Batches and their order

  function Flatten(batches: seq<seq<Event>>): seq<Event> {
    if batches == [] then [] else batches[0] + Flatten(batches[1..])
  }

  lemma {:induction false} FlattenWithout(batches: seq<seq<Event>>, k: nat)
    requires k < |batches|
    ensures forall e :: e in Flatten(batches) <==> e in batches[k] || e in Flatten(Without(batches, k))
    ensures |Flatten(batches)| == |batches[k]| + |Flatten(Without(batches, k))|
  {
    if k == 0 {
      assert Without(batches, 0) == batches[1..];
    } else {
      FlattenWithout(batches[1..], k - 1);
      assert Without(batches, k)[1..] == Without(batches[1..], k - 1);
    }
  }

  lemma FlattenWithoutOldest(batches: seq<seq<Event>>)
    requires batches != []
    ensures Flatten(batches) == batches[0] + Flatten(Without(batches, 0))
  {
    assert Without(batches, 0) == batches[1..];
  }

  lemma {:induction false} FlattenOneMore(batches: seq<seq<Event>>, batch: seq<Event>)
    ensures Flatten(batches + [batch]) == Flatten(batches) + batch
  {
    if batches != [] {
      FlattenOneMore(batches[1..], batch);
      assert (batches + [batch])[1..] == batches[1..] + [batch];
    } else {
      assert [batch][1..] == [];
    }
  }

  lemma FlattenWithoutNewest(batches: seq<seq<Event>>)
    requires batches != []
    ensures Flatten(batches) == Flatten(Without(batches, |batches| - 1)) + batches[|batches| - 1]
  {
    var n := |batches| - 1;
    assert Without(batches, n) == batches[..n] && batches == batches[..n] + [batches[n]];
    FlattenOneMore(batches[..n], batches[n]);
  }

  predicate AllFull(batches: seq<seq<Event>>) {
    forall k :: 0 <= k < |batches| ==> batches[k] != []
  }

  /** Everything recorded is somewhere, and nothing else is. */
  ghost predicate Accounts(recorded: seq<Event>, delivered: seq<Event>, flying: seq<Event>, held: seq<Event>, lost: seq<Event>) {
    && |recorded| == |delivered| + |flying| + |held| + |lost|
    && forall e :: e in recorded <==> e in delivered || e in flying || e in held || e in lost
  }

  /** The same, in recording order. */
  predicate InOrder(recorded: seq<Event>, delivered: seq<Event>, flying: seq<Event>, held: seq<Event>) {
    recorded == delivered + flying + held
  }

  lemma RecordKeeps(recorded: seq<Event>, delivered: seq<Event>, flying: seq<Event>, held: seq<Event>, lost: seq<Event>, e: Event)
    requires Accounts(recorded, delivered, flying, held, lost)
    ensures Accounts(recorded + [e], delivered, flying, held + [e], lost)
    ensures InOrder(recorded, delivered, flying, held) ==> InOrder(recorded + [e], delivered, flying, held + [e])
  {
    assert delivered + flying + (held + [e]) == (delivered + flying + held) + [e];
  }

  lemma StartKeeps(recorded: seq<Event>, delivered: seq<Event>, inFlight: seq<seq<Event>>, held: seq<Event>, lost: seq<Event>)
    requires Accounts(recorded, delivered, Flatten(inFlight), held, lost)
    ensures Accounts(recorded, delivered, Flatten(inFlight + [held]), [], lost)
    ensures InOrder(recorded, delivered, Flatten(inFlight), held) ==> InOrder(recorded, delivered, Flatten(inFlight + [held]), [])
  {
    FlattenOneMore(inFlight, held);
    var flying := Flatten(inFlight);
    assert delivered + (flying + held) + [] == delivered + flying + held;
  }

  /** Wherever a batch goes, nothing is lost of what it was. */
  lemma SettleAccounts(recorded: seq<Event>, delivered: seq<Event>, inFlight: seq<seq<Event>>, held: seq<Event>, lost: seq<Event>, k: nat)
    requires Accounts(recorded, delivered, Flatten(inFlight), held, lost) && k < |inFlight|
    ensures Accounts(recorded, delivered + inFlight[k], Flatten(Without(inFlight, k)), held, lost)
    ensures Accounts(recorded, delivered, Flatten(Without(inFlight, k)), inFlight[k] + held, lost)
    ensures Accounts(recorded, delivered, Flatten(Without(inFlight, k)), held, lost + inFlight[k])
  {
    FlattenWithout(inFlight, k);
  }

  predicate AllDifferent(events: seq<Event>) {
    forall i, j :: 0 <= i < j < |events| ==> events[i] != events[j]
  }

  /** Where batch `k` begins. */
  lemma {:induction false} StartsAt(batches: seq<seq<Event>>, k: nat)
    requires k < |batches| && AllFull(batches)
    ensures |Flatten(batches[..k])| < |Flatten(batches)|
    ensures Flatten(batches)[|Flatten(batches[..k])|] == batches[k][0]
    ensures k > 0 ==> |Flatten(batches[..k - 1])| < |Flatten(batches[..k])|
  {
    if k > 0 {
      StartsAt(batches[1..], k - 1);
      assert batches[..k][1..] == batches[1..][..k - 1];
      assert batches[..k] == batches[..k - 1] + [batches[k - 1]];
      FlattenOneMore(batches[..k - 1], batches[k - 1]);
    }
  }

  /** An event from further on has moved to where `flying` has another. */
  lemma MovedUp(before: seq<Event>, flying: seq<Event>, held: seq<Event>, other: seq<Event>, at: nat, from: nat)
    requires AllDifferent(before + flying + held) && at < |flying| && from < |flying| && at != from
    requires at < |other| && other[at] == flying[from]
    ensures before + other != before + flying + held
  {
    var s, t := before + flying + held, before + other;
    assert s[|before| + at] == flying[at] && s[|before| + from] == flying[from] && t[|before| + at] == other[at];
  }

  lemma Regroup(a: seq<Event>, b: seq<Event>, c: seq<Event>, d: seq<Event>)
    ensures a + b + c + d == a + (b + (c + d)) && a + b + (c + d) == a + (b + (c + d))
    ensures a + (b + c) + d == a + (b + (c + d))
  {}

  lemma DeliveredInTurn(recorded: seq<Event>, delivered: seq<Event>, inFlight: seq<seq<Event>>, held: seq<Event>)
    requires InOrder(recorded, delivered, Flatten(inFlight), held) && inFlight != []
    ensures InOrder(recorded, delivered + inFlight[0], Flatten(Without(inFlight, 0)), held)
  {
    FlattenWithoutOldest(inFlight);
    Regroup(delivered, inFlight[0], Flatten(Without(inFlight, 0)), held);
  }

  lemma DeliveredOutOfTurn(recorded: seq<Event>, delivered: seq<Event>, inFlight: seq<seq<Event>>, held: seq<Event>, k: nat)
    requires InOrder(recorded, delivered, Flatten(inFlight), held) && AllDifferent(recorded)
    requires 0 < k < |inFlight| && AllFull(inFlight)
    ensures !InOrder(recorded, delivered + inFlight[k], Flatten(Without(inFlight, k)), held)
  {
    var flying, rest, batch := Flatten(inFlight), Flatten(Without(inFlight, k)), inFlight[k];
    StartsAt(inFlight, 0);
    StartsAt(inFlight, k);
    MovedUp(delivered, flying, held, batch + (rest + held), 0, |Flatten(inFlight[..k])|);
    Regroup(delivered, batch, rest, held);
  }

  /** With different events, delivering a batch keeps the order exactly when it is the oldest. */
  lemma DeliveredInTurnIff(recorded: seq<Event>, delivered: seq<Event>, inFlight: seq<seq<Event>>, held: seq<Event>, k: nat)
    requires InOrder(recorded, delivered, Flatten(inFlight), held) && AllDifferent(recorded)
    requires k < |inFlight| && AllFull(inFlight)
    ensures InOrder(recorded, delivered + inFlight[k], Flatten(Without(inFlight, k)), held) <==> k == 0
  {
    if k == 0 {
      DeliveredInTurn(recorded, delivered, inFlight, held);
    } else {
      DeliveredOutOfTurn(recorded, delivered, inFlight, held, k);
    }
  }

  lemma FailedInTurn(recorded: seq<Event>, delivered: seq<Event>, inFlight: seq<seq<Event>>, held: seq<Event>)
    requires InOrder(recorded, delivered, Flatten(inFlight), held) && inFlight != []
    ensures var k := |inFlight| - 1;
            InOrder(recorded, delivered, Flatten(Without(inFlight, k)), inFlight[k] + held)
  {
    var k := |inFlight| - 1;
    FlattenWithoutNewest(inFlight);
    Regroup(delivered, Flatten(Without(inFlight, k)), inFlight[k], held);
  }

  /** Without batch `k`, the next one begins where it did. */
  lemma NextMovesUp(inFlight: seq<seq<Event>>, k: nat)
    requires k + 1 < |inFlight| && AllFull(inFlight)
    ensures var at, from := |Flatten(inFlight[..k])|, |Flatten(inFlight[..k + 1])|;
            && at < from < |Flatten(inFlight)| && at < |Flatten(Without(inFlight, k))|
            && Flatten(Without(inFlight, k))[at] == Flatten(inFlight)[from]
  {
    var rest := Without(inFlight, k);
    assert rest[..k] == inFlight[..k] && rest[k] == inFlight[k + 1];
    StartsAt(inFlight, k + 1);
    StartsAt(rest, k);
  }

  lemma WentPast(delivered: seq<Event>, flying: seq<Event>, held: seq<Event>, rest: seq<Event>, back: seq<Event>, at: nat, from: nat)
    requires AllDifferent(delivered + flying + held) && at < from < |flying|
    requires at < |rest| && rest[at] == flying[from]
    ensures delivered + rest + back != delivered + flying + held
  {
    MovedUp(delivered, flying, held, rest + back, at, from);
    assert delivered + rest + back == delivered + (rest + back);
  }

  lemma FailedOutOfTurn(recorded: seq<Event>, delivered: seq<Event>, inFlight: seq<seq<Event>>, held: seq<Event>, k: nat)
    requires InOrder(recorded, delivered, Flatten(inFlight), held) && AllDifferent(recorded)
    requires k + 1 < |inFlight| && AllFull(inFlight)
    ensures !InOrder(recorded, delivered, Flatten(Without(inFlight, k)), inFlight[k] + held)
  {
    NextMovesUp(inFlight, k);
    WentPast(delivered, Flatten(inFlight), held, Flatten(Without(inFlight, k)), inFlight[k] + held,
             |Flatten(inFlight[..k])|, |Flatten(inFlight[..k + 1])|);
  }

  /** And letting one go back keeps it exactly when it is the newest. */
  lemma FailedInTurnIff(recorded: seq<Event>, delivered: seq<Event>, inFlight: seq<seq<Event>>, held: seq<Event>, k: nat)
    requires InOrder(recorded, delivered, Flatten(inFlight), held) && AllDifferent(recorded)
    requires k < |inFlight| && AllFull(inFlight)
    ensures InOrder(recorded, delivered, Flatten(Without(inFlight, k)), inFlight[k] + held) <==> k == |inFlight| - 1
  {
    if k == |inFlight| - 1 {
      FailedInTurn(recorded, delivered, inFlight, held);
    } else {
      FailedOutOfTurn(recorded, delivered, inFlight, held, k);
    }
  }

  lemma InStays(recorded: seq<Event>, e: Event, asked: set<Event>)
    requires forall d :: d in asked ==> In(d, recorded)
    ensures forall d :: d in asked + {e} ==> In(d, recorded + [e])
  {
    forall d | d in asked + {e} ensures In(d, recorded + [e]) {
      if d in asked && In(d, recorded) {
        var other :| other in recorded && Same(d, other);
        assert other in recorded + [e];
      } else {
        assert e in recorded + [e];
      }
    }
  }

  lemma HeldIsRecorded(recorded: seq<Event>, delivered: seq<Event>, flying: seq<Event>, held: seq<Event>, lost: seq<Event>,
                       e: Event)
    requires Accounts(recorded, delivered, flying, held, lost) && In(e, held)
    ensures In(e, recorded)
  {
    var other :| other in held && Same(e, other);
    assert other in recorded;
  }

  lemma RecordedIsSomewhere(recorded: seq<Event>, delivered: seq<Event>, held: seq<Event>, e: Event)
    requires Accounts(recorded, delivered, [], held, []) && In(e, recorded)
    ensures In(e, delivered + held)
  {
    var other :| other in recorded && Same(e, other);
    assert other in delivered + held;
  }

  class Collection {
    var presentations: Option<seq<Event>>       // undefined once consumed
    var inFlight: seq<seq<Event>>
    ghost var final: seq<Event>
    ghost var delivered: seq<Event>             // by successful checkpoints, in the order they succeeded
    ghost var recorded: seq<Event>
    ghost var asked: set<Event>                 // every event recorded or found already there
    ghost var lost: seq<Event>

    function Now(): View
      reads this`presentations, this`inFlight
    {
      View(presentations, inFlight)
    }

    /** What is still held, or was when the collection was consumed. */
    ghost function Held(): seq<Event>
      reads this`presentations, this`final
    {
      if presentations.Some? then presentations.value else final
    }

    ghost predicate Valid()
      reads this
    {
      && Accounts(recorded, delivered, Flatten(inFlight), Held(), lost)
      && AllFull(inFlight)
      && forall e :: e in asked ==> In(e, recorded)
    }

    /** What was delivered, then what is under way, then what is held, is what was recorded. */
    ghost predicate Ordered()
      reads this
    {
      InOrder(recorded, delivered, Flatten(inFlight), Held())
    }

    constructor ()
      ensures Valid() && Ordered() && Now() == EMPTY
      ensures recorded == [] && delivered == [] && asked == {} && lost == []
    {
      presentations, inFlight, final, delivered, recorded, asked, lost := Some([]), [], [], [], [], {}, [];
    }

    /** Ignored after consumption, and when the same event is still held. */
    method Record(e: Event)
      requires Valid()
      modifies this`presentations, this`recorded, this`asked
      ensures Valid() && (old(Ordered()) ==> Ordered())
      ensures asked == if old(presentations).Some? then old(asked) + {e} else old(asked)
      ensures if old(presentations).Some? && !In(e, old(Held()))
              then recorded == old(recorded) + [e] && presentations == Some(old(Held()) + [e])
              else recorded == old(recorded) && presentations == old(presentations)
    {
      if presentations.None? {
        return;
      }
      if In(e, presentations.value) {
        HeldIsRecorded(recorded, delivered, Flatten(inFlight), presentations.value, lost, e);
      } else {
        RecordKeeps(recorded, delivered, Flatten(inFlight), presentations.value, lost, e);
        InStays(recorded, e, asked);
        presentations := Some(presentations.value + [e]);
        recorded := recorded + [e];
      }
      asked := asked + {e};
    }

    /** `splice(0)`: the batch is away before it is delivered. */
    method Start()
      requires Valid()
      modifies this`presentations, this`inFlight
      ensures Valid() && (old(Ordered()) ==> Ordered())
      ensures if old(presentations).Some? && old(Held()) != []
              then inFlight == old(inFlight) + [old(Held())] && presentations == Some([])
              else inFlight == old(inFlight) && presentations == old(presentations)
    {
      if presentations.Some? && presentations.value != [] {
        StartKeeps(recorded, delivered, inFlight, presentations.value, lost);
        inFlight := inFlight + [presentations.value];
        presentations := Some([]);
      }
    }

    method Deliver(k: nat)
      requires Valid() && k < |inFlight|
      modifies this`inFlight, this`delivered
      ensures Valid() && inFlight == Without(old(inFlight), k) && delivered == old(delivered) + old(inFlight)[k]
      ensures old(Ordered()) && k == 0 ==> Ordered()
    {
      SettleAccounts(recorded, delivered, inFlight, Held(), lost, k);
      if Ordered() && k == 0 {
        DeliveredInTurn(recorded, delivered, inFlight, Held());
      }
      delivered := delivered + inFlight[k];
      inFlight := Without(inFlight, k);
    }

    /** `unshift`: back in front of what was recorded meanwhile; there is nothing to go back to once consumed. */
    method Fail(k: nat)
      requires Valid() && k < |inFlight|
      modifies this`inFlight, this`presentations, this`lost
      ensures Valid() && inFlight == Without(old(inFlight), k)
      ensures if old(presentations).Some?
              then presentations == Some(old(inFlight)[k] + old(Held())) && lost == old(lost)
              else presentations == None && lost == old(lost) + old(inFlight)[k]
      ensures old(Ordered()) && old(presentations).Some? && k == |old(inFlight)| - 1 ==> Ordered()
    {
      SettleAccounts(recorded, delivered, inFlight, Held(), lost, k);
      if presentations.Some? {
        if Ordered() && k == |inFlight| - 1 {
          FailedInTurn(recorded, delivered, inFlight, Held());
        }
        presentations := Some(inFlight[k] + presentations.value);
      } else {
        lost := lost + inFlight[k];
      }
      inFlight := Without(inFlight, k);
    }

    method Consume() returns (batch: seq<Event>)
      requires Valid()
      modifies this`presentations, this`final
      ensures Valid() && (old(Ordered()) ==> Ordered())
      ensures presentations == None && final == old(Held())
      ensures batch == if old(presentations).Some? then final else []
    {
      batch := if presentations.Some? then presentations.value else [];
      if presentations.Some? {
        presentations, final := None, batch;
      }
    }

    method Step(op: Op)
      requires Valid() && Enabled(Now(), op)
      modifies this
      ensures Valid() && Now() == After(old(Now()), op)
      ensures lost == [] <==> old(lost) == [] && !FailsLate(old(Now()), op)
      ensures old(Ordered()) && !OutOfTurn(old(Now()), op) && !FailsLate(old(Now()), op) ==> Ordered()
    {
      match op
      case RecordOp(e) => Record(e);
      case StartOp => Start();
      case DeliverOp(k) => Deliver(k);
      case FailOp(k) => Fail(k);
      case ConsumeOp => var _ := Consume();
    }

    /**
     * Any interleaving of recording, starting, delivering, failing and consuming.  Nothing is
     * lost if and only if no checkpoint fails after the collection is consumed.  If moreover none
     * settles out of turn, which is so whenever none starts while another is under way, the
     * delivered batches and then the final one are in recording order.
     */
    method Drive(ops: seq<Op>)
      requires Valid()
      modifies this
      ensures Valid() && Now() == AfterAll(old(Now()), ops)
      ensures lost == [] <==> old(lost) == [] && !EverFailsLate(old(Now()), ops)
      ensures inFlight == [] && presentations.None? && lost == [] ==>
                && |recorded| == |delivered| + |final|
                && (forall e :: e in recorded <==> e in delivered || e in final)
                && (forall e :: e in asked ==> In(e, delivered + final))
      ensures old(Ordered()) && !EverOutOfTurn(old(Now()), ops) && !EverFailsLate(old(Now()), ops) ==>
                Ordered() && (inFlight == [] && presentations.None? ==> recorded == delivered + final)
      ensures old(Ordered()) && |old(inFlight)| <= 1 && !EverOverlaps(old(Now()), ops) && !EverFailsLate(old(Now()), ops) ==>
                Ordered() && (inFlight == [] && presentations.None? ==> recorded == delivered + final)
    {
      ghost var before := Now();
      assert ops[..0] == [];
      for n := 0 to |ops|
        invariant Valid() && Now() == AfterAll(before, ops[..n])
        invariant lost == [] <==> old(lost) == [] && !EverFailsLate(before, ops[..n])
        invariant old(Ordered()) && !EverOutOfTurn(before, ops[..n]) && !EverFailsLate(before, ops[..n]) ==> Ordered()
      {
        OneMore(before, ops, n);
        if Enabled(Now(), ops[n]) {
          Step(ops[n]);
        }
      }
      assert ops[..|ops|] == ops;
      if |before.flying| <= 1 && !EverOverlaps(before, ops) {
        OneAtATimeIsInTurn(before, ops);
      }
      if inFlight == [] && presentations.None? && lost == [] {
        forall e | e in asked ensures In(e, delivered + final) { RecordedIsSomewhere(recorded, delivered, final, e); }
        assert delivered + [] + final == delivered + final;
      }
    }
  }

  lemma OneOfTwo(x: seq<Event>, y: seq<Event>)
    ensures Without([x, y], 0) == [y] && Without([x, y], 1) == [x] && Without([x], 0) == []
    ensures x + [] == x
  {}

  /** One event recorded, and its checkpoint under way. */
  method Checkpointed(c: Collection, e: Event)
    requires c.Valid() && c.presentations == Some([])
    modifies c
    ensures c.Valid() && c.Now() == View(Some([]), old(c.inFlight) + [[e]])
    ensures c.recorded == old(c.recorded) + [e] && c.delivered == old(c.delivered) && c.lost == old(c.lost)
  {
    c.Record(e);
    assert c.Held() == [e];
    c.Start();
  }

  method TwoUnderWay(a: Event, b: Event) returns (c: Collection)
    ensures fresh(c) && c.Valid() && c.Now() == View(Some([]), [[a], [b]])
    ensures c.recorded == [a, b] && c.delivered == []
  {
    c := new Collection();
    Checkpointed(c, a);
    assert c.inFlight == [[a]];
    Checkpointed(c, b);
  }

  /** Overlapping checkpoints do reorder: the second batch may be delivered first. */
  method OverlapReorders(a: Event, b: Event) returns (c: Collection)
    ensures fresh(c) && c.Valid() && c.recorded == [a, b] && c.delivered == [b, a] && c.inFlight == []
  {
    OneOfTwo([a], [b]);
    c := TwoUnderWay(a, b);
    c.Deliver(1);
    c.Deliver(0);
  }

  /** Not every run out of turn ends out of order: a batch that went back too early may overtake again. */
  method OvertakingHeals(a: Event, b: Event) returns (c: Collection)
    ensures fresh(c) && c.Valid() && c.recorded == [a, b] && c.delivered == [a, b] && c.inFlight == []
  {
    OneOfTwo([a], [b]);
    OneOfTwo([b], [a]);
    c := TwoUnderWay(a, b);
    c.Fail(0);
    assert c.presentations == Some([a]) && c.inFlight == [[b]];
    c.Start();
    assert c.inFlight == [[b], [a]];
    c.Deliver(1);
    c.Deliver(0);
  }

  /** A checkpoint that fails after consumption does lose its batch. */
  method LateFailureLoses(a: Event) returns (c: Collection)
    ensures fresh(c) && c.Valid() && c.recorded == [a] && c.lost == [a] && c.delivered == [] && c.Held() == []
  {
    OneOfTwo([a], []);
    c := new Collection();
    Checkpointed(c, a);
    assert c.inFlight == [[a]];
    var _ := c.Consume();
    c.Fail(0);
  }
}
