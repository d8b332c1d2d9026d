/**
 * `FleetCommandAuditStore`: the write-once ledger of Fleet commands, kept in memory and
 * persisted whole after every change.  Persisting may fail, which throws after memory has
 * changed, and the process may restart from what was persisted last.
 *
 * Meanwhile resources are erased: the registry grows, the file is rewritten behind the store's
 * back, and the store filters what it holds before it compares or writes.  The specification
 * keeps the ledger as it would be without erasure beside what is really there.
 */
module AuditStore {
  import opened Json
  import opened Options
  import Erasure

  type Digest = string -> string
  type Refs = set<string>

  datatype Delivery = Sending | Delivered | Uncertain

  /** `report` holds the class, effect, exit code, resources and presentations. */
  datatype Outcome = Outcome(report: Json, completedAt: string, delivery: Delivery)

  /** Sensitive values of `argv` are left out beforehand; `erased` says it has been replaced by digests. */
  datatype Attempt = Attempt(
    id: string, requestId: string, caller: string, argv: seq<string>, erased: bool, invocation: Delivery,
    outcome: Option<Outcome>)

  datatype Answer = Accepted(attempt: Attempt) | Refused

  datatype Op =
    | BeginOp(requestId: string, caller: string, argv: seq<string>, id: string, persists: bool)
    | InvocationOp(id: string, caller: string, delivery: Delivery, persists: bool)
    | FinishOp(id: string, caller: string, report: Json, now: string, persists: bool)
    | OutcomeOp(id: string, caller: string, delivery: Delivery, persists: bool)
    | Restart(persists: bool)
    | EraseOp(resources: seq<Erasure.Resource>, rewrites: bool)

  // ---- what erasure does to an attempt --------------------------------------------------------

  function ErasedArg(digest: Digest, arg: string): string {
    "[erased:" + digest(arg) + "]"
  }

  function ErasedArgs(digest: Digest, argv: seq<string>): seq<string> {
    seq(|argv|, i requires 0 <= i < |argv| => ErasedArg(digest, argv[i]))
  }

  /** The report is about something erased. */
  predicate About(report: Json, refs: Refs) {
    Erasure.OwnsErased(map["outcome" := report], refs)
  }

  predicate Hides(a: Attempt, refs: Refs) {
    a.outcome.Some? && !a.erased && About(a.outcome.value.report, refs)
  }

  function Filtered(digest: Digest, a: Attempt, refs: Refs): Attempt {
    a.(argv := if Hides(a, refs) then ErasedArgs(digest, a.argv) else a.argv,
       erased := a.erased || Hides(a, refs),
       outcome := match a.outcome
                  case None => None
                  case Some(o) => Some(o.(report := Erasure.Redact(digest, o.report, refs))))
  }

  lemma AboutStays(digest: Digest, report: Json, first: Refs, refs: Refs)
    requires Erasure.Registry(refs)
    ensures About(Erasure.Redact(digest, report, first), refs) == About(report, refs)
  {
    var m := map["outcome" := report];
    Erasure.RedactIsOnePass(digest, m, first);
    var m' := Erasure.Redact(digest, Obj(m), first).fields;
    Erasure.OwnershipStays(digest, m, first, m', refs);
    Erasure.DecidingKeysAreMetadata();
    Erasure.MetadataStays(digest, m, first, m', "outcome");
    assert Erasure.At(m', "outcome") == Some(Erasure.Redact(digest, report, first));
    var n := map["outcome" := Erasure.Redact(digest, report, first)];
    assert Erasure.FieldsAt(m', "outcome") == Erasure.FieldsAt(n, "outcome");
  }

  /** Filtering twice is filtering once by both registries: arguments are hidden only once. */
  lemma FilteredTwice(digest: Digest, a: Attempt, first: Refs, refs: Refs)
    requires Erasure.Registry(first) && Erasure.Registry(refs)
    ensures Filtered(digest, Filtered(digest, a, first), refs) == Filtered(digest, a, first + refs)
  {
    if a.outcome.Some? {
      var report := a.outcome.value.report;
      AboutStays(digest, report, first, refs);
      Erasure.OwnershipJoins(map["outcome" := report], first, refs);
      Erasure.RedactComposes(digest, report, first, refs);
    }
  }

  // ---- an attempt as the file has it ----------------------------------------------------------

  function Spelled(d: Delivery): (j: Json)
    ensures j == Str("sending") <==> d.Sending?
    ensures j == Str("delivered") <==> d.Delivered?
    ensures j == Str("uncertain") <==> d.Uncertain?
  {
    Str(match d case Sending => "sending" case Delivered => "delivered" case Uncertain => "uncertain")
  }

  function OutcomeFields(o: Outcome): map<string, Json>
    requires o.report.Obj?
  {
    o.report.fields["completedAt" := Str(o.completedAt)]["delivery" := Spelled(o.delivery)]
  }

  function Texts(argv: seq<string>): Json {
    Arr(seq(|argv|, i requires 0 <= i < |argv| => Str(argv[i])))
  }

  predicate Recordable(a: Attempt) {
    a.outcome.Some? ==> a.outcome.value.report.Obj?
  }

  function Fields(a: Attempt): map<string, Json>
    requires Recordable(a)
  {
    map["correlationId" := Str(a.id), "requestId" := Str(a.requestId), "caller" := Str(a.caller),
        "argv" := Texts(a.argv), "invocation" := Spelled(a.invocation)]
    + (if a.erased then map["erased" := Bool(true)] else map[])
    + (if a.outcome.Some? then map["outcome" := Obj(OutcomeFields(a.outcome.value))] else map[])
  }

  /** Where an object is not itself a presentation, a pass only goes into its fields and hides arguments. */
  lemma PlainField(digest: Digest, m: map<string, Json>, refs: Refs, v: Erasure.Verdict, key: string)
    requires !v.named && !v.inRoom
    ensures Erasure.FieldAfter(digest, m, refs, v, key) ==
            if key == "argv" && v.hidden.Some? then v.hidden
            else if key == "erased" && v.hidden.Some? then Some(Bool(true))
            else if key in m then Some(Erasure.Redact(digest, m[key], refs)) else None
  {}

  lemma OutcomeField(digest: Digest, o: Outcome, refs: Refs, v: Erasure.Verdict, key: string)
    requires o.report.Obj?
    ensures var m, n := o.report.fields, OutcomeFields(o);
            Erasure.FieldAfter(digest, n, refs, v, key) ==
            if key in {"completedAt", "delivery"} then Erasure.At(n, key) else Erasure.FieldAfter(digest, m, refs, v, key)
  {
    Erasure.SlotNames(key);
  }

  lemma OutcomeIsRedacted(digest: Digest, o: Outcome, refs: Refs)
    requires o.report.Obj?
    ensures Erasure.Redact(digest, o.report, refs).Obj?
    ensures Erasure.Redact(digest, Obj(OutcomeFields(o)), refs)
            == Obj(OutcomeFields(o.(report := Erasure.Redact(digest, o.report, refs))))
  {
    var m, n := o.report.fields, OutcomeFields(o);
    Erasure.RedactIsOnePass(digest, m, refs);
    var m' := Erasure.Redact(digest, o.report, refs).fields;
    var n' := OutcomeFields(o.(report := Obj(m')));
    var v := Erasure.Judge(digest, m, refs);
    JudgedAlike(digest, o, refs);
    forall key ensures Erasure.At(n', key) == Erasure.FieldAfter(digest, n, refs, v, key) {
      OutcomeField(digest, o, refs, v, key);
      assert Erasure.At(m', key) == Erasure.FieldAfter(digest, m, refs, v, key);
    }
    Erasure.RedactIsOnePass(digest, n, refs);
    Erasure.OnePassIsRedact(digest, n, refs, n');
  }

  lemma JudgedAlike(digest: Digest, o: Outcome, refs: Refs)
    requires o.report.Obj?
    ensures Erasure.Judge(digest, OutcomeFields(o), refs) == Erasure.Judge(digest, o.report.fields, refs)
  {
    var m, n := o.report.fields, OutcomeFields(o);
    assert Erasure.FieldsAt(n, "outcome") == Erasure.FieldsAt(m, "outcome");
    assert forall key :: key in {"kind", "resource", "id", "roomId", "argv", "erased"} ==> Erasure.At(n, key) == Erasure.At(m, key);
    assert Erasure.TextAt(n, "kind") == Erasure.TextAt(m, "kind") && Erasure.TextAt(n, "resource") == Erasure.TextAt(m, "resource");
    assert Erasure.TextAt(n, "id") == Erasure.TextAt(m, "id") && Erasure.TextAt(n, "roomId") == Erasure.TextAt(m, "roomId");
    assert Erasure.HidesArguments(n, refs) == Erasure.HidesArguments(m, refs);
  }

  lemma OwnedAlike(a: Attempt, refs: Refs)
    requires Recordable(a)
    ensures Erasure.OwnsErased(Fields(a), refs) <==> a.outcome.Some? && About(a.outcome.value.report, refs)
  {
    if a.outcome.Some? {
      var o, m := Erasure.FieldsAt(Fields(a), "outcome"), a.outcome.value.report.fields;
      assert o == OutcomeFields(a.outcome.value);
      assert Erasure.FieldsAt(map["outcome" := a.outcome.value.report], "outcome") == m;
      assert Erasure.At(o, "resourceIds") == Erasure.At(m, "resourceIds");
      assert Erasure.At(o, "presentations") == Erasure.At(m, "presentations");
      assert Erasure.FieldsAt(o, "resourceIds") == Erasure.FieldsAt(m, "resourceIds");
    } else {
      assert Erasure.FieldsAt(Fields(a), "outcome") == map[];
    }
  }

  lemma HiddenTexts(digest: Digest, argv: seq<string>)
    ensures Erasure.HiddenArguments(digest, Texts(argv).items) == Texts(ErasedArgs(digest, argv))
  {}

  function Field(a: Attempt, key: string): Option<Json>
    requires Recordable(a)
  {
    if key == "correlationId" then Some(Str(a.id))
    else if key == "requestId" then Some(Str(a.requestId))
    else if key == "caller" then Some(Str(a.caller))
    else if key == "argv" then Some(Texts(a.argv))
    else if key == "invocation" then Some(Spelled(a.invocation))
    else if key == "erased" && a.erased then Some(Bool(true))
    else if key == "outcome" && a.outcome.Some? then Some(Obj(OutcomeFields(a.outcome.value)))
    else None
  }

  lemma FieldAt(a: Attempt, key: string)
    requires Recordable(a)
    ensures Erasure.At(Fields(a), key) == Field(a, key)
  {}

  lemma AttemptIsJudged(digest: Digest, a: Attempt, refs: Refs)
    requires Recordable(a)
    ensures var v := Erasure.Judge(digest, Fields(a), refs);
            !v.named && !v.inRoom && v.hidden == if Hides(a, refs) then Some(Texts(ErasedArgs(digest, a.argv))) else None
  {
    OwnedAlike(a, refs);
    HiddenTexts(digest, a.argv);
    FieldAt(a, "id");
    FieldAt(a, "roomId");
    FieldAt(a, "argv");
    FieldAt(a, "erased");
  }

  lemma FieldIsFiltered(digest: Digest, a: Attempt, refs: Refs, key: string)
    requires Recordable(a) && Recordable(Filtered(digest, a, refs))
    ensures Field(Filtered(digest, a, refs), key) ==
            if key == "argv" && Hides(a, refs) then Some(Texts(ErasedArgs(digest, a.argv)))
            else if key == "erased" && Hides(a, refs) then Some(Bool(true))
            else match Field(a, key)
                 case None => None
                 case Some(j) => Some(Erasure.Redact(digest, j, refs))
  {
    if key == "outcome" && a.outcome.Some? {
      OutcomeIsRedacted(digest, a.outcome.value, refs);
    } else if Field(a, key).Some? {
      Erasure.FlatIsFixed(digest, Field(a, key).value, refs);
    }
  }

  /** `Filtered` is what `redact` does to an attempt. */
  lemma FilteringIsRedaction(digest: Digest, a: Attempt, refs: Refs)
    requires Recordable(a)
    ensures Recordable(Filtered(digest, a, refs))
    ensures Erasure.Redact(digest, Obj(Fields(a)), refs) == Obj(Fields(Filtered(digest, a, refs)))
  {
    if a.outcome.Some? {
      OutcomeIsRedacted(digest, a.outcome.value, refs);
    }
    AttemptIsJudged(digest, a, refs);
    var m, b := Fields(a), Filtered(digest, a, refs);
    var v := Erasure.Judge(digest, m, refs);
    forall key ensures Erasure.At(Fields(b), key) == Erasure.FieldAfter(digest, m, refs, v, key) {
      FieldAt(a, key);
      FieldAt(b, key);
      FieldIsFiltered(digest, a, refs, key);
      PlainField(digest, m, refs, v, key);
    }
    Erasure.RedactIsOnePass(digest, m, refs);
    Erasure.OnePassIsRedact(digest, m, refs, Fields(b));
  }

  // ---- what never goes back ---------------------------------------------------------------------

  /** A delivery state leaves `Sending` at most once. */
  predicate Settles(before: Delivery, after: Delivery) {
    before == after || before.Sending?
  }

  predicate Advances(before: Attempt, after: Attempt) {
    && before.id == after.id && before.requestId == after.requestId
    && before.caller == after.caller && before.argv == after.argv && before.erased == after.erased
    && Settles(before.invocation, after.invocation)
    && (before.outcome.Some? ==>
          && after.outcome.Some? && after.outcome.value.report == before.outcome.value.report
          && after.outcome.value.completedAt == before.outcome.value.completedAt
          && Settles(before.outcome.value.delivery, after.outcome.value.delivery))
  }

  /** Attempts are only added, and each only advances. */
  predicate Forward(before: seq<Attempt>, after: seq<Attempt>) {
    |before| <= |after| && forall i :: 0 <= i < |before| ==> Advances(before[i], after[i])
  }

  /** One attempt per request of a caller, and per correlation. */
  predicate Unique(attempts: seq<Attempt>) {
    forall i, j :: 0 <= i < j < |attempts| ==>
      attempts[i].id != attempts[j].id
      && !(attempts[i].caller == attempts[j].caller && attempts[i].requestId == attempts[j].requestId)
  }

  lemma ForwardOn(a: seq<Attempt>, b: seq<Attempt>, c: seq<Attempt>)
    requires Forward(a, b) && Forward(b, c)
    ensures Forward(a, c)
  {
    forall i | 0 <= i < |a| ensures Advances(a[i], c[i]) {
      assert Advances(a[i], b[i]) && Advances(b[i], c[i]);
    }
  }

  lemma UniqueBehind(before: seq<Attempt>, after: seq<Attempt>)
    requires Forward(before, after) && Unique(after)
    ensures Unique(before)
  {
    forall i, j | 0 <= i < j < |before|
      ensures before[i].id != before[j].id
      ensures !(before[i].caller == before[j].caller && before[i].requestId == before[j].requestId)
    {
      assert Advances(before[i], after[i]) && Advances(before[j], after[j]);
    }
  }

  lemma UniqueAhead(before: seq<Attempt>, after: seq<Attempt>)
    requires Unique(before) && |before| == |after| && Forward(before, after)
    ensures Unique(after)
  {
    forall i, j | 0 <= i < j < |after|
      ensures after[i].id != after[j].id
      ensures !(after[i].caller == after[j].caller && after[i].requestId == after[j].requestId)
    {
      assert Advances(before[i], after[i]) && Advances(before[j], after[j]);
    }
  }

  function Find(attempts: seq<Attempt>, caller: string, requestId: string): (i: Option<nat>)
    ensures i.Some? ==>
              i.value < |attempts| && attempts[i.value].caller == caller && attempts[i.value].requestId == requestId
    ensures i.None? ==>
              forall k :: 0 <= k < |attempts| ==> !(attempts[k].caller == caller && attempts[k].requestId == requestId)
  {
    if attempts == [] then None
    else if attempts[0].caller == caller && attempts[0].requestId == requestId then Some(0)
    else match Find(attempts[1..], caller, requestId)
         case None => None
         case Some(i) => Some(i + 1)
  }

  function Lookup(attempts: seq<Attempt>, id: string): (i: Option<nat>)
    ensures i.Some? ==> i.value < |attempts| && attempts[i.value].id == id
    ensures i.None? ==> forall k :: 0 <= k < |attempts| ==> attempts[k].id != id
  {
    if attempts == [] then None
    else if attempts[0].id == id then Some(0)
    else match Lookup(attempts[1..], id)
         case None => None
         case Some(i) => Some(i + 1)
  }

  function Owned(attempts: seq<Attempt>, id: string, caller: string): (i: Option<nat>)
    ensures i.Some? ==> i.value < |attempts| && attempts[i.value].id == id && attempts[i.value].caller == caller
    ensures i.None? && Unique(attempts) ==>
              forall k :: 0 <= k < |attempts| ==> !(attempts[k].id == id && attempts[k].caller == caller)
  {
    match Lookup(attempts, id)
    case None => None
    case Some(i) => if attempts[i].caller == caller then Some(i) else None
  }

  /** A request repeated at any later time finds the attempt it found first. */
  lemma RequestKeepsItsAttempt(before: seq<Attempt>, after: seq<Attempt>, caller: string, requestId: string)
    requires Forward(before, after) && Unique(after) && Find(before, caller, requestId).Some?
    ensures Find(after, caller, requestId) == Find(before, caller, requestId)
  {
    var i := Find(before, caller, requestId).value;
    assert Advances(before[i], after[i]);
    var j := Find(after, caller, requestId).value;
    assert i <= j ==> i == j;
    assert j <= i ==> i == j;
  }

  function Interrupted(d: Delivery): Delivery {
    if d.Sending? then Uncertain else d
  }

  function Recovered(a: Attempt): Attempt {
    a.(invocation := Interrupted(a.invocation),
       outcome := match a.outcome
                  case None => None
                  case Some(o) => Some(o.(delivery := Interrupted(o.delivery))))
  }

  function AllRecovered(attempts: seq<Attempt>): (r: seq<Attempt>)
    ensures |r| == |attempts| && Forward(attempts, r)
  {
    seq(|attempts|, i requires 0 <= i < |attempts| => Recovered(attempts[i]))
  }

  predicate Sends(a: Attempt) {
    a.invocation.Sending? || (a.outcome.Some? && a.outcome.value.delivery.Sending?)
  }

  /** Every `sending` has become `uncertain`, and nothing else is different. */
  ghost predicate NothingSends(before: Attempt, after: Attempt) {
    && after.invocation == (if before.invocation == Sending then Uncertain else before.invocation)
    && (before.outcome == None ==> after.outcome == None)
    && (before.outcome.Some? ==>
          var was := before.outcome.value;
          after.outcome == Some(Outcome(was.report, was.completedAt, if was.delivery == Sending then Uncertain else was.delivery)))
    && after.id == before.id && after.requestId == before.requestId && after.caller == before.caller
    && after.argv == before.argv && after.erased == before.erased
  }

  ghost predicate AllQuiet(before: seq<Attempt>, after: seq<Attempt>) {
    |before| == |after| && forall i :: 0 <= i < |before| ==> NothingSends(before[i], after[i])
  }

  ghost predicate AnySends(attempts: seq<Attempt>) {
    exists i :: 0 <= i < |attempts| && Sends(attempts[i])
  }

  // ---- the ledger with and without erasure ------------------------------------------------------

  /** `plain` is the ledger without erasure; what is really there is filtered by the registry `under`. */
  datatype State = State(plain: seq<Attempt>, under: Refs)

  function FilterAll(digest: Digest, attempts: seq<Attempt>, refs: Refs): (r: seq<Attempt>)
    ensures |r| == |attempts| && forall i :: 0 <= i < |r| ==> r[i] == Filtered(digest, attempts[i], refs)
  {
    seq(|attempts|, i requires 0 <= i < |attempts| => Filtered(digest, attempts[i], refs))
  }

  function Shown(digest: Digest, s: State): seq<Attempt> {
    FilterAll(digest, s.plain, s.under)
  }

  ghost predicate Later(s: State, t: State) {
    Forward(s.plain, t.plain) && s.under <= t.under
  }

  lemma LaterOn(s: State, t: State, u: State)
    requires Later(s, t) && Later(t, u)
    ensures Later(s, u)
  {
    ForwardOn(s.plain, t.plain, u.plain);
  }

  lemma SubRegistry(some: Refs, all: Refs)
    requires some <= all && Erasure.Registry(all)
    ensures Erasure.Registry(some)
  {}

  lemma FilteredAgain(digest: Digest, a: Attempt, under: Refs, erased: Refs)
    requires under <= erased && Erasure.Registry(erased)
    ensures Filtered(digest, Filtered(digest, a, under), erased) == Filtered(digest, a, erased)
  {
    SubRegistry(under, erased);
    FilteredTwice(digest, a, under, erased);
    assert under + erased == erased;
  }

  /** Filtering what is there by the registry of the moment leaves nothing of the older one. */
  lemma ShownAgain(digest: Digest, s: State, erased: Refs)
    requires s.under <= erased && Erasure.Registry(erased)
    ensures FilterAll(digest, Shown(digest, s), erased) == Shown(digest, State(s.plain, erased))
  {
    forall i | 0 <= i < |s.plain|
      ensures Filtered(digest, Shown(digest, s)[i], erased) == Filtered(digest, s.plain[i], erased)
    {
      FilteredAgain(digest, s.plain[i], s.under, erased);
    }
  }

  lemma FoundAlike(digest: Digest, s: State, caller: string, requestId: string)
    requires Unique(s.plain)
    ensures Find(Shown(digest, s), caller, requestId) == Find(s.plain, caller, requestId)
  {
    var shown := Shown(digest, s);
    assert forall k :: 0 <= k < |shown| ==> shown[k].caller == s.plain[k].caller && shown[k].requestId == s.plain[k].requestId;
    var i, j := Find(shown, caller, requestId), Find(s.plain, caller, requestId);
    assert i.Some? <==> j.Some?;
    assert i.Some? ==> !(i.value < j.value) && !(j.value < i.value);
  }

  lemma OwnedAlikeIn(digest: Digest, s: State, id: string, caller: string)
    requires Unique(s.plain)
    ensures Owned(Shown(digest, s), id, caller) == Owned(s.plain, id, caller)
  {
    var shown := Shown(digest, s);
    assert forall k :: 0 <= k < |shown| ==> shown[k].id == s.plain[k].id && shown[k].caller == s.plain[k].caller;
    var i, j := Lookup(shown, id), Lookup(s.plain, id);
    assert i.Some? <==> j.Some?;
    assert i.Some? ==> !(i.value < j.value) && !(j.value < i.value);
  }

  lemma RecoveredAlike(digest: Digest, s: State)
    ensures AllRecovered(Shown(digest, s)) == Shown(digest, State(AllRecovered(s.plain), s.under))
  {
    forall i | 0 <= i < |s.plain|
      ensures Recovered(Filtered(digest, s.plain[i], s.under)) == Filtered(digest, Recovered(s.plain[i]), s.under)
    {}
  }

  lemma SendsAlike(digest: Digest, s: State)
    ensures forall i :: 0 <= i < |s.plain| ==> Sends(Shown(digest, s)[i]) == Sends(s.plain[i])
    ensures AnySends(Shown(digest, s)) <==> AnySends(s.plain)
  {
    assert forall i :: 0 <= i < |s.plain| && Sends(s.plain[i]) ==> Sends(Shown(digest, s)[i]);
  }

  lemma NothingRecovered(attempts: seq<Attempt>)
    requires !AnySends(attempts)
    ensures AllRecovered(attempts) == attempts
  {
    assert forall i :: 0 <= i < |attempts| ==> Recovered(attempts[i]) == attempts[i];
  }

  lemma RecoveredStaysUnique(before: seq<Attempt>, after: seq<Attempt>)
    requires Forward(before, after) && Unique(after) && forall i :: 0 <= i < |after| ==> !after[i].erased
    ensures Unique(AllRecovered(before)) && AllQuiet(before, AllRecovered(before))
    ensures forall i :: 0 <= i < |before| ==> !AllRecovered(before)[i].erased
  {
    UniqueBehind(before, after);
    UniqueAhead(before, AllRecovered(before));
    assert forall i :: 0 <= i < |before| ==> Advances(before[i], after[i]);
  }

  // ---- retries ---------------------------------------------------------------------------------

  /** Arguments of the two requests with the same digest are the same. */
  predicate NoCollision(digest: Digest, a: seq<string>, b: seq<string>) {
    |a| == |b| ==> forall k :: 0 <= k < |a| && digest(a[k]) == digest(b[k]) ==> a[k] == b[k]
  }

  /** The comparison `begin` makes: by digests once the arguments have been erased. */
  predicate SameRequest(digest: Digest, a: Attempt, argv: seq<string>) {
    a.argv == if a.erased then ErasedArgs(digest, argv) else argv
  }

  lemma DigestsTell(digest: Digest, a: seq<string>, b: seq<string>)
    requires ErasedArgs(digest, a) == ErasedArgs(digest, b) && NoCollision(digest, a, b)
    ensures a == b
  {
    assert |ErasedArgs(digest, a)| == |a| && |ErasedArgs(digest, b)| == |b|;
    forall k | 0 <= k < |a| ensures a[k] == b[k] {
      var s, t := ErasedArgs(digest, a)[k], ErasedArgs(digest, b)[k];
      assert digest(a[k]) == s[8..|s| - 1] && digest(b[k]) == t[8..|t| - 1];
    }
  }

  /** Erasing the arguments of an attempt does not change which requests are retries of it. */
  lemma RetryIsKnown(digest: Digest, a: Attempt, refs: Refs, argv: seq<string>)
    requires !a.erased
    ensures a.argv == argv ==> SameRequest(digest, Filtered(digest, a, refs), argv)
    ensures NoCollision(digest, a.argv, argv) && SameRequest(digest, Filtered(digest, a, refs), argv) ==> a.argv == argv
  {
    if Hides(a, refs) && ErasedArgs(digest, a.argv) == ErasedArgs(digest, argv) && NoCollision(digest, a.argv, argv) {
      DigestsTell(digest, a.argv, argv);
    }
  }

  /** The attempt has no outcome yet, or one that differs from this at most in erased content. */
  predicate Agrees(digest: Digest, a: Attempt, report: Json, refs: Refs) {
    a.outcome.None? || Erasure.Redact(digest, a.outcome.value.report, refs) == Erasure.Redact(digest, report, refs)
  }

  function Reported(a: Attempt, report: Json, now: string): Attempt {
    if a.outcome.None? then a.(outcome := Some(Outcome(report, now, Sending))) else a
  }

  /** A new outcome is filtered before it is recorded, and the attempt again when it is written. */
  lemma ReportedFiltered(digest: Digest, a: Attempt, report: Json, now: string, refs: Refs)
    requires Erasure.Registry(refs)
    ensures var b := Reported(Filtered(digest, a, refs), Erasure.Redact(digest, report, refs), now);
            Filtered(digest, b, refs) == Filtered(digest, Reported(a, report, now), refs)
  {
    if a.outcome.None? {
      AboutStays(digest, report, refs, refs);
      Erasure.RedactIsIdempotent(digest, report, refs);
    } else {
      FilteredAgain(digest, a, refs, refs);
    }
  }

  lemma AgreesFiltered(digest: Digest, a: Attempt, report: Json, refs: Refs)
    ensures var b := Filtered(digest, a, refs);
            (b.outcome.None? || b.outcome.value.report == Erasure.Redact(digest, report, refs)) <==> Agrees(digest, a, report, refs)
  {}

  method RecoverAll(attempts: seq<Attempt>) returns (recovered: seq<Attempt>, found: bool)
    ensures recovered == AllRecovered(attempts)
    ensures found <==> AnySends(attempts)
  {
    recovered, found := [], false;
    for i := 0 to |attempts|
      invariant recovered == AllRecovered(attempts[..i])
      invariant found <==> exists k :: 0 <= k < i && Sends(attempts[k])
    {
      assert attempts[..i + 1][..i] == attempts[..i];
      recovered, found := recovered + [Recovered(attempts[i])], found || Sends(attempts[i]);
    }
    assert attempts[..|attempts|] == attempts;
  }

  class Store {
    const digest: Digest
    var attempts: seq<Attempt>
    var disk: seq<Attempt>
    var erased: Refs                        // the registry, which others extend
    ghost var memory: State                 // what `attempts` shows
    ghost var file: State                   // what `disk` shows
    ghost var trail: seq<State>             // every state of the file

    /** Memory is never behind the file, and the file never went back. */
    ghost predicate Valid()
      reads this
    {
      && attempts == Shown(digest, memory) && disk == Shown(digest, file)
      && Erasure.Registry(erased) && memory.under <= erased && file.under <= erased
      && Unique(memory.plain) && Forward(file.plain, memory.plain)
      && (forall i :: 0 <= i < |memory.plain| ==> !memory.plain[i].erased)
      && Trailing()
    }

    ghost predicate Trailing()
      reads this
    {
      trail != [] && trail[|trail| - 1] == file && forall k, l :: 0 <= k < l < |trail| ==> Later(trail[k], trail[l])
    }

    constructor (digest: Digest)
      ensures Valid() && memory == State([], {}) && file == State([], {}) && trail == [file] && erased == {}
    {
      this.digest, attempts, disk, erased := digest, [], [], {};
      memory, file, trail := State([], {}), State([], {}), [State([], {})];
    }

    /** The file says `s` from now on. */
    ghost method Extend(s: State)
      requires Trailing() && Later(file, s)
      modifies this`file, this`trail
      ensures Trailing() && file == s && trail == old(trail) + [s]
    {
      forall k | 0 <= k < |trail| ensures Later(trail[k], s) {
        if k < |trail| - 1 {
          LaterOn(trail[k], file, s);
        }
      }
      file, trail := s, trail + [s];
    }

    /** Memory becomes `next`, which without erasure is `plain`; it is filtered and, if that works, written. */
    method Persist(next: seq<Attempt>, ghost plain: seq<Attempt>, persists: bool)
      requires Valid() && Forward(memory.plain, plain) && Unique(plain)
      requires forall i :: 0 <= i < |plain| ==> !plain[i].erased
      requires FilterAll(digest, next, erased) == Shown(digest, State(plain, erased))
      modifies this`attempts, this`disk, this`memory, this`file, this`trail
      ensures Valid() && memory == State(plain, erased)
      ensures file == (if persists then memory else old(file))
      ensures trail == if persists then old(trail) + [memory] else old(trail)
      ensures persists ==> disk == attempts
    {
      ForwardOn(file.plain, memory.plain, plain);
      attempts, memory := FilterAll(digest, next, erased), State(plain, erased);
      if persists {
        Extend(memory);
        disk := attempts;
      }
    }

    /** Memory filtered by the registry of the moment. */
    method Refresh()
      requires Valid()
      modifies this`attempts, this`memory
      ensures Valid() && memory == State(old(memory).plain, erased)
    {
      ShownAgain(digest, memory, erased);
      attempts, memory := FilterAll(digest, attempts, erased), State(memory.plain, erased);
    }

    /**
     * The same request again gets its first attempt back, before and after its arguments are
     * erased; as far as digests tell them apart, other arguments are refused.
     */
    method Begin(requestId: string, caller: string, argv: seq<string>, id: string, persists: bool) returns (r: Answer)
      requires Valid() && forall k :: 0 <= k < |attempts| ==> attempts[k].id != id
      modifies this`attempts, this`disk, this`memory, this`file, this`trail
      ensures Valid() && memory.under == erased
      ensures match Find(old(memory).plain, caller, requestId)
              case None =>
                var attempt := Attempt(id, requestId, caller, argv, false, Sending, None);
                && memory.plain == old(memory).plain + [attempt]
                && r == (if persists then Accepted(attempt) else Refused)
                && file == (if persists then memory else old(file))
                && trail == (if persists then old(trail) + [file] else old(trail))
              case Some(i) =>
                && memory.plain == old(memory).plain && file == old(file) && trail == old(trail)
                && (r.Accepted? ==> r.attempt == attempts[i])
                && (memory.plain[i].argv == argv ==> r.Accepted?)
                && (r.Accepted? && NoCollision(digest, memory.plain[i].argv, argv) ==> memory.plain[i].argv == argv)
    {
      Refresh();
      FoundAlike(digest, memory, caller, requestId);
      match Find(attempts, caller, requestId)
      case Some(i) =>
        RetryIsKnown(digest, memory.plain[i], erased, argv);
        r := if SameRequest(digest, attempts[i], argv) then Accepted(attempts[i]) else Refused;
      case None =>
        var attempt := Attempt(id, requestId, caller, argv, false, Sending, None);
        NewAttempt(attempt);
        Persist(attempts + [attempt], memory.plain + [attempt], persists);
        r := if persists then Accepted(attempt) else Refused;
    }

    lemma NewAttempt(attempt: Attempt)
      requires Valid() && memory.under == erased && attempt.outcome.None?
      requires forall k :: 0 <= k < |attempts| ==> attempts[k].id != attempt.id
      requires Find(memory.plain, attempt.caller, attempt.requestId).None?
      ensures Unique(memory.plain + [attempt]) && Forward(memory.plain, memory.plain + [attempt])
      ensures FilterAll(digest, attempts + [attempt], erased) == Shown(digest, State(memory.plain + [attempt], erased))
    {
      ShownAgain(digest, memory, erased);
      forall k | 0 <= k < |memory.plain| ensures memory.plain[k].id != attempt.id {
        assert attempts[k] == Filtered(digest, memory.plain[k], erased);
      }
    }

    /** Attempt `i` may be written as `b`, which is `plain` without erasure. */
    lemma OneAdvances(i: nat, b: Attempt, plain: Attempt)
      requires Valid() && i < |attempts| && Advances(memory.plain[i], plain)
      requires Filtered(digest, b, erased) == Filtered(digest, plain, erased)
      ensures var after := memory.plain[i := plain];
              && Forward(memory.plain, after) && Unique(after) && (forall k :: 0 <= k < |after| ==> !after[k].erased)
              && FilterAll(digest, attempts[i := b], erased) == Shown(digest, State(after, erased))
    {
      ShownAgain(digest, memory, erased);
      UniqueAhead(memory.plain, memory.plain[i := plain]);
      var s, t := FilterAll(digest, attempts[i := b], erased), Shown(digest, State(memory.plain[i := plain], erased));
      forall k | 0 <= k < |s| ensures s[k] == t[k] {
        if k != i {
          assert FilterAll(digest, attempts, erased)[k] == Filtered(digest, memory.plain[k], erased);
        }
      }
    }

    lemma ReportAdvances(i: nat, report: Json, now: string)
      requires Valid() && memory.under == erased && i < |attempts|
      ensures var b := Reported(attempts[i], Erasure.Redact(digest, report, erased), now);
              var after := memory.plain[i := Reported(memory.plain[i], report, now)];
              && Forward(memory.plain, after) && Unique(after) && (forall k :: 0 <= k < |after| ==> !after[k].erased)
              && FilterAll(digest, attempts[i := b], erased) == Shown(digest, State(after, erased))
    {
      var b, plain := Reported(attempts[i], Erasure.Redact(digest, report, erased), now), Reported(memory.plain[i], report, now);
      ReportedFiltered(digest, memory.plain[i], report, now, erased);
      OneAdvances(i, b, plain);
    }

    method Invocation(id: string, caller: string, delivery: Delivery, persists: bool) returns (r: Answer)
      requires Valid() && !delivery.Sending?
      modifies this`attempts, this`disk, this`memory, this`file, this`trail
      ensures Valid()
      ensures var i := Owned(old(memory).plain, id, caller);
              var goes := i.Some? && old(memory).plain[i.value].invocation in {Sending, delivery};
              && (!goes ==> memory == old(memory))
              && (goes ==>
                    && memory.under == erased
                    && memory.plain == old(memory).plain[i.value := old(memory).plain[i.value].(invocation := delivery)])
              && (r.Accepted? <==> goes && persists)
              && (r.Accepted? ==> r.attempt == old(attempts)[i.value].(invocation := delivery))
      ensures file == (if r.Accepted? then memory else old(file))
      ensures trail == if r.Accepted? then old(trail) + [file] else old(trail)
    {
      OwnedAlikeIn(digest, memory, id, caller);
      var i := Owned(attempts, id, caller);
      if i.None? || !Settles(attempts[i.value].invocation, delivery) {
        return Refused;
      }
      var attempt := attempts[i.value].(invocation := delivery);
      ghost var plain := memory.plain[i.value].(invocation := delivery);
      FilteredAgain(digest, plain, memory.under, erased);
      OneAdvances(i.value, attempt, plain);
      Persist(attempts[i.value := attempt], memory.plain[i.value := plain], persists);
      r := if persists then Accepted(attempt) else Refused;
    }

    /** The first outcome stays; the same one again is accepted, before and after anything in it is erased. */
    method Finish(id: string, caller: string, report: Json, now: string, persists: bool) returns (r: Answer)
      requires Valid()
      modifies this`attempts, this`disk, this`memory, this`file, this`trail
      ensures Valid() && memory.under == erased
      ensures var i := Owned(old(memory).plain, id, caller);
              var prior := if i.Some? then old(memory).plain[i.value].outcome else None;
              var goes := i.Some? && Agrees(digest, old(memory).plain[i.value], report, erased);
              && memory.plain == (if goes && prior.None?
                                  then old(memory).plain[i.value := old(memory).plain[i.value].(outcome := Some(Outcome(report, now, Sending)))]
                                  else old(memory).plain)
              && (r.Accepted? <==> goes && persists)
              && (r.Accepted? ==> Filtered(digest, r.attempt, erased) == attempts[i.value])
      ensures file == (if r.Accepted? then memory else old(file))
      ensures trail == if r.Accepted? then old(trail) + [file] else old(trail)
    {
      Refresh();
      var masked := Erasure.Redact(digest, report, erased);
      OwnedAlikeIn(digest, memory, id, caller);
      var i := Owned(attempts, id, caller);
      if i.None? { return Refused; }
      AgreesFiltered(digest, memory.plain[i.value], report, erased);
      var prior := attempts[i.value].outcome;
      if prior.Some? && prior.value.report != masked {
        return Refused;
      }
      var attempt := Reported(attempts[i.value], masked, now);
      ghost var plain := Reported(memory.plain[i.value], report, now);
      ReportAdvances(i.value, report, now);
      Persist(attempts[i.value := attempt], memory.plain[i.value := plain], persists);
      r := if persists then Accepted(attempt) else Refused;
    }

    method Delivering(id: string, caller: string, delivery: Delivery, persists: bool) returns (r: Answer)
      requires Valid() && !delivery.Sending?
      modifies this`attempts, this`disk, this`memory, this`file, this`trail
      ensures Valid()
      ensures var i := Owned(old(memory).plain, id, caller);
              var prior := if i.Some? then old(memory).plain[i.value].outcome else None;
              var goes := prior.Some? && prior.value.delivery in {Sending, delivery};
              && (!goes ==> memory == old(memory))
              && (goes ==>
                    && memory.under == erased
                    && memory.plain == old(memory).plain[i.value := old(memory).plain[i.value].(
                                         outcome := Some(prior.value.(delivery := delivery)))])
              && (r.Accepted? <==> goes && persists)
              && (r.Accepted? ==> old(attempts)[i.value].outcome.Some? && r.attempt == old(attempts)[i.value].(
                                    outcome := Some(old(attempts)[i.value].outcome.value.(delivery := delivery))))
      ensures file == (if r.Accepted? then memory else old(file))
      ensures trail == if r.Accepted? then old(trail) + [file] else old(trail)
    {
      OwnedAlikeIn(digest, memory, id, caller);
      var i := Owned(attempts, id, caller);
      if i.None? { return Refused; }
      var outcome := attempts[i.value].outcome;
      if outcome.None? || !Settles(outcome.value.delivery, delivery) {
        return Refused;
      }
      var attempt := Delivers(attempts[i.value], delivery);
      ghost var plain := Delivers(memory.plain[i.value], delivery);
      FilteredAgain(digest, plain, memory.under, erased);
      OneAdvances(i.value, attempt, plain);
      Persist(attempts[i.value := attempt], memory.plain[i.value := plain], persists);
      r := if persists then Accepted(attempt) else Refused;
    }

    static function Delivers(a: Attempt, delivery: Delivery): Attempt {
      match a.outcome
      case None => a
      case Some(o) => a.(outcome := Some(o.(delivery := delivery)))
    }

    lemma FileRecovered()
      requires Valid()
      ensures AllRecovered(disk) == Shown(digest, State(AllRecovered(file.plain), file.under))
      ensures Unique(AllRecovered(file.plain))
      ensures (AnySends(disk) <==> AnySends(file.plain)) && AllQuiet(file.plain, AllRecovered(file.plain))
      ensures forall i :: 0 <= i < |file.plain| ==> !AllRecovered(file.plain)[i].erased
    {
      RecoveredAlike(digest, file);
      SendsAlike(digest, file);
      RecoveredStaysUnique(file.plain, memory.plain);
    }

    /** A new process reads the file; what was being sent when the old one ended is uncertain. */
    method Reopen(persists: bool)
      requires Valid()
      modifies this`attempts, this`disk, this`memory, this`file, this`trail
      ensures Valid() && AllQuiet(old(file).plain, memory.plain)
      ensures memory.under == if AnySends(old(file).plain) then erased else old(file).under
      ensures file == if persists && AnySends(old(file).plain) then memory else old(file)
      ensures trail == if persists && AnySends(old(file).plain) then old(trail) + [file] else old(trail)
    {
      var recovered, found := RecoverAll(disk);
      FileRecovered();
      attempts, memory := recovered, State(AllRecovered(file.plain), file.under);
      if found {
        ShownAgain(digest, memory, erased);
        Persist(attempts, memory.plain, persists);
      } else {
        NothingRecovered(file.plain);
      }
    }

    /** Another process registers resources, and rewrites the file unless it dies before. */
    method Erase(resources: seq<Erasure.Resource>, rewrites: bool)
      requires Valid() && forall i :: 0 <= i < |resources| ==> resources[i].kind in {"task", "room", "agent"}
      modifies this`erased, this`disk, this`file, this`trail
      ensures Valid() && erased == old(erased) + Erasure.Refs(resources)
      ensures file == if rewrites then State(old(file).plain, erased) else old(file)
      ensures trail == if rewrites then old(trail) + [file] else old(trail)
    {
      Erasure.RefsAreRegistered(resources);
      erased := erased + Erasure.Refs(resources);
      if rewrites {
        ShownAgain(digest, file, erased);
        disk := FilterAll(digest, disk, erased);
        Extend(State(file.plain, erased));
      }
    }

    predicate Possible(op: Op)
      reads this
    {
      match op
      case BeginOp(_, _, _, id, _) => forall k :: 0 <= k < |attempts| ==> attempts[k].id != id
      case InvocationOp(_, _, delivery, _) => !delivery.Sending?
      case OutcomeOp(_, _, delivery, _) => !delivery.Sending?
      case EraseOp(resources, _) => forall i :: 0 <= i < |resources| ==> resources[i].kind in {"task", "room", "agent"}
      case _ => true
    }

    method Step(op: Op)
      requires Valid() && Possible(op)
      modifies this
      ensures Valid() && old(trail) <= trail && old(erased) <= erased
    {
      match op
      case BeginOp(requestId, caller, argv, id, persists) => var _ := Begin(requestId, caller, argv, id, persists);
      case InvocationOp(id, caller, delivery, persists) => var _ := Invocation(id, caller, delivery, persists);
      case FinishOp(id, caller, report, now, persists) => var _ := Finish(id, caller, report, now, persists);
      case OutcomeOp(id, caller, delivery, persists) => var _ := Delivering(id, caller, delivery, persists);
      case Restart(persists) => Reopen(persists);
      case EraseOp(resources, rewrites) => Erase(resources, rewrites);
    }

    /** Whatever is asked, by whom, with failing writes, restarts and erasures: the file never goes back. */
    method Drive(ops: seq<Op>)
      requires Valid()
      modifies this
      ensures Valid() && old(trail) <= trail && Later(old(file), file) && old(erased) <= erased
    {
      ghost var was, from := trail, file;
      for n := 0 to |ops|
        invariant Valid() && was <= trail && old(erased) <= erased
      {
        if Possible(ops[n]) {
          Step(ops[n]);
        }
      }
      assert trail[|was| - 1] == from;
      if |was| == |trail| {
        ForwardItself(file.plain);
      }
    }
  }

  lemma ForwardItself(attempts: seq<Attempt>)
    ensures Forward(attempts, attempts)
  {}

  /** What the file once said of an attempt, as far as it was settled, it says ever after, less what is erased since. */
  lemma SettledStays(digest: Digest, s: State, t: State, i: nat)
    requires Later(s, t) && i < |s.plain| && !s.plain[i].erased && Erasure.Registry(t.under)
    ensures i < |t.plain|
    ensures var a, b := Shown(digest, s)[i], Shown(digest, t)[i];
            && b.id == a.id && b.requestId == a.requestId && b.caller == a.caller
            && (b.argv == a.argv || (!a.erased && b.erased && b.argv == ErasedArgs(digest, a.argv)))
            && (a.erased ==> b.erased && b.argv == a.argv)
            && (!a.invocation.Sending? ==> b.invocation == a.invocation)
            && (a.outcome.Some? ==>
                  && b.outcome.Some? && b.outcome.value.completedAt == a.outcome.value.completedAt
                  && b.outcome.value.report == Erasure.Redact(digest, a.outcome.value.report, t.under)
                  && (!a.outcome.value.delivery.Sending? ==> b.outcome.value.delivery == a.outcome.value.delivery))
  {
    var p, q := s.plain[i], t.plain[i];
    assert Advances(p, q);
    FilteredAgain(digest, p, s.under, t.under);
    if p.outcome.Some? {
      Erasure.OwnershipJoins(map["outcome" := p.outcome.value.report], s.under, t.under);
      assert s.under + t.under == t.under;
    }
  }
}
