/**
 * Falling back along a role's chain of models: after three pieces of qualifying evidence against
 * the model in effect the next one takes over, and after the last one the role is held down.
 * The ledger lives in a file; one that is missing, unreadable or of another chain counts as none.
 */
module ModelRecovery {
  import opened Options

  datatype FailureClass =
    | EntitlementOrQuota | TransientRateLimit | Overload | Authentication | Policy | UnknownApiError

  datatype Confidence = Low | Medium | High

  datatype Evidence = Evidence(failure: FailureClass, model: Option<string>, confidence: Confidence)

  /** `chain` stands for its fingerprint. */
  datatype Ledger = Ledger(chain: seq<string>, declared: string, effective: string, index: nat, count: nat, heldDown: bool)

  datatype Action = Nothing | Advance(from: string, to: string) | Hold(model: string)

  const THRESHOLD: nat := 3

  predicate Readable(ledger: Ledger, chain: seq<string>) {
    ledger.chain == chain && ledger.index < |chain| && chain[ledger.index] == ledger.effective
  }

  /** Evidence that counts: high confidence, of the one class, and not about another model. */
  predicate Qualifies(ledger: Ledger, e: Evidence) {
    && !ledger.heldDown && e.failure.EntitlementOrQuota? && e.confidence.High?
    && (e.model.None? || e.model.value == ledger.effective)
  }

  // ---- the closed form -----------------------------------------------------------------------

  /** The ledger after `q` qualifying pieces of evidence. */
  function ClosedForm(chain: seq<string>, q: nat): Ledger
    requires chain != []
  {
    var held := q >= 3 * |chain|;
    var index := if held then |chain| - 1 else q / 3;
    Ledger(chain, chain[0], chain[index], index, if held then 3 else q % 3, held)
  }

  class Recovery {
    var file: Option<Ledger>

    /** Keeps a ledger of this chain, and starts one otherwise. */
    method Reconcile(chain: seq<string>) returns (ledger: Ledger)
      requires chain != []
      modifies this
      ensures file == Some(ledger) && Readable(ledger, chain)
      ensures if old(file).Some? && old(file).value.chain == chain && old(file).value.index < |chain|
                 && chain[old(file).value.index] == old(file).value.effective
              then ledger == old(file).value
              else ledger == Ledger(chain, chain[0], chain[0], 0, 0, false)
    {
      if file.Some? && Readable(file.value, chain) {
        return file.value;
      }
      ledger := Ledger(chain, chain[0], chain[0], 0, 0, false);
      file := Some(ledger);
    }

    /** One piece of evidence moves the count on exactly when it qualifies against the model in effect. */
    method RecordModelFailure(chain: seq<string>, e: Evidence, ghost q: nat) returns (action: Action, ghost q': nat)
      requires chain != []
      requires file.Some? && Readable(file.value, chain) ==> file.value == ClosedForm(chain, q)
      requires !(file.Some? && Readable(file.value, chain)) ==> q == 0
      modifies this
      ensures q' == if q < 3 * |chain| && e.failure == EntitlementOrQuota && e.confidence == High
                       && (e.model.Some? ==> e.model.value == chain[q / 3])
                    then q + 1 else q
      ensures file == Some(ClosedForm(chain, q'))
      ensures action == if q' == q || q' % 3 != 0 then Nothing
                        else if q' == 3 * |chain| then Hold(chain[|chain| - 1])
                        else Advance(chain[q' / 3 - 1], chain[q' / 3])
    {
      var ledger := Reconcile(chain);
      q' := q;
      if !Qualifies(ledger, e) {
        return Nothing, q';
      }
      q' := q + 1;
      var next := ledger.(count := ledger.count + 1);
      if next.count < THRESHOLD {
        file := Some(next);
        action := Nothing;
      } else if next.index + 1 >= |chain| {
        file := Some(next.(heldDown := true));
        action := Hold(next.effective);
      } else {
        file := Some(next.(index := next.index + 1, effective := chain[next.index + 1], count := 0));
        action := Advance(ledger.effective, chain[next.index + 1]);
      }
    }

    /**
     * Any run of evidence, from no ledger: the stored ledger is the closed form of the number of
     * pieces that qualified when they came in, and no more than three a model ever qualify.
     */
    method Drive(chain: seq<string>, evidence: seq<Evidence>) returns (ghost q: nat)
      requires chain != [] && !(file.Some? && Readable(file.value, chain))
      modifies this
      ensures evidence != [] ==> file == Some(ClosedForm(chain, q))
      ensures q == Counted(chain, evidence) <= 3 * |chain|
    {
      q := 0;
      for n := 0 to |evidence|
        invariant n > 0 ==> file == Some(ClosedForm(chain, q))
        invariant n == 0 ==> file == old(file)
        invariant q == Counted(chain, evidence[..n])
      {
        assert evidence[..n + 1][..n] == evidence[..n];
        var _, q' := RecordModelFailure(chain, evidence[n], q);
        q := q';
      }
      assert evidence[..|evidence|] == evidence;
      CountIsBounded(chain, evidence);
    }
  }

  /** How many pieces qualify, each judged against the model in effect when it came in. */
  function Counted(chain: seq<string>, evidence: seq<Evidence>): nat
    requires chain != []
  {
    if evidence == [] then 0
    else
      var q, e := Counted(chain, evidence[..|evidence| - 1]), evidence[|evidence| - 1];
      if q < 3 * |chain| && e.failure == EntitlementOrQuota && e.confidence == High
         && (e.model.Some? ==> e.model.value == chain[q / 3])
      then q + 1 else q
  }

  lemma {:induction false} CountIsBounded(chain: seq<string>, evidence: seq<Evidence>)
    requires chain != []
    ensures Counted(chain, evidence) <= 3 * |chain|
  {
    if evidence != [] {
      CountIsBounded(chain, evidence[..|evidence| - 1]);
    }
  }
}
