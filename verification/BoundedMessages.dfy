/**
 * Lifecycle messages that must fit a bound on code points and one on UTF-8 bytes: details are
 * dropped from the end, in favour of a marker, until the message fits.
 */
module BoundedMessages {
  import opened Options

  const MAX_CODE_POINTS: nat := 3_500
  const MAX_BYTES: nat := 12_000

  datatype Field = Field(name: string, value: string)

  /** Length of the UTF-8 encoding (section 3 of RFC 3629). */
  function Bytes(c: char): nat {
    if (c as int) < 0x80 then 1 else if (c as int) < 0x800 then 2 else if (c as int) < 0x10000 then 3 else 4
  }

  function ByteLength(s: string): nat {
    if s == "" then 0 else Bytes(s[0]) + ByteLength(s[1..])
  }

  predicate Fits(s: string) {
    |s| <= MAX_CODE_POINTS && ByteLength(s) <= MAX_BYTES
  }

  /** The bounds, as they are said in prose: 3,500 code points and 12,000 bytes. */
  predicate Within(s: string) {
    |s| <= 3500 && ByteLength(s) <= 12000
  }

  /** As few bytes as can carry the code point: they carry 7, 11, 16 and 21 bits. */
  lemma FewestBytes(c: char)
    ensures 1 <= Bytes(c) <= 4 && c as int < [128, 2048, 65536, 2097152][Bytes(c) - 1]
    ensures Bytes(c) > 1 ==> c as int >= [128, 2048, 65536, 2097152][Bytes(c) - 2]
  {}

  function Line(f: Field): string {
    "\n- **" + f.name + ":** " + f.value
  }

  function Lines(fields: seq<Field>): string {
    if fields == [] then "" else Line(fields[0]) + Lines(fields[1..])
  }

  function Render(headline: string, fields: seq<Field>, action: string): string {
    headline + Lines(fields) + (if action == "" then "" else "\n\n" + action)
  }

  function Flatten(groups: seq<seq<Field>>): seq<Field> {
    if groups == [] then [] else groups[0] + Flatten(groups[1..])
  }

  /** Everything mandatory, the first `k` groups, and the marker in place of the rest. */
  function Cut(headline: string, prefix: seq<Field>, groups: seq<seq<Field>>, marker: Field, suffix: seq<Field>,
               action: string, k: nat): string
    requires k <= |groups|
  {
    Render(headline, prefix + Flatten(groups[..k]) + [marker] + suffix, action)
  }

  function Whole(headline: string, prefix: seq<Field>, groups: seq<seq<Field>>, suffix: seq<Field>, action: string): string {
    Render(headline, prefix + Flatten(groups) + suffix, action)
  }

  /** What is shown: optional values that are there, and groups with something in them. */
  datatype Draft = Draft(name: string, value: Option<string>)

  function Visible(drafts: seq<Draft>): seq<Field> {
    if drafts == [] then []
    else match drafts[0].value
         case None => Visible(drafts[1..])
         case Some(value) => [Field(drafts[0].name, value)] + Visible(drafts[1..])
  }

  function VisibleGroups(groups: seq<seq<Draft>>): seq<seq<Field>> {
    if groups == [] then []
    else if Visible(groups[0]) == [] then VisibleGroups(groups[1..])
    else [Visible(groups[0])] + VisibleGroups(groups[1..])
  }

  function AllDrafts(groups: seq<seq<Draft>>): seq<Draft> {
    if groups == [] then [] else groups[0] + AllDrafts(groups[1..])
  }

  /** What is visible goes draft by draft: those with a value, in order. */
  lemma {:induction false} VisibleGoesOn(a: seq<Draft>, b: seq<Draft>)
    ensures Visible(a + b) == Visible(a) + Visible(b)
    ensures |a| == 1 ==> Visible(a) == if a[0].value.Some? then [Field(a[0].name, a[0].value.value)] else []
  {
    if a == [] {
      assert a + b == b;
    } else {
      VisibleGoesOn(a[1..], b);
      assert (a + b)[0] == a[0] && (a + b)[1..] == a[1..] + b;
    }
  }

  /** The groups show all that is visible, in order, and none of them is empty. */
  lemma {:induction false} GroupsShowAll(groups: seq<seq<Draft>>)
    ensures Flatten(VisibleGroups(groups)) == Visible(AllDrafts(groups))
    ensures forall k :: 0 <= k < |VisibleGroups(groups)| ==>
              VisibleGroups(groups)[k] != [] && exists g :: g in groups && VisibleGroups(groups)[k] == Visible(g)
  {
    if groups != [] {
      GroupsShowAll(groups[1..]);
      VisibleGoesOn(groups[0], AllDrafts(groups[1..]));
      var rest, all := VisibleGroups(groups[1..]), VisibleGroups(groups);
      if Visible(groups[0]) != [] {
        assert all[1..] == rest;
      }
      forall k | 0 <= k < |all| ensures all[k] != [] && exists g :: g in groups && all[k] == Visible(g) {
        if Visible(groups[0]) != [] && k == 0 {
          assert groups[0] in groups && all[k] == Visible(groups[0]);
        } else {
          var i := if Visible(groups[0]) != [] then k - 1 else k;
          var g :| g in groups[1..] && rest[i] == Visible(g);
          assert g in groups && all[k] == Visible(g);
        }
      }
    }
  }

  /** A message line by line: the headline, a bullet for each field in order, and the action after a blank line. */
  lemma RendersLineByLine(headline: string, fields: seq<Field>, last: Field, action: string)
    ensures Render(headline, [], "") == headline
    ensures Render(headline, fields + [last], "") == Render(headline, fields, "") + ("\n- **" + last.name + ":** " + last.value)
    ensures action != "" ==> Render(headline, fields, action) == Render(headline, fields, "") + "\n\n" + action
  {
    LinesOfSum(fields, [last]);
    assert Lines([last]) == Line(last) + Lines([]) by { assert [last][1..] == []; }
    assert headline + "" + "" == headline;
    Assoc(headline, Lines(fields), Line(last));
    assert headline + Lines(fields) + "" == headline + Lines(fields);
    assert headline + Lines(fields + [last]) + "" == headline + Lines(fields + [last]);
    assert action != "" ==> headline + Lines(fields) + ("\n\n" + action) == (headline + Lines(fields)) + "\n\n" + action;
  }

  function Singles(fields: seq<Field>): seq<seq<Field>> {
    seq(|fields|, i requires 0 <= i < |fields| => [fields[i]])
  }

  const OMITTED := Field("Details omitted", "Additional lifecycle details")
  const OMITTED_OPTIONAL := Field("Details omitted", "Additional optional Agent configuration")

  /**
   * The whole message if it fits; else everything mandatory and the most groups that still fit
   * with the marker, and at least one left out; and failure only if not even the marker fits.
   */
  ghost predicate Best(headline: string, prefix: seq<Field>, groups: seq<seq<Field>>, marker: Field, suffix: seq<Field>,
                       action: string, r: Option<string>) {
    var whole := Whole(headline, prefix, groups, suffix, action);
    if Within(whole) then r == Some(whole)
    else match r
      case None => !Within(Cut(headline, prefix, groups, marker, suffix, action, 0))
      case Some(message) =>
        && Within(message)
        && (exists k :: 0 <= k < |groups| && message == Cut(headline, prefix, groups, marker, suffix, action, k)
              && (forall j :: k < j <= |groups| ==> !Within(Cut(headline, prefix, groups, marker, suffix, action, j))))
  }

  // ---- lengths add up -----------------------------------------------------------------------

  lemma {:induction false} ByteLengthOfSum(a: string, b: string)
    ensures ByteLength(a + b) == ByteLength(a) + ByteLength(b)
  {
    if a == "" {
      assert a + b == b;
    } else {
      ByteLengthOfSum(a[1..], b);
      assert (a + b)[1..] == a[1..] + b;
    }
  }

  lemma Assoc(a: string, b: string, c: string)
    ensures a + (b + c) == (a + b) + c
  {}

  lemma {:induction false} LinesOfSum(a: seq<Field>, b: seq<Field>)
    ensures Lines(a + b) == Lines(a) + Lines(b)
  {
    if a == [] {
      assert a + b == b;
    } else {
      LinesOfSum(a[1..], b);
      assert (a + b)[1..] == a[1..] + b;
      Assoc(Line(a[0]), Lines(a[1..]), Lines(b));
    }
  }

  /** One text is longer than the other in both measures, or as long. */
  predicate Longer(a: string, b: string) {
    |a| >= |b| && ByteLength(a) >= ByteLength(b)
  }

  /** Leaving fields out makes a message no longer. */
  lemma FewerFieldsAreShorter(headline: string, a: seq<Field>, extra: seq<Field>, b: seq<Field>, action: string)
    ensures Longer(Render(headline, a + extra + b, action), Render(headline, a + b, action))
    ensures extra != [] ==> |Render(headline, a + extra + b, action)| > |Render(headline, a + b, action)|
  {
    LinesOfSum(a + extra, b);
    LinesOfSum(a, extra);
    LinesOfSum(a, b);
    var end := if action == "" then "" else "\n\n" + action;
    Measures(headline, Lines(a), Lines(extra), Lines(b), end);
    if extra != [] {
      assert |Line(extra[0])| > 0;
    }
  }

  lemma Measures(h: string, a: string, x: string, b: string, e: string)
    ensures ByteLength(h + (a + x + b) + e) == ByteLength(h + (a + b) + e) + ByteLength(x)
  {
    ByteLengthOfSum(h + (a + x + b), e);
    ByteLengthOfSum(h, a + x + b);
    ByteLengthOfSum(a + x, b);
    ByteLengthOfSum(a, x);
    ByteLengthOfSum(h + (a + b), e);
    ByteLengthOfSum(h, a + b);
    ByteLengthOfSum(a, b);
  }

  lemma {:induction false} FlattenOneMore(groups: seq<seq<Field>>, k: nat)
    requires k < |groups|
    ensures Flatten(groups[..k + 1]) == Flatten(groups[..k]) + groups[k]
  {
    if k == 0 {
      assert groups[..1] == [groups[0]];
    } else {
      FlattenOneMore(groups[1..], k - 1);
      assert groups[..k + 1][1..] == groups[1..][..k] && groups[..k][1..] == groups[1..][..k - 1];
    }
  }

  /** A longer cut is no shorter, so the first that does not fit is the last that needs trying. */
  lemma {:induction false} LongerCuts(headline: string, prefix: seq<Field>, groups: seq<seq<Field>>, marker: Field,
                                      suffix: seq<Field>, action: string, j: nat, k: nat)
    requires j <= k <= |groups|
    ensures Fits(Cut(headline, prefix, groups, marker, suffix, action, k)) ==>
              Fits(Cut(headline, prefix, groups, marker, suffix, action, j))
    decreases k
  {
    if j < k {
      LongerCuts(headline, prefix, groups, marker, suffix, action, j, k - 1);
      FlattenOneMore(groups, k - 1);
      var shown := prefix + Flatten(groups[..k - 1]);
      FewerFieldsAreShorter(headline, shown, groups[k - 1], [marker] + suffix, action);
      Regroup(prefix, Flatten(groups[..k - 1]), groups[k - 1], [marker], suffix);
    }
  }

  lemma Regroup(p: seq<Field>, f: seq<Field>, g: seq<Field>, m: seq<Field>, s: seq<Field>)
    ensures p + (f + g) + m + s == (p + f) + g + (m + s)
    ensures p + f + m + s == (p + f) + (m + s)
  {}

  /** The marker costs something, so when the whole does not fit, neither does all of it with a marker. */
  lemma MarkerIsNoHelp(headline: string, prefix: seq<Field>, groups: seq<seq<Field>>, marker: Field, suffix: seq<Field>,
                       action: string)
    requires !Fits(Whole(headline, prefix, groups, suffix, action))
    ensures !Fits(Cut(headline, prefix, groups, marker, suffix, action, |groups|))
  {
    assert groups[..|groups|] == groups;
    FewerFieldsAreShorter(headline, prefix + Flatten(groups), [marker], suffix, action);
  }

  method Fill(headline: string, prefix: seq<Field>, groups: seq<seq<Field>>, marker: Field, suffix: seq<Field>,
              action: string) returns (r: Option<string>)
    ensures Best(headline, prefix, groups, marker, suffix, action, r)
  {
    var complete := Whole(headline, prefix, groups, suffix, action);
    if Fits(complete) {
      return Some(complete);
    }
    MarkerIsNoHelp(headline, prefix, groups, marker, suffix, action);
    var included: seq<Field> := [];
    var k := 0;
    while k < |groups|
      invariant 0 <= k <= |groups| && included == Flatten(groups[..k])
      invariant k > 0 ==> Fits(Cut(headline, prefix, groups, marker, suffix, action, k))
    {
      FlattenOneMore(groups, k);
      if !Fits(Render(headline, prefix + (included + groups[k]) + [marker] + suffix, action)) {
        break;
      }
      included := included + groups[k];
      k := k + 1;
    }
    if k < |groups| {
      forall j | k < j <= |groups| ensures !Fits(Cut(headline, prefix, groups, marker, suffix, action, j)) {
        LongerCuts(headline, prefix, groups, marker, suffix, action, k + 1, j);
      }
    }
    var bounded := Render(headline, prefix + included + [marker] + suffix, action);
    r := if Fits(bounded) then Some(bounded) else None;
  }

  method StructuredMessage(headline: string, fields: seq<Draft>, action: string) returns (r: Option<string>)
    ensures Best(headline, [], Singles(Visible(fields)), Field("Details omitted", "Additional lifecycle details"), [], action, r)
    ensures r.Some? ==> |r.value| <= 3500 && ByteLength(r.value) <= 12000
  {
    r := Fill(headline, [], Singles(Visible(fields)), OMITTED, [], action);
  }

  method BoundedAgentMessage(headline: string, prefix: seq<Draft>, optional: seq<seq<Draft>>, suffix: seq<Draft>,
                             action: string) returns (r: Option<string>)
    ensures Best(headline, Visible(prefix), VisibleGroups(optional),
                 Field("Details omitted", "Additional optional Agent configuration"), Visible(suffix), action, r)
    ensures r.Some? ==> |r.value| <= 3500 && ByteLength(r.value) <= 12000
  {
    r := Fill(headline, Visible(prefix), VisibleGroups(optional), OMITTED_OPTIONAL, Visible(suffix), action);
  }
}
