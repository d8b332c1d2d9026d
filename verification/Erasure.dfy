/**
 * `redact`: removes owned presentation content from a ledger and keeps its delivery and
 * deduplication metadata.  Kept fields are rewritten recursively; the values it puts in are
 * flat (atoms and arrays of atoms), on which the recursion is the identity.
 *
 * Where the original would throw or turn an object into text (an id that is not a string,
 * say), nothing matches here; ledgers never have that shape.
 */
module Erasure {
  import opened Json
  import opened Options

  /** What `redact` may do to a field, by its name; everything it decides by is Metadata. */
  datatype Slot =
    | RoomLabel | Label | Agents | Participants | Name | Badge | Inherited | Arguments | Mark | Metadata

  const REPLACEABLE: set<string> :=
    {"agents", "participants", "name", "brain", "role", "inherited", "argv", "erased"}

  function SlotOf(key: string): (slot: Slot)
    ensures slot.Metadata? || slot.Label? || slot.RoomLabel? || key in REPLACEABLE
  {
    if key == "roomName" then RoomLabel
    else if key in {"title", "reason", "label", "template", "configuration", "model", "permissions"} then Label
    else if key == "agents" then Agents
    else if key == "participants" then Participants
    else if key == "name" then Name
    else if key in {"brain", "role"} then Badge
    else if key == "inherited" then Inherited
    else if key == "argv" then Arguments
    else if key == "erased" then Mark
    else Metadata
  }

  function TextAt(m: map<string, Json>, key: string): Option<string> {
    if key in m && m[key].Str? then Some(m[key].s) else None
  }

  function LowerChar(c: char): char {
    if 'A' <= c <= 'Z' then (c as int - 'A' as int + 'a' as int) as char else c
  }

  function Lower(s: string): string {
    seq(|s|, i requires 0 <= i < |s| => LowerChar(s[i]))
  }

  function OrUndefined(s: Option<string>): string {
    if s.Some? then s.value else "undefined"
  }

  function Kind(m: map<string, Json>): string {
    var kind := TextAt(m, "kind");
    if kind == Some("lifecycle_failure") then
      var resource := TextAt(m, "resource");
      if resource.Some? then Lower(resource.value) else "undefined"
    else if kind == Some("agent_started") then "agent"
    else OrUndefined(kind)
  }

  function Ref(kind: string, id: string): string { kind + ":" + id }

  predicate NamesErased(m: map<string, Json>, erased: set<string>) {
    TextAt(m, "id").Some? && Ref(Kind(m), TextAt(m, "id").value) in erased
  }

  predicate InErasedRoom(m: map<string, Json>, erased: set<string>) {
    TextAt(m, "roomId").Some? && Ref("room", TextAt(m, "roomId").value) in erased
  }

  function FieldsAt(m: map<string, Json>, key: string): map<string, Json> {
    if key in m && m[key].Obj? then m[key].fields else map[]
  }

  predicate Ties(resources: map<string, Json>, key: string, erased: set<string>) {
    key in resources && resources[key].Str? && Ref(key, resources[key].s) in erased
  }

  predicate ResourcesErased(outcome: map<string, Json>, erased: set<string>) {
    var resources := FieldsAt(outcome, "resourceIds");
    exists key :: key in resources && Ties(resources, key, erased)
  }

  predicate PresentationErased(p: Json, erased: set<string>) {
    p.Obj? &&
    var kind := if TextAt(p.fields, "kind") == Some("agent_started") then "agent" else OrUndefined(TextAt(p.fields, "kind"));
    Ref(kind, OrUndefined(TextAt(p.fields, "id"))) in erased
  }

  predicate PresentationsErased(outcome: map<string, Json>, erased: set<string>) {
    && "presentations" in outcome && outcome["presentations"].Arr?
    && exists i :: 0 <= i < |outcome["presentations"].items| && PresentationErased(outcome["presentations"].items[i], erased)
  }

  /** The recorded outcome of an attempt is about an erased resource. */
  predicate OwnsErased(m: map<string, Json>, erased: set<string>) {
    var outcome := FieldsAt(m, "outcome");
    ResourcesErased(outcome, erased) || PresentationsErased(outcome, erased)
  }

  predicate Truthy(v: Json) {
    match v
    case Null => false
    case Bool(b) => b
    case Num(n) => n != 0
    case Str(s) => s != ""
    case _ => true
  }

  predicate HidesArguments(m: map<string, Json>, erased: set<string>) {
    OwnsErased(m, erased) && "argv" in m && m["argv"].Arr? && !("erased" in m && Truthy(m["erased"]))
  }

  function HiddenArgument(digest: string -> string, v: Json): Json {
    if v.Str? then Str("[erased:" + digest(v.s) + "]") else Str("[erased]")
  }

  function HiddenArguments(digest: string -> string, items: seq<Json>): Json {
    Arr(seq(|items|, i requires 0 <= i < |items| => HiddenArgument(digest, items[i])))
  }

  function Hidden(digest: string -> string, m: map<string, Json>, erased: set<string>): Option<Json> {
    if HidesArguments(m, erased) then Some(HiddenArguments(digest, m["argv"].items)) else None
  }

  /** All that an object's own metadata says about it under a registry. */
  datatype Verdict = Verdict(kind: string, named: bool, inRoom: bool, hidden: Option<Json>)

  function Judge(digest: string -> string, m: map<string, Json>, erased: set<string>): Verdict {
    Verdict(Kind(m), NamesErased(m, erased), InErasedRoom(m, erased), Hidden(digest, m, erased))
  }

  /** What is put into a slot, if anything is. */
  function Put(slot: Slot, v: Verdict): Option<Json> {
    match slot
    case Agents => if v.kind == "task" && (v.named || v.inRoom) then Some(Arr([])) else None
    case Participants => if v.kind == "room" && v.named then Some(Arr([])) else None
    case Name => if v.kind == "agent" && v.named then Some(Str("erased")) else None
    case Badge => if v.kind == "agent" && v.named then Some(Str("[erased]")) else None
    case Inherited => if v.kind == "agent" && v.named then Some(Arr([])) else None
    case Arguments => v.hidden
    case Mark => if v.hidden.Some? then Some(Bool(true)) else None
    case _ => None
  }

  predicate Drops(slot: Slot, v: Verdict) {
    match slot
    case RoomLabel => v.named || v.inRoom
    case Label => v.named
    case Name => v.named && v.kind == "room"
    case _ => false
  }

  predicate Keeps(m: map<string, Json>, v: Verdict, key: string) {
    Put(SlotOf(key), v).Some? || (key in m && !Drops(SlotOf(key), v))
  }

  function Redact(digest: string -> string, j: Json, erased: set<string>): Json {
    match j
    case Arr(items) => Arr(seq(|items|, i requires 0 <= i < |items| => Redact(digest, items[i], erased)))
    case Obj(m) =>
      var v := Judge(digest, m, erased);
      Obj(map key | key in m.Keys + REPLACEABLE && Keeps(m, v, key)
                 :: if Put(SlotOf(key), v).Some? then Put(SlotOf(key), v).value else Redact(digest, m[key], erased))
    case _ => j
  }

  // ---- registries --------------------------------------------------------------------

  /** Every entry names a task, a room or an agent, as `eraseResourcePresentations` writes them. */
  ghost predicate Registry(erased: set<string>) {
    forall r :: r in erased ==> exists kind, id :: kind in {"task", "room", "agent"} && r == Ref(kind, id)
  }

  lemma RefsAreUnambiguous(kind: string, id: string, kind': string, id': string)
    requires ':' !in kind && ':' !in kind' && Ref(kind, id) == Ref(kind', id')
    ensures kind == kind' && id == id'
  {
    var r := Ref(kind, id);
    assert r[|kind|] == ':' && r[|kind'|] == ':';
    assert forall i :: 0 <= i < |kind| ==> r[i] == kind[i];
    assert forall i :: 0 <= i < |kind'| ==> r[i] == kind'[i];
    assert |kind| == |kind'|;
    assert kind == r[..|kind|] && id == r[|kind| + 1..] && id' == r[|kind'| + 1..];
  }

  lemma EditedKeysArePlain(key: string)
    requires !SlotOf(key).Metadata?
    ensures ':' !in key && key !in {"task", "room", "agent"}
  {}

  /** A field that `redact` may rewrite is never what ties an attempt to a resource. */
  lemma EditedKeyNeverMatches(key: string, id: string, erased: set<string>)
    requires Registry(erased) && !SlotOf(key).Metadata?
    ensures Ref(key, id) !in erased
  {
    EditedKeysArePlain(key);
    if Ref(key, id) in erased {
      var kind, id' :| kind in {"task", "room", "agent"} && Ref(key, id) == Ref(kind, id');
      RefsAreUnambiguous(key, id, kind, id');
      assert false;
    }
  }

  lemma DecidingKeysAreMetadata()
    ensures SlotOf("kind").Metadata? && SlotOf("resource").Metadata? && SlotOf("id").Metadata?
    ensures SlotOf("roomId").Metadata? && SlotOf("outcome").Metadata?
    ensures SlotOf("resourceIds").Metadata? && SlotOf("presentations").Metadata?
    ensures SlotOf("argv").Arguments? && SlotOf("erased").Mark?
  {}

  // ---- one pass, field by field -------------------------------------------------------------

  /** The value of one field after a pass that judged the object `v`. */
  function FieldAfter(digest: string -> string, m: map<string, Json>, erased: set<string>, v: Verdict, key: string): Option<Json> {
    if Put(SlotOf(key), v).Some? then Put(SlotOf(key), v)
    else if key in m && !Drops(SlotOf(key), v) then Some(Redact(digest, m[key], erased))
    else None
  }

  function At(m: map<string, Json>, key: string): Option<Json> {
    if key in m then Some(m[key]) else None
  }

  /** `m'` is what one pass makes of the fields `m`. */
  ghost predicate OnePass(digest: string -> string, m: map<string, Json>, erased: set<string>, m': map<string, Json>) {
    var v := Judge(digest, m, erased);
    forall key :: At(m', key) == FieldAfter(digest, m, erased, v, key)
  }

  lemma KeptKeysAreListed(m: map<string, Json>, v: Verdict, key: string)
    requires Keeps(m, v, key)
    ensures key in m.Keys + REPLACEABLE
  {}

  lemma RedactIsOnePass(digest: string -> string, m: map<string, Json>, erased: set<string>)
    ensures Redact(digest, Obj(m), erased).Obj?
    ensures OnePass(digest, m, erased, Redact(digest, Obj(m), erased).fields)
  {
    var v := Judge(digest, m, erased);
    var m' := Redact(digest, Obj(m), erased).fields;
    forall key ensures At(m', key) == FieldAfter(digest, m, erased, v, key) {
      if Keeps(m, v, key) {
        KeptKeysAreListed(m, v, key);
      }
    }
  }

  lemma OnePassIsRedact(digest: string -> string, m: map<string, Json>, erased: set<string>, m': map<string, Json>)
    requires OnePass(digest, m, erased, m')
    ensures m' == Redact(digest, Obj(m), erased).fields
  {
    RedactIsOnePass(digest, m, erased);
    var r := Redact(digest, Obj(m), erased).fields;
    forall key ensures (key in m' <==> key in r) && (key in r ==> m'[key] == r[key]) {
      assert At(m', key) == FieldAfter(digest, m, erased, Judge(digest, m, erased), key) == At(r, key);
    }
  }

  /** A pass never changes what sort of value something is, nor a string, nor whether it is truthy. */
  lemma SortStays(digest: string -> string, v: Json, erased: set<string>)
    ensures var v' := Redact(digest, v, erased);
            && v'.Str? == v.Str? && (v.Str? ==> v' == v) && v'.Arr? == v.Arr? && v'.Obj? == v.Obj?
            && Truthy(v') == Truthy(v) && (v.Arr? ==> |v'.items| == |v.items|)
  {}

  lemma MetadataStays(digest: string -> string, m: map<string, Json>, first: set<string>, m': map<string, Json>, key: string)
    requires OnePass(digest, m, first, m') && SlotOf(key).Metadata?
    ensures At(m', key) == if key in m then Some(Redact(digest, m[key], first)) else None
    ensures TextAt(m', key) == TextAt(m, key)
  {
    assert At(m', key) == FieldAfter(digest, m, first, Judge(digest, m, first), key);
    if key in m {
      SortStays(digest, m[key], first);
    }
  }

  lemma IdentityStays(digest: string -> string, m: map<string, Json>, first: set<string>, m': map<string, Json>)
    requires OnePass(digest, m, first, m')
    ensures Kind(m') == Kind(m)
    ensures TextAt(m', "id") == TextAt(m, "id") && TextAt(m', "roomId") == TextAt(m, "roomId")
  {
    DecidingKeysAreMetadata();
    MetadataStays(digest, m, first, m', "kind");
    MetadataStays(digest, m, first, m', "resource");
    MetadataStays(digest, m, first, m', "id");
    MetadataStays(digest, m, first, m', "roomId");
  }

  lemma TieStays(digest: string -> string, r: map<string, Json>, first: set<string>, r': map<string, Json>,
                 erased: set<string>, key: string)
    requires OnePass(digest, r, first, r') && Registry(erased)
    ensures Ties(r', key, erased) == Ties(r, key, erased)
  {
    if SlotOf(key).Metadata? {
      MetadataStays(digest, r, first, r', key);
    } else {
      if TextAt(r, key).Some? { EditedKeyNeverMatches(key, TextAt(r, key).value, erased); }
      if TextAt(r', key).Some? { EditedKeyNeverMatches(key, TextAt(r', key).value, erased); }
    }
  }

  lemma PresentationStays(digest: string -> string, p: Json, first: set<string>, erased: set<string>)
    ensures PresentationErased(Redact(digest, p, first), erased) == PresentationErased(p, erased)
  {
    SortStays(digest, p, first);
    if p.Obj? {
      DecidingKeysAreMetadata();
      RedactIsOnePass(digest, p.fields, first);
      var p' := Redact(digest, p, first).fields;
      MetadataStays(digest, p.fields, first, p', "kind");
      MetadataStays(digest, p.fields, first, p', "id");
    }
  }

  lemma TiesStay(digest: string -> string, r: map<string, Json>, first: set<string>, r': map<string, Json>, erased: set<string>)
    requires OnePass(digest, r, first, r') && Registry(erased)
    ensures (exists key :: key in r' && Ties(r', key, erased)) <==> (exists key :: key in r && Ties(r, key, erased))
  {
    forall key ensures Ties(r', key, erased) == Ties(r, key, erased) {
      TieStays(digest, r, first, r', erased, key);
    }
  }

  lemma ResourcesStay(digest: string -> string, o: map<string, Json>, first: set<string>, o': map<string, Json>, erased: set<string>)
    requires OnePass(digest, o, first, o') && Registry(erased)
    ensures ResourcesErased(o', erased) == ResourcesErased(o, erased)
  {
    DecidingKeysAreMetadata();
    MetadataStays(digest, o, first, o', "resourceIds");
    if "resourceIds" in o {
      SortStays(digest, o["resourceIds"], first);
      if o["resourceIds"].Obj? {
        var r := FieldsAt(o, "resourceIds");
        RedactIsOnePass(digest, r, first);
        TiesStay(digest, r, first, FieldsAt(o', "resourceIds"), erased);
      }
    }
  }

  lemma PresentationsStay(digest: string -> string, o: map<string, Json>, first: set<string>, o': map<string, Json>, erased: set<string>)
    requires OnePass(digest, o, first, o')
    ensures PresentationsErased(o', erased) == PresentationsErased(o, erased)
  {
    DecidingKeysAreMetadata();
    MetadataStays(digest, o, first, o', "presentations");
    if "presentations" in o {
      SortStays(digest, o["presentations"], first);
      if o["presentations"].Arr? {
        var ps, ps' := o["presentations"].items, o'["presentations"].items;
        forall i | 0 <= i < |ps| ensures PresentationErased(ps'[i], erased) == PresentationErased(ps[i], erased) {
          assert ps'[i] == Redact(digest, ps[i], first);
          PresentationStays(digest, ps[i], first, erased);
        }
      }
    }
  }

  /** Whether an attempt is owned by an erased resource does not change under redaction. */
  lemma OwnershipStays(digest: string -> string, m: map<string, Json>, first: set<string>, m': map<string, Json>, erased: set<string>)
    requires OnePass(digest, m, first, m') && Registry(erased)
    ensures OwnsErased(m', erased) == OwnsErased(m, erased)
  {
    DecidingKeysAreMetadata();
    MetadataStays(digest, m, first, m', "outcome");
    var o, o' := FieldsAt(m, "outcome"), FieldsAt(m', "outcome");
    if "outcome" in m {
      SortStays(digest, m["outcome"], first);
      if m["outcome"].Obj? {
        RedactIsOnePass(digest, o, first);
        ResourcesStay(digest, o, first, o', erased);
        PresentationsStay(digest, o, first, o', erased);
      }
    }
  }

  lemma OwnershipJoins(m: map<string, Json>, e1: set<string>, e2: set<string>)
    ensures OwnsErased(m, e1 + e2) <==> OwnsErased(m, e1) || OwnsErased(m, e2)
  {
    var outcome := FieldsAt(m, "outcome");
    var r := FieldsAt(outcome, "resourceIds");
    assert forall key :: Ties(r, key, e1 + e2) <==> Ties(r, key, e1) || Ties(r, key, e2);
    assert forall p :: PresentationErased(p, e1 + e2) <==> PresentationErased(p, e1) || PresentationErased(p, e2);
  }

  /** The first pass leaves the arguments alone, or hides them and says so. */
  lemma ArgumentsStay(digest: string -> string, m: map<string, Json>, first: set<string>, m': map<string, Json>)
    requires OnePass(digest, m, first, m')
    ensures HidesArguments(m, first) ==> At(m', "erased") == Some(Bool(true))
    ensures !HidesArguments(m, first) ==>
              && At(m', "argv") == (if "argv" in m then Some(Redact(digest, m["argv"], first)) else None)
              && At(m', "erased") == (if "erased" in m then Some(Redact(digest, m["erased"], first)) else None)
  {
    DecidingKeysAreMetadata();
    var v := Judge(digest, m, first);
    assert At(m', "argv") == FieldAfter(digest, m, first, v, "argv");
    assert At(m', "erased") == FieldAfter(digest, m, first, v, "erased");
  }

  /** Arguments are hidden by two passes exactly when the joint pass hides them, and only once. */
  lemma HidingJoins(digest: string -> string, m: map<string, Json>, e1: set<string>, m': map<string, Json>, e2: set<string>)
    requires OnePass(digest, m, e1, m') && Registry(e1) && Registry(e2)
    ensures HidesArguments(m, e1 + e2) <==> HidesArguments(m, e1) || HidesArguments(m', e2)
    ensures !(HidesArguments(m, e1) && HidesArguments(m', e2))
    ensures HidesArguments(m', e2) ==> At(m', "argv") == Some(Redact(digest, m["argv"], e1))
  {
    OwnershipStays(digest, m, e1, m', e2);
    OwnershipJoins(m, e1, e2);
    ArgumentsStay(digest, m, e1, m');
    if "argv" in m { SortStays(digest, m["argv"], e1); }
    if "erased" in m { SortStays(digest, m["erased"], e1); }
  }

  // ---- composition ----------------------------------------------------------------------

  predicate Flat(j: Json) {
    !j.Obj? && (j.Arr? ==> forall i :: 0 <= i < |j.items| ==> j.items[i].Str?)
  }

  lemma FlatIsFixed(digest: string -> string, j: Json, erased: set<string>)
    requires Flat(j)
    ensures Redact(digest, j, erased) == j
  {
    if j.Arr? {
      assert forall i :: 0 <= i < |j.items| ==> Redact(digest, j.items[i], erased) == j.items[i];
    }
  }

  lemma HidingForgets(digest: string -> string, items: seq<Json>, e1: set<string>)
    ensures HiddenArguments(digest, Redact(digest, Arr(items), e1).items) == HiddenArguments(digest, items)
  {
    var items' := Redact(digest, Arr(items), e1).items;
    forall i | 0 <= i < |items| ensures HiddenArgument(digest, items'[i]) == HiddenArgument(digest, items[i]) {
      SortStays(digest, items[i], e1);
    }
  }

  function Join(v1: Verdict, v2: Verdict): Verdict {
    Verdict(v1.kind, v1.named || v2.named, v1.inRoom || v2.inRoom, if v1.hidden.Some? then v1.hidden else v2.hidden)
  }

  /** The two passes together judge what the joint pass judges, and hide arguments once. */
  lemma VerdictsJoin(digest: string -> string, m: map<string, Json>, e1: set<string>, m': map<string, Json>, e2: set<string>)
    requires OnePass(digest, m, e1, m') && Registry(e1) && Registry(e2)
    ensures var v1, v2 := Judge(digest, m, e1), Judge(digest, m', e2);
            && Judge(digest, m, e1 + e2) == Join(v1, v2)
            && v1.kind == v2.kind && !(v1.hidden.Some? && v2.hidden.Some?)
            && (v1.hidden.Some? ==> Flat(v1.hidden.value))
  {
    IdentityStays(digest, m, e1, m');
    HidingJoins(digest, m, e1, m', e2);
    if HidesArguments(m', e2) {
      HidingForgets(digest, m["argv"].items, e1);
    }
  }

  lemma SlotsJoin(slot: Slot, v1: Verdict, v2: Verdict)
    requires v1.kind == v2.kind && !(v1.hidden.Some? && v2.hidden.Some?)
    requires v1.hidden.Some? ==> Flat(v1.hidden.value)
    ensures Put(slot, Join(v1, v2)) == if Put(slot, v1).Some? then Put(slot, v1) else Put(slot, v2)
    ensures Put(slot, v1).Some? ==>
              && !Drops(slot, v2) && Flat(Put(slot, v1).value)
              && (Put(slot, v2).Some? ==> Put(slot, v1) == Put(slot, v2))
    ensures Drops(slot, Join(v1, v2)) <==> Drops(slot, v1) || Drops(slot, v2)
  {}

  lemma {:induction false} FieldsCompose(
    digest: string -> string, m: map<string, Json>, e1: set<string>, m': map<string, Json>, e2: set<string>,
    v1: Verdict, v2: Verdict, key: string)
    requires At(m', key) == FieldAfter(digest, m, e1, v1, key) && Registry(e1) && Registry(e2)
    requires v1.kind == v2.kind && !(v1.hidden.Some? && v2.hidden.Some?)
    requires v1.hidden.Some? ==> Flat(v1.hidden.value)
    ensures FieldAfter(digest, m', e2, v2, key) == FieldAfter(digest, m, e1 + e2, Join(v1, v2), key)
    decreases Obj(m), 0
  {
    var slot := SlotOf(key);
    SlotsJoin(slot, v1, v2);
    if Put(slot, v1).Some? {
      FlatIsFixed(digest, Put(slot, v1).value, e2);
    } else if key in m {
      RedactComposes(digest, m[key], e1, e2);
    }
  }

  /** Erasing in two passes, in either order, is erasing once with both registries. */
  lemma {:induction false} RedactComposes(digest: string -> string, j: Json, e1: set<string>, e2: set<string>)
    requires Registry(e1) && Registry(e2)
    ensures Redact(digest, Redact(digest, j, e1), e2) == Redact(digest, j, e1 + e2)
    decreases j, 1
  {
    match j
    case Arr(items) =>
      forall i | 0 <= i < |items|
        ensures Redact(digest, Redact(digest, items[i], e1), e2) == Redact(digest, items[i], e1 + e2)
      {
        RedactComposes(digest, items[i], e1, e2);
      }
    case Obj(m) =>
      RedactIsOnePass(digest, m, e1);
      var m' := Redact(digest, j, e1).fields;
      RedactIsOnePass(digest, m', e2);
      var m'' := Redact(digest, Obj(m'), e2).fields;
      VerdictsJoin(digest, m, e1, m', e2);
      var v1, v2 := Judge(digest, m, e1), Judge(digest, m', e2);
      forall key ensures At(m'', key) == FieldAfter(digest, m, e1 + e2, Join(v1, v2), key) {
        assert At(m', key) == FieldAfter(digest, m, e1, v1, key);
        assert At(m'', key) == FieldAfter(digest, m', e2, v2, key);
        FieldsCompose(digest, m, e1, m', e2, v1, v2, key);
      }
      OnePassIsRedact(digest, m, e1 + e2, m'');
    case _ =>
  }

  lemma RedactIsIdempotent(digest: string -> string, j: Json, erased: set<string>)
    requires Registry(erased)
    ensures Redact(digest, Redact(digest, j, erased), erased) == Redact(digest, j, erased)
  {
    RedactComposes(digest, j, erased, erased);
    assert erased + erased == erased;
  }

  // ---- fixed points -------------------------------------------------------------------------

  predicate AgentBlanked(m: map<string, Json>) {
    && At(m, "name") == Some(Str("erased")) && At(m, "inherited") == Some(Arr([]))
    && At(m, "brain") == Some(Str("[erased]")) && At(m, "role") == Some(Str("[erased]"))
  }

  predicate NoLabels(m: map<string, Json>) {
    forall key :: key in m ==> !SlotOf(key).Label? && !SlotOf(key).RoomLabel?
  }

  /** At every depth `j` is as `redact` leaves it. */
  predicate Tidy(j: Json, erased: set<string>) {
    match j
    case Arr(items) => forall i :: 0 <= i < |items| ==> Tidy(items[i], erased)
    case Obj(m) =>
      && (NamesErased(m, erased) ==>
            && NoLabels(m)
            && (Kind(m) == "room" ==> "name" !in m && At(m, "participants") == Some(Arr([])))
            && (Kind(m) == "agent" ==> AgentBlanked(m)))
      && (InErasedRoom(m, erased) ==> "roomName" !in m)
      && (NamesErased(m, erased) || InErasedRoom(m, erased) ==> Kind(m) == "task" ==> At(m, "agents") == Some(Arr([])))
      && !HidesArguments(m, erased)
      && forall key :: key in m ==> Tidy(m[key], erased)
    case _ => true
  }

  lemma SlotNames(key: string)
    ensures SlotOf(key).RoomLabel? <==> key == "roomName"
    ensures SlotOf(key).Agents? <==> key == "agents"
    ensures SlotOf(key).Participants? <==> key == "participants"
    ensures SlotOf(key).Name? <==> key == "name"
    ensures SlotOf(key).Badge? <==> key == "brain" || key == "role"
    ensures SlotOf(key).Inherited? <==> key == "inherited"
  {}

  /** Every field is where redaction would leave it. */
  ghost predicate Settled(digest: string -> string, m: map<string, Json>, erased: set<string>) {
    var v := Judge(digest, m, erased);
    && v.hidden.None?
    && forall key :: (Put(SlotOf(key), v).Some? ==> At(m, key) == Put(SlotOf(key), v))
                     && (Drops(SlotOf(key), v) ==> key !in m)
  }

  lemma FlatIsTidy(j: Json, erased: set<string>)
    requires Flat(j)
    ensures Tidy(j, erased)
  {}

  lemma {:induction false} FixedIffTidy(digest: string -> string, j: Json, erased: set<string>)
    ensures Redact(digest, j, erased) == j <==> Tidy(j, erased)
  {
    match j
    case Arr(items) =>
      forall i | 0 <= i < |items| ensures Redact(digest, items[i], erased) == items[i] <==> Tidy(items[i], erased) {
        FixedIffTidy(digest, items[i], erased);
      }
      var items' := Redact(digest, j, erased).items;
      assert items' == items <==> forall i :: 0 <= i < |items| ==> Redact(digest, items[i], erased) == items[i];
    case Obj(m) =>
      forall key | key in m ensures Redact(digest, m[key], erased) == m[key] <==> Tidy(m[key], erased) {
        FixedIffTidy(digest, m[key], erased);
      }
      FixedIffSettled(digest, m, erased);
      SettledIffTidy(digest, m, erased);
    case _ =>
  }

  predicate PartsTidy(m: map<string, Json>, erased: set<string>) {
    forall key :: key in m ==> Tidy(m[key], erased)
  }

  lemma FixedIsSettled(digest: string -> string, m: map<string, Json>, erased: set<string>)
    requires forall key :: key in m ==> (Redact(digest, m[key], erased) == m[key] <==> Tidy(m[key], erased))
    requires OnePass(digest, m, erased, m)
    ensures Settled(digest, m, erased) && PartsTidy(m, erased)
  {
    var v := Judge(digest, m, erased);
    ArgumentsStay(digest, m, erased, m);
    forall key
      ensures Put(SlotOf(key), v).Some? ==> At(m, key) == Put(SlotOf(key), v)
      ensures Drops(SlotOf(key), v) ==> key !in m
      ensures key in m ==> Tidy(m[key], erased)
    {
      FieldFixed(digest, m, erased, v, key);
    }
  }

  lemma FieldFixed(digest: string -> string, m: map<string, Json>, erased: set<string>, v: Verdict, key: string)
    requires At(m, key) == FieldAfter(digest, m, erased, v, key) && v.hidden.None?
    requires key in m ==> (Redact(digest, m[key], erased) == m[key] <==> Tidy(m[key], erased))
    ensures Put(SlotOf(key), v).Some? ==> At(m, key) == Put(SlotOf(key), v)
    ensures Drops(SlotOf(key), v) ==> key !in m
    ensures key in m ==> Tidy(m[key], erased)
  {
    if Put(SlotOf(key), v).Some? {
      PutIsFlat(SlotOf(key), v);
      FlatIsTidy(Put(SlotOf(key), v).value, erased);
    }
  }

  lemma PutIsFlat(slot: Slot, v: Verdict)
    requires v.hidden.None? && Put(slot, v).Some?
    ensures Flat(Put(slot, v).value) && !Drops(slot, v)
  {}

  lemma SettledIsFixed(digest: string -> string, m: map<string, Json>, erased: set<string>)
    requires forall key :: key in m ==> (Redact(digest, m[key], erased) == m[key] <==> Tidy(m[key], erased))
    requires Settled(digest, m, erased) && PartsTidy(m, erased)
    ensures OnePass(digest, m, erased, m)
  {}

  lemma FixedIffSettled(digest: string -> string, m: map<string, Json>, erased: set<string>)
    requires forall key :: key in m ==> (Redact(digest, m[key], erased) == m[key] <==> Tidy(m[key], erased))
    ensures Redact(digest, Obj(m), erased) == Obj(m) <==> Settled(digest, m, erased) && PartsTidy(m, erased)
  {
    if Redact(digest, Obj(m), erased) == Obj(m) {
      RedactIsOnePass(digest, m, erased);
      FixedIsSettled(digest, m, erased);
    }
    if Settled(digest, m, erased) && PartsTidy(m, erased) {
      SettledIsFixed(digest, m, erased);
      OnePassIsRedact(digest, m, erased, m);
    }
  }

  lemma ReservedSlots()
    ensures SlotOf("roomName").RoomLabel? && SlotOf("agents").Agents? && SlotOf("participants").Participants?
    ensures SlotOf("name").Name? && SlotOf("brain").Badge? && SlotOf("role").Badge? && SlotOf("inherited").Inherited?
  {}

  lemma SettledIsTidy(digest: string -> string, m: map<string, Json>, erased: set<string>)
    requires Settled(digest, m, erased) && PartsTidy(m, erased)
    ensures Tidy(Obj(m), erased)
  {
    ReservedSlots();
  }

  lemma TidyIsSettled(digest: string -> string, m: map<string, Json>, erased: set<string>)
    requires Tidy(Obj(m), erased)
    ensures Settled(digest, m, erased) && PartsTidy(m, erased)
  {
    var v := Judge(digest, m, erased);
    forall key
      ensures Put(SlotOf(key), v).Some? ==> At(m, key) == Put(SlotOf(key), v)
      ensures Drops(SlotOf(key), v) ==> key !in m
    {
      SlotNames(key);
    }
  }

  lemma SettledIffTidy(digest: string -> string, m: map<string, Json>, erased: set<string>)
    ensures Settled(digest, m, erased) && PartsTidy(m, erased) <==> Tidy(Obj(m), erased)
  {
    if Tidy(Obj(m), erased) {
      TidyIsSettled(digest, m, erased);
    } else if Settled(digest, m, erased) && PartsTidy(m, erased) {
      SettledIsTidy(digest, m, erased);
    }
  }

  // ---- what it means to be erased ----------------------------------------------------------

  predicate Says(m: map<string, Json>, key: string, value: string) {
    key in m && m[key] == Str(value)
  }

  /** `w` is `s` with its capital letters made small. */
  predicate InSmallLetters(s: string, w: string) {
    |w| == |s| && forall i :: 0 <= i < |s| ==> w[i] as int == s[i] as int + if 'A' <= s[i] <= 'Z' then 32 else 0
  }

  /** The kind of resource an object is about. */
  ghost predicate IsAbout(m: map<string, Json>, kind: string) {
    if Says(m, "kind", "agent_started") then kind == "agent"
    else if Says(m, "kind", "lifecycle_failure") then
      if "resource" in m && m["resource"].Str? then InSmallLetters(m["resource"].s, kind) else kind == "undefined"
    else if "kind" in m && m["kind"].Str? then kind == m["kind"].s
    else kind == "undefined"
  }

  /** An object about an erased resource of this kind. */
  ghost predicate IsErased(m: map<string, Json>, kind: string, erased: set<string>) {
    IsAbout(m, kind) && "id" in m && m["id"].Str? && kind + ":" + m["id"].s in erased
  }

  predicate InRoom(m: map<string, Json>, erased: set<string>) {
    "roomId" in m && m["roomId"].Str? && "room:" + m["roomId"].s in erased
  }

  /** An outcome with an erased resource among its ids. */
  predicate Touches(outcome: map<string, Json>, erased: set<string>) {
    && "resourceIds" in outcome && outcome["resourceIds"].Obj?
    && exists key :: key in outcome["resourceIds"].fields
                     && var id := outcome["resourceIds"].fields[key]; id.Str? && key + ":" + id.s in erased
  }

  /** A presentation of an erased resource. */
  predicate Shows(p: Json, erased: set<string>) {
    p.Obj? &&
    var id := if "id" in p.fields && p.fields["id"].Str? then p.fields["id"].s else "undefined";
    if Says(p.fields, "kind", "agent_started") then "agent:" + id in erased
    else if "kind" in p.fields && p.fields["kind"].Str? then p.fields["kind"].s + ":" + id in erased
    else "undefined:" + id in erased
  }

  predicate ShowsAny(outcome: map<string, Json>, erased: set<string>) {
    && "presentations" in outcome && outcome["presentations"].Arr?
    && exists i :: 0 <= i < |outcome["presentations"].items| && Shows(outcome["presentations"].items[i], erased)
  }

  /** An attempt that came to something with an erased resource. */
  predicate Owned(m: map<string, Json>, erased: set<string>) {
    "outcome" in m && m["outcome"].Obj? && (Touches(m["outcome"].fields, erased) || ShowsAny(m["outcome"].fields, erased))
  }

  /** Its arguments are there, and nothing says that they have been erased. */
  predicate TellsArguments(m: map<string, Json>, erased: set<string>) {
    && Owned(m, erased) && "argv" in m && m["argv"].Arr?
    && ("erased" !in m || m["erased"] in {Null, Bool(false), Num(0), Str("")})
  }

  const LABELS := ["title", "reason", "label", "template", "configuration", "model", "permissions"]

  /** Nothing in `j` presents an erased resource, at any depth. */
  ghost predicate Clean(j: Json, erased: set<string>) {
    match j
    case Arr(items) => forall i :: 0 <= i < |items| ==> Clean(items[i], erased)
    case Obj(m) =>
      && (forall kind :: IsErased(m, kind, erased) ==>
            && "roomName" !in m && (forall key :: key in LABELS ==> key !in m)
            && (kind == "task" ==> At(m, "agents") == Some(Arr([])))
            && (kind == "room" ==> "name" !in m && At(m, "participants") == Some(Arr([])))
            && (kind == "agent" ==>
                  && Says(m, "name", "erased") && Says(m, "brain", "[erased]") && Says(m, "role", "[erased]")
                  && At(m, "inherited") == Some(Arr([]))))
      && (InRoom(m, erased) ==> "roomName" !in m && (IsAbout(m, "task") ==> At(m, "agents") == Some(Arr([]))))
      && !TellsArguments(m, erased)
      && forall key :: key in m ==> Clean(m[key], erased)
    case _ => true
  }

  lemma SmallLetters(s: string, w: string)
    ensures InSmallLetters(s, w) <==> w == Lower(s)
  {
    if InSmallLetters(s, w) {
      forall i | 0 <= i < |s| ensures w[i] == Lower(s)[i] {
        assert w[i] as int == LowerChar(s[i]) as int;
      }
    }
  }

  /** The kind is the one `redact` computes. */
  lemma AboutIsKind(m: map<string, Json>, kind: string)
    ensures IsAbout(m, kind) <==> kind == Kind(m)
  {
    if Says(m, "kind", "lifecycle_failure") && "resource" in m && m["resource"].Str? {
      SmallLetters(m["resource"].s, kind);
    }
  }

  lemma ErasedIsNamed(m: map<string, Json>, kind: string, erased: set<string>)
    ensures IsErased(m, kind, erased) <==> kind == Kind(m) && NamesErased(m, erased)
    ensures InRoom(m, erased) <==> InErasedRoom(m, erased)
  {
    AboutIsKind(m, kind);
    assert "room" + ":" == "room:";
  }

  lemma ShownIsPresented(p: Json, erased: set<string>)
    ensures Shows(p, erased) <==> PresentationErased(p, erased)
  {
    assert "agent" + ":" == "agent:" && "undefined" + ":" == "undefined:";
  }

  lemma TouchedIsTied(outcome: map<string, Json>, erased: set<string>)
    ensures Touches(outcome, erased) <==> ResourcesErased(outcome, erased)
  {
    var r := FieldsAt(outcome, "resourceIds");
    assert forall key :: key in r && r[key].Str? ==> key + ":" + r[key].s == Ref(key, r[key].s);
    if Touches(outcome, erased) {
      var key :| key in r && var id := r[key]; id.Str? && key + ":" + id.s in erased;
      assert Ties(r, key, erased);
    }
  }

  lemma ShownAreAny(outcome: map<string, Json>, erased: set<string>)
    ensures ShowsAny(outcome, erased) <==> PresentationsErased(outcome, erased)
  {
    if "presentations" in outcome && outcome["presentations"].Arr? {
      var items := outcome["presentations"].items;
      forall i | 0 <= i < |items| ensures Shows(items[i], erased) == PresentationErased(items[i], erased) {
        ShownIsPresented(items[i], erased);
      }
    }
  }

  lemma OwnedIff(m: map<string, Json>, erased: set<string>)
    ensures Owned(m, erased) <==> OwnsErased(m, erased)
    ensures TellsArguments(m, erased) <==> HidesArguments(m, erased)
  {
    TouchedIsTied(FieldsAt(m, "outcome"), erased);
    ShownAreAny(FieldsAt(m, "outcome"), erased);
  }

  /** Each argument by its digest. */
  function ArgumentsErased(digest: string -> string, items: seq<Json>): (r: seq<Json>)
    ensures |r| == |items|
    ensures forall i :: 0 <= i < |r| && items[i].Str? ==> r[i] == Str("[erased:" + digest(items[i].s) + "]")
  {
    HiddenArguments(digest, items).items
  }

  /** What becomes of a field, by its name: `kept` is what the recursion makes of it. */
  function Passed(kind: string, gone: bool, room: bool, hidden: Option<Json>, key: string, kept: Option<Json>): Option<Json> {
    if key in LABELS then (if gone then None else kept)
    else if key == "roomName" then (if gone || room then None else kept)
    else if key == "agents" then (if kind == "task" && (gone || room) then Some(Arr([])) else kept)
    else if key == "participants" then (if kind == "room" && gone then Some(Arr([])) else kept)
    else if key == "name" && gone && kind in {"agent", "room"} then (if kind == "agent" then Some(Str("erased")) else None)
    else if key in {"brain", "role"} then (if kind == "agent" && gone then Some(Str("[erased]")) else kept)
    else if key == "inherited" then (if kind == "agent" && gone then Some(Arr([])) else kept)
    else if key == "argv" && hidden.Some? then hidden
    else if key == "erased" && hidden.Some? then Some(Bool(true))
    else kept
  }

  lemma PassedIsPut(v: Verdict, key: string, kept: Option<Json>)
    ensures Passed(v.kind, v.named, v.inRoom, v.hidden, key, kept) ==
            if Put(SlotOf(key), v).Some? then Put(SlotOf(key), v) else if Drops(SlotOf(key), v) then None else kept
  {
    assert SlotOf(key).Label? <==> key in LABELS;
    SlotNames(key);
  }

  /** What one pass makes of each field of an object, in terms of what the object is about. */
  lemma PassOnField(digest: string -> string, m: map<string, Json>, erased: set<string>, kind: string, key: string)
    requires IsAbout(m, kind)
    ensures Redact(digest, Obj(m), erased).Obj?
    ensures var hidden := if TellsArguments(m, erased) then Some(Arr(ArgumentsErased(digest, m["argv"].items))) else None;
            var kept := if key in m then Some(Redact(digest, m[key], erased)) else None;
            At(Redact(digest, Obj(m), erased).fields, key) ==
              Passed(kind, IsErased(m, kind, erased), InRoom(m, erased), hidden, key, kept)
  {
    ErasedIsNamed(m, kind, erased);
    AboutIsKind(m, kind);
    OwnedIff(m, erased);
    RedactIsOnePass(digest, m, erased);
    var v := Judge(digest, m, erased);
    PassedIsPut(v, key, if key in m then Some(Redact(digest, m[key], erased)) else None);
    assert At(Redact(digest, Obj(m), erased).fields, key) == FieldAfter(digest, m, erased, v, key);
  }

  lemma LabelsAre(m: map<string, Json>)
    ensures NoLabels(m) <==> "roomName" !in m && forall key :: key in LABELS ==> key !in m
  {
    assert forall key :: SlotOf(key).Label? <==> key in LABELS;
    assert forall key :: SlotOf(key).RoomLabel? <==> key == "roomName";
  }

  /** An object is clean when it and its fields are as `redact` leaves them. */
  lemma CleanObject(m: map<string, Json>, erased: set<string>)
    requires forall key :: key in m ==> (Clean(m[key], erased) <==> Tidy(m[key], erased))
    ensures Clean(Obj(m), erased) <==> Tidy(Obj(m), erased)
  {
    LabelsAre(m);
    OwnedIff(m, erased);
    AboutIsKind(m, Kind(m));
    AboutIsKind(m, "task");
    ErasedIsNamed(m, Kind(m), erased);
    forall kind ensures IsErased(m, kind, erased) ==> kind == Kind(m) {
      ErasedIsNamed(m, kind, erased);
    }
    assert NamesErased(m, erased) <==> IsErased(m, Kind(m), erased);
    assert AgentBlanked(m) <==> Says(m, "name", "erased") && Says(m, "brain", "[erased]") && Says(m, "role", "[erased]")
                                && At(m, "inherited") == Some(Arr([]));
  }

  lemma {:induction false} CleanIsTidy(j: Json, erased: set<string>)
    ensures Clean(j, erased) <==> Tidy(j, erased)
  {
    match j
    case Arr(items) =>
      forall i | 0 <= i < |items| ensures Clean(items[i], erased) <==> Tidy(items[i], erased) { CleanIsTidy(items[i], erased); }
    case Obj(m) =>
      forall key | key in m ensures Clean(m[key], erased) <==> Tidy(m[key], erased) { CleanIsTidy(m[key], erased); }
      CleanObject(m, erased);
    case _ =>
  }

  /** The fixed points of redaction are exactly the values that present no erased resource. */
  lemma FixedIffClean(digest: string -> string, j: Json, erased: set<string>)
    ensures Redact(digest, j, erased) == j <==> Clean(j, erased)
  {
    FixedIffTidy(digest, j, erased);
    CleanIsTidy(j, erased);
  }

  /** Once erased, always erased: whatever is filtered under a larger registry is clean under a smaller one. */
  lemma StaysErased(digest: string -> string, j: Json, before: set<string>, now: set<string>)
    requires Registry(now) && before <= now
    ensures Clean(Redact(digest, j, now), before)
  {
    var r := Redact(digest, j, now);
    RedactComposes(digest, j, now, before);
    assert now + before == now;
    FixedIffClean(digest, r, before);
  }

  // ---- the store ------------------------------------------------------------------------------

  type Path = string

  datatype Resource = Resource(kind: string, id: string)

  function Refs(resources: seq<Resource>): set<string> {
    set r | r in resources :: Ref(r.kind, r.id)
  }

  /** One critical section of a cooperative process, under the erasure lock. */
  datatype Op =
    | Write(path: Path, snapshot: Json)                      // `writePrivacyFilteredLedger`
    | Erase(resources: seq<Resource>, survives: Option<nat>)
      // `eraseResourcePresentations`; Some(n) dies after n file replacements

  class Store {
    const digest: string -> string
    var registry: set<string>
    var ledgers: map<Path, Json>      // every ledger under the scanned roots
    ghost var settled: bool           // every erasure so far has finished, or a later one has

    ghost predicate Fixed(path: Path)
      requires path in ledgers
      reads this
    {
      Redact(digest, ledgers[path], registry) == ledgers[path]
    }

    ghost predicate Valid()
      reads this
    {
      Registry(registry) && (settled ==> forall path :: path in ledgers ==> Fixed(path))
    }

    constructor (digest: string -> string)
      ensures Valid() && settled && registry == {} && ledgers == map[]
    {
      this.digest, registry, ledgers, settled := digest, {}, map[], true;
    }

    /** A writer's snapshot may be arbitrarily stale: it is filtered by the registry of the moment. */
    method WritePrivacyFiltered(path: Path, snapshot: Json)
      requires Valid()
      modifies this`ledgers
      ensures Valid() && ledgers == old(ledgers)[path := Redact(digest, snapshot, registry)]
    {
      ledgers := ledgers[path := Redact(digest, snapshot, registry)];
      RedactIsIdempotent(digest, snapshot, registry);
    }

    /** Registers first, then rewrites every ledger; a crash may stop it anywhere in between. */
    method EraseResourcePresentations(resources: seq<Resource>, listing: seq<Path>, survives: Option<nat>)
      returns (done: bool, replaced: nat)
      requires Valid() && Registry(Refs(resources))
      requires forall path :: path in listing <==> path in ledgers
      modifies this
      ensures Valid() && replaced <= |listing|
      ensures survives.None? ==> done
      ensures done ==> settled && registry == old(registry) + Refs(resources) && replaced == |listing|
      ensures done ==> forall r :: r in resources ==> r.kind + ":" + r.id in registry
      ensures registry == old(registry) || registry == old(registry) + Refs(resources)
      ensures ledgers == Rewritten(digest, old(ledgers), listing[..replaced], registry)
      ensures registry == old(registry) ==> settled == old(settled) || done
    {
      if survives == Some(0) {
        assert ledgers == Rewritten(digest, ledgers, listing[..0], registry);
        return false, 0;
      }
      var erased := WithRefs(resources);
      settled := settled && erased == registry;
      registry := erased;
      replaced := RewriteLedgers(listing, Spend(survives));
      StillFixed(digest, old(ledgers), listing[..replaced], registry);
      done := replaced == |listing|;
      if done {
        assert listing[..replaced] == listing;
        settled := true;
      }
    }

    method WithRefs(resources: seq<Resource>) returns (erased: set<string>)
      ensures erased == registry + Refs(resources)
    {
      erased := registry;
      for i := 0 to |resources|
        invariant erased == registry + Refs(resources[..i])
      {
        erased := erased + {Ref(resources[i].kind, resources[i].id)};
        assert resources[..i + 1] == resources[..i] + [resources[i]];
      }
      assert resources[..|resources|] == resources;
    }

    method ReplaceLedger(path: Path)
      requires path in ledgers
      modifies this`ledgers
      ensures ledgers == old(ledgers)[path := Redact(digest, old(ledgers)[path], registry)]
    {
      ledgers := ledgers[path := Redact(digest, ledgers[path], registry)];
    }

    /** Replaces the listed ledgers one by one, until death or the end of the listing. */
    method RewriteLedgers(listing: seq<Path>, survives: Option<nat>) returns (done: nat)
      requires Registry(registry) && forall path :: path in listing ==> path in ledgers
      modifies this`ledgers
      ensures done <= |listing| && (survives.None? ==> done == |listing|)
      ensures ledgers == Rewritten(digest, old(ledgers), listing[..done], registry)
    {
      var budget := survives;
      done := 0;
      while done < |listing| && budget != Some(0)
        invariant done <= |listing| && (survives.None? ==> budget.None?)
        invariant ledgers == Rewritten(digest, old(ledgers), listing[..done], registry)
      {
        assert listing[done] in listing && listing[..done + 1] == listing[..done] + [listing[done]];
        RewriteOne(digest, old(ledgers), listing[..done], registry, listing[done]);
        ReplaceLedger(listing[done]);
        done, budget := done + 1, Spend(budget);
      }
    }

    /** A snapshot cannot bring anything back: whatever was ever registered stays erased in every ledger. */
    lemma NothingComesBack(path: Path, erased: set<string>)
      requires Valid() && settled && path in ledgers && erased <= registry
      ensures Clean(ledgers[path], erased)
    {
      StaysErased(digest, ledgers[path], erased, registry);
    }
  }

  /** The ledgers after those in `which` were rewritten under `registry`. */
  function Rewritten(digest: string -> string, ledgers: map<Path, Json>, which: seq<Path>, registry: set<string>): map<Path, Json> {
    map path | path in ledgers :: if path in which then Redact(digest, ledgers[path], registry) else ledgers[path]
  }

  lemma RewriteOne(digest: string -> string, ledgers: map<Path, Json>, which: seq<Path>, registry: set<string>, path: Path)
    requires Registry(registry) && path in ledgers
    ensures var now := Rewritten(digest, ledgers, which, registry);
            now[path := Redact(digest, now[path], registry)] == Rewritten(digest, ledgers, which + [path], registry)
  {
    RedactIsIdempotent(digest, ledgers[path], registry);
  }

  lemma StillFixed(digest: string -> string, ledgers: map<Path, Json>, which: seq<Path>, registry: set<string>)
    requires Registry(registry)
    ensures forall path :: path in ledgers && (path in which || Redact(digest, ledgers[path], registry) == ledgers[path]) ==>
              var now := Rewritten(digest, ledgers, which, registry);
              Redact(digest, now[path], registry) == now[path]
  {
    forall path | path in ledgers && path in which
      ensures Redact(digest, Redact(digest, ledgers[path], registry), registry) == Redact(digest, ledgers[path], registry)
    {
      RedactIsIdempotent(digest, ledgers[path], registry);
    }
  }

  /** The last erasure among `ops` ran to its end; `before` says so of the ones before them. */
  predicate LastErasureFinished(ops: seq<Op>, before: bool) {
    if ops == [] then before
    else match ops[|ops| - 1]
         case Write(_, _) => LastErasureFinished(ops[..|ops| - 1], before)
         case Erase(_, survives) => survives.None?
  }

  predicate WellFormed(op: Op) {
    op.Erase? ==> forall i :: 0 <= i < |op.resources| ==> op.resources[i].kind in {"task", "room", "agent"}
  }

  lemma RefsAreRegistered(resources: seq<Resource>)
    requires forall i :: 0 <= i < |resources| ==> resources[i].kind in {"task", "room", "agent"}
    ensures Registry(Refs(resources))
  {}

  /**
   * Erasure is permanent over every sequence of writes and erasures: whenever the last erasure
   * ran to its end, whatever died before it and whatever stale snapshots were written since, no
   * ledger presents anything that was ever registered.
   */
  method Serve(store: Store, ops: seq<Op>)
    requires store.Valid() && forall i :: 0 <= i < |ops| ==> WellFormed(ops[i])
    modifies store
    ensures store.Valid() && old(store.registry) <= store.registry
    ensures LastErasureFinished(ops, old(store.settled)) ==>
              forall path, erased :: path in store.ledgers && erased <= store.registry ==> Clean(store.ledgers[path], erased)
  {
    for i := 0 to |ops|
      invariant store.Valid() && old(store.registry) <= store.registry
      invariant LastErasureFinished(ops[..i], old(store.settled)) ==> store.settled
    {
      assert ops[..i + 1][..i] == ops[..i];
      match ops[i]
      case Write(path, snapshot) =>
        store.WritePrivacyFiltered(path, snapshot);
      case Erase(resources, survives) =>
        assert WellFormed(ops[i]);
        RefsAreRegistered(resources);
        var listing := Listing(store);
        var _, _ := store.EraseResourcePresentations(resources, listing, survives);
    }
    assert ops[..|ops|] == ops;
    if store.settled {
      forall path, erased | path in store.ledgers && erased <= store.registry
        ensures Clean(store.ledgers[path], erased)
      {
        store.NothingComesBack(path, erased);
      }
    }
  }

  /** The ledgers there are, in some order. */
  method Listing(store: Store) returns (listing: seq<Path>)
    ensures forall path :: path in listing <==> path in store.ledgers
  {
    var rest := store.ledgers.Keys;
    listing := [];
    while rest != {}
      invariant rest <= store.ledgers.Keys
      invariant forall path :: path in listing <==> path in store.ledgers.Keys - rest
      decreases rest
    {
      var path :| path in rest;
      listing, rest := listing + [path], rest - {path};
    }
  }

  function Spend(budget: Option<nat>): Option<nat> {
    match budget
    case None => None
    case Some(n) => if n == 0 then Some(0) else Some(n - 1)
  }
}
