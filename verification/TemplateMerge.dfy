/**
 * `mergeTemplateDefinition`: an agent's overrides over its template.  A few top-level fields are
 * maps that merge key by key, at any depth; every other field is replaced whole; and a null that
 * the merge comes upon is an error, except for the model.
 */
module TemplateMerge {
  import opened Json
  import opened Options

  type Definition = map<string, Json>

  const MERGED: set<string> :=
    {"permissions", "env", "isolation", "monitor", "owner_channel", "worklog", "auth_proxy", "loops"}

  predicate NullRefused(overlay: Json, key: string) {
    overlay.Null? && key != "model"
  }

  predicate MapsMeet(base: Option<Json>, overlay: Json, key: string) {
    key in MERGED && base.Some? && base.value.Obj? && overlay.Obj?
  }

  function Child(base: Option<Json>, key: string): Option<Json> {
    if base.Some? && base.value.Obj? && key in base.value.fields then Some(base.value.fields[key]) else None
  }

  /** The merge comes upon a null that it refuses. */
  predicate HitsNull(base: Option<Json>, overlay: Json, key: string)
    decreases overlay
  {
    || NullRefused(overlay, key)
    || (MapsMeet(base, overlay, key)
        && exists c :: c in overlay.fields && HitsNull(Child(base, c), overlay.fields[c], key))
  }

  function Merge(base: Option<Json>, overlay: Json, key: string): Json
    decreases overlay
  {
    if MapsMeet(base, overlay, key) then
      Obj(map c | c in base.value.fields.Keys + overlay.fields.Keys ::
            if c in overlay.fields then Merge(Child(base, c), overlay.fields[c], key) else base.value.fields[c])
    else overlay
  }

  function At(d: Definition, key: string): Option<Json> {
    if key in d then Some(d[key]) else None
  }

  /** The template with the overrides of the fields `done` merged in. */
  function MergedIn(template: Definition, overrides: Definition, done: set<string>): Definition
    requires done <= overrides.Keys
  {
    map key | key in template.Keys + done ::
      if key in done then Merge(At(template, key), overrides[key], key) else template[key]
  }

  function Merged(template: Definition, overrides: Definition): Definition {
    MergedIn(template, overrides, overrides.Keys)
  }

  ghost predicate AnyNull(template: Definition, overrides: Definition) {
    exists key :: key in overrides && HitsNull(At(template, key), overrides[key], key)
  }

  lemma Remaining(all: set<string>, done: set<string>)
    requires done <= all && done != all
    ensures exists key :: key in all && key !in done
  {
    assert (forall key :: key in all ==> key in done) ==> done == all;
  }

  method MergeTemplateDefinition(template: Definition, overrides: Definition) returns (r: Option<Definition>)
    ensures r.None? <==> AnyNull(template, overrides)
    ensures r.Some? ==> r.value == Merged(template, overrides)
  {
    var result := template;
    var done: set<string> := {};
    assert result == MergedIn(template, overrides, done);
    while done != overrides.Keys
      invariant done <= overrides.Keys && result == MergedIn(template, overrides, done)
      invariant forall key :: key in done ==> !HitsNull(At(template, key), overrides[key], key)
      decreases overrides.Keys - done
    {
      assert exists key :: key in overrides.Keys && key !in done by { Remaining(overrides.Keys, done); }
      var key :| key in overrides.Keys && key !in done;
      assert At(result, key) == At(template, key);
      if HitsNull(At(result, key), overrides[key], key) {
        return None;
      }
      result := result[key := Merge(At(result, key), overrides[key], key)];
      assert result == MergedIn(template, overrides, done + {key});
      done := done + {key};
    }
    r := Some(result);
  }

  // ---- what is where ---------------------------------------------------------------------------

  /** The value at `path` inside `v`. */
  function Look(v: Option<Json>, path: seq<string>): Option<Json>
    decreases |path|
  {
    if path == [] || v.None? then v else Look(Child(v, path[0]), path[1..])
  }

  /** All of `v` up to `path` is maps with that path in them, so that the override says what is there. */
  predicate Given(v: Option<Json>, path: seq<string>) {
    Look(v, path).Some?
  }

  /** `path` leads through maps on both sides, and ends where they still meet. */
  predicate Meets(base: Option<Json>, overlay: Option<Json>, path: seq<string>) {
    && Look(base, path).Some? && Look(base, path).value.Obj?
    && Look(overlay, path).Some? && Look(overlay, path).value.Obj?
  }

  /** Inside a merged field: a path the overrides give a value of its own has that value. */
  lemma {:induction false} GivenWins(base: Option<Json>, overlay: Json, key: string, path: seq<string>)
    requires key in MERGED && Given(Some(overlay), path) && !Meets(base, Some(overlay), path)
    ensures Look(Some(Merge(base, overlay, key)), path) == Look(Some(overlay), path)
    decreases |path|
  {
    if MapsMeet(base, overlay, key) && path != [] {
      var c := path[0];
      assert Look(Some(overlay), path) == Look(Child(Some(overlay), c), path[1..]);
      GivenWins(Child(base, c), overlay.fields[c], key, path[1..]);
    }
  }

  /** And a path the overrides do not give, under maps that meet, keeps the template's. */
  lemma {:induction false} OthersStay(base: Option<Json>, overlay: Json, key: string, path: seq<string>, c: string)
    requires key in MERGED && Meets(base, Some(overlay), path) && !Given(Some(overlay), path + [c])
    ensures Look(Some(Merge(base, overlay, key)), path + [c]) == Look(base, path + [c])
    decreases |path|
  {
    if path == [] {
      assert path + [c] == [c] && [c][1..] == [];
      assert Look(Some(overlay), [c]) == Look(Child(Some(overlay), c), []);
      assert Look(base, [c]) == Look(Child(base, c), []);
    } else {
      var d := path[0];
      assert (path + [c])[0] == d && (path + [c])[1..] == path[1..] + [c];
      assert Look(Some(overlay), path) == Look(Child(Some(overlay), d), path[1..]);
      assert Look(base, path) == Look(Child(base, d), path[1..]);
      OthersStay(Child(base, d), overlay.fields[d], key, path[1..], c);
    }
  }

  // ---- which fields merge, and which nulls are refused --------------------------------------------

  /** Every other field is the override's, whole, and one without an override the template's. */
  lemma FieldByField(template: Definition, overrides: Definition, key: string)
    ensures key in Merged(template, overrides) <==> key in template || key in overrides
    ensures key in template && key !in overrides ==> Merged(template, overrides)[key] == template[key]
    ensures key in overrides && key !in ["permissions", "env", "isolation", "monitor", "owner_channel", "worklog", "auth_proxy", "loops"] ==>
              Merged(template, overrides)[key] == overrides[key]
    ensures key in overrides && key in ["permissions", "env", "isolation", "monitor", "owner_channel", "worklog", "auth_proxy", "loops"] ==>
              key in MERGED && Merged(template, overrides)[key] == Merge(At(template, key), overrides[key], key)
  {}

  /** A null at the end of a path along which maps meet. */
  ghost predicate NullOnTheWay(base: Option<Json>, overlay: Json) {
    exists path, c :: Meets(base, Some(overlay), path) && Look(Some(overlay), path + [c]) == Some(Null)
  }

  lemma LookOne(v: Option<Json>, path: seq<string>, c: string)
    ensures Look(v, path + [c]) == if Look(v, path).Some? then Child(Look(v, path), c) else None
    decreases |path|
  {
    if path == [] {
      assert [c][1..] == [] && Look(v, [c]) == if v.Some? then Look(Child(v, c), []) else v;
    } else if v.Some? {
      assert (path + [c])[0] == path[0] && (path + [c])[1..] == path[1..] + [c];
      LookOne(Child(v, path[0]), path[1..], c);
    }
  }

  /** Where the merge of one field comes upon a null: at once, or where merging maps lead to one. */
  lemma {:induction false} HitsNullIff(base: Option<Json>, overlay: Json, key: string)
    requires key in MERGED
    ensures HitsNull(base, overlay, key) <==> overlay.Null? || NullOnTheWay(base, overlay)
    decreases overlay
  {
    if MapsMeet(base, overlay, key) {
      forall c | c in overlay.fields
        ensures HitsNull(Child(base, c), overlay.fields[c], key) <==>
                overlay.fields[c].Null? || NullOnTheWay(Child(base, c), overlay.fields[c])
        ensures HitsNull(Child(base, c), overlay.fields[c], key) ==> NullOnTheWay(base, overlay)
      {
        HitsNullIff(Child(base, c), overlay.fields[c], key);
        if HitsNull(Child(base, c), overlay.fields[c], key) {
          NullIsFurtherOn(base, overlay, c);
        }
      }
      if NullOnTheWay(base, overlay) {
        var path, c :| Meets(base, Some(overlay), path) && Look(Some(overlay), path + [c]) == Some(Null);
        NullIsInside(base, overlay, path, c);
      }
    } else if NullOnTheWay(base, overlay) {
      var path, c :| Meets(base, Some(overlay), path) && Look(Some(overlay), path + [c]) == Some(Null);
      MeetsFromTheTop(base, overlay, path);
    }
  }

  lemma MeetsFromTheTop(base: Option<Json>, overlay: Json, path: seq<string>)
    requires Meets(base, Some(overlay), path)
    ensures base.Some? && base.value.Obj? && overlay.Obj?
  {
    if path != [] {
      assert Look(base, path) == if base.None? then base else Look(Child(base, path[0]), path[1..]);
      assert Look(Some(overlay), path) == Look(Child(Some(overlay), path[0]), path[1..]);
      LookOfNothing(path[1..]);
    }
  }

  lemma LookOfNothing(path: seq<string>)
    ensures Look(None, path) == None
  {}

  lemma NullIsFurtherOn(base: Option<Json>, overlay: Json, c: string)
    requires base.Some? && base.value.Obj? && overlay.Obj? && c in overlay.fields
    requires overlay.fields[c].Null? || NullOnTheWay(Child(base, c), overlay.fields[c])
    ensures NullOnTheWay(base, overlay)
  {
    if overlay.fields[c].Null? {
      LookOne(Some(overlay), [], c);
      assert Meets(base, Some(overlay), []) && [] + [c] == [c];
      assert Look(Some(overlay), [] + [c]) == Some(Null);
    } else {
      var path, d :| Meets(Child(base, c), Some(overlay.fields[c]), path) && Look(Some(overlay.fields[c]), path + [d]) == Some(Null);
      var longer := [c] + path;
      assert longer[0] == c && longer[1..] == path && (longer + [d])[0] == c && (longer + [d])[1..] == path + [d];
      assert Meets(base, Some(overlay), longer) && Look(Some(overlay), longer + [d]) == Some(Null);
    }
  }

  lemma NullIsInside(base: Option<Json>, overlay: Json, path: seq<string>, c: string)
    requires base.Some? && base.value.Obj? && overlay.Obj?
    requires Meets(base, Some(overlay), path) && Look(Some(overlay), path + [c]) == Some(Null)
    ensures exists d :: d in overlay.fields && (overlay.fields[d].Null? || NullOnTheWay(Child(base, d), overlay.fields[d]))
  {
    if path == [] {
      LookOne(Some(overlay), [], c);
      assert [] + [c] == [c] && c in overlay.fields && overlay.fields[c].Null?;
    } else {
      var d := path[0];
      assert (path + [c])[0] == d && (path + [c])[1..] == path[1..] + [c];
      LookOfNothing(path[1..]);
      assert Look(Some(overlay), path) == Look(Child(Some(overlay), d), path[1..]);
      assert d in overlay.fields;
      assert Meets(Child(base, d), Some(overlay.fields[d]), path[1..]);
      assert Look(Some(overlay.fields[d]), path[1..] + [c]) == Some(Null);
    }
  }

  /** Overrides are refused exactly for a null of a field other than the model, or further down where maps merge. */
  lemma RefusedIff(template: Definition, overrides: Definition)
    ensures AnyNull(template, overrides) <==>
            exists key :: key in overrides && ((overrides[key].Null? && key != "model")
                                               || (key in MERGED && NullOnTheWay(At(template, key), overrides[key])))
  {
    forall key | key in overrides
      ensures HitsNull(At(template, key), overrides[key], key) <==>
              (overrides[key].Null? && key != "model") || (key in MERGED && NullOnTheWay(At(template, key), overrides[key]))
    {
      if key in MERGED {
        HitsNullIff(At(template, key), overrides[key], key);
      }
    }
  }

  // ---- twice is once ------------------------------------------------------------------------------

  lemma {:induction false} MergeTwice(base: Option<Json>, overlay: Json, key: string)
    ensures Merge(Some(Merge(base, overlay, key)), overlay, key) == Merge(base, overlay, key)
    decreases overlay
  {
    var once := Merge(base, overlay, key);
    if MapsMeet(Some(once), overlay, key) {
      forall c | c in overlay.fields ensures Merge(Child(Some(once), c), overlay.fields[c], key) == once.fields[c] {
        if MapsMeet(base, overlay, key) {
          MergeTwice(Child(base, c), overlay.fields[c], key);
        } else {
          MergeSelf(overlay.fields[c], key);
        }
      }
      assert Merge(Some(once), overlay, key) == once;
    }
  }

  /** Applied to its own result, a merge changes nothing. */
  lemma MergedTwice(template: Definition, overrides: Definition)
    ensures Merged(Merged(template, overrides), overrides) == Merged(template, overrides)
  {
    forall key | key in overrides
      ensures Merge(Some(Merged(template, overrides)[key]), overrides[key], key) == Merged(template, overrides)[key]
    {
      MergeTwice(At(template, key), overrides[key], key);
    }
  }

  /** A null that a merge could ever come upon, whatever the template. */
  predicate HoldsNull(overlay: Json, key: string) {
    || NullRefused(overlay, key)
    || (key in MERGED && overlay.Obj? && exists c :: c in overlay.fields && HoldsNull(overlay.fields[c], key))
  }

  lemma {:induction false} SecondHitsExactly(base: Option<Json>, overlay: Json, key: string)
    ensures HitsNull(Some(Merge(base, overlay, key)), overlay, key) <==> HoldsNull(overlay, key)
    decreases overlay
  {
    var once := Merge(base, overlay, key);
    if key in MERGED && overlay.Obj? {
      forall c | c in overlay.fields
        ensures HitsNull(Child(Some(once), c), overlay.fields[c], key) <==> HoldsNull(overlay.fields[c], key)
      {
        if MapsMeet(base, overlay, key) {
          SecondHitsExactly(Child(base, c), overlay.fields[c], key);
        } else {
          SelfHitsExactly(overlay.fields[c], key);
        }
      }
    }
  }

  lemma {:induction false} SelfHitsExactly(overlay: Json, key: string)
    ensures HitsNull(Some(overlay), overlay, key) <==> HoldsNull(overlay, key)
  {
    if key in MERGED && overlay.Obj? {
      forall c | c in overlay.fields
        ensures HitsNull(Some(overlay.fields[c]), overlay.fields[c], key) <==> HoldsNull(overlay.fields[c], key)
      {
        SelfHitsExactly(overlay.fields[c], key);
      }
    }
  }

  /**
   * The second application is accepted exactly when the overrides hold no null where maps merge;
   * the first may accept one below a map the template does not have.
   */
  lemma SecondAcceptedIff(template: Definition, overrides: Definition)
    ensures AnyNull(Merged(template, overrides), overrides) <==> exists key :: key in overrides && HoldsNull(overrides[key], key)
  {
    forall key | key in overrides
      ensures HitsNull(At(Merged(template, overrides), key), overrides[key], key) <==> HoldsNull(overrides[key], key)
    {
      SecondHitsExactly(At(template, key), overrides[key], key);
    }
  }

  /** For instance: accepted once, refused the second time. */
  lemma NullBelowNewMap()
    ensures var template: Definition := map["env" := Obj(map[])];
            var overrides: Definition := map["env" := Obj(map["A" := Obj(map["B" := Null])])];
            !AnyNull(template, overrides) && AnyNull(Merged(template, overrides), overrides)
  {
    var template: Definition := map["env" := Obj(map[])];
    var b := Null;
    var a := Obj(map["B" := b]);
    var env := Obj(map["A" := a]);
    var overrides: Definition := map["env" := env];
    assert !HitsNull(None, a, "env");
    assert Child(Some(Obj(map[])), "A") == None;
    assert !HitsNull(At(template, "env"), env, "env");
    assert HoldsNull(b, "env") && "B" in a.fields && HoldsNull(a.fields["B"], "env");
    assert "A" in env.fields && HoldsNull(env.fields["A"], "env");
    assert HoldsNull(overrides["env"], "env");
    SecondAcceptedIff(template, overrides);
  }

  lemma {:induction false} MergeSelf(overlay: Json, key: string)
    ensures Merge(Some(overlay), overlay, key) == overlay
  {
    if MapsMeet(Some(overlay), overlay, key) {
      forall c | c in overlay.fields ensures Merge(Child(Some(overlay), c), overlay.fields[c], key) == overlay.fields[c] {
        MergeSelf(overlay.fields[c], key);
      }
      assert Merge(Some(overlay), overlay, key) == overlay;
    }
  }
}
