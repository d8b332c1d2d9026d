/**
 * `publishSetup`: the manifest and the configuration root are staged, the originals renamed
 * into a recovery directory, the staged pair renamed into place, and everything undone when a
 * step throws.  Any system call may throw.  Other processes may do what they like at the two
 * targets, except to an original: before every look at a target, and again in the gap between
 * that look and what follows from it.
 *
 * Renaming onto a file replaces it; renaming a directory onto one replaces that only if it is
 * empty, and throws otherwise.  Removing what is not there throws; removing a tree is one step.
 */
module Publication {
  import opened Options

  const MANIFEST := "fleet.yaml"

  type Tree = map<string, string>       // relative path to contents

  // ---- what is staged --------------------------------------------------------------------

  /** `preserveExistingSetup`: existing files win over generated ones, the root's over the manifest. */
  function Preserve(generated: Tree, manifest: Option<string>, root: Tree): Tree {
    (if manifest.Some? then generated[MANIFEST := manifest.value] else generated) + root
  }

  /** `writeStaged`: the entry named like the manifest goes to the manifest, the rest to the root. */
  function StagedManifest(files: Tree): string
    requires MANIFEST in files
  {
    files[MANIFEST]
  }

  function StagedRoot(files: Tree): Tree {
    files - {MANIFEST}
  }

  /** What the new setup has at `path`: the old root's text, or the old manifest's, or the generated one. */
  function TextAt(generated: Tree, manifest: Option<string>, root: Tree, path: string): Option<string> {
    if path in root then Some(root[path])
    else if path == "fleet.yaml" && manifest.Some? then manifest
    else if path in generated then Some(generated[path])
    else None
  }

  function At(tree: Tree, path: string): Option<string> {
    if path in tree then Some(tree[path]) else None
  }

  /** Path by path, the staged manifest and root hold just these texts, and the root no manifest. */
  lemma StagedPathByPath(generated: Tree, manifest: Option<string>, root: Tree, path: string)
    requires MANIFEST in generated
    ensures var files := Preserve(generated, manifest, root);
            && MANIFEST in files && Some(StagedManifest(files)) == TextAt(generated, manifest, root, "fleet.yaml")
            && At(StagedRoot(files), path) == if path == "fleet.yaml" then None else TextAt(generated, manifest, root, path)
  {}

  predicate BytesSurvive(manifest: Option<string>, root: Tree, files: Tree)
    requires MANIFEST in files
  {
    && (manifest.Some? ==> StagedManifest(files) == manifest.value)
    && (forall path :: path in root ==> path in StagedRoot(files) && StagedRoot(files)[path] == root[path])
  }

  /**
   * Existing bytes survive into the new setup exactly when the root has no top-level file named
   * like the manifest, with which it shares a key.
   */
  lemma BytesSurviveIffNoCollision(generated: Tree, manifest: Option<string>, root: Tree)
    requires MANIFEST in generated
    ensures BytesSurvive(manifest, root, Preserve(generated, manifest, root)) <==> "fleet.yaml" !in root
  {
    var files := Preserve(generated, manifest, root);
    if MANIFEST in root {
      assert MANIFEST !in StagedRoot(files);
    }
  }

  /** A file the staged root has not, or not like this. */
  predicate StrangeTree(tree: Tree, staged: Tree) {
    exists path :: path in tree && !(path in staged && staged[path] == tree[path])
  }

  // ---- one target ---------------------------------------------------------------------------

  /** What is at a path, with the `dev:ino` by which the run recognises what it published. */
  datatype Item<T> = Item(inode: nat, contents: T)

  /**
   * What other processes make of a target while the run does not look.  `Put` is how they leave
   * it: edited in place or re-created under the freed inode, which keep the number, or new.
   */
  datatype Meddling<T> = Leave | Clear | Put(item: Item<T>)

  /** When: before a look at the target, or in the gap between the look and the act. */
  datatype Moment = ToSave(gap: bool) | ToPublish(gap: bool) | ToDelete(gap: bool) | ToRestore(gap: bool)

  /** The system calls about one target; a run makes each at most once. */
  datatype Call = Save | Look | Move | LookOwn | Remove | PutBack

  /** The calls that destroy what is at the target. */
  datatype Act = Publishing | Deleting | Restoring

  datatype State<T> = State(now: Option<Item<T>>, saved: Option<Item<T>>)

  /** A state of a target, and whether the run brought it about. */
  datatype Step<T> = Step(ours: bool, state: State<T>)

  /** What one run finds at a target: the original, what others do, which calls throw, the inode it stages under. */
  datatype Setting<T> = Setting(first: Option<Item<T>>, inode: nat, plan: Moment -> Meddling<T>, fails: Call -> bool)

  function Applied<T>(m: Meddling<T>, now: Option<Item<T>>): Option<Item<T>> {
    match m
    case Leave => now
    case Clear => None
    case Put(item) => Some(item)
  }

  /** The original is, whole, at its target or in the recovery directory. */
  ghost predicate Intact<T>(s: State<T>, first: Option<Item<T>>) {
    first.Some? ==> s.now == first || s.saved == first
  }

  ghost predicate AlwaysIntact<T>(trail: seq<Step<T>>, first: Option<Item<T>>) {
    forall k :: 0 <= k < |trail| ==> Intact(trail[k].state, first)
  }

  /** What was at the target had bytes the run did not write, and is now neither there nor put aside. */
  ghost predicate Loses<T>(strange: T -> bool, s: State<T>, s': State<T>) {
    && s.now.Some? && strange(s.now.value.contents)
    && s'.now != s.now && !(s.saved.None? && s'.saved == s.now)
  }

  ghost predicate LosesAt<T>(strange: T -> bool, trail: seq<Step<T>>, k: nat)
    requires k + 1 < |trail|
  {
    trail[k + 1].ours && Loses(strange, trail[k].state, trail[k + 1].state)
  }

  /** Some step of this run, not of others, lost what others had written. */
  ghost predicate Lost<T>(strange: T -> bool, trail: seq<Step<T>>) {
    exists k :: 0 <= k < |trail| - 1 && LosesAt(strange, trail, k)
  }

  lemma LostOneMore<T>(strange: T -> bool, trail: seq<Step<T>>, step: Step<T>)
    requires trail != []
    ensures Lost(strange, trail + [step]) <==>
            Lost(strange, trail) || (step.ours && Loses(strange, trail[|trail| - 1].state, step.state))
  {
    var all := trail + [step];
    assert forall k :: 0 <= k < |trail| - 1 ==> LosesAt(strange, all, k) == LosesAt(strange, trail, k);
    if Lost(strange, trail) {
      var k :| 0 <= k < |trail| - 1 && LosesAt(strange, trail, k);
      assert LosesAt(strange, all, k);
    }
    assert LosesAt(strange, all, |trail| - 1) == (step.ours && Loses(strange, trail[|trail| - 1].state, step.state));
  }

  class Target<T> {
    const first: Option<Item<T>>          // the original
    const planned: Item<T>                // what is to be published
    const strange: T -> bool              // has bytes the run did not write
    const gives: T -> bool                // a rename onto it replaces it
    const plan: Moment -> Meddling<T>     // what other processes do
    const fails: Call -> bool             // which calls throw
    var now: Option<Item<T>>
    var stage: Option<Item<T>>
    var saved: Option<Item<T>>
    var backed: bool
    var published: Option<nat>
    ghost var trail: seq<Step<T>>         // every state of the target since the start
    ghost var done: set<Act>              // the destroying calls that went ahead

    constructor (setting: Setting<T>, contents: T, strange: T -> bool, gives: T -> bool)
      requires !strange(contents)
      ensures Valid() && Fresh() && trail == [Step(false, State(first, None))]
      ensures first == setting.first && plan == setting.plan && fails == setting.fails
      ensures planned == Item(setting.inode, contents) && this.strange == strange && this.gives == gives
    {
      first, plan, fails := setting.first, setting.plan, setting.fails;
      planned, this.strange, this.gives := Item(setting.inode, contents), strange, gives;
      now, stage, saved, backed, published := setting.first, None, None, false, None;
      trail, done := [Step(false, State(setting.first, None))], {};
    }

    predicate StrangePut(m: Moment) {
      plan(m).Put? && strange(plan(m).item.contents)
    }

    /** What others do at this moment does not stop a rename onto the target. */
    predicate Yields(m: Moment) {
      plan(m).Put? ==> gives(plan(m).item.contents)
    }

    /** What is there to be saved: the original, or what somebody put where there was none. */
    function Found(): Option<Item<T>> {
      if first.Some? then first else Applied(plan(ToSave(false)), None)
    }

    /** And what is saved, as it is when it is renamed. */
    function Kept(): Option<Item<T>> {
      if first.Some? || Found().None? then first else Applied(plan(ToSave(true)), Found())
    }

    /**
     * What a call that went ahead destroyed had bytes of others: by what they did, and when.  (What
     * they put in the way of the saved item is never that item, whose inode is in use.)
     */
    ghost predicate Costs(a: Act) {
      match a
      case Publishing => StrangePut(ToPublish(true))
      case Deleting => StrangePut(ToDelete(true)) || (plan(ToDelete(true)).Leave? && StrangePut(ToDelete(false)))
      case Restoring => StrangePut(ToRestore(true)) && Kept() != Some(plan(ToRestore(true)).item)
    }

    ghost predicate Costly()
      reads this
    {
      exists a :: a in done && Costs(a)
    }

    /** Nothing, or as some other process left it. */
    ghost predicate Theirs(item: Option<Item<T>>) {
      item.Some? ==> exists m :: plan(m) == Put(item.value)
    }

    /** An original that is where it was; nobody touches that. */
    predicate Untouched()
      reads this
    {
      first.Some? && saved.None?
    }

    ghost predicate Valid()
      reads this
    {
      && trail != [] && trail[|trail| - 1].state == State(now, saved) && AlwaysIntact(trail, first)
      && !strange(planned.contents)
      && (Lost(strange, trail) <==> Costly())
      && (Untouched() ==> now == first)
      && (saved.Some? ==> saved == Kept()) && (first.None? ==> Theirs(saved))
      && (!Untouched() ==> Theirs(now) || (published == Some(planned.inode) && now == Some(planned)))
      && (Publishing in done ==> Yields(ToPublish(true)))
      && (Restoring in done ==> Yields(ToRestore(true)))
    }

    ghost predicate Fresh()
      reads this
    {
      now == first && stage.None? && saved.None? && !backed && published.None? && done == {}
    }

    /** Records the state just reached, by which `acts` went ahead if they cost anybody anything. */
    ghost method Log(ours: bool, acts: set<Act>)
      requires trail != [] && AlwaysIntact(trail, first) && Intact(State(now, saved), first)
      requires Lost(strange, trail) <==> Costly()
      requires (ours && Loses(strange, trail[|trail| - 1].state, State(now, saved))) <==> exists a :: a in acts && Costs(a)
      modifies this`trail, this`done
      ensures trail == old(trail) + [Step(ours, State(now, saved))] && done == old(done) + acts
      ensures AlwaysIntact(trail, first) && (Lost(strange, trail) <==> Costly())
    {
      LostOneMore(strange, trail, Step(ours, State(now, saved)));
      trail, done := trail + [Step(ours, State(now, saved))], done + acts;
      assert Costly() <==> old(Costly()) || exists a :: a in acts && Costs(a);
    }

    method Meddle(m: Moment)
      requires Valid()
      modifies this`now, this`trail, this`done
      ensures Valid() && done == old(done)
      ensures now == if Untouched() then old(now) else Applied(plan(m), old(now))
    {
      if !Untouched() {
        now := Applied(plan(m), now);
        Log(false, {});
        assert plan(m).Put? ==> plan(m) == Put(now.value);
      }
    }

    method Prepare()
      requires Valid()
      modifies this`stage
      ensures Valid() && stage == Some(planned)
    {
      stage := Some(planned);
    }

    // ---- publication ----

    predicate SaveGoes() {
      Found().Some? ==> !fails(Save) && (first.Some? || !plan(ToSave(true)).Clear?)
    }

    /** What is at the target goes to the recovery directory. */
    method SaveAway() returns (ok: bool)
      requires Valid() && now == first && saved.None? && !backed && published.None? && done == {}
      modifies this`now, this`saved, this`backed, this`trail, this`done
      ensures Valid() && done == {} && (ok <==> SaveGoes())
      ensures if ok then now.None? && (first.Some? ==> saved == first) else saved.None?
      ensures backed == saved.Some? == (ok && Found().Some?)
    {
      Meddle(ToSave(false));
      ok := true;
      if now.Some? {
        Meddle(ToSave(true));
        if fails(Save) || now.None? {
          return false;
        }
        now, saved, backed := None, now, true;
        Log(true, {});
      }
    }

    predicate PublishGoes() {
      !plan(ToPublish(false)).Put? && !fails(Look) && !fails(Move) && Yields(ToPublish(true))
    }

    /** Renames the staged item to a target that was free when looked at. */
    method Publish() returns (ok: bool)
      requires Valid() && !Untouched() && now.None? && stage == Some(planned) && published.None? && done == {}
      modifies this`now, this`stage, this`published, this`trail, this`done
      ensures Valid() && (ok <==> PublishGoes())
      ensures if ok then now == Some(planned) && published == Some(planned.inode) && done == {Publishing}
              else published.None? && done == {}
    {
      Meddle(ToPublish(false));
      if fails(Look) || now.Some? {
        return false;
      }
      Meddle(ToPublish(true));
      if fails(Move) || (now.Some? && !gives(now.value.contents)) {
        return false;
      }
      now, stage, published := stage, None, Some(stage.value.inode);
      Log(true, {Publishing});
      ok := true;
    }

    // ---- rollback ----

    /** When looked at, the target has the inode that was published. */
    predicate Recognised() {
      var found := Applied(plan(ToDelete(false)), Some(planned));
      found.Some? && found.value.inode == planned.inode
    }

    predicate DeleteGoes() {
      && (Applied(plan(ToDelete(false)), Some(planned)).Some? ==> !fails(LookOwn))
      && (Recognised() ==> !fails(Remove) && !plan(ToDelete(true)).Clear?)
    }

    function AfterDelete(): Option<Item<T>> {
      if Recognised() then None else Applied(plan(ToDelete(false)), Some(planned))
    }

    /** The published item goes, if its inode is the published one when looked at. */
    method Delete() returns (ok: bool)
      requires Valid()
      requires published.Some? ==> !Untouched() && now == Some(planned) && published == Some(planned.inode)
      modifies this`now, this`trail, this`done
      ensures Valid() && (ok <==> DeletesOwn())
      ensures ok && published.Some? ==> now == AfterDelete()
      ensures ok && !Untouched() ==> Theirs(now)
      ensures published.None? ==> now == old(now)
      ensures ok ==> done == old(done) + if published.Some? && Recognised() then {Deleting} else {}
      ensures !ok ==> done == old(done)
    {
      if published.None? {
        return true;
      }
      Meddle(ToDelete(false));
      if now.Some? && fails(LookOwn) {
        return false;
      }
      ok := true;
      if now.Some? && now.value.inode == published.value {
        ok := RemoveOwn();
      }
    }

    /** `rmSync`, after the look has recognised the target: whatever is there by now goes. */
    method RemoveOwn() returns (ok: bool)
      requires Valid() && !Untouched() && Recognised() && now == Applied(plan(ToDelete(false)), Some(planned))
      modifies this`now, this`trail, this`done
      ensures Valid() && (ok <==> !fails(Remove) && !plan(ToDelete(true)).Clear?)
      ensures ok ==> now.None? && done == old(done) + {Deleting}
      ensures !ok ==> done == old(done)
    {
      Meddle(ToDelete(true));
      if fails(Remove) || now.None? {
        return false;
      }
      now := None;
      Log(true, {Deleting});
      ok := true;
    }

    predicate RestoreGoes(at: Option<Item<T>>) {
      Applied(plan(ToRestore(false)), at).None? && !fails(PutBack) && Yields(ToRestore(true))
    }

    /** Where there was something it is back, and where there was nothing the run left nothing. */
    ghost predicate Restored()
      reads this
    {
      if first.Some? then now == first else Theirs(now)
    }

    /** Renames what was saved back to a target that was free when looked at. */
    method Restore() returns (ok: bool)
      requires Valid() && backed == saved.Some? && (!Untouched() ==> Theirs(now))
      modifies this`now, this`saved, this`trail, this`done
      ensures Valid() && (ok <==> RestoresOwn(old(now)))
      ensures ok ==> Restored()
      ensures done == old(done) + if ok && backed then {Restoring} else {}
    {
      if !backed {
        return true;
      }
      Meddle(ToRestore(false));
      if now.Some? {
        return false;
      }
      ok := ReturnSaved();
    }

    /** From the look at the free target to the rename. */
    method ReturnSaved() returns (ok: bool)
      requires Valid() && now.None? && saved.Some?
      modifies this`now, this`saved, this`trail, this`done
      ensures Valid() && (ok <==> !fails(PutBack) && Yields(ToRestore(true)))
      ensures ok ==> Restored()
      ensures done == old(done) + if ok then {Restoring} else {}
    {
      Meddle(ToRestore(true));
      if fails(PutBack) || (now.Some? && !gives(now.value.contents)) {
        return false;
      }
      now, saved := saved, None;
      Log(true, {Restoring});
      ok := true;
    }

    /** What a rollback that comes to its end has destroyed by then, publication included. */
    function Settled(): set<Act>
      reads this
    {
      (if published.Some? then {Publishing} + (if Recognised() then {Deleting} else {}) else {})
      + (if backed then {Restoring} else {})
    }

    /** Nobody else comes near the target. */
    ghost predicate Quiet() {
      forall m :: plan(m).Leave?
    }

    predicate PublicationFails() {
      fails(Save) || fails(Look) || fails(Move)
    }

    predicate RollbackFails() {
      fails(LookOwn) || fails(Remove) || fails(PutBack)
    }

    /** The original is where it was or saved, and what was published is there as it was staged. */
    ghost predicate Underway()
      reads this
    {
      && Valid() && backed == saved.Some?
      && (if published.Some? then !Untouched() && now == Some(planned) && published == Some(planned.inode) && done == {Publishing}
          else done == {})
    }

    /** The target, when the rollback comes to restoring it. */
    function ToReturn(): Option<Item<T>>
      reads this
    {
      if published.Some? then AfterDelete() else now
    }

    /** After publication, what the rollback of this target needs. */
    predicate Returns() {
      DeleteGoes() && (Found().Some? ==> RestoreGoes(AfterDelete()))
    }

    lemma QuietRollBackGoes()
      requires Underway() && Quiet() && !RollbackFails()
      ensures RollBackGoes()
    {
      if backed {
        assert !Untouched();
        assert ToReturn().None?;
        assert plan(ToRestore(false)).Leave? && plan(ToRestore(true)).Leave?;
      }
      assert plan(ToDelete(true)).Leave?;
    }

    /** Both halves of the rollback of this target come to their end. */
    predicate RollBackGoes()
      reads this
    {
      DeletesOwn() && RestoresOwn(ToReturn())
    }

    predicate DeletesOwn()
      reads this
    {
      published.Some? ==> DeleteGoes()
    }

    predicate RestoresOwn(at: Option<Item<T>>)
      reads this
    {
      backed ==> RestoreGoes(at)
    }

    /** What was published is gone, as far as it was recognised, and what was saved not yet back. */
    ghost predicate Cleared()
      reads this
    {
      && backed == saved.Some? && (!Untouched() ==> Theirs(now))
      && done == if published.Some? then {Publishing} + (if Recognised() then {Deleting} else {}) else {}
    }
  }

  // ---- the run ---------------------------------------------------------------------------------

  /** Calls that are about no target alone: both directories, the staged files, their checks and the record; syncs. */
  datatype Whole = Directories | Staging | Record | SyncSaved | Finish | SyncBack

  datatype Outcome =
    | Published
    | Unchanged                    // failed before anything was moved
    | RolledBack                   // "original configuration restored"
    | RollbackFailed               // recovery evidence retained

  function ContentsOf<T>(item: Option<Item<T>>, none: T): T {
    if item.Some? then item.value.contents else none
  }

  class Publisher {
    const generated: Tree
    const staged: Tree
    const root: Target<Tree>
    const manifest: Target<string>
    const fails: Whole -> bool

    constructor (generated: Tree, root: Setting<Tree>, manifest: Setting<string>, fails: Whole -> bool)
      requires MANIFEST in generated
      ensures Valid() && this.root.Fresh() && this.manifest.Fresh() && fresh(this.root) && fresh(this.manifest)
      ensures this.generated == generated
      ensures this.root.first == root.first && this.root.plan == root.plan && this.root.fails == root.fails
      ensures this.manifest.first == manifest.first && this.manifest.plan == manifest.plan && this.manifest.fails == manifest.fails
      ensures this.root.planned.inode == root.inode && this.manifest.planned.inode == manifest.inode && this.fails == fails
    {
      var files := Preserve(generated, if manifest.first.Some? then Some(manifest.first.value.contents) else None,
                            ContentsOf(root.first, map[]));
      var tree, text := StagedRoot(files), StagedManifest(files);
      this.generated, staged, this.fails := generated, files, fails;
      this.root := new Target<Tree>(root, tree, (t: Tree) => StrangeTree(t, tree), (t: Tree) => t == map[]);
      this.manifest := new Target<string>(manifest, text, (t: string) => t != text, (t: string) => true);
    }

    /** Renaming a file onto another replaces it, a directory only an empty one; theirs is what was not staged. */
    ghost predicate Targets()
    {
      && MANIFEST in generated && staged == Preserve(generated, OldManifest(), OldRoot())
      && root.planned.contents == StagedRoot(staged) && manifest.planned.contents == StagedManifest(staged)
      && (forall t :: root.strange(t) <==> StrangeTree(t, StagedRoot(staged)))
      && (forall t :: root.gives(t) <==> t == map[])
      && (forall t :: manifest.strange(t) <==> t != StagedManifest(staged))
      && (forall t :: manifest.gives(t))
    }

    function OldManifest(): Option<string> {
      if manifest.first.Some? then Some(manifest.first.value.contents) else None
    }

    function OldRoot(): Tree {
      ContentsOf(root.first, map[])
    }

    /** The targets hold the new setup, path by path, and nothing else. */
    ghost predicate HoldNewSetup()
      reads root, manifest
    {
      && manifest.now.Some? && Some(manifest.now.value.contents) == TextAt(generated, OldManifest(), OldRoot(), "fleet.yaml")
      && root.now.Some?
      && forall path :: At(root.now.value.contents, path) ==
                          if path == "fleet.yaml" then None else TextAt(generated, OldManifest(), OldRoot(), path)
    }

    lemma PlannedIsNewSetup()
      requires Targets() && root.now == Some(root.planned) && manifest.now == Some(manifest.planned)
      ensures HoldNewSetup()
    {
      StagedPathByPath(generated, OldManifest(), OldRoot(), MANIFEST);
      forall path ensures At(root.planned.contents, path) ==
                            if path == "fleet.yaml" then None else TextAt(generated, OldManifest(), OldRoot(), path)
      {
        StagedPathByPath(generated, OldManifest(), OldRoot(), path);
      }
    }

    ghost predicate Valid()
      reads root, manifest
    {
      (root as object) != manifest && Targets() && root.Valid() && manifest.Valid()
    }

    ghost predicate Underway()
      reads root, manifest
    {
      Valid() && root.Underway() && manifest.Underway()
    }

    predicate Started()
      reads root, manifest
    {
      root.backed || manifest.backed || root.published.Some? || manifest.published.Some?
    }

    // ---- when publication gets how far ----

    predicate Prepares() {
      !fails(Directories) && !fails(Staging) && !fails(Record)
    }

    predicate BacksUp() {
      root.SaveGoes() && manifest.SaveGoes() && !fails(SyncSaved)
    }

    predicate PublishesBoth() {
      Prepares() && BacksUp() && root.PublishGoes() && manifest.PublishGoes()
    }

    /** All there was is in the recovery directory. */
    ghost predicate Saved()
      reads root, manifest
    {
      && (root.first.Some? ==> root.saved == root.first) && root.backed == root.Found().Some?
      && (manifest.first.Some? ==> manifest.saved == manifest.first) && manifest.backed == manifest.Found().Some?
    }

    /** What is at the targets goes to the recovery directory. */
    method BackUp() returns (ok: bool)
      requires Valid() && root.now == root.first && manifest.now == manifest.first
      requires root.saved.None? && !root.backed && root.published.None? && root.done == {}
      requires manifest.saved.None? && !manifest.backed && manifest.published.None? && manifest.done == {}
      modifies root`now, root`saved, root`backed, root`trail, root`done
      modifies manifest`now, manifest`saved, manifest`backed, manifest`trail, manifest`done
      ensures Underway() && root.done == {} && manifest.done == {} && (ok <==> BacksUp())
      ensures ok ==> root.now.None? && manifest.now.None? && Saved()
    {
      ok := root.SaveAway();
      if !ok { return; }
      ok := manifest.SaveAway();
      if !ok { return; }
      ok := !fails(SyncSaved);
    }

    /** The staged pair to its targets, root first. */
    method PublishBoth() returns (ok: bool)
      requires Underway() && root.published.None? && manifest.published.None?
      requires root.now.None? && !root.Untouched() && root.stage == Some(root.planned)
      requires manifest.now.None? && !manifest.Untouched() && manifest.stage == Some(manifest.planned)
      modifies root`now, root`stage, root`published, root`trail, root`done
      modifies manifest`now, manifest`stage, manifest`published, manifest`trail, manifest`done
      ensures Underway() && (ok <==> root.PublishGoes() && manifest.PublishGoes() && !fails(Finish))
      ensures root.published.Some? <==> root.PublishGoes()
      ensures manifest.published.Some? <==> root.PublishGoes() && manifest.PublishGoes()
    {
      ok := root.Publish();
      if !ok { return; }
      ok := manifest.Publish();
      if !ok { return; }
      ok := !fails(Finish);            // the published configuration loads, and the stage is removed
    }

    /** The `try` block. */
    method Attempt() returns (ok: bool)
      requires Valid() && root.Fresh() && manifest.Fresh()
      modifies root, manifest
      ensures Underway() && (ok <==> PublishesBoth() && !fails(Finish))
      ensures root.published.Some? <==> Prepares() && BacksUp() && root.PublishGoes()
      ensures manifest.published.Some? <==> PublishesBoth()
      ensures Prepares() && BacksUp() ==> Saved()
    {
      ok := Prepares();
      if !ok { return; }
      root.Prepare();
      manifest.Prepare();
      ok := BackUp();
      if !ok { return; }
      ok := PublishBoth();
    }

    // ---- when the rollback does ----

    predicate RollBackGoes()
      reads root, manifest
    {
      manifest.RollBackGoes() && root.RollBackGoes() && !fails(SyncBack)
    }

    /** After both were published, what the rollback needs. */
    predicate Returns() {
      root.Returns() && manifest.Returns() && !fails(SyncBack)
    }

    ghost predicate Restored()
      reads root, manifest
    {
      root.Restored() && manifest.Restored()
    }

    /** Deletes what is recognised as published, manifest first, then renames the originals back. */
    method RollBack() returns (ok: bool)
      requires Underway()
      modifies root`now, root`saved, root`trail, root`done, manifest`now, manifest`saved, manifest`trail, manifest`done
      ensures Valid() && (ok <==> old(RollBackGoes()))
      ensures ok ==> Restored() && root.done == root.Settled() && manifest.done == manifest.Settled()
    {
      ok := DeletePublished();
      if !ok { return; }
      ok := PutBack();
      if !ok { return; }
      ok := !fails(SyncBack);
    }

    method DeletePublished() returns (ok: bool)
      requires Underway()
      modifies root`now, root`trail, root`done, manifest`now, manifest`trail, manifest`done
      ensures Valid() && (ok <==> root.DeletesOwn() && manifest.DeletesOwn())
      ensures ok ==> root.Cleared() && root.now == old(root.ToReturn())
      ensures ok ==> manifest.Cleared() && manifest.now == old(manifest.ToReturn())
    {
      ok := manifest.Delete();
      if !ok { return; }
      ok := root.Delete();
    }

    method PutBack() returns (ok: bool)
      requires Valid() && root.Cleared() && manifest.Cleared()
      modifies root`now, root`saved, root`trail, root`done, manifest`now, manifest`saved, manifest`trail, manifest`done
      ensures Valid() && (ok <==> old(root.RestoresOwn(root.now)) && old(manifest.RestoresOwn(manifest.now)))
      ensures ok ==> Restored() && root.done == root.Settled() && manifest.done == manifest.Settled()
    {
      ok := root.Restore();
      if !ok { return; }
      ok := manifest.Restore();
    }

    // ---- the whole ----

    ghost predicate Quiet() {
      root.Quiet() && manifest.Quiet()
    }

    predicate PublicationFails() {
      !Prepares() || fails(SyncSaved) || fails(Finish) || root.PublicationFails() || manifest.PublicationFails()
    }

    predicate RollbackFails() {
      fails(SyncBack) || root.RollbackFails() || manifest.RollbackFails()
    }

    /** Directories replace only empty ones, so renames of the root cost nobody anything. */
    lemma RootIsLostByDeletion()
      requires Valid()
      ensures Lost(root.strange, root.trail) <==> Deleting in root.done && root.Costs(Deleting)
    {
      assert forall a :: a in root.done && a != Deleting ==> !root.Costs(a);
    }

    lemma QuietRollBackGoes()
      requires Underway() && Quiet() && !RollbackFails()
      ensures RollBackGoes()
    {
      root.QuietRollBackGoes();
      manifest.QuietRollBackGoes();
    }

    /** The `catch` block. */
    method Recover() returns (outcome: Outcome)
      requires Underway()
      modifies root`now, root`saved, root`trail, root`done, manifest`now, manifest`saved, manifest`trail, manifest`done
      ensures Valid() && !outcome.Published? && (outcome.Unchanged? <==> !old(Started()))
      ensures outcome.Unchanged? ==> Restored() && root.done == {} && manifest.done == {}
      ensures outcome.RolledBack? ==> Restored() && root.done == root.Settled() && manifest.done == manifest.Settled()
      ensures outcome.RolledBack? <==> old(Started() && RollBackGoes())
      ensures Quiet() && outcome.RollbackFailed? ==> RollbackFails()
    {
      if !Started() {
        outcome := Unchanged;
      } else {
        if Quiet() && !RollbackFails() {
          QuietRollBackGoes();
        }
        var ok := RollBack();
        outcome := if ok then RolledBack else RollbackFailed;
      }
    }

    /** With both published, the rollback needs what `Returns` says. */
    lemma PublishedReturns()
      requires Underway() && root.published.Some? && manifest.published.Some? && Saved()
      ensures RollBackGoes() <==> Returns()
    {}

    /**
     * All or nothing.  Whatever throws and whatever others do: the originals exist whole in every
     * state; success publishes the staged pair and keeps the originals, and comes exactly when no
     * call about publication throws and nobody is in the way; a failure that reports the
     * configuration as unchanged or restored leaves both targets as they were, up to what other
     * processes put where there was nothing.  Undisturbed, it takes a second failing call to stop
     * the rollback.
     *
     * A step of the run loses what others wrote if and only if a destroying call went ahead on a
     * target that held it: put there in the gap of that call, or, before a deletion, earlier and
     * under the published inode.  Which calls went ahead is exact for every run that comes to an
     * end of its own.
     */
    method PublishSetup() returns (outcome: Outcome)
      requires Valid() && root.Fresh() && manifest.Fresh()
      modifies root, manifest
      ensures Valid() && AlwaysIntact(root.trail, root.first) && AlwaysIntact(manifest.trail, manifest.first)
      ensures Lost(manifest.strange, manifest.trail) <==> manifest.Costly()
      ensures Lost(root.strange, root.trail) <==> Deleting in root.done && root.Costs(Deleting)
      ensures outcome.Published? <==> PublishesBoth() && !fails(Finish)
      ensures outcome.Published? ==>
                && HoldNewSetup() && Saved()
                && root.now == Some(root.planned) && manifest.now == Some(manifest.planned)
                && root.done == {Publishing} && manifest.done == {Publishing}
      ensures outcome.Unchanged? ==> Restored() && root.done == {} && manifest.done == {}
      ensures outcome.RolledBack? ==> Restored() && root.done == root.Settled() && manifest.done == manifest.Settled()
      ensures PublishesBoth() && fails(Finish) ==>
                && root.published.Some? && manifest.published.Some? && !outcome.Unchanged?
                && (outcome.RolledBack? <==> Returns())
      ensures Quiet() && !outcome.Published? ==> PublicationFails()
      ensures Quiet() && outcome.RollbackFailed? ==> RollbackFails()
    {
      var ok := Attempt();
      if ok {
        outcome := Published;
        PlannedIsNewSetup();
      } else {
        if PublishesBoth() {
          PublishedReturns();
        }
        outcome := Recover();
      }
      RootIsLostByDeletion();
    }
  }

  // ---- losses -----------------------------------------------------------------------------------

  /** A first setup at one target, where others act at one moment only and no call throws. */
  function Once<T>(inode: nat, moment: Moment, m: Meddling<T>): Setting<T> {
    Setting(None, inode, (at: Moment) => if at == moment then m else Leave, (call: Call) => false)
  }

  function Nobody<T>(inode: nat): Setting<T> {
    Setting(None, inode, (at: Moment) => Leave, (call: Call) => false)
  }

  /** Nobody acts in the gap between a look and what follows. */
  ghost predicate NoGapTaken<T>(t: Target<T>) {
    forall m: Moment :: m.gap ==> t.plan(m).Leave?
  }

  method FirstSetup(generated: Tree, root: Setting<Tree>, manifest: Setting<string>, lastCallFails: bool)
    returns (p: Publisher, outcome: Outcome)
    requires MANIFEST in generated && root.first.None? && manifest.first.None?
    ensures fresh(p) && p.Valid() && p.root.plan == root.plan && p.manifest.plan == manifest.plan
    ensures p.root.fails == root.fails && p.manifest.fails == manifest.fails && p.root.first.None? && p.manifest.first.None?
    ensures p.root.planned == Item(root.inode, StagedRoot(generated))
    ensures p.manifest.planned == Item(manifest.inode, generated[MANIFEST])
    ensures Lost(p.manifest.strange, p.manifest.trail) <==> p.manifest.Costly()
    ensures Lost(p.root.strange, p.root.trail) <==> Deleting in p.root.done && p.root.Costs(Deleting)
    ensures !lastCallFails && p.PublishesBoth() ==> outcome.Published? && p.manifest.done == {Publishing}
    ensures lastCallFails && p.PublishesBoth() && p.root.Returns() && p.manifest.Returns() ==>
              && outcome.RolledBack? && p.root.published.Some? && p.manifest.published.Some?
              && p.root.done == p.root.Settled() && p.manifest.done == p.manifest.Settled()
    ensures p.PublishesBoth() <==> p.root.SaveGoes() && p.manifest.SaveGoes() && p.root.PublishGoes() && p.manifest.PublishGoes()
  {
    p := new Publisher(generated, root, manifest, (w: Whole) => lastCallFails && w == Finish);
    assert p.staged == generated;
    outcome := p.PublishSetup();
  }

  /** A manifest another process creates after the look at a free target is replaced. */
  method TheirManifestIsReplaced(generated: Tree, theirs: Item<string>) returns (p: Publisher, outcome: Outcome)
    requires MANIFEST in generated && theirs.contents != generated[MANIFEST]
    ensures fresh(p) && p.Valid() && outcome.Published? && Lost(p.manifest.strange, p.manifest.trail)
  {
    p, outcome := FirstSetup(generated, Nobody(0), Once(1, ToPublish(true), Put(theirs)), false);
    assert p.manifest.Costs(Publishing);
  }

  /** One another process puts in place of the published manifest, once its inode was compared, is deleted. */
  method TheirManifestIsDeleted(generated: Tree, theirs: Item<string>) returns (p: Publisher, outcome: Outcome)
    requires MANIFEST in generated && theirs.contents != generated[MANIFEST]
    ensures fresh(p) && p.Valid() && outcome.RolledBack? && Lost(p.manifest.strange, p.manifest.trail)
  {
    p, outcome := FirstSetup(generated, Nobody(0), Once(1, ToDelete(true), Put(theirs)), true);
    assert p.manifest.Recognised();
    assert p.manifest.Costs(Deleting);
  }

  /** What another process writes into the published manifest, or under its freed inode, is deleted: in no gap. */
  method TheirEditIsDeleted(generated: Tree, theirs: string) returns (p: Publisher, outcome: Outcome)
    requires MANIFEST in generated && theirs != generated[MANIFEST]
    ensures fresh(p) && p.Valid() && NoGapTaken(p.manifest) && NoGapTaken(p.root)
    ensures outcome.RolledBack? && Lost(p.manifest.strange, p.manifest.trail)
  {
    p, outcome := FirstSetup(generated, Nobody(0), Once(1, ToDelete(false), Put(Item(1, theirs))), true);
    assert p.manifest.Recognised();
    assert p.manifest.Costs(Deleting);
  }

  /** And so is a file it adds to the published root. */
  method TheirFileIsDeleted(generated: Tree, path: string, text: string) returns (p: Publisher, outcome: Outcome)
    requires MANIFEST in generated && path !in generated
    ensures fresh(p) && p.Valid() && NoGapTaken(p.manifest) && NoGapTaken(p.root)
    ensures outcome.RolledBack? && Lost(p.root.strange, p.root.trail)
  {
    var tree := StagedRoot(generated)[path := text];
    p, outcome := FirstSetup(generated, Once(0, ToDelete(false), Put(Item(0, tree))), Nobody(1), true);
    assert p.root.Recognised();
    assert p.root.strange(tree) by { assert path in tree && path !in p.root.planned.contents; }
    assert p.root.Costs(Deleting);
  }
}
