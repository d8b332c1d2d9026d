/**
 * The holder-counted Codex rules files: which roles need a generated file is kept in a registry
 * under a lock, so that a file is shared, never narrowed for another holder, and removed with
 * its last one.  Each operation runs under `withSynchronousFileLock`, hence as one step.
 */
module RulesRegistry {
  import opened Options

  type Path = string
  type Holder = string
  type Workflow = string

  datatype Paths = Paths(node: string, cli: string, configuration: string)

  /** A file with a readable Fleet header, or anything else. */
  datatype File = Rules(paths: Paths, workflows: set<Workflow>, body: string) | Foreign(text: string)

  datatype Entry = Entry(configuration: string, holders: set<Holder>)

  datatype Action = Created | Updated | Unchanged | Conflict

  datatype Op =
    | AcquireOp(path: Path, paths: Paths, workflows: set<Workflow>, holder: Holder)
    | ReleaseOp(holder: Holder, keep: Option<Path>)
    | ReconcileOp(configuration: string, expected: map<Path, set<Holder>>, gone: set<string>, alive: set<Holder>)

  /** What every holder of every path last acquired it with. */
  type Wants = map<Path, map<Holder, set<Workflow>>>

  predicate HeldByOther(entry: Entry, holder: Holder) {
    exists name :: name in entry.holders && name != holder
  }

  predicate ForeignAt(disk: map<Path, File>, path: Path) {
    path in disk && disk[path].Foreign?
  }

  /** A path's file and holders serve what the holders last asked for. */
  predicate Served(known: set<Workflow>, entry: Entry, file: File, wants: map<Holder, set<Workflow>>) {
    && entry.holders != {} && entry.holders == wants.Keys && file.Rules?
    && forall h :: h in wants ==> wants[h] <= known && wants[h] <= file.workflows
  }

  /** Without outside edits: a generated file exists exactly where somebody holds it, and serves them all. */
  predicate Consistent(known: set<Workflow>, entries: map<Path, Entry>, disk: map<Path, File>, wants: Wants) {
    && wants.Keys == entries.Keys
    && (forall p :: p in entries ==> p in disk && Served(known, entries[p], disk[p], wants[p]))
    && (forall p :: p in disk && disk[p].Rules? ==> p in entries)
  }

  function Asked(wants: Wants, path: Path, holder: Holder, workflows: set<Workflow>): Wants {
    wants[path := (if path in wants then wants[path] else map[])[holder := workflows]]
  }

  /** Whoever else holds the file keeps what it serves; the only holder may narrow it. */
  lemma AcquireServes(known: set<Workflow>, entries: map<Path, Entry>, disk: map<Path, File>, wants: Wants,
                      path: Path, entry: Entry, file: File, holder: Holder, workflows: set<Workflow>)
    requires Consistent(known, entries, disk, wants) && workflows <= known
    requires path in entries ==> entry == entries[path]
    requires path !in entries ==> entry.holders == {}
    requires file.Rules? && workflows <= file.workflows
    requires path in disk && HeldByOther(entry, holder) ==> disk[path].Rules? && disk[path].workflows * known <= file.workflows
    ensures Consistent(known, entries[path := entry.(holders := entry.holders + {holder})], disk[path := file],
                       Asked(wants, path, holder, workflows))
  {
    var asked := if path in wants then wants[path] else map[];
    var entry' := entry.(holders := entry.holders + {holder});
    assert asked.Keys == entry.holders;
    forall h | h in asked && h != holder ensures asked[h] <= known && asked[h] <= file.workflows {
      assert path in entries && Served(known, entries[path], disk[path], wants[path]);
    }
    assert Served(known, entry', file, asked[holder := workflows]);
  }

  /** A path's holders become `holders`; a generated file nobody holds goes, one that is not Fleet's stays. */
  function Left(disk: map<Path, File>, path: Path, holders: set<Holder>): map<Path, File> {
    if holders == {} && path in disk && disk[path].Rules? then disk - {path} else disk
  }

  function Kept(entries: map<Path, Entry>, path: Path, holders: set<Holder>): map<Path, Entry>
    requires path in entries
  {
    if holders == {} then entries - {path} else entries[path := entries[path].(holders := holders)]
  }

  /** Holders that never acquired the path have asked for nothing. */
  function StillAsked(wants: Wants, path: Path, holders: set<Holder>): Wants
    requires path in wants
  {
    if holders == {} then wants - {path}
    else wants[path := map h | h in holders :: if h in wants[path] then wants[path][h] else {}]
  }

  lemma SettleServes(known: set<Workflow>, entries: map<Path, Entry>, disk: map<Path, File>, wants: Wants,
                     path: Path, holders: set<Holder>)
    requires Consistent(known, entries, disk, wants) && path in entries
    ensures Consistent(known, Kept(entries, path, holders), Left(disk, path, holders), StillAsked(wants, path, holders))
  {
    assert Served(known, entries[path], disk[path], wants[path]);
    if holders != {} {
      assert StillAsked(wants, path, holders)[path].Keys == holders;
      assert Served(known, entries[path].(holders := holders), disk[path], StillAsked(wants, path, holders)[path]);
    }
  }

  /** What an operation does about one entry: nothing, or new holders. */
  type Plan = (Path, Entry) -> Option<set<Holder>>

  function ReleasePlan(holder: Holder, keep: Option<Path>): Plan {
    (path: Path, entry: Entry) =>
      if Some(path) == keep || holder !in entry.holders then None else Some(entry.holders - {holder})
  }

  /** `gone` are the configurations that no longer exist, `alive` the temporary holders that still do. */
  function ReconcilePlan(configuration: string, expected: map<Path, set<Holder>>, gone: set<string>, alive: set<Holder>): Plan {
    (path: Path, entry: Entry) =>
      var obsolete := entry.configuration != configuration && entry.configuration in gone;
      if entry.configuration != configuration && !obsolete then None
      else if obsolete then Some({})
      else Some((if path in expected then expected[path] else {}) + (entry.holders * alive))
  }

  predicate Dropped(plan: Plan, path: Path, entry: Entry) {
    plan(path, entry) == Some({})
  }

  function Planned(plan: Plan, path: Path, entry: Entry): Entry {
    match plan(path, entry)
    case None => entry
    case Some(holders) => entry.(holders := holders)
  }

  /** `entries` and `disk` are `before` and `was` with the plan carried out outside `todo`. */
  ghost predicate CarriedOut(plan: Plan, before: map<Path, Entry>, was: map<Path, File>,
                             entries: map<Path, Entry>, disk: map<Path, File>, todo: set<Path>) {
    && (forall p :: p in entries <==> p in before && (p in todo || !Dropped(plan, p, before[p])))
    && (forall p :: p in entries ==> entries[p] == if p in todo then before[p] else Planned(plan, p, before[p]))
    && (forall p :: p in disk <==>
          p in was && !(p in before && p !in todo && Dropped(plan, p, before[p]) && was[p].Rules?))
    && (forall p :: p in disk ==> disk[p] == was[p])
  }

  lemma CarriedOneMore(plan: Plan, before: map<Path, Entry>, was: map<Path, File>,
                       entries: map<Path, Entry>, disk: map<Path, File>, todo: set<Path>, path: Path)
    requires CarriedOut(plan, before, was, entries, disk, todo) && path in todo && path in entries
    ensures match plan(path, entries[path])
            case None => CarriedOut(plan, before, was, entries, disk, todo - {path})
            case Some(holders) =>
              CarriedOut(plan, before, was, Kept(entries, path, holders), Left(disk, path, holders), todo - {path})
  {
    assert entries[path] == before[path];
  }

  class Host {
    const known: set<Workflow>
    const body: (Paths, set<Workflow>) -> string      // the rest of the rendered file
    var entries: map<Path, Entry>
    var disk: map<Path, File>
    ghost var wants: Wants

    constructor (known: set<Workflow>, body: (Paths, set<Workflow>) -> string, disk: map<Path, File>)
      ensures this.disk == disk && entries == map[]
      ensures (forall p :: p in disk ==> disk[p].Foreign?) ==> Valid()
    {
      this.known, this.body, this.disk, entries, wants := known, body, disk, map[], map[];
    }

    function Render(paths: Paths, workflows: set<Workflow>): File {
      Rules(paths, workflows, body(paths, workflows))
    }

    ghost predicate Valid()
      reads this
    {
      Consistent(known, entries, disk, wants)
    }

    /** Files that are not Fleet's are as they were. */
    twostate predicate ForeignUntouched()
      reads this
    {
      forall p :: ForeignAt(old(disk), p) ==> p in disk && disk[p] == old(disk)[p]
    }

    /** Writes the file and records the holder. */
    method Grant(path: Path, content: File, entry: Entry, holder: Holder, workflows: set<Workflow>)
      requires if path in entries then entry == entries[path] else entry.holders == {}
      requires workflows <= known && content.Rules? && workflows <= content.workflows && !ForeignAt(disk, path)
      requires path in disk && HeldByOther(entry, holder) ==> disk[path].workflows * known <= content.workflows
      modifies this
      ensures disk == old(disk)[path := content] && wants == Asked(old(wants), path, holder, workflows)
      ensures entries == old(entries)[path := entry.(holders := entry.holders + {holder})]
      ensures old(Valid()) ==> Valid()
    {
      if Valid() {
        AcquireServes(known, entries, disk, wants, path, entry, content, holder, workflows);
      }
      disk := disk[path := content];
      entries := entries[path := entry.(holders := entry.holders + {holder})];
      wants := Asked(wants, path, holder, workflows);
    }

    function EntryFor(path: Path, paths: Paths): Entry
      reads this
    {
      if path in entries then entries[path] else Entry(paths.configuration, {})
    }

    /** The file serves `holder` what it asks for now, and every other holder what it asked for before. */
    method Acquire(path: Path, paths: Paths, workflows: set<Workflow>, holder: Holder) returns (action: Action)
      requires workflows <= known
      modifies this
      ensures ForeignUntouched() && (old(Valid()) ==> Valid())
      ensures action.Conflict? <==> ForeignAt(old(disk), path)
      ensures action.Conflict? ==> entries == old(entries) && disk == old(disk)
      ensures !action.Conflict? ==>
                && path in disk && disk == old(disk)[path := disk[path]] && disk[path].Rules?
                && disk[path] == Rules(paths, disk[path].workflows, body(paths, disk[path].workflows))
                && wants == Asked(old(wants), path, holder, workflows)
                && entries == old(entries)[path :=
                     if path in old(entries)
                     then Entry(old(entries)[path].configuration, old(entries)[path].holders + {holder})
                     else Entry(paths.configuration, {holder})]
      ensures !action.Conflict? ==>
                disk[path].workflows ==
                  if path in old(disk) && path in old(entries) && (exists h :: h in old(entries)[path].holders && h != holder)
                  then (old(disk)[path].workflows * known) + workflows else workflows
      ensures action.Created? <==> path !in old(disk)
      ensures action.Unchanged? <==> !action.Conflict? && path in old(disk) && disk == old(disk)
    {
      var entry := EntryFor(path, paths);
      if path in disk && disk[path].Foreign? {
        return Conflict;
      }
      var others := if path in disk && HeldByOther(entry, holder) then disk[path].workflows else {};
      var content := Render(paths, (others + workflows) * known);
      action := if path !in disk then Created else if disk[path] == content then Unchanged else Updated;
      assert entry.holders == {} ==> entry.holders + {holder} == {holder};
      Grant(path, content, entry, holder, workflows);
    }

    method Settle(path: Path, holders: set<Holder>)
      requires path in entries
      modifies this
      ensures entries == Kept(old(entries), path, holders) && disk == Left(old(disk), path, holders)
      ensures old(Valid()) ==> Valid()
    {
      if Valid() {
        SettleServes(known, entries, disk, wants, path, holders);
      }
      entries, disk := Kept(entries, path, holders), Left(disk, path, holders);
      if path in wants {
        wants := StillAsked(wants, path, holders);
      }
    }

    /** The loop over the registry that releasing and reconciling share. */
    method CarryOut(plan: Plan)
      modifies this
      ensures CarriedOut(plan, old(entries), old(disk), entries, disk, {})
      ensures old(Valid()) ==> Valid()
    {
      var todo := entries.Keys;
      while todo != {}
        invariant todo <= old(entries).Keys && todo <= entries.Keys
        invariant CarriedOut(plan, old(entries), old(disk), entries, disk, todo)
        invariant old(Valid()) ==> Valid()
        decreases |todo|
      {
        var path :| path in todo;
        var holders := plan(path, entries[path]);
        CarriedOneMore(plan, old(entries), old(disk), entries, disk, todo, path);
        if holders.Some? {
          Settle(path, holders.value);
        }
        todo := todo - {path};
      }
    }

    /** The path is as it was. */
    twostate predicate Stays(path: Path)
      reads this
    {
      && (path in entries <==> path in old(entries)) && (path in entries ==> entries[path] == old(entries)[path])
      && (path in disk <==> path in old(disk)) && (path in disk ==> disk[path] == old(disk)[path])
    }

    /** The path has these holders now; without any it is forgotten, and its file gone if it was Fleet's. */
    twostate predicate HeldBy(path: Path, holders: set<Holder>)
      requires path in old(entries)
      reads this
    {
      && (path in disk ==> path in old(disk) && disk[path] == old(disk)[path])
      && if holders != {} then
           path in entries && entries[path] == Entry(old(entries)[path].configuration, holders) && (path in old(disk) ==> path in disk)
         else
           path !in entries && (path in disk <==> path in old(disk) && old(disk)[path].Foreign?)
    }

    /** Drops `holder` everywhere but at `keep`. */
    method Release(holder: Holder, keep: Option<Path>)
      modifies this
      ensures forall path :: path in old(entries) && holder in old(entries)[path].holders && keep != Some(path) ==>
                HeldBy(path, set h | h in old(entries)[path].holders && h != holder)
      ensures forall path :: path in old(entries) && (holder !in old(entries)[path].holders || keep == Some(path)) ==> Stays(path)
      ensures forall path :: path !in old(entries) ==> Stays(path)
      ensures CarriedOut(ReleasePlan(holder, keep), old(entries), old(disk), entries, disk, {})
      ensures ForeignUntouched() && (old(Valid()) ==> Valid())
    {
      CarryOut(ReleasePlan(holder, keep));
      forall path | path in old(entries) && holder in old(entries)[path].holders && keep != Some(path)
        ensures HeldBy(path, set h | h in old(entries)[path].holders && h != holder)
      {
        assert (set h | h in old(entries)[path].holders && h != holder) == old(entries)[path].holders - {holder};
      }
    }

    /** Brings the entries of one configuration in line with what is declared. */
    method Reconcile(configuration: string, expected: map<Path, set<Holder>>, gone: set<string>, alive: set<Holder>)
      modifies this
      ensures forall path :: path in old(entries) && old(entries)[path].configuration == configuration ==>
                HeldBy(path, (if path in expected then expected[path] else {})
                             + set h | h in old(entries)[path].holders && h in alive)
      ensures forall path :: path in old(entries) && old(entries)[path].configuration != configuration ==>
                if old(entries)[path].configuration in gone then HeldBy(path, {}) else Stays(path)
      ensures forall path :: path !in old(entries) ==> Stays(path)
      ensures CarriedOut(ReconcilePlan(configuration, expected, gone, alive), old(entries), old(disk), entries, disk, {})
      ensures ForeignUntouched() && (old(Valid()) ==> Valid())
    {
      CarryOut(ReconcilePlan(configuration, expected, gone, alive));
      forall path | path in old(entries) && old(entries)[path].configuration == configuration
        ensures HeldBy(path, (if path in expected then expected[path] else {})
                             + set h | h in old(entries)[path].holders && h in alive)
      {
        assert (set h | h in old(entries)[path].holders && h in alive) == old(entries)[path].holders * alive;
      }
    }

    /** Any sequence of operations, on a disk that starts with no generated file or is consistent. */
    method Drive(ops: seq<Op>)
      requires Valid()
      requires forall k :: 0 <= k < |ops| && ops[k].AcquireOp? ==> ops[k].workflows <= known
      modifies this
      ensures Valid() && ForeignUntouched()
    {
      for k := 0 to |ops|
        invariant Valid() && ForeignUntouched()
      {
        match ops[k]
        case AcquireOp(path, paths, workflows, holder) => var _ := Acquire(path, paths, workflows, holder);
        case ReleaseOp(holder, keep) => Release(holder, keep);
        case ReconcileOp(configuration, expected, gone, alive) => Reconcile(configuration, expected, gone, alive);
      }
    }
  }

  /**
   * What consistency says of one path: Fleet's file is there if and only if somebody holds it,
   * and then it has every workflow any of its holders last acquired.
   */
  lemma FileIffHeld(known: set<Workflow>, entries: map<Path, Entry>, disk: map<Path, File>, wants: Wants, path: Path)
    requires Consistent(known, entries, disk, wants)
    ensures (path in disk && disk[path].Rules?) <==> (path in entries && entries[path].holders != {})
    ensures forall h :: path in entries && h in entries[path].holders ==> wants[path][h] <= disk[path].workflows
  {
    if path in entries {
      assert Served(known, entries[path], disk[path], wants[path]);
    }
  }
}
