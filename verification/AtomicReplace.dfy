/**
 * `replaceFileAtomically`: a temporary file written in a loop of short writes, made durable,
 * then renamed over the target.  Every system call may fail, as the caller's `Faults` say.
 */
module AtomicReplace {
  import opened Options

  type Path = string
  type Bytes = seq<bv8>
  type Files = map<Path, Bytes>

  /** What each call answers: `writes[k]` is the count the k-th write returns, `None` a throw. */
  datatype Faults = Faults(
    opens: bool, writes: seq<Option<int>>, fsyncs: bool, closes: bool,
    removes: bool, renames: bool, syncsDirectory: bool)

  /** The files of one directory, with every state a concurrent reader could have opened. */
  class Directory {
    var files: Files
    ghost var trail: seq<Files>

    constructor (initial: Files)
      ensures files == initial && trail == [initial]
    {
      files := initial;
      trail := [initial];
    }

    method Put(path: Path, contents: Bytes)
      modifies this
      ensures files == old(files)[path := contents] && trail == old(trail) + [files]
    {
      files := files[path := contents];
      trail := trail + [files];
    }

    method Remove(path: Path)
      modifies this
      ensures files == old(files) - {path} && trail == old(trail) + [files]
    {
      files := files - {path};
      trail := trail + [files];
    }

    method Rename(from: Path, to: Path)
      requires from in files && from != to
      modifies this
      ensures files == (old(files) - {from})[to := old(files)[from]] && trail == old(trail) + [files]
    {
      files := (files - {from})[to := files[from]];
      trail := trail + [files];
    }
  }

  datatype Outcome = Replaced | ReplacedNotDurable | Failed

  /** `files` is `before` up to the temporary file, with `path` either untouched or complete. */
  ghost predicate NeverPartial(files: Files, before: Files, path: Path, contents: Bytes, tmp: Path) {
    files - {tmp} == before || files - {tmp} == before[path := contents]
  }

  /** What has been seen since `seen` states ago never shows a partial target. */
  ghost predicate NeverPartialSince(trail: seq<Files>, seen: nat, before: Files, path: Path, contents: Bytes, tmp: Path) {
    forall k :: seen <= k < |trail| ==> NeverPartial(trail[k], before, path, contents, tmp)
  }

  /** The kernel takes at most what it is offered; a missing answer takes everything. */
  function Accepted(answers: seq<Option<int>>, k: nat, offered: nat): Option<int> {
    if k >= |answers| then Some(offered)
    else match answers[k]
      case None => None
      case Some(n) => Some(if n > offered then offered else n)
  }

  predicate EveryWriteAdvances(answers: seq<Option<int>>) {
    forall k :: 0 <= k < |answers| ==> answers[k].Some? && answers[k].value > 0
  }

  /** The write loop: true means that the temporary file holds exactly `contents`. */
  method WriteAll(dir: Directory, tmp: Path, contents: Bytes, answers: seq<Option<int>>) returns (ok: bool)
    requires tmp in dir.files && dir.files[tmp] == []
    modifies dir
    ensures tmp in dir.files && dir.files - {tmp} == old(dir.files) - {tmp}
    ensures ok ==> dir.files[tmp] == contents
    ensures EveryWriteAdvances(answers) ==> ok
    ensures |dir.trail| >= |old(dir.trail)| && dir.trail[..|old(dir.trail)|] == old(dir.trail)
    ensures forall k :: |old(dir.trail)| <= k < |dir.trail| ==> dir.trail[k] - {tmp} == old(dir.files) - {tmp}
  {
    var written, calls := 0, 0;
    while written < |contents|
      invariant 0 <= written <= |contents|
      invariant tmp in dir.files && dir.files[tmp] == contents[..written]
      invariant dir.files - {tmp} == old(dir.files) - {tmp}
      invariant |dir.trail| >= |old(dir.trail)| && dir.trail[..|old(dir.trail)|] == old(dir.trail)
      invariant forall k :: |old(dir.trail)| <= k < |dir.trail| ==> dir.trail[k] - {tmp} == old(dir.files) - {tmp}
      decreases |contents| - written
    {
      var advanced := Accepted(answers, calls, |contents| - written);
      if advanced.None? || advanced.value <= 0 {
        return false;
      }
      dir.Put(tmp, dir.files[tmp] + contents[written..written + advanced.value]);
      written, calls := written + advanced.value, calls + 1;
    }
    assert contents[..written] == contents;
    ok := true;
  }

  /**
   * A reader sees the old contents or the new ones, never part of them; a failure before the
   * rename leaves every file but the temporary one as it was; only a durable replace fails
   * after the rename.
   */
  method ReplaceFileAtomically(
    dir: Directory, path: Path, contents: Bytes, durable: bool, tmp: Path, faults: Faults)
    returns (outcome: Outcome)
    requires tmp != path && tmp !in dir.files
    modifies dir
    ensures |dir.trail| >= |old(dir.trail)| && dir.trail[..|old(dir.trail)|] == old(dir.trail)
    ensures NeverPartialSince(dir.trail, |old(dir.trail)|, old(dir.files), path, contents, tmp)
    ensures EveryWriteAdvances(faults.writes) && faults.opens && faults.fsyncs && faults.closes && faults.renames
            ==> !outcome.Failed?
    ensures outcome.Failed? ==> dir.files - {tmp} == old(dir.files)
    ensures outcome.Failed? && faults.removes ==> dir.files == old(dir.files)
    ensures !outcome.Failed? ==> dir.files == old(dir.files)[path := contents]
    ensures outcome.ReplacedNotDurable? <==> !faults.syncsDirectory && durable && !outcome.Failed?
  {
    ghost var before := dir.files;
    assert before - {tmp} == before;
    if !faults.opens {
      return Failed;
    }
    dir.Put(tmp, []);
    var ok := WriteAll(dir, tmp, contents, faults.writes);
    if !ok || !faults.fsyncs || !faults.closes || !faults.renames {
      // a temporary file that was not finished, or could not be renamed, is cleaned up
      if faults.removes {
        dir.Remove(tmp);
      }
      return Failed;
    }
    dir.Rename(tmp, path);
    assert dir.files == before[path := contents];
    assert dir.files - {tmp} == dir.files;
    outcome := if durable && !faults.syncsDirectory then ReplacedNotDurable else Replaced;
  }
}
