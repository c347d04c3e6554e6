/**
 The multi-file update: stage, back up, mark, rename, mark committed, clean up, and the
 recovery that undoes or finishes it.  Every disk operation may succeed, throw, or be the last
 one of its process.  One command runs at a time.
 */
module Txn {
  import opened Wrappers

  type Path = string

  datatype Target = Target(path: Path, existed: bool)

  datatype PendingUpdate = PendingUpdate(committed: bool, files: seq<Target>)

  /** The marker's text stands for the update it encodes. */
  datatype Contents = Bytes(text: string) | Marker(update: PendingUpdate)

  datatype File = File(contents: Contents, mode: nat)

  datatype FileChange = FileChange(path: Path, contents: Contents, mode: Option<nat>)

  type Files = map<Path, File>

  const DEFAULT_MODE: nat := 0x1A4
  const MARKER_MODE: nat := 0x180

  function Staged(path: Path): Path { path + ".mpas-new" }

  function Kept(path: Path): Path { path + ".mpas-old" }

  function Temp(marker: Path): Path { marker + ".tmp" }

  function At(files: Files, path: Path): Option<File> {
    if path in files then Some(files[path]) else None
  }

  // ---- the disk -------------------------------------------------------------------------

  /** A write or copy that did not succeed may leave anything in its own file. */
  datatype Fate = Success | Fails(left: Option<File>) | Dies(done: bool, left: Option<File>)

  datatype Outcome = Ok | Threw | Died

  /** What operations `from` to `to` came to: Ok when every one succeeded. */
  ghost predicate Explains(fates: nat -> Fate, from: nat, to: nat, o: Outcome) {
    && from <= to
    && match o
       case Ok => forall n :: from <= n < to ==> fates(n).Success?
       case Threw => exists n :: from <= n < to && fates(n).Fails?
       case Died => exists n :: from <= n < to && fates(n).Dies?
  }

  /** At most one of these operations did not succeed. */
  ghost predicate OneFailure(fates: nat -> Fate, from: nat, to: nat) {
    forall m, n :: from <= m < to && from <= n < to && !fates(m).Success? && !fates(n).Success? ==> m == n
  }

  ghost predicate Only(before: Files, after: Files, path: Path) {
    forall q :: q != path ==> At(after, q) == At(before, q)
  }

  function Moved(files: Files, from: Path, to: Path): Files
    requires from in files
  {
    (files - {from})[to := files[from]]
  }

  class Disk {
    var files: Files
    const fates: nat -> Fate
    var operations: nat

    constructor (files: Files, fates: nat -> Fate)
      ensures this.files == files && this.fates == fates && operations == 0
    {
      this.files := files;
      this.fates := fates;
      operations := 0;
    }

    method Next() returns (fate: Fate)
      modifies this`operations
      ensures fate == fates(old(operations)) && operations == old(operations) + 1
    {
      fate := fates(operations);
      operations := operations + 1;
    }

    /** A file that exists keeps its mode when it is rewritten. */
    method Write(path: Path, contents: Contents, mode: nat) returns (o: Outcome)
      modifies this
      ensures operations == old(operations) + 1 && Explains(fates, old(operations), operations, o)
      ensures Only(old(files), files, path)
      ensures o.Ok? ==>
                At(files, path) == Some(File(contents, if path in old(files) then old(files)[path].mode else mode))
    {
      var written := File(contents, if path in files then files[path].mode else mode);
      o := WriteFile(path, written);
    }

    method WriteFile(path: Path, written: File) returns (o: Outcome)
      modifies this
      ensures operations == old(operations) + 1 && Explains(fates, old(operations), operations, o)
      ensures Only(old(files), files, path)
      ensures o.Ok? ==> At(files, path) == Some(written)
    {
      var fate := Next();
      match fate {
        case Success =>
          files := files[path := written];
          return Ok;
        case Fails(left) =>
          files := if left.Some? then files[path := left.value] else files;
          return Threw;
        case Dies(done, left) =>
          files := if done then files[path := written] else if left.Some? then files[path := left.value] else files;
          return Died;
      }
    }

    method Copy(from: Path, to: Path) returns (o: Outcome)
      modifies this
      ensures from in old(files) ==>
                operations == old(operations) + 1 && Explains(fates, old(operations), operations, o)
      ensures Only(old(files), files, to)
      ensures o.Ok? ==>
                from in old(files) && At(files, to).Some? && At(files, to).value.contents == old(files)[from].contents
    {
      if from !in files {
        return Threw;
      }
      o := WriteFile(to, File(files[from].contents, if to in files then files[to].mode else files[from].mode));
    }

    method Chmod(path: Path, mode: nat) returns (o: Outcome)
      modifies this
      ensures path in old(files) ==>
                operations == old(operations) + 1 && Explains(fates, old(operations), operations, o)
      ensures Only(old(files), files, path)
      ensures o.Ok? ==> path in old(files) && At(files, path) == Some(old(files)[path].(mode := mode))
    {
      if path !in files {
        return Threw;
      }
      var fate := Next();
      if fate.Success? || (fate.Dies? && fate.done) {
        files := files[path := files[path].(mode := mode)];
      }
      o := match fate case Success => Ok case Fails(_) => Threw case Dies(_, _) => Died;
    }

    /** A rename happens whole or not at all, and not if it throws. */
    method Rename(from: Path, to: Path) returns (o: Outcome)
      modifies this
      ensures from in old(files) ==>
                operations == old(operations) + 1 && Explains(fates, old(operations), operations, o)
      ensures o.Ok? ==> from in old(files) && files == Moved(old(files), from, to)
      ensures o.Threw? ==> files == old(files)
      ensures o.Died? ==> files == old(files) || (from in old(files) && files == Moved(old(files), from, to))
    {
      if from !in files {
        return Threw;
      }
      var fate := Next();
      if fate.Success? || (fate.Dies? && fate.done) {
        files := Moved(files, from, to);
      }
      o := match fate case Success => Ok case Fails(_) => Threw case Dies(_, _) => Died;
    }

    method Remove(path: Path) returns (o: Outcome)
      modifies this
      ensures operations == old(operations) + 1 && Explains(fates, old(operations), operations, o)
      ensures Only(old(files), files, path)
      ensures At(files, path) == None || At(files, path) == At(old(files), path)
      ensures o.Ok? ==> At(files, path) == None
    {
      var fate := Next();
      if fate.Success? || (fate.Dies? && fate.done) {
        files := files - {path};
      }
      o := match fate case Success => Ok case Fails(_) => Threw case Dies(_, _) => Died;
    }
  }

  // ---- what an update means -------------------------------------------------------------

  function PathOf(changes: seq<FileChange>, i: nat): Path
    requires i < |changes|
  {
    changes[i].path
  }

  /** What the caller provides: distinct targets, none of them a file the update itself uses. */
  ghost predicate Apart(changes: seq<FileChange>, marker: Path) {
    && (forall i, j :: 0 <= i < j < |changes| ==> PathOf(changes, i) != PathOf(changes, j))
    && (forall i, j :: 0 <= i < |changes| && 0 <= j < |changes| ==>
          PathOf(changes, i) != Staged(PathOf(changes, j)) && PathOf(changes, i) != Kept(PathOf(changes, j)))
    && (forall i :: 0 <= i < |changes| ==>
          var p := PathOf(changes, i); p != marker && p != Temp(marker) && Staged(p) != marker && Kept(p) != marker)
  }

  function NewFile(before: Files, change: FileChange): File {
    File(change.contents,
         match change.mode
         case Some(mode) => mode
         case None => if change.path in before then before[change.path].mode else DEFAULT_MODE)
  }

  function UpdateOf(before: Files, changes: seq<FileChange>, committed: bool): PendingUpdate {
    PendingUpdate(committed,
        seq(|changes|, i requires 0 <= i < |changes| => Target(changes[i].path, changes[i].path in before)))
  }

  ghost predicate AllOld(files: Files, before: Files, changes: seq<FileChange>) {
    forall i :: 0 <= i < |changes| ==> At(files, PathOf(changes, i)) == At(before, PathOf(changes, i))
  }

  ghost predicate AllNew(files: Files, before: Files, changes: seq<FileChange>) {
    forall i :: 0 <= i < |changes| ==> At(files, PathOf(changes, i)) == Some(NewFile(before, changes[i]))
  }

  /** A target holds what was asked for, under the mode asked for, else its old one, else 0644. */
  ghost predicate Delivered(files: Files, before: Files, change: FileChange) {
    && change.path in files && files[change.path].contents == change.contents
    && match change.mode
       case Some(mode) => files[change.path].mode == mode
       case None => files[change.path].mode == if change.path in before then before[change.path].mode else 0x1A4
  }

  lemma NewIsDelivered(files: Files, before: Files, changes: seq<FileChange>)
    requires AllNew(files, before, changes)
    ensures forall c :: c in changes ==> Delivered(files, before, c)
  {
    forall c | c in changes
      ensures Delivered(files, before, c)
    {
      var i :| 0 <= i < |changes| && changes[i] == c;
      assert PathOf(changes, i) == c.path;
    }
  }

  ghost predicate Marked(files: Files, marker: Path, update: PendingUpdate) {
    At(files, marker).Some? && At(files, marker).value.contents == Marker(update)
  }

  /** A kept copy holds the old file; without one, the target itself does. */
  ghost predicate Restorable(files: Files, before: Files, path: Path) {
    path in before ==>
      match At(files, Kept(path))
      case Some(copy) => copy == before[path]
      case None => At(files, path) == Some(before[path])
  }

  ghost predicate AllRestorable(files: Files, before: Files, changes: seq<FileChange>) {
    forall i :: 0 <= i < |changes| ==> Restorable(files, before, PathOf(changes, i))
  }

  /** No committed marker was ever in place: an undo is not needed, or is possible. */
  ghost predicate Uncommitted(files: Files, before: Files, changes: seq<FileChange>, marker: Path) {
    || (At(files, marker).None? && AllOld(files, before, changes))
    || (Marked(files, marker, UpdateOf(before, changes, false)) && AllRestorable(files, before, changes))
  }

  /** The committed marker is, or was, in place. */
  ghost predicate Committed(files: Files, before: Files, changes: seq<FileChange>, marker: Path) {
    && AllNew(files, before, changes)
    && (At(files, marker).None? || Marked(files, marker, UpdateOf(before, changes, true)))
  }

  /** A path the update has no business with. */
  ghost predicate Foreign(changes: seq<FileChange>, marker: Path, q: Path) {
    && q != marker && q != Temp(marker)
    && forall i :: 0 <= i < |changes| ==> var p := PathOf(changes, i); q != p && q != Staged(p) && q != Kept(p)
  }

  ghost predicate Untouched(files: Files, before: Files, changes: seq<FileChange>, marker: Path) {
    forall q :: Foreign(changes, marker, q) ==> At(files, q) == At(before, q)
  }

  lemma SuffixApart(p: Path, q: Path)
    ensures Staged(p) == Staged(q) ==> p == q
    ensures Kept(p) == Kept(q) ==> p == q
    ensures Staged(p) != Kept(q) && Temp(p) != Staged(q) && Temp(p) != Kept(q) && Temp(p) != p
  {
    assert Staged(p)[|p|..] == ".mpas-new" && Kept(p)[|p|..] == ".mpas-old" && Temp(p)[|p|..] == ".tmp";
    assert Staged(p)[..|p|] == p && Staged(q)[..|q|] == q && Kept(p)[..|p|] == p && Kept(q)[..|q|] == q;
    assert Staged(p)[|Staged(p)| - 1] == 'w' && Kept(q)[|Kept(q)| - 1] == 'd' && Temp(p)[|Temp(p)| - 1] == 'p';
    assert Staged(q)[|Staged(q)| - 1] == 'w';
  }

  // ---- the files the update uses on the way ---------------------------------------------

  ghost predicate Scratch(changes: seq<FileChange>, marker: Path, q: Path) {
    || q == Temp(marker)
    || exists i :: 0 <= i < |changes| && (q == Staged(PathOf(changes, i)) || q == Kept(PathOf(changes, i)))
  }

  /** Only staged files, kept copies and the temporary marker changed. */
  ghost predicate OnlyScratch(before: Files, after: Files, changes: seq<FileChange>, marker: Path) {
    forall q :: !Scratch(changes, marker, q) ==> At(after, q) == At(before, q)
  }

  lemma ApartFacts(changes: seq<FileChange>, marker: Path)
    requires Apart(changes, marker)
    ensures forall i, j :: 0 <= i < |changes| && 0 <= j < |changes| ==>
              var p, q := PathOf(changes, i), PathOf(changes, j);
              && (i != j ==> p != q && Staged(p) != Staged(q) && Kept(p) != Kept(q))
              && Staged(p) != Kept(q) && p != Staged(q) && p != Kept(q)
    ensures forall i :: 0 <= i < |changes| ==> var p := PathOf(changes, i);
              && p != marker && p != Temp(marker)
              && Staged(p) != marker && Kept(p) != marker && Staged(p) != Temp(marker) && Kept(p) != Temp(marker)
    ensures Temp(marker) != marker
  {
    hide Staged, Kept, Temp;
    SuffixApart(marker, marker);
    forall i, j | 0 <= i < |changes| && 0 <= j < |changes|
      ensures var p, q := PathOf(changes, i), PathOf(changes, j);
              && (i != j ==> p != q && Staged(p) != Staged(q) && Kept(p) != Kept(q))
              && Staged(p) != Kept(q) && p != Staged(q) && p != Kept(q)
    {
      SuffixApart(PathOf(changes, i), PathOf(changes, j));
    }
    forall i | 0 <= i < |changes|
      ensures Staged(PathOf(changes, i)) != Temp(marker) && Kept(PathOf(changes, i)) != Temp(marker)
    {
      SuffixApart(marker, PathOf(changes, i));
    }
  }

  lemma ScratchApart(changes: seq<FileChange>, marker: Path)
    requires Apart(changes, marker)
    ensures forall q :: Scratch(changes, marker, q) ==>
              q != marker && !Foreign(changes, marker, q) && forall i :: 0 <= i < |changes| ==> q != PathOf(changes, i)
  {
    hide Staged, Kept, Temp;
    ApartFacts(changes, marker);
  }

  lemma ScratchKeeps(f: Files, g: Files, before: Files, changes: seq<FileChange>, marker: Path)
    requires Apart(changes, marker) && OnlyScratch(f, g, changes, marker)
    ensures At(g, marker) == At(f, marker)
    ensures Untouched(f, before, changes, marker) ==> Untouched(g, before, changes, marker)
    ensures AllOld(f, before, changes) ==> AllOld(g, before, changes)
    ensures AllNew(f, before, changes) ==> AllNew(g, before, changes)
  {
    hide Staged, Kept, Temp, Scratch;
    ScratchApart(changes, marker);
  }

  lemma OnlyScratchStep(f: Files, g: Files, h: Files, changes: seq<FileChange>, marker: Path, x: Path)
    requires OnlyScratch(f, g, changes, marker) && Only(g, h, x) && Scratch(changes, marker, x)
    ensures OnlyScratch(f, h, changes, marker)
  {
  }

  lemma StagedIsScratch(changes: seq<FileChange>, marker: Path, i: nat)
    requires i < |changes|
    ensures Scratch(changes, marker, Staged(changes[i].path)) && Scratch(changes, marker, Kept(changes[i].path))
  {
    assert PathOf(changes, i) == changes[i].path;
  }

  ghost predicate StagedUpTo(files: Files, before: Files, changes: seq<FileChange>, n: nat) {
    forall i :: 0 <= i < n && i < |changes| ==>
        At(files, Staged(PathOf(changes, i))) == Some(NewFile(before, changes[i]))
  }

  ghost predicate KeptUpTo(files: Files, before: Files, changes: seq<FileChange>, n: nat) {
    forall i :: 0 <= i < n && i < |changes| && PathOf(changes, i) in before ==>
      At(files, Kept(PathOf(changes, i))) == Some(before[PathOf(changes, i)])
  }

  /** Nothing staged is left of the first `n` changes, nor a kept copy of those in `which`. */
  ghost predicate GoneUpTo(files: Files, changes: seq<FileChange>, which: set<Path>, n: nat) {
    forall i :: 0 <= i < n && i < |changes| ==>
      var p := PathOf(changes, i);
      At(files, Staged(p)).None? && (p in which ==> At(files, Kept(p)).None?)
  }

  ghost predicate StagedGoneUpTo(files: Files, changes: seq<FileChange>, n: nat) {
    forall i :: 0 <= i < n && i < |changes| ==> At(files, Staged(PathOf(changes, i))).None?
  }

  ghost predicate KeptGoneUpTo(files: Files, changes: seq<FileChange>, n: nat) {
    forall i :: 0 <= i < n && i < |changes| ==> At(files, Kept(PathOf(changes, i))).None?
  }

  function Targets(changes: seq<FileChange>): set<Path> {
    set c | c in changes :: c.path
  }

  lemma GoneOnly(f: Files, g: Files, changes: seq<FileChange>, marker: Path, x: Path, which: set<Path>, n: nat)
    requires Apart(changes, marker) && GoneUpTo(f, changes, which, n) && Only(f, g, x) &&
               (At(g, x).None? || At(g, x) == At(f, x))
    ensures GoneUpTo(g, changes, which, n)
  {
  }

  lemma GoneRestored(f: Files, changes: seq<FileChange>, marker: Path, i: nat, which: set<Path>, n: nat)
    requires Apart(changes, marker) && i < |changes| && GoneUpTo(f, changes, which, n) && Kept(changes[i].path) in f
    ensures GoneUpTo(Moved(f, Kept(changes[i].path), changes[i].path), changes, which, n)
  {
    hide Staged, Kept, Temp;
    ApartFacts(changes, marker);
    assert PathOf(changes, i) == changes[i].path;
  }

  lemma GoneNext(f: Files, changes: seq<FileChange>, which: set<Path>, i: nat)
    requires i < |changes| && GoneUpTo(f, changes, which, i) && At(f, Staged(changes[i].path)).None?
    requires changes[i].path in which ==> At(f, Kept(changes[i].path)).None?
    ensures GoneUpTo(f, changes, which, i + 1)
  {
  }

  lemma GoneBoth(f: Files, changes: seq<FileChange>)
    requires StagedGoneUpTo(f, changes, |changes|) && KeptGoneUpTo(f, changes, |changes|)
    ensures GoneUpTo(f, changes, Targets(changes), |changes|)
  {
  }

  // ---- staging and backing up -----------------------------------------------------------

  /** Writes every new file beside its target. */
  method Stage(disk: Disk, changes: seq<FileChange>, marker: Path, ghost before: Files) returns (o: Outcome)
    requires Apart(changes, marker) && AllOld(disk.files, before, changes)
    modifies disk
    ensures Explains(disk.fates, old(disk.operations), disk.operations, o)
    ensures OnlyScratch(old(disk.files), disk.files, changes, marker)
    ensures o.Ok? ==> StagedUpTo(disk.files, before, changes, |changes|)
  {
    hide Scratch, Staged, Kept, OnlyScratch, AllOld, StagedUpTo, Apart;
    ghost var start := disk.files;
    StageStart(start, before, changes, marker);
    ghost var first := disk.operations;
    for i := 0 to |changes|
      invariant Explains(disk.fates, first, disk.operations, Ok)
      invariant OnlyScratch(start, disk.files, changes, marker)
      invariant StagedUpTo(disk.files, before, changes, i)
    {
      var change := changes[i];
      ScratchKeeps(start, disk.files, before, changes, marker);
      OldAt(disk.files, before, changes, i);
      var mode := if change.mode.Some? then change.mode.value
                  else if change.path in disk.files then disk.files[change.path].mode else DEFAULT_MODE;
      StagedIsScratch(changes, marker, i);
      ghost var was := disk.files;
      o := disk.Write(Staged(change.path), change.contents, mode);
      OnlyScratchStep(start, was, disk.files, changes, marker, Staged(change.path));
      if !o.Ok? { return; }
      ghost var written := disk.files;
      o := disk.Chmod(Staged(change.path), mode);
      OnlyScratchStep(start, written, disk.files, changes, marker, Staged(change.path));
      if !o.Ok? { return; }
      StageNext(was, disk.files, before, changes, marker, i);
    }
    o := Ok;
  }

  lemma StageStart(start: Files, before: Files, changes: seq<FileChange>, marker: Path)
    ensures OnlyScratch(start, start, changes, marker) && StagedUpTo(start, before, changes, 0) &&
              KeptUpTo(start, before, changes, 0)
  {
  }

  lemma OldAt(files: Files, before: Files, changes: seq<FileChange>, i: nat)
    requires AllOld(files, before, changes) && i < |changes|
    ensures At(files, changes[i].path) == At(before, changes[i].path)
  {
    assert PathOf(changes, i) == changes[i].path;
  }

  lemma StageNext(f: Files, g: Files, before: Files, changes: seq<FileChange>, marker: Path, i: nat)
    requires Apart(changes, marker) && i < |changes| && Only(f, g, Staged(changes[i].path)) &&
               StagedUpTo(f, before, changes, i)
    requires At(g, Staged(changes[i].path)) == Some(NewFile(before, changes[i]))
    ensures StagedUpTo(g, before, changes, i + 1)
  {
    hide Staged, Kept, Temp;
    ApartFacts(changes, marker);
    assert PathOf(changes, i) == changes[i].path;
  }

  lemma KeepNext(f: Files, g: Files, before: Files, changes: seq<FileChange>, marker: Path, i: nat)
    requires Apart(changes, marker) && i < |changes| && KeptUpTo(f, before, changes, i)
    requires Only(f, g, Kept(changes[i].path))
    requires changes[i].path in before ==> At(g, Kept(changes[i].path)) == Some(before[changes[i].path])
    ensures KeptUpTo(g, before, changes, i + 1)
    ensures StagedUpTo(f, before, changes, |changes|) ==> StagedUpTo(g, before, changes, |changes|)
  {
    hide Staged, Kept, Temp;
    ApartFacts(changes, marker);
    assert PathOf(changes, i) == changes[i].path;
  }

  lemma OnlyNothing(f: Files, path: Path)
    ensures Only(f, f, path)
  {
  }

  /** Keeps a copy of every file that will be replaced. */
  method BackUp(disk: Disk, changes: seq<FileChange>, files: seq<Target>, marker: Path, ghost before: Files)
      returns (o: Outcome)
    requires Apart(changes, marker) && AllOld(disk.files, before, changes) &&
               StagedUpTo(disk.files, before, changes, |changes|)
    requires files == UpdateOf(before, changes, false).files
    modifies disk
    ensures Explains(disk.fates, old(disk.operations), disk.operations, o)
    ensures OnlyScratch(old(disk.files), disk.files, changes, marker)
    ensures o.Ok? ==>
              StagedUpTo(disk.files, before, changes, |changes|) && KeptUpTo(disk.files, before, changes, |changes|)
  {
    hide Scratch, Staged, Kept, OnlyScratch, AllOld, StagedUpTo, KeptUpTo, Apart;
    ghost var start := disk.files;
    StageStart(start, before, changes, marker);
    ghost var first := disk.operations;
    for i := 0 to |changes|
      invariant Explains(disk.fates, first, disk.operations, Ok)
      invariant OnlyScratch(start, disk.files, changes, marker)
      invariant StagedUpTo(disk.files, before, changes, |changes|) && KeptUpTo(disk.files, before, changes, i)
    {
      var path := changes[i].path;
      ghost var was := disk.files;
      OnlyNothing(was, Kept(path));
      if files[i].existed {
        ScratchKeeps(start, disk.files, before, changes, marker);
        OldAt(disk.files, before, changes, i);
        StagedIsScratch(changes, marker, i);
        o := disk.Copy(path, Kept(path));
        OnlyScratchStep(start, was, disk.files, changes, marker, Kept(path));
        if !o.Ok? { return; }
        ghost var copied := disk.files;
        ScratchKeeps(start, disk.files, before, changes, marker);
        OldAt(disk.files, before, changes, i);
        var mode := disk.files[path].mode;
        o := disk.Chmod(Kept(path), mode);
        OnlyScratchStep(start, copied, disk.files, changes, marker, Kept(path));
        if !o.Ok? { return; }
      }
      KeepNext(was, disk.files, before, changes, marker, i);
    }
    o := Ok;
  }

  method CleanUpStaged(disk: Disk, changes: seq<FileChange>, marker: Path) returns (o: Outcome)
    modifies disk
    ensures Explains(disk.fates, old(disk.operations), disk.operations, o)
    ensures OnlyScratch(old(disk.files), disk.files, changes, marker)
    ensures o.Ok? ==> StagedGoneUpTo(disk.files, changes, |changes|)
  {
    hide Scratch, Staged, Kept, OnlyScratch;
    ghost var start := disk.files;
    StageStart(start, start, changes, marker);
    ghost var first := disk.operations;
    for i := 0 to |changes|
      invariant Explains(disk.fates, first, disk.operations, Ok)
      invariant OnlyScratch(start, disk.files, changes, marker)
      invariant StagedGoneUpTo(disk.files, changes, i)
    {
      ghost var was := disk.files;
      o := disk.Remove(Staged(changes[i].path));
      StagedIsScratch(changes, marker, i);
      OnlyScratchStep(start, was, disk.files, changes, marker, Staged(changes[i].path));
      if !o.Ok? { return; }
    }
    o := Ok;
  }

  method CleanUpKept(disk: Disk, changes: seq<FileChange>, marker: Path) returns (o: Outcome)
    requires Apart(changes, marker)
    modifies disk
    ensures Explains(disk.fates, old(disk.operations), disk.operations, o)
    ensures OnlyScratch(old(disk.files), disk.files, changes, marker)
    ensures StagedGoneUpTo(old(disk.files), changes, |changes|) ==> StagedGoneUpTo(disk.files, changes, |changes|)
    ensures o.Ok? ==> KeptGoneUpTo(disk.files, changes, |changes|)
  {
    hide Scratch, Staged, Kept, OnlyScratch, Apart;
    ghost var start := disk.files;
    StageStart(start, start, changes, marker);
    ghost var first := disk.operations;
    for i := 0 to |changes|
      invariant Explains(disk.fates, first, disk.operations, Ok)
      invariant OnlyScratch(start, disk.files, changes, marker)
      invariant StagedGoneUpTo(start, changes, |changes|) ==> StagedGoneUpTo(disk.files, changes, |changes|)
      invariant KeptGoneUpTo(disk.files, changes, i)
    {
      ghost var was := disk.files;
      o := disk.Remove(Kept(changes[i].path));
      StagedIsScratch(changes, marker, i);
      OnlyScratchStep(start, was, disk.files, changes, marker, Kept(changes[i].path));
      if !o.Ok? { return; }
    }
    o := Ok;
  }

  // ---- the marker -----------------------------------------------------------------------

  ghost predicate OnlyMarker(before: Files, after: Files, marker: Path) {
    forall q :: q != marker && q != Temp(marker) ==> At(after, q) == At(before, q)
  }

  /** Written through a temporary file and a rename, so the marker is never partly written. */
  method WriteMarker(disk: Disk, marker: Path, update: PendingUpdate) returns (o: Outcome)
    modifies disk
    ensures Explains(disk.fates, old(disk.operations), disk.operations, o)
    ensures OnlyMarker(old(disk.files), disk.files, marker)
    ensures o.Ok? ==> Marked(disk.files, marker, update)
    ensures o.Threw? ==> At(disk.files, marker) == At(old(disk.files), marker)
    ensures o.Died? ==> Marked(disk.files, marker, update) || At(disk.files, marker) == At(old(disk.files), marker)
  {
    SuffixApart(marker, marker);
    hide Temp;
    o := disk.Write(Temp(marker), Marker(update), MARKER_MODE);
    if o.Ok? {
      o := disk.Rename(Temp(marker), marker);
    }
  }

  lemma MarkerKeeps(f: Files, g: Files, before: Files, changes: seq<FileChange>, marker: Path)
    requires Apart(changes, marker) && OnlyMarker(f, g, marker)
    ensures Untouched(f, before, changes, marker) ==> Untouched(g, before, changes, marker)
    ensures AllOld(f, before, changes) ==> AllOld(g, before, changes)
    ensures AllNew(f, before, changes) ==> AllNew(g, before, changes)
    ensures AllRestorable(f, before, changes) ==> AllRestorable(g, before, changes)
    ensures StagedUpTo(f, before, changes, |changes|) ==> StagedUpTo(g, before, changes, |changes|)
    ensures KeptUpTo(f, before, changes, |changes|) ==> KeptUpTo(g, before, changes, |changes|)
  {
    hide Staged, Kept, Temp;
    ApartFacts(changes, marker);
  }

  lemma KeptIsRestorable(f: Files, before: Files, changes: seq<FileChange>)
    requires KeptUpTo(f, before, changes, |changes|)
    ensures AllRestorable(f, before, changes)
  {
  }

  // ---- installing -----------------------------------------------------------------------

  /** The uncommitted marker is in place, and everything can be put back. */
  ghost predicate Undoable(files: Files, before: Files, changes: seq<FileChange>, marker: Path) {
    && Marked(files, marker, UpdateOf(before, changes, false))
    && AllRestorable(files, before, changes) && Untouched(files, before, changes, marker)
  }

  ghost predicate InstalledUpTo(files: Files, before: Files, changes: seq<FileChange>, n: nat) {
    forall i :: 0 <= i < |changes| ==>
      At(files, if i < n then PathOf(changes, i) else Staged(PathOf(changes, i))) == Some(NewFile(before, changes[i]))
  }

  lemma InstallNext(f: Files, before: Files, changes: seq<FileChange>, marker: Path, i: nat)
    requires Apart(changes, marker) && i < |changes| && Undoable(f, before, changes, marker)
    requires KeptUpTo(f, before, changes, |changes|) && InstalledUpTo(f, before, changes, i)
    ensures Staged(changes[i].path) in f
    ensures var g := Moved(f, Staged(changes[i].path), changes[i].path);
            && Undoable(g, before, changes, marker)
            && KeptUpTo(g, before, changes, |changes|) && InstalledUpTo(g, before, changes, i + 1)
    ensures StagedGoneUpTo(f, changes, i) ==>
              StagedGoneUpTo(Moved(f, Staged(changes[i].path), changes[i].path), changes, i + 1)
  {
    hide Staged, Kept, Temp;
    ApartFacts(changes, marker);
    assert PathOf(changes, i) == changes[i].path;
    var g := Moved(f, Staged(changes[i].path), changes[i].path);
    KeptIsRestorable(g, before, changes);
  }

  /** Renames every staged file over its target. */
  method Install(disk: Disk, changes: seq<FileChange>, marker: Path, ghost before: Files) returns (o: Outcome)
    requires Apart(changes, marker) && Undoable(disk.files, before, changes, marker)
    requires StagedUpTo(disk.files, before, changes, |changes|) && KeptUpTo(disk.files, before, changes, |changes|)
    modifies disk
    ensures Explains(disk.fates, old(disk.operations), disk.operations, o)
    ensures Undoable(disk.files, before, changes, marker)
    ensures o.Ok? ==> AllNew(disk.files, before, changes) && StagedGoneUpTo(disk.files, changes, |changes|)
  {
    InstallStart(disk.files, before, changes);
    hide Staged, Kept, Apart, Undoable, KeptUpTo, InstalledUpTo, StagedGoneUpTo;
    ghost var first := disk.operations;
    for i := 0 to |changes|
      invariant Explains(disk.fates, first, disk.operations, Ok)
      invariant Undoable(disk.files, before, changes, marker)
      invariant KeptUpTo(disk.files, before, changes, |changes|) && InstalledUpTo(disk.files, before, changes, i)
      invariant StagedGoneUpTo(disk.files, changes, i)
    {
      InstallNext(disk.files, before, changes, marker, i);
      o := disk.Rename(Staged(changes[i].path), changes[i].path);
      if !o.Ok? { return; }
    }
    InstallEnd(disk.files, before, changes);
    o := Ok;
  }

  lemma InstallStart(f: Files, before: Files, changes: seq<FileChange>)
    requires StagedUpTo(f, before, changes, |changes|)
    ensures InstalledUpTo(f, before, changes, 0) && StagedGoneUpTo(f, changes, 0)
  {
  }

  lemma InstallEnd(f: Files, before: Files, changes: seq<FileChange>)
    requires InstalledUpTo(f, before, changes, |changes|)
    ensures AllNew(f, before, changes)
  {
  }

  // ---- undoing --------------------------------------------------------------------------

  ghost predicate OldUpTo(files: Files, before: Files, changes: seq<FileChange>, n: nat) {
    forall i :: 0 <= i < n && i < |changes| ==> At(files, PathOf(changes, i)) == At(before, PathOf(changes, i))
  }

  /** Putting a kept copy back, or removing a file that was not there, keeps the rest undoable. */
  lemma RestoreOne(f: Files, g: Files, before: Files, changes: seq<FileChange>, marker: Path, i: nat)
    requires Apart(changes, marker) && i < |changes| && Undoable(f, before, changes, marker) &&
               OldUpTo(f, before, changes, i)
    requires var p := changes[i].path;
             if p in before then Kept(p) in f && g == Moved(f, Kept(p), p)
             else Only(f, g, p)
    ensures Undoable(g, before, changes, marker) && OldUpTo(g, before, changes, i)
    ensures changes[i].path in before ==> At(g, changes[i].path) == Some(before[changes[i].path])
  {
    hide Staged, Kept, Temp;
    ApartFacts(changes, marker);
    assert PathOf(changes, i) == changes[i].path;
    assert Restorable(f, before, changes[i].path);
  }

  lemma RemoveStagedOne(f: Files, g: Files, before: Files, changes: seq<FileChange>, marker: Path, i: nat, n: nat)
    requires Apart(changes, marker) && i < |changes| && Undoable(f, before, changes, marker) &&
               OldUpTo(f, before, changes, n)
    requires Only(f, g, Staged(changes[i].path))
    ensures Undoable(g, before, changes, marker) && OldUpTo(g, before, changes, n)
  {
    hide Staged, Kept, Temp;
    ApartFacts(changes, marker);
    assert PathOf(changes, i) == changes[i].path;
  }

  lemma OldNext(f: Files, before: Files, changes: seq<FileChange>, i: nat)
    requires OldUpTo(f, before, changes, i) && i < |changes| && At(f, changes[i].path) == At(before, changes[i].path)
    ensures OldUpTo(f, before, changes, i + 1)
  {
  }

  lemma RestorableAt(f: Files, before: Files, changes: seq<FileChange>, marker: Path, i: nat)
    requires Undoable(f, before, changes, marker) && i < |changes|
    ensures changes[i].path in before && Kept(changes[i].path) !in f ==>
              At(f, changes[i].path) == Some(before[changes[i].path])
  {
    assert Restorable(f, before, PathOf(changes, i));
  }

  /** Restores one target. */
  method RestoreTarget(disk: Disk, file: Target, ghost before: Files, ghost changes: seq<FileChange>, marker: Path,
                       ghost i: nat)
    returns (o: Outcome)
    requires Apart(changes, marker) && Undoable(disk.files, before, changes, marker)
    requires OldUpTo(disk.files, before, changes, i) && GoneUpTo(disk.files, changes, before.Keys, i)
    requires i < |changes| && file == Target(changes[i].path, changes[i].path in before)
    modifies disk
    ensures Explains(disk.fates, old(disk.operations), disk.operations, o)
    ensures Undoable(disk.files, before, changes, marker)
    ensures o.Ok? ==> OldUpTo(disk.files, before, changes, i + 1) && GoneUpTo(disk.files, changes, before.Keys, i + 1)
  {
    hide Staged, Kept, Apart, Undoable, OldUpTo, GoneUpTo;
    RestorableAt(disk.files, before, changes, marker, i);
    ghost var start := disk.files;
    if file.existed {
      if Kept(file.path) in disk.files {
        RestoreOne(start, Moved(start, Kept(file.path), file.path), before, changes, marker, i);
        GoneRestored(start, changes, marker, i, before.Keys, i);
        KeptIsApart(changes, marker, i);
        o := disk.Rename(Kept(file.path), file.path);
      } else {
        o := Ok;
      }
    } else {
      o := disk.Remove(file.path);
      RestoreOne(start, disk.files, before, changes, marker, i);
      GoneOnly(start, disk.files, changes, marker, file.path, before.Keys, i);
    }
    if !o.Ok? { return; }
    assert OldUpTo(disk.files, before, changes, i);
    OldNext(disk.files, before, changes, i);
    ghost var restored := disk.files;
    o := disk.Remove(Staged(file.path));
    RemoveStagedOne(restored, disk.files, before, changes, marker, i, i + 1);
    GoneOnly(restored, disk.files, changes, marker, Staged(file.path), before.Keys, i);
    KeptIsApart(changes, marker, i);
    if o.Ok? {
      GoneNext(disk.files, changes, before.Keys, i);
    }
  }

  lemma KeptIsApart(changes: seq<FileChange>, marker: Path, i: nat)
    requires Apart(changes, marker) && i < |changes|
    ensures var p := changes[i].path; Kept(p) != p && Kept(p) != Staged(p) && Staged(p) != p
  {
    hide Staged, Kept, Temp;
    ApartFacts(changes, marker);
    assert PathOf(changes, i) == changes[i].path;
  }

  method RollBack(disk: Disk, update: PendingUpdate, ghost before: Files, ghost changes: seq<FileChange>, marker: Path)
    returns (o: Outcome)
    requires Apart(changes, marker) && Undoable(disk.files, before, changes, marker)
    requires update.files == UpdateOf(before, changes, false).files
    modifies disk
    ensures Explains(disk.fates, old(disk.operations), disk.operations, o)
    ensures Undoable(disk.files, before, changes, marker)
    ensures o.Ok? ==> AllOld(disk.files, before, changes) && GoneUpTo(disk.files, changes, before.Keys, |changes|)
  {
    hide Staged, Kept, Apart, Undoable;
    ghost var first := disk.operations;
    for i := 0 to |update.files|
      invariant Explains(disk.fates, first, disk.operations, Ok)
      invariant Undoable(disk.files, before, changes, marker)
      invariant OldUpTo(disk.files, before, changes, i) && GoneUpTo(disk.files, changes, before.Keys, i)
    {
      o := RestoreTarget(disk, update.files[i], before, changes, marker, i);
      if !o.Ok? { return; }
    }
    o := Ok;
  }

  // ---- the update and its recovery ------------------------------------------------------

  /** What an interrupted update may leave: `committed` says whether the committed marker was in place. */
  ghost predicate InDoubt(files: Files, before: Files, changes: seq<FileChange>, marker: Path, committed: bool) {
    && Untouched(files, before, changes, marker)
    && if committed then Committed(files, before, changes, marker) else Uncommitted(files, before, changes, marker)
  }

  /** The update happened whole, or not at all. */
  ghost predicate Atomic(files: Files, before: Files, changes: seq<FileChange>, marker: Path, committed: bool) {
    && At(files, marker).None? && Untouched(files, before, changes, marker)
    && if committed then AllNew(files, before, changes) else AllOld(files, before, changes)
  }

  lemma ScratchInDoubt(f: Files, g: Files, before: Files, changes: seq<FileChange>, marker: Path)
    requires Apart(changes, marker) && OnlyScratch(f, g, changes, marker)
    ensures Atomic(f, before, changes, marker, false) ==> Atomic(g, before, changes, marker, false)
    ensures InDoubt(f, before, changes, marker, true) ==> InDoubt(g, before, changes, marker, true)
  {
    hide AllOld, AllNew, Untouched, OnlyScratch, Apart;
    ScratchKeeps(f, g, before, changes, marker);
  }

  lemma AtomicInDoubt(f: Files, before: Files, changes: seq<FileChange>, marker: Path, committed: bool)
    requires Atomic(f, before, changes, marker, committed)
    ensures InDoubt(f, before, changes, marker, committed)
  {
  }

  /** The temporary marker is nobody's state. */
  lemma TempInDoubt(f: Files, g: Files, before: Files, changes: seq<FileChange>, marker: Path, committed: bool)
    requires Apart(changes, marker) && Only(f, g, Temp(marker))
    ensures At(g, marker) == At(f, marker)
    ensures InDoubt(f, before, changes, marker, committed) ==> InDoubt(g, before, changes, marker, committed)
    ensures AllOld(f, before, changes) ==> AllOld(g, before, changes)
    ensures AllNew(f, before, changes) ==> AllNew(g, before, changes)
    ensures StagedGoneUpTo(f, changes, |changes|) ==> StagedGoneUpTo(g, changes, |changes|)
    ensures forall which :: GoneUpTo(f, changes, which, |changes|) ==> GoneUpTo(g, changes, which, |changes|)
  {
    SuffixApart(marker, marker);
    MarkerKeeps(f, g, before, changes, marker);
    ApartFacts(changes, marker);
    hide Staged, Kept, Temp, Untouched, AllOld, AllNew, AllRestorable, Apart;
  }

  /** The marker goes last. */
  lemma MarkerRemoved(f: Files, g: Files, before: Files, changes: seq<FileChange>, marker: Path, committed: bool)
    requires Apart(changes, marker) && Only(f, g, marker) && (At(g, marker).None? || At(g, marker) == At(f, marker))
    requires InDoubt(f, before, changes, marker, committed)
    requires if committed then AllNew(f, before, changes) else AllOld(f, before, changes)
    ensures InDoubt(g, before, changes, marker, committed)
    ensures At(g, marker).None? ==> Atomic(g, before, changes, marker, committed)
    ensures forall which :: GoneUpTo(f, changes, which, |changes|) ==> GoneUpTo(g, changes, which, |changes|)
  {
    MarkerKeeps(f, g, before, changes, marker);
    ApartFacts(changes, marker);
    hide Staged, Kept, Temp, Untouched, AllOld, AllNew, AllRestorable, Apart;
  }

  /** Removes the temporary marker, then the marker. */
  method DropMarker(disk: Disk, ghost changes: seq<FileChange>, marker: Path, ghost before: Files,
                    ghost committed: bool)
    returns (o: Outcome)
    requires Apart(changes, marker) && InDoubt(disk.files, before, changes, marker, committed)
    requires if committed then AllNew(disk.files, before, changes) else AllOld(disk.files, before, changes)
    modifies disk
    ensures Explains(disk.fates, old(disk.operations), disk.operations, o)
    ensures InDoubt(disk.files, before, changes, marker, committed)
    ensures o.Ok? ==> Atomic(disk.files, before, changes, marker, committed)
  {
    hide Temp, InDoubt, Apart, AllOld, AllNew;
    ghost var f := disk.files;
    o := disk.Remove(Temp(marker));
    TempInDoubt(f, disk.files, before, changes, marker, committed);
    if !o.Ok? { return; }
    ghost var g := disk.files;
    o := disk.Remove(marker);
    MarkerRemoved(g, disk.files, before, changes, marker, committed);
  }

  /** Staging, or the first marker, failed: nothing was replaced yet. */
  method CleanUp(disk: Disk, changes: seq<FileChange>, marker: Path, ghost before: Files) returns (o: Outcome)
    requires Apart(changes, marker) && Atomic(disk.files, before, changes, marker, false)
    modifies disk
    ensures Explains(disk.fates, old(disk.operations), disk.operations, o)
    ensures Atomic(disk.files, before, changes, marker, false)
    ensures o.Ok? ==> GoneUpTo(disk.files, changes, Targets(changes), |changes|)
  {
    hide Atomic, Apart, OnlyScratch, StagedGoneUpTo, KeptGoneUpTo, GoneUpTo;
    ghost var f := disk.files;
    o := CleanUpStaged(disk, changes, marker);
    ScratchInDoubt(f, disk.files, before, changes, marker);
    if !o.Ok? { return; }
    ghost var g := disk.files;
    o := CleanUpKept(disk, changes, marker);
    ScratchInDoubt(g, disk.files, before, changes, marker);
    if o.Ok? {
      GoneBoth(disk.files, changes);
    }
  }

  lemma FirstMarker(f: Files, g: Files, before: Files, changes: seq<FileChange>, marker: Path)
    requires Apart(changes, marker) && OnlyMarker(f, g, marker) && Atomic(f, before, changes, marker, false)
    requires KeptUpTo(f, before, changes, |changes|)
    ensures At(g, marker).None? ==> Atomic(g, before, changes, marker, false)
    ensures Marked(g, marker, UpdateOf(before, changes, false)) ==> Undoable(g, before, changes, marker)
  {
    hide KeptUpTo, Untouched, AllOld, AllRestorable, Apart, OnlyMarker;
    MarkerKeeps(f, g, before, changes, marker);
    KeptIsRestorable(f, before, changes);
  }

  lemma SecondMarker(f: Files, g: Files, before: Files, changes: seq<FileChange>, marker: Path)
    requires Apart(changes, marker) && OnlyMarker(f, g, marker) && Undoable(f, before, changes, marker)
    requires AllNew(f, before, changes)
    ensures At(g, marker) == At(f, marker) ==> Undoable(g, before, changes, marker)
    ensures Marked(g, marker, UpdateOf(before, changes, true)) ==> InDoubt(g, before, changes, marker, true)
    ensures StagedGoneUpTo(f, changes, |changes|) ==> StagedGoneUpTo(g, changes, |changes|)
  {
    MarkerKeeps(f, g, before, changes, marker);
    ApartFacts(changes, marker);
    hide Staged, Kept, Temp, Untouched, AllOld, AllNew, AllRestorable, Apart;
  }

  lemma UndoableInDoubt(f: Files, before: Files, changes: seq<FileChange>, marker: Path)
    requires Undoable(f, before, changes, marker)
    ensures InDoubt(f, before, changes, marker, false)
  {
  }

  /** Everything before the first rename; if it fails, nothing was replaced. */
  method Prepare(disk: Disk, marker: Path, changes: seq<FileChange>, update: PendingUpdate, ghost before: Files)
    returns (o: Outcome)
    requires Apart(changes, marker) && Atomic(disk.files, before, changes, marker, false)
    requires update == UpdateOf(before, changes, false)
    modifies disk
    ensures Explains(disk.fates, old(disk.operations), disk.operations, o)
    ensures o.Threw? && OneFailure(disk.fates, old(disk.operations), disk.operations) ==>
              Atomic(disk.files, before, changes, marker, false)
    ensures InDoubt(disk.files, before, changes, marker, false)
    ensures o.Ok? ==> Undoable(disk.files, before, changes, marker)
                      && StagedUpTo(disk.files, before, changes, |changes|) &&
                           KeptUpTo(disk.files, before, changes, |changes|)
  {
    hide Apart, OnlyScratch, OnlyMarker, StagedUpTo, KeptUpTo, InDoubt, Undoable, GoneUpTo, Marked, AllOld, Untouched;
    ghost var f := disk.files;
    o := Stage(disk, changes, marker, before);
    ScratchInDoubt(f, disk.files, before, changes, marker);
    if o.Ok? {
      ghost var staged := disk.files;
      o := BackUp(disk, changes, update.files, marker, before);
      ScratchInDoubt(staged, disk.files, before, changes, marker);
    }
    if o.Ok? {
      o := PutFirstMarker(disk, marker, changes, update, before);
    } else {
      if o.Threw? {
        o := CleanUp(disk, changes, marker, before);
        o := if o.Died? then Died else Threw;
      }
      AtomicInDoubt(disk.files, before, changes, marker, false);
    }
  }

  /** Records the set before any rename; if that fails, nothing was replaced. */
  method PutFirstMarker(disk: Disk, marker: Path, changes: seq<FileChange>, update: PendingUpdate, ghost before: Files)
    returns (o: Outcome)
    requires Apart(changes, marker) && Atomic(disk.files, before, changes, marker, false)
    requires StagedUpTo(disk.files, before, changes, |changes|) && KeptUpTo(disk.files, before, changes, |changes|)
    requires update == UpdateOf(before, changes, false)
    modifies disk
    ensures Explains(disk.fates, old(disk.operations), disk.operations, o)
    ensures o.Threw? && OneFailure(disk.fates, old(disk.operations), disk.operations) ==>
              Atomic(disk.files, before, changes, marker, false)
    ensures InDoubt(disk.files, before, changes, marker, false)
    ensures o.Ok? ==> Undoable(disk.files, before, changes, marker)
                      && StagedUpTo(disk.files, before, changes, |changes|) &&
                           KeptUpTo(disk.files, before, changes, |changes|)
  {
    hide Apart, OnlyMarker, StagedUpTo, KeptUpTo, InDoubt, Undoable, GoneUpTo, Marked, AllOld, Untouched, AllNew;
    ghost var f := disk.files;
    o := WriteMarker(disk, marker, update);
    FirstMarker(f, disk.files, before, changes, marker);
    MarkerKeeps(f, disk.files, before, changes, marker);
    if o.Threw? {
      o := CleanUp(disk, changes, marker, before);
      AtomicInDoubt(disk.files, before, changes, marker, false);
      if o.Ok? {
        AtomicIsOld(disk.files, before, changes, marker);
        o := DropMarker(disk, changes, marker, before, false);
      }
      o := if o.Died? then Died else Threw;
    } else if Marked(disk.files, marker, update) {
      UndoableInDoubt(disk.files, before, changes, marker);
    } else {
      AtomicInDoubt(disk.files, before, changes, marker, false);
    }
  }

  lemma AtomicIsOld(f: Files, before: Files, changes: seq<FileChange>, marker: Path)
    requires Atomic(f, before, changes, marker, false)
    ensures AllOld(f, before, changes)
  {
  }

  lemma AtomicIsNew(f: Files, before: Files, changes: seq<FileChange>, marker: Path)
    requires Atomic(f, before, changes, marker, true)
    ensures AllNew(f, before, changes)
  {
  }

  lemma InDoubtIsNew(f: Files, before: Files, changes: seq<FileChange>, marker: Path)
    requires InDoubt(f, before, changes, marker, true)
    ensures AllNew(f, before, changes)
  {
  }

  /** Undoes every rename in this process, and forgets the update. */
  method Undo(disk: Disk, marker: Path, update: PendingUpdate, ghost changes: seq<FileChange>, ghost before: Files)
    returns (o: Outcome)
    requires Apart(changes, marker) && Undoable(disk.files, before, changes, marker)
    requires update.files == UpdateOf(before, changes, false).files
    modifies disk
    ensures Explains(disk.fates, old(disk.operations), disk.operations, o)
    ensures InDoubt(disk.files, before, changes, marker, false)
    ensures o.Ok? ==> Atomic(disk.files, before, changes, marker, false)
  {
    hide Apart, InDoubt, Undoable, GoneUpTo, AllOld, Atomic;
    o := RollBack(disk, update, before, changes, marker);
    UndoableInDoubt(disk.files, before, changes, marker);
    if !o.Ok? { return; }
    o := DropMarker(disk, changes, marker, before, false);
  }

  /**
   Commits several files together.  `committed` says whether the committed marker was put in
   place.  The update is done, with nothing left beside its targets, exactly when every operation
   succeeds; if one throws before that marker and it alone fails, everything is as it was.
   */
  method CommitChanges(disk: Disk, marker: Path, changes: seq<FileChange>) returns (o: Outcome, ghost committed: bool)
    requires Apart(changes, marker) && At(disk.files, marker).None?
    modifies disk
    ensures o.Ok? <==> forall n :: old(disk.operations) <= n < disk.operations ==> disk.fates(n).Success?
    ensures Explains(disk.fates, old(disk.operations), disk.operations, o)
    ensures o.Threw? && !committed && OneFailure(disk.fates, old(disk.operations), disk.operations) ==>
              Atomic(disk.files, old(disk.files), changes, marker, false)
    ensures InDoubt(disk.files, old(disk.files), changes, marker, committed)
    ensures o.Ok? ==> forall c :: c in changes ==> Delivered(disk.files, old(disk.files), c)
    ensures o.Ok? ==> committed && Atomic(disk.files, old(disk.files), changes, marker, true)
                      && GoneUpTo(disk.files, changes, Targets(changes), |changes|)
  {
    ghost var before := disk.files;
    committed := false;
    var update := UpdateOf(disk.files, changes, false);
    assert Atomic(disk.files, before, changes, marker, false);
    hide Apart, InDoubt, Undoable, GoneUpTo, AllOld, AllNew, Atomic, OnlyMarker, StagedUpTo, KeptUpTo, StagedGoneUpTo;
    o := Prepare(disk, marker, changes, update, before);
    if !o.Ok? { return; }
    o := Install(disk, changes, marker, before);
    UndoableInDoubt(disk.files, before, changes, marker);
    if o.Ok? {
      o, committed := PutCommittedMarker(disk, marker, changes, update, before);
    }
    if o.Died? { return; }
    if o.Threw? {
      o := Undo(disk, marker, update, changes, before);
      o := if o.Died? then Died else Threw;
      return;
    }
    o := Finish(disk, marker, changes, before);
    if o.Ok? {
      AtomicIsNew(disk.files, before, changes, marker);
      NewIsDelivered(disk.files, before, changes);
    }
  }

  method PutCommittedMarker(disk: Disk, marker: Path, changes: seq<FileChange>, update: PendingUpdate,
                            ghost before: Files)
    returns (o: Outcome, ghost committed: bool)
    requires Apart(changes, marker) && Undoable(disk.files, before, changes, marker)
    requires AllNew(disk.files, before, changes) && StagedGoneUpTo(disk.files, changes, |changes|)
    requires update == UpdateOf(before, changes, false)
    modifies disk
    ensures Explains(disk.fates, old(disk.operations), disk.operations, o)
    ensures InDoubt(disk.files, before, changes, marker, committed)
    ensures o.Ok? ==> committed
    ensures o.Threw? ==> !committed && Undoable(disk.files, before, changes, marker)
    ensures StagedGoneUpTo(disk.files, changes, |changes|)
  {
    hide Apart, InDoubt, Undoable, AllNew, OnlyMarker, StagedGoneUpTo;
    ghost var f := disk.files;
    assert update.(committed := true) == UpdateOf(before, changes, true);
    o := WriteMarker(disk, marker, update.(committed := true));
    SecondMarker(f, disk.files, before, changes, marker);
    committed := Marked(disk.files, marker, UpdateOf(before, changes, true)) && !o.Threw?;
    if !committed {
      UndoableInDoubt(disk.files, before, changes, marker);
    }
  }

  /** The update is in place: the kept copies and the marker go. */
  method Finish(disk: Disk, marker: Path, changes: seq<FileChange>, ghost before: Files) returns (o: Outcome)
    requires Apart(changes, marker) && InDoubt(disk.files, before, changes, marker, true)
    requires StagedGoneUpTo(disk.files, changes, |changes|)
    modifies disk
    ensures Explains(disk.fates, old(disk.operations), disk.operations, o)
    ensures InDoubt(disk.files, before, changes, marker, true)
    ensures o.Ok? ==> Atomic(disk.files, before, changes, marker, true)
                      && GoneUpTo(disk.files, changes, Targets(changes), |changes|)
  {
    hide Apart, InDoubt, OnlyScratch, StagedGoneUpTo, KeptGoneUpTo, GoneUpTo, Atomic, AllNew;
    ghost var f := disk.files;
    o := CleanUpKept(disk, changes, marker);
    ScratchInDoubt(f, disk.files, before, changes, marker);
    InDoubtIsNew(disk.files, before, changes, marker);
    if !o.Ok? { return; }
    GoneBoth(disk.files, changes);
    ghost var g := disk.files;
    o := disk.Remove(marker);
    MarkerRemoved(g, disk.files, before, changes, marker, true);
  }

  // ---- recovery -------------------------------------------------------------------------

  datatype Recovery = Nothing | Completed | RolledBack | Unreadable | Interrupted

  ghost predicate UnreadableMarker(files: Files, marker: Path) {
    At(files, marker).Some? && At(files, marker).value.contents.Bytes?
  }

  lemma MarkerSays(f: Files, before: Files, changes: seq<FileChange>, marker: Path, committed: bool)
    requires InDoubt(f, before, changes, marker, committed)
    ensures At(f, marker).Some? ==> At(f, marker).value.contents == Marker(UpdateOf(before, changes, committed))
    ensures At(f, marker).Some? && !committed ==> Undoable(f, before, changes, marker)
    ensures At(f, marker).None? ==> Atomic(f, before, changes, marker, committed)
  {
  }

  /** Removes what is left beside the targets of a committed update. */
  method ClearLeftovers(disk: Disk, files: seq<Target>, marker: Path, ghost changes: seq<FileChange>,
                        ghost before: Files)
    returns (o: Outcome)
    requires Apart(changes, marker) && InDoubt(disk.files, before, changes, marker, true)
    requires files == UpdateOf(before, changes, true).files
    modifies disk
    ensures Explains(disk.fates, old(disk.operations), disk.operations, o)
    ensures InDoubt(disk.files, before, changes, marker, true)
    ensures o.Ok? ==> GoneUpTo(disk.files, changes, Targets(changes), |changes|)
  {
    hide Apart, InDoubt, Staged, Kept, Scratch, OnlyScratch, GoneUpTo;
    GoneStart(disk.files, changes);
    ghost var first := disk.operations;
    for i := 0 to |files|
      invariant Explains(disk.fates, first, disk.operations, Ok)
      invariant InDoubt(disk.files, before, changes, marker, true)
      invariant GoneUpTo(disk.files, changes, Targets(changes), i)
    {
      KeptIsApart(changes, marker, i);
      ghost var f := disk.files;
      o := disk.Remove(Kept(files[i].path));
      LeftoverRemoved(f, disk.files, before, changes, marker, Kept(files[i].path), i);
      if !o.Ok? { return; }
      ghost var g := disk.files;
      o := disk.Remove(Staged(files[i].path));
      LeftoverRemoved(g, disk.files, before, changes, marker, Staged(files[i].path), i);
      if !o.Ok? { return; }
      GoneNext(disk.files, changes, Targets(changes), i);
    }
    o := Ok;
  }

  lemma GoneStart(f: Files, changes: seq<FileChange>)
    ensures forall which :: GoneUpTo(f, changes, which, 0)
  {
  }

  lemma LeftoverRemoved(f: Files, g: Files, before: Files, changes: seq<FileChange>, marker: Path, x: Path, i: nat)
    requires Apart(changes, marker) && InDoubt(f, before, changes, marker, true) && i < |changes|
    requires GoneUpTo(f, changes, Targets(changes), i)
    requires x == Staged(changes[i].path) || x == Kept(changes[i].path)
    requires Only(f, g, x) && (At(g, x).None? || At(g, x) == At(f, x))
    ensures InDoubt(g, before, changes, marker, true) && GoneUpTo(g, changes, Targets(changes), i)
  {
    hide Apart, InDoubt, Staged, Kept, Scratch, GoneUpTo;
    StagedIsScratch(changes, marker, i);
    StageStart(f, before, changes, marker);
    OnlyScratchStep(f, f, g, changes, marker, x);
    hide OnlyScratch, Only;
    ScratchInDoubt(f, g, before, changes, marker);
    GoneOnly(f, g, changes, marker, x, Targets(changes), i);
  }

  /** Undoes, or finishes, an update a stopped process left behind. */
  method RecoverInterruptedUpdate(disk: Disk, marker: Path, ghost changes: seq<FileChange>, ghost before: Files,
                                  ghost committed: bool)
    returns (r: Recovery)
    requires Apart(changes, marker)
    requires UnreadableMarker(disk.files, marker) || InDoubt(disk.files, before, changes, marker, committed)
    modifies disk
    ensures old(disk.operations) < disk.operations
    ensures !r.Interrupted? <==> forall n :: old(disk.operations) <= n < disk.operations ==> disk.fates(n).Success?
    ensures UnreadableMarker(old(disk.files), marker) ==>
              (r.Unreadable? || r.Interrupted?) && Only(old(disk.files), disk.files, Temp(marker))
    ensures InDoubt(old(disk.files), before, changes, marker, committed) ==>
              && InDoubt(disk.files, before, changes, marker, committed)
              && !r.Unreadable?
              && (!r.Interrupted? ==> Atomic(disk.files, before, changes, marker, committed))
    ensures r.Completed? ==> committed && GoneUpTo(disk.files, changes, Targets(changes), |changes|)
    ensures r.RolledBack? ==> !committed && GoneUpTo(disk.files, changes, before.Keys, |changes|)
  {
    hide Apart, InDoubt, Atomic, Temp, Only, Undoable, GoneUpTo, AllOld, AllNew;
    ghost var f := disk.files;
    var o := disk.Remove(Temp(marker));
    TempInDoubt(f, disk.files, before, changes, marker, committed);
    if InDoubt(disk.files, before, changes, marker, committed) {
      MarkerSays(disk.files, before, changes, marker, committed);
    }
    if !o.Ok? {
      return Interrupted;
    }
    if marker !in disk.files {
      return Nothing;
    }
    match disk.files[marker].contents {
      case Bytes(_) =>
        return Unreadable;
      case Marker(update) =>
        if update.committed {
          o := ClearLeftovers(disk, update.files, marker, changes, before);
          if !o.Ok? {
            return Interrupted;
          }
          InDoubtIsNew(disk.files, before, changes, marker);
        } else {
          o := RollBack(disk, update, before, changes, marker);
          UndoableInDoubt(disk.files, before, changes, marker);
          if !o.Ok? {
            return Interrupted;
          }
        }
        ghost var g := disk.files;
        o := disk.Remove(marker);
        MarkerRemoved(g, disk.files, before, changes, marker, committed);
        r := if !o.Ok? then Interrupted else if update.committed then Completed else RolledBack;
    }
  }

  /**
   An update followed by any number of recoveries, each of which may stop part way: once one
   completes, every target holds its new contents if the committed marker was in place, and
   its old contents otherwise; no other file changed.
   */
  method UpdateAndRecover(disk: Disk, marker: Path, changes: seq<FileChange>, attempts: nat)
    returns (recovered: bool, ghost committed: bool)
    requires Apart(changes, marker) && At(disk.files, marker).None?
    modifies disk
    ensures InDoubt(disk.files, old(disk.files), changes, marker, committed)
    ensures recovered ==> Atomic(disk.files, old(disk.files), changes, marker, committed)
    ensures attempts > 0 && (forall n :: old(disk.operations) <= n < disk.operations ==> disk.fates(n).Success?) ==>
              recovered && committed
  {
    hide Apart, InDoubt, Atomic, GoneUpTo;
    ghost var first := disk.operations;
    ghost var before := disk.files;
    var o;
    o, committed := CommitChanges(disk, marker, changes);
    for i := 0 to attempts
      invariant InDoubt(disk.files, before, changes, marker, committed)
      invariant first <= disk.operations
      invariant i > 0 ==> exists n :: first <= n < disk.operations && !disk.fates(n).Success?
      invariant !committed ==> exists n :: first <= n < disk.operations && !disk.fates(n).Success?
    {
      var r := RecoverInterruptedUpdate(disk, marker, changes, before, committed);
      if !r.Interrupted? {
        return true, committed;
      }
    }
    recovered := false;
  }
}
