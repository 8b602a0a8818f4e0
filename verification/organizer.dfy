/** The organizer engine of `src/core.py`: check the source, process every
    regular file the traversal lists, then optionally remove the empty
    directories left below the source. Log lines are left out; the counters
    are the observable result. */
module Organizer {
  import opened Wrappers
  import opened Seqs
  import opened Exceptions
  import opened Paths
  import opened FileSystem
  import opened RuleTable
  import opened Planner
  import opened Reaper

  datatype Stats = Stats(moved: nat, removed: nat, skipped: nat, errors: nat)

  /** The state a finished run leaves: the file system and the counters. */
  datatype Run = Run(fs: FS, stats: Stats)

  /** The entries a traversal of `root` yields: the direct children
      (`iterdir`) or everything below it (`rglob('*')`). */
  predicate InScope(root: Path, p: Path, recursive: bool) {
    if recursive then IsBelow(root, p) else IsChild(root, p)
  }

  /** `listing` enumerates exactly the entries in scope, each once, in the
      order the operating system returns them. */
  predicate IsListing(fs: FS, root: Path, recursive: bool, listing: seq<Path>) {
    && Distinct(listing)
    && (forall p :: p in listing ==> p in fs && InScope(root, p, recursive))
    && (forall p :: p in fs && InScope(root, p, recursive) ==> p in listing)
  }

  /** Every listed entry exists and, lying below the root, is not the root. */
  lemma ListedEntries(fs: FS, root: Path, recursive: bool, listing: seq<Path>)
    requires IsListing(fs, root, recursive, listing)
    ensures forall i :: 0 <= i < |listing| ==> |listing[i]| > 0 && listing[i] in fs
  {
    forall i | 0 <= i < |listing| ensures |listing[i]| > 0 && listing[i] in fs {
      assert listing[i] in listing;
    }
  }

  /** The regular files the run is about. */
  function Candidates(fs: FS, root: Path, recursive: bool): set<Path> {
    set p | p in fs && fs[p].File? && InScope(root, p, recursive)
  }

  /** Lines 111, 130, 139 and 143: a simulated move and a real move both
      count as moved. */
  function Tally(outs: seq<Outcome>, removed: nat): (s: Stats)
    ensures s.moved + s.skipped + s.errors == |outs|
    ensures s.removed == removed
  {
    CountsAddUp(outs);
    Stats(Count(outs, SimulateKind) + Count(outs, MoveKind), removed,
          Count(outs, SkipKind), Count(outs, FailKind))
  }

  /** `Organizer.organize(source)`. `dest` is the resolved destination, or
      `None` when it is unset or empty; `listing` is what the traversal
      returns; `locked` holds the directories whose removal raises
      `PermissionError`. */
  function Organize(fs: FS, source: Path, dest: Option<Path>, table: Table,
                    recursive: bool, dryRun: bool, clean: bool,
                    listing: seq<Path>, locked: set<Path>): (r: Result<Run, Error>)
    requires IsListing(fs, source, recursive, listing)
    ensures r.Failure? <==> !IsDir(fs, source)
    ensures r.Failure? ==> r.error == PathError
    ensures r.Success? && !clean ==> r.value.stats.removed == 0
    ensures r.Success? && dryRun ==> r.value.fs == fs
  {
    if !IsDir(fs, source) then Failure(PathError)
    else
      ListedEntries(fs, source, recursive, listing);
      var (fs1, outs) := Walk(fs, listing, dest.GetOr(source), table, dryRun);
      var (fs2, removed) := if clean then Reap(fs1, source, dryRun, locked) else (fs1, 0);
      assert dryRun && clean ==> fs2 == fs1 by {
        if dryRun && clean {
          ReapDryRun(fs1, source, locked);
        }
      }
      Success(Run(fs2, Tally(outs, removed)))
  }

  /** The file system after the traversal, before the empty-directory pass. */
  function Walked(fs: FS, source: Path, dest: Option<Path>, table: Table,
                  recursive: bool, dryRun: bool, listing: seq<Path>): FS
    requires IsListing(fs, source, recursive, listing)
  {
    ListedEntries(fs, source, recursive, listing);
    Walk(fs, listing, dest.GetOr(source), table, dryRun).0
  }

  /** Every regular file in scope is counted exactly once as moved, skipped
      or an error, whatever happens to the others. */
  lemma OrganizeCountsEveryFile(fs: FS, source: Path, dest: Option<Path>, table: Table,
                                recursive: bool, dryRun: bool, clean: bool,
                                listing: seq<Path>, locked: set<Path>)
    requires IsListing(fs, source, recursive, listing)
    requires IsDir(fs, source)
    ensures var s := Organize(fs, source, dest, table, recursive, dryRun, clean, listing, locked).value.stats;
      s.moved + s.skipped + s.errors == |Candidates(fs, source, recursive)|
  {
    ListedEntries(fs, source, recursive, listing);
    WalkProcessesSnapshot(fs, listing, dest.GetOr(source), table, dryRun);
    var files := RegularFiles(fs, listing);
    RegularFilesDistinct(fs, listing);
    DistinctCard(files);
    assert (set x | x in files) == Candidates(fs, source, recursive);
  }

  /** A run keeps every regular file (it may rename it) and keeps the file
      system a tree. */
  lemma OrganizeKeepsFiles(fs: FS, source: Path, dest: Option<Path>, table: Table,
                           recursive: bool, dryRun: bool, clean: bool,
                           listing: seq<Path>, locked: set<Path>)
    requires IsListing(fs, source, recursive, listing)
    requires IsDir(fs, source) && WellFormed(fs)
    ensures var fs' := Organize(fs, source, dest, table, recursive, dryRun, clean, listing, locked).value.fs;
      |Files(fs')| == |Files(fs)| && WellFormed(fs')
  {
    var fs1 := Walked(fs, source, dest, table, recursive, dryRun, listing);
    if clean {
      ReapKeepsFiles(fs1, source, dryRun, locked);
      if dryRun {
        ReapDryRun(fs1, source, locked);
      } else {
        ReapWellFormed(fs1, source, locked);
      }
    }
  }

  /** With `clean` outside dry-run, the pass removes exactly the directories
      below the source whose subtree holds no regular file and no locked
      directory, and counts each of them once. */
  lemma OrganizeCleans(fs: FS, source: Path, dest: Option<Path>, table: Table,
                       recursive: bool, listing: seq<Path>, locked: set<Path>)
    requires IsListing(fs, source, recursive, listing)
    requires IsDir(fs, source) && WellFormed(fs)
    ensures var fs1 := Walked(fs, source, dest, table, recursive, false, listing);
      var r := Organize(fs, source, dest, table, recursive, false, true, listing, locked).value;
      && r.fs == fs1 - ClearableSet(fs1, source, locked)
      && r.stats.removed == |ClearableSet(fs1, source, locked)|
  {
    var fs1 := Walked(fs, source, dest, table, recursive, false, listing);
    ReapRemovesClearable(fs1, source, locked);
  }

  /** In dry-run with `clean`, the count of removals is the number of
      directories below the source that are empty now. */
  lemma OrganizeDryRunCounts(fs: FS, source: Path, dest: Option<Path>, table: Table,
                             recursive: bool, listing: seq<Path>, locked: set<Path>)
    requires IsListing(fs, source, recursive, listing)
    requires IsDir(fs, source)
    ensures var r := Organize(fs, source, dest, table, recursive, true, true, listing, locked).value;
      r.stats.removed == |EmptyBelow(fs, source)|
  {
    ReapDryRun(Walked(fs, source, dest, table, recursive, true, listing), source, locked);
  }
}
