/** The older engine (`core.py`): the same per-file work as `src/core.py`,
    but it keeps simulated moves apart from real ones, always runs the
    empty-directory pass, and its pass counts differently. */
module LegacyOrganizer {
  import opened Wrappers
  import opened Exceptions
  import opened Paths
  import opened FileSystem
  import opened RuleTable
  import opened Planner
  import opened Reaper
  import opened Organizer

  datatype LegacyStats = LegacyStats(moved: nat, skipped: nat, errors: nat,
                                     moves: nat, removed: nat, removes: nat)

  datatype LegacyRun = LegacyRun(fs: FS, stats: LegacyStats)

  /** Lines 99, 115, 124 and 128: a simulated move counts under `moves`, a
      real one under `moved`. */
  function LegacyTally(outs: seq<Outcome>, removed: nat, removes: nat): (s: LegacyStats)
    ensures s.moved + s.moves + s.skipped + s.errors == |outs|
    ensures s.removed == removed && s.removes == removes
  {
    CountsAddUp(outs);
    LegacyStats(Count(outs, MoveKind), Count(outs, SkipKind), Count(outs, FailKind),
                Count(outs, SimulateKind), removed, removes)
  }

  /** A pass's result: the file system, then the `removed` and `removes`
      increments. */
  datatype PassResult = PassResult(fs: FS, removed: nat, removes: nat)

  /** `_remove_empty_dirs` as written (lines 130-148): outside dry-run it
      removes directories like the newer pass but never increments
      `removed`; in dry-run it stops at the first empty directory, so
      `removes` is at most one. */
  function ReapAsWritten(fs: FS, root: Path, dryRun: bool, locked: set<Path>): (r: PassResult)
    ensures r.removed == 0
    ensures r.removes <= 1
    ensures r.fs == ReapCounted(fs, root, dryRun, locked).fs
    ensures dryRun ==> (r.removes == 1 <==> ReapCounted(fs, root, dryRun, locked).removes > 0)
  {
    ReapDryRun(fs, root, locked);
    if dryRun then PassResult(fs, 0, if EmptyBelow(fs, root) == {} then 0 else 1)
    else PassResult(Reap(fs, root, false, locked).0, 0, 0)
  }

  /** The pass with the counting evidently intended (and done by the newer
      engine): every removal, or every would-be removal in dry-run, is
      counted. */
  function ReapCounted(fs: FS, root: Path, dryRun: bool, locked: set<Path>): (r: PassResult)
    ensures dryRun ==> r.fs == fs && r.removed == 0 && r.removes == |EmptyBelow(fs, root)|
    ensures !dryRun && WellFormed(fs) ==>
      && r.fs == fs - ClearableSet(fs, root, locked)
      && r.removed == |ClearableSet(fs, root, locked)| && r.removes == 0
  {
    var (fs', n) := Reap(fs, root, dryRun, locked);
    ReapDryRun(fs, root, locked);
    assert !dryRun && WellFormed(fs) ==>
      fs' == fs - ClearableSet(fs, root, locked) && n == |ClearableSet(fs, root, locked)| by {
      if !dryRun && WellFormed(fs) {
        ReapRemovesClearable(fs, root, locked);
      }
    }
    if dryRun then PassResult(fs', 0, n) else PassResult(fs', n, 0)
  }

  /** Two empty folders below the root: the pass as written reports none
      removed, and one in dry-run; both are removed, and counted, by the
      intended pass. */
  lemma ReapAsWrittenUndercounts()
    ensures var fs := map[[] := Dir, ["a"] := Dir, ["b"] := Dir];
      && ReapAsWritten(fs, [], false, {}).removed == 0
      && ReapCounted(fs, [], false, {}).removed == 2
      && ReapAsWritten(fs, [], true, {}).removes == 1
      && ReapCounted(fs, [], true, {}).removes == 2
  {
    var fs := map[[] := Dir, ["a"] := Dir, ["b"] := Dir];
    assert WellFormed(fs) by {
      assert Parent(["a"]) == [] && Parent(["b"]) == [];
    }
    assert !HasEntries(fs, ["a"]) && !HasEntries(fs, ["b"]);
    assert EmptyBelow(fs, []) == {["a"], ["b"]};
    forall p | p in fs && IsBelow([], p) ensures OnlyUnlockedDirs(fs, {}, p) {
    }
    assert ClearableSet(fs, [], {}) == {["a"], ["b"]};
  }

  /** `Organizer.organize(source)` of `core.py` (lines 85-128), the
      empty-directory pass counting as written (`counted` false) or as
      intended. The pass runs whatever the `clean_source` setting. */
  function LegacyOrganizeWith(fs: FS, source: Path, destRoot: Option<Path>, table: Table,
                              recursive: bool, dryRun: bool,
                              listing: seq<Path>, locked: set<Path>, counted: bool): (r: Result<LegacyRun, Error>)
    requires IsListing(fs, source, recursive, listing)
    ensures r.Failure? <==> !IsDir(fs, source)
    ensures r.Failure? ==> r.error == PathError
    ensures r.Success? && dryRun ==> r.value.fs == fs && r.value.stats.moved == 0 && r.value.stats.removed == 0
    ensures r.Success? && !dryRun ==> r.value.stats.moves == 0 && r.value.stats.removes == 0
  {
    if !IsDir(fs, source) then Failure(PathError)
    else
      ListedEntries(fs, source, recursive, listing);
      var (fs1, outs) := Walk(fs, listing, destRoot.GetOr(source), table, dryRun);
      assert !dryRun ==> Count(outs, SimulateKind) == 0 by {
        if !dryRun {
          forall i | 0 <= i < |outs| ensures KindOf(outs[i]) != SimulateKind {
            WalkNeverSimulates(fs, listing, destRoot.GetOr(source), table, i);
          }
          CountAbsent(outs, SimulateKind);
        }
      }
      assert dryRun ==> Count(outs, MoveKind) == 0 by {
        if dryRun {
          forall i | 0 <= i < |outs| ensures KindOf(outs[i]) != MoveKind {
            WalkDryRunMovesNothing(fs, listing, destRoot.GetOr(source), table, i);
          }
          CountAbsent(outs, MoveKind);
        }
      }
      var pass := if counted then ReapCounted(fs1, source, dryRun, locked) else ReapAsWritten(fs1, source, dryRun, locked);
      Success(LegacyRun(pass.fs, LegacyTally(outs, pass.removed, pass.removes)))
  }

  /** The old engine as written: whatever the pass did, it reports no
      directory removed, and at most one that would be. */
  function LegacyOrganizeAsWritten(fs: FS, source: Path, destRoot: Option<Path>, table: Table,
                                   recursive: bool, dryRun: bool,
                                   listing: seq<Path>, locked: set<Path>): (r: Result<LegacyRun, Error>)
    requires IsListing(fs, source, recursive, listing)
    ensures r.Failure? <==> !IsDir(fs, source)
    ensures r.Success? ==> r.value.stats.removed == 0 && r.value.stats.removes <= 1
    ensures r.Success? && dryRun ==> r.value.fs == fs && r.value.stats.moved == 0
    ensures r.Success? && !dryRun ==> r.value.stats.moves == 0 && r.value.stats.removes == 0
  {
    LegacyOrganizeWith(fs, source, destRoot, table, recursive, dryRun, listing, locked, false)
  }

  /** The old engine with the intended pass counting. */
  function LegacyOrganize(fs: FS, source: Path, destRoot: Option<Path>, table: Table,
                          recursive: bool, dryRun: bool,
                          listing: seq<Path>, locked: set<Path>): (r: Result<LegacyRun, Error>)
    requires IsListing(fs, source, recursive, listing)
    ensures r.Failure? <==> !IsDir(fs, source)
    ensures r.Failure? ==> r.error == PathError
    ensures r.Success? && dryRun ==> r.value.fs == fs && r.value.stats.moved == 0 && r.value.stats.removed == 0
    ensures r.Success? && !dryRun ==> r.value.stats.moves == 0 && r.value.stats.removes == 0
  {
    LegacyOrganizeWith(fs, source, destRoot, table, recursive, dryRun, listing, locked, true)
  }

  /** The engine as written and the intended one leave the same file
      system and the same file counts; they differ only in the pass's
      counts, which as written are zero removed and, in dry-run, one
      would-be removal exactly when there is any. */
  lemma AsWrittenDiffersOnlyInPassCounts(fs: FS, source: Path, destRoot: Option<Path>, table: Table,
                                         recursive: bool, dryRun: bool,
                                         listing: seq<Path>, locked: set<Path>)
    requires IsListing(fs, source, recursive, listing)
    requires IsDir(fs, source)
    ensures var w := LegacyOrganizeAsWritten(fs, source, destRoot, table, recursive, dryRun, listing, locked).value;
      var c := LegacyOrganize(fs, source, destRoot, table, recursive, dryRun, listing, locked).value;
      && w.fs == c.fs
      && w.stats.moved == c.stats.moved && w.stats.moves == c.stats.moves
      && w.stats.skipped == c.stats.skipped && w.stats.errors == c.stats.errors
      && w.stats.removed == 0
      && w.stats.removes == (if dryRun && c.stats.removes > 0 then 1 else 0)
  {
  }

  /** Outside dry-run no move is only simulated. */
  lemma {:induction false} WalkNeverSimulates(fs: FS, entries: seq<Path>, dest: Path, table: Table, i: nat)
    requires forall k :: 0 <= k < |entries| ==> |entries[k]| > 0
    requires i < |Walk(fs, entries, dest, table, false).1|
    ensures !Walk(fs, entries, dest, table, false).1[i].Simulated?
    decreases |entries|
  {
    var tail := entries[1..];
    assert forall k :: 0 <= k < |tail| ==> |tail[k]| > 0 by {
      forall k | 0 <= k < |tail| ensures |tail[k]| > 0 {
        assert tail[k] == entries[k + 1];
      }
    }
    if IsFile(fs, entries[0]) {
      var o := Handle(fs, entries[0], dest, table, false);
      var rest := Walk(After(fs, o), tail, dest, table, false);
      assert Walk(fs, entries, dest, table, false).1 == [o] + rest.1;
      if i > 0 {
        WalkNeverSimulates(After(fs, o), tail, dest, table, i - 1);
        assert Walk(fs, entries, dest, table, false).1[i] == rest.1[i - 1];
      }
    } else {
      WalkNeverSimulates(fs, tail, dest, table, i);
    }
  }

  /** Every regular file in scope is counted once, as moved, simulated,
      skipped or an error. */
  lemma LegacyCountsEveryFile(fs: FS, source: Path, destRoot: Option<Path>, table: Table,
                              recursive: bool, dryRun: bool,
                              listing: seq<Path>, locked: set<Path>)
    requires IsListing(fs, source, recursive, listing)
    requires IsDir(fs, source)
    ensures var s := LegacyOrganize(fs, source, destRoot, table, recursive, dryRun, listing, locked).value.stats;
      s.moved + s.moves + s.skipped + s.errors == |Candidates(fs, source, recursive)|
  {
    OrganizeCountsEveryFile(fs, source, destRoot, table, recursive, dryRun, false, listing, locked);
  }

  /** The old engine, with the intended counting, differs from the new one
      only in where it books simulated moves and in cleaning always: with
      `clean` the two leave the same file system, and the new engine's
      `moved` is the old `moved` plus `moves`. */
  lemma LegacyMatchesOrganizer(fs: FS, source: Path, dest: Option<Path>, table: Table,
                               recursive: bool, dryRun: bool,
                               listing: seq<Path>, locked: set<Path>)
    requires IsListing(fs, source, recursive, listing)
    requires IsDir(fs, source)
    ensures var before := LegacyOrganize(fs, source, dest, table, recursive, dryRun, listing, locked).value;
      var now := Organize(fs, source, dest, table, recursive, dryRun, true, listing, locked).value;
      && before.fs == now.fs
      && now.stats.moved == before.stats.moved + before.stats.moves
      && now.stats.skipped == before.stats.skipped
      && now.stats.errors == before.stats.errors
      && now.stats.removed == before.stats.removed + before.stats.removes
  {
  }
}
