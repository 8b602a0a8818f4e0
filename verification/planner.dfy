/** The per-file work both engines share (`_process_file`): choosing the
    destination folder, the skip test, the collision-free name, and the
    real move (create the folder, then move the file). */
module Planner {
  import opened Wrappers
  import opened Seqs
  import opened Json
  import opened Paths
  import opened FileSystem
  import opened RuleTable

  // ---- collision search -----------------------------------------------------

  /** Candidate paths `dir/base_(k)suffix` for `1 <= k < n` all exist. */
  predicate CandidatesTaken(fs: FS, dir: Path, name: string, n: nat) {
    forall k :: 1 <= k < n ==> dir + [Candidate(name, k)] in fs
  }

  function CandidatePaths(dir: Path, name: string, n: nat): set<Path> {
    set k | 1 <= k <= n :: dir + [Candidate(name, k)]
  }

  lemma {:induction false} CandidatePathsCount(dir: Path, name: string, n: nat)
    ensures |CandidatePaths(dir, name, n)| == n
  {
    if n > 0 {
      CandidatePathsCount(dir, name, n - 1);
      var c := dir + [Candidate(name, n)];
      assert CandidatePaths(dir, name, n) == CandidatePaths(dir, name, n - 1) + {c};
      if c in CandidatePaths(dir, name, n - 1) {
        var k :| 1 <= k <= n - 1 && dir + [Candidate(name, k)] == c;
        assert Candidate(name, k) == (dir + [Candidate(name, k)])[|dir|];
        CandidateInjective(name, k, n);
      }
    }
  }

  /** Pairwise distinct candidates: at most `|fs|` of them can be taken. */
  lemma TakenBound(fs: FS, dir: Path, name: string, n: nat)
    requires CandidatesTaken(fs, dir, name, n + 1)
    ensures n <= |fs|
  {
    CandidatePathsCount(dir, name, n);
    forall c | c in CandidatePaths(dir, name, n) ensures c in fs.Keys {
      var k :| 1 <= k <= n && c == dir + [Candidate(name, k)];
    }
    SubsetCard(CandidatePaths(dir, name, n), fs.Keys);
    assert |fs.Keys| == |fs|;
  }

  lemma {:induction false} SubsetCard<T>(a: set<T>, b: set<T>)
    requires a <= b
    ensures |a| <= |b|
    decreases a
  {
    if a != {} {
      var x :| x in a;
      SubsetCard(a - {x}, b - {x});
    }
  }

  /** The `while path.exists()` loop from counter `n` on: the first counter
      at or after `n` whose candidate is free. */
  function FirstFree(fs: FS, dir: Path, name: string, n: nat): (r: nat)
    requires 1 <= n && CandidatesTaken(fs, dir, name, n)
    ensures n <= r
    ensures dir + [Candidate(name, r)] !in fs
    ensures CandidatesTaken(fs, dir, name, r)
    decreases |fs| + 1 - n
  {
    if dir + [Candidate(name, n)] !in fs then n
    else
      TakenBound(fs, dir, name, n);
      FirstFree(fs, dir, name, n + 1)
  }

  /** Where a file named `name` lands in `dir`: its own name when free,
      otherwise the candidate with the least free counter `n >= 1`. */
  function Target(fs: FS, dir: Path, name: string): (t: Path)
    ensures t !in fs
    ensures |t| == |dir| + 1 && t[..|dir|] == dir
  {
    if dir + [name] !in fs then dir + [name]
    else dir + [Candidate(name, FirstFree(fs, dir, name, 1))]
  }

  /** The chosen name is the least free one: its own name if free, else
      `base_(n)suffix` for the least `n >= 1` whose path does not exist. */
  lemma TargetIsLeastFree(fs: FS, dir: Path, name: string)
    ensures dir + [name] !in fs ==> Target(fs, dir, name) == dir + [name]
    ensures dir + [name] in fs ==>
      exists n: nat :: 1 <= n
        && Target(fs, dir, name) == dir + [Candidate(name, n)]
        && dir + [Candidate(name, n)] !in fs
        && forall k :: 1 <= k < n ==> dir + [Candidate(name, k)] in fs
  {
    if dir + [name] in fs {
      var n := FirstFree(fs, dir, name, 1);
      assert CandidatesTaken(fs, dir, name, n);
    }
  }

  /** The search as the engines run it: try the name, then count up from 1
      until a candidate does not exist. It lands where `Target` says. */
  method FindTarget(fs: FS, dir: Path, name: string) returns (t: Path)
    ensures t == Target(fs, dir, name)
    ensures t !in fs
  {
    t := dir + [name];
    if t !in fs {
      return;
    }
    var n: nat := 1;
    while dir + [Candidate(name, n)] in fs
      invariant 1 <= n
      invariant CandidatesTaken(fs, dir, name, n)
      invariant FirstFree(fs, dir, name, n) == FirstFree(fs, dir, name, 1)
      decreases |fs| + 1 - n
    {
      TakenBound(fs, dir, name, n);
      n := n + 1;
    }
    t := dir + [Candidate(name, n)];
  }

  // ---- the decision -----------------------------------------------------------

  datatype MovePlan =
    | Unroutable                          // the folder value is not a string
    | AlreadyPlaced                       // the file already sits in its folder
    | MoveTo(dir: Path, target: Path)

  /** The folder a file belongs in, under `dest`, if the rule gives a string. */
  function FolderOf(file: Path, dest: Path, table: Table): (r: Option<Path>)
    requires |file| > 0
    ensures r.Some? <==> GetFolder(table, Suffix(Name(file))).Str?
    ensures r.Some? ==> var f := GetFolder(table, Suffix(Name(file))).s;
      (|f| > 0 && f[0] == '/') || IsPrefix(dest, r.value)
  {
    var folder := GetFolder(table, Suffix(Name(file)));
    if folder.Str? then Some(JoinStr(dest, folder.s)) else None
  }

  /** Lines 101-124: look the suffix up, skip a file already in its folder,
      otherwise pick a free target there. */
  function Plan(fs: FS, file: Path, dest: Path, table: Table): (p: MovePlan)
    requires |file| > 0
    ensures p.Unroutable? <==> FolderOf(file, dest, table).None?
    ensures p.AlreadyPlaced? <==> FolderOf(file, dest, table) == Some(Parent(file))
    ensures p.MoveTo? ==> FolderOf(file, dest, table) == Some(p.dir) && p.dir != Parent(file)
    ensures p.MoveTo? ==> p.target !in fs && |p.target| > 0 && Parent(p.target) == p.dir
  {
    match FolderOf(file, dest, table)
    case None => Unroutable
    case Some(dir) =>
      if Parent(file) == dir then AlreadyPlaced
      else
        var t := Target(fs, dir, Name(file));
        assert Parent(t) == dir;
        MoveTo(dir, t)
  }

  // ---- carrying it out ---------------------------------------------------------

  /** What processing one file did. `Failed` keeps the file system as the
      failure left it (the folder may have been created before the move
      failed). */
  datatype Outcome =
    | Skipped
    | Simulated
    | Moved(fs: FS)
    | Failed(fs: FS)

  /** The file system after an outcome. */
  function After(fs: FS, o: Outcome): FS {
    match o
    case Skipped => fs
    case Simulated => fs
    case Moved(fs') => fs'
    case Failed(fs') => fs'
  }

  /** Lines 134-137: create the folder with its parents, then move the file. */
  function Relocate(fs: FS, file: Path, dir: Path, target: Path): (o: Outcome)
    requires target !in fs && |target| > 0 && Parent(target) == dir
    ensures o.Moved? || o.Failed?
  {
    match MakeDirs(fs, dir)
    case None => Failed(fs)
    case Some(fs1) =>
      assert target !in fs1;
      match Rename(fs1, file, target)
      case None => Failed(fs1)
      case Some(fs2) => Moved(fs2)
  }

  /** One call of `_process_file`, with `except Exception` turned into the
      `Failed` outcome. */
  function Handle(fs: FS, file: Path, dest: Path, table: Table, dryRun: bool): (o: Outcome)
    requires |file| > 0
    ensures o.Skipped? <==> Plan(fs, file, dest, table).AlreadyPlaced?
    ensures o.Simulated? <==> dryRun && Plan(fs, file, dest, table).MoveTo?
    ensures o.Moved? ==> !dryRun
    ensures dryRun ==> After(fs, o) == fs
  {
    match Plan(fs, file, dest, table)
    case Unroutable => Failed(fs)
    case AlreadyPlaced => Skipped
    case MoveTo(dir, target) =>
      if dryRun then Simulated else Relocate(fs, file, dir, target)
  }

  /** The effect of one file on the file system: a real move puts the
      file's content at the planned free target and removes the origin;
      nothing else that existed changes, and everything new is the target
      or a directory on the way to the folder. */
  lemma HandleEffect(fs: FS, file: Path, dest: Path, table: Table, dryRun: bool)
    requires |file| > 0
    ensures var o := Handle(fs, file, dest, table, dryRun);
      var p := Plan(fs, file, dest, table);
      var fs' := After(fs, o);
      && (o.Moved? ==> p.MoveTo? && p.target !in fs && p.target in fs'
                       && fs'[p.target] == fs[file] && file !in fs')
      && (forall q :: q in fs && q != file ==> q in fs' && fs'[q] == fs[q])
      && (forall q :: q in fs' && q !in fs ==>
            p.MoveTo? && (q == p.target || (fs'[q] == Dir && IsPrefix(q, p.dir))))
  {
    var p := Plan(fs, file, dest, table);
    if p.MoveTo? && !dryRun {
      match MakeDirs(fs, p.dir)
      case None =>
        assert Handle(fs, file, dest, table, dryRun) == Failed(fs);
      case Some(fs1) =>
        assert p.target !in fs1;
        match Rename(fs1, file, p.target)
        case None =>
          assert Handle(fs, file, dest, table, dryRun) == Failed(fs1);
        case Some(fs2) =>
          assert Handle(fs, file, dest, table, dryRun) == Moved(fs2);
    } else {
      assert After(fs, Handle(fs, file, dest, table, dryRun)) == fs;
    }
  }

  /** When the file is there, processing fails exactly when its rule gives
      no folder name, or (outside dry-run) its folder cannot be created
      because a regular file is in the way. */
  lemma HandleFails(fs: FS, file: Path, dest: Path, table: Table, dryRun: bool)
    requires |file| > 0 && IsFile(fs, file)
    ensures var p := Plan(fs, file, dest, table);
      Handle(fs, file, dest, table, dryRun).Failed? <==>
        p.Unroutable? || (!dryRun && p.MoveTo? && Blocked(fs, p.dir))
  {
    var p := Plan(fs, file, dest, table);
    if p.MoveTo? && !dryRun && !Blocked(fs, p.dir) {
      var fs1 := MakeDirs(fs, p.dir).value;
      assert IsFile(fs1, file);
      assert p.target !in fs1;
      assert Rename(fs1, file, p.target).Some?;
    }
  }

  /** No regular file is lost or duplicated by processing one file. */
  lemma HandleKeepsFileCount(fs: FS, file: Path, dest: Path, table: Table, dryRun: bool)
    requires |file| > 0
    ensures |Files(After(fs, Handle(fs, file, dest, table, dryRun)))| == |Files(fs)|
  {
    var p := Plan(fs, file, dest, table);
    if p.MoveTo? && !dryRun {
      if MakeDirs(fs, p.dir).Some? {
        var fs1 := MakeDirs(fs, p.dir).value;
        MakeDirsKeepsFiles(fs, p.dir);
        assert p.target !in fs1;
        if Rename(fs1, file, p.target).Some? {
          RenameKeepsFileCount(fs1, file, p.target);
        }
      }
    }
  }

  /** Processing one file keeps the file system a tree. */
  lemma HandleWellFormed(fs: FS, file: Path, dest: Path, table: Table, dryRun: bool)
    requires |file| > 0 && WellFormed(fs)
    ensures WellFormed(After(fs, Handle(fs, file, dest, table, dryRun)))
  {
    var p := Plan(fs, file, dest, table);
    if p.MoveTo? && !dryRun {
      if MakeDirs(fs, p.dir).Some? {
        var fs1 := MakeDirs(fs, p.dir).value;
        MakeDirsWellFormed(fs, p.dir);
        assert p.target !in fs1;
        if Rename(fs1, file, p.target).Some? {
          RenameWellFormed(fs1, file, p.target);
        }
      }
    }
  }

  // ---- a second run ---------------------------------------------------------------

  /** The target of a move keeps the file's suffix whenever the file has
      one: the target is the file's own name or one of its candidates. */
  lemma TargetKeepsSuffix(fs: FS, dir: Path, name: string)
    requires Suffix(name) != ""
    ensures |Target(fs, dir, name)| > 0 && Suffix(Name(Target(fs, dir, name))) == Suffix(name)
  {
    TargetIsLeastFree(fs, dir, name);
    if dir + [name] in fs {
      var n: nat :| 1 <= n && Target(fs, dir, name) == dir + [Candidate(name, n)];
      CandidateKeepsSuffix(name, n);
    }
  }

  /** Once a file is moved, processing it again where it landed skips it,
      provided its name kept its suffix: it now sits in the folder its rule
      names. */
  lemma MovedFileIsPlaced(fs: FS, file: Path, dest: Path, table: Table)
    requires |file| > 0
    requires Handle(fs, file, dest, table, false).Moved?
    requires Suffix(Name(Plan(fs, file, dest, table).target)) == Suffix(Name(file))
    ensures var t := Plan(fs, file, dest, table).target;
      var fs' := After(fs, Handle(fs, file, dest, table, false));
      && Plan(fs', t, dest, table).AlreadyPlaced?
      && Handle(fs', t, dest, table, false).Skipped?
  {
    var p := Plan(fs, file, dest, table);
    assert FolderOf(p.target, dest, table) == FolderOf(file, dest, table);
  }

  /** A second run skips every file the first one moved, as long as the
      file's name has a suffix; a name without one can gain a suffix from
      its collision counter (`Paths.TrailingDotCandidateGainsSuffix`). */
  lemma SecondRunSkipsMovedFile(fs: FS, file: Path, dest: Path, table: Table)
    requires |file| > 0
    requires Handle(fs, file, dest, table, false).Moved?
    requires Suffix(Name(file)) != ""
    ensures var t := Plan(fs, file, dest, table).target;
      Handle(After(fs, Handle(fs, file, dest, table, false)), t, dest, table, false).Skipped?
  {
    var p := Plan(fs, file, dest, table);
    TargetKeepsSuffix(fs, p.dir, Name(file));
    MovedFileIsPlaced(fs, file, dest, table);
  }

  // ---- the traversal -------------------------------------------------------------

  /** The loop over the listing: an entry is processed when it is a
      regular file at its turn (`if item.is_file()`). Returns the final file
      system and what happened to each processed file, in order. */
  function Walk(fs: FS, entries: seq<Path>, dest: Path, table: Table, dryRun: bool): (r: (FS, seq<Outcome>))
    requires forall i :: 0 <= i < |entries| ==> |entries[i]| > 0
    ensures |r.1| <= |entries|
    ensures dryRun ==> r.0 == fs
    ensures |Files(r.0)| == |Files(fs)|
    ensures WellFormed(fs) ==> WellFormed(r.0)
    decreases |entries|
  {
    if entries == [] then (fs, [])
    else if !IsFile(fs, entries[0]) then Walk(fs, entries[1..], dest, table, dryRun)
    else
      var o := Handle(fs, entries[0], dest, table, dryRun);
      HandleKeepsFileCount(fs, entries[0], dest, table, dryRun);
      assert WellFormed(fs) ==> WellFormed(After(fs, o)) by {
        if WellFormed(fs) {
          HandleWellFormed(fs, entries[0], dest, table, dryRun);
        }
      }
      var tail := entries[1..];
      assert forall i :: 0 <= i < |tail| ==> |tail[i]| > 0 by {
        forall i | 0 <= i < |tail| ensures |tail[i]| > 0 {
          assert tail[i] == entries[i + 1];
        }
      }
      var rest := Walk(After(fs, o), tail, dest, table, dryRun);
      (rest.0, [o] + rest.1)
  }

  /** A dry traversal moves nothing: each of its outcomes is a skip, a
      simulation or a failure. */
  lemma {:induction false} WalkDryRunMovesNothing(fs: FS, entries: seq<Path>, dest: Path, table: Table, i: nat)
    requires forall k :: 0 <= k < |entries| ==> |entries[k]| > 0
    requires i < |Walk(fs, entries, dest, table, true).1|
    ensures !Walk(fs, entries, dest, table, true).1[i].Moved?
    decreases |entries|
  {
    var tail := entries[1..];
    assert forall k :: 0 <= k < |tail| ==> |tail[k]| > 0 by {
      forall k | 0 <= k < |tail| ensures |tail[k]| > 0 {
        assert tail[k] == entries[k + 1];
      }
    }
    if IsFile(fs, entries[0]) {
      var o := Handle(fs, entries[0], dest, table, true);
      var rest := Walk(After(fs, o), tail, dest, table, true);
      assert Walk(fs, entries, dest, table, true).1 == [o] + rest.1;
      if i > 0 {
        WalkDryRunMovesNothing(After(fs, o), tail, dest, table, i - 1);
        assert Walk(fs, entries, dest, table, true).1[i] == rest.1[i - 1];
      }
    } else {
      WalkDryRunMovesNothing(fs, tail, dest, table, i);
    }
  }

  /** The entries that are regular files in `fs`, in listing order. */
  function RegularFiles(fs: FS, entries: seq<Path>): (r: seq<Path>)
    ensures forall p :: p in r <==> p in entries && IsFile(fs, p)
  {
    if entries == [] then []
    else (if IsFile(fs, entries[0]) then [entries[0]] else []) + RegularFiles(fs, entries[1..])
  }

  /** Walking the listing lazily processes exactly the entries that were
      regular files when the listing was taken: moving one file never
      creates, removes or changes another listed entry. */
  lemma {:induction false} WalkProcessesSnapshot(fs: FS, entries: seq<Path>, dest: Path, table: Table, dryRun: bool)
    requires forall i :: 0 <= i < |entries| ==> |entries[i]| > 0 && entries[i] in fs
    requires Distinct(entries)
    ensures |Walk(fs, entries, dest, table, dryRun).1| == |RegularFiles(fs, entries)|
    decreases |entries|
  {
    if entries != [] {
      var rest := entries[1..];
      assert Distinct(rest) by {
        forall i, j | 0 <= i < j < |rest| ensures rest[i] != rest[j] {
          assert rest[i] == entries[i + 1] && rest[j] == entries[j + 1];
        }
      }
      if !IsFile(fs, entries[0]) {
        WalkProcessesSnapshot(fs, rest, dest, table, dryRun);
      } else {
        var fs' := After(fs, Handle(fs, entries[0], dest, table, dryRun));
        HandleEffect(fs, entries[0], dest, table, dryRun);
        forall i | 0 <= i < |rest| ensures rest[i] in fs' && fs'[rest[i]] == fs[rest[i]] {
          assert rest[i] == entries[i + 1] && entries[0] != entries[i + 1];
        }
        RegularFilesFrame(fs, fs', rest);
        WalkProcessesSnapshot(fs', rest, dest, table, dryRun);
      }
    }
  }

  lemma {:induction false} RegularFilesFrame(fs: FS, fs': FS, entries: seq<Path>)
    requires forall i :: 0 <= i < |entries| ==> entries[i] in fs && entries[i] in fs' && fs'[entries[i]] == fs[entries[i]]
    ensures RegularFiles(fs', entries) == RegularFiles(fs, entries)
    decreases |entries|
  {
    if entries != [] {
      RegularFilesFrame(fs, fs', entries[1..]);
    }
  }

  /** Filtering keeps a listing free of repetitions. */
  lemma {:induction false} RegularFilesDistinct(fs: FS, entries: seq<Path>)
    requires Distinct(entries)
    ensures Distinct(RegularFiles(fs, entries))
  {
    if entries != [] {
      var rest := entries[1..];
      assert Distinct(rest) by {
        forall i, j | 0 <= i < j < |rest| ensures rest[i] != rest[j] {
          assert rest[i] == entries[i + 1] && rest[j] == entries[j + 1];
        }
      }
      RegularFilesDistinct(fs, rest);
      assert entries[0] !in rest by {
        forall i | 0 <= i < |rest| ensures rest[i] != entries[0] {
          assert rest[i] == entries[i + 1];
        }
      }
    }
  }

  datatype Kind = SkipKind | SimulateKind | MoveKind | FailKind

  function KindOf(o: Outcome): Kind {
    match o
    case Skipped => SkipKind
    case Simulated => SimulateKind
    case Moved(_) => MoveKind
    case Failed(_) => FailKind
  }

  /** How many of the outcomes are of kind `k`. */
  function Count(outs: seq<Outcome>, k: Kind): (n: nat)
    ensures n <= |outs|
  {
    if outs == [] then 0
    else (if KindOf(outs[0]) == k then 1 else 0) + Count(outs[1..], k)
  }

  /** Every processed file has exactly one outcome. */
  lemma {:induction false} CountsAddUp(outs: seq<Outcome>)
    ensures Count(outs, SkipKind) + Count(outs, SimulateKind) + Count(outs, MoveKind)
          + Count(outs, FailKind) == |outs|
  {
    if outs != [] {
      CountsAddUp(outs[1..]);
    }
  }

  lemma {:induction false} CountAbsent(outs: seq<Outcome>, k: Kind)
    requires forall i :: 0 <= i < |outs| ==> KindOf(outs[i]) != k
    ensures Count(outs, k) == 0
  {
    if outs != [] {
      CountAbsent(outs[1..], k);
    }
  }
}
