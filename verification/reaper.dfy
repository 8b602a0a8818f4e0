/** The empty-directory pass (`_rm_empty_dirs`): every directory strictly
    below the root, deepest first; an empty one is removed (or, in dry-run,
    only counted). The source sorts its snapshot by depth, deepest first.
    Directories of equal depth cannot change each other's emptiness (only
    a child's removal can empty a directory), so the model handles one
    depth level at a time, which gives the same result as any order within
    a level. */
module Reaper {
  import opened Paths
  import opened FileSystem

  /** `any(path.iterdir())`. */
  predicate HasEntries(fs: FS, p: Path) {
    exists q :: q in fs && IsChild(p, q)
  }

  /** The directories at depth `d` below `root` that are empty right now. */
  function EmptyAt(fs: FS, root: Path, d: nat): set<Path> {
    set p | p in fs && |p| == d && IsBelow(root, p) && fs[p].Dir? && !HasEntries(fs, p)
  }

  function Depths(fs: FS): set<nat> {
    set p | p in fs :: |p|
  }

  lemma {:induction false} MaxExists(s: set<nat>)
    requires s != {}
    ensures exists m :: m in s && forall k :: k in s ==> k <= m
    decreases s
  {
    var x :| x in s;
    if s != {x} {
      MaxExists(s - {x});
      var m :| m in s - {x} && forall k :: k in s - {x} ==> k <= m;
      var top := if x > m then x else m;
      forall k | k in s ensures k <= top {
        if k != x {
          assert k in s - {x};
        }
      }
    }
  }

  /** The depth of the deepest entry. */
  function MaxDepth(fs: FS): (m: nat)
    ensures forall p :: p in fs ==> |p| <= m
  {
    if fs == map[] then 0
    else
      var some :| some in fs;
      assert |some| in Depths(fs);
      MaxExists(Depths(fs));
      var m :| m in Depths(fs) && forall k :: k in Depths(fs) ==> k <= m;
      assert forall p :: p in fs ==> |p| in Depths(fs);
      m
  }

  /** `after` is `before` with some unlocked directories strictly below
      `root` taken away, and nothing else changed. */
  predicate Pruned(before: FS, after: FS, root: Path, locked: set<Path>) {
    && after.Keys <= before.Keys
    && (forall p :: p in after ==> after[p] == before[p])
    && (forall p :: p in before && p !in after ==> before[p].Dir? && p !in locked && IsBelow(root, p))
  }

  /** Levels `d`, `d - 1`, ..., down to the root's children. Returns the file
      system afterwards and the number counted as removed. A directory in
      `locked` refuses `rmdir` with a `PermissionError`: it stays and is
      not counted. */
  function ReapLevels(fs: FS, root: Path, d: nat, dryRun: bool, locked: set<Path>): (r: (FS, nat))
    decreases d
  {
    if d <= |root| then (fs, 0)
    else
      var empty := EmptyAt(fs, root, d);
      var gone := if dryRun then {} else empty - locked;
      var counted := if dryRun then |empty| else |gone|;
      var (fs', n) := ReapLevels(fs - gone, root, d - 1, dryRun, locked);
      (fs', counted + n)
  }

  /** `_rm_empty_dirs(root)`. */
  function Reap(fs: FS, root: Path, dryRun: bool, locked: set<Path>): (r: (FS, nat)) {
    ReapLevels(fs, root, MaxDepth(fs), dryRun, locked)
  }

  /** Whatever the tree, the pass only takes away unlocked directories
      strictly below the root, leaves every other entry as it was, and
      in dry-run takes nothing away. */
  lemma {:induction false} ReapLevelsPrunes(fs: FS, root: Path, d: nat, dryRun: bool, locked: set<Path>)
    ensures Pruned(fs, ReapLevels(fs, root, d, dryRun, locked).0, root, locked)
    ensures dryRun ==> ReapLevels(fs, root, d, dryRun, locked).0 == fs
    decreases d
  {
    if d <= |root| {
      PrunedNothing(fs, root, locked);
    } else {
      var gone: set<Path> := if dryRun then {} else EmptyAt(fs, root, d) - locked;
      var fs1 := fs - gone;
      var r := ReapLevels(fs1, root, d - 1, dryRun, locked).0;
      assert ReapLevels(fs, root, d, dryRun, locked).0 == r;
      ReapLevelsPrunes(fs1, root, d - 1, dryRun, locked);
      PrunedLevel(fs, root, gone, locked);
      PrunedTrans(fs, fs1, r, root, locked);
    }
  }

  lemma PrunedNothing(fs: FS, root: Path, locked: set<Path>)
    ensures Pruned(fs, fs, root, locked)
  {
  }

  /** Taking away some of one level's empty unlocked directories prunes. */
  lemma PrunedLevel(fs: FS, root: Path, gone: set<Path>, locked: set<Path>)
    requires forall p :: p in gone ==> p in fs && fs[p].Dir? && p !in locked && IsBelow(root, p)
    ensures Pruned(fs, fs - gone, root, locked)
  {
  }

  lemma PrunedTrans(a: FS, b: FS, c: FS, root: Path, locked: set<Path>)
    requires Pruned(a, b, root, locked) && Pruned(b, c, root, locked)
    ensures Pruned(a, c, root, locked)
  {
  }

  /** The whole pass prunes the tree the same way. */
  lemma ReapPrunes(fs: FS, root: Path, dryRun: bool, locked: set<Path>)
    ensures Pruned(fs, Reap(fs, root, dryRun, locked).0, root, locked)
    ensures dryRun ==> Reap(fs, root, dryRun, locked).0 == fs
  {
    ReapLevelsPrunes(fs, root, MaxDepth(fs), dryRun, locked);
  }

  // ---- what the pass removes ----------------------------------------------------

  /** A directory below `root` whose whole subtree (itself included) holds
      only directories, none of them locked. */
  predicate Clearable(fs: FS, root: Path, locked: set<Path>, p: Path) {
    p in fs && IsBelow(root, p) && OnlyUnlockedDirs(fs, locked, p)
  }

  predicate OnlyUnlockedDirs(fs: FS, locked: set<Path>, p: Path) {
    forall q :: q in fs && IsPrefix(p, q) ==> fs[q].Dir? && q !in locked
  }

  function ClearableSet(fs: FS, root: Path, locked: set<Path>): set<Path> {
    set p | p in fs && Clearable(fs, root, locked, p)
  }

  function ClearableAbove(fs: FS, root: Path, locked: set<Path>, d: nat): set<Path> {
    set p | p in fs && |p| > d && Clearable(fs, root, locked, p)
  }

  function ClearableUpTo(fs: FS, root: Path, locked: set<Path>, d: nat): set<Path> {
    set p | p in fs && |p| <= d && Clearable(fs, root, locked, p)
  }

  function ClearableAt(fs: FS, root: Path, locked: set<Path>, d: nat): set<Path> {
    set p | p in fs && |p| == d && Clearable(fs, root, locked, p)
  }

  lemma LevelSplit(fs: FS, root: Path, locked: set<Path>, d: nat)
    requires d > 0
    ensures ClearableAbove(fs, root, locked, d - 1)
         == ClearableAbove(fs, root, locked, d) + ClearableAt(fs, root, locked, d)
    ensures ClearableUpTo(fs, root, locked, d)
         == ClearableUpTo(fs, root, locked, d - 1) + ClearableAt(fs, root, locked, d)
    ensures ClearableUpTo(fs, root, locked, d - 1) !! ClearableAt(fs, root, locked, d)
    ensures |ClearableUpTo(fs, root, locked, d)|
         == |ClearableUpTo(fs, root, locked, d - 1)| + |ClearableAt(fs, root, locked, d)|
  {
  }

  /** In a tree, a directory is clearable exactly when it is unlocked and
      all its children are clearable. */
  lemma ClearableUnfold(fs: FS, root: Path, locked: set<Path>, p: Path)
    requires WellFormed(fs) && p in fs && IsBelow(root, p)
    ensures Clearable(fs, root, locked, p) <==>
      fs[p].Dir? && p !in locked &&
      forall c :: c in fs && IsChild(p, c) ==> Clearable(fs, root, locked, c)
  {
    if fs[p].Dir? && p !in locked &&
       forall c :: c in fs && IsChild(p, c) ==> Clearable(fs, root, locked, c)
    {
      forall q | q in fs && IsPrefix(p, q)
        ensures fs[q].Dir? && q !in locked
      {
        if q != p {
          var c := q[..|p| + 1];
          if |q| > |p| + 1 {
            AncestorsAreDirs(fs, q, |p| + 1);
          } else {
            assert c == q;
          }
          assert IsChild(p, c);
          assert IsPrefix(c, q);
        }
      }
    }
  }

  /** One level: the empty, unlocked directories at depth `d`, once the
      deeper clearable ones are gone, are exactly the clearable ones at
      depth `d`. */
  lemma LevelGone(fs: FS, root: Path, locked: set<Path>, d: nat)
    requires WellFormed(fs) && d > |root|
    ensures EmptyAt(fs - ClearableAbove(fs, root, locked, d), root, d) - locked
         == ClearableAt(fs, root, locked, d)
  {
    var g := fs - ClearableAbove(fs, root, locked, d);
    forall p | p in fs && |p| == d && IsBelow(root, p)
      ensures (p in EmptyAt(g, root, d) && p !in locked) <==> Clearable(fs, root, locked, p)
    {
      ClearableUnfold(fs, root, locked, p);
      assert p in g;
      forall c | c in fs && IsChild(p, c)
        ensures c in g <==> !Clearable(fs, root, locked, c)
      {
        assert |c| > d;
      }
    }
  }

  /** `LevelGone` at every level below the root. */
  ghost predicate LevelsAgree(fs: FS, root: Path, locked: set<Path>) {
    forall d: nat :: d > |root| ==>
      EmptyAt(fs - ClearableAbove(fs, root, locked, d), root, d) - locked == ClearableAt(fs, root, locked, d)
  }

  lemma AllLevelsGone(fs: FS, root: Path, locked: set<Path>)
    requires WellFormed(fs)
    ensures LevelsAgree(fs, root, locked)
  {
    forall d: nat | d > |root|
      ensures EmptyAt(fs - ClearableAbove(fs, root, locked, d), root, d) - locked
           == ClearableAt(fs, root, locked, d)
    {
      LevelGone(fs, root, locked, d);
    }
  }

  lemma {:induction false} ReapLevelsClears(fs: FS, g: FS, root: Path, d: nat, locked: set<Path>)
    requires LevelsAgree(fs, root, locked)
    requires g == fs - ClearableAbove(fs, root, locked, d)
    ensures ReapLevels(g, root, d, false, locked)
         == (fs - ClearableSet(fs, root, locked), |ClearableUpTo(fs, root, locked, d)|)
    decreases d
  {
    if d <= |root| {
      NothingClearableAtRoot(fs, root, locked, d);
    } else {
      var level := ClearableAt(fs, root, locked, d);
      LevelSplit(fs, root, locked, d);
      var above := ClearableAbove(fs, root, locked, d);
      SubtractTwice(fs, above, level);
      ReapLevelsClears(fs, g - level, root, d - 1, locked);
      ReapLevelsStep(g, root, d, locked);
    }
  }

  lemma NothingClearableAtRoot(fs: FS, root: Path, locked: set<Path>, d: nat)
    requires d <= |root|
    ensures ClearableUpTo(fs, root, locked, d) == {}
    ensures ClearableAbove(fs, root, locked, d) == ClearableSet(fs, root, locked)
  {
  }

  lemma SubtractTwice<K, V>(m: map<K, V>, a: set<K>, b: set<K>)
    ensures (m - a) - b == m - (a + b)
  {
  }

  lemma ReapLevelsStep(fs: FS, root: Path, d: nat, locked: set<Path>)
    requires d > |root|
    ensures var gone := EmptyAt(fs, root, d) - locked;
      var rest := ReapLevels(fs - gone, root, d - 1, false, locked);
      ReapLevels(fs, root, d, false, locked) == (rest.0, |gone| + rest.1)
  {
  }

  /** Outside dry-run the pass removes exactly the clearable directories
      (every directory whose subtree holds no regular file and no locked
      directory), nothing else, and counts each removal once. */
  lemma ReapRemovesClearable(fs: FS, root: Path, locked: set<Path>)
    requires WellFormed(fs)
    ensures Reap(fs, root, false, locked).0 == fs - ClearableSet(fs, root, locked)
    ensures Reap(fs, root, false, locked).1 == |ClearableSet(fs, root, locked)|
  {
    var d := MaxDepth(fs);
    assert ClearableAbove(fs, root, locked, d) == {};
    assert fs - ClearableAbove(fs, root, locked, d) == fs;
    AllLevelsGone(fs, root, locked);
    ReapLevelsClears(fs, fs, root, d, locked);
    assert ClearableUpTo(fs, root, locked, d) == ClearableSet(fs, root, locked);
  }

  /** The pass never removes a directory that still holds an entry: what
      remains is still a tree. */
  lemma ReapWellFormed(fs: FS, root: Path, locked: set<Path>)
    requires WellFormed(fs)
    ensures WellFormed(Reap(fs, root, false, locked).0)
  {
    ReapRemovesClearable(fs, root, locked);
    var c := ClearableSet(fs, root, locked);
    var r := fs - c;
    forall q | q in r && |q| > 0 ensures IsDir(r, Parent(q)) {
      var p := Parent(q);
      if p in c {
        assert IsPrefix(p, q);
        forall q' | q' in fs && IsPrefix(q, q') ensures fs[q'].Dir? && q' !in locked {
          assert IsPrefix(p, q');
        }
        assert Clearable(fs, root, locked, q);
      }
    }
  }

  // ---- dry-run -----------------------------------------------------------------

  /** The directories below `root` that are empty now. */
  function EmptyBelow(fs: FS, root: Path): set<Path> {
    set p | p in fs && IsBelow(root, p) && fs[p].Dir? && !HasEntries(fs, p)
  }

  /** The directories below `root`, at depth `d` or less, that are empty
      now. */
  function EmptyUpTo(fs: FS, root: Path, d: nat): set<Path> {
    set p | p in EmptyBelow(fs, root) && |p| <= d
  }

  /** One more level adds exactly the empty directories at that depth. */
  lemma EmptyUpToSplit(fs: FS, root: Path, d: nat)
    requires d > 0
    ensures EmptyUpTo(fs, root, d) == EmptyUpTo(fs, root, d - 1) + EmptyAt(fs, root, d)
    ensures EmptyUpTo(fs, root, d - 1) !! EmptyAt(fs, root, d)
  {
  }

  /** One level of a dry pass: nothing is removed and that level's empty
      directories are counted. */
  lemma ReapLevelsDryStep(fs: FS, root: Path, d: nat, locked: set<Path>)
    requires d > |root|
    ensures ReapLevels(fs, root, d, true, locked)
         == (ReapLevels(fs, root, d - 1, true, locked).0,
             |EmptyAt(fs, root, d)| + ReapLevels(fs, root, d - 1, true, locked).1)
  {
    var none: set<Path> := {};
    assert fs - none == fs;
  }

  lemma {:induction false} ReapLevelsDry(fs: FS, root: Path, d: nat, locked: set<Path>)
    ensures ReapLevels(fs, root, d, true, locked) == (fs, |EmptyUpTo(fs, root, d)|)
    decreases d
  {
    if d <= |root| {
      assert EmptyUpTo(fs, root, d) == {};
      assert ReapLevels(fs, root, d, true, locked) == (fs, 0);
    } else {
      ReapLevelsDry(fs, root, d - 1, locked);
      ReapLevelsDryStep(fs, root, d, locked);
      EmptyUpToSplit(fs, root, d);
      var lower, level := EmptyUpTo(fs, root, d - 1), EmptyAt(fs, root, d);
      assert lower * level == {};
      assert |EmptyUpTo(fs, root, d)| == |lower| + |level|;
      assert ReapLevels(fs, root, d, true, locked).0 == fs;
      assert ReapLevels(fs, root, d, true, locked).1 == |EmptyUpTo(fs, root, d)|;
    }
  }

  /** In dry-run nothing is removed and every currently empty directory
      below the root is counted. */
  lemma ReapDryRun(fs: FS, root: Path, locked: set<Path>)
    ensures Reap(fs, root, true, locked) == (fs, |EmptyBelow(fs, root)|)
  {
    ReapLevelsDry(fs, root, MaxDepth(fs), locked);
    assert EmptyUpTo(fs, root, MaxDepth(fs)) == EmptyBelow(fs, root);
  }

  /** The pass removes directories only: every regular file stays. */
  lemma ReapKeepsFiles(fs: FS, root: Path, dryRun: bool, locked: set<Path>)
    requires WellFormed(fs)
    ensures Files(Reap(fs, root, dryRun, locked).0) == Files(fs)
  {
    if dryRun {
      ReapDryRun(fs, root, locked);
    } else {
      ReapRemovesClearable(fs, root, locked);
      assert forall p :: p in ClearableSet(fs, root, locked) ==> fs[p].Dir? by {
        forall p | p in ClearableSet(fs, root, locked) ensures fs[p].Dir? {
          assert IsPrefix(p, p);
        }
      }
    }
  }
}
