/** The part of the file system the organizer touches: a finite map from
    resolved paths to regular files and directories, with the two mutations
    the engine performs (`mkdir(parents=True, exist_ok=True)` and an atomic
    rename standing for `shutil.move`). */
module FileSystem {
  import opened Wrappers
  import opened Paths

  datatype Node = File(content: seq<int>) | Dir

  type FS = map<Path, Node>

  predicate IsDir(fs: FS, p: Path) {
    p in fs && fs[p].Dir?
  }

  predicate IsFile(fs: FS, p: Path) {
    p in fs && fs[p].File?
  }

  /** A tree: the root is a directory and every other entry sits in one. */
  predicate WellFormed(fs: FS) {
    IsDir(fs, []) && forall p {:trigger Parent(p)} :: p in fs && |p| > 0 ==> IsDir(fs, Parent(p))
  }

  function Files(fs: FS): set<Path> {
    set p | p in fs && fs[p].File?
  }

  /** Every ancestor of an entry of a tree is a directory of it. */
  lemma {:induction false} AncestorsAreDirs(fs: FS, p: Path, i: nat)
    requires WellFormed(fs) && p in fs && i < |p|
    ensures IsDir(fs, p[..i])
    decreases |p| - i
  {
    if i + 1 < |p| {
      AncestorsAreDirs(fs, p, i + 1);
      assert Parent(p[..i + 1]) == p[..i];
    } else {
      assert Parent(p) == p[..i];
    }
  }

  // ---- mkdir(parents=True, exist_ok=True) -------------------------------------

  /** Creating `d` with its parents fails: the path or one of its ancestors
      exists as a regular file. */
  predicate Blocked(fs: FS, d: Path) {
    exists i :: 0 <= i <= |d| && IsFile(fs, d[..i])
  }

  function Prefixes(d: Path): set<Path> {
    set i | 0 <= i <= |d| :: d[..i]
  }

  /** `Path.mkdir(parents=True, exist_ok=True)`: adds every missing ancestor
      of `d`, and `d` itself, as a directory; fails, creating nothing, when
      the way is blocked by a regular file. */
  function MakeDirs(fs: FS, d: Path): (r: Option<FS>)
    ensures r.None? <==> Blocked(fs, d)
    ensures r.Some? ==> IsDir(r.value, d)
    ensures r.Some? ==> forall p :: p in fs ==> p in r.value && r.value[p] == fs[p]
    ensures r.Some? ==> forall p :: p in r.value && p !in fs ==> r.value[p] == Dir && IsPrefix(p, d)
  {
    if Blocked(fs, d) then None
    else
      var r := fs + map p | p in Prefixes(d) && p !in fs :: Dir;
      assert d == d[..|d|] && d in Prefixes(d);
      Some(r)
  }

  lemma MakeDirsKeepsFiles(fs: FS, d: Path)
    requires MakeDirs(fs, d).Some?
    ensures Files(MakeDirs(fs, d).value) == Files(fs)
  {
  }

  lemma MakeDirsWellFormed(fs: FS, d: Path)
    requires WellFormed(fs) && MakeDirs(fs, d).Some?
    ensures WellFormed(MakeDirs(fs, d).value)
  {
    var r := MakeDirs(fs, d).value;
    forall p | p in r && |p| > 0
      ensures IsDir(r, Parent(p))
    {
      if p !in fs {
        assert IsPrefix(p, d);
        var q := Parent(p);
        assert q == d[..|q|];
        if q in fs {
          assert !IsFile(fs, d[..|q|]);
        }
      }
    }
  }

  // ---- shutil.move to a fresh path ----------------------------------------------

  /** Moving the regular file `src` to the unused path `dst`: succeeds when
      `src` is a regular file and `dst`'s parent is a directory. */
  function Rename(fs: FS, src: Path, dst: Path): (r: Option<FS>)
    requires dst !in fs
    ensures r.Some? <==> IsFile(fs, src) && |dst| > 0 && IsDir(fs, Parent(dst))
    ensures r.Some? ==> r.value.Keys == fs.Keys - {src} + {dst}
    ensures r.Some? ==> r.value[dst] == fs[src]
    ensures r.Some? ==> forall p :: p in fs && p != src ==> r.value[p] == fs[p]
  {
    if IsFile(fs, src) && |dst| > 0 && IsDir(fs, Parent(dst)) then
      Some((fs - {src})[dst := fs[src]])
    else
      None
  }

  /** A move neither loses nor duplicates a regular file. */
  lemma RenameKeepsFileCount(fs: FS, src: Path, dst: Path)
    requires dst !in fs && Rename(fs, src, dst).Some?
    ensures Files(Rename(fs, src, dst).value) == Files(fs) - {src} + {dst}
    ensures |Files(Rename(fs, src, dst).value)| == |Files(fs)|
  {
    var r := Rename(fs, src, dst).value;
    assert Files(r) == Files(fs) - {src} + {dst};
    assert src in Files(fs) && dst !in Files(fs);
  }

  lemma RenameWellFormed(fs: FS, src: Path, dst: Path)
    requires WellFormed(fs) && dst !in fs && Rename(fs, src, dst).Some?
    ensures WellFormed(Rename(fs, src, dst).value)
  {
  }
}
