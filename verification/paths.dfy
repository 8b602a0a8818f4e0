/** Pure paths (CPython 3.12 `PurePosixPath`): a path is the sequence of its
    components after resolution, `[]` being the root `/`. */
module Paths {
  import opened Text

  type Path = seq<string>

  predicate IsPrefix(a: Path, b: Path) {
    |a| <= |b| && b[..|a|] == a
  }

  /** `b` lies strictly below `a`. */
  predicate IsBelow(a: Path, b: Path) {
    |a| < |b| && b[..|a|] == a
  }

  /** `b` is an entry directly inside `a`. */
  predicate IsChild(a: Path, b: Path) {
    |b| == |a| + 1 && b[..|a|] == a
  }

  function Parent(p: Path): Path
    requires |p| > 0
  {
    p[..|p| - 1]
  }

  function Name(p: Path): string
    requires |p| > 0
  {
    p[|p| - 1]
  }

  // ---- suffix and stem --------------------------------------------------------

  /** `name.rfind('.')`: the index of the last dot, or -1. */
  function LastDot(s: string): (i: int)
    ensures -1 <= i < |s|
    ensures 0 <= i ==> s[i] == '.'
    ensures forall j :: i < j < |s| ==> s[j] != '.'
  {
    if s == [] then -1
    else if s[|s| - 1] == '.' then |s| - 1
    else LastDot(s[..|s| - 1])
  }

  /** The dot `pathlib` splits at: not the first character, not the last. */
  predicate HasSuffix(name: string) {
    0 < LastDot(name) < |name| - 1
  }

  /** `PurePath.suffix`. */
  function Suffix(name: string): string {
    if HasSuffix(name) then name[LastDot(name)..] else ""
  }

  /** `PurePath.stem`. */
  function Stem(name: string): string {
    if HasSuffix(name) then name[..LastDot(name)] else name
  }

  /** A name is its stem followed by its suffix; a non-empty suffix is a dot
      followed by at least one character, none of them a dot, and the stem
      it leaves is non-empty. */
  lemma StemSuffixSplit(name: string)
    ensures Stem(name) + Suffix(name) == name
    ensures Suffix(name) == "" <==> !HasSuffix(name)
    ensures Suffix(name) == "" || (|Suffix(name)| >= 2 && Suffix(name)[0] == '.' && |Stem(name)| >= 1)
    ensures forall j :: 0 < j < |Suffix(name)| ==> Suffix(name)[j] != '.'
  {
  }

  lemma {:induction false} LastDotAppend(x: string, y: string)
    requires LastDot(y) >= 0
    ensures LastDot(x + y) == |x| + LastDot(y)
    decreases |y|
  {
    var xy := x + y;
    if y[|y| - 1] == '.' {
      assert xy[|xy| - 1] == '.';
    } else {
      assert xy[..|xy| - 1] == x + y[..|y| - 1];
      LastDotAppend(x, y[..|y| - 1]);
    }
  }

  // ---- joining a folder name ---------------------------------------------------

  /** The index of the first `/` in `s`, or `|s|`. */
  function SlashIndex(s: string): (i: nat)
    ensures i <= |s|
    ensures forall j :: 0 <= j < i ==> s[j] != '/'
    ensures i < |s| ==> s[i] == '/'
  {
    if s == [] || s[0] == '/' then 0 else 1 + SlashIndex(s[1..])
  }

  /** The components `pathlib` parses out of a relative path string: split
      at `/`, dropping empty and `.` components. */
  function Components(s: string): (r: seq<string>)
    ensures forall i :: 0 <= i < |r| ==> r[i] != "" && r[i] != "." && '/' !in r[i]
    decreases |s|
  {
    var i := SlashIndex(s);
    var head := s[..i];
    var rest := if i < |s| then Components(s[i + 1..]) else [];
    if head == "" || head == "." then rest else [head] + rest
  }

  /** `base / s` for a string `s`: an absolute `s` replaces `base`. */
  function JoinStr(base: Path, s: string): Path {
    if |s| > 0 && s[0] == '/' then Components(s) else base + Components(s)
  }

  // ---- collision candidates ----------------------------------------------------

  /** The `n`-th alternative for `name`: `f'{stem}_({n}){suffix}'`. */
  function Candidate(name: string, n: nat): (r: string)
    ensures |r| >= |name| + 4
  {
    Stem(name) + "_(" + NatToString(n) + ")" + Suffix(name)
  }

  /** A common tail can be cancelled. */
  lemma DropTail(x: string, y: string, t: string)
    requires x + t == y + t
    ensures x == y
  {
    assert x == (x + t)[..|x|];
  }

  /** A common head can be cancelled. */
  lemma DropHead(h: string, x: string, y: string)
    requires h + x == h + y
    ensures x == y
  {
    assert x == (h + x)[|h|..];
  }

  /** Distinct counters give distinct candidates. */
  lemma CandidateInjective(name: string, a: nat, b: nat)
    requires Candidate(name, a) == Candidate(name, b)
    ensures a == b
  {
    var p := Stem(name) + "_(";
    DropTail(p + NatToString(a) + ")", p + NatToString(b) + ")", Suffix(name));
    DropTail(p + NatToString(a), p + NatToString(b), ")");
    DropHead(p, NatToString(a), NatToString(b));
    NatToStringInjective(a, b);
  }

  /** A renamed file keeps a non-empty suffix, so it is still filed under
      the same rule on a later run. */
  lemma CandidateKeepsSuffix(name: string, n: nat)
    requires Suffix(name) != ""
    ensures Suffix(Candidate(name, n)) == Suffix(name)
  {
    StemSuffixSplit(name);
    var suf := Suffix(name);
    var x := Stem(name) + "_(" + NatToString(n) + ")";
    assert LastDot(suf) == 0;
    LastDotAppend(x, suf);
    assert Candidate(name, n) == x + suf;
  }

  /** A name that ends in a dot has no suffix, yet its candidates do: the
      counter lands after the dot (`a.` becomes `a._(1)`, suffix `._(1)`). */
  lemma TrailingDotCandidateGainsSuffix()
    ensures Suffix("a.") == ""
    ensures Suffix(Candidate("a.", 1)) == "._(1)"
  {
    assert LastDot("a.") == 1;
    assert Candidate("a.", 1) == "a._(1)";
    assert "a._(1)"[..2] == "a.";
    assert "a._(1)"[..3][..2] == "a.";
    assert "a._(1)"[..4][..3] == "a._(1)"[..3];
    assert "a._(1)"[..5][..4] == "a._(1)"[..4];
    assert "a._(1)"[..6][..5] == "a._(1)"[..5];
  }
}
