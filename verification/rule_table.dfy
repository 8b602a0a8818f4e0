/** The extension-to-folder table every rule manager builds, the lookup all
    three variants share (`get_folder`), the key normalisation of
    `rules.py` and `rule_manager/rule_manager.py`, and the built-in table. */
module RuleTable {
  import opened Text
  import opened Json
  import opened Seqs

  /** Extension (as stored) to folder value. Folder values come from JSON
      and need not be strings. */
  type Table = map<string, Value>

  const Others: Value := Str("Others")

  /** `get_folder`: the entry for the lower-cased query, else `"Others"`.
      The query gets no leading dot added. */
  function GetFolder(t: Table, ext: string): (r: Value)
    ensures r == Others || r in t.Values
    ensures r != Others ==> Lower(ext) in t
  {
    var key := Lower(ext);
    if key in t then t[key] else Others
  }

  /** Lookups ignore the letter case of the query. */
  lemma GetFolderIgnoresCase(t: Table, ext: string)
    ensures GetFolder(t, ext) == GetFolder(t, Lower(ext))
  {
    LowerIsLower(ext);
    LowerOfLower(Lower(ext));
  }

  /** What a lookup returns: a stored folder exactly when the lower-cased
      query is a key, `"Others"` otherwise. */
  lemma GetFolderFallback(t: Table, ext: string)
    ensures Lower(ext) in t ==> GetFolder(t, ext) == t[Lower(ext)]
    ensures Lower(ext) !in t ==> GetFolder(t, ext) == Others
  {
  }

  /** A table whose keys are all normalised: every key is dotted. */
  predicate IsNormalised(t: Table) {
    forall k :: k in t ==> IsDotted(k)
  }

  /** Since no dot is added to the query, a query without a leading dot
      always falls back on a normalised table. */
  lemma UndottedQueryFallsBack(t: Table, ext: string)
    requires IsNormalised(t) && !StartsWithDot(ext)
    ensures GetFolder(t, ext) == Others
  {
    if |ext| > 0 {
      assert Lower(ext)[0] == LowerChar(ext[0]);
    }
  }

  /** `normalize_dict` / `_normalize_dict`: every key made `Dotted`, values
      kept verbatim, pairs in the same order. */
  function NormalizeKeys(d: Dict): (r: Dict)
    ensures |r| == |d|
    ensures forall i :: 0 <= i < |d| ==> r[i].0 == Dotted(d[i].0) && r[i].1 == d[i].1
    ensures IsNormalised(ToMap(r))
    ensures ToMap(r).Keys == DottedKeySet(d)
  {
    var r := seq(|d|, i requires 0 <= i < |d| => (Dotted(d[i].0), d[i].1));
    DottedKeys(d, r);
    r
  }

  /** The normalised forms of the keys of `d`. */
  function DottedKeySet(d: Dict): set<string> {
    set j | 0 <= j < |d| :: Dotted(d[j].0)
  }

  /** A dict whose every key is the dotted form of the key at the same
      place in `d` denotes a normalised table keyed by those forms. */
  lemma DottedKeys(d: Dict, r: Dict)
    requires |r| == |d|
    requires forall i :: 0 <= i < |d| ==> r[i].0 == Dotted(d[i].0)
    ensures IsNormalised(ToMap(r))
    ensures ToMap(r).Keys == DottedKeySet(d)
  {
    forall k | k in ToMap(r) ensures IsDotted(k) {
      assert k in KeysOf(r);
    }
    forall k | k in ToMap(r) ensures k in DottedKeySet(d) {
      assert k in KeysOf(r);
    }
    forall k | k in DottedKeySet(d) ensures k in ToMap(r) {
      var j :| 0 <= j < |d| && Dotted(d[j].0) == k;
      assert r[j].0 == k;
      assert k in KeysOf(r);
    }
  }

  /** The table a normalised dict denotes is normalised. */
  lemma NormalizeKeysNormalised(d: Dict)
    ensures IsNormalised(ToMap(NormalizeKeys(d)))
  {
    var r := NormalizeKeys(d);
    forall k | k in ToMap(r) ensures IsDotted(k) {
      assert k in KeysOf(r);
    }
  }

  /** Normalising an already normalised dict changes nothing. */
  lemma NormalizeKeysIdempotent(d: Dict)
    ensures NormalizeKeys(NormalizeKeys(d)) == NormalizeKeys(d)
  {
    forall i | 0 <= i < |d|
      ensures Dotted(Dotted(d[i].0)) == Dotted(d[i].0)
    {
      DottedIdempotent(d[i].0);
    }
  }

  /** A dict whose keys are already normalised passes through unchanged. */
  lemma NormalizeKeysOfNormal(d: Dict)
    requires forall i :: 0 <= i < |d| ==> IsDotted(d[i].0)
    ensures NormalizeKeys(d) == d
  {
    forall i | 0 <= i < |d|
      ensures Dotted(d[i].0) == d[i].0
    {
      DottedFixedPoints(d[i].0);
    }
  }

  /** Two keys differing only in letter case land on the same entry; the
      later pair wins. */
  lemma NormalizeKeysMergesCase(k: string, a: Value, b: Value)
    ensures ToMap(NormalizeKeys([(k, a), (Lower(k), b)])) == map[Dotted(k) := b]
  {
    DottedIgnoresCase(k);
    var r := NormalizeKeys([(k, a), (Lower(k), b)]);
    assert r == [(Dotted(k), a), (Dotted(k), b)];
    assert r[..1] == [(Dotted(k), a)];
    assert r[..1][..0] == [];
  }

  /** The table merged when no default rules file exists: 13 entries. */
  const BuiltinRules: Table := map[
    ".jpg" := Str("Images"),
    ".jpeg" := Str("Images"),
    ".png" := Str("Images"),
    ".gif" := Str("Images"),
    ".txt" := Str("Documents"),
    ".pdf" := Str("Documents"),
    ".docx" := Str("Documents"),
    ".mp3" := Str("Music"),
    ".wav" := Str("Music"),
    ".mp4" := Str("Videos"),
    ".avi" := Str("Videos"),
    ".zip" := Str("Archives"),
    ".rar" := Str("Archives")
  ]

  lemma BuiltinRulesNormalised()
    ensures IsNormalised(BuiltinRules)
  {
  }

  lemma BuiltinRulesLookups()
    ensures GetFolder(BuiltinRules, ".PNG") == Str("Images")
    ensures GetFolder(BuiltinRules, ".md") == Others
  {
    assert Lower(".PNG") == ".png";
    assert Lower(".md") == ".md";
  }

  /** The built-in extensions, in the order the table lists them. */
  const BuiltinKeys: seq<string> :=
    [".jpg", ".jpeg", ".png", ".gif", ".txt", ".pdf", ".docx", ".mp3", ".wav", ".mp4", ".avi", ".zip", ".rar"]

  /** No two of the 13 listed extensions coincide, so none overrides
      another. */
  lemma BuiltinRulesSize()
    ensures |BuiltinRules| == 13
  {
    assert Distinct(BuiltinKeys);
    DistinctCard(BuiltinKeys);
    assert BuiltinRules.Keys == set x | x in BuiltinKeys;
  }
}
