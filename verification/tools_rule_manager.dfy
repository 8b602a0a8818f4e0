/** The rule manager of `src/rule_manager.py`: layers read through the tools
    loader and normalised through `ConfigNormalizer` with `rule_mg`, which
    rewrites the folder values and leaves the extension keys as given. */
module ToolsRuleManager {
  import opened Wrappers
  import opened Exceptions
  import opened Text
  import opened Json
  import opened RuleTable
  import opened Normalizer
  import opened Loader

  /** The normalisation a layer goes through: `data_normalizer(d,
      'rule_mg')` as written, which keeps every key and turns every folder
      into a dotted lower-case string (and fails with `AttributeError` on
      a folder that is not a string); or, when `keys` is set, the key
      normalisation of the other rule managers, which keeps every folder. */
  function NormalizeLayer(d: Dict, keys: bool): (r: Result<Dict, Error>)
    ensures keys ==> r.Success?
    ensures !keys ==> (r.Success? <==> forall i :: 0 <= i < |d| ==> d[i].1.Str?)
    ensures r.Failure? ==> r.error == Unhandled("AttributeError")
    ensures r.Success? ==> |r.value| == |d|
    ensures keys ==> forall i :: 0 <= i < |d| ==> r.value[i] == (Dotted(d[i].0), d[i].1)
    ensures !keys && r.Success? ==> forall i :: 0 <= i < |d| ==> r.value[i] == (d[i].0, Str(Dotted(d[i].1.s)))
  {
    if keys then Success(NormalizeKeys(d))
    else
      var r := DataNormalizer(d, "rule_mg");
      DataNormalizerFails(d, "rule_mg");
      if r.Success? then
        forall i | 0 <= i < |d| ensures r.value[i] == (d[i].0, Str(Dotted(d[i].1.s))) {
          assert Success(r.value[i]) == NormalizePair(d[i].0, d[i].1, "rule_mg");
        }
        r
      else
        var i: nat :| FailsFirstAt(d, "rule_mg", i, r.error);
        r
  }

  /** A dict whose folders are all strings, and the same dict with every
      folder dotted: they denote mappings with the same keys, each folder
      dotted. */
  lemma DottedValuesMap(d: Dict, e: Dict, k: string)
    requires |e| == |d|
    requires forall i :: 0 <= i < |d| ==> d[i].1.Str? && e[i] == (d[i].0, Str(Dotted(d[i].1.s)))
    requires k in KeysOf(d)
    ensures k in KeysOf(e) && ToMap(d)[k].Str? && ToMap(e)[k] == Str(Dotted(ToMap(d)[k].s))
  {
    ToMapSameIndex(d, e, k);
    var j :| 0 <= j < |d| && d[j].0 == k && ToMap(d)[k] == d[j].1 && ToMap(e)[k] == e[j].1;
    assert e[j] == (d[j].0, Str(Dotted(d[j].1.s)));
  }

  /** Action 1 (lines 25-26): the packaged rules, raw, when `combine`. */
  function CombineLayer(disk: Disk, b: Bundled, combine: bool): (r: Result<Table, Error>)
    ensures combine ==> (r.Success? <==> LoadFromFile(disk, b, "rules", None).Success?)
    ensures r.Failure? ==> LoadFromFile(disk, b, "rules", None).Failure? && r.error == LoadFromFile(disk, b, "rules", None).error
    ensures r.Success? ==> r.value == ToMap(DefaultLayer(disk, b, combine))
  {
    var t0: Table := map[];
    if combine then
      var d :- LoadFromFile(disk, b, "rules", None);
      Success(Update(t0, d))
    else Success(t0)
  }

  /** Action 2 (lines 28-31): the rules path, normalised, over `t`. */
  function PathLayer(disk: Disk, b: Bundled, t: Table, rulesPath: Option<string>, keys: bool): (r: Result<Table, Error>)
    ensures Given(rulesPath) ==> (r.Success? <==>
      && LoadFromFile(disk, b, "rules", rulesPath).Success?
      && NormalizeLayer(LoadFromFile(disk, b, "rules", rulesPath).value, keys).Success?)
    ensures r.Failure? ==> r.error == PathError || r.error == ConfigError || r.error == NotUtf8
                           || r.error == Unhandled("AttributeError")
    ensures r.Success? ==> r.value == Update(t, FileLayer(disk, b, rulesPath, keys))
  {
    if Given(rulesPath) then
      var d :- LoadFromFile(disk, b, "rules", rulesPath);
      var n :- NormalizeLayer(d, keys);
      Success(Update(t, n))
    else Success(Update(t, []))
  }

  /** Action 3 (lines 33-35): the explicit rules, normalised, over `t`. */
  function ExplicitStep(t: Table, rules: Dict, keys: bool): (r: Result<Table, Error>)
    ensures r.Success? <==> NormalizeLayer(rules, keys).Success?
    ensures r.Failure? ==> r.error == Unhandled("AttributeError")
    ensures r.Success? ==> r.value == Update(t, ExplicitLayer(rules, keys))
  {
    if rules != [] then
      var n :- NormalizeLayer(rules, keys);
      Success(Update(t, n))
    else
      assert NormalizeLayer(rules, keys) == Success([]);
      Success(Update(t, []))
  }

  /** Actions 1-3 of `RuleManager.__init__` (lines 21-35). */
  function Layered(disk: Disk, b: Bundled, rules: Dict, rulesPath: Option<string>, combine: bool, keys: bool): (r: Result<Table, Error>)
    ensures r.Failure? ==> r.error == PathError || r.error == ConfigError || r.error == NotUtf8
                           || r.error == Unhandled("AttributeError")
  {
    var t1 :- CombineLayer(disk, b, combine);
    var t2 :- PathLayer(disk, b, t1, rulesPath, keys);
    ExplicitStep(t2, rules, keys)
  }

  /** `RuleManager.__init__` (lines 17-38) with the layer normalisation
      chosen by `keys`: the three layers, then the packaged rules, as
      decoded, when they left the table empty. */
  function BuildWith(disk: Disk, b: Bundled, rules: Dict, rulesPath: Option<string>, combine: bool, keys: bool): (r: Result<Table, Error>)
    ensures r.Failure? ==> r.error == PathError || r.error == ConfigError || r.error == NotUtf8
                           || r.error == Unhandled("AttributeError")
    ensures keys && r.Failure? ==> r.error != Unhandled("AttributeError")
  {
    var t3 :- Layered(disk, b, rules, rulesPath, combine, keys);
    if t3 != map[] then Success(t3)
    else
      var d :- LoadFromFile(disk, b, "rules", None);
      Success(Update(t3, d))
  }

  /** The constructor as written. */
  function BuildAsWritten(disk: Disk, b: Bundled, rules: Dict, rulesPath: Option<string>, combine: bool): (r: Result<Table, Error>)
    ensures r.Failure? ==> r.error == PathError || r.error == ConfigError || r.error == NotUtf8
                           || r.error == Unhandled("AttributeError")
    ensures r.Success? ==> forall i :: 0 <= i < |rules| ==> rules[i].1.Str?
  {
    var r := BuildWith(disk, b, rules, rulesPath, combine, false);
    if r.Success? && rules != [] then
      assert Layered(disk, b, rules, rulesPath, combine, false).Success?;
      r
    else r
  }

  /** The packaged rules as `combine` merges them: raw, none if not asked
      for or unreadable. */
  function DefaultLayer(disk: Disk, b: Bundled, combine: bool): Dict
  {
    if combine && LoadFromFile(disk, b, "rules", None).Success?
    then LoadFromFile(disk, b, "rules", None).value else []
  }

  /** The rules path's pairs after `NormalizeLayer`; none if not given or
      unusable. */
  function FileLayer(disk: Disk, b: Bundled, rulesPath: Option<string>, keys: bool): Dict
  {
    if Given(rulesPath) && LoadFromFile(disk, b, "rules", rulesPath).Success?
       && NormalizeLayer(LoadFromFile(disk, b, "rules", rulesPath).value, keys).Success?
    then NormalizeLayer(LoadFromFile(disk, b, "rules", rulesPath).value, keys).value else []
  }

  /** The explicit rules after `NormalizeLayer`; none if unusable. */
  function ExplicitLayer(rules: Dict, keys: bool): Dict
  {
    if NormalizeLayer(rules, keys).Success? then NormalizeLayer(rules, keys).value else []
  }

  /** In both variants the layers stack: an explicit rule beats the rules
      path, which beats the raw packaged rules, and the table holds exactly
      the keys they supply. */
  lemma LayeredPrecedence(disk: Disk, b: Bundled, rules: Dict, rulesPath: Option<string>, combine: bool, keys: bool)
    requires Layered(disk, b, rules, rulesPath, combine, keys).Success?
    ensures combine ==> LoadFromFile(disk, b, "rules", None).Success?
    ensures Given(rulesPath) ==>
      && LoadFromFile(disk, b, "rules", rulesPath).Success?
      && NormalizeLayer(LoadFromFile(disk, b, "rules", rulesPath).value, keys).Success?
    ensures NormalizeLayer(rules, keys).Success?
    ensures var t := Layered(disk, b, rules, rulesPath, combine, keys).value;
      var d := DefaultLayer(disk, b, combine);
      var f := FileLayer(disk, b, rulesPath, keys);
      var e := ExplicitLayer(rules, keys);
      && t.Keys == KeysOf(d) + KeysOf(f) + KeysOf(e)
      && (forall k :: k in KeysOf(e) ==> t[k] == ToMap(e)[k])
      && (forall k :: k in KeysOf(f) && k !in KeysOf(e) ==> t[k] == ToMap(f)[k])
      && (forall k :: k in KeysOf(d) && k !in KeysOf(f) && k !in KeysOf(e) ==> t[k] == ToMap(d)[k])
  {
    var t1 := CombineLayer(disk, b, combine).value;
    var t2 := PathLayer(disk, b, t1, rulesPath, keys).value;
    assert t1.Keys == KeysOf(DefaultLayer(disk, b, combine));
    assert Layered(disk, b, rules, rulesPath, combine, keys) == ExplicitStep(t2, rules, keys);
  }

  /** The whole constructor, either variant: the stacked layers when they
      supply any key, otherwise exactly the packaged rules as decoded
      (lines 37-38). */
  lemma BuildPrecedence(disk: Disk, b: Bundled, rules: Dict, rulesPath: Option<string>, combine: bool, keys: bool)
    requires BuildWith(disk, b, rules, rulesPath, combine, keys).Success?
    ensures combine ==> LoadFromFile(disk, b, "rules", None).Success?
    ensures Given(rulesPath) ==> LoadFromFile(disk, b, "rules", rulesPath).Success?
    ensures var t := BuildWith(disk, b, rules, rulesPath, combine, keys).value;
      var d := DefaultLayer(disk, b, combine);
      var f := FileLayer(disk, b, rulesPath, keys);
      var e := ExplicitLayer(rules, keys);
      var layers := KeysOf(d) + KeysOf(f) + KeysOf(e);
      && (layers != {} ==> t.Keys == layers)
      && (forall k :: k in KeysOf(e) ==> t[k] == ToMap(e)[k])
      && (forall k :: k in KeysOf(f) && k !in KeysOf(e) ==> t[k] == ToMap(f)[k])
      && (forall k :: k in KeysOf(d) && k !in KeysOf(f) && k !in KeysOf(e) ==> t[k] == ToMap(d)[k])
      && (layers == {} ==>
            LoadFromFile(disk, b, "rules", None).Success? && t == ToMap(LoadFromFile(disk, b, "rules", None).value))
  {
    LayeredPrecedence(disk, b, rules, rulesPath, combine, keys);
    var t3 := Layered(disk, b, rules, rulesPath, combine, keys).value;
    if t3 != map[] {
      assert BuildWith(disk, b, rules, rulesPath, combine, keys) == Success(t3);
    } else {
      var empty: Table := map[];
      assert Update(empty, LoadFromFile(disk, b, "rules", None).value) == ToMap(LoadFromFile(disk, b, "rules", None).value);
    }
  }

  /** With `combine` alone, either variant holds the packaged rules exactly
      as decoded, their keys not normalised (line 26). */
  lemma DefaultsMergedRaw(disk: Disk, b: Bundled, keys: bool)
    requires LoadFromFile(disk, b, "rules", None).Success?
    ensures BuildWith(disk, b, [], None, true, keys) == Success(ToMap(LoadFromFile(disk, b, "rules", None).value))
  {
    var d := LoadFromFile(disk, b, "rules", None).value;
    var empty: Table := map[];
    assert Update(empty, d) == ToMap(d);
    assert ToMap(d) + ToMap([]) == ToMap(d);
    assert PathLayer(disk, b, ToMap(d), None, keys) == Success(ToMap(d));
    assert ExplicitStep(ToMap(d), [], keys) == Success(ToMap(d));
    assert Layered(disk, b, [], None, true, keys) == Success(ToMap(d));
  }

  /** As written, every explicit rule is stored under its key as given,
      mapped to its folder through `rule_mg`: a dotted extension-like
      string, not a folder. */
  lemma AsWrittenStoresDottedValues(disk: Disk, b: Bundled, rules: Dict, rulesPath: Option<string>, combine: bool)
    requires rules != []
    requires BuildAsWritten(disk, b, rules, rulesPath, combine).Success?
    ensures var t := BuildAsWritten(disk, b, rules, rulesPath, combine).value;
      forall k :: k in KeysOf(rules) ==>
        && k in t && RuleMg(ToMap(rules)[k]).Success?
        && t[k] == RuleMg(ToMap(rules)[k]).value
        && t[k].Str? && IsDotted(t[k].s)
  {
    BuildPrecedence(disk, b, rules, rulesPath, combine, false);
    var e := ExplicitLayer(rules, false);
    assert rules[0].0 in KeysOf(rules);
    forall k | k in KeysOf(rules)
      ensures k in KeysOf(e) && ToMap(rules)[k].Str? && ToMap(e)[k] == RuleMg(ToMap(rules)[k]).value
    {
      DottedValuesMap(rules, e, k);
    }
  }

  /** As written, an explicit rule whose folder is not a string fails with
      the `AttributeError` of `rule_mg`. */
  lemma AsWrittenRejectsNonStringFolders(disk: Disk, b: Bundled, ext: string, folder: Value)
    requires !folder.Str?
    ensures BuildAsWritten(disk, b, [(ext, folder)], None, false) == Failure(Unhandled("AttributeError"))
  {
    var rules := [(ext, folder)];
    assert FailsFirstAt(rules, "rule_mg", 0, Unhandled("AttributeError"));
    DataNormalizerFails(rules, "rule_mg");
    var r := DataNormalizer(rules, "rule_mg");
    var i: nat :| FailsFirstAt(rules, "rule_mg", i, r.error);
  }

  /** The constructor with keys normalised, as the other two rule managers
      do. */
  function Build(disk: Disk, b: Bundled, rules: Dict, rulesPath: Option<string>, combine: bool): (r: Result<Table, Error>)
    ensures r.Failure? ==> r.error == PathError || r.error == ConfigError || r.error == NotUtf8
    ensures rules != [] && r.Success? ==> forall k :: k in KeysOf(rules) ==> Dotted(k) in r.value
  {
    BuildWith(disk, b, rules, rulesPath, combine, true)
  }

  /** An explicit rule `png -> Images`: as written the table stores
      `png -> .images`, and a `.png` file falls back to `Others`; with keys
      normalised it resolves to `Images`. */
  lemma ValuesNormalisedInsteadOfKeys()
    ensures var rules := [("png", Str("Images"))];
      var b := Bundled("/styles.json", "/rules.json", "/config.json");
      && BuildAsWritten(map[], b, rules, None, false) == Success(map["png" := Str(".images")])
      && GetFolder(BuildAsWritten(map[], b, rules, None, false).value, ".png") == Others
      && Build(map[], b, rules, None, false) == Success(map[".png" := Str("Images")])
      && GetFolder(Build(map[], b, rules, None, false).value, ".png") == Str("Images")
  {
    var rules := [("png", Str("Images"))];
    var b := Bundled("/styles.json", "/rules.json", "/config.json");
    assert Lower("Images") == "images";
    assert Dotted("Images") == ".images";
    assert Lower("png") == "png";
    assert Dotted("png") == ".png";
    assert Lower(".png") == ".png";
    assert RuleMg(Str("Images")) == Success(Str(".images"));
    var pair := ("png", Str(".images"));
    assert NormalizePair("png", Str("Images"), "rule_mg") == Success(pair);
    DataNormalizerFails(rules, "rule_mg");
    var n := DataNormalizer(rules, "rule_mg").value;
    assert n == [pair] by {
      assert Success(n[0]) == NormalizePair(rules[0].0, rules[0].1, "rule_mg");
    }
    var written: Table := map["png" := Str(".images")];
    assert ToMap([pair]) == written by {
      assert [pair][..0] == [];
    }
    var empty: Table := map[];
    assert Update(empty, n) == written;
    assert BuildAsWritten(map[], b, rules, None, false) == Success(written);
    assert GetFolder(written, ".png") == Others;
    var keyed := [(".png", Str("Images"))];
    assert NormalizeKeys(rules) == keyed;
    var fixed: Table := map[".png" := Str("Images")];
    assert ToMap(keyed) == fixed by {
      assert keyed[..0] == [];
    }
    assert Update(empty, keyed) == fixed;
    assert Build(map[], b, rules, None, false) == Success(fixed);
  }

  /** A rules path that is given but missing is a `PathError`. */
  lemma MissingRulesPathFails(disk: Disk, b: Bundled, rules: Dict, path: string)
    requires path != "" && path !in disk
    ensures Build(disk, b, rules, Some(path), false) == Failure(PathError)
    ensures BuildAsWritten(disk, b, rules, Some(path), false) == Failure(PathError)
  {
  }
}
