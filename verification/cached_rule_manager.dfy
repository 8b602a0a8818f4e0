/** The rule manager of `src/rule_manager/rule_manager.py`: one `RuleLoader`
    serves every layer. Default entries are merged as decoded; the rules
    file and explicit rules are normalised. */
module CachedRuleManager {
  import opened Wrappers
  import opened Exceptions
  import opened Text
  import opened Json
  import opened RuleTable
  import opened RuleLoader

  /** The table being built and the loader that feeds it. */
  datatype Stage = Stage(loader: Loader, table: Table)

  /** Lines 24-25: with `combine`, the defaults are merged un-normalised. */
  function CombineStep(disk: Disk, s: Stage, combine: bool): (r: Result<Stage, Error>)
    requires s.loader.cache.Obj?
    ensures r.Success? ==> r.value.loader.cache.Obj? && s.table.Keys <= r.value.table.Keys
    ensures r.Success? ==> r.value.loader.defaultFile == s.loader.defaultFile
    ensures !combine ==> r == Success(s)
  {
    if !combine then Success(s)
    else
      var ld := LoadRules(disk, s.loader, None);
      var v :- ld.result;
      Success(Stage(ld.loader, Update(s.table, v.fields)))
  }

  /** Lines 27-29: a given rules path is loaded and normalised. With
      `separate`, the load goes through a loader of its own instead of the
      shared one. */
  function PathStep(disk: Disk, s: Stage, rulesPath: Option<string>, separate: bool): (r: Result<Stage, Error>)
    requires s.loader.cache.Obj?
    ensures r.Success? ==> r.value.loader.cache.Obj? && s.table.Keys <= r.value.table.Keys
    ensures r.Success? ==> r.value.loader.defaultFile == s.loader.defaultFile
    ensures !Given(rulesPath) ==> r == Success(s)
  {
    if !Given(rulesPath) then Success(s)
    else
      var from := if separate then Loader(s.loader.defaultFile, Obj([])) else s.loader;
      var ld := LoadRules(disk, from, rulesPath);
      var v :- ld.result;
      Success(Stage(if separate then s.loader else ld.loader, Update(s.table, NormalizeKeys(v.fields))))
  }

  /** Lines 35-36: an empty table gets what the loader answers for the
      default file, un-normalised. */
  function FallbackStep(disk: Disk, s: Stage): (r: Result<Table, Error>)
    requires s.loader.cache.Obj?
    ensures s.table != map[] ==> r == Success(s.table)
    ensures s.table == map[] ==>
      var ld := LoadRules(disk, s.loader, None);
      && (r.Success? <==> ld.result.Success?)
      && (r.Failure? ==> r.error == ld.result.error)
      && (r.Success? ==> r.value == ToMap(ld.result.value.fields))
  {
    if s.table != map[] then Success(s.table)
    else
      var ld := LoadRules(disk, s.loader, None);
      var v :- ld.result;
      Success(Update(s.table, v.fields))
  }

  /** Actions 1-3 of `RuleManager.__init__` (lines 21-33), the rules-path
      load going through the shared loader (`separate` false) or its own. */
  function Layered(disk: Disk, loaderDefault: Option<string>, bundled: string,
                   rules: Dict, rulesPath: Option<string>, combine: bool, separate: bool): (r: Result<Stage, Error>)
    ensures r.Success? ==> r.value.loader.cache.Obj?
    ensures r.Success? ==> r.value.loader.defaultFile == NewLoader(disk, loaderDefault, bundled).defaultFile
  {
    var s0 := Stage(NewLoader(disk, loaderDefault, bundled), map[]);
    var s1 :- CombineStep(disk, s0, combine);
    var s2 :- PathStep(disk, s1, rulesPath, separate);
    Success(if rules != [] then Stage(s2.loader, Update(s2.table, NormalizeKeys(rules))) else s2)
  }

  /** `RuleManager.__init__` (lines 17-36): the three layers, then action 4
      when they left the table empty. */
  function BuildWith(disk: Disk, loaderDefault: Option<string>, bundled: string,
                     rules: Dict, rulesPath: Option<string>, combine: bool, separate: bool): (r: Result<Table, Error>)
    ensures r.Failure? ==> r.error == PathError || r.error == RuleError || r.error == NotUtf8
  {
    var s3 :- Layered(disk, loaderDefault, bundled, rules, rulesPath, combine, separate);
    FallbackStep(disk, s3)
  }

  /** The constructor as written: the shared loader has cached the defaults
      by the time the rules path is loaded. */
  function BuildAsWritten(disk: Disk, loaderDefault: Option<string>, bundled: string,
                          rules: Dict, rulesPath: Option<string>, combine: bool): (r: Result<Table, Error>)
    ensures r.Failure? ==> r.error == PathError || r.error == RuleError || r.error == NotUtf8
  {
    BuildWith(disk, loaderDefault, bundled, rules, rulesPath, combine, false)
  }

  /** The constructor as its documentation promises ("user rules always
      priority higher than default rules"): the rules path is read on its
      own. */
  function Build(disk: Disk, loaderDefault: Option<string>, bundled: string,
                 rules: Dict, rulesPath: Option<string>, combine: bool): (r: Result<Table, Error>)
    ensures r.Failure? ==> r.error == PathError || r.error == RuleError || r.error == NotUtf8
  {
    BuildWith(disk, loaderDefault, bundled, rules, rulesPath, combine, true)
  }

  /** As written, the rules path is answered from the cache the defaults
      filled: the table is the defaults alone. */
  lemma AsWrittenKeepsDefault()
    ensures var disk := map["/defaults.json" := Parsed(Obj([(".png", Str("Images"))])),
                            "/mine.json" := Parsed(Obj([("png", Str("Pictures"))]))];
      BuildAsWritten(disk, None, "/defaults.json", [], Some("/mine.json"), true)
        == Success(map[".png" := Str("Images")])
  {
    var disk := map["/defaults.json" := Parsed(Obj([(".png", Str("Images"))])),
                    "/mine.json" := Parsed(Obj([("png", Str("Pictures"))]))];
    var dp := [(".png", Str("Images"))];
    var l1 := Loader("/defaults.json", Obj(dp));
    var t := map[".png" := Str("Images")];
    var empty: Table := map[];
    assert ToMap(dp) == t by { assert dp[..0] == []; }
    assert Update(empty, dp) == t;
    assert Dotted(".png") == ".png" by { assert Lower(".png") == ".png"; }
    assert NormalizeKeys(dp) == dp;
    assert Update(t, dp) == t;
    var s0 := Stage(NewLoader(disk, None, "/defaults.json"), empty);
    assert LoadRules(disk, s0.loader, None) == Loaded(l1, Success(Obj(dp)));
    assert CombineStep(disk, s0, true) == Success(Stage(l1, t));
    assert LoadRules(disk, l1, Some("/mine.json")) == Loaded(l1, Success(Obj(dp)));
    assert PathStep(disk, Stage(l1, t), Some("/mine.json"), false) == Success(Stage(l1, t));
  }

  /** Corrected, the rules file is read and overrides the default. */
  lemma CorrectedReadsRulesFile()
    ensures var disk := map["/defaults.json" := Parsed(Obj([(".png", Str("Images"))])),
                            "/mine.json" := Parsed(Obj([("png", Str("Pictures"))]))];
      Build(disk, None, "/defaults.json", [], Some("/mine.json"), true)
        == Success(map[".png" := Str("Pictures")])
  {
    var disk := map["/defaults.json" := Parsed(Obj([(".png", Str("Images"))])),
                    "/mine.json" := Parsed(Obj([("png", Str("Pictures"))]))];
    var dp := [(".png", Str("Images"))];
    var mp := [("png", Str("Pictures"))];
    var l0 := Loader("/defaults.json", Obj([]));
    var l1 := Loader("/defaults.json", Obj(dp));
    var t := map[".png" := Str("Images")];
    var u := map[".png" := Str("Pictures")];
    var empty: Table := map[];
    assert ToMap(dp) == t by { assert dp[..0] == []; }
    assert Update(empty, dp) == t;
    assert Dotted("png") == ".png" by { assert Lower("png") == "png"; }
    assert NormalizeKeys(mp) == [(".png", Str("Pictures"))];
    assert ToMap(NormalizeKeys(mp)) == u by { assert NormalizeKeys(mp)[..0] == []; }
    assert Update(t, NormalizeKeys(mp)) == u;
    var s0 := Stage(NewLoader(disk, None, "/defaults.json"), empty);
    assert s0.loader == l0;
    assert LoadRules(disk, l0, None) == Loaded(l1, Success(Obj(dp)));
    assert CombineStep(disk, s0, true) == Success(Stage(l1, t));
    assert LoadRules(disk, l0, Some("/mine.json")).result == Success(Obj(mp));
    assert PathStep(disk, Stage(l1, t), Some("/mine.json"), true) == Success(Stage(l1, u));
  }

  /** The shared cache at work: with `combine` and a rules file mapping
      `png` to `Pictures`, `.png` still resolves to the default `Images`. */
  lemma RulesFileIgnoredWithCombine()
    ensures var disk := map["/defaults.json" := Parsed(Obj([(".png", Str("Images"))])),
                            "/mine.json" := Parsed(Obj([("png", Str("Pictures"))]))];
      && BuildAsWritten(disk, None, "/defaults.json", [], Some("/mine.json"), true).Success?
      && GetFolder(BuildAsWritten(disk, None, "/defaults.json", [], Some("/mine.json"), true).value, ".png")
         == Str("Images")
      && Build(disk, None, "/defaults.json", [], Some("/mine.json"), true).Success?
      && GetFolder(Build(disk, None, "/defaults.json", [], Some("/mine.json"), true).value, ".png")
         == Str("Pictures")
  {
    AsWrittenKeepsDefault();
    CorrectedReadsRulesFile();
    assert Lower(".png") == ".png";
  }

  /** Once `combine` has cached a non-empty default dict, the rules path
      makes no difference: any two given paths build the same table. */
  lemma AsWrittenIgnoresRulesPath(disk: Disk, loaderDefault: Option<string>, bundled: string,
                                  rules: Dict, p: string, q: string)
    requires p != "" && q != ""
    requires var d := NewLoader(disk, loaderDefault, bundled).defaultFile;
      d in disk && disk[d].Parsed? && disk[d].value.Obj? && disk[d].value.fields != []
    ensures BuildAsWritten(disk, loaderDefault, bundled, rules, Some(p), true)
         == BuildAsWritten(disk, loaderDefault, bundled, rules, Some(q), true)
  {
    var s0 := Stage(NewLoader(disk, loaderDefault, bundled), map[]);
    var s1 := CombineStep(disk, s0, true).value;
    assert Truthy(s1.loader.cache);
    assert PathStep(disk, s1, Some(p), false) == PathStep(disk, s1, Some(q), false);
  }

  /** The default file the constructor's loader reads, when it holds a dict. */
  predicate DefaultDict(disk: Disk, loaderDefault: Option<string>, bundled: string)
  {
    var d := NewLoader(disk, loaderDefault, bundled).defaultFile;
    d in disk && disk[d].Parsed? && disk[d].value.Obj?
  }

  /** The default file's dict exactly as decoded, keys not normalised. */
  function RawDefaults(disk: Disk, loaderDefault: Option<string>, bundled: string): map<string, Value>
  {
    var d := NewLoader(disk, loaderDefault, bundled).defaultFile;
    if DefaultDict(disk, loaderDefault, bundled) then ToMap(disk[d].value.fields) else map[]
  }

  /** The file a rules path resolves to when it is read on its own. */
  function OwnPath(disk: Disk, loaderDefault: Option<string>, bundled: string, rulesPath: Option<string>): string
  {
    ChoosePath(disk, Loader(NewLoader(disk, loaderDefault, bundled).defaultFile, Obj([])), rulesPath)
  }

  /** The normalised keys the rules path contributes when read on its own. */
  function OwnFileKeys(disk: Disk, loaderDefault: Option<string>, bundled: string, rulesPath: Option<string>): set<string>
  {
    var p := OwnPath(disk, loaderDefault, bundled, rulesPath);
    if Given(rulesPath) && p in disk && disk[p].Parsed? && disk[p].value.Obj?
    then KeysOf(NormalizeKeys(disk[p].value.fields)) else {}
  }

  /** The keys the three layers of `Build` supply. */
  function LayerKeys(disk: Disk, loaderDefault: Option<string>, bundled: string,
                     rules: Dict, rulesPath: Option<string>, combine: bool): set<string>
  {
    (if combine then RawDefaults(disk, loaderDefault, bundled).Keys else {})
      + OwnFileKeys(disk, loaderDefault, bundled, rulesPath) + KeysOf(NormalizeKeys(rules))
  }

  /** With every layer empty the loader is as the constructor made it, in
      either variant: each dict it decoded was empty, hence falsy. */
  lemma EmptyLayersLeaveLoaderFresh(disk: Disk, loaderDefault: Option<string>, bundled: string,
                                    rules: Dict, rulesPath: Option<string>, combine: bool, separate: bool)
    requires Layered(disk, loaderDefault, bundled, rules, rulesPath, combine, separate).Success?
    requires Layered(disk, loaderDefault, bundled, rules, rulesPath, combine, separate).value.table == map[]
    ensures Layered(disk, loaderDefault, bundled, rules, rulesPath, combine, separate).value.loader
         == NewLoader(disk, loaderDefault, bundled)
  {
    var l0 := NewLoader(disk, loaderDefault, bundled);
    var s0 := Stage(l0, map[]);
    var s1 := CombineStep(disk, s0, combine).value;
    if combine {
      var v := LoadRules(disk, l0, None).result.value;
      assert KeysOf(v.fields) <= s1.table.Keys;
      assert v.fields == [];
    }
    assert s1.loader == l0;
    var s2 := PathStep(disk, s1, rulesPath, separate).value;
    if Given(rulesPath) && !separate {
      var v := LoadRules(disk, l0, rulesPath).result.value;
      assert KeysOf(NormalizeKeys(v.fields)) <= s2.table.Keys;
      assert v.fields == [];
    }
    assert s2.loader == l0;
  }

  /** Action 4 in either variant: when the layers left the table empty,
      the constructor's result is a fresh loader's read of the default
      file, un-normalised. */
  lemma EmptyLayersFallBack(disk: Disk, loaderDefault: Option<string>, bundled: string,
                            rules: Dict, rulesPath: Option<string>, combine: bool, separate: bool)
    requires Layered(disk, loaderDefault, bundled, rules, rulesPath, combine, separate).Success?
    requires Layered(disk, loaderDefault, bundled, rules, rulesPath, combine, separate).value.table == map[]
    ensures BuildWith(disk, loaderDefault, bundled, rules, rulesPath, combine, separate)
         == FallbackStep(disk, Stage(NewLoader(disk, loaderDefault, bundled), map[]))
    ensures DefaultDict(disk, loaderDefault, bundled) ==>
      BuildWith(disk, loaderDefault, bundled, rules, rulesPath, combine, separate)
        == Success(RawDefaults(disk, loaderDefault, bundled))
  {
    EmptyLayersLeaveLoaderFresh(disk, loaderDefault, bundled, rules, rulesPath, combine, separate);
  }

  /** Lines 24-25 on a fresh loader: the table is the default file's dict,
      raw, or nothing without `combine`. */
  lemma CombineRaw(disk: Disk, loaderDefault: Option<string>, bundled: string, combine: bool)
    requires CombineStep(disk, Stage(NewLoader(disk, loaderDefault, bundled), map[]), combine).Success?
    ensures combine ==> DefaultDict(disk, loaderDefault, bundled)
    ensures CombineStep(disk, Stage(NewLoader(disk, loaderDefault, bundled), map[]), combine).value.table
         == if combine then RawDefaults(disk, loaderDefault, bundled) else map[]
  {
    var l0 := NewLoader(disk, loaderDefault, bundled);
    if combine {
      assert ChoosePath(disk, l0, None) == l0.defaultFile;
      var empty: Table := map[];
      assert Update(empty, disk[l0.defaultFile].value.fields) == ToMap(disk[l0.defaultFile].value.fields);
    }
  }

  /** Lines 27-29 with a loader of its own: the rules path resolves to a
      dict, whose normalised pairs go over the table. */
  lemma PathStepOwn(disk: Disk, s: Stage, rulesPath: Option<string>)
    requires s.loader.cache.Obj? && Given(rulesPath)
    requires PathStep(disk, s, rulesPath, true).Success?
    ensures var p := ChoosePath(disk, Loader(s.loader.defaultFile, Obj([])), rulesPath);
      && p in disk && disk[p].Parsed? && disk[p].value.Obj?
      && PathStep(disk, s, rulesPath, true).value.table == Update(s.table, NormalizeKeys(disk[p].value.fields))
  {
  }

  /** The normalised dict the rules path contributes when read on its own,
      or nothing. */
  function OwnFile(disk: Disk, loaderDefault: Option<string>, bundled: string, rulesPath: Option<string>): (r: Dict)
    ensures KeysOf(r) == OwnFileKeys(disk, loaderDefault, bundled, rulesPath)
  {
    var p := OwnPath(disk, loaderDefault, bundled, rulesPath);
    if Given(rulesPath) && p in disk && disk[p].Parsed? && disk[p].value.Obj?
    then NormalizeKeys(disk[p].value.fields) else []
  }

  /** The corrected constructor's layers as two updates: the raw defaults
      (or nothing), then the rules path's normalised dict (or nothing),
      then the normalised explicit rules. */
  lemma LayeredTable(disk: Disk, loaderDefault: Option<string>, bundled: string,
                     rules: Dict, rulesPath: Option<string>, combine: bool)
    requires Layered(disk, loaderDefault, bundled, rules, rulesPath, combine, true).Success?
    ensures combine ==> DefaultDict(disk, loaderDefault, bundled)
    ensures Given(rulesPath) ==>
      var p := OwnPath(disk, loaderDefault, bundled, rulesPath);
      p in disk && disk[p].Parsed? && disk[p].value.Obj?
    ensures Layered(disk, loaderDefault, bundled, rules, rulesPath, combine, true).value.table
         == Update(Update(if combine then RawDefaults(disk, loaderDefault, bundled) else map[],
                          OwnFile(disk, loaderDefault, bundled, rulesPath)),
                   NormalizeKeys(rules))
  {
    var l0 := NewLoader(disk, loaderDefault, bundled);
    var s1 := CombineStep(disk, Stage(l0, map[]), combine).value;
    CombineRaw(disk, loaderDefault, bundled, combine);
    PathStepOwnFile(disk, loaderDefault, bundled, s1, rulesPath);
    ExplicitStep(disk, loaderDefault, bundled, rules, rulesPath, combine);
  }

  /** Lines 27-29 with a loader of its own, over any stage whose loader
      reads the constructor's default file: the rules path's normalised
      dict goes over the table. */
  lemma PathStepOwnFile(disk: Disk, loaderDefault: Option<string>, bundled: string, s: Stage, rulesPath: Option<string>)
    requires s.loader.cache.Obj? && s.loader.defaultFile == NewLoader(disk, loaderDefault, bundled).defaultFile
    requires PathStep(disk, s, rulesPath, true).Success?
    ensures Given(rulesPath) ==>
      var p := OwnPath(disk, loaderDefault, bundled, rulesPath);
      p in disk && disk[p].Parsed? && disk[p].value.Obj?
    ensures PathStep(disk, s, rulesPath, true).value.table == Update(s.table, OwnFile(disk, loaderDefault, bundled, rulesPath))
  {
    if Given(rulesPath) {
      PathStepOwn(disk, s, rulesPath);
    } else {
      UpdateEmpty(s.table);
    }
  }

  /** Lines 31-33: non-empty explicit rules go, normalised, over the table
      the first two layers built; empty ones leave it as it is. */
  lemma ExplicitStep(disk: Disk, loaderDefault: Option<string>, bundled: string,
                     rules: Dict, rulesPath: Option<string>, combine: bool)
    requires Layered(disk, loaderDefault, bundled, rules, rulesPath, combine, true).Success?
    ensures var s1 := CombineStep(disk, Stage(NewLoader(disk, loaderDefault, bundled), map[]), combine).value;
      Layered(disk, loaderDefault, bundled, rules, rulesPath, combine, true).value.table
        == Update(PathStep(disk, s1, rulesPath, true).value.table, NormalizeKeys(rules))
  {
    if rules == [] {
      var s1 := CombineStep(disk, Stage(NewLoader(disk, loaderDefault, bundled), map[]), combine).value;
      UpdateEmpty(PathStep(disk, s1, rulesPath, true).value.table);
    }
  }

  /** In the corrected constructor's layers the defaults are merged raw,
      the rules path normalised over them, and explicit rules over both;
      nothing else is in the table. */
  lemma LayeredPrecedence(disk: Disk, loaderDefault: Option<string>, bundled: string,
                          rules: Dict, rulesPath: Option<string>, combine: bool)
    requires Layered(disk, loaderDefault, bundled, rules, rulesPath, combine, true).Success?
    ensures combine ==> DefaultDict(disk, loaderDefault, bundled)
    ensures Given(rulesPath) ==>
      var p := OwnPath(disk, loaderDefault, bundled, rulesPath);
      p in disk && disk[p].Parsed? && disk[p].value.Obj?
    ensures var t := Layered(disk, loaderDefault, bundled, rules, rulesPath, combine, true).value.table;
      t.Keys == LayerKeys(disk, loaderDefault, bundled, rules, rulesPath, combine)
    ensures var t := Layered(disk, loaderDefault, bundled, rules, rulesPath, combine, true).value.table;
      var explicit := NormalizeKeys(rules);
      && (forall k :: k in KeysOf(explicit) ==> t[k] == ToMap(explicit)[k])
      && (Given(rulesPath) ==>
            var file := NormalizeKeys(disk[OwnPath(disk, loaderDefault, bundled, rulesPath)].value.fields);
            forall k :: k in KeysOf(file) && k !in KeysOf(explicit) ==> t[k] == ToMap(file)[k])
      && (combine ==>
            var defaults := RawDefaults(disk, loaderDefault, bundled);
            forall k :: (k in defaults && k !in OwnFileKeys(disk, loaderDefault, bundled, rulesPath)
                         && k !in KeysOf(explicit)) ==> t[k] == defaults[k])
  {
    LayeredTable(disk, loaderDefault, bundled, rules, rulesPath, combine);
    var base: Table := if combine then RawDefaults(disk, loaderDefault, bundled) else map[];
    UpdateTwice(base, OwnFile(disk, loaderDefault, bundled, rulesPath), NormalizeKeys(rules));
  }

  /** Later layers win in the corrected constructor: explicit rules beat
      the rules file, which beats the raw defaults; the table holds exactly
      the keys the layers supply, and only when they supply none does
      action 4 read the default file. */
  lemma BuildPrecedence(disk: Disk, loaderDefault: Option<string>, bundled: string,
                        rules: Dict, rulesPath: Option<string>, combine: bool)
    requires Build(disk, loaderDefault, bundled, rules, rulesPath, combine).Success?
    ensures combine ==> DefaultDict(disk, loaderDefault, bundled)
    ensures Given(rulesPath) ==>
      var p := OwnPath(disk, loaderDefault, bundled, rulesPath);
      p in disk && disk[p].Parsed? && disk[p].value.Obj?
    ensures var t := Build(disk, loaderDefault, bundled, rules, rulesPath, combine).value;
      var explicit := NormalizeKeys(rules);
      && (forall k :: k in KeysOf(explicit) ==> k in t && t[k] == ToMap(explicit)[k])
      && (Given(rulesPath) ==>
            var file := NormalizeKeys(disk[OwnPath(disk, loaderDefault, bundled, rulesPath)].value.fields);
            forall k :: k in KeysOf(file) && k !in KeysOf(explicit) ==> k in t && t[k] == ToMap(file)[k])
      && (combine ==>
            var defaults := RawDefaults(disk, loaderDefault, bundled);
            forall k :: (k in defaults && k !in OwnFileKeys(disk, loaderDefault, bundled, rulesPath)
                         && k !in KeysOf(explicit)) ==> k in t && t[k] == defaults[k])
    ensures var layers := LayerKeys(disk, loaderDefault, bundled, rules, rulesPath, combine);
      && (layers != {} ==> Build(disk, loaderDefault, bundled, rules, rulesPath, combine).value.Keys == layers)
      && (layers == {} ==> Build(disk, loaderDefault, bundled, rules, rulesPath, combine)
                             == FallbackStep(disk, Stage(NewLoader(disk, loaderDefault, bundled), map[])))
  {
    LayeredPrecedence(disk, loaderDefault, bundled, rules, rulesPath, combine);
    var s3 := Layered(disk, loaderDefault, bundled, rules, rulesPath, combine, true).value;
    if s3.table == map[] {
      EmptyLayersFallBack(disk, loaderDefault, bundled, rules, rulesPath, combine, true);
    } else {
      assert Build(disk, loaderDefault, bundled, rules, rulesPath, combine) == Success(s3.table);
    }
  }

  /** With `combine` alone, the table is the default file's dict exactly as
      decoded: its keys are not normalised. */
  lemma DefaultsMergedRaw(disk: Disk, loaderDefault: Option<string>, bundled: string, f: Dict)
    requires var d := NewLoader(disk, loaderDefault, bundled).defaultFile;
      d in disk && disk[d] == Parsed(Obj(f)) && f != []
    ensures Build(disk, loaderDefault, bundled, [], None, true) == Success(ToMap(f))
  {
    var empty: Table := map[];
    assert Update(empty, f) == ToMap(f);
    assert f[0].0 in KeysOf(f);
  }

  /** A rules path that does not exist is not an error: the default file
      is read in its place (and normalised). */
  lemma MissingRulesPathReadsDefaults(disk: Disk, loaderDefault: Option<string>, bundled: string, path: string)
    requires path != "" && path !in disk
    requires NewLoader(disk, loaderDefault, bundled).defaultFile != ""
    ensures Build(disk, loaderDefault, bundled, [], Some(path), false)
         == Build(disk, loaderDefault, bundled, [], Some(NewLoader(disk, loaderDefault, bundled).defaultFile), false)
  {
    var d := NewLoader(disk, loaderDefault, bundled).defaultFile;
    var s0 := Stage(NewLoader(disk, loaderDefault, bundled), map[]);
    var own := Loader(d, Obj([]));
    assert ChoosePath(disk, own, Some(path)) == ChoosePath(disk, own, Some(d));
    assert PathStep(disk, s0, Some(path), true) == PathStep(disk, s0, Some(d), true);
  }
}
