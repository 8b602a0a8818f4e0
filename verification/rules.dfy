/** The rule manager of `src/rules.py`: every layer it reads is normalised,
    and a missing default rules file is replaced by the built-in table. */
module Rules {
  import opened Wrappers
  import opened Exceptions
  import opened Text
  import opened Json
  import opened RuleTable

  /** Lines 61-72: the pairs of a rules file, keys normalised. A missing
      file, invalid JSON and content that is not an object all raise
      `RuleError`; bytes that are not UTF-8 escape as `UnicodeDecodeError`. */
  function ReadRules(disk: Disk, path: string): (r: Result<Dict, Error>)
    ensures r.Failure? <==> !(path in disk && disk[path].Parsed? && disk[path].value.Obj?)
    ensures r.Failure? ==> (r.error == NotUtf8 <==> path in disk && disk[path].Undecodable?)
    ensures r.Failure? ==> r.error == RuleError || r.error == NotUtf8
    ensures r.Success? ==> |r.value| == |disk[path].value.fields|
    ensures r.Success? ==> forall i :: 0 <= i < |r.value| ==>
      r.value[i].0 == Dotted(disk[path].value.fields[i].0) && r.value[i].1 == disk[path].value.fields[i].1
  {
    if path !in disk then Failure(RuleError)
    else match disk[path]
      case Unparsable => Failure(RuleError)
      case Undecodable => Failure(NotUtf8)
      case Parsed(v) => if v.Obj? then Success(NormalizeKeys(v.fields)) else Failure(RuleError)
  }

  /** `load_from_file`: merges the file's normalised pairs into `t`. */
  function LoadFromFile(disk: Disk, t: Table, path: string): (r: Result<Table, Error>)
    ensures r.Failure? <==> ReadRules(disk, path).Failure?
    ensures r.Failure? ==> r.error == ReadRules(disk, path).error
    ensures r.Success? ==>
      var file := ToMap(ReadRules(disk, path).value);
      && r.value.Keys == t.Keys + file.Keys
      && (forall k :: k in file ==> r.value[k] == file[k])
      && (forall k :: k in t && k !in file ==> r.value[k] == t[k])
    ensures r.Success? && IsNormalised(t) ==> IsNormalised(r.value)
  {
    var d :- ReadRules(disk, path);
    NormalizeKeysNormalised(disk[path].value.fields);
    Success(Update(t, d))
  }

  /** `load_defaults` (lines 75-103): the default rules file when it
      exists, the built-in table otherwise. */
  function LoadDefaults(disk: Disk, t: Table, defaultFile: string): (r: Result<Table, Error>)
    ensures defaultFile in disk ==> r == LoadFromFile(disk, t, defaultFile)
    ensures defaultFile !in disk ==> r.Success? && r.value.Keys == t.Keys + BuiltinRules.Keys
    ensures defaultFile !in disk ==> forall k :: k in BuiltinRules ==> r.value[k] == BuiltinRules[k]
    ensures r.Success? && IsNormalised(t) ==> IsNormalised(r.value)
  {
    if defaultFile in disk then LoadFromFile(disk, t, defaultFile)
    else
      BuiltinRulesNormalised();
      Success(t + BuiltinRules)
  }

  /** Actions 1-3 of `RuleManager.__init__` (lines 24-34): the defaults
      when `combine`, then the rules file, then the explicit rules. */
  function Merged(disk: Disk, defaultFile: string, rules: Dict, rulesFile: Option<string>, combine: bool): (r: Result<Table, Error>)
    ensures r.Success? ==> IsNormalised(r.value)
  {
    var t0: Table := map[];
    var t1 :- if combine then LoadDefaults(disk, t0, defaultFile) else Success(t0);
    var t2 :- if rulesFile.Some? then LoadFromFile(disk, t1, rulesFile.value) else Success(t1);
    NormalizeKeysNormalised(rules);
    Success(if rules != [] then Update(t2, NormalizeKeys(rules)) else t2)
  }

  /** `RuleManager.__init__` (lines 16-38). `rules` is the explicit dict
      (`[]` for `None` or an empty dict); `rulesFile` the rules file path,
      if any. Action 4 falls back on `load_defaults` when the three layers
      left the table empty. */
  function Build(disk: Disk, defaultFile: string, rules: Dict, rulesFile: Option<string>, combine: bool): (r: Result<Table, Error>)
    ensures r.Failure? ==> r.error == RuleError || r.error == NotUtf8
    ensures r.Success? ==> IsNormalised(r.value)
    ensures r.Success? && r.value == map[] ==> defaultFile in disk && disk[defaultFile] == Parsed(Obj([]))
  {
    var t3 :- Merged(disk, defaultFile, rules, rulesFile, combine);
    if t3 != map[] then Success(t3)
    else
      var r := LoadDefaults(disk, t3, defaultFile);
      assert BuiltinRules.Keys != {} by {
        assert ".jpg" in BuiltinRules;
      }
      r
  }

  /** The keys the rules file contributes: none without a usable file. */
  function FileKeys(disk: Disk, rulesFile: Option<string>): set<string>
  {
    if rulesFile.Some? && ReadRules(disk, rulesFile.value).Success?
    then KeysOf(ReadRules(disk, rulesFile.value).value) else {}
  }

  /** The keys the defaults contribute when `combine` is set. */
  function DefaultKeys(disk: Disk, defaultFile: string, combine: bool): set<string>
  {
    if combine && LoadDefaults(disk, map[], defaultFile).Success?
    then LoadDefaults(disk, map[], defaultFile).value.Keys else {}
  }

  /** The merged layers hold exactly the keys some layer supplied, and the
      defaults layer survives where neither later layer overrides it. */
  lemma MergedLayers(disk: Disk, defaultFile: string, rules: Dict, rulesFile: Option<string>, combine: bool)
    requires Merged(disk, defaultFile, rules, rulesFile, combine).Success?
    ensures combine ==> LoadDefaults(disk, map[], defaultFile).Success?
    ensures rulesFile.Some? ==> ReadRules(disk, rulesFile.value).Success?
    ensures var t := Merged(disk, defaultFile, rules, rulesFile, combine).value;
      t.Keys == DefaultKeys(disk, defaultFile, combine) + FileKeys(disk, rulesFile) + KeysOf(NormalizeKeys(rules))
    ensures var t := Merged(disk, defaultFile, rules, rulesFile, combine).value;
      combine ==>
        var defaults := LoadDefaults(disk, map[], defaultFile).value;
        forall k :: k in defaults && k !in FileKeys(disk, rulesFile) && k !in KeysOf(NormalizeKeys(rules)) ==>
          t[k] == defaults[k]
  {
    var t0: Table := map[];
    var t1 := (if combine then LoadDefaults(disk, t0, defaultFile) else Success(t0)).value;
    var t2 := if rulesFile.Some? then LoadFromFile(disk, t1, rulesFile.value).value else t1;
    var explicit := NormalizeKeys(rules);
    assert rules == [] ==> explicit == [];
    assert Merged(disk, defaultFile, rules, rulesFile, combine).value == if rules != [] then Update(t2, explicit) else t2;
    assert t1.Keys == DefaultKeys(disk, defaultFile, combine);
    assert t2.Keys == t1.Keys + FileKeys(disk, rulesFile);
  }

  /** In the merged layers an explicit rule beats the rules file. */
  lemma MergedOverrides(disk: Disk, defaultFile: string, rules: Dict, rulesFile: Option<string>, combine: bool)
    requires Merged(disk, defaultFile, rules, rulesFile, combine).Success?
    ensures var t := Merged(disk, defaultFile, rules, rulesFile, combine).value;
      var explicit := NormalizeKeys(rules);
      && (forall k :: k in KeysOf(explicit) ==> k in t && t[k] == ToMap(explicit)[k])
      && (rulesFile.Some? ==>
            && ReadRules(disk, rulesFile.value).Success?
            && var file := ReadRules(disk, rulesFile.value).value;
               forall k :: k in KeysOf(file) && k !in KeysOf(explicit) ==> k in t && t[k] == ToMap(file)[k])
  {
    var t0: Table := map[];
    var t1 := (if combine then LoadDefaults(disk, t0, defaultFile) else Success(t0)).value;
    var t2 := if rulesFile.Some? then LoadFromFile(disk, t1, rulesFile.value).value else t1;
    var explicit := NormalizeKeys(rules);
    assert rules == [] ==> explicit == [];
    assert Merged(disk, defaultFile, rules, rulesFile, combine).value == if rules != [] then Update(t2, explicit) else t2;
  }

  /** Later layers win: an explicit rule beats the rules file, the rules
      file beats the defaults merged by `combine`, a key no layer supplies
      is absent, and only when every layer was empty does `load_defaults`
      decide the table. */
  lemma BuildPrecedence(disk: Disk, defaultFile: string, rules: Dict, rulesFile: Option<string>, combine: bool)
    requires Build(disk, defaultFile, rules, rulesFile, combine).Success?
    ensures combine ==> LoadDefaults(disk, map[], defaultFile).Success?
    ensures rulesFile.Some? ==> ReadRules(disk, rulesFile.value).Success?
    ensures var t := Build(disk, defaultFile, rules, rulesFile, combine).value;
      var explicit := NormalizeKeys(rules);
      && (forall k :: k in KeysOf(explicit) ==> k in t && t[k] == ToMap(explicit)[k])
      && (rulesFile.Some? ==>
            var file := ReadRules(disk, rulesFile.value).value;
            forall k :: k in KeysOf(file) && k !in KeysOf(explicit) ==> k in t && t[k] == ToMap(file)[k])
    ensures var t := Build(disk, defaultFile, rules, rulesFile, combine).value;
      combine ==>
        var defaults := LoadDefaults(disk, map[], defaultFile).value;
        forall k :: k in defaults && k !in FileKeys(disk, rulesFile) && k !in KeysOf(NormalizeKeys(rules)) ==>
          k in t && t[k] == defaults[k]
    ensures var layers := DefaultKeys(disk, defaultFile, combine) + FileKeys(disk, rulesFile) + KeysOf(NormalizeKeys(rules));
      && (layers != {} ==> Build(disk, defaultFile, rules, rulesFile, combine).value.Keys == layers)
      && (layers == {} ==> Build(disk, defaultFile, rules, rulesFile, combine) == LoadDefaults(disk, map[], defaultFile))
  {
    MergedLayers(disk, defaultFile, rules, rulesFile, combine);
    MergedOverrides(disk, defaultFile, rules, rulesFile, combine);
    var t3 := Merged(disk, defaultFile, rules, rulesFile, combine).value;
    if t3 == map[] {
      assert Build(disk, defaultFile, rules, rulesFile, combine) == LoadDefaults(disk, t3, defaultFile);
    } else {
      assert Build(disk, defaultFile, rules, rulesFile, combine) == Success(t3);
    }
  }

  /** With every layer empty the result is exactly what `load_defaults`
      gives for an empty table (lines 36-37). */
  lemma BuildFallback(disk: Disk, defaultFile: string, rulesFile: Option<string>, combine: bool)
    requires rulesFile.None? || ReadRules(disk, rulesFile.value) == Success([])
    requires !combine || LoadDefaults(disk, map[], defaultFile) == Success(map[])
    ensures Build(disk, defaultFile, [], rulesFile, combine) == LoadDefaults(disk, map[], defaultFile)
  {
    var t0: Table := map[];
    var t1 := (if combine then LoadDefaults(disk, t0, defaultFile) else Success(t0)).value;
    assert t1 == map[];
    if rulesFile.Some? {
      assert LoadFromFile(disk, t1, rulesFile.value) == Success(map[]);
    }
    assert Merged(disk, defaultFile, [], rulesFile, combine) == Success(map[]);
  }

  /** The table is never empty while some layer supplied an entry: the
      defaults are consulted only when all three layers left it empty. */
  lemma BuildFallsBackOnDefaults(disk: Disk, defaultFile: string)
    ensures Build(disk, defaultFile, [], None, false) == LoadDefaults(disk, map[], defaultFile)
    ensures defaultFile !in disk ==> Build(disk, defaultFile, [], None, false) == Success(BuiltinRules)
  {
    var empty: Table := map[];
    assert empty + BuiltinRules == BuiltinRules;
  }

  /** A rules file that cannot be used is an error, not an empty layer:
      `RuleError`, unless its bytes are not UTF-8. */
  lemma BuildRejectsBadRulesFile(disk: Disk, defaultFile: string, rules: Dict, path: string)
    requires ReadRules(disk, path).Failure?
    ensures !(path in disk && disk[path].Undecodable?) ==>
      Build(disk, defaultFile, rules, Some(path), false) == Failure(RuleError)
    ensures path in disk && disk[path].Undecodable? ==>
      Build(disk, defaultFile, rules, Some(path), false) == Failure(NotUtf8)
  {
  }
}
