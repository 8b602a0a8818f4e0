/** The `ConfigManager` of `src/config_manager.py`: the packaged config, then
    a user config file normalised with `config_mg`, then the command-line
    arguments; afterwards `source` must be set and `rules`, when set, must
    parse to a dict. */
module ConfigManager {
  import opened Wrappers
  import opened Exceptions
  import opened Json
  import opened Normalizer
  import opened Loader

  /** The settings a manager holds. */
  type Configs = map<string, Value>

  /** Python's `ast.literal_eval` on a string: the literal's value, or the
      name of the exception it raises. It is a parameter of the model. */
  type LiteralEval = string -> Result<Value, string>

  /** `source_checker` (lines 51-54): a missing key raises `KeyError`, an
      unset source raises `ConfigError`. */
  function SourceChecker(c: Configs): (e: Option<Error>)
    ensures e.None? <==> "source" in c && c["source"] != Null
    ensures "source" !in c ==> e == Some(Unhandled("KeyError"))
    ensures "source" in c && c["source"] == Null ==> e == Some(ConfigError)
  {
    if "source" !in c then Some(Unhandled("KeyError"))
    else if c["source"] == Null then Some(ConfigError)
    else None
  }

  /** `arg_rules_checker` as written (lines 56-63). `literal_eval` runs
      before the `try`, so its `SyntaxError` or `ValueError` escapes; a value
      that is not a string is not source text and raises `ValueError`. The
      guarded `isinstance` test cannot raise either. */
  function ArgRulesAsWritten(v: Value, eval: LiteralEval): (e: Option<Error>)
    ensures e.None? <==> v.Str? && eval(v.s).Success? && eval(v.s).value.Obj?
    ensures !v.Str? ==> e == Some(Unhandled("ValueError"))
    ensures v.Str? && eval(v.s).Failure? ==> e == Some(Unhandled(eval(v.s).error))
    ensures v.Str? && eval(v.s).Success? && !eval(v.s).value.Obj? ==> e == Some(ConfigError)
  {
    if !v.Str? then Some(Unhandled("ValueError"))
    else match eval(v.s)
      case Failure(exc) => Some(Unhandled(exc))
      case Success(x) => if x.Obj? then None else Some(ConfigError)
  }

  /** `arg_rules_checker` as its `except` clause intends: any rules text
      that does not parse, or parses to something other than a dict, is a
      `ConfigError`. */
  function ArgRules(v: Value, eval: LiteralEval): (e: Option<Error>)
    ensures e.None? <==> v.Str? && eval(v.s).Success? && eval(v.s).value.Obj?
    ensures e.Some? ==> e.value == ConfigError
  {
    if v.Str? && eval(v.s).Success? && eval(v.s).value.Obj? then None else Some(ConfigError)
  }

  /** The settings after the three layers (lines 27-38). `args` is
      `vars(args)` when arguments are given. */
  function Layers(disk: Disk, b: Bundled, args: Option<Dict>, configPath: Option<string>): (r: Result<Configs, Error>)
    ensures r.Failure? ==> r.error == PathError || r.error == ConfigError || r.error == Unhandled("AttributeError") || r.error == NotUtf8
  {
    var d :- LoadFromFile(disk, b, "config", None);
    var c0 := ToMap(d);
    var c1 :- if Given(configPath) then
                (var u :- LoadFromFile(disk, b, "config", configPath);
                 var n :- DataNormalizer(u, "config_mg");
                 Success(Update(c0, n)))
              else Success(c0);
    if args.Some? then Success(Update(c1, args.value) - {"config"}) else Success(c1)
  }

  /** `__init__` (lines 17-44) with the rules check supplied. */
  function InitWith(disk: Disk, b: Bundled, args: Option<Dict>, configPath: Option<string>,
                    eval: LiteralEval, rulesCheck: (Value, LiteralEval) -> Option<Error>): (r: Result<Configs, Error>)
    ensures r.Success? ==> "source" in r.value && r.value["source"] != Null && "rules" in r.value
    ensures r.Success? && r.value["rules"] != Null ==> rulesCheck(r.value["rules"], eval).None?
  {
    var c :- Layers(disk, b, args, configPath);
    if SourceChecker(c).Some? then Failure(SourceChecker(c).value)
    else if "rules" !in c then Failure(Unhandled("KeyError"))
    else if c["rules"] != Null && rulesCheck(c["rules"], eval).Some? then Failure(rulesCheck(c["rules"], eval).value)
    else Success(c)
  }

  /** The constructor as written. */
  function InitAsWritten(disk: Disk, b: Bundled, args: Option<Dict>, configPath: Option<string>, eval: LiteralEval): (r: Result<Configs, Error>)
    ensures r.Success? ==> "source" in r.value && r.value["source"] != Null && "rules" in r.value
    ensures r.Success? && r.value["rules"] != Null ==>
      r.value["rules"].Str? && eval(r.value["rules"].s).Success? && eval(r.value["rules"].s).value.Obj?
  {
    InitWith(disk, b, args, configPath, eval, ArgRulesAsWritten)
  }

  /** The constructor with rules that do not parse reported as
      `ConfigError`. */
  function Init(disk: Disk, b: Bundled, args: Option<Dict>, configPath: Option<string>, eval: LiteralEval): (r: Result<Configs, Error>)
    ensures r.Success? ==> "source" in r.value && r.value["source"] != Null && "rules" in r.value
    ensures r.Success? && r.value["rules"] != Null ==>
      r.value["rules"].Str? && eval(r.value["rules"].s).Success? && eval(r.value["rules"].s).value.Obj?
    ensures r.Failure? && Layers(disk, b, args, configPath).Success? ==>
      r.error == ConfigError || r.error == Unhandled("KeyError")
  {
    InitWith(disk, b, args, configPath, eval, ArgRules)
  }

  /** Rules text that `literal_eval` cannot parse: as written its exception
      escapes; as intended it is a `ConfigError`. */
  lemma UnparsableRulesEscape(s: string, eval: LiteralEval)
    requires eval(s).Failure?
    ensures ArgRulesAsWritten(Str(s), eval) == Some(Unhandled(eval(s).error))
    ensures ArgRules(Str(s), eval) == Some(ConfigError)
  {
  }

  /** The two rules checks agree on acceptance, and on every rejection that
      is not a parse failure. */
  lemma ArgRulesAgree(v: Value, eval: LiteralEval)
    ensures ArgRulesAsWritten(v, eval).None? <==> ArgRules(v, eval).None?
    ensures v.Str? && eval(v.s).Success? ==> ArgRulesAsWritten(v, eval) == ArgRules(v, eval)
  {
  }

  /** The written and intended constructors differ only where the rules
      text fails to parse: there the first raises the parser's exception
      and the second `ConfigError`. */
  lemma InitDiffersOnlyOnParse(disk: Disk, b: Bundled, args: Option<Dict>, configPath: Option<string>, eval: LiteralEval)
    ensures var w := InitAsWritten(disk, b, args, configPath, eval);
      var r := Init(disk, b, args, configPath, eval);
      && (r.Success? <==> w.Success?)
      && (w != r ==>
            && r == Failure(ConfigError)
            && var c := Layers(disk, b, args, configPath).value;
               && c["rules"] != Null
               && w == Failure(ArgRulesAsWritten(c["rules"], eval).value)
               && w.error.Unhandled?)
  {
    var lay := Layers(disk, b, args, configPath);
    if lay.Success? {
      var c := lay.value;
      if SourceChecker(c).None? && "rules" in c && c["rules"] != Null {
        ArgRulesAgree(c["rules"], eval);
      }
    }
  }

  /** Later layers win: the arguments (all but `config`) over the user
      file, the user file over the packaged config. */
  lemma LayersPrecedence(disk: Disk, b: Bundled, args: Dict, configPath: string)
    requires configPath != ""
    requires Layers(disk, b, Some(args), Some(configPath)).Success?
    ensures var c := Layers(disk, b, Some(args), Some(configPath)).value;
      var file := DataNormalizer(LoadFromFile(disk, b, "config", Some(configPath)).value, "config_mg").value;
      var base := ToMap(LoadFromFile(disk, b, "config", None).value);
      && "config" !in c
      && (forall k :: k in KeysOf(args) && k != "config" ==> k in c && c[k] == ToMap(args)[k])
      && (forall k :: k in KeysOf(file) && k !in KeysOf(args) && k != "config" ==> k in c && c[k] == ToMap(file)[k])
      && (forall k :: k in base && k !in KeysOf(file) && k !in KeysOf(args) && k != "config" ==> k in c && c[k] == base[k])
  {
    var file := DataNormalizer(LoadFromFile(disk, b, "config", Some(configPath)).value, "config_mg").value;
    var base := ToMap(LoadFromFile(disk, b, "config", None).value);
    var c1 := Update(base, file);
    assert Layers(disk, b, Some(args), Some(configPath)).value == Update(c1, args) - {"config"};
  }

  /** The boolean options read from the user file end up booleans (unless
      the arguments override them). */
  lemma FileBooleansNormalised(disk: Disk, b: Bundled, configPath: string)
    requires configPath != ""
    requires Layers(disk, b, None, Some(configPath)).Success?
    ensures var c := Layers(disk, b, None, Some(configPath)).value;
      var u := LoadFromFile(disk, b, "config", Some(configPath)).value;
      forall k :: k in KeysOf(u) && k in BooleanOptions ==> c[k].Bool?
  {
    var u := LoadFromFile(disk, b, "config", Some(configPath)).value;
    ConfigMgBooleans(u);
  }

  /** The `config_mg` normaliser keeps every key and turns the value of
      each boolean option into a boolean. */
  lemma ConfigMgBooleans(u: Dict)
    requires DataNormalizer(u, "config_mg").Success?
    ensures var n := DataNormalizer(u, "config_mg").value;
      forall k :: k in KeysOf(u) && k in BooleanOptions ==> k in KeysOf(n) && ToMap(n)[k].Bool?
  {
    var n := DataNormalizer(u, "config_mg").value;
    forall k | k in KeysOf(u) && k in BooleanOptions
      ensures k in KeysOf(n) && ToMap(n)[k].Bool?
    {
      var i :| 0 <= i < |u| && u[i].0 == k;
      assert n[i].0 == k by {
        assert Success(n[i]) == NormalizePair(u[i].0, u[i].1, "config_mg");
      }
      assert k in KeysOf(n);
      ToMapValue(n, k);
      var j :| 0 <= j < |n| && n[j].0 == k && ToMap(n)[k] == n[j].1;
      assert Success(n[j]) == NormalizePair(u[j].0, u[j].1, "config_mg");
    }
  }
}
