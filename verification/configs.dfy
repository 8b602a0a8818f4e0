/** The file-based `ConfigManager` of `src/configs.py`: packaged defaults (or
    a built-in table when the defaults file is missing), then a user file,
    each checked so that the boolean options hold booleans. */
module Configs {
  import opened Wrappers
  import opened Exceptions
  import opened Json
  import opened Normalizer

  /** The settings a configuration holds. */
  type Configs = map<string, Value>

  /** Lines 74-87: the built-in settings used when the defaults file does
      not exist. */
  const BuiltinConfigs: Configs := map[
    "dest" := Null,
    "recursive" := Bool(true),
    "dry_run" := Bool(false),
    "clean_source" := Bool(true),
    "rules" := Null,
    "rules_file" := Null,
    "combine" := Bool(false),
    "stream_level" := Str("debug"),
    "log_file" := Null,
    "write_level" := Str("debug")
  ]

  /** Every boolean option of `m` holds a boolean. */
  predicate BooleansHold(m: Configs) {
    forall k :: k in m && k in BooleanOptions ==> m[k].Bool?
  }

  /** `_normalize_dict` (lines 35-44): the decoded dict, copied, provided
      every boolean option in it holds a boolean. */
  function NormalizeDict(data: Dict): (r: Result<Configs, Error>)
    ensures r.Success? <==> BooleansHold(ToMap(data))
    ensures r.Success? ==> r.value == ToMap(data)
    ensures r.Failure? ==> r.error == ConfigError
  {
    var m := ToMap(data);
    if BooleansHold(m) then Success(m) else Failure(ConfigError)
  }

  /** `load_from_file` (lines 46-60). `state` is the `__configs` slot, `None`
      while it has never been assigned. A read or JSON failure and a
      content that is not a dict are `ConfigError`s; bytes that are not
      UTF-8 escape as `UnicodeDecodeError`; updating an unassigned slot
      raises `AttributeError`. */
  function LoadFromFile(disk: Disk, state: Option<Configs>, path: string): (r: Result<Configs, Error>)
    ensures r.Success? <==>
      && state.Some?
      && path in disk && disk[path].Parsed? && disk[path].value.Obj?
      && BooleansHold(ToMap(disk[path].value.fields))
    ensures r.Success? ==> r.value == Update(state.value, disk[path].value.fields)
    ensures r.Failure? ==> r.error == ConfigError || r.error == Unhandled("AttributeError") || r.error == NotUtf8
    ensures r.Failure? ==> (r.error == NotUtf8 <==> path in disk && disk[path].Undecodable?)
    ensures state.Some? && r.Failure? ==> r.error == ConfigError || r.error == NotUtf8
  {
    if path !in disk || disk[path].Unparsable? then Failure(ConfigError)
    else if disk[path].Undecodable? then Failure(NotUtf8)
    else
      var v := disk[path].value;
      if !v.Obj? then Failure(ConfigError)
      else
        var n :- NormalizeDict(v.fields);
        if state.None? then Failure(Unhandled("AttributeError"))
        else Success(state.value + n)
  }

  /** `load_defaults` (lines 62-87): the defaults file when it exists,
      otherwise the built-in settings. */
  function LoadDefaults(disk: Disk, state: Option<Configs>, defaultFile: string): (r: Result<Configs, Error>)
    ensures defaultFile in disk ==> r == LoadFromFile(disk, state, defaultFile)
    ensures defaultFile !in disk && state.Some? ==> r == Success(state.value + BuiltinConfigs)
    ensures defaultFile !in disk && state.None? ==> r == Failure(Unhandled("AttributeError"))
    ensures r.Success? <==>
      && state.Some?
      && (defaultFile in disk ==>
            disk[defaultFile].Parsed? && disk[defaultFile].value.Obj?
            && BooleansHold(ToMap(disk[defaultFile].value.fields)))
    ensures r.Success? ==> state.value.Keys <= r.value.Keys
    ensures r.Success? && BooleansHold(state.value) ==> BooleansHold(r.value)
    ensures r.Failure? ==> r.error == ConfigError || r.error == Unhandled("AttributeError") || r.error == NotUtf8
  {
    BuiltinBooleans();
    if defaultFile in disk then LoadFromFile(disk, state, defaultFile)
    else if state.None? then Failure(Unhandled("AttributeError"))
    else Success(state.value + BuiltinConfigs)
  }

  /** `__init__` (lines 15-26) starting from the slot state `start`. A
      given path is loaded whatever it is, since a `Path` is always
      true. */
  function InitWith(disk: Disk, defaultFile: string, configPath: Option<string>, start: Option<Configs>): (r: Result<Configs, Error>)
    ensures r.Success? ==> start.Some? && start.value.Keys <= r.value.Keys
    ensures r.Success? && configPath.Some? ==>
      var p := configPath.value; p in disk && disk[p].Parsed? && disk[p].value.Obj?
    ensures r.Success? && configPath.Some? ==>
      var user := ToMap(disk[configPath.value].value.fields);
      forall k :: k in user ==> k in r.value && r.value[k] == user[k]
    ensures r.Failure? ==> r.error == ConfigError || r.error == Unhandled("AttributeError") || r.error == NotUtf8
  {
    var c :- LoadDefaults(disk, start, defaultFile);
    if configPath.Some? then LoadFromFile(disk, Some(c), configPath.value) else Success(c)
  }

  /** The constructor as written: `__slots__` declares the slot, but nothing
      assigns it before the first update. */
  function InitAsWritten(disk: Disk, defaultFile: string, configPath: Option<string>): (r: Result<Configs, Error>)
    ensures r.Failure?
  {
    InitWith(disk, defaultFile, configPath, None)
  }

  /** The constructor with the slot first set to an empty dict. */
  function Init(disk: Disk, defaultFile: string, configPath: Option<string>): (r: Result<Configs, Error>)
    ensures r.Success? ==> BooleansHold(r.value)
    ensures r.Failure? ==> r.error == ConfigError || r.error == NotUtf8
  {
    var r := InitWith(disk, defaultFile, configPath, Some(map[]));
    if r.Success? then
      DefaultsBooleans(disk, defaultFile);
      var base := LoadDefaults(disk, Some(map[]), defaultFile).value;
      assert configPath.Some? ==> r.value == base + ToMap(disk[configPath.value].value.fields);
      r
    else r
  }

  /** As written, no constructor call succeeds: it ends in a `ConfigError`
      or, when every file is fine, in `AttributeError`. */
  lemma InitAsWrittenNeverSucceeds(disk: Disk, defaultFile: string, configPath: Option<string>)
    ensures InitAsWritten(disk, defaultFile, configPath).Failure?
    ensures var e := InitAsWritten(disk, defaultFile, configPath).error;
      e == ConfigError || e == Unhandled("AttributeError") || e == NotUtf8
  {
  }

  /** With the slot initialised, a missing defaults file and no user file
      give exactly the built-in settings. */
  lemma InitBuiltin(disk: Disk, defaultFile: string)
    requires defaultFile !in disk
    ensures Init(disk, defaultFile, None) == Success(BuiltinConfigs)
  {
    var empty: Configs := map[];
    assert empty + BuiltinConfigs == BuiltinConfigs;
  }

  /** The corrected constructor fails only with `ConfigError`, and exactly
      when one of the files it reads is unreadable, not a dict, or holds a
      non-boolean boolean option; a file that is not UTF-8 lets
      `UnicodeDecodeError` escape instead. */
  lemma InitErrors(disk: Disk, defaultFile: string, configPath: Option<string>)
    ensures var r := Init(disk, defaultFile, configPath);
      && (r.Failure? ==> r.error == ConfigError || r.error == NotUtf8)
      && (r.Failure? && r.error == NotUtf8 ==>
            (defaultFile in disk && disk[defaultFile].Undecodable?)
            || (configPath.Some? && configPath.value in disk && disk[configPath.value].Undecodable?))
      && (r.Success? <==>
            && (defaultFile in disk ==>
                  disk[defaultFile].Parsed? && disk[defaultFile].value.Obj?
                  && BooleansHold(ToMap(disk[defaultFile].value.fields)))
            && (configPath.Some? ==>
                  var p := configPath.value;
                  p in disk && disk[p].Parsed? && disk[p].value.Obj? && BooleansHold(ToMap(disk[p].value.fields))))
  {
  }

  /** The built-in settings keep the boolean options boolean. */
  lemma BuiltinBooleans()
    ensures BooleansHold(BuiltinConfigs)
  {
    forall k | k in BuiltinConfigs && k in BooleanOptions ensures BuiltinConfigs[k].Bool? {
      assert k == "dry_run" || k == "recursive" || k == "clean_source" || k == "combine";
    }
  }

  /** Whatever the defaults step yields keeps the boolean options
      boolean. */
  lemma DefaultsBooleans(disk: Disk, defaultFile: string)
    requires LoadDefaults(disk, Some(map[]), defaultFile).Success?
    ensures BooleansHold(LoadDefaults(disk, Some(map[]), defaultFile).value)
  {
    var empty: Configs := map[];
    if defaultFile !in disk {
      BuiltinBooleans();
      assert empty + BuiltinConfigs == BuiltinConfigs;
    } else {
      assert LoadDefaults(disk, Some(map[]), defaultFile).value == empty + ToMap(disk[defaultFile].value.fields);
    }
  }

  /** The user file wins over the defaults, the defaults fill in the rest,
      and every boolean option ends up a boolean. */
  lemma InitPrecedence(disk: Disk, defaultFile: string, path: string)
    requires Init(disk, defaultFile, Some(path)).Success?
    ensures var c := Init(disk, defaultFile, Some(path)).value;
      var user := ToMap(disk[path].value.fields);
      var base := LoadDefaults(disk, Some(map[]), defaultFile).value;
      && c.Keys == base.Keys + user.Keys
      && (forall k :: k in user ==> c[k] == user[k])
      && (forall k :: k in base && k !in user ==> c[k] == base[k])
      && BooleansHold(c)
  {
    var base := LoadDefaults(disk, Some(map[]), defaultFile).value;
    DefaultsBooleans(disk, defaultFile);
    var user := ToMap(disk[path].value.fields);
    assert Init(disk, defaultFile, Some(path)).value == base + user;
  }
}
