/** `ConfigValidator.validate_logging_config` (`src/validator.py`): checks the
    console and file sections of a logging configuration and hands the
    configuration back unchanged. */
module Validator {
  import opened Wrappers
  import opened Exceptions
  import opened Json
  import opened Normalizer

  /** Lines 15-19 as written: a console section that is not a dict has no
      `.get`; an enabled one may only carry the console parameters, so an
      explicit `enabled` key is itself rejected. `None` means accepted. */
  function ConsoleAsWritten(section: Value): (e: Option<Error>)
    ensures e.Some? ==> e.value == ConfigError || e.value == Unhandled("AttributeError")
  {
    if !section.Obj? then Some(Unhandled("AttributeError"))
    else if !Truthy(Get(section.fields, "enabled", Bool(true))) then None
    else if KeysOf(section.fields) <= ConsoleParams then None
    else Some(ConfigError)
  }

  /** Lines 21-38 as written: an enabled file section may only carry the
      file parameters (which do not include `enabled`), and it is rejected
      when its path IS set. */
  function FileAsWritten(section: Value): (e: Option<Error>)
    ensures e.Some? ==> e.value == ConfigError || e.value == Unhandled("AttributeError")
  {
    if !section.Obj? then Some(Unhandled("AttributeError"))
    else if !Truthy(Get(section.fields, "enabled", Bool(false))) then None
    else if !(KeysOf(section.fields) <= FileParams) then Some(ConfigError)
    else if Truthy(Get(section.fields, "path", Null)) then Some(ConfigError)
    else None
  }

  /** The intended check of one section: a dict accepted by the corrected
      `log_mg` handler check. */
  function SectionCheck(key: string, section: Value): (e: Option<Error>)
    requires key == "console" || key == "file"
    ensures e.None? <==> section.Obj? && LogMg(key, section.fields).Success?
    ensures e.Some? ==> e.value == ConfigError || e.value == Unhandled("AttributeError")
  {
    if !section.Obj? then Some(Unhandled("AttributeError"))
    else if LogMg(key, section.fields).Success? then None
    else Some(ConfigError)
  }

  /** The whole validation with the two section checks supplied. */
  function ValidateWith(config: Dict, console: Value -> Option<Error>, file: Value -> Option<Error>): (r: Result<Dict, Error>)
    ensures r.Success? ==> r.value == config
    ensures "console" in ToMap(config) && console(ToMap(config)["console"]).Some? ==>
      r == Failure(console(ToMap(config)["console"]).value)
    ensures "file" in ToMap(config) && file(ToMap(config)["file"]).Some? ==> r.Failure?
    ensures r.Failure? ==>
      || ("console" in ToMap(config) && console(ToMap(config)["console"]) == Some(r.error))
      || ("file" in ToMap(config) && file(ToMap(config)["file"]) == Some(r.error))
  {
    var m := ToMap(config);
    if "console" in m && console(m["console"]).Some? then Failure(console(m["console"]).value)
    else if "file" in m && file(m["file"]).Some? then Failure(file(m["file"]).value)
    else Success(config)
  }

  /** `validate_logging_config` as written (lines 11-40). */
  function ValidateAsWritten(config: Dict): (r: Result<Dict, Error>)
    ensures r.Success? ==> r.value == config
    ensures r.Failure? ==> r.error == ConfigError || r.error == Unhandled("AttributeError")
    ensures var m := ToMap(config);
      "file" in m && m["file"].Obj? && Truthy(Get(m["file"].fields, "enabled", Bool(false))) ==> r.Failure?
  {
    var m := ToMap(config);
    var r := ValidateWith(config, ConsoleAsWritten, FileAsWritten);
    if "file" in m && m["file"].Obj? && Truthy(Get(m["file"].fields, "enabled", Bool(false))) then
      TruthyGetIsPresent(m["file"].fields, "enabled", Bool(false));
      assert "enabled" !in FileParams;
      r
    else r
  }

  /** The validation as intended: `enabled` is an accepted parameter, and
      an enabled file section must name a path. */
  function Validate(config: Dict): (r: Result<Dict, Error>)
    ensures r.Success? ==> r.value == config
    ensures r.Failure? ==> r.error == ConfigError || r.error == Unhandled("AttributeError")
    ensures var m := ToMap(config);
      r.Success? <==>
        && ("console" in m ==> m["console"].Obj? && LogMg("console", m["console"].fields).Success?)
        && ("file" in m ==> m["file"].Obj? && LogMg("file", m["file"].fields).Success?)
  {
    ValidateWith(config, s => SectionCheck("console", s), s => SectionCheck("file", s))
  }

  /** A truthy value read with a falsy default comes from the dict. */
  lemma TruthyGetIsPresent(d: Dict, k: string, default: Value)
    requires !Truthy(default) && Truthy(Get(d, k, default))
    ensures k in KeysOf(d)
  {
  }

  /** What the written validator accepts: a console section that is
      disabled or carries only console parameters, and a file section that
      is disabled. An enabled file section is always rejected. */
  lemma ValidateAsWrittenAccepts(config: Dict)
    ensures var m := ToMap(config);
      ValidateAsWritten(config).Success? <==>
        && ("console" in m ==>
              && m["console"].Obj?
              && (!Truthy(Get(m["console"].fields, "enabled", Bool(true))) || KeysOf(m["console"].fields) <= ConsoleParams))
        && ("file" in m ==> m["file"].Obj? && !Truthy(Get(m["file"].fields, "enabled", Bool(false))))
  {
    var m := ToMap(config);
    if "file" in m && m["file"].Obj? && Truthy(Get(m["file"].fields, "enabled", Bool(false))) {
      TruthyGetIsPresent(m["file"].fields, "enabled", Bool(false));
      assert "enabled" !in FileParams;
    }
  }

  /** What the intended validator accepts: each section present is a dict
      the corrected handler check accepts. */
  lemma ValidateAccepts(config: Dict)
    ensures var m := ToMap(config);
      Validate(config).Success? <==>
        && ("console" in m ==> m["console"].Obj? && LogMg("console", m["console"].fields).Success?)
        && ("file" in m ==> m["file"].Obj? && LogMg("file", m["file"].fields).Success?)
  {
  }

  /** Every configuration the written validator accepts, the intended one
      accepts too, with the same result. */
  lemma ValidateExtendsAsWritten(config: Dict)
    requires ValidateAsWritten(config).Success?
    ensures Validate(config) == ValidateAsWritten(config)
  {
    ValidateAsWrittenAccepts(config);
    var m := ToMap(config);
    if "console" in m {
      var h := m["console"].fields;
      if Truthy(Get(h, "enabled", Bool(true))) {
        assert KeysOf(h) <= ConsoleParams + {"enabled"};
      }
    }
  }

  /** An enabled file logger with a path: rejected as written, accepted as
      intended. */
  lemma EnabledFileLoggerRejected()
    ensures var config := [("file", Obj([("enabled", Bool(true)), ("path", Str("log.txt"))]))];
      && ValidateAsWritten(config) == Failure(ConfigError)
      && Validate(config) == Success(config)
  {
    var h := [("enabled", Bool(true)), ("path", Str("log.txt"))];
    var config := [("file", Obj(h))];
    FileHandlerRejected();
    assert ToMap(config) == map["file" := Obj(h)] by {
      assert config[..0] == [];
    }
    assert Get(h, "enabled", Bool(false)) == Bool(true) by {
      assert h[..1] == [("enabled", Bool(true))];
    }
    assert h[0].0 == "enabled";
  }
}
