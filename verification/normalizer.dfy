/** `ConfigNormalizer` (`tools/normalizer.py`): per-manager normalisation of
    a dict, pair by pair, failing on the first pair it cannot accept. */
module Normalizer {
  import opened Wrappers
  import opened Exceptions
  import opened Text
  import opened Json

  /** The options that must end up booleans. */
  const BooleanOptions: set<string> := {"dry_run", "recursive", "clean_source", "combine"}

  /** The parameters a console log handler may carry. */
  const ConsoleParams: set<string> := {"level", "colorize", "style", "style_data", "style_path"}

  /** The parameters a file log handler may carry. */
  const FileParams: set<string> :=
    {"level", "style", "style_data", "style_path", "path", "rotation", "retention", "compression"}

  // ---- rule_mg ------------------------------------------------------------------

  /** `rule_mg` (lines 28-33): `.lower()` fails on anything but a string. */
  function RuleMg(value: Value): (r: Result<Value, Error>)
    ensures r.Success? <==> value.Str?
    ensures r.Failure? ==> r.error == Unhandled("AttributeError")
    ensures r.Success? ==> r.value.Str? && IsDotted(r.value.s)
    ensures r.Success? ==> r.value.s == Lower(value.s) || r.value.s == "." + Lower(value.s)
  {
    if value.Str? then Success(Str(Dotted(value.s))) else Failure(Unhandled("AttributeError"))
  }

  lemma RuleMgIdempotent(value: Value)
    requires value.Str?
    ensures RuleMg(RuleMg(value).value) == RuleMg(value)
  {
    DottedIdempotent(value.s);
  }

  // ---- config_mg ------------------------------------------------------------------

  /** `config_mg` (lines 36-46): a boolean option given as a string
      `true`/`false` (any letter case) becomes the boolean. */
  function ConfigMg(key: string, value: Value): (r: Result<(string, Value), Error>)
    ensures r.Success? ==> r.value.0 == key
    ensures key !in BooleanOptions || value.Bool? ==> r == Success((key, value))
    ensures key in BooleanOptions && r.Success? ==> r.value.1.Bool?
    ensures key in BooleanOptions && value.Str? ==>
      && (Lower(value.s) == "true" <==> r == Success((key, Bool(true))))
      && (Lower(value.s) == "false" <==> r == Success((key, Bool(false))))
      && (r.Failure? <==> Lower(value.s) != "true" && Lower(value.s) != "false")
    ensures r.Failure? ==>
      if value.Str? then r.error == ConfigError else r.error == Unhandled("AttributeError")
  {
    if key in BooleanOptions && !value.Bool? then
      if !value.Str? then Failure(Unhandled("AttributeError"))
      else if Lower(value.s) == "true" then Success((key, Bool(true)))
      else if Lower(value.s) == "false" then Success((key, Bool(false)))
      else Failure(ConfigError)
    else Success((key, value))
  }

  /** Normalising a normalised pair changes nothing. */
  lemma ConfigMgIdempotent(key: string, value: Value)
    requires ConfigMg(key, value).Success?
    ensures var (k, v) := ConfigMg(key, value).value; ConfigMg(k, v) == Success((k, v))
  {
  }

  /** The letter case of a boolean spelled as a string does not matter. */
  lemma ConfigMgIgnoresCase(key: string, s: string)
    requires key in BooleanOptions
    ensures ConfigMg(key, Str(s)) == ConfigMg(key, Str(Lower(s)))
  {
    LowerIsLower(s);
    LowerOfLower(Lower(s));
  }

  // ---- log_mg ---------------------------------------------------------------------

  /** `log_mg` as written (lines 49-78). `handler` is the handler's dict. */
  function LogMgAsWritten(key: string, handler: Dict): (r: Result<(string, Value), Error>)
    ensures r.Success? ==> r.value == (key, Obj(handler))
    ensures r.Failure? ==> r.error == ConfigError
  {
    if key == "console" && Truthy(Get(handler, "enabled", Bool(true))) then
      if KeysOf(handler) <= ConsoleParams then Success((key, Obj(handler))) else Failure(ConfigError)
    else if key == "file" && Truthy(Get(handler, "enabled", Bool(false))) then
      if !(KeysOf(handler) <= FileParams) then Failure(ConfigError)
      else if !Truthy(Get(handler, "path", Null)) then Failure(ConfigError)
      else Success((key, Obj(handler)))
    else Failure(ConfigError)
  }

  /** What the written checks accept: only a console handler that does not
      mention `enabled` at all. An explicitly enabled console, any file
      handler and any disabled handler are rejected. */
  lemma LogMgAsWrittenAccepts(key: string, handler: Dict)
    ensures LogMgAsWritten(key, handler).Success? <==>
      key == "console" && "enabled" !in KeysOf(handler) && KeysOf(handler) <= ConsoleParams
  {
    if "enabled" !in KeysOf(handler) {
      assert Get(handler, "enabled", Bool(true)) == Bool(true);
      assert Get(handler, "enabled", Bool(false)) == Bool(false);
    }
  }

  /** An enabled file handler with a path: rejected as written, accepted by
      the intended check. */
  lemma FileHandlerRejected()
    ensures var h := [("enabled", Bool(true)), ("path", Str("log.txt"))];
      && LogMgAsWritten("file", h).Failure?
      && LogMg("file", h).Success?
  {
    var h := [("enabled", Bool(true)), ("path", Str("log.txt"))];
    assert h[0].0 == "enabled";
    assert Get(h, "enabled", Bool(false)) == Bool(true) by {
      assert h[..1] == [("enabled", Bool(true))];
    }
    assert Get(h, "path", Null) == Str("log.txt");
    assert KeysOf(h) == {"enabled", "path"} by {
      assert h[0].0 == "enabled" && h[1].0 == "path";
    }
  }

  /** The handler check with `enabled` accepted as a parameter and a
      disabled handler let through unchanged; an enabled file handler still
      needs a path, and any other sink is rejected. */
  function LogMg(key: string, handler: Dict): (r: Result<(string, Value), Error>)
    ensures r.Success? ==> r.value == (key, Obj(handler))
    ensures r.Failure? ==> r.error == ConfigError
    ensures key != "console" && key != "file" ==> r.Failure?
  {
    if key == "console" then
      if !Truthy(Get(handler, "enabled", Bool(true))) then Success((key, Obj(handler)))
      else if KeysOf(handler) <= ConsoleParams + {"enabled"} then Success((key, Obj(handler)))
      else Failure(ConfigError)
    else if key == "file" then
      if !Truthy(Get(handler, "enabled", Bool(false))) then Success((key, Obj(handler)))
      else if !(KeysOf(handler) <= FileParams + {"enabled"}) then Failure(ConfigError)
      else if !Truthy(Get(handler, "path", Null)) then Failure(ConfigError)
      else Success((key, Obj(handler)))
    else Failure(ConfigError)
  }

  /** The intended check accepts exactly: a disabled console or file
      handler; an enabled console whose parameters are allowed; an enabled
      file handler whose parameters are allowed and whose path is set. */
  lemma LogMgAccepts(key: string, handler: Dict)
    ensures LogMg(key, handler).Success? <==>
      var enabled := Get(handler, "enabled", Bool(key == "console"));
      || (key == "console" && (!Truthy(enabled) || KeysOf(handler) <= ConsoleParams + {"enabled"}))
      || (key == "file" && (!Truthy(enabled) ||
            (KeysOf(handler) <= FileParams + {"enabled"} && Truthy(Get(handler, "path", Null)))))
  {
  }

  /** What the written check accepts, the intended one accepts too. */
  lemma LogMgExtendsAsWritten(key: string, handler: Dict)
    requires LogMgAsWritten(key, handler).Success?
    ensures LogMg(key, handler) == LogMgAsWritten(key, handler)
  {
    LogMgAsWrittenAccepts(key, handler);
    assert Get(handler, "enabled", Bool(true)) == Bool(true);
  }

  // ---- data_normalizer ------------------------------------------------------------

  /** One pair of `data_normalizer`'s loop (lines 15-22) for the manager
      `mg`; an unknown manager passes the pair through. */
  function NormalizePair(key: string, value: Value, mg: string): (r: Result<(string, Value), Error>)
    ensures r.Success? ==> r.value.0 == key
    ensures mg != "rule_mg" && mg != "config_mg" && mg != "log_mg" ==> r == Success((key, value))
  {
    if mg == "rule_mg" then
      var v :- RuleMg(value);
      Success((key, v))
    else if mg == "config_mg" then ConfigMg(key, value)
    else if mg == "log_mg" then
      if !value.Obj? then Failure(ConfigError) else LogMgAsWritten(key, value.fields)
    else Success((key, value))
  }

  /** The pairs before index `i` all normalise, and the pair at `i` fails
      with `e`. */
  predicate FailsFirstAt(data: Dict, mg: string, i: nat, e: Error) {
    && i < |data|
    && (forall j :: 0 <= j < i ==> NormalizePair(data[j].0, data[j].1, mg).Success?)
    && NormalizePair(data[i].0, data[i].1, mg) == Failure(e)
  }

  /** `data_normalizer` (lines 11-25): every pair normalised in order; the
      first pair that fails decides the error. */
  function DataNormalizer(data: Dict, mg: string): (r: Result<Dict, Error>)
    ensures r.Success? ==> |r.value| == |data|
    ensures r.Success? ==>
      forall i :: 0 <= i < |data| ==> Success(r.value[i]) == NormalizePair(data[i].0, data[i].1, mg)
    ensures r.Failure? ==> exists i: nat :: FailsFirstAt(data, mg, i, r.error)
  {
    if data == [] then Success([])
    else
      var head := NormalizePair(data[0].0, data[0].1, mg);
      if head.Failure? then
        assert FailsFirstAt(data, mg, 0, head.error);
        Failure(head.error)
      else
        var rest := DataNormalizer(data[1..], mg);
        if rest.Failure? then
          var i: nat :| FailsFirstAt(data[1..], mg, i, rest.error);
          assert FailsFirstAt(data, mg, i + 1, rest.error) by {
            forall j | 0 <= j < i + 1 ensures NormalizePair(data[j].0, data[j].1, mg).Success? {
              if j > 0 {
                assert data[j] == data[1..][j - 1];
              }
            }
            assert data[i + 1] == data[1..][i];
          }
          Failure(rest.error)
        else
          var r := [head.value] + rest.value;
          assert forall i :: 0 <= i < |data| ==> Success(r[i]) == NormalizePair(data[i].0, data[i].1, mg) by {
            forall i | 0 <= i < |data| ensures Success(r[i]) == NormalizePair(data[i].0, data[i].1, mg) {
              if i > 0 {
                assert data[i] == data[1..][i - 1];
              }
            }
          }
          Success(r)
  }

  /** The normaliser fails exactly when some pair cannot be normalised. */
  lemma DataNormalizerFails(data: Dict, mg: string)
    ensures DataNormalizer(data, mg).Failure? <==>
      exists i :: 0 <= i < |data| && NormalizePair(data[i].0, data[i].1, mg).Failure?
  {
    var r := DataNormalizer(data, mg);
    if r.Success? {
      forall i | 0 <= i < |data| ensures NormalizePair(data[i].0, data[i].1, mg).Success? {
        assert Success(r.value[i]) == NormalizePair(data[i].0, data[i].1, mg);
      }
    } else {
      var i: nat :| FailsFirstAt(data, mg, i, r.error);
    }
  }

  /** With `rule_mg` the keys are kept and every value becomes a dotted,
      lower-case string. */
  lemma RuleMgKeepsKeys(data: Dict)
    requires DataNormalizer(data, "rule_mg").Success?
    ensures var r := DataNormalizer(data, "rule_mg").value;
      forall i :: 0 <= i < |data| ==>
        r[i].0 == data[i].0 && r[i].1.Str? && IsDotted(r[i].1.s) && data[i].1.Str?
  {
    var r := DataNormalizer(data, "rule_mg").value;
    forall i | 0 <= i < |data|
      ensures r[i].0 == data[i].0 && r[i].1.Str? && IsDotted(r[i].1.s) && data[i].1.Str?
    {
      assert Success(r[i]) == NormalizePair(data[i].0, data[i].1, "rule_mg");
    }
  }

  /** An unknown manager name leaves the dict as it is. */
  lemma UnknownManagerIsIdentity(data: Dict, mg: string)
    requires mg != "rule_mg" && mg != "config_mg" && mg != "log_mg"
    ensures DataNormalizer(data, mg) == Success(data)
  {
    var r := DataNormalizer(data, mg).value;
    assert r == data by {
      forall i | 0 <= i < |data| ensures r[i] == data[i] {
        assert Success(r[i]) == NormalizePair(data[i].0, data[i].1, mg);
      }
    }
  }

  /** With `log_mg`, a value that is not a dict is a `ConfigError`. */
  lemma LogMgNeedsDicts(data: Dict, i: nat)
    requires i < |data| && !data[i].1.Obj?
    requires forall j :: 0 <= j < i ==> NormalizePair(data[j].0, data[j].1, "log_mg").Success?
    ensures DataNormalizer(data, "log_mg") == Failure(ConfigError)
  {
  }

  /** With `log_mg` as written, a handler dict passes exactly when every
      entry is a console handler that is a dict, does not mention `enabled`
      and carries only console parameters. */
  lemma LogHandlersAccepted(data: Dict)
    ensures DataNormalizer(data, "log_mg").Success? <==>
      forall i :: 0 <= i < |data| ==>
        && data[i].0 == "console" && data[i].1.Obj?
        && "enabled" !in KeysOf(data[i].1.fields) && KeysOf(data[i].1.fields) <= ConsoleParams
  {
    DataNormalizerFails(data, "log_mg");
    forall i | 0 <= i < |data| && data[i].1.Obj? {
      LogMgAsWrittenAccepts(data[i].0, data[i].1.fields);
    }
  }

  /** An enabled file handler with a path stops `data_normalizer` with a
      `ConfigError`. */
  lemma NormalizerRejectsEnabledFileHandler()
    ensures DataNormalizer([("file", Obj([("enabled", Bool(true)), ("path", Str("log.txt"))]))], "log_mg")
         == Failure(ConfigError)
  {
    var h := [("enabled", Bool(true)), ("path", Str("log.txt"))];
    FileHandlerRejected();
    assert NormalizePair("file", Obj(h), "log_mg") == Failure(ConfigError);
  }
}
