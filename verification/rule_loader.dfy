/** `RuleLoader` (`src/rule_manager/rule_loader.py`): picks a rules file and
    keeps the first non-empty thing it decoded in a cache that answers
    every later call. */
module RuleLoader {
  import opened Wrappers
  import opened Exceptions
  import opened Json

  /** The loader's state: its default rules file and its cache (an empty
      dict until something non-empty has been decoded). */
  datatype Loader = Loader(defaultFile: string, cache: Value)

  /** A call's result together with the loader state it leaves. */
  datatype Loaded = Loaded(loader: Loader, result: Result<Value, Error>)

  /** `__init__` (lines 16-21). `bundled` is the packaged default rules
      file. */
  function NewLoader(disk: Disk, defaultPath: Option<string>, bundled: string): (l: Loader)
    ensures Given(defaultPath) && defaultPath.value in disk ==> l.defaultFile == defaultPath.value
    ensures !(Given(defaultPath) && defaultPath.value in disk) ==> l.defaultFile == bundled
    ensures !Truthy(l.cache) && l.cache.Obj?
  {
    var file := if Given(defaultPath) && defaultPath.value in disk then defaultPath.value else bundled;
    Loader(file, Obj([]))
  }

  /** Lines 26-29: the custom path when it is given and exists. */
  function ChoosePath(disk: Disk, l: Loader, custom: Option<string>): (p: string)
    ensures p == l.defaultFile || (Given(custom) && p == custom.value && p in disk)
    ensures Given(custom) && custom.value in disk ==> p == custom.value
  {
    if Given(custom) && custom.value in disk then custom.value else l.defaultFile
  }

  /** `load_rules` (lines 23-41). */
  function LoadRules(disk: Disk, l: Loader, custom: Option<string>): (r: Loaded)
    ensures r.loader.defaultFile == l.defaultFile
    ensures Truthy(l.cache) ==> r == Loaded(l, Success(l.cache))
    ensures !Truthy(l.cache) ==>
      var p := ChoosePath(disk, l, custom);
      && (r.result.Success? <==> p in disk && disk[p].Parsed? && disk[p].value.Obj?)
      && (r.result.Success? ==> r.result.value == disk[p].value && r.loader.cache == disk[p].value)
      && (p !in disk || disk[p].Unparsable? ==> r == Loaded(l, Failure(PathError)))
      && (p in disk && disk[p].Undecodable? ==> r == Loaded(l, Failure(NotUtf8)))
      && (p in disk && disk[p].Parsed? && !disk[p].value.Obj? ==>
            r == Loaded(Loader(l.defaultFile, disk[p].value), Failure(RuleError)))
    ensures l.cache.Obj? && r.result.Success? ==> r.result.value.Obj? && r.loader.cache.Obj?
  {
    var p := ChoosePath(disk, l, custom);
    if Truthy(l.cache) then Loaded(l, Success(l.cache))
    else if p !in disk || disk[p].Unparsable? then Loaded(l, Failure(PathError))
    else if disk[p].Undecodable? then Loaded(l, Failure(NotUtf8))
    else
      var v := disk[p].value;
      var l' := Loader(l.defaultFile, v);
      if v.Obj? then Loaded(l', Success(v)) else Loaded(l', Failure(RuleError))
  }

  /** Once the cache holds something, the path argument is irrelevant and
      the files are not consulted. */
  lemma CachedIgnoresPath(disk: Disk, disk': Disk, l: Loader, a: Option<string>, b: Option<string>)
    requires Truthy(l.cache)
    ensures LoadRules(disk, l, a) == LoadRules(disk', l, b)
  {
  }

  /** A second call after a successful non-empty load returns the first
      result again, whichever path it names. */
  lemma SecondCallRepeatsFirst(disk: Disk, l: Loader, a: Option<string>, b: Option<string>)
    requires !Truthy(l.cache)
    requires var first := LoadRules(disk, l, a); first.result.Success? && Truthy(first.result.value)
    ensures var first := LoadRules(disk, l, a);
      LoadRules(disk, first.loader, b).result == first.result
  {
  }

  /** An empty dict decodes successfully but is falsy, so it is not a cache
      hit: the next call reads its own file. */
  lemma EmptyDictNotCached(disk: Disk, l: Loader, a: Option<string>, b: Option<string>)
    requires !Truthy(l.cache)
    requires LoadRules(disk, l, a).result == Success(Obj([]))
    ensures var next := LoadRules(disk, LoadRules(disk, l, a).loader, b);
      var p := ChoosePath(disk, l, b);
      p in disk && disk[p].Parsed? && disk[p].value.Obj? ==> next.result == Success(disk[p].value)
  {
  }

  /** Content that is not a dict raises `RuleError` but stays cached: when
      it is truthy, the next call returns it as if it were a rule table. */
  lemma NonDictStaysCached(disk: Disk, l: Loader, a: Option<string>, b: Option<string>)
    requires !Truthy(l.cache)
    requires var p := ChoosePath(disk, l, a);
      p in disk && disk[p].Parsed? && !disk[p].value.Obj? && Truthy(disk[p].value)
    ensures var first := LoadRules(disk, l, a);
      && first.result == Failure(RuleError)
      && LoadRules(disk, first.loader, b).result == Success(disk[ChoosePath(disk, l, a)].value)
  {
  }
}
