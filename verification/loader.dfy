/** `Loader.load_from_file` (`tools/loader.py`): reads one JSON dict, from a
    custom path or from the packaged file for the given purpose. */
module Loader {
  import opened Wrappers
  import opened Exceptions
  import opened Json

  /** The packaged default files. */
  datatype Bundled = Bundled(styles: string, rules: string, config: string)

  /** Lines 29-37: the packaged file for `which`; anything unknown gets
      the config file. */
  function DefaultPath(b: Bundled, which: string): (p: string)
    ensures which == "styles" ==> p == b.styles
    ensures which == "rules" ==> p == b.rules
    ensures which != "styles" && which != "rules" ==> p == b.config
  {
    if which == "styles" then b.styles
    else if which == "rules" then b.rules
    else b.config
  }

  /** Lines 38-47: decoding a file. A missing file and invalid JSON raise
      `PathError`; decoded content that is not a dict raises `ConfigError`;
      bytes that are not UTF-8 escape as `UnicodeDecodeError`. */
  function ReadDict(disk: Disk, path: string): (r: Result<Dict, Error>)
    ensures r.Success? <==> path in disk && disk[path].Parsed? && disk[path].value.Obj?
    ensures r.Success? ==> disk[path] == Parsed(Obj(r.value))
    ensures r.Failure? ==> (r.error == ConfigError <==> path in disk && disk[path].Parsed?)
    ensures r.Failure? ==> (r.error == NotUtf8 <==> path in disk && disk[path].Undecodable?)
    ensures r.Failure? ==> r.error == PathError || r.error == ConfigError || r.error == NotUtf8
  {
    if path !in disk then Failure(PathError)
    else match disk[path]
      case Unparsable => Failure(PathError)
      case Undecodable => Failure(NotUtf8)
      case Parsed(v) => if v.Obj? then Success(v.fields) else Failure(ConfigError)
  }

  /** `load_from_file(which, custom_path)` (lines 21-47). Any custom path
      that is given, even an empty one, must exist. */
  function LoadFromFile(disk: Disk, b: Bundled, which: string, custom: Option<string>): (r: Result<Dict, Error>)
    ensures custom.Some? && custom.value !in disk ==> r == Failure(PathError)
    ensures custom.Some? && custom.value in disk ==> r == ReadDict(disk, custom.value)
    ensures custom.None? ==> r == ReadDict(disk, DefaultPath(b, which))
    ensures var p := if custom.Some? then custom.value else DefaultPath(b, which);
      && (r.Success? <==> p in disk && disk[p].Parsed? && disk[p].value.Obj?)
      && (r.Success? ==> disk[p] == Parsed(Obj(r.value)))
    ensures r.Failure? ==> r.error == PathError || r.error == ConfigError || r.error == NotUtf8
  {
    if custom.Some? then
      if custom.value !in disk then Failure(PathError) else ReadDict(disk, custom.value)
    else ReadDict(disk, DefaultPath(b, which))
  }

  /** A custom path is never replaced by a packaged file: what a call with
      one returns is that file's dict, and any failure is that file's. */
  lemma CustomPathIsBinding(disk: Disk, b: Bundled, which: string, p: string)
    ensures var r := LoadFromFile(disk, b, which, Some(p));
      && (r.Success? <==> p in disk && disk[p].Parsed? && disk[p].value.Obj?)
      && (r.Success? ==> disk[p] == Parsed(Obj(r.value)))
  {
  }

  /** With a custom path, the purpose named does not matter. */
  lemma PurposeIrrelevantWithCustomPath(disk: Disk, b: Bundled, w1: string, w2: string, p: string)
    ensures LoadFromFile(disk, b, w1, Some(p)) == LoadFromFile(disk, b, w2, Some(p))
  {
  }

  /** Without one, each purpose reads its own packaged file, and an unknown
      purpose reads the config file. */
  lemma PackagedFileByPurpose(disk: Disk, b: Bundled, which: string)
    ensures LoadFromFile(disk, b, which, None) ==
      ReadDict(disk, if which == "styles" then b.styles else if which == "rules" then b.rules else b.config)
  {
  }
}
