/**
 * The older API configuration (Helpers/ApiConfig.php): a file read once,
 * guarded by a `loaded` flag, laid over the defaults, with the same reads
 * as Config.
 *
 * `fileData` is what the application's loader returns for the file path.
 */
module ApiConfig {
  import opened Wrappers
  import opened Php
  import opened Errors
  import opened Config

  /** load's checks on what the loader returned. A non-array reaches a
      message whose interpolation `"$this-filepath"` converts the object
      itself to a string, which PHP refuses with an Error. */
  function LoadFailure(filepath: string, fileData: Value): Option<AuthError>
  {
    if Empty(fileData) then Some(Message("Config \"" + filepath + "\" not found"))
    else if !fileData.Arr? then Some(TypeError)
    else None
  }

  class ApiConfig {
    const filepath: string
    var data: PhpArray
    var loaded: bool
    var ignoreUndefined: bool

    /** The object before its constructor body runs. */
    constructor (filepath: string)
      ensures this.filepath == filepath && data == [] && !loaded && ignoreUndefined
    {
      this.filepath := filepath;
      data := [];
      loaded := false;
      ignoreUndefined := true;
    }

    /** The constructor's body: load the file, then lay it over the
        defaults when they are non-empty, so the file's values win. */
    method Init(default: Option<PhpArray>, fileData: Value) returns (r: Result<(), AuthError>)
      modifies this`data, this`loaded
      ensures old(loaded) || LoadFailure(filepath, fileData).None? ==>
        r.Ok? && loaded
        && data == (var d := if old(loaded) then old(data) else fileData.entries;
                    if default.Some? && |default.value| > 0 then ArrayMerge(default.value, d) else d)
      ensures !old(loaded) && LoadFailure(filepath, fileData).Some? ==>
        r == Err(LoadFailure(filepath, fileData).value) && data == old(data) && !loaded
    {
      r := Load(fileData);
      if r.Err? {
        return;
      }
      if default.Some? && |default.value| > 0 {
        data := ArrayMerge(default.value, data);
      }
    }

    /** load: reads the file only while nothing has been loaded; a failed
        read leaves the flag down. */
    method Load(fileData: Value) returns (r: Result<(), AuthError>)
      modifies this`data, this`loaded
      ensures old(loaded) ==> r.Ok? && data == old(data) && loaded
      ensures !old(loaded) && LoadFailure(filepath, fileData).Some? ==>
        r == Err(LoadFailure(filepath, fileData).value) && data == old(data) && !loaded
      ensures !old(loaded) && LoadFailure(filepath, fileData).None? ==>
        r.Ok? && data == fileData.entries && loaded
    {
      if !loaded {
        var failure := LoadFailure(filepath, fileData);
        if failure.Some? {
          return Err(failure.value);
        }
        data := fileData.entries;
        loaded := true;
      }
      r := Ok(());
    }

    /** unignoreUndefined: reads of missing properties raise from now on. */
    method UnignoreUndefined()
      modifies this`ignoreUndefined
      ensures !ignoreUndefined
    {
      ignoreUndefined := false;
    }

    /** get, naming the file path in its error. */
    function GetValue(name: string): (r: Result<Value, AuthError>)
      reads this
      ensures r == GetProperty(data, ignoreUndefined, filepath, name)
    {
      GetProperty(data, ignoreUndefined, filepath, name)
    }

    /** getList. */
    method GetList(names: Option<seq<string>>) returns (r: Result<PhpArray, AuthError>)
      ensures r == GetListOf(data, ignoreUndefined, filepath, names)
    {
      if names.None? || |names.value| == 0 {
        return Ok(data);
      }
      r := ReadList(data, ignoreUndefined, filepath, names.value);
    }
  }

  /** A second load changes nothing, whatever the loader would now return:
      the file is read at most once. */
  method LoadTwice(c: ApiConfig, first: Value, second: Value) returns (r1: Result<(), AuthError>, r2: Result<(), AuthError>)
    modifies c`data, c`loaded
    ensures r1.Ok? ==> (r2.Ok? && c.loaded
      && (old(c.loaded) ==> c.data == old(c.data))
      && (!old(c.loaded) ==> first.Arr? && c.data == first.entries))
  {
    r1 := c.Load(first);
    r2 := c.Load(second);
  }

  /** After the constructor, a loaded string key reads the loaded value
      and a string key the file lacks keeps its default; the values under
      integer keys are the defaults' and then the file's, renumbered. */
  lemma LoadedWinsOverDefault(default: PhpArray, loaded: PhpArray, k: string)
    requires KeysDistinct(default) && KeysDistinct(loaded)
    ensures !IsIntKey(k) && k in Keys(loaded) ==> Lookup(ArrayMerge(default, loaded), k) == Lookup(loaded, k)
    ensures !IsIntKey(k) && k !in Keys(loaded) ==> Lookup(ArrayMerge(default, loaded), k) == Lookup(default, k)
    ensures IntEntries(ArrayMerge(default, loaded)) == Numbered(IntValues(default) + IntValues(loaded), 0)
  {
    if !IsIntKey(k) {
      ArrayMergeLookup(default, loaded, k);
    }
    ArrayMergeInts(default, loaded);
  }
}
