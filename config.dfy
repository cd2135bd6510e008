/**
 * The older configuration holder (Helpers/Config.php): defaults merged
 * first, then the file's data; nested associative arrays merged one level
 * deep with array_merge, anything else replaced; reads that return null or
 * raise for a missing property.
 *
 * Loading a file is a parameter: `fileData` is what the application's
 * loader returns for the file name. `isAssoc` stands for
 * PhpHelper::isAssoc, which is not part of this model.
 */
module Config {
  import opened Wrappers
  import opened Php
  import opened Errors

  /** `PhpHelper::isAssoc($v)`: an array the helper calls associative. */
  predicate IsAssocValue(v: Value, isAssoc: PhpArray -> bool)
  {
    v.Arr? && isAssoc(v.entries)
  }

  /** The exception a read of a missing property raises, naming the file. */
  function MissingProperty(file: string, name: string): AuthError
  {
    Message("Config \"" + file + "\" not has property \"" + name + "\"")
  }

  /** get: a set property's value; a missing or null one reads as null
      while undefined properties are ignored, and raises otherwise. */
  function GetProperty(data: PhpArray, ignoreUndefined: bool, file: string, name: string): (r: Result<Value, AuthError>)
    ensures r.Err? <==> !IsSet(data, name) && !ignoreUndefined
    ensures r.Err? ==> r.error == MissingProperty(file, name)
    ensures r.Ok? ==> r.value == Get(data, name) && (r.value == Null <==> !IsSet(data, name))
  {
    if !IsSet(data, name) && !ignoreUndefined then Err(MissingProperty(file, name)) else Ok(Get(data, name))
  }

  /** The array getList builds for `names`: each name in turn set to its
      property, stopping at the first read that raises. */
  function ListOf(data: PhpArray, ignoreUndefined: bool, file: string, names: seq<string>): Result<PhpArray, AuthError>
  {
    if |names| == 0 then Ok([])
    else
      match ListOf(data, ignoreUndefined, file, names[..|names| - 1])
      case Err(e) => Err(e)
      case Ok(acc) =>
        match GetProperty(data, ignoreUndefined, file, names[|names| - 1])
        case Err(e) => Err(e)
        case Ok(v) => Ok(Set(acc, names[|names| - 1], v))
  }

  /** getList: every property when no names are given, otherwise the named
      ones. */
  function GetListOf(data: PhpArray, ignoreUndefined: bool, file: string, names: Option<seq<string>>): Result<PhpArray, AuthError>
  {
    if names.None? || |names.value| == 0 then Ok(data) else ListOf(data, ignoreUndefined, file, names.value)
  }

  /** The list holds exactly the given names, each with its property's
      value; it fails only for a missing property while undefined ones are
      not ignored. */
  lemma {:induction false} ListOfContents(data: PhpArray, ignoreUndefined: bool, file: string, names: seq<string>)
    ensures ListOf(data, ignoreUndefined, file, names).Ok? <==>
      ignoreUndefined || forall i :: 0 <= i < |names| ==> IsSet(data, names[i])
    ensures ListOf(data, ignoreUndefined, file, names).Ok? ==>
      forall k :: Lookup(ListOf(data, ignoreUndefined, file, names).value, k) ==
        if k in names then Some(Get(data, k)) else None
  {
    if |names| > 0 {
      var init := names[..|names| - 1];
      var last := names[|names| - 1];
      ListOfContents(data, ignoreUndefined, file, init);
      assert names == init + [last];
      assert forall k :: k in names <==> k in init || k == last;
      if !ignoreUndefined && (forall i :: 0 <= i < |init| ==> IsSet(data, init[i])) && !IsSet(data, last) {
        assert !IsSet(data, names[|names| - 1]);
      }
    }
  }

  /** getList's loop: the named properties read one by one. */
  method ReadList(data: PhpArray, ignoreUndefined: bool, file: string, names: seq<string>) returns (r: Result<PhpArray, AuthError>)
    ensures r == ListOf(data, ignoreUndefined, file, names)
  {
    var acc: PhpArray := [];
    var i := 0;
    while i < |names|
      invariant 0 <= i <= |names|
      invariant ListOf(data, ignoreUndefined, file, names[..i]) == Ok(acc)
    {
      assert names[..i + 1][..i] == names[..i];
      var v := GetProperty(data, ignoreUndefined, file, names[i]);
      if v.Err? {
        assert names[..i + 1][i] == names[i];
        ListOfStops(data, ignoreUndefined, file, names, i + 1);
        return Err(v.error);
      }
      acc := Set(acc, names[i], v.value);
      i := i + 1;
    }
    assert names[..|names|] == names;
    r := Ok(acc);
  }

  /** Once a prefix of the names fails, every longer prefix fails the same way. */
  lemma {:induction false} ListOfStops(data: PhpArray, ignoreUndefined: bool, file: string, names: seq<string>, n: nat)
    requires n <= |names| && ListOf(data, ignoreUndefined, file, names[..n]).Err?
    ensures ListOf(data, ignoreUndefined, file, names) == ListOf(data, ignoreUndefined, file, names[..n])
    decreases |names| - n
  {
    if n == |names| {
      assert names[..n] == names;
    } else {
      assert names[..n + 1][..n] == names[..n];
      ListOfStops(data, ignoreUndefined, file, names, n + 1);
    }
  }

  // mergeData

  /** One iteration of mergeData's loop: an associative value is replaced
      by array_merge of what the key held (an array, or nothing) and the
      value; array_merge raises on a key holding anything else. */
  function PrepareEntry(existing: PhpArray, e: Entry, isAssoc: PhpArray -> bool): (r: Result<Entry, AuthError>)
    ensures r.Ok? ==> r.value.key == e.key
  {
    if !IsAssocValue(e.val, isAssoc) then Ok(e)
    else
      match Get(existing, e.key)
      case Null => Ok(Entry(e.key, Arr(ArrayMerge([], e.val.entries))))
      case Arr(before) => Ok(Entry(e.key, Arr(ArrayMerge(before, e.val.entries))))
      case _ => Err(TypeError)
  }

  /** The loop over the entries `es`, in order. */
  function Prepared(existing: PhpArray, es: PhpArray, isAssoc: PhpArray -> bool): (r: Result<PhpArray, AuthError>)
    ensures r.Ok? ==> (|r.value| == |es|
      && forall i :: 0 <= i < |es| ==> Ok(r.value[i]) == PrepareEntry(existing, es[i], isAssoc))
  {
    if |es| == 0 then Ok([])
    else
      match Prepared(existing, es[..|es| - 1], isAssoc)
      case Err(e) => Err(e)
      case Ok(acc) =>
        match PrepareEntry(existing, es[|es| - 1], isAssoc)
        case Err(e) => Err(e)
        case Ok(x) => Ok(acc + [x])
  }

  /** mergeData: the prepared entries merged over the current data. */
  function MergedData(existing: PhpArray, data: PhpArray, isAssoc: PhpArray -> bool): Result<PhpArray, AuthError>
  {
    match Prepared(existing, data, isAssoc)
    case Err(e) => Err(e)
    case Ok(p) => Ok(ArrayMerge(existing, p))
  }

  /** Merging into an empty configuration never raises: no key holds a
      value array_merge would refuse. */
  lemma {:induction false} PreparedIntoEmpty(es: PhpArray, isAssoc: PhpArray -> bool)
    ensures Prepared([], es, isAssoc).Ok?
  {
    if |es| > 0 {
      PreparedIntoEmpty(es[..|es| - 1], isAssoc);
    }
  }

  /** The value mergeData stores for a key the new data holds. */
  function MergedValue(existing: PhpArray, k: string, v: Value, isAssoc: PhpArray -> bool): Value
    requires PrepareEntry(existing, Entry(k, v), isAssoc).Ok?
  {
    PrepareEntry(existing, Entry(k, v), isAssoc).value.val
  }

  /** After mergeData, a string key of the new data holds its value (an
      associative one merged over what the key held) and every other
      string key keeps its old value; the values under integer keys are the
      old ones and then the new, prepared ones, renumbered from 0, so an
      integer key of the new data is appended rather than overwritten. */
  lemma MergedDataLookup(existing: PhpArray, data: PhpArray, isAssoc: PhpArray -> bool, k: string)
    requires KeysDistinct(existing) && KeysDistinct(data) && MergedData(existing, data, isAssoc).Ok?
    ensures !IsIntKey(k) && k !in Keys(data) ==> Lookup(MergedData(existing, data, isAssoc).value, k) == Lookup(existing, k)
    ensures !IsIntKey(k) && Lookup(data, k).Some? ==> (PrepareEntry(existing, Entry(k, Lookup(data, k).value), isAssoc).Ok?
      && Lookup(MergedData(existing, data, isAssoc).value, k)
         == Some(MergedValue(existing, k, Lookup(data, k).value, isAssoc)))
    ensures IntEntries(MergedData(existing, data, isAssoc).value)
      == Numbered(IntValues(existing) + IntValues(Prepared(existing, data, isAssoc).value), 0)
    ensures KeysDistinct(MergedData(existing, data, isAssoc).value)
  {
    var p := Prepared(existing, data, isAssoc).value;
    SameKeys(p, data);
    ArrayMergeInts(existing, p);
    ArrayMergeDistinct(existing, p);
    if !IsIntKey(k) {
      ArrayMergeLookup(existing, p, k);
      if Lookup(data, k).Some? {
        var i := LookupIndex(data, k);
        LookupAt(p, i);
      }
    }
  }

  /** A non-associative value replaces the old one outright. An
      associative one is array_merge'd over what the key held: a string
      key keeps its old value unless the new value sets it, and the values
      under integer keys are the old ones followed by the new ones. */
  lemma MergedValueCases(existing: PhpArray, k: string, v: Value, isAssoc: PhpArray -> bool, j: string)
    requires PrepareEntry(existing, Entry(k, v), isAssoc).Ok?
    ensures !IsAssocValue(v, isAssoc) ==> MergedValue(existing, k, v, isAssoc) == v
    ensures (IsAssocValue(v, isAssoc) && KeysDistinct(v.entries) && Get(existing, k).Arr?
             && KeysDistinct(Get(existing, k).entries) && !IsIntKey(j)) ==>
      At(MergedValue(existing, k, v, isAssoc), j) ==
        if j in Keys(v.entries) then Get(v.entries, j) else Get(Get(existing, k).entries, j)
    ensures IsAssocValue(v, isAssoc) && Get(existing, k).Arr? ==>
      MergedValue(existing, k, v, isAssoc).Arr?
      && IntEntries(MergedValue(existing, k, v, isAssoc).entries)
         == Numbered(IntValues(Get(existing, k).entries) + IntValues(v.entries), 0)
  {
    if IsAssocValue(v, isAssoc) && Get(existing, k).Arr? {
      ArrayMergeInts(Get(existing, k).entries, v.entries);
      if KeysDistinct(v.entries) && KeysDistinct(Get(existing, k).entries) && !IsIntKey(j) {
        ArrayMergeLookup(Get(existing, k).entries, v.entries, j);
      }
    }
  }

  /** load's checks on what the loader returned: empty data is a missing
      file; data that is not associative reaches a sprintf whose `%s` has
      no argument. */
  function LoadError(filename: string, fileData: Value, isAssoc: PhpArray -> bool): Option<AuthError>
  {
    if Empty(fileData) then Some(Message("Config \"" + filename + "\" not found"))
    else if !IsAssocValue(fileData, isAssoc) then
      match Format("Config \"" + filename + "\" data must be type of assoc array, %s given", [])
      case Ok(text) => Some(Message(text))
      case Err(_) => Some(ArgumentCount)
    else None
  }

  /** For a file name without `%`, non-associative data raises the
      argument-count error, not the intended message. */
  lemma LoadNonAssocRaisesArgumentCount(filename: string, fileData: Value, isAssoc: PhpArray -> bool)
    requires '%' !in filename && !Empty(fileData) && !IsAssocValue(fileData, isAssoc)
    ensures LoadError(filename, fileData, isAssoc) == Some(ArgumentCount)
  {
    var prefix := "Config \"" + filename + "\" data must be type of assoc array, ";
    assert '%' !in prefix;
    FormatPlainPrefix(prefix, "%s given", []);
    assert prefix + "%s given" == "Config \"" + filename + "\" data must be type of assoc array, %s given";
  }

  /** The data the constructor leaves: the defaults merged into the
      starting data when non-empty, then the file when its name is non-empty. */
  function Constructed(start: PhpArray, filename: Option<string>, default: Option<PhpArray>, fileData: Value,
                       isAssoc: PhpArray -> bool): Result<PhpArray, AuthError>
  {
    var afterDefault :=
      if default.Some? && |default.value| > 0 then MergedData(start, default.value, isAssoc) else Ok(start);
    match afterDefault
    case Err(e) => Err(e)
    case Ok(d) =>
      if filename.None? || Empty(Str(filename.value)) then Ok(d)
      else
        match LoadError(filename.value, fileData, isAssoc)
        case Some(e) => Err(e)
        case None => MergedData(d, fileData.entries, isAssoc)
  }

  /** For string keys, the file's values win over the defaults and a
      default the file does not mention is kept. */
  lemma FileWinsOverDefault(filename: string, default: PhpArray, fileData: Value, isAssoc: PhpArray -> bool, k: string)
    requires !Empty(Str(filename)) && LoadError(filename, fileData, isAssoc).None?
    requires KeysDistinct(default) && KeysDistinct(fileData.entries)
    requires Constructed([], Some(filename), Some(default), fileData, isAssoc).Ok?
    ensures !IsIntKey(k) && Lookup(fileData.entries, k).Some? && !IsAssocValue(Lookup(fileData.entries, k).value, isAssoc) ==>
      Lookup(Constructed([], Some(filename), Some(default), fileData, isAssoc).value, k) == Lookup(fileData.entries, k)
    ensures !IsIntKey(k) && k !in Keys(fileData.entries) && Lookup(default, k).Some? && !IsAssocValue(Lookup(default, k).value, isAssoc) ==>
      Lookup(Constructed([], Some(filename), Some(default), fileData, isAssoc).value, k) == Lookup(default, k)
  {
    var d := if |default| > 0 then MergedData([], default, isAssoc).value else [];
    if |default| > 0 {
      MergedDataLookup([], default, isAssoc, k);
    }
    MergedDataLookup(d, fileData.entries, isAssoc, k);
  }

  class Config {
    var data: PhpArray
    var ignoreUndefined: bool

    /** An empty configuration that ignores undefined properties. */
    constructor ()
      ensures data == [] && ignoreUndefined
    {
      data := [];
      ignoreUndefined := true;
    }

    /** The constructor's body: defaults, then the file. */
    method Init(filename: Option<string>, default: Option<PhpArray>, fileData: Value, isAssoc: PhpArray -> bool)
      returns (r: Result<(), AuthError>)
      modifies this`data
      ensures r.Ok? <==> Constructed(old(data), filename, default, fileData, isAssoc).Ok?
      ensures r.Ok? ==> data == Constructed(old(data), filename, default, fileData, isAssoc).value
      ensures r.Err? ==> r.error == Constructed(old(data), filename, default, fileData, isAssoc).error
    {
      if default.Some? && |default.value| > 0 {
        r := MergeData(default.value, isAssoc);
        if r.Err? {
          return;
        }
      }
      if filename.Some? && !Empty(Str(filename.value)) {
        r := Load(filename.value, fileData, isAssoc);
        return;
      }
      r := Ok(());
    }

    /** mergeData: the loop over the new entries, then array_merge. A
        raising array_merge leaves the data as it was. */
    method MergeData(newData: PhpArray, isAssoc: PhpArray -> bool) returns (r: Result<(), AuthError>)
      modifies this`data
      ensures r.Ok? <==> MergedData(old(data), newData, isAssoc).Ok?
      ensures r.Ok? ==> data == MergedData(old(data), newData, isAssoc).value
      ensures r.Err? ==> r.error == MergedData(old(data), newData, isAssoc).error && data == old(data)
    {
      var prepared: PhpArray := [];
      var i := 0;
      while i < |newData|
        invariant 0 <= i <= |newData|
        invariant Prepared(data, newData[..i], isAssoc) == Ok(prepared)
      {
        assert newData[..i + 1][..i] == newData[..i];
        var e := PrepareEntry(data, newData[i], isAssoc);
        if e.Err? {
          assert newData[..i + 1][i] == newData[i];
          PreparedStops(data, newData, isAssoc, i + 1);
          return Err(e.error);
        }
        prepared := prepared + [e.value];
        i := i + 1;
      }
      assert newData[..|newData|] == newData;
      data := ArrayMerge(data, prepared);
      r := Ok(());
    }

    /** load: the loader's data checked, then merged. */
    method Load(filename: string, fileData: Value, isAssoc: PhpArray -> bool) returns (r: Result<(), AuthError>)
      modifies this`data
      ensures LoadError(filename, fileData, isAssoc).Some? ==>
        r == Err(LoadError(filename, fileData, isAssoc).value) && data == old(data)
      ensures LoadError(filename, fileData, isAssoc).None? ==>
        (r.Ok? <==> MergedData(old(data), fileData.entries, isAssoc).Ok?)
        && (r.Ok? ==> data == MergedData(old(data), fileData.entries, isAssoc).value)
        && (r.Err? ==> r.error == MergedData(old(data), fileData.entries, isAssoc).error && data == old(data))
    {
      var e := LoadError(filename, fileData, isAssoc);
      if e.Some? {
        return Err(e.value);
      }
      r := MergeData(fileData.entries, isAssoc);
    }

    /** get. The message names `$filename`, which is not defined in the
        method, so the file name reads as empty. */
    function GetValue(name: string): (r: Result<Value, AuthError>)
      reads this
      ensures r == GetProperty(data, ignoreUndefined, "", name)
    {
      GetProperty(data, ignoreUndefined, "", name)
    }

    /** getList. */
    method GetList(names: Option<seq<string>>) returns (r: Result<PhpArray, AuthError>)
      ensures r == GetListOf(data, ignoreUndefined, "", names)
    {
      if names.None? || |names.value| == 0 {
        return Ok(data);
      }
      r := ReadList(data, ignoreUndefined, "", names.value);
    }
  }

  /** Once a prefix of the entries fails, the whole loop fails the same way. */
  lemma {:induction false} PreparedStops(existing: PhpArray, es: PhpArray, isAssoc: PhpArray -> bool, n: nat)
    requires n <= |es| && Prepared(existing, es[..n], isAssoc).Err?
    ensures Prepared(existing, es, isAssoc) == Prepared(existing, es[..n], isAssoc)
    decreases |es| - n
  {
    if n == |es| {
      assert es[..n] == es;
    } else {
      assert es[..n + 1][..n] == es[..n];
      PreparedStops(existing, es, isAssoc, n + 1);
    }
  }
}
