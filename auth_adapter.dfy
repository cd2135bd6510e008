/**
 * The older entry point (AuthAdapter.php): a configuration built once from
 * the packaged defaults and an optional custom file, lookups into its
 * lists, the error-raising helper whose messages come from the `errors_map`
 * list, model table names, the database handle, and the dispatch of a
 * request to a source controller's action.
 *
 * What including config.default.php returns is a parameter (`included`);
 * which classes exist and which methods they have is the `classes` oracle.
 */
module AuthAdapter {
  import opened Wrappers
  import opened Php
  import opened Errors
  import Config
  import Database

  const ErrorSourceControllerNotSupported: int := 0
  const ErrorSourceControllerNotFound: int := 1
  const ErrorSourceControllerActionNotFound: int := 2
  const ErrorModelTableNotFound: int := 3
  const ErrorUserNotFound: int := 4
  const ErrorUserFailPassword: int := 5
  const ErrorValidator: int := 6
  const ErrorUserAlreadyExists: int := 7
  const ErrorAuthGrantNotFound: int := 8
  const ErrorAuthGrantConfirmNotFound: int := 9

  /** The code config.default.php and AuthGrantRecovery use for a missing
      recovery but AuthAdapter does not declare; the next free code. */
  const ErrorAuthGrantRecoveryNotFound: int := 10

  // The sentences of config.default.php's `errors_map`; `%s` marks where
  // throwError's props go.
  const Through: string := "Обработчик авторизации через "
  const NotSupported: string := " не поддерживается"
  const NotFound: string := " не найден"
  const Action: string := "Действие "
  const OfHandlerThrough: string := " обработчика авторизации через "
  const NotFoundNeuter: string := " не найдено"
  const ModelTable: string := "Имя таблицы модели данных "
  const UserNotFound: string := "Пользователь не найден"
  const FailPassword: string := "Неверный пароль"
  const BadCredentials: string := "Неверное имя пользователя/пароль"
  const UserExists: string := "Пользователь уже существует"
  const GrantNotFound: string := "Способ входа не найден"
  const GrantConfirmNotFound: string := "Способ входа не найден или уже подтвержден"
  const RecoveryNotFound: string := "Восстановление доступа с таким кодом не найдено"

  /** The `errors_map` list of config.default.php, keyed by error code. */
  const DefaultErrorsMap: PhpArray := [
    Entry("0", Str(Through + "%s" + NotSupported)),
    Entry("1", Str(Through + "%s" + NotFound)),
    Entry("2", Str(Action + "%s" + OfHandlerThrough + "%s" + NotFoundNeuter)),
    Entry("3", Str(ModelTable + "%s" + NotFoundNeuter)),
    Entry("4", Str(UserNotFound)),
    Entry("5", Str(FailPassword)),
    Entry("6", Str(BadCredentials)),
    Entry("7", Str(UserExists)),
    Entry("8", Str(GrantNotFound)),
    Entry("9", Str(GrantConfirmNotFound)),
    Entry("10", Str(RecoveryNotFound))]

  /** Including config.default.php as written: its `errors_map` names
      AuthAdapter::ERROR_AUTH_GRANT_RECOVERY_NOT_FOUND, which the class does
      not declare, so evaluating the returned array raises. */
  function IncludedDefaultsAsWritten(): (r: Result<PhpArray, AuthError>)
    ensures r.Err? && r.error == UndefinedConstant("ERROR_AUTH_GRANT_RECOVERY_NOT_FOUND")
  {
    Err(UndefinedConstant("ERROR_AUTH_GRANT_RECOVERY_NOT_FOUND"))
  }

  /** The data `new Config(customConfigPath, defaults)` holds: the defaults,
      then the custom file when a path is set. */
  function LoadedData(customPath: Option<string>, included: Result<PhpArray, AuthError>, fileData: Value,
                      isAssoc: PhpArray -> bool): (r: Result<PhpArray, AuthError>)
    ensures included.Err? ==> r == Err(included.error)
    ensures included.Ok? ==> r == Config.Constructed([], customPath, Some(included.value), fileData, isAssoc)
  {
    match included
    case Err(e) => Err(e)
    case Ok(defaults) => Config.Constructed([], customPath, Some(defaults), fileData, isAssoc)
  }

  /** getConfigListItem on the configuration's data: the named list, `[]`
      when it is missing, then its item, or null when the item is absent. */
  function ListItem(data: PhpArray, ignoreUndefined: bool, listName: string, index: string): (r: Result<Value, AuthError>)
    ensures r.Err? <==> !IsSet(data, listName) && !ignoreUndefined
    ensures r.Ok? ==> r.value == At(Get(data, listName), index)
  {
    match Config.GetProperty(data, ignoreUndefined, "", listName)
    case Err(e) => Err(e)
    case Ok(list) => Ok(At(list, index))
  }

  /** The exception throwError raises for an `errors_map` entry: the entry
      itself when there are no props, else the entry formatted with them.
      The exception's message parameter is a string, so a missing entry
      (null) raises a TypeError there, and so does an array. */
  function Raised(entry: Value, props: seq<string>): (r: AuthError)
    ensures |props| == 0 && entry.Str? ==> r == Message(entry.s)
    ensures |props| == 0 && (entry.Null? || entry.Arr?) ==> r == TypeError
    ensures |props| > 0 && entry.Arr? ==> r == TypeError
    ensures |props| > 0 && !entry.Arr? && Format(ToStr(entry), props).Ok? ==> r == Message(Format(ToStr(entry), props).value)
    ensures |props| > 0 && !entry.Arr? && Format(ToStr(entry), props).Err? ==> r == ValueError
  {
    if |props| == 0 then
      match StringArgument(entry)
      case Err(e) => e
      case Ok(m) => Message(m)
    else if entry.Arr? then TypeError
    else
      match Format(ToStr(entry), props)
      case Ok(m) => Message(m)
      case Err(_) => ValueError
  }

  /** throwError(code, props) on the configuration's data: it always
      raises, with the raised error of the code's `errors_map` entry. */
  function ErrorFor(data: PhpArray, ignoreUndefined: bool, code: int, props: seq<string>): (r: AuthError)
    ensures ListItem(data, ignoreUndefined, "errors_map", IntToString(code)).Err? ==>
      r == ListItem(data, ignoreUndefined, "errors_map", IntToString(code)).error
    ensures ListItem(data, ignoreUndefined, "errors_map", IntToString(code)).Ok? ==>
      r == Raised(ListItem(data, ignoreUndefined, "errors_map", IntToString(code)).value, props)
  {
    match ListItem(data, ignoreUndefined, "errors_map", IntToString(code))
    case Err(e) => e
    case Ok(entry) => Raised(entry, props)
  }

  /** The first entry holding a key is the one read. */
  lemma {:induction false} FirstEntryRead(a: PhpArray, i: nat, k: string)
    requires i < |a| && a[i].key == k && forall j :: 0 <= j < i ==> a[j].key != k
    ensures Get(a, k) == a[i].val
  {
    if i > 0 {
      FirstEntryRead(a[1..], i - 1, k);
    }
  }

  /** throwError with a configured `errors_map` entry for the code raises
      what that entry gives. */
  lemma ErrorFromEntry(data: PhpArray, ignoreUndefined: bool, code: int, key: string, entry: string, props: seq<string>)
    requires IntToString(code) == key
    requires Get(data, "errors_map").Arr? && Get(Get(data, "errors_map").entries, key) == Str(entry)
    ensures ErrorFor(data, ignoreUndefined, code, props) == Raised(Str(entry), props)
  {
    assert IsSet(data, "errors_map");
  }

  /** An entry with one `%s` fills in the one prop. */
  lemma OneArgumentEntry(data: PhpArray, ignoreUndefined: bool, code: int, key: string, pre: string, post: string, a: string)
    requires IntToString(code) == key && '%' !in pre && '%' !in post
    requires Get(data, "errors_map").Arr? && Get(Get(data, "errors_map").entries, key) == Str(pre + "%s" + post)
    ensures ErrorFor(data, ignoreUndefined, code, [a]) == Message(pre + a + post)
  {
    ErrorFromEntry(data, ignoreUndefined, code, key, pre + "%s" + post, [a]);
    FormatOneArgument(pre, post, a);
  }

  /** An entry with two `%s` fills in the two props in order. */
  lemma TwoArgumentEntry(data: PhpArray, ignoreUndefined: bool, code: int, key: string, pre: string, mid: string,
                         post: string, a: string, b: string)
    requires IntToString(code) == key && '%' !in pre && '%' !in mid && '%' !in post
    requires Get(data, "errors_map").Arr? && Get(Get(data, "errors_map").entries, key) == Str(pre + "%s" + mid + "%s" + post)
    ensures ErrorFor(data, ignoreUndefined, code, [a, b]) == Message(pre + a + mid + b + post)
  {
    ErrorFromEntry(data, ignoreUndefined, code, key, pre + "%s" + mid + "%s" + post, [a, b]);
    FormatTwoArgumentsAround(pre, mid, post, a, b);
  }

  /** The packaged entries the lemmas below read. */
  lemma DefaultEntries()
    ensures Get(DefaultErrorsMap, "0") == Str(Through + "%s" + NotSupported)
    ensures Get(DefaultErrorsMap, "1") == Str(Through + "%s" + NotFound)
    ensures Get(DefaultErrorsMap, "2") == Str(Action + "%s" + OfHandlerThrough + "%s" + NotFoundNeuter)
    ensures Get(DefaultErrorsMap, "4") == Str(UserNotFound)
  {
    DefaultKeys();
    DefaultEntryRead(1, "1");
    DefaultEntryRead(2, "2");
    DefaultEntryRead(4, "4");
  }

  lemma DefaultKeys()
    ensures DefaultErrorsMap[0].key == "0" && DefaultErrorsMap[1].key == "1" && DefaultErrorsMap[2].key == "2"
    ensures DefaultErrorsMap[3].key == "3" && DefaultErrorsMap[4].key == "4"
  {
  }

  /** The entry at one of the first five positions is the one its key reads. */
  lemma DefaultEntryRead(i: nat, k: string)
    requires i < 5 && k == DefaultErrorsMap[i].key
    ensures Get(DefaultErrorsMap, k) == DefaultErrorsMap[i].val
  {
    DefaultKeys();
    forall j | 0 <= j < i
      ensures DefaultErrorsMap[j].key != k
    {
      assert |DefaultErrorsMap[j].key| == 1 && |k| == 1 && DefaultErrorsMap[j].key[0] != k[0];
    }
    FirstEntryRead(DefaultErrorsMap, i, k);
  }

  /** The packaged sentences hold no `%` of their own. */
  lemma SentencesPlain()
    ensures '%' !in Through && '%' !in NotSupported && '%' !in NotFound
    ensures '%' !in Action && '%' !in OfHandlerThrough && '%' !in NotFoundNeuter
  {
    ThroughPlain();
    OfHandlerThroughPlain();
    EndingsPlain();
  }

  lemma ThroughPlain()
    ensures '%' !in Through
  {
  }

  lemma OfHandlerThroughPlain()
    ensures '%' !in OfHandlerThrough
  {
  }

  lemma EndingsPlain()
    ensures '%' !in NotSupported && '%' !in NotFound && '%' !in Action && '%' !in NotFoundNeuter
  {
  }

  /** With the packaged errors map, an unsupported source reads as the
      map's sentence with the source filled in. */
  lemma DefaultNotSupportedMessage(data: PhpArray, ignoreUndefined: bool, source: string)
    requires Get(data, "errors_map") == Arr(DefaultErrorsMap)
    ensures ErrorFor(data, ignoreUndefined, ErrorSourceControllerNotSupported, [source])
      == Message(Through + source + NotSupported)
  {
    DefaultEntries();
    SentencesPlain();
    OneArgumentEntry(data, ignoreUndefined, ErrorSourceControllerNotSupported, "0", Through, NotSupported, source);
  }

  /** With the packaged errors map, a missing controller class reads as
      the map's sentence with the source filled in. */
  lemma DefaultNotFoundMessage(data: PhpArray, ignoreUndefined: bool, source: string)
    requires Get(data, "errors_map") == Arr(DefaultErrorsMap)
    ensures ErrorFor(data, ignoreUndefined, ErrorSourceControllerNotFound, [source])
      == Message(Through + source + NotFound)
  {
    DefaultEntries();
    SentencesPlain();
    OneArgumentEntry(data, ignoreUndefined, ErrorSourceControllerNotFound, "1", Through, NotFound, source);
  }

  /** With the packaged errors map, a missing action reads as the map's
      sentence with the action's method name and the source filled in. */
  lemma DefaultActionNotFoundMessage(data: PhpArray, ignoreUndefined: bool, action: string, source: string)
    requires Get(data, "errors_map") == Arr(DefaultErrorsMap)
    ensures ErrorFor(data, ignoreUndefined, ErrorSourceControllerActionNotFound, [action, source])
      == Message(Action + action + OfHandlerThrough + source + NotFoundNeuter)
  {
    DefaultEntries();
    SentencesPlain();
    TwoArgumentEntry(data, ignoreUndefined, ErrorSourceControllerActionNotFound, "2",
                     Action, OfHandlerThrough, NotFoundNeuter, action, source);
  }

  /** With the packaged errors map, codes raised without props read as the
      map's sentence verbatim. */
  lemma DefaultUserNotFoundMessage(data: PhpArray, ignoreUndefined: bool)
    requires Get(data, "errors_map") == Arr(DefaultErrorsMap)
    ensures ErrorFor(data, ignoreUndefined, ErrorUserNotFound, []) == Message(UserNotFound)
  {
    DefaultEntries();
    ErrorFromEntry(data, ignoreUndefined, ErrorUserNotFound, "4", UserNotFound, []);
  }

  /** A controller action the dispatcher calls. */
  datatype Dispatch = Dispatch(controllerClass: string, action: string, params: Option<PhpArray>)

  /** run's checks, in order: the source must map to a controller class
      (ERROR_SOURCE_CONTROLLER_NOT_SUPPORTED), the class must exist
      (ERROR_SOURCE_CONTROLLER_NOT_FOUND), and it must have the method
      `<action>Action` (ERROR_SOURCE_CONTROLLER_ACTION_NOT_FOUND). */
  function RunCheck(data: PhpArray, ignoreUndefined: bool, source: string, action: string, params: Option<PhpArray>,
                    classes: string -> Option<set<string>>): (r: Result<Dispatch, AuthError>)
  {
    match ListItem(data, ignoreUndefined, "sources", source)
    case Err(e) => Err(e)
    case Ok(item) =>
      if Empty(item) then Err(ErrorFor(data, ignoreUndefined, ErrorSourceControllerNotSupported, [source]))
      else
        match StringArgument(item)
        case Err(e) => Err(e)
        case Ok(controllerClass) =>
          if classes(controllerClass).None? then Err(ErrorFor(data, ignoreUndefined, ErrorSourceControllerNotFound, [source]))
          else if action + "Action" !in classes(controllerClass).value then
            Err(ErrorFor(data, ignoreUndefined, ErrorSourceControllerActionNotFound, [action + "Action", source]))
          else Ok(Dispatch(controllerClass, action + "Action", params))
  }

  /** run dispatches exactly when the source maps to an existing class that
      has the action's method, and then calls that method with the params;
      each failure is the first check that fails: a missing `sources` list
      (when undefined settings are not ignored), an empty entry, an array
      entry (class_exists takes a string), a class that does not exist, and
      a class without the `<action>Action` method. */
  lemma RunOutcome(data: PhpArray, ignoreUndefined: bool, source: string, action: string, params: Option<PhpArray>,
                   classes: string -> Option<set<string>>)
    ensures var l := ListItem(data, ignoreUndefined, "sources", source);
      var r := RunCheck(data, ignoreUndefined, source, action, params, classes);
      (l.Err? ==> r == Err(l.error))
      && (l.Ok? && Empty(l.value) ==>
        r == Err(ErrorFor(data, ignoreUndefined, ErrorSourceControllerNotSupported, [source])))
      && (l.Ok? && !Empty(l.value) && l.value.Arr? ==> r == Err(TypeError))
      && (l.Ok? && !Empty(l.value) && !l.value.Arr? ==>
        var c := ToStr(l.value);
        (r.Ok? <==> classes(c).Some? && action + "Action" in classes(c).value)
        && (r.Ok? ==> r.value == Dispatch(c, action + "Action", params))
        && (classes(c).None? ==>
              r == Err(ErrorFor(data, ignoreUndefined, ErrorSourceControllerNotFound, [source])))
        && (classes(c).Some? && action + "Action" !in classes(c).value ==>
              r == Err(ErrorFor(data, ignoreUndefined, ErrorSourceControllerActionNotFound, [action + "Action", source]))))
  {
  }

  /** getModelTableName on the configuration's data: the class's entry of
      `models_tables`; an empty one raises ERROR_MODEL_TABLE_NOT_FOUND. */
  function ModelTableName(data: PhpArray, ignoreUndefined: bool, className: string): (r: Result<string, AuthError>)
    ensures (ignoreUndefined && At(Get(data, "models_tables"), className).Str?
      && !Empty(At(Get(data, "models_tables"), className))) ==>
      r == Ok(At(Get(data, "models_tables"), className).s)
    ensures ignoreUndefined && Empty(At(Get(data, "models_tables"), className)) ==>
      r == Err(ErrorFor(data, ignoreUndefined, ErrorModelTableNotFound, [className]))
  {
    match ListItem(data, ignoreUndefined, "models_tables", className)
    case Err(e) => Err(e)
    case Ok(item) =>
      if Empty(item) then Err(ErrorFor(data, ignoreUndefined, ErrorModelTableNotFound, [className]))
      else StringArgument(item)
  }

  /** The adapter's static state. */
  class Adapter {
    var config: Config.Config?
    var db: Database.Db?
    var customConfigPath: Option<string>

    constructor ()
      ensures config == null && db == null && customConfigPath == None
    {
      config := null;
      db := null;
      customConfigPath := None;
    }

    /** config(): built on the first call from the included defaults and the
        custom file, then returned unchanged; a failed build stores nothing. */
    method GetConfig(included: Result<PhpArray, AuthError>, fileData: Value, isAssoc: PhpArray -> bool)
      returns (r: Result<Config.Config, AuthError>)
      modifies this`config
      ensures old(config) != null ==> r == Ok(old(config)) && config == old(config)
      ensures old(config) == null ==> (r.Ok? <==> LoadedData(customConfigPath, included, fileData, isAssoc).Ok?)
      ensures old(config) == null && r.Ok? ==> (fresh(r.value) && config == r.value
        && r.value.data == LoadedData(customConfigPath, included, fileData, isAssoc).value && r.value.ignoreUndefined)
      ensures old(config) == null && r.Err? ==>
        r.error == LoadedData(customConfigPath, included, fileData, isAssoc).error && config == null
    {
      if config == null {
        if included.Err? {
          return Err(included.error);
        }
        var c := new Config.Config();
        var init := c.Init(customConfigPath, Some(included.value), fileData, isAssoc);
        if init.Err? {
          return Err(init.error);
        }
        config := c;
      }
      r := Ok(config);
    }

    /** getConfigListItem. */
    method GetConfigListItem(listName: string, index: string, included: Result<PhpArray, AuthError>, fileData: Value,
                             isAssoc: PhpArray -> bool) returns (r: Result<Value, AuthError>)
      modifies this`config
      ensures old(config) != null ==> r == ListItem(old(config.data), old(config.ignoreUndefined), listName, index)
      ensures old(config) == null ==> r == match LoadedData(customConfigPath, included, fileData, isAssoc)
        case Err(e) => Err(e)
        case Ok(d) => ListItem(d, true, listName, index)
    {
      var c := GetConfig(included, fileData, isAssoc);
      if c.Err? {
        return Err(c.error);
      }
      r := ListItem(c.value.data, c.value.ignoreUndefined, listName, index);
    }

    /** throwError: always raises. */
    method ThrowError(code: int, props: seq<string>, included: Result<PhpArray, AuthError>, fileData: Value,
                      isAssoc: PhpArray -> bool) returns (e: AuthError)
      modifies this`config
      ensures old(config) != null ==> e == ErrorFor(old(config.data), old(config.ignoreUndefined), code, props)
      ensures old(config) == null ==> e == match LoadedData(customConfigPath, included, fileData, isAssoc)
        case Err(e') => e'
        case Ok(d) => ErrorFor(d, true, code, props)
    {
      var entry := GetConfigListItem("errors_map", IntToString(code), included, fileData, isAssoc);
      if entry.Err? {
        return entry.error;
      }
      e := Raised(entry.value, props);
    }

    /** run: dispatch to the controller's action, or raise. */
    method Run(source: string, action: string, params: Option<PhpArray>, included: Result<PhpArray, AuthError>,
               fileData: Value, isAssoc: PhpArray -> bool, classes: string -> Option<set<string>>)
      returns (r: Result<Dispatch, AuthError>)
      modifies this`config
      ensures old(config) != null ==>
        r == RunCheck(old(config.data), old(config.ignoreUndefined), source, action, params, classes)
      ensures old(config) == null ==> r == match LoadedData(customConfigPath, included, fileData, isAssoc)
        case Err(e) => Err(e)
        case Ok(d) => RunCheck(d, true, source, action, params, classes)
    {
      var c := GetConfig(included, fileData, isAssoc);
      if c.Err? {
        return Err(c.error);
      }
      r := RunCheck(c.value.data, c.value.ignoreUndefined, source, action, params, classes);
    }

    /** getModelTableName. */
    method GetModelTableName(className: string, included: Result<PhpArray, AuthError>, fileData: Value,
                             isAssoc: PhpArray -> bool) returns (r: Result<string, AuthError>)
      modifies this`config
      ensures old(config) != null ==> r == ModelTableName(old(config.data), old(config.ignoreUndefined), className)
      ensures old(config) == null ==> r == match LoadedData(customConfigPath, included, fileData, isAssoc)
        case Err(e) => Err(e)
        case Ok(d) => ModelTableName(d, true, className)
    {
      var c := GetConfig(included, fileData, isAssoc);
      if c.Err? {
        return Err(c.error);
      }
      r := ModelTableName(c.value.data, c.value.ignoreUndefined, className);
    }

    /** setDb. */
    method SetDb(d: Database.Db)
      modifies this`db
      ensures db == d
    {
      db := d;
    }

    /** getDb: the stored database; before setDb the declared return type
        refuses the null. */
    method GetDb() returns (r: Result<Database.Db, AuthError>)
      ensures db == null ==> r == Err(TypeError)
      ensures db != null ==> r == Ok(db)
    {
      if db == null {
        return Err(TypeError);
      }
      r := Ok(db);
    }
  }

  /** getDb returns exactly the database setDb stored. */
  method SetThenGetDb(a: Adapter, d: Database.Db) returns (r: Result<Database.Db, AuthError>)
    modifies a`db
    ensures r == Ok(d)
  {
    a.SetDb(d);
    r := a.GetDb();
  }

  /** The configuration is built once: a second config() returns the first
      one, whatever the files would now hold. */
  method ConfigTwice(a: Adapter, included: Result<PhpArray, AuthError>, fileData: Value, later: Value,
                     isAssoc: PhpArray -> bool) returns (first: Result<Config.Config, AuthError>, second: Result<Config.Config, AuthError>)
    modifies a`config
    ensures first.Ok? ==> second == first
  {
    first := a.GetConfig(included, fileData, isAssoc);
    second := a.GetConfig(included, later, isAssoc);
  }

  /** As written, the adapter's configuration can never be built, so every
      throwError raises the undefined-constant error instead of its message,
      whatever the code. */
  method ThrowErrorAsWritten(code: int, props: seq<string>, fileData: Value, isAssoc: PhpArray -> bool)
    returns (e: AuthError)
    ensures e == UndefinedConstant("ERROR_AUTH_GRANT_RECOVERY_NOT_FOUND")
  {
    var a := new Adapter();
    e := a.ThrowError(code, props, IncludedDefaultsAsWritten(), fileData, isAssoc);
  }

  /** With the constant declared, a fresh adapter whose defaults carry the
      packaged errors map and no custom file raises the not-supported
      sentence for the source. */
  method ThrowNotSupported(source: string, defaults: PhpArray, isAssoc: PhpArray -> bool) returns (e: AuthError)
    requires KeysDistinct(defaults) && Get(defaults, "errors_map") == Arr(DefaultErrorsMap)
    requires !isAssoc(DefaultErrorsMap)
    ensures e == Message(Through + source + NotSupported)
  {
    var a := new Adapter();
    e := a.ThrowError(ErrorSourceControllerNotSupported, [source], Ok(defaults), Null, isAssoc);
    DefaultsKept(defaults, isAssoc, "errors_map");
    DefaultNotSupportedMessage(LoadedData(None, Ok(defaults), Null, isAssoc).value, true, source);
  }

  /** Without a custom file, a default entry whose value is not an
      associative array is read back as given. */
  lemma DefaultsKept(defaults: PhpArray, isAssoc: PhpArray -> bool, k: string)
    requires KeysDistinct(defaults) && !IsIntKey(k)
    requires Lookup(defaults, k).Some? && !Config.IsAssocValue(Lookup(defaults, k).value, isAssoc)
    ensures LoadedData(None, Ok(defaults), Null, isAssoc).Ok?
    ensures Get(LoadedData(None, Ok(defaults), Null, isAssoc).value, k) == Get(defaults, k)
  {
    Config.PreparedIntoEmpty(defaults, isAssoc);
    Config.MergedDataLookup([], defaults, isAssoc, k);
    Config.MergedValueCases([], k, Lookup(defaults, k).value, isAssoc, k);
  }
}
