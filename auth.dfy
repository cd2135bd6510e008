/**
 * The newer facade (Auth.php): its configuration, the guards every flow
 * starts with, the user-model checks, the logged-in user cache and the
 * session step. The flows themselves are the trait modules, which act on
 * an Auth object. The configuration is the PHP array the configured files
 * and arguments produce; the user model's static state is the UserModel
 * object of the class the configuration names.
 */
module Auth {
  import opened Wrappers
  import opened Php
  import opened Errors
  import opened Records
  import opened Database
  import opened LoginUser
  import AuthSession
  import AuthConfirm
  import Validators

  /** The interface a user model must implement, as PHP spells the class. */
  const LoginUserInterface: string := "Evas\\Auth\\Interfaces\\LoginUserInterface"

  /** What setConfig is given: a path, with what including that file
      returned, or a value. */
  datatype ConfigArg = Path(filename: string, included: Value) | Given(arg: Value)

  /** The cached logged-in user id: `false` until resolved. */
  datatype UserIdCache = Unresolved | Resolved(userId: Option<int>)

  /** What getOauth constructs: the configured handler class and its config. */
  datatype OauthHandler = OauthHandler(className: string, config: Value)

  /** The configured foreign sources: `array_keys` needs 'foreigns' to be
      an array, and raises TypeError for anything else, a missing key
      included. */
  predicate HasForeigns(config: PhpArray)
  {
    Get(config, "foreigns").Arr?
  }

  /** The names of the configured foreign sources, when 'foreigns' is an array. */
  function ForeignNames(config: PhpArray): seq<string>
    requires HasForeigns(config)
  {
    Keys(Get(config, "foreigns").entries)
  }

  /** supportedSources: the foreign names, then "password" and "code" when
      enabled; TypeError when 'foreigns' is not an array. */
  function SupportedSources(config: PhpArray): (r: Result<seq<string>, AuthError>)
    ensures r.Err? <==> !HasForeigns(config)
    ensures r.Err? ==> r.error == TypeError
    ensures r.Ok? ==> |r.value| >= |ForeignNames(config)| && r.value[..|ForeignNames(config)|] == ForeignNames(config)
    ensures r.Ok? ==> |r.value| == |ForeignNames(config)| + (if Truthy(Get(config, "password_enable")) then 1 else 0)
                                                          + (if Truthy(Get(config, "code_enable")) then 1 else 0)
    ensures r.Ok? ==> ("password" in r.value <==> "password" in ForeignNames(config) || Truthy(Get(config, "password_enable")))
    ensures r.Ok? ==> ("code" in r.value <==> "code" in ForeignNames(config) || Truthy(Get(config, "code_enable")))
    ensures r.Ok? && Truthy(Get(config, "code_enable")) ==> r.value[|r.value| - 1] == "code"
  {
    if !HasForeigns(config) then Err(TypeError)
    else
      Ok(ForeignNames(config)
        + (if Truthy(Get(config, "password_enable")) then ["password"] else [])
        + (if Truthy(Get(config, "code_enable")) then ["code"] else []))
  }

  /** With an empty 'foreigns' array and both local ways enabled, the
      supported sources are exactly password then code. */
  lemma NoForeignsSupportsPasswordThenCode(config: PhpArray)
    requires Get(config, "foreigns") == Arr([])
    requires Truthy(Get(config, "password_enable")) && Truthy(Get(config, "code_enable"))
    ensures SupportedSources(config) == Ok(["password", "code"])
  {
    assert Get(config, "foreigns").entries == [];
    assert ForeignNames(config) == [];
    assert SupportedSources(config) == Ok([] + ["password"] + ["code"]);
    assert [] + ["password"] + ["code"] == ["password", "code"];
  }

  /** Without a 'foreigns' array every support check raises TypeError,
      whatever the source, the local ways included. */
  lemma MissingForeignsRaises(config: PhpArray, source: string)
    requires !HasForeigns(config)
    ensures ThrowIfNotSupportedSource(config, source) == Err(TypeError)
    ensures GetOauth(config, source) == Err(TypeError)
  {
  }

  /** isSupportedSource, for a configuration whose 'foreigns' is an array. */
  predicate IsSupportedSource(config: PhpArray, source: string)
  {
    SupportedSources(config).Ok? && source in SupportedSources(config).value
  }

  /** A source the configuration does not list, 'foreigns' being an array. */
  predicate Unsupported(config: PhpArray, source: string)
  {
    SupportedSources(config).Ok? && source !in SupportedSources(config).value
  }

  /** throwIfNotSupportedSource: the TypeError of supportedSources, or
      auth_not_supported for a source not listed. */
  function ThrowIfNotSupportedSource(config: PhpArray, source: string): (r: Result<(), AuthError>)
    ensures !HasForeigns(config) ==> r == Err(TypeError)
    ensures HasForeigns(config) ==> (r.Err? <==> Unsupported(config, source))
    ensures Unsupported(config, source) ==> r == Err(Build("auth_not_supported", [Str(source)]))
  {
    match SupportedSources(config)
    case Err(e) => Err(e)
    case Ok(names) => if source in names then Ok(()) else Err(Build("auth_not_supported", [Str(source)]))
  }

  /** getOauth: support first, then the handler class, then its config. */
  function GetOauth(config: PhpArray, source: string): (r: Result<OauthHandler, AuthError>)
    ensures !HasForeigns(config) ==> r == Err(TypeError)
    ensures Unsupported(config, source) ==> r == Err(Build("auth_not_supported", [Str(source)]))
    ensures IsSupportedSource(config, source) && Empty(At(Get(config, "foreignClasses"), source)) ==>
      r == Err(Build("oauth_handler_not_setted", [Str(source)]))
    ensures (IsSupportedSource(config, source) && Truthy(At(Get(config, "foreignClasses"), source))
      && Empty(At(Get(config, "foreigns"), source))) ==>
      r == Err(Build("oauth_config_not_setted", [Str(source)]))
    ensures r.Ok? <==> (IsSupportedSource(config, source)
      && Truthy(At(Get(config, "foreignClasses"), source)) && Truthy(At(Get(config, "foreigns"), source)))
    ensures r.Ok? ==> r.value.config == At(Get(config, "foreigns"), source)
  {
    var supported := ThrowIfNotSupportedSource(config, source);
    if supported.Err? then Err(supported.error)
    else
      var cls := At(Get(config, "foreignClasses"), source);
      var conf := At(Get(config, "foreigns"), source);
      if Empty(cls) then Err(Build("oauth_handler_not_setted", [Str(source)]))
      else if Empty(conf) then Err(Build("oauth_config_not_setted", [Str(source)]))
      else Ok(OauthHandler(ToStr(cls), conf))
  }

  /** getError: the configured text, or 'Unknown error'. */
  function GetError(config: PhpArray, name: string): (r: Value)
    ensures At(Get(config, "errors"), name) != Null ==> r == At(Get(config, "errors"), name)
    ensures At(Get(config, "errors"), name) == Null ==> r == Str("Unknown error")
  {
    var e := At(Get(config, "errors"), name);
    if e == Null then Str("Unknown error") else e
  }

  /** getModelTableName. */
  function GetModelTableName(config: PhpArray, name: string): (r: Result<string, AuthError>)
    ensures r.Ok? <==> At(Get(config, "models_to_tables"), name) != Null
    ensures r.Ok? ==> r.value == ToStr(At(Get(config, "models_to_tables"), name))
    ensures r.Err? ==> r.error == Build("model_table_not_exists", [Str(name)])
  {
    var t := At(Get(config, "models_to_tables"), name);
    if t == Null then Err(Build("model_table_not_exists", [Str(name)])) else Ok(ToStr(t))
  }

  function MustImplement(className: string): string
  {
    "User model \"" + className + "\" must implement the " + LoginUserInterface
  }

  /** userModel: the configured class, which must be set and implement the
      interface. `is_subclass_of` answers false for a value that is neither
      a class name nor an object (true, 1, an array), so such a value gets
      the must-implement message with the value as `%s` prints it. */
  function UserModelName(config: PhpArray, implements: string -> bool): (r: Result<string, AuthError>)
    ensures Empty(Get(config, "userModel")) ==> r == Err(Message("User model not exists"))
    ensures Truthy(Get(config, "userModel")) && !Get(config, "userModel").Str? ==>
      r == Err(Message(MustImplement(ToStr(Get(config, "userModel")))))
    ensures Get(config, "userModel").Str? && Truthy(Get(config, "userModel"))
            && !implements(Get(config, "userModel").s) ==>
      r == Err(Message("User model \"" + Get(config, "userModel").s + "\" must implement the " + LoginUserInterface))
    ensures r.Ok? <==> Get(config, "userModel").Str? && Truthy(Get(config, "userModel")) && implements(Get(config, "userModel").s)
    ensures r.Ok? ==> r.value == Get(config, "userModel").s
  {
    var m := Get(config, "userModel");
    if Empty(m) then Err(Message("User model not exists"))
    else if !m.Str? then Err(Message(MustImplement(ToStr(m))))
    else if !implements(m.s) then Err(Message(MustImplement(m.s)))
    else Ok(m.s)
  }

  /** What the session step needs from the request and the environment. */
  datatype SessionEnv = SessionEnv(ip: string, agent: string, now: int, alive: int, draws: (nat, nat) -> int)

  /** Everything a flow takes from outside the library: the request and
      clock, the random draws, the password hash, the address patterns,
      the validation library's fields, the host user class's validators,
      and which classes implement the user interface. */
  datatype Env = Env(
    session: SessionEnv,
    codeSettings: AuthConfirm.CodeSettings,
    codeDraws: (nat, nat) -> int,
    hash: string -> string,
    isEmail: string -> bool,
    isPhone: string -> bool,
    emailField: Validators.FieldCheck,
    phoneField: Validators.FieldCheck,
    codeField: Validators.FieldCheck,
    passwordReset: PhpArray -> Option<string>,
    validateRegistration: PhpArray -> Result<PhpArray, AuthError>,
    validateLogin: PhpArray -> Result<PhpArray, AuthError>,
    implements: string -> bool)

  ghost predicate EnvValid(env: Env)
  {
    AuthConfirm.CodeDraws(env.codeDraws) && AuthSession.TokenDraws(env.session.draws)
  }

  class Auth {
    var config: PhpArray
    const db: Db
    const users: UserModel
    var userId: UserIdCache

    ghost predicate Valid()
      reads this, db, users
    {
      db.Valid() && users.Valid()
    }

    /** A fresh facade over the database and the user class, before any
        configuration. */
    constructor (db: Db, users: UserModel)
      requires db.Valid() && users.Valid()
      ensures Valid()
      ensures config == [] && this.db == db && this.users == users && userId == Unresolved
    {
      config := [];
      this.db := db;
      this.users := users;
      userId := Unresolved;
    }

    /** setConfig: a path must include to an array and any other argument
        must be one; the array is merged over the current configuration. */
    method SetConfig(arg: ConfigArg) returns (r: Result<(), AuthError>)
      modifies this`config
      ensures !ArgValue(arg).Arr? <==> r.Err?
      ensures r.Err? ==> r.error == InvalidArgument && config == old(config)
      ensures r.Ok? ==> config == MergeRecursive(old(config), ArgValue(arg).entries)
    {
      var v := ArgValue(arg);
      if !v.Arr? {
        return Err(InvalidArgument);
      }
      config := MergeRecursive(config, v.entries);
      r := Ok(());
    }

    /** The constructor's body: the default file, then the argument if it
        is truthy. */
    method Init(defaultConfig: Value, arg: Option<ConfigArg>) returns (r: Result<(), AuthError>)
      modifies this`config
      ensures !defaultConfig.Arr? ==> r == Err(InvalidArgument) && config == old(config)
      ensures defaultConfig.Arr? && (arg.None? || !ArgTruthy(arg.value)) ==>
        r.Ok? && config == MergeRecursive(old(config), defaultConfig.entries)
      ensures defaultConfig.Arr? && arg.Some? && ArgTruthy(arg.value) && ArgValue(arg.value).Arr? ==>
        r.Ok? && config == MergeRecursive(MergeRecursive(old(config), defaultConfig.entries), ArgValue(arg.value).entries)
      ensures defaultConfig.Arr? && arg.Some? && ArgTruthy(arg.value) && !ArgValue(arg.value).Arr? ==>
        r == Err(InvalidArgument) && config == MergeRecursive(old(config), defaultConfig.entries)
    {
      r := SetConfig(Path("config.default.php", defaultConfig));
      if r.Err? {
        return;
      }
      if arg.Some? && ArgTruthy(arg.value) {
        r := SetConfig(arg.value);
      }
    }

    /** setUserModel: only a class implementing the interface is stored. */
    method SetUserModel(className: string, implements: string -> bool) returns (r: Result<(), AuthError>)
      modifies this`config
      ensures r.Ok? <==> implements(className)
      ensures r.Err? ==> r.error == Message(MustImplement(className)) && config == old(config)
      ensures r.Ok? ==> config == Set(old(config), "userModel", Str(className))
    {
      if !implements(className) {
        return Err(Message(MustImplement(className)));
      }
      config := Set(config, "userModel", Str(className));
      r := Ok(());
    }

    /** loggedUserId: resolved from the token cookie on the first call and
        cached; an absent or falsy cookie resolves to null. */
    method LoggedUserId(cookies: PhpArray) returns (id: Option<int>)
      modifies this`userId
      ensures old(userId).Resolved? ==> id == old(userId).userId && userId == old(userId)
      ensures old(userId).Unresolved? ==> id == LoggedUserIdByCookie(db.sessions, config, cookies)
      ensures userId == Resolved(id)
    {
      if userId.Unresolved? {
        userId := Resolved(LoggedUserIdByCookie(db.sessions, config, cookies));
      }
      id := userId.userId;
    }

    /** makeSession: the session for the grant, then the cookie set to its
        token. The grant token is passed on and not used. */
    method MakeSession(grant: Grant, grantToken: Option<string>, env: SessionEnv)
      returns (r: Result<Session, AuthError>, cookie: Option<string>)
      requires db.Valid() && AuthSession.TokenDraws(env.draws)
      modifies db`sessions
      ensures db.Valid()
      ensures r.Ok? <==> cookie.Some?
      ensures r.Ok? ==> cookie == Some(r.value.token) && r.value.userId == grant.userId
      ensures r.Err? ==> db.sessions == old(db.sessions) && r.error == Build("token_exceeed_max_try_generated", [])
      ensures AuthSession.FindReusable(old(db.sessions), grant.userId, env.ip, env.agent).Some? ==> r.Ok?
      ensures r.Ok? ==> r.value in db.sessions
      ensures AuthSession.SessionMade(old(db.sessions), db.sessions, grant, env.ip, env.agent, env.now, env.alive, env.draws, r)
    {
      ghost var found := AuthSession.FindReusable(db.sessions, grant.userId, env.ip, env.agent);
      var s, _ := AuthSession.Make(db, grant, env.ip, env.agent, env.now, env.alive, env.draws);
      if s.Err? {
        return s, None;
      }
      if found.Some? {
        assert db.sessions[found.value] == s.value;
      } else {
        assert db.sessions[|db.sessions| - 1] == s.value;
      }
      r, cookie := s, Some(s.value.token);
    }
  }

  /** What makeSession leaves once a flow's checks have passed for a
      grant: the session table as make leaves it, failing exactly when no
      session is prolonged and every candidate token is taken; on success
      the flow's own result. */
  predicate SignedIn<T(==)>(before: seq<Session>, after: seq<Session>, grant: Grant, env: SessionEnv,
                            r: Result<T, AuthError>, value: T)
    requires AuthSession.TokenDraws(env.draws)
  {
    AuthSession.SessionMade(before, after, grant, env.ip, env.agent, env.now, env.alive, env.draws, r)
    && (r.Ok? ==> r.value == value)
  }

  /** The value setConfig merges: what the file returned, or the argument. */
  function ArgValue(arg: ConfigArg): Value
  {
    match arg
    case Path(_, v) => v
    case Given(v) => v
  }

  /** The PHP truthiness of the constructor's argument. */
  predicate ArgTruthy(arg: ConfigArg)
  {
    match arg
    case Path(f, _) => Truthy(Str(f))
    case Given(v) => Truthy(v)
  }

  /** The user id of the session holding the cookie's token, if any. */
  function LoggedUserIdByCookie(sessions: seq<Session>, config: PhpArray, cookies: PhpArray): (r: Option<int>)
    ensures Empty(Get(cookies, ToStr(Get(config, "token_cookie_name")))) ==> r == None
    ensures var token := Get(cookies, ToStr(Get(config, "token_cookie_name")));
      r.Some? <==> token.Str? && !Empty(token) && AuthSession.FindByToken(sessions, token.s).Some?
    ensures r.Some? ==>
      var token := Get(cookies, ToStr(Get(config, "token_cookie_name")));
      r.value == sessions[AuthSession.FindByToken(sessions, token.s).value].userId
  {
    var token := Get(cookies, ToStr(Get(config, "token_cookie_name")));
    if Empty(token) || !token.Str? then None
    else match AuthSession.FindByToken(sessions, token.s)
      case Some(k) => Some(sessions[k].userId)
      case None => None
  }

  /** With unique session tokens, a non-empty cookie holding a session's
      token logs in that session's user; a cookie no session holds logs
      in nobody. */
  lemma CookieOfSessionLogsIn(sessions: seq<Session>, config: PhpArray, cookies: PhpArray, k: nat)
    requires TokensUnique(sessions) && k < |sessions|
    requires Get(cookies, ToStr(Get(config, "token_cookie_name"))) == Str(sessions[k].token)
    requires !Empty(Str(sessions[k].token))
    ensures LoggedUserIdByCookie(sessions, config, cookies) == Some(sessions[k].userId)
  {
    AuthSession.FindByTokenIsExact(sessions, k);
  }
}
