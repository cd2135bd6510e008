/**
 * Registration and sign-in by password (Traits/AuthPasswordTrait.php).
 * Both flows start with the password support check and the user model
 * check, then hand the payload to the host user class's validator.
 */
module AuthPasswordTrait {
  import opened Wrappers
  import opened Php
  import opened Errors
  import opened Records
  import opened Database
  import opened LoginUser
  import opened Auth
  import AuthGrant

  /** The unique keys of a user table with these columns. */
  function UniqueKeysOf(columns: seq<string>): seq<string>
  {
    FilterColumns(KeysOf(KeysWithLabels), columns)
  }

  /** The label of a unique key as the error argument; null for a key
      without one. */
  function LabelValue(key: string): (v: Value)
    ensures key in KeysOf(KeysWithLabels) <==> v.Str?
  {
    match GetUniqueKeyLabel(key)
    case Some(l) => Str(l)
    case None => Null
  }

  /** The key registration complains about: the first unique key on which
      the user found by the unique keys strictly equals the data. A found
      user always has one. */
  function RegistrationConflict(users: seq<User>, keys: seq<string>, data: PhpArray): (r: Option<string>)
    ensures r.Some? <==> FindBySetKeys(users, keys, data).Some?
    ensures r.Some? ==> r.value in keys && IsSet(data, r.value)
  {
    match FindBySetKeys(users, keys, data)
    case None => None
    case Some(i) =>
      FoundUserConflicts(users, keys, data);
      ConflictKey(users[i], keys, data)
  }

  /** The guards of registrationByPassword, in order: password support,
      the user model, the host validator, then a user already holding one
      of the unique values. On success: the validated data. */
  function RegistrationCheck(config: PhpArray, users: seq<User>, columns: seq<string>, payload: PhpArray, env: Env)
    : (r: Result<PhpArray, AuthError>)
    ensures ThrowIfNotSupportedSource(config, "password").Err? ==> r == Err(ThrowIfNotSupportedSource(config, "password").error)
    ensures ThrowIfNotSupportedSource(config, "password").Ok? && UserModelName(config, env.implements).Err? ==>
      r == Err(UserModelName(config, env.implements).error)
    ensures ThrowIfNotSupportedSource(config, "password").Ok? && UserModelName(config, env.implements).Ok? ==>
      (env.validateRegistration(payload).Err? ==> r == Err(env.validateRegistration(payload).error))
      && (env.validateRegistration(payload).Ok? ==>
            var data := env.validateRegistration(payload).value;
            var key := RegistrationConflict(users, UniqueKeysOf(columns), data);
            (key.None? <==> r == Ok(data))
            && (key.Some? ==> r == Err(Build("user_already_exists", [LabelValue(key.value)]))))
  {
    if ThrowIfNotSupportedSource(config, "password").Err? then Err(ThrowIfNotSupportedSource(config, "password").error)
    else if UserModelName(config, env.implements).Err? then Err(UserModelName(config, env.implements).error)
    else
      match env.validateRegistration(payload)
      case Err(e) => Err(e)
      case Ok(data) =>
        match RegistrationConflict(users, UniqueKeysOf(columns), data)
        case Some(key) => Err(Build("user_already_exists", [LabelValue(key)]))
        case None => Ok(data)
  }

  /** The password a request carries, as the grant methods receive it. */
  function PasswordOf(data: PhpArray): string
  {
    ToStr(Get(data, "password"))
  }

  /** The guards of registrationByPassword as the code runs them; only the
      unique-keys cache is written. */
  method RegistrationGuards(a: Auth, env: Env, payload: PhpArray) returns (r: Result<PhpArray, AuthError>)
    requires a.Valid()
    modifies a.users`keysCache
    ensures a.Valid()
    ensures r == RegistrationCheck(a.config, a.db.users, a.users.columns, payload, env)
  {
    var supported := ThrowIfNotSupportedSource(a.config, "password");
    if supported.Err? {
      return Err(supported.error);
    }
    var m := UserModelName(a.config, env.implements);
    if m.Err? {
      return Err(m.error);
    }
    var data := env.validateRegistration(payload);
    if data.Err? {
      return Err(data.error);
    }
    var found, _ := FindByUniqueKeys(a.users, a.db, data.value);
    var keys := a.users.UniqueKeys();
    if found.Some? {
      var key := ScanConflict(a.db.users[found.value], keys, data.value);
      if key.Some? {
        return Err(Build("user_already_exists", [LabelValue(key.value)]));
      }
    }
    r := Ok(data.value);
  }

  /** registrationByPassword: the guards of RegistrationCheck, raised with
      nothing written; otherwise one user holding the data and one password
      grant for that user's id, and the new user is returned. */
  method RegistrationByPassword(a: Auth, env: Env, payload: PhpArray) returns (r: Result<User, AuthError>)
    requires a.Valid()
    modifies a.users`keysCache, a.db`users, a.db`grants
    ensures a.Valid()
    ensures RegistrationCheck(a.config, old(a.db.users), a.users.columns, payload, env).Err? ==>
      r == Err(RegistrationCheck(a.config, old(a.db.users), a.users.columns, payload, env).error)
      && a.db.users == old(a.db.users) && a.db.grants == old(a.db.grants)
    ensures RegistrationCheck(a.config, old(a.db.users), a.users.columns, payload, env).Ok? ==>
      var data := RegistrationCheck(a.config, old(a.db.users), a.users.columns, payload, env).value;
      r == Ok(User(|old(a.db.users)| + 1, data))
      && a.db.users == old(a.db.users) + [r.value]
      && a.db.grants == old(a.db.grants)
           + [Grant(|old(a.db.grants)| + 1, r.value.id, AuthGrant.PasswordSource, None, env.hash(PasswordOf(data)), None)]
  {
    var data := RegistrationGuards(a, env, payload);
    if data.Err? {
      return Err(data.error);
    }
    var u := InsertByPassword(a.db, data.value);
    var g := AuthGrant.MakeWithPassword(a.db, u.id, PasswordOf(data.value), env.hash);
    r := Ok(u);
  }

  /** Once registered, the same data cannot register again: as soon as one
      unique key is set, the new user is found and conflicts. */
  lemma {:induction false} RegisteredDataConflicts(users: seq<User>, keys: seq<string>, data: PhpArray)
    requires |SetKeys(keys, data)| > 0
    ensures RegistrationConflict(users + [User(|users| + 1, data)], keys, data).Some?
  {
    var all := users + [User(|users| + 1, data)];
    var sk := SetKeys(keys, data);
    assert Get(all[|users|].fields, sk[0]) == Get(data, sk[0]);
    assert MatchesSomeKey(all[|users|], sk, data);
  }

  /** `array_fill_keys($keys, $v)`. */
  function FillKeys(keys: seq<string>, v: Value): (r: PhpArray)
    ensures Keys(r) == keys
    ensures forall k :: k in keys ==> Get(r, k) == v
  {
    if |keys| == 0 then [] else [Entry(keys[0], v)] + FillKeys(keys[1..], v)
  }

  /** The user loginByPassword looks up: every unique key set to the login. */
  function FindByLogin(users: seq<User>, keys: seq<string>, login: Value): (r: Option<nat>)
    ensures r.Some? ==> r.value < |users| && login != Null && exists i :: 0 <= i < |keys| && Get(users[r.value].fields, keys[i]) == login
  {
    var filled := FillKeys(keys, login);
    var r := FindBySetKeys(users, keys, filled);
    if r.Some? then
      var sk := SetKeys(keys, filled);
      var i :| 0 <= i < |sk| && Get(users[r.value].fields, sk[i]) == Get(filled, sk[i]);
      SetKeysMembers(keys, filled);
      assert sk[i] in keys;
      r
    else r
  }

  /** The guards of loginByPassword, in order: password support, the user
      model, the host validator, the user holding the login, that user's
      password grant, and the password. On success: the user and the grant. */
  function LoginCheck(config: PhpArray, users: seq<User>, grants: seq<Grant>, columns: seq<string>,
                      payload: PhpArray, env: Env): (r: Result<(User, Grant), AuthError>)
    ensures ThrowIfNotSupportedSource(config, "password").Err? ==> r == Err(ThrowIfNotSupportedSource(config, "password").error)
    ensures ThrowIfNotSupportedSource(config, "password").Ok? && UserModelName(config, env.implements).Err? ==>
      r == Err(UserModelName(config, env.implements).error)
    ensures ThrowIfNotSupportedSource(config, "password").Ok? && UserModelName(config, env.implements).Ok? ==>
      (env.validateLogin(payload).Err? ==> r == Err(env.validateLogin(payload).error))
      && (env.validateLogin(payload).Ok? ==> LoginErrorOrder(users, grants, columns, env.validateLogin(payload).value, env.hash, r))
    ensures r.Ok? ==> (r.value.0 in users && r.value.1 in grants && r.value.1.userId == r.value.0.id
      && r.value.1.source == AuthGrant.PasswordSource)
  {
    if ThrowIfNotSupportedSource(config, "password").Err? then Err(ThrowIfNotSupportedSource(config, "password").error)
    else if UserModelName(config, env.implements).Err? then Err(UserModelName(config, env.implements).error)
    else
      match env.validateLogin(payload)
      case Err(e) => Err(e)
      case Ok(data) => Credentials(users, grants, columns, data, env.hash)
  }

  /** The part of loginByPassword after validation: the user by the login,
      the user's password grant, then the password itself. */
  function Credentials(users: seq<User>, grants: seq<Grant>, columns: seq<string>, data: PhpArray,
                       hash: string -> string): (r: Result<(User, Grant), AuthError>)
    ensures LoginErrorOrder(users, grants, columns, data, hash, r)
    ensures r.Ok? ==> (r.value.0 in users && r.value.1 in grants && r.value.1.userId == r.value.0.id
      && r.value.1.source == AuthGrant.PasswordSource)
  {
    match FindByLogin(users, UniqueKeysOf(columns), Get(data, "login"))
    case None => Err(Build("user_not_found", []))
    case Some(i) =>
      match AuthGrant.FindWithPasswordByUserId(grants, users[i].id)
      case None => Err(Build("password_grant_not_found", []))
      case Some(k) =>
        if !AuthGrant.CheckPassword(grants[k], PasswordOf(data), hash) then Err(Build("user_fail_password", []))
        else Ok((users[i], grants[k]))
  }

  /** user_not_found, then password_grant_not_found, then
      user_fail_password; success means the password verifies. */
  predicate LoginErrorOrder(users: seq<User>, grants: seq<Grant>, columns: seq<string>, data: PhpArray,
                            hash: string -> string, r: Result<(User, Grant), AuthError>)
  {
    var i := FindByLogin(users, UniqueKeysOf(columns), Get(data, "login"));
    (i.None? ==> r == Err(Build("user_not_found", [])))
    && (i.Some? ==>
          var k := AuthGrant.FindWithPasswordByUserId(grants, users[i.value].id);
          (k.None? ==> r == Err(Build("password_grant_not_found", [])))
          && (k.Some? ==>
                (r.Ok? <==> AuthGrant.CheckPassword(grants[k.value], PasswordOf(data), hash))
                && (r.Err? ==> r.error == Build("user_fail_password", []))
                && (r.Ok? ==> r == Ok((users[i.value], grants[k.value])))))
  }

  /** loginByPassword: the guards of LoginCheck with nothing written; a
      session is made only once the password verifies, and the user found
      is returned. */
  method LoginByPassword(a: Auth, env: Env, payload: PhpArray) returns (r: Result<User, AuthError>)
    requires a.Valid() && EnvValid(env)
    modifies a.users`keysCache, a.db`sessions
    ensures a.Valid()
    ensures LoginCheck(a.config, a.db.users, a.db.grants, a.users.columns, payload, env).Err? ==>
      r == Err(LoginCheck(a.config, a.db.users, a.db.grants, a.users.columns, payload, env).error)
      && a.db.sessions == old(a.db.sessions)
    ensures LoginCheck(a.config, a.db.users, a.db.grants, a.users.columns, payload, env).Ok? ==>
      var (user, grant) := LoginCheck(a.config, a.db.users, a.db.grants, a.users.columns, payload, env).value;
      SignedIn(old(a.db.sessions), a.db.sessions, grant, env.session, r, user)
  {
    var supported := ThrowIfNotSupportedSource(a.config, "password");
    if supported.Err? {
      return Err(supported.error);
    }
    var m := UserModelName(a.config, env.implements);
    if m.Err? {
      return Err(m.error);
    }
    var data := env.validateLogin(payload);
    if data.Err? {
      return Err(data.error);
    }
    r := SignInWithCredentials(a, env, data.value);
  }

  /** loginByPassword after validation: the checks of Credentials with
      nothing written, then a session for the user's password grant. */
  method SignInWithCredentials(a: Auth, env: Env, data: PhpArray) returns (r: Result<User, AuthError>)
    requires a.Valid() && EnvValid(env)
    modifies a.users`keysCache, a.db`sessions
    ensures a.Valid()
    ensures Credentials(a.db.users, a.db.grants, a.users.columns, data, env.hash).Err? ==>
      r == Err(Credentials(a.db.users, a.db.grants, a.users.columns, data, env.hash).error)
      && a.db.sessions == old(a.db.sessions)
    ensures Credentials(a.db.users, a.db.grants, a.users.columns, data, env.hash).Ok? ==>
      var (user, grant) := Credentials(a.db.users, a.db.grants, a.users.columns, data, env.hash).value;
      SignedIn(old(a.db.sessions), a.db.sessions, grant, env.session, r, user)
  {
    var c := CheckCredentials(a, env, data);
    if c.Err? {
      return Err(c.error);
    }
    var session, _ := a.MakeSession(c.value.1, None, env.session);
    if session.Err? {
      return Err(session.error);
    }
    r := Ok(c.value.0);
  }

  /** The lookups of loginByPassword: they fill the unique keys cache and
      write nothing else. */
  method CheckCredentials(a: Auth, env: Env, data: PhpArray) returns (r: Result<(User, Grant), AuthError>)
    requires a.Valid()
    modifies a.users`keysCache
    ensures a.Valid()
    ensures r == Credentials(a.db.users, a.db.grants, a.users.columns, data, env.hash)
  {
    var keys := a.users.UniqueKeys();
    var found, _ := FindByUniqueKeys(a.users, a.db, FillKeys(keys, Get(data, "login")));
    if found.None? {
      return Err(Build("user_not_found", []));
    }
    var user := a.db.users[found.value];
    var k := AuthGrant.FindWithPasswordByUserId(a.db.grants, user.id);
    if k.None? {
      return Err(Build("password_grant_not_found", []));
    }
    var grant := a.db.grants[k.value];
    if !AuthGrant.CheckPassword(grant, PasswordOf(data), env.hash) {
      return Err(Build("user_fail_password", []));
    }
    r := Ok((user, grant));
  }

  /** A user just registered with a set unique key equal to the login, when
      no earlier user holds the login and no earlier password grant belongs
      to the new id, is found by the login with the registration's grant,
      and the registration's password verifies. */
  lemma LoginAfterRegistration(users: seq<User>, grants: seq<Grant>, keys: seq<string>, data: PhpArray,
                               login: Value, hash: string -> string, key: string)
    requires key in keys && login != Null && Get(data, key) == login
    requires FindByLogin(users, keys, login).None?
    requires AuthGrant.FindWithPasswordByUserId(grants, |users| + 1).None?
    ensures var u := User(|users| + 1, data);
      var g := Grant(|grants| + 1, u.id, AuthGrant.PasswordSource, None, hash(PasswordOf(data)), None);
      FindByLogin(users + [u], keys, login) == Some(|users|)
      && AuthGrant.FindWithPasswordByUserId(grants + [g], u.id) == Some(|grants|)
      && AuthGrant.CheckPassword(g, PasswordOf(data), hash)
  {
    var u := User(|users| + 1, data);
    var g := Grant(|grants| + 1, u.id, AuthGrant.PasswordSource, None, hash(PasswordOf(data)), None);
    var filled := FillKeys(keys, login);
    var sk := SetKeys(keys, filled);
    SetKeysMembers(keys, filled);
    assert key in sk;
    var i :| 0 <= i < |sk| && sk[i] == key;
    assert MatchesSomeKey(u, sk, filled);
    FirstIndexAppendNew(users, u, (x: User) => MatchesSomeKey(x, sk, filled));
    FirstIndexAppendNew(grants, g, (x: Grant) => x.userId == u.id && x.source == AuthGrant.PasswordSource);
  }

  /** changePassword: password_grant_not_found when the user has none;
      otherwise the grant's own change, saved when it succeeds. */
  method ChangePassword(a: Auth, env: Env, userId: int, oldPassword: string, password: string) returns (r: Result<(), AuthError>)
    requires a.Valid()
    modifies a.db`grants
    ensures a.Valid()
    ensures AuthGrant.FindWithPasswordByUserId(old(a.db.grants), userId).None? ==>
      r == Err(Build("password_grant_not_found", [])) && a.db.grants == old(a.db.grants)
    ensures AuthGrant.FindWithPasswordByUserId(old(a.db.grants), userId).Some? ==>
      var k := AuthGrant.FindWithPasswordByUserId(old(a.db.grants), userId).value;
      var changed := AuthGrant.ChangePassword(old(a.db.grants)[k], oldPassword, password, env.hash);
      (changed.Err? ==> r == Err(changed.error) && a.db.grants == old(a.db.grants))
      && (changed.Ok? ==> r.Ok? && a.db.grants == old(a.db.grants)[k := changed.value])
  {
    var k := AuthGrant.FindWithPasswordByUserId(a.db.grants, userId);
    if k.None? {
      return Err(Build("password_grant_not_found", []));
    }
    var changed := AuthGrant.ChangePassword(a.db.grants[k.value], oldPassword, password, env.hash);
    if changed.Err? {
      return Err(changed.error);
    }
    AuthGrant.Save(a.db, k.value, changed.value);
    r := Ok(());
  }

  /** setPassword: a new password grant, whatever the user already has. */
  method SetPassword(a: Auth, env: Env, userId: int, password: string)
    requires a.Valid()
    modifies a.db`grants
    ensures a.Valid()
    ensures a.db.grants == old(a.db.grants)
      + [Grant(|old(a.db.grants)| + 1, userId, AuthGrant.PasswordSource, None, env.hash(password), None)]
  {
    var g := AuthGrant.MakeWithPassword(a.db, userId, password, env.hash);
  }
}
