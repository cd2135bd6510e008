/**
 * Sign-in by a code sent to an email address or a phone
 * (Traits/AuthCodeTrait.php): getCodeForLogin issues a code, creating the
 * user on first contact; loginByCode checks it, completes it, and signs the
 * user in through a code grant and a session.
 */
module AuthCodeTrait {
  import opened Wrappers
  import opened Php
  import opened Errors
  import opened Records
  import opened Database
  import opened Validators
  import opened LoginUser
  import opened Auth
  import opened AuthConfirmTrait
  import AuthConfirm
  import AuthGrant

  /** The guards of loginByCode up to the stored row, in the order the code
      runs them: code support, validation, the user model, the user holding
      the address, then that user's row holding the code. On success: the
      request, the user and the index of the row. */
  function LoginByCodeCheck(config: PhpArray, users: seq<User>, rows: seq<Confirm>, payload: PhpArray, env: Env)
    : (r: Result<(CodeRequest, User, nat), AuthError>)
    ensures ThrowIfNotSupportedSource(config, "code").Err? ==> r == Err(ThrowIfNotSupportedSource(config, "code").error)
    ensures ThrowIfNotSupportedSource(config, "code").Ok? && FindRecipient(config, users, payload, env, true).Err? ==>
      r == Err(FindRecipient(config, users, payload, env, true).error)
    ensures ThrowIfNotSupportedSource(config, "code").Ok? && FindRecipient(config, users, payload, env, true).Ok? ==>
      (r.Err? <==> AuthConfirm.FindByUserIdAnd(rows, FindRecipient(config, users, payload, env, true).value.1.id, AuthConfirm.CodeColumn,
                                                    ToStr(FindRecipient(config, users, payload, env, true).value.0.code)).None?)
    ensures r.Ok? ==> (r.value.1 in users && Get(r.value.1.fields, ToStr(r.value.0.typ)) == r.value.0.to
      && r.value.2 < |rows| && rows[r.value.2].userId == r.value.1.id && rows[r.value.2].code == ToStr(r.value.0.code))
    ensures r.Err? && ThrowIfNotSupportedSource(config, "code").Ok? && FindRecipient(config, users, payload, env, true).Ok? ==>
      r.error == Build("code_is_not_active", [])
  {
    if ThrowIfNotSupportedSource(config, "code").Err? then Err(ThrowIfNotSupportedSource(config, "code").error)
    else
      match FindRecipient(config, users, payload, env, true)
      case Err(e) => Err(e)
      case Ok((req, user)) =>
        match AuthConfirm.FindByUserIdAnd(rows, user.id, AuthConfirm.CodeColumn, ToStr(req.code))
        case None => Err(Build("code_is_not_active", []))
        case Some(k) => Ok((req, user, k))
  }

  /** The steps of getCodeForLogin after the guards: the user holding the
      address, inserted when there is none, then a fresh row for that user
      and the address. */
  method IssueLoginCode(a: Auth, env: Env, req: CodeRequest) returns (r: Result<string, AuthError>)
    requires a.Valid() && EnvValid(env)
    requires Get(req.data, ToStr(req.typ)) == req.to
    modifies a.db`users, a.db`confirms, a.db`recoveries
    ensures a.Valid() && a.db.recoveries == old(a.db.recoveries)
    ensures FindByUniqueKeysFilled(old(a.db.users), req.to, ToStr(req.typ)).Some? ==> a.db.users == old(a.db.users)
    ensures FindByUniqueKeysFilled(old(a.db.users), req.to, ToStr(req.typ)).None? ==>
      a.db.users == old(a.db.users) + [User(|old(a.db.users)| + 1, req.data)]
    ensures RowIssued(old(a.db.confirms), a.db.confirms, CodeUser(old(a.db.users), req).id, req, env, r)
    ensures r.Ok? ==> IssuedTo(a.db.users, a.db.confirms[|old(a.db.confirms)|], old(a.db.confirms), req, r.value)
  {
    var user := FindOrInsertUser(a, req);
    assert user == CodeUser(old(a.db.users), req);
    r := IssueRow(a.db, false, user.id, req, env);
  }

  /** Row `c`, new next to `before`, carries `code`, is not completed, is
      addressed to the request's address, and belongs to a user holding
      that address. */
  predicate IssuedTo(users: seq<User>, c: Confirm, before: seq<Confirm>, req: CodeRequest, code: string)
  {
    c.code == code && code !in AuthConfirm.CodesOf(before) && c.completeTime == None
    && c.to == ToStr(req.to) && 1 <= c.userId <= |users|
    && Get(users[c.userId - 1].fields, ToStr(req.typ)) == req.to
  }

  /** getCodeForLogin: code support first; then validation and the user
      model; a user is created from the validated data when none holds the
      address; then a fresh confirmation row is inserted on every call,
      bound to a user holding the address, and its code returned. */
  method GetCodeForLogin(a: Auth, env: Env, payload: PhpArray) returns (r: Result<string, AuthError>)
    requires a.Valid() && EnvValid(env)
    modifies a.db`users, a.db`confirms, a.db`recoveries
    ensures a.Valid() && a.db.recoveries == old(a.db.recoveries)
    ensures ThrowIfNotSupportedSource(a.config, "code").Err? ==>
      r == Err(ThrowIfNotSupportedSource(a.config, "code").error) && TablesOf(a.db) == old(TablesOf(a.db))
    ensures ThrowIfNotSupportedSource(a.config, "code").Ok? && ValidateGetCode(payload, env.emailField, env.phoneField).Err? ==>
      r == Err(ValidateGetCode(payload, env.emailField, env.phoneField).error) && TablesOf(a.db) == old(TablesOf(a.db))
    ensures ThrowIfNotSupportedSource(a.config, "code").Ok? && ValidateGetCode(payload, env.emailField, env.phoneField).Ok?
            && UserModelName(a.config, env.implements).Err? ==>
      r == Err(UserModelName(a.config, env.implements).error) && TablesOf(a.db) == old(TablesOf(a.db))
    ensures r.Err? ==> a.db.confirms == old(a.db.confirms)
    ensures (ThrowIfNotSupportedSource(a.config, "code").Ok? && ValidateGetCode(payload, env.emailField, env.phoneField).Ok?
             && UserModelName(a.config, env.implements).Ok?) ==>
      var req := ValidateGetCode(payload, env.emailField, env.phoneField).value;
      (FindByUniqueKeysFilled(old(a.db.users), req.to, ToStr(req.typ)).Some? ==> a.db.users == old(a.db.users))
      && (FindByUniqueKeysFilled(old(a.db.users), req.to, ToStr(req.typ)).None? ==>
            a.db.users == old(a.db.users) + [User(|old(a.db.users)| + 1, req.data)])
      && RowIssued(old(a.db.confirms), a.db.confirms, CodeUser(old(a.db.users), req).id, req, env, r)
      && (r.Ok? ==> IssuedTo(a.db.users, a.db.confirms[|old(a.db.confirms)|], old(a.db.confirms), req, r.value))
    ensures r.Ok? ==> (ThrowIfNotSupportedSource(a.config, "code").Ok? && ValidateGetCode(payload, env.emailField, env.phoneField).Ok?
             && UserModelName(a.config, env.implements).Ok?)
  {
    var supported := ThrowIfNotSupportedSource(a.config, "code");
    if supported.Err? {
      return Err(supported.error);
    }
    var req := ValidateGetCode(payload, env.emailField, env.phoneField);
    if req.Err? {
      return Err(req.error);
    }
    var m := UserModelName(a.config, env.implements);
    if m.Err? {
      return Err(m.error);
    }
    r := IssueLoginCode(a, env, req.value);
  }

  /** The steps of loginByCode after the guards: completion of row `k`,
      then a code grant for the user and the address, then a session. */
  method CompleteAndSignIn(a: Auth, env: Env, req: CodeRequest, user: User, k: nat) returns (r: Result<User, AuthError>)
    requires a.Valid() && EnvValid(env) && k < |a.db.confirms|
    modifies a.db`confirms, a.db`recoveries, a.db`grants, a.db`sessions
    ensures a.Valid()
    ensures a.db.users == old(a.db.users) && a.db.recoveries == old(a.db.recoveries)
    ensures AuthConfirm.Complete(old(a.db.confirms)[k], env.session.now).Err? ==>
      r == Err(AuthConfirm.Complete(old(a.db.confirms)[k], env.session.now).error) && TablesOf(a.db) == old(TablesOf(a.db))
    ensures AuthConfirm.Complete(old(a.db.confirms)[k], env.session.now).Ok? ==>
      a.db.confirms == old(a.db.confirms)[k := AuthConfirm.Complete(old(a.db.confirms)[k], env.session.now).value]
      && a.db.grants == old(a.db.grants) + [Grant(|old(a.db.grants)| + 1, user.id, AuthGrant.CodeSource, Some(ToStr(req.to)), "", None)]
      && SignedIn(old(a.db.sessions), a.db.sessions,
                  Grant(|old(a.db.grants)| + 1, user.id, AuthGrant.CodeSource, Some(ToStr(req.to)), "", None), env.session, r, user)
  {
    var done := AuthConfirm.CompleteRow(a.db, false, k, env.session.now);
    if done.Err? {
      return Err(done.error);
    }
    var grant := AuthGrant.MakeWithCode(a.db, user.id, ToStr(req.to));
    var session, _ := a.MakeSession(grant, None, env.session);
    if session.Err? {
      return Err(session.error);
    }
    r := Ok(user);
  }

  /** loginByCode: the guards of LoginByCodeCheck, then completion of the
      row, which refuses an outdated one. Until completion succeeds no grant
      and no session is written. After it, a code grant for the user and
      the address is inserted, a session is made for it, and the user
      holding the address is returned. */
  method LoginByCode(a: Auth, env: Env, payload: PhpArray) returns (r: Result<User, AuthError>)
    requires a.Valid() && EnvValid(env)
    modifies a.db`confirms, a.db`recoveries, a.db`grants, a.db`sessions
    ensures a.Valid()
    ensures a.db.users == old(a.db.users) && a.db.recoveries == old(a.db.recoveries)
    ensures LoginByCodeCheck(a.config, a.db.users, old(a.db.confirms), payload, env).Err? ==>
      r == Err(LoginByCodeCheck(a.config, a.db.users, old(a.db.confirms), payload, env).error)
      && TablesOf(a.db) == old(TablesOf(a.db))
    ensures LoginByCodeCheck(a.config, a.db.users, old(a.db.confirms), payload, env).Ok? ==>
      LoginByCodeWrites(old(a.db.confirms), old(a.db.grants), old(a.db.sessions), a.db.confirms, a.db.grants, a.db.sessions,
                        LoginByCodeCheck(a.config, a.db.users, old(a.db.confirms), payload, env).value, env.session, r)
  {
    var check := LoginByCodeCheck(a.config, a.db.users, a.db.confirms, payload, env);
    if check.Err? {
      return Err(check.error);
    }
    var (req, user, k) := check.value;
    r := CompleteAndSignIn(a, env, req, user, k);
  }

  /** What loginByCode leaves behind once its guards pass: if completion
      fails, its error and the tables as they were; otherwise the completed
      row, one code grant for the user and the address, and the session
      step for the user holding the address. */
  predicate LoginByCodeWrites(confirms: seq<Confirm>, grants: seq<Grant>, sessions: seq<Session>,
                              confirms': seq<Confirm>, grants': seq<Grant>, sessions': seq<Session>,
                              found: (CodeRequest, User, nat), env: SessionEnv, r: Result<User, AuthError>)
    requires found.2 < |confirms| && AuthSession.TokenDraws(env.draws)
  {
    var (req, user, k) := found;
    var done := AuthConfirm.Complete(confirms[k], env.now);
    (done.Err? ==> r == Err(done.error) && confirms' == confirms && grants' == grants && sessions' == sessions)
    && (done.Ok? ==>
          (confirms' == confirms[k := done.value]
           && grants' == grants + [Grant(|grants| + 1, user.id, AuthGrant.CodeSource, Some(ToStr(req.to)), "", None)]
           && SignedIn(sessions, sessions', Grant(|grants| + 1, user.id, AuthGrant.CodeSource, Some(ToStr(req.to)), "", None), env, r, user)
           && Get(user.fields, ToStr(req.typ)) == req.to))
  }
}
