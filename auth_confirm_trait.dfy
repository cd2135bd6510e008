/**
 * Confirmation and recovery by code (Traits/AuthConfirmTrait.php). Each
 * flow validates the request, finds the user by the address, and then
 * issues, checks or completes a row of the confirmation table, or of the
 * recovery table when `recovery` is set (getRecoveryCode and
 * getRecoveryCodeForResend are these flows with `recovery` set).
 */
module AuthConfirmTrait {
  import opened Wrappers
  import opened Php
  import opened Errors
  import opened Records
  import opened Database
  import opened Validators
  import opened LoginUser
  import opened Auth
  import AuthConfirm
  import AuthGrant

  /** The request validated by the get-code or the check-code field set. */
  function ValidateRequest(payload: PhpArray, env: Env, check: bool): Result<CodeRequest, AuthError>
  {
    if check then ValidateCheckCode(payload, env.emailField, env.phoneField, env.codeField)
    else ValidateGetCode(payload, env.emailField, env.phoneField)
  }

  /** The first steps shared by the flows: validation, the user model
      check, then the user whose column named by the type holds the address. */
  function FindRecipient(config: PhpArray, users: seq<User>, payload: PhpArray, env: Env, check: bool)
    : (r: Result<(CodeRequest, User), AuthError>)
    ensures ValidateRequest(payload, env, check).Err? ==> r == Err(ValidateRequest(payload, env, check).error)
    ensures ValidateRequest(payload, env, check).Ok? && UserModelName(config, env.implements).Err? ==>
      r == Err(UserModelName(config, env.implements).error)
    ensures r.Err? && ValidateRequest(payload, env, check).Ok? && UserModelName(config, env.implements).Ok? ==>
      r.error == Build("user_not_found", [])
    ensures r.Ok? ==> (r.value.0 == ValidateRequest(payload, env, check).value && r.value.1 in users
      && Get(r.value.1.fields, ToStr(r.value.0.typ)) == r.value.0.to)
  {
    var req := ValidateRequest(payload, env, check);
    if req.Err? then Err(req.error)
    else
      var m := UserModelName(config, env.implements);
      if m.Err? then Err(m.error)
      else
        match FindByUniqueKeysFilled(users, req.value.to, ToStr(req.value.typ))
        case None => Err(Build("user_not_found", []))
        case Some(i) => Ok((req.value, users[i]))
  }

  /** getConfirmCode: no support check; a missing user raises and inserts
      nothing; otherwise a new row for the user and the address is
      inserted and its code returned. */
  method GetConfirmCode(a: Auth, env: Env, payload: PhpArray, recovery: bool) returns (r: Result<string, AuthError>)
    requires a.Valid() && EnvValid(env)
    modifies a.db`confirms, a.db`recoveries
    ensures a.Valid()
    ensures FindRecipient(a.config, a.db.users, payload, env, false).Err? ==>
      r == Err(FindRecipient(a.config, a.db.users, payload, env, false).error) && TablesOf(a.db) == old(TablesOf(a.db))
    ensures AuthConfirm.Rows(a.db, !recovery) == old(AuthConfirm.Rows(a.db, !recovery))
    ensures r.Err? ==> AuthConfirm.Rows(a.db, recovery) == old(AuthConfirm.Rows(a.db, recovery))
    ensures r.Ok? ==> var rcp := FindRecipient(a.config, a.db.users, payload, env, false).value;
      |AuthConfirm.Rows(a.db, recovery)| == |old(AuthConfirm.Rows(a.db, recovery))| + 1
      && AuthConfirm.Rows(a.db, recovery)[..|old(AuthConfirm.Rows(a.db, recovery))|] == old(AuthConfirm.Rows(a.db, recovery))
      && var c := AuthConfirm.Rows(a.db, recovery)[|old(AuthConfirm.Rows(a.db, recovery))|];
      c.code == r.value && c.userId == rcp.1.id && c.to == ToStr(rcp.0.to) && c.completeTime == None
    ensures FindRecipient(a.config, a.db.users, payload, env, false).Ok? ==>
      var rcp := FindRecipient(a.config, a.db.users, payload, env, false).value;
      RowIssued(old(AuthConfirm.Rows(a.db, recovery)), AuthConfirm.Rows(a.db, recovery), rcp.1.id, rcp.0, env, r)
  {
    var rcp := FindRecipient(a.config, a.db.users, payload, env, false);
    if rcp.Err? {
      return Err(rcp.error);
    }
    var (req, user) := rcp.value;
    r := IssueRow(a.db, recovery, user.id, req, env);
  }

  /** make for the user and the request's address on the table `recovery`
      selects, returning the new row's code. */
  method IssueRow(db: Db, recovery: bool, userId: int, req: CodeRequest, env: Env) returns (r: Result<string, AuthError>)
    requires db.Valid() && EnvValid(env)
    modifies db`confirms, db`recoveries
    ensures db.Valid()
    ensures AuthConfirm.Rows(db, !recovery) == old(AuthConfirm.Rows(db, !recovery))
    ensures RowIssued(old(AuthConfirm.Rows(db, recovery)), AuthConfirm.Rows(db, recovery), userId, req, env, r)
  {
    var c := AuthConfirm.Make(db, recovery, userId, ToStr(req.to), Some(ToStr(req.typ)), env.session.now,
                              env.codeSettings, env.isEmail, env.isPhone, env.codeDraws);
    if c.Err? {
      return Err(c.error);
    }
    r := Ok(c.value.code);
  }

  /** confirmCheck: the user, then the user's row holding the code (its
      completion and end time are not looked at), then completion. */
  method ConfirmCheck(a: Auth, env: Env, payload: PhpArray, recovery: bool) returns (r: Result<Confirm, AuthError>)
    requires a.Valid()
    modifies a.db`confirms, a.db`recoveries
    ensures a.Valid()
    ensures AuthConfirm.Rows(a.db, !recovery) == old(AuthConfirm.Rows(a.db, !recovery))
    ensures r.Err? ==> AuthConfirm.Rows(a.db, recovery) == old(AuthConfirm.Rows(a.db, recovery))
    ensures FindRecipient(a.config, a.db.users, payload, env, true).Err? ==>
      r == Err(FindRecipient(a.config, a.db.users, payload, env, true).error)
    ensures FindRecipient(a.config, a.db.users, payload, env, true).Ok? ==>
      var rcp := FindRecipient(a.config, a.db.users, payload, env, true).value;
      var k := AuthConfirm.FindByUserIdAnd(old(AuthConfirm.Rows(a.db, recovery)), rcp.1.id, AuthConfirm.CodeColumn, ToStr(rcp.0.code));
      (k.None? ==> r == Err(Build("code_is_not_active", [])))
      && (k.Some? ==> (r == AuthConfirm.Complete(old(AuthConfirm.Rows(a.db, recovery))[k.value], env.session.now)
          && (r.Ok? ==> AuthConfirm.Rows(a.db, recovery) == old(AuthConfirm.Rows(a.db, recovery))[k.value := r.value])))
    ensures var c := CheckedRow(a.config, a.db.users, old(AuthConfirm.Rows(a.db, recovery)), payload, env);
      (c.Err? ==> r == Err(c.error)) && (c.Ok? ==> r == Ok(c.value.1))
  {
    var rcp := FindRecipient(a.config, a.db.users, payload, env, true);
    if rcp.Err? {
      return Err(rcp.error);
    }
    var (req, user) := rcp.value;
    var k := AuthConfirm.FindByUserIdAnd(AuthConfirm.Rows(a.db, recovery), user.id, AuthConfirm.CodeColumn, ToStr(req.code));
    if k.None? {
      return Err(Build("code_is_not_active", []));
    }
    r := AuthConfirm.CompleteRow(a.db, recovery, k.value, env.session.now);
  }

  /** What confirmCheck decides on rows `rows`: the recipient's error;
      code_is_not_active when the user has no row with the code; the
      completion's error; or the index of the user's row and that row
      completed now. */
  function CheckedRow(config: PhpArray, users: seq<User>, rows: seq<Confirm>, payload: PhpArray, env: Env)
    : (r: Result<(nat, Confirm), AuthError>)
    ensures FindRecipient(config, users, payload, env, true).Err? ==>
      r == Err(FindRecipient(config, users, payload, env, true).error)
    ensures FindRecipient(config, users, payload, env, true).Ok? ==>
      var rcp := FindRecipient(config, users, payload, env, true).value;
      (AuthConfirm.FindByUserIdAnd(rows, rcp.1.id, AuthConfirm.CodeColumn, ToStr(rcp.0.code)).None? ==> r == Err(Build("code_is_not_active", [])))
      && (r.Ok? ==> (r.value.0 < |rows| && rows[r.value.0].userId == rcp.1.id && rows[r.value.0].code == ToStr(rcp.0.code)
            && !AuthConfirm.IsOutdated(rows[r.value.0], env.session.now)
            && r.value.1 == rows[r.value.0].(completeTime := Some(env.session.now))))
    ensures r.Err? && FindRecipient(config, users, payload, env, true).Ok? ==>
      r.error in {Build("code_is_not_active", []), Build("code_is_outdated", [])}
  {
    match FindRecipient(config, users, payload, env, true)
    case Err(e) => Err(e)
    case Ok((req, user)) =>
      match AuthConfirm.FindByUserIdAnd(rows, user.id, AuthConfirm.CodeColumn, ToStr(req.code))
      case None => Err(Build("code_is_not_active", []))
      case Some(k) =>
        match AuthConfirm.Complete(rows[k], env.session.now)
        case Err(e) => Err(e)
        case Ok(c) => Ok((k, c))
  }

  /** A code just issued to the checked recipient, checked before its end
      time, is found as the new row and completed now. */
  lemma IssuedCodeIsChecked(config: PhpArray, users: seq<User>, rows: seq<Confirm>, payload: PhpArray, env: Env, c: Confirm)
    requires FindRecipient(config, users, payload, env, true).Ok?
    requires var rcp := FindRecipient(config, users, payload, env, true).value;
      c.userId == rcp.1.id && c.code == ToStr(rcp.0.code)
    requires c.code !in AuthConfirm.CodesOf(rows) && !AuthConfirm.IsOutdated(c, env.session.now)
    ensures CheckedRow(config, users, rows + [c], payload, env) == Ok((|rows|, c.(completeTime := Some(env.session.now))))
  {
    AuthConfirm.IssuedCodeIsFound(rows, c);
  }

  /** recoveryCheck: the recovery row is completed first, so a code is
      used up even when the new password then fails validation; the user's
      password grant is re-hashed in place, or one is made, and returned. */
  method RecoveryCheck(a: Auth, env: Env, payload: PhpArray) returns (r: Result<Grant, AuthError>)
    requires a.Valid()
    modifies a.db`confirms, a.db`recoveries, a.db`grants
    ensures a.Valid()
    ensures a.db.confirms == old(a.db.confirms)
    ensures var c := CheckedRow(a.config, a.db.users, old(a.db.recoveries), payload, env);
      (c.Err? ==> r == Err(c.error) && a.db.recoveries == old(a.db.recoveries) && a.db.grants == old(a.db.grants))
      && (c.Ok? ==> a.db.recoveries == old(a.db.recoveries)[c.value.0 := c.value.1])
    ensures CheckedRow(a.config, a.db.users, old(a.db.recoveries), payload, env).Ok? ==>
      var userId := CheckedRow(a.config, a.db.users, old(a.db.recoveries), payload, env).value.1.userId;
      (env.passwordReset(payload).None? ==>
        r == Err(ValidationFailed("PasswordResetFieldset")) && a.db.grants == old(a.db.grants))
      && (env.passwordReset(payload).Some? ==> (r.Ok? && r.value.userId == userId
        && AuthGrant.CheckPassword(r.value, env.passwordReset(payload).value, env.hash)
        && r.value.source == AuthGrant.PasswordSource
        && AuthGrant.FindWithPasswordByUserId(a.db.grants, userId).Some?
        && a.db.grants[AuthGrant.FindWithPasswordByUserId(a.db.grants, userId).value] == r.value
        && PasswordStored(old(a.db.grants), a.db.grants, userId, env.passwordReset(payload).value, env.hash, r.value)))
  {
    var confirm := ConfirmCheck(a, env, payload, true);
    if confirm.Err? {
      return Err(confirm.error);
    }
    r := ResetPassword(a, env, payload, confirm.value.userId);
  }

  /** recoveryCheck after the row is completed: the new password is
      validated, then stored in the user's password grant. */
  method ResetPassword(a: Auth, env: Env, payload: PhpArray, userId: int) returns (r: Result<Grant, AuthError>)
    requires a.Valid()
    modifies a.db`grants
    ensures a.Valid()
    ensures env.passwordReset(payload).None? ==> r == Err(ValidationFailed("PasswordResetFieldset")) && a.db.grants == old(a.db.grants)
    ensures env.passwordReset(payload).Some? ==> (r.Ok?
      && AuthGrant.CheckPassword(r.value, env.passwordReset(payload).value, env.hash)
      && r.value.source == AuthGrant.PasswordSource && r.value.userId == userId
      && AuthGrant.FindWithPasswordByUserId(a.db.grants, userId).Some?
      && a.db.grants[AuthGrant.FindWithPasswordByUserId(a.db.grants, userId).value] == r.value
      && PasswordStored(old(a.db.grants), a.db.grants, userId, env.passwordReset(payload).value, env.hash, r.value))
  {
    var password := env.passwordReset(payload);
    if password.None? {
      return Err(ValidationFailed("PasswordResetFieldset"));
    }
    var g := StorePassword(a, userId, password.value, env.hash);
    r := Ok(g);
  }

  /** The grants after the end of recoveryCheck, from `grants` to
      `grants'`: the user's first password grant re-hashed in place and
      nothing else changed, or, when the user has none, one new password
      grant appended with the next id, no login and the password's hash.
      `g` is the grant written. */
  predicate PasswordStored(grants: seq<Grant>, grants': seq<Grant>, userId: int, password: string,
                           hash: string -> string, g: Grant)
  {
    match AuthGrant.FindWithPasswordByUserId(grants, userId)
    case Some(k) =>
      g == AuthGrant.SetPasswordHash(grants[k], password, hash) && grants' == grants[k := g]
    case None =>
      g == Grant(|grants| + 1, userId, AuthGrant.PasswordSource, None, hash(password), None) && grants' == grants + [g]
  }

  /** The end of recoveryCheck: the user's password grant re-hashed and
      saved in place, or a new one made when the user has none. */
  method StorePassword(a: Auth, userId: int, password: string, hash: string -> string) returns (g: Grant)
    requires a.Valid()
    modifies a.db`grants
    ensures a.Valid()
    ensures AuthGrant.CheckPassword(g, password, hash) && g.source == AuthGrant.PasswordSource && g.userId == userId
    ensures AuthGrant.FindWithPasswordByUserId(a.db.grants, userId).Some?
      && a.db.grants[AuthGrant.FindWithPasswordByUserId(a.db.grants, userId).value] == g
    ensures PasswordStored(old(a.db.grants), a.db.grants, userId, password, hash, g)
  {
    var k := AuthGrant.FindWithPasswordByUserId(a.db.grants, userId);
    var p := (x: Grant) => x.userId == userId && x.source == AuthGrant.PasswordSource;
    if k.Some? {
      g := AuthGrant.SetPasswordHash(a.db.grants[k.value], password, hash);
      FirstIndexUpdate(a.db.grants, k.value, g, p);
      AuthGrant.Save(a.db, k.value, g);
    } else {
      ghost var before := a.db.grants;
      g := AuthGrant.MakeWithPassword(a.db, userId, password, hash);
      FirstIndexAppendNew(before, g, p);
    }
  }

  /** The user holding the address, inserted from the validated data when
      there is none. */
  method FindOrInsertUser(a: Auth, req: CodeRequest) returns (user: User)
    requires a.Valid()
    modifies a.db`users
    ensures a.Valid()
    ensures FindByUniqueKeysFilled(old(a.db.users), req.to, ToStr(req.typ)).Some? ==>
      a.db.users == old(a.db.users) && user == a.db.users[FindByUniqueKeysFilled(old(a.db.users), req.to, ToStr(req.typ)).value]
    ensures FindByUniqueKeysFilled(old(a.db.users), req.to, ToStr(req.typ)).None? ==>
      a.db.users == old(a.db.users) + [user] && user == User(|old(a.db.users)| + 1, req.data)
    ensures 1 <= user.id <= |a.db.users| && a.db.users[user.id - 1] == user
    ensures Get(req.data, ToStr(req.typ)) == req.to ==> Get(user.fields, ToStr(req.typ)) == req.to
  {
    var i := FindByUniqueKeysFilled(a.db.users, req.to, ToStr(req.typ));
    if i.Some? {
      user := a.db.users[i.value];
    } else {
      user := Insert(a.db, req.data);
    }
  }

  /** The user a login code or a resend works with: the first one holding
      the address, or
      the one inserted from the validated data. Either way it holds the
      address. */
  function CodeUser(users: seq<User>, req: CodeRequest): (u: User)
    ensures Get(req.data, ToStr(req.typ)) == req.to ==> Get(u.fields, ToStr(req.typ)) == req.to
  {
    match FindByUniqueKeysFilled(users, req.to, ToStr(req.typ))
    case Some(i) => users[i]
    case None => User(|users| + 1, req.data)
  }

  /** What getCodeForResend does once its guards pass, from the tables
      `users` and `rows` to `users'` and `rows'`: the resend user is
      inserted when no user holds the address, then the row step for it. */
  predicate ResendOutcome(users: seq<User>, rows: seq<Confirm>, users': seq<User>, rows': seq<Confirm>,
                          req: CodeRequest, env: Env, r: Result<string, AuthError>)
    requires EnvValid(env)
  {
    var u := CodeUser(users, req);
    users' == (if FindByUniqueKeysFilled(users, req.to, ToStr(req.typ)).Some? then users else users + [u])
    && ResendRowOutcome(rows, rows', u, req, env, r)
  }

  /** The row step of a resend for user `u`: the user's first row for the
      address is reused untouched, and raises code_is_not_active when
      completed; with no such row, one row is made for the user and its
      code returned, or, when codes run out, token exhaustion with the rows
      unchanged. */
  predicate ResendRowOutcome(rows: seq<Confirm>, rows': seq<Confirm>, u: User, req: CodeRequest, env: Env,
                             r: Result<string, AuthError>)
    requires EnvValid(env)
  {
    match AuthConfirm.FindByUserIdAnd(rows, u.id, AuthConfirm.ToColumn, ToStr(req.to))
       case Some(k) =>
         rows' == rows
         && r == (if AuthConfirm.IsCompleted(rows[k]) then Err(Build("code_is_not_active", [])) else Ok(rows[k].code))
       case None => RowIssued(rows, rows', u.id, req, env, r)
  }

  /** make's outcome for user `userId` and the request's address, from the
      table `rows` to `rows'`: when every candidate code is taken, token
      exhaustion with the table unchanged; otherwise exactly one row is
      appended, built as make builds it, and its code is the result. */
  predicate RowIssued(rows: seq<Confirm>, rows': seq<Confirm>, userId: int, req: CodeRequest, env: Env,
                      r: Result<string, AuthError>)
    requires EnvValid(env)
  {
    (r.Err? <==> AuthConfirm.CodesExhausted(rows, env.codeSettings, env.codeDraws))
    && (r.Err? ==> r.error == Build("token_exceeed_max_try_generated", []) && rows' == rows)
    && (r.Ok? ==> (|rows'| == |rows| + 1 && rows' == rows + [rows'[|rows|]] && r.value == rows'[|rows|].code
          && AuthConfirm.MadeRow(rows, rows'[|rows|], userId, ToStr(req.to), Some(ToStr(req.typ)), env.session.now,
                                 env.codeSettings, env.isEmail, env.isPhone)))
  }

  /** getCodeForResend: code support first, then validation and the user
      model, each raising with nothing written; then the resend outcome on
      the table `recovery` selects. */
  method GetCodeForResend(a: Auth, env: Env, payload: PhpArray, recovery: bool) returns (r: Result<string, AuthError>)
    requires a.Valid() && EnvValid(env)
    modifies a.db`users, a.db`confirms, a.db`recoveries
    ensures a.Valid()
    ensures AuthConfirm.Rows(a.db, !recovery) == old(AuthConfirm.Rows(a.db, !recovery))
    ensures ThrowIfNotSupportedSource(a.config, "code").Err? ==>
      r == Err(ThrowIfNotSupportedSource(a.config, "code").error) && TablesOf(a.db) == old(TablesOf(a.db))
    ensures ThrowIfNotSupportedSource(a.config, "code").Ok? && ValidateGetCode(payload, env.emailField, env.phoneField).Err? ==>
      r == Err(ValidateGetCode(payload, env.emailField, env.phoneField).error) && TablesOf(a.db) == old(TablesOf(a.db))
    ensures ThrowIfNotSupportedSource(a.config, "code").Ok? && ValidateGetCode(payload, env.emailField, env.phoneField).Ok?
            && UserModelName(a.config, env.implements).Err? ==>
      r == Err(UserModelName(a.config, env.implements).error) && TablesOf(a.db) == old(TablesOf(a.db))
    ensures (ThrowIfNotSupportedSource(a.config, "code").Ok? && ValidateGetCode(payload, env.emailField, env.phoneField).Ok?
             && UserModelName(a.config, env.implements).Ok?) ==>
      ResendOutcome(old(a.db.users), old(AuthConfirm.Rows(a.db, recovery)), a.db.users, AuthConfirm.Rows(a.db, recovery),
                    ValidateGetCode(payload, env.emailField, env.phoneField).value, env, r)
  {
    var supported := ThrowIfNotSupportedSource(a.config, "code");
    if supported.Err? {
      return Err(supported.error);
    }
    var req := ValidateGetCode(payload, env.emailField, env.phoneField);
    if req.Err? {
      return Err(req.error);
    }
    var m := UserModelName(a.config, env.implements);
    if m.Err? {
      return Err(m.error);
    }
    r := ResendFor(a, env, req.value, recovery);
  }

  /** The part of getCodeForResend after the checks: the user found or
      created, the row reused or made, and the completed-row check. */
  method ResendFor(a: Auth, env: Env, req: CodeRequest, recovery: bool) returns (r: Result<string, AuthError>)
    requires a.Valid() && EnvValid(env)
    modifies a.db`users, a.db`confirms, a.db`recoveries
    ensures a.Valid()
    ensures AuthConfirm.Rows(a.db, !recovery) == old(AuthConfirm.Rows(a.db, !recovery))
    ensures ResendOutcome(old(a.db.users), old(AuthConfirm.Rows(a.db, recovery)), a.db.users, AuthConfirm.Rows(a.db, recovery),
                          req, env, r)
  {
    var user := FindOrInsertUser(a, req);
    assert user == CodeUser(old(a.db.users), req);
    r := ResendRow(a, env, req, recovery, user);
  }

  /** The row step of a resend, for the user found or inserted. */
  method ResendRow(a: Auth, env: Env, req: CodeRequest, recovery: bool, user: User) returns (r: Result<string, AuthError>)
    requires a.Valid() && EnvValid(env)
    modifies a.db`confirms, a.db`recoveries
    ensures a.Valid()
    ensures AuthConfirm.Rows(a.db, !recovery) == old(AuthConfirm.Rows(a.db, !recovery))
    ensures ResendRowOutcome(old(AuthConfirm.Rows(a.db, recovery)), AuthConfirm.Rows(a.db, recovery), user, req, env, r)
  {
    ghost var rows := AuthConfirm.Rows(a.db, recovery);
    var k := AuthConfirm.FindByUserIdAnd(AuthConfirm.Rows(a.db, recovery), user.id, AuthConfirm.ToColumn, ToStr(req.to));
    var confirm: Confirm;
    if k.Some? {
      confirm := AuthConfirm.Rows(a.db, recovery)[k.value];
    } else {
      var made := AuthConfirm.Make(a.db, recovery, user.id, ToStr(req.to), Some(ToStr(req.typ)),
                                   env.session.now, env.codeSettings, env.isEmail, env.isPhone, env.codeDraws);
      if made.Err? {
        return Err(made.error);
      }
      confirm := made.value;
      assert AuthConfirm.Rows(a.db, recovery)[|rows|] == confirm;
    }
    if AuthConfirm.IsCompleted(confirm) {
      return Err(Build("code_is_not_active", []));
    }
    r := Ok(confirm.code);
  }

  /** A second resend of the same validated request, after one that
      returned a code, returns the same code and writes nothing: the user
      and the row the first one found or made are found again. */
  lemma {:induction false} ResendTwice(users: seq<User>, rows: seq<Confirm>, users': seq<User>, rows': seq<Confirm>,
                                       users'': seq<User>, rows'': seq<Confirm>, req: CodeRequest, env: Env,
                                       r: Result<string, AuthError>, r': Result<string, AuthError>)
    requires EnvValid(env) && Get(req.data, ToStr(req.typ)) == req.to
    requires ResendOutcome(users, rows, users', rows', req, env, r) && r.Ok?
    requires ResendOutcome(users', rows', users'', rows'', req, env, r')
    ensures r' == r && users'' == users' && rows'' == rows'
  {
    var u := CodeUser(users, req);
    var typ := ToStr(req.typ);
    if FindByUniqueKeysFilled(users, req.to, typ).None? {
      FirstIndexAppendNew(users, u, (x: User) => Get(x.fields, typ) == req.to);
      assert users'[|users|] == u;
    }
    assert CodeUser(users', req) == u;
    if AuthConfirm.FindByUserIdAnd(rows, u.id, AuthConfirm.ToColumn, ToStr(req.to)).None? {
      var c := rows'[|rows|];
      ResendFindsIssuedRow(rows, c);
      assert AuthConfirm.FindByUserIdAnd(rows', u.id, AuthConfirm.ToColumn, ToStr(req.to)) == Some(|rows|);
      assert !AuthConfirm.IsCompleted(c) && r == Ok(c.code);
    }
  }

  /** Right after a code is issued for an address with no earlier row of
      that user, a resend finds that very row: the resent code is the
      issued one. */
  lemma ResendFindsIssuedRow(rows: seq<Confirm>, c: Confirm)
    requires AuthConfirm.FindByUserIdAnd(rows, c.userId, AuthConfirm.ToColumn, c.to).None?
    ensures AuthConfirm.FindByUserIdAnd(rows + [c], c.userId, AuthConfirm.ToColumn, c.to) == Some(|rows|)
    ensures (rows + [c])[|rows|].code == c.code
  {
    FirstIndexAppendNew(rows, c, (x: Confirm) => x.userId == c.userId && AuthConfirm.ColumnValue(x, AuthConfirm.ToColumn) == c.to);
  }
}
