/**
 * The older static copy of the password flow (Actions/PasswordAuth.php).
 * Its `Auth::` calls go through the facade to the one Auth instance, so
 * every method here works on that instance. Registration and setPassword
 * create the password grant with createWithPassword instead of
 * makeWithPassword; login and changePassword are the same statements as
 * the newer trait's.
 */
module PasswordAuth {
  import opened Wrappers
  import opened Php
  import opened Errors
  import opened Records
  import opened Database
  import opened Auth
  import opened AuthPasswordTrait
  import AuthGrant

  /** registration: the guards of registrationByPassword, raised with
      nothing written; otherwise the user and a grant from
      createWithPassword for its id. */
  method Registration(a: Auth, env: Env, payload: PhpArray) returns (r: Result<User, AuthError>)
    requires a.Valid()
    modifies a.users`keysCache, a.db`users, a.db`grants
    ensures a.Valid()
    ensures RegistrationCheck(a.config, old(a.db.users), a.users.columns, payload, env).Err? ==>
      r == Err(RegistrationCheck(a.config, old(a.db.users), a.users.columns, payload, env).error)
      && a.db.users == old(a.db.users) && a.db.grants == old(a.db.grants)
    ensures RegistrationCheck(a.config, old(a.db.users), a.users.columns, payload, env).Ok? ==>
      var data := RegistrationCheck(a.config, old(a.db.users), a.users.columns, payload, env).value;
      r == Ok(User(|old(a.db.users)| + 1, data))
      && a.db.users == old(a.db.users) + [r.value]
      && a.db.grants == old(a.db.grants)
           + [Grant(|old(a.db.grants)| + 1, r.value.id, AuthGrant.PasswordSource, None, env.hash(PasswordOf(data)), None)]
  {
    var data := RegistrationGuards(a, env, payload);
    if data.Err? {
      return Err(data.error);
    }
    var u := LoginUser.InsertByPassword(a.db, data.value);
    var g := AuthGrant.CreateWithPassword(a.db, u.id, PasswordOf(data.value), env.hash);
    r := Ok(u);
  }

  /** login: the same guards and error order as loginByPassword; a session
      only after the password verifies. */
  method Login(a: Auth, env: Env, payload: PhpArray) returns (r: Result<User, AuthError>)
    requires a.Valid() && EnvValid(env)
    modifies a.users`keysCache, a.db`sessions
    ensures a.Valid()
    ensures LoginCheck(a.config, a.db.users, a.db.grants, a.users.columns, payload, env).Err? ==>
      r == Err(LoginCheck(a.config, a.db.users, a.db.grants, a.users.columns, payload, env).error)
      && a.db.sessions == old(a.db.sessions)
    ensures LoginCheck(a.config, a.db.users, a.db.grants, a.users.columns, payload, env).Ok? ==>
      var (user, grant) := LoginCheck(a.config, a.db.users, a.db.grants, a.users.columns, payload, env).value;
      SignedIn(old(a.db.sessions), a.db.sessions, grant, env.session, r, user)
  {
    r := LoginByPassword(a, env, payload);
  }

  /** changePassword: password_grant_not_found without a password grant,
      otherwise the grant's own change. */
  method ChangePassword(a: Auth, env: Env, userId: int, oldPassword: string, password: string) returns (r: Result<(), AuthError>)
    requires a.Valid()
    modifies a.db`grants
    ensures a.Valid()
    ensures AuthGrant.FindWithPasswordByUserId(old(a.db.grants), userId).None? ==>
      r == Err(Build("password_grant_not_found", [])) && a.db.grants == old(a.db.grants)
    ensures AuthGrant.FindWithPasswordByUserId(old(a.db.grants), userId).Some? ==>
      var k := AuthGrant.FindWithPasswordByUserId(old(a.db.grants), userId).value;
      var changed := AuthGrant.ChangePassword(old(a.db.grants)[k], oldPassword, password, env.hash);
      (changed.Err? ==> r == Err(changed.error) && a.db.grants == old(a.db.grants))
      && (changed.Ok? ==> r.Ok? && a.db.grants == old(a.db.grants)[k := changed.value])
  {
    r := AuthPasswordTrait.ChangePassword(a, env, userId, oldPassword, password);
  }

  /** setPassword: a new grant from createWithPassword, whatever the user
      already has. */
  method SetPassword(a: Auth, env: Env, userId: int, password: string)
    requires a.Valid()
    modifies a.db`grants
    ensures a.Valid()
    ensures a.db.grants == old(a.db.grants)
      + [Grant(|old(a.db.grants)| + 1, userId, AuthGrant.PasswordSource, None, env.hash(password), None)]
  {
    var g := AuthGrant.CreateWithPassword(a.db, userId, password, env.hash);
  }
}
