/**
 * The older static copy of the foreign sign-in (Actions/ForeignAuth.php).
 * Its `Auth::` calls go through the facade to the one Auth instance and
 * run the same statements as the newer trait.
 */
module ForeignAuth {
  import opened Wrappers
  import opened Php
  import opened Errors
  import opened Auth
  import opened BaseOauth
  import opened AuthForeignTrait

  /** getLink: the handler's auth link after getOauth's guards. */
  function GetLink(config: PhpArray, source: string, providerOf: string -> Option<Provider>) : (r: Result<string, AuthError>)
    ensures !HasForeigns(config) ==> r == Err(TypeError)
    ensures Unsupported(config, source) ==> r == Err(Build("auth_not_supported", [Str(source)]))
    ensures GetOauth(config, source).Err? ==> r == Err(GetOauth(config, source).error)
    ensures r.Ok? <==> Handler(config, source, providerOf).Ok?
    ensures r.Ok? ==> r.value == Handler(config, source, providerOf).value.0.authLink(Handler(config, source, providerOf).value.1)
  {
    GetForeignLoginLink(config, source, providerOf)
  }

  /** login: the writes of the foreign plan, a session for its grant, and
      the grant's user id. */
  method Login(a: Auth, env: Env, source: string, payload: PhpArray, providerOf: string -> Option<Provider>)
    returns (r: Result<int, AuthError>)
    requires a.Valid() && EnvValid(env)
    modifies a.db`users, a.db`grants, a.db`sessions
    ensures a.Valid()
    ensures old(PlanOf(a, env, source, payload, providerOf)).Err? ==>
      r == Err(old(PlanOf(a, env, source, payload, providerOf)).error)
      && a.db.users == old(a.db.users) && a.db.grants == old(a.db.grants) && a.db.sessions == old(a.db.sessions)
    ensures old(PlanOf(a, env, source, payload, providerOf)).Ok? ==>
      var plan := old(PlanOf(a, env, source, payload, providerOf)).value;
      a.db.users == plan.users && a.db.grants == plan.grants
      && SignedIn(old(a.db.sessions), a.db.sessions, plan.grant, env.session, r, plan.grant.userId)
  {
    r := LoginByForeign(a, env, source, payload, providerOf);
  }
}
