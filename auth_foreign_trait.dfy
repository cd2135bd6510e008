/**
 * Sign-in through an outside provider (Traits/AuthForeignTrait.php): the
 * handler getOauth builds, the provider exchange, then the grant of the
 * provider's user key (found, or made together with a new user) and a
 * session for it.
 *
 * `providerOf` says which provider a configured handler class is; a class
 * name it does not know is a class PHP cannot find.
 */
module AuthForeignTrait {
  import opened Wrappers
  import opened Php
  import opened Errors
  import opened Records
  import opened Database
  import opened Auth
  import opened BaseOauth
  import LoginUser
  import AuthGrant

  /** `new $oauthClass($config)` after getOauth's guards: the class must
      exist and the config must be an array (the constructor's parameter
      type); the handler's config is the provider defaults merged with it. */
  function Handler(config: PhpArray, source: string, providerOf: string -> Option<Provider>)
    : (r: Result<(Provider, PhpArray), AuthError>)
    ensures GetOauth(config, source).Err? ==> r == Err(GetOauth(config, source).error)
    ensures r.Ok? <==> (GetOauth(config, source).Ok?
      && providerOf(GetOauth(config, source).value.className).Some?
      && GetOauth(config, source).value.config.Arr?)
    ensures r.Ok? ==> (providerOf(GetOauth(config, source).value.className) == Some(r.value.0)
      && r.value.1 == MergeRecursive(r.value.0.configDefault, GetOauth(config, source).value.config.entries))
  {
    match GetOauth(config, source)
    case Err(e) => Err(e)
    case Ok(h) =>
      match providerOf(h.className)
      case None => Err(UndefinedClass(h.className))
      case Some(p) =>
        if h.config.Arr? then Ok((p, MergeRecursive(p.configDefault, h.config.entries))) else Err(TypeError)
  }

  /** getForeignLoginLink: the handler's auth link, after getOauth's guards. */
  function GetForeignLoginLink(config: PhpArray, source: string, providerOf: string -> Option<Provider>)
    : (r: Result<string, AuthError>)
    ensures !HasForeigns(config) ==> r == Err(TypeError)
    ensures Unsupported(config, source) ==> r == Err(Build("auth_not_supported", [Str(source)]))
    ensures GetOauth(config, source).Err? ==> r == Err(GetOauth(config, source).error)
    ensures r.Ok? <==> Handler(config, source, providerOf).Ok?
    ensures r.Ok? ==> r.value == Handler(config, source, providerOf).value.0.authLink(Handler(config, source, providerOf).value.1)
  {
    match Handler(config, source, providerOf)
    case Err(e) => Err(e)
    case Ok(h) => Ok(h.0.authLink(h.1))
  }

  /** What a foreign sign-in leaves in the users and grants tables, the
      grant it signs in with and the access token it hands to the session. */
  datatype ForeignOutcome = ForeignOutcome(users: seq<User>, grants: seq<Grant>, grant: Grant, accessToken: Option<string>)

  /** The user key and access token of a resolved exchange. */
  function SourceKeyOf(p: Provider, fetched: (PhpArray, PhpArray)): Option<string>
  {
    AsOptionalString(Get(fetched.1, p.keyField))
  }

  /** The grant step of loginByForeign: the grant found for (source, key),
      or, once the user model checks out, a new user with the prepared data
      and a new grant of the key for it. */
  function GrantStep(config: PhpArray, users: seq<User>, grants: seq<Grant>, source: string, key: Option<string>,
                     data: PhpArray, token: Option<string>, implements: string -> bool)
    : (r: Result<ForeignOutcome, AuthError>)
    ensures AuthGrant.FindForeign(grants, source, key).Some? ==>
      r == Ok(ForeignOutcome(users, grants, grants[AuthGrant.FindForeign(grants, source, key).value], token))
    ensures AuthGrant.FindForeign(grants, source, key).None? ==>
      (r.Ok? <==> UserModelName(config, implements).Ok?)
      && (r.Err? ==> r.error == UserModelName(config, implements).error)
      && (r.Ok? ==> (r.value.users == users + [User(|users| + 1, data)]
          && r.value.grant == Grant(|grants| + 1, |users| + 1, source, key, "", None)
          && r.value.grants == grants + [r.value.grant] && r.value.accessToken == token))
    ensures r.Ok? ==> r.value.grant in r.value.grants && r.value.grant.source == source
  {
    match AuthGrant.FindForeign(grants, source, key)
    case Some(k) => Ok(ForeignOutcome(users, grants, grants[k], token))
    case None =>
      match UserModelName(config, implements)
      case Err(e) => Err(e)
      case Ok(_) =>
        var g := Grant(|grants| + 1, |users| + 1, source, key, "", None);
        Ok(ForeignOutcome(users + [User(|users| + 1, data)], grants + [g], g, token))
  }

  /** loginByForeign up to the session: getOauth, the exchange, then the
      grant step with the user's key, the prepared user data and the access
      token. */
  function ForeignPlan(config: PhpArray, users: seq<User>, grants: seq<Grant>, source: string, payload: PhpArray,
                       providerOf: string -> Option<Provider>, implements: string -> bool)
    : (r: Result<ForeignOutcome, AuthError>)
    ensures GetOauth(config, source).Err? ==> r == Err(GetOauth(config, source).error)
    ensures r.Ok? ==> r.value.grant in r.value.grants && r.value.grant.source == source
  {
    match Handler(config, source, providerOf)
    case Err(e) => Err(e)
    case Ok(h) =>
      match Resolve(h.0, h.1, payload)
      case Err(e) => Err(e)
      case Ok(fetched) =>
        GrantStep(config, users, grants, source, SourceKeyOf(h.0, fetched), h.0.prepareData(fetched.1),
                  AsOptionalString(Get(fetched.0, "access_token")), implements)
  }

  /** The plan for the facade's current state. */
  function PlanOf(a: Auth, env: Env, source: string, payload: PhpArray, providerOf: string -> Option<Provider>)
    : Result<ForeignOutcome, AuthError>
    reads a, a.db
  {
    ForeignPlan(a.config, a.db.users, a.db.grants, source, payload, providerOf, env.implements)
  }

  /** A second sign-in with the same exchange results finds the grant the
      first one made: no second user, no second grant, the same user id.
      A provider that reports no user key gets a new user every time. */
  lemma {:induction false} ForeignLoginTwice(config: PhpArray, users: seq<User>, grants: seq<Grant>, source: string,
                                             payload: PhpArray, providerOf: string -> Option<Provider>,
                                             implements: string -> bool)
    requires ForeignPlan(config, users, grants, source, payload, providerOf, implements).Ok?
    ensures var first := ForeignPlan(config, users, grants, source, payload, providerOf, implements).value;
      var second := ForeignPlan(config, first.users, first.grants, source, payload, providerOf, implements);
      first.grant.login.Some? ==>
        second.Ok? && second.value.users == first.users && second.value.grants == first.grants
        && second.value.grant.userId == first.grant.userId
  {
    var first := ForeignPlan(config, users, grants, source, payload, providerOf, implements).value;
    var h := Handler(config, source, providerOf).value;
    var fetched := Resolve(h.0, h.1, payload).value;
    var key := SourceKeyOf(h.0, fetched);
    if first.grant.login.Some? {
      match AuthGrant.FindForeign(grants, source, key)
      case Some(k) =>
      case None =>
        AuthGrant.MadeForeignIsFound(grants, first.grant, source, key.value);
        assert first.grants[|grants|] == first.grant;
    }
  }

  /** The handler with the exchange done: the access and user data stored,
      nothing prepared yet. */
  method Connect(config: PhpArray, source: string, payload: PhpArray, providerOf: string -> Option<Provider>)
    returns (r: Result<Oauth, AuthError>)
    ensures Handler(config, source, providerOf).Err? ==> r == Err(Handler(config, source, providerOf).error)
    ensures Handler(config, source, providerOf).Ok? ==> (
      var h := Handler(config, source, providerOf).value;
      (r.Ok? <==> Resolve(h.0, h.1, payload).Ok?)
      && (r.Err? ==> r.error == Resolve(h.0, h.1, payload).error)
      && (r.Ok? ==> (fresh(r.value) && r.value.provider == h.0 && r.value.config == h.1
          && r.value.accessData == Some(Resolve(h.0, h.1, payload).value.0)
          && r.value.userData == Some(Resolve(h.0, h.1, payload).value.1)
          && r.value.preparedData == None)))
  {
    var h := Handler(config, source, providerOf);
    if h.Err? {
      return Err(h.error);
    }
    var oauth := new Oauth(h.value.0, GetOauth(config, source).value.config.entries);
    var resolved := oauth.ResolveLogin(payload);
    if resolved.Err? {
      return Err(resolved.error);
    }
    r := Ok(oauth);
  }

  /** The grant to sign in with: the one found for the source key, or a new
      user (from the prepared data) and a new grant for it. */
  method ForeignGrant(a: Auth, env: Env, source: string, oauth: Oauth) returns (r: Result<Grant, AuthError>)
    requires a.Valid() && oauth.userData.Some? && oauth.preparedData == None
    modifies a.db`users, a.db`grants, oauth`preparedData
    ensures a.Valid()
    ensures var step := GrantStep(a.config, old(a.db.users), old(a.db.grants), source, oauth.GetSourceKey(),
                                  oauth.provider.prepareData(oauth.userData.value), oauth.GetAccessToken(), env.implements);
      (r.Ok? <==> step.Ok?)
      && (r.Err? ==> r.error == step.error && a.db.users == old(a.db.users) && a.db.grants == old(a.db.grants))
      && (r.Ok? ==> r.value == step.value.grant && a.db.users == step.value.users && a.db.grants == step.value.grants)
  {
    var key := oauth.GetSourceKey();
    var found := AuthGrant.FindForeign(a.db.grants, source, key);
    if found.Some? {
      return Ok(a.db.grants[found.value]);
    }
    var data := oauth.GetData();
    var model := UserModelName(a.config, env.implements);
    if model.Err? {
      return Err(model.error);
    }
    var user := LoginUser.InsertByForeign(a.db, source, data);
    var grant := AuthGrant.MakeForeign(a.db, user.id, source, key);
    r := Ok(grant);
  }

  /** The session step of loginByForeign: a session for the grant's user;
      the result is that user id. */
  method SignInWithGrant(a: Auth, env: Env, grant: Grant, accessToken: Option<string>) returns (r: Result<int, AuthError>)
    requires a.Valid() && EnvValid(env)
    modifies a.db`sessions
    ensures a.Valid()
    ensures SignedIn(old(a.db.sessions), a.db.sessions, grant, env.session, r, grant.userId)
  {
    var session, _ := a.MakeSession(grant, accessToken, env.session);
    if session.Err? {
      return Err(session.error);
    }
    r := Ok(grant.userId);
  }

  /** loginByForeign: the plan's writes, then a session for its grant; the
      result is the grant's user id. */
  method LoginByForeign(a: Auth, env: Env, source: string, payload: PhpArray, providerOf: string -> Option<Provider>)
    returns (r: Result<int, AuthError>)
    requires a.Valid() && EnvValid(env)
    modifies a.db`users, a.db`grants, a.db`sessions
    ensures a.Valid()
    ensures old(PlanOf(a, env, source, payload, providerOf)).Err? ==>
      r == Err(old(PlanOf(a, env, source, payload, providerOf)).error)
      && a.db.users == old(a.db.users) && a.db.grants == old(a.db.grants) && a.db.sessions == old(a.db.sessions)
    ensures old(PlanOf(a, env, source, payload, providerOf)).Ok? ==>
      var plan := old(PlanOf(a, env, source, payload, providerOf)).value;
      a.db.users == plan.users && a.db.grants == plan.grants
      && SignedIn(old(a.db.sessions), a.db.sessions, plan.grant, env.session, r, plan.grant.userId)
  {
    var oauth := Connect(a.config, source, payload, providerOf);
    if oauth.Err? {
      return Err(oauth.error);
    }
    var o := oauth.value;
    ghost var h := Handler(a.config, source, providerOf).value;
    ghost var fetched := Resolve(h.0, h.1, payload).value;
    assert o.GetSourceKey() == SourceKeyOf(h.0, fetched);
    assert old(PlanOf(a, env, source, payload, providerOf))
      == GrantStep(a.config, a.db.users, a.db.grants, source, o.GetSourceKey(), o.provider.prepareData(o.userData.value),
                   o.GetAccessToken(), env.implements);
    r := LoginWithHandler(a, env, source, o);
  }

  /** loginByForeign once the handler holds the exchange: the grant step,
      then the session step. */
  method LoginWithHandler(a: Auth, env: Env, source: string, o: Oauth) returns (r: Result<int, AuthError>)
    requires a.Valid() && EnvValid(env) && o.userData.Some? && o.preparedData == None
    modifies a.db`users, a.db`grants, a.db`sessions, o`preparedData
    ensures a.Valid()
    ensures var step := GrantStep(a.config, old(a.db.users), old(a.db.grants), source, old(o.GetSourceKey()),
                                  o.provider.prepareData(o.userData.value), old(o.GetAccessToken()), env.implements);
      (step.Err? ==> (r == Err(step.error)
        && a.db.users == old(a.db.users) && a.db.grants == old(a.db.grants) && a.db.sessions == old(a.db.sessions)))
      && (step.Ok? ==> (a.db.users == step.value.users && a.db.grants == step.value.grants
            && SignedIn(old(a.db.sessions), a.db.sessions, step.value.grant, env.session, r, step.value.grant.userId)))
  {
    var token := o.GetAccessToken();
    var grant := ForeignGrant(a, env, source, o);
    if grant.Err? {
      return Err(grant.error);
    }
    r := SignInWithGrant(a, env, grant.value, token);
  }
}
