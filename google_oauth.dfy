/**
 * The newer Google source (Sources/GoogleOauth.php): its key map and
 * defaults, the checks on the token exchange's answer and on the
 * tokeninfo answer, the user key (the e-mail) and prepareData, which only
 * renames keys.
 *
 * `post` stands for the curl POST of the token exchange: None for an empty
 * response, otherwise the parsed body or the message of the exception
 * parsing raised. `query` stands for BaseOauth::queryApi.
 */
module GoogleOauth {
  import opened Wrappers
  import opened Php
  import opened Errors
  import opened BaseOauth

  const SourceName := "google.com"

  /** USER_DATA_KEYS_REPLACES. */
  const Replaces: map<string, string> := map["given_name" := "first_name", "family_name" := "last_name"]

  /** configDefault. */
  const ConfigDefault: PhpArray := [
    Entry("response_type", Str("code")), Entry("scope", Str("profile email openid")),
    Entry("access_type", Str("offline")), Entry("include_granted_scopes", Str("true")),
    Entry("grant_type", Str("authorization_code"))]

  lemma ReplacesNoChains()
    ensures NoChains(Replaces)
  {
    assert Replaces.Keys == {"given_name", "family_name"};
  }

  /** `(array) $v`: an array stays itself, any other value is wrapped. */
  function CastToArray(v: Value): (r: PhpArray)
    ensures v.Arr? ==> r == v.entries
    ensures !v.Arr? ==> r == [Entry("0", v)]
  {
    if v.Arr? then v.entries else [Entry("0", v)]
  }

  /** fetchAccess's checks: an empty response or an empty body raise
      oauth_empty_access, a body that cannot be parsed raises
      oauth_error_response with the parser's message; otherwise the body,
      as an array, is the access data. */
  function FetchAccessChecked(response: Option<Result<Value, string>>): (r: Result<PhpArray, AuthError>)
    ensures response.None? ==> r == Err(Build("oauth_empty_access", [Str(SourceName)]))
    ensures response.Some? && response.value.Err? ==>
      r == Err(Build("oauth_error_response", [Str(SourceName), Str(response.value.error)]))
    ensures response.Some? && response.value.Ok? ==>
      (r.Ok? <==> !Empty(response.value.value))
      && (r.Err? ==> r.error == Build("oauth_empty_access", [Str(SourceName)]))
      && (r.Ok? ==> r.value == CastToArray(response.value.value) && |r.value| > 0)
  {
    match response
    case None => Err(Build("oauth_empty_access", [Str(SourceName)]))
    case Some(Err(message)) => Err(Build("oauth_error_response", [Str(SourceName), Str(message)]))
    case Some(Ok(data)) => if Empty(data) then Err(Build("oauth_empty_access", [Str(SourceName)])) else Ok(CastToArray(data))
  }

  /** `extract($accessData)` then `compact('access_token', 'id_token',
      'token_type', 'expires_in')`: those of the four keys the access data
      holds, in that order, with their values. */
  function TokenInfoQuery(access: PhpArray): (q: PhpArray)
    ensures forall k :: k in Keys(q) <==> k in ["access_token", "id_token", "token_type", "expires_in"] && k in Keys(access)
    ensures forall k :: k in Keys(q) ==> Lookup(q, k) == Lookup(access, k)
  {
    Picked(access, ["access_token", "id_token", "token_type", "expires_in"])
  }

  /** The entries of `a` under `names`, in the order of `names`. */
  function Picked(a: PhpArray, names: seq<string>): (q: PhpArray)
    ensures forall k :: k in Keys(q) <==> k in names && k in Keys(a)
    ensures forall k :: k in Keys(q) ==> Lookup(q, k) == Lookup(a, k)
  {
    if |names| == 0 then []
    else
      var rest := Picked(a, names[1..]);
      match Lookup(a, names[0])
      case None => rest
      case Some(v) => [Entry(names[0], v)] + rest
  }

  /** fetchUserDataByAccess: the tokeninfo answer, oauth_empty_user_data
      when it is empty. */
  function FetchUserDataByAccess(access: PhpArray, query: (string, PhpArray) -> Result<PhpArray, AuthError>)
    : (r: Result<PhpArray, AuthError>)
    ensures var answer := query("tokeninfo", TokenInfoQuery(access));
      (answer.Err? ==> r == answer)
      && (answer.Ok? && |answer.value| == 0 ==> r == Err(Build("oauth_empty_user_data", [Str(SourceName)])))
      && (answer.Ok? && |answer.value| > 0 ==> r == answer)
  {
    match query("tokeninfo", TokenInfoQuery(access))
    case Err(e) => Err(e)
    case Ok(data) => if Empty(Arr(data)) then Err(Build("oauth_empty_user_data", [Str(SourceName)])) else Ok(data)
  }

  /** prepareData: the user data with its keys renamed. */
  function PrepareData(user: PhpArray): PhpArray
  {
    Renamed(user, user, Replaces)
  }

  /** The source as the newer flows see it; its user key is the e-mail. */
  function Source(post: (PhpArray, string) -> Option<Result<Value, string>>,
                  query: (string, PhpArray) -> Result<PhpArray, AuthError>,
                  authLink: PhpArray -> string): (p: Provider)
    ensures p.sourceName == SourceName && p.keyField == "email" && p.configDefault == ConfigDefault
  {
    Provider(SourceName, ConfigDefault, "email",
             (config, code) => FetchAccessChecked(post(config, code)),
             (config, access) => FetchUserDataByAccess(access, query),
             PrepareData, authLink)
  }

  /** prepareData renames given_name to first_name and family_name to
      last_name, keeping the values, and leaves every other key alone. */
  lemma {:induction false} PreparedKeys(user: PhpArray, k: string)
    requires KeysDistinct(user)
    ensures Lookup(user, "given_name").Some? ==>
      Lookup(PrepareData(user), "first_name") == Lookup(user, "given_name")
      && Lookup(PrepareData(user), "given_name") == None
    ensures Lookup(user, "family_name").Some? ==>
      Lookup(PrepareData(user), "last_name") == Lookup(user, "family_name")
      && Lookup(PrepareData(user), "family_name") == None
    ensures k !in {"given_name", "family_name", "first_name", "last_name"} ==>
      Lookup(PrepareData(user), k) == Lookup(user, k)
  {
    ReplacesNoChains();
    RenamedData(user, Replaces, "given_name");
    RenamedData(user, Replaces, "family_name");
    assert Replaces.Values == {"first_name", "last_name"};
    RenamedData(user, Replaces, k);
  }

  /** A handler of this source is keyed by the user's e-mail. */
  lemma SourceKeyIsEmail(o: Oauth, post: (PhpArray, string) -> Option<Result<Value, string>>,
                         query: (string, PhpArray) -> Result<PhpArray, AuthError>, authLink: PhpArray -> string)
    requires o.provider == Source(post, query, authLink) && o.userData.Some?
    ensures o.GetSourceKey() == AsOptionalString(Get(o.userData.value, "email"))
  {
  }

  /** The defaults a handler keeps for every setting its configuration
      leaves out: the code flow, the three scopes, offline access and the
      authorization-code grant. */
  lemma DefaultsKept(config: PhpArray, k: string)
    requires KeysDistinct(config) && !IsIntKey(k) && k !in Keys(config)
    ensures Lookup(MergeRecursive(ConfigDefault, config), k) == Lookup(ConfigDefault, k)
  {
    MergeKeepsOtherKeys(ConfigDefault, config, k);
  }
}
