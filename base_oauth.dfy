/**
 * The newer provider base class (Help/BaseOauth.php): a handler built from
 * the provider's default configuration and the configured one, which
 * resolves a login (access data, then user data), prepares the user data
 * once, and reads the user's key and the access token.
 *
 * The provider's network calls are the functions of a `Provider`:
 * `fetchAccess` and `fetchUserDataByAccess` stand for the requests each
 * source sends; `prepareData` is the source's reshaping, written out in the
 * source modules.
 */
module BaseOauth {
  import opened Wrappers
  import opened Php
  import opened Errors

  /** What a concrete source class contributes. */
  datatype Provider = Provider(
    sourceName: string,
    configDefault: PhpArray,
    keyField: string,
    fetchAccess: (PhpArray, string) -> Result<PhpArray, AuthError>,
    fetchUserDataByAccess: (PhpArray, PhpArray) -> Result<PhpArray, AuthError>,
    prepareData: PhpArray -> PhpArray,
    authLink: PhpArray -> string)

  // renameDataKeys

  /** One iteration of renameDataKeys: a key of the map is moved to its
      replacement (set, then unset); any other key is left alone. */
  function RenameOne(acc: PhpArray, e: Entry, renames: map<string, string>): PhpArray
  {
    if e.key in renames then Unset(Set(acc, renames[e.key], e.val), e.key) else acc
  }

  /** The iterations over the entries `es`, in order. The loop walks a copy
      of the array taken before it starts, so the entries are the original
      ones whatever the body writes. */
  function Renamed(acc: PhpArray, es: seq<Entry>, renames: map<string, string>): PhpArray
  {
    if |es| == 0 then acc
    else RenameOne(Renamed(acc, es[..|es| - 1], renames), es[|es| - 1], renames)
  }

  /** renameDataKeys, on the array passed by reference. */
  method RenameDataKeys(data: PhpArray, renames: map<string, string>) returns (out: PhpArray)
    ensures out == Renamed(data, data, renames)
  {
    out := data;
    var i := 0;
    while i < |data|
      invariant 0 <= i <= |data|
      invariant out == Renamed(data, data[..i], renames)
    {
      assert data[..i + 1][..i] == data[..i];
      out := RenameOne(out, data[i], renames);
      i := i + 1;
    }
    assert data[..|data|] == data;
  }

  /** The maps the sources declare: no replacement is itself renamed, and no
      two keys share a replacement. */
  predicate NoChains(renames: map<string, string>)
  {
    (forall k :: k in renames ==> renames[k] !in renames)
    && (forall k, k' :: k in renames && k' in renames && k != k' ==> renames[k] != renames[k'])
  }

  /** A key that is neither renamed nor a replacement keeps its value. */
  lemma {:induction false} RenameLeavesOthers(acc: PhpArray, es: seq<Entry>, renames: map<string, string>, j: string)
    requires j !in renames && j !in renames.Values
    ensures Lookup(Renamed(acc, es, renames), j) == Lookup(acc, j)
  {
    if |es| > 0 {
      RenameLeavesOthers(acc, es[..|es| - 1], renames, j);
      var e := es[|es| - 1];
      if e.key in renames {
        assert renames[e.key] in renames.Values;
      }
    }
  }

  /** A renamed entry's value ends under its replacement and its own key is
      gone, provided no other entry has the same key. */
  lemma {:induction false} RenameMoves(acc: PhpArray, es: seq<Entry>, renames: map<string, string>, i: nat)
    requires NoChains(renames) && i < |es| && es[i].key in renames
    requires forall m :: 0 <= m < |es| && m != i ==> es[m].key != es[i].key
    ensures Lookup(Renamed(acc, es, renames), renames[es[i].key]) == Some(es[i].val)
    ensures Lookup(Renamed(acc, es, renames), es[i].key) == None
  {
    var k := es[i].key;
    var last := |es| - 1;
    if i < last {
      var prefix := es[..last];
      assert prefix[i] == es[i];
      forall m | 0 <= m < |prefix| && m != i
        ensures prefix[m].key != prefix[i].key
      {
        assert prefix[m] == es[m];
      }
      RenameMoves(acc, prefix, renames, i);
      assert es[last].key != k;
    }
  }

  /** renameDataKeys on a PHP array: every key found in the map moves to
      its replacement with its value, and every key neither renamed nor a
      replacement is untouched. */
  lemma RenamedData(data: PhpArray, renames: map<string, string>, k: string)
    requires NoChains(renames) && KeysDistinct(data)
    ensures k in renames && Lookup(data, k).Some? ==>
      Lookup(Renamed(data, data, renames), renames[k]) == Lookup(data, k)
      && Lookup(Renamed(data, data, renames), k) == None
    ensures k !in renames && k !in renames.Values ==>
      Lookup(Renamed(data, data, renames), k) == Lookup(data, k)
  {
    if k in renames && Lookup(data, k).Some? {
      var i := LookupIndex(data, k);
      forall m | 0 <= m < |data| && m != i
        ensures data[m].key != data[i].key
      {
        DistinctKeysAt(data, m, i);
      }
      RenameMoves(data, data, renames, i);
    }
    if k !in renames && k !in renames.Values {
      RenameLeavesOthers(data, data, renames, k);
    }
  }

  /** `$x ?? null` read as `?string`: null stays null; a number is printed. */
  function AsOptionalString(v: Value): (r: Option<string>)
    ensures r.None? <==> v.Null?
  {
    if v.Null? then None else Some(ToStr(v))
  }

  /** fetchAccessByParams: the request's code must be present and
      non-empty (oauth_code_empty otherwise); it is handed to the provider's
      access request as a string. */
  function AccessByParams(p: Provider, config: PhpArray, params: PhpArray): (r: Result<PhpArray, AuthError>)
    ensures Empty(Get(params, "code")) ==> r == Err(Build("oauth_code_empty", [Str(p.sourceName)]))
    ensures !Empty(Get(params, "code")) && Get(params, "code").Arr? ==> r == Err(TypeError)
    ensures !Empty(Get(params, "code")) && !Get(params, "code").Arr? ==>
      r == p.fetchAccess(config, ToStr(Get(params, "code")))
  {
    var code := Get(params, "code");
    if Empty(code) then Err(Build("oauth_code_empty", [Str(p.sourceName)]))
    else
      match StringArgument(code)
      case Err(e) => Err(e)
      case Ok(c) => p.fetchAccess(config, c)
  }

  /** The two fetches of resolveLogin: access data from the request's code,
      then user data from the access data; the first failure is raised. */
  function Resolve(p: Provider, config: PhpArray, payload: PhpArray): (r: Result<(PhpArray, PhpArray), AuthError>)
    ensures AccessByParams(p, config, payload).Err? ==> r == Err(AccessByParams(p, config, payload).error)
    ensures r.Ok? <==> (AccessByParams(p, config, payload).Ok?
      && p.fetchUserDataByAccess(config, AccessByParams(p, config, payload).value).Ok?)
    ensures r.Ok? ==> (AccessByParams(p, config, payload) == Ok(r.value.0)
      && p.fetchUserDataByAccess(config, r.value.0) == Ok(r.value.1))
  {
    match AccessByParams(p, config, payload)
      case Err(e) => Err(e)
      case Ok(access) =>
        match p.fetchUserDataByAccess(config, access)
        case Err(e) => Err(e)
        case Ok(user) => Ok((access, user))
  }

  class Oauth {
    const provider: Provider
    const config: PhpArray
    var accessData: Option<PhpArray>
    var userData: Option<PhpArray>
    var preparedData: Option<PhpArray>

    /** The provider's defaults merged recursively with the given config;
        nothing fetched yet. */
    constructor (provider: Provider, config: PhpArray)
      ensures this.provider == provider && this.config == MergeRecursive(provider.configDefault, config)
      ensures accessData == None && userData == None && preparedData == None
    {
      this.provider := provider;
      this.config := MergeRecursive(provider.configDefault, config);
      accessData, userData, preparedData := None, None, None;
    }

    /** fetchAccessByParams, with this handler's provider and config. */
    method FetchAccessByParams(params: PhpArray) returns (r: Result<PhpArray, AuthError>)
      ensures r == AccessByParams(provider, config, params)
    {
      var code := Get(params, "code");
      if Empty(code) {
        return Err(Build("oauth_code_empty", [Str(provider.sourceName)]));
      }
      var c := StringArgument(code);
      if c.Err? {
        return Err(c.error);
      }
      r := provider.fetchAccess(config, c.value);
    }

    /** resolveLogin: access data first, then user data from it. A failing
        fetch raises; access data already fetched stays stored. */
    method ResolveLogin(payload: PhpArray) returns (r: Result<(), AuthError>)
      modifies this`accessData, this`userData
      ensures r.Ok? <==> Resolve(provider, config, payload).Ok?
      ensures r.Err? ==> r.error == Resolve(provider, config, payload).error && userData == old(userData)
      ensures r.Ok? ==> (accessData == Some(Resolve(provider, config, payload).value.0)
        && userData == Some(Resolve(provider, config, payload).value.1))
    {
      var access := FetchAccessByParams(payload);
      if access.Err? {
        return Err(access.error);
      }
      accessData := Some(access.value);
      var user := provider.fetchUserDataByAccess(config, access.value);
      if user.Err? {
        return Err(user.error);
      }
      userData := Some(user.value);
      r := Ok(());
    }

    /** getData: the prepared data, computed from the user data on the first
        call and whenever the cached result is empty. */
    method GetData() returns (d: PhpArray)
      requires userData.Some?
      modifies this`preparedData
      ensures preparedData == Some(d)
      ensures old(preparedData).Some? && |old(preparedData).value| > 0 ==> d == old(preparedData).value
      ensures !(old(preparedData).Some? && |old(preparedData).value| > 0) ==> d == provider.prepareData(userData.value)
    {
      if preparedData.None? || |preparedData.value| == 0 {
        preparedData := Some(provider.prepareData(userData.value));
      }
      d := preparedData.value;
    }

    /** getSourceKey: the user data's key field (`id`, or `email` for the
        newer Google source); null before resolveLogin. */
    function GetSourceKey(): (r: Option<string>)
      reads this
      ensures userData.None? ==> r.None?
      ensures userData.Some? ==> (r.Some? <==> Get(userData.value, provider.keyField) != Null)
    {
      if userData.None? then None else AsOptionalString(Get(userData.value, provider.keyField))
    }

    /** getAccessToken: the access data's `access_token`. */
    function GetAccessToken(): (r: Option<string>)
      reads this
      ensures accessData.None? ==> r.None?
      ensures accessData.Some? ==> (r.Some? <==> Get(accessData.value, "access_token") != Null)
    {
      if accessData.None? then None else AsOptionalString(Get(accessData.value, "access_token"))
    }
  }

  /** Asking for the prepared data twice gives the same data without a
      second preparation, once the first result is non-empty. */
  method GetDataTwice(o: Oauth) returns (first: PhpArray, second: PhpArray)
    requires o.userData.Some?
    modifies o`preparedData
    ensures |first| > 0 ==> second == first
  {
    first := o.GetData();
    second := o.GetData();
  }
}
