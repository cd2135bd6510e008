/**
 * The older providers' base class (Helpers/BaseApi.php): the link builder
 * every older source uses for its authorization and API links, the check
 * of the request's access code, and the static configuration slot.
 *
 * Sending requests (`exec`, `query`, `curl`, `execCurl`) is network I/O and
 * is not part of this model; a source's `access` request is a function
 * parameter.
 */
module BaseApi {
  import opened Wrappers
  import opened Php
  import opened Errors
  import ApiConfig

  /** ERROR_OAUTH_CODE_EMPTY. */
  const ErrorOauthCodeEmpty: string := "Код доступа не получен"

  // buildLink

  /** One `name=value` pair of the query: both sides url-encoded. An array
      value is refused by `urlencode`. */
  function Pair(e: Entry): (r: Result<string, AuthError>)
    ensures r.Err? <==> e.val.Arr?
    ensures r.Err? ==> r.error == TypeError
  {
    if e.val.Arr? then Err(TypeError)
    else Ok(Urlencode(e.key) + "=" + Urlencode(ToStr(e.val)))
  }

  /** The pairs of all parameters, in order; the first array value stops
      the link. */
  function Pairs(params: PhpArray): (r: Result<seq<string>, AuthError>)
    ensures r.Ok? <==> forall j :: 0 <= j < |params| ==> !params[j].val.Arr?
    ensures r.Err? ==> r.error == TypeError
    ensures r.Ok? ==> (|r.value| == |params|
      && forall j :: 0 <= j < |params| ==> Pair(params[j]) == Ok(r.value[j]))
  {
    if |params| == 0 then Ok([])
    else
      match Pair(params[0])
      case Err(e) => Err(e)
      case Ok(p) =>
        var tail := params[1..];
        assert forall j :: 1 <= j < |params| ==> params[j] == tail[j - 1];
        match Pairs(tail)
        case Err(e) => Err(e)
        case Ok(rest) => Ok([p] + rest)
  }

  /** Pairs grows by one pair when the parameters grow by one entry. */
  lemma {:induction false} PairsSnoc(params: PhpArray, p: string)
    requires |params| > 0 && Pair(params[|params| - 1]) == Ok(p)
    requires Pairs(params[..|params| - 1]).Ok?
    ensures Pairs(params) == Ok(Pairs(params[..|params| - 1]).value + [p])
  {
    var init := params[..|params| - 1];
    if |params| == 1 {
      assert params[1..] == [] && init == [];
      assert Pairs(params[1..]) == Ok([]) && Pairs(init) == Ok([]);
      assert params[0] == params[|params| - 1];
      assert Pairs(params) == Ok([p] + []);
      assert [p] + [] == [] + [p];
    } else {
      var tail := params[1..];
      assert tail[..|tail| - 1] == init[1..];
      assert tail[|tail| - 1] == params[|params| - 1];
      assert init[0] == params[0];
      PairsSnoc(tail, p);
      var first := Pair(params[0]).value;
      assert Pairs(init) == Ok([first] + Pairs(init[1..]).value);
      assert [first] + (Pairs(init[1..]).value + [p]) == ([first] + Pairs(init[1..]).value) + [p];
    }
  }

  /** The query part for the given pairs: nothing for no pairs, otherwise a
      '?' and the pairs joined by '&'. */
  function Query(pairs: seq<string>): string
  {
    if |pairs| == 0 then "" else "?" + Implode("&", pairs)
  }

  /** buildLink's result. */
  function Link(uri: string, params: PhpArray): (r: Result<string, AuthError>)
    ensures |params| == 0 ==> r == Ok(uri)
    ensures r.Ok? <==> Pairs(params).Ok?
    ensures r.Err? ==> r.error == TypeError
  {
    match Pairs(params)
    case Err(e) => Err(e)
    case Ok(ps) => assert uri + "" == uri; Ok(uri + Query(ps))
  }

  /** One more pair continues the query with '&', or starts it with '?'. */
  lemma QueryStep(pairs: seq<string>, p: string)
    ensures Query(pairs + [p]) == Query(pairs) + (if |pairs| > 0 then "&" else "?") + p
  {
    if |pairs| > 0 {
      ImplodeSnoc("&", pairs, p);
    } else {
      assert pairs + [p] == [p];
    }
  }

  /** buildLink: the loop appends '?' before the first pair and '&' before
      every later one, after the unchanged uri. */
  method BuildLink(uri: string, params: PhpArray) returns (r: Result<string, AuthError>)
    ensures r == Link(uri, params)
  {
    var i := 0;
    var query := "";
    assert Pairs(params[..0]) == Ok([]);
    while i < |params|
      invariant 0 <= i <= |params|
      invariant Pairs(params[..i]).Ok? && query == Query(Pairs(params[..i]).value)
    {
      var p := Pair(params[i]);
      if p.Err? {
        assert !Pairs(params).Ok?;
        return Err(p.error);
      }
      ghost var done := Pairs(params[..i]).value;
      assert |done| == i;
      assert params[..i + 1][..i] == params[..i];
      PairsSnoc(params[..i + 1], p.value);
      QueryStep(done, p.value);
      query := query + (if i > 0 then "&" else "?") + p.value;
      i := i + 1;
    }
    assert params[..i] == params;
    r := Ok(uri + query);
  }

  /** A built link parses back: after the uri comes '?', the query splits on
      '&' into one piece per parameter, and each piece splits on '=' into
      the encoded name and the encoded value. No encoded text holds '&',
      '=' or '?', so the separators the loop wrote are the only ones. */
  lemma {:induction false} LinkParses(uri: string, params: PhpArray)
    requires Link(uri, params).Ok? && |params| > 0
    ensures |Link(uri, params).value| > |uri|
    ensures Link(uri, params).value[..|uri|] == uri
    ensures Link(uri, params).value[|uri|] == '?'
    ensures var pieces := Explode('&', Link(uri, params).value[|uri| + 1..]);
      |pieces| == |params|
      && forall j :: 0 <= j < |params| ==>
        Explode('=', pieces[j]) == [Urlencode(params[j].key), Urlencode(ToStr(params[j].val))]
  {
    var ps := Pairs(params).value;
    var link := Link(uri, params).value;
    assert link == uri + "?" + Implode("&", ps);
    assert link[|uri| + 1..] == Implode("&", ps);
    forall j | 0 <= j < |ps|
      ensures '&' !in ps[j]
      ensures Explode('=', ps[j]) == [Urlencode(params[j].key), Urlencode(ToStr(params[j].val))]
    {
      var name := Urlencode(params[j].key);
      var value := Urlencode(ToStr(params[j].val));
      assert ps[j] == name + "=" + value;
      assert !UrlSafe('&') && !UrlSafe('=');
      assert Implode("=", [name, value]) == ps[j] by {
        assert [name, value][1..] == [value];
      }
      ExplodeImplode('=', [name, value]);
    }
    ExplodeImplode('&', ps);
  }

  // accessByParams

  /** accessByParams: the code taken out of the request parameters must be
      non-empty (ERROR_OAUTH_CODE_EMPTY otherwise); the source's access
      request receives it as a string. */
  function AccessByParams(params: PhpArray, access: string -> Result<PhpArray, AuthError>): (r: Result<PhpArray, AuthError>)
    ensures Empty(Get(params, "code")) ==> r == Err(Message(ErrorOauthCodeEmpty))
    ensures !Empty(Get(params, "code")) && Get(params, "code").Arr? ==> r == Err(TypeError)
    ensures !Empty(Get(params, "code")) && !Get(params, "code").Arr? ==> r == access(ToStr(Get(params, "code")))
  {
    var code := Get(params, "code");
    if Empty(code) then Err(Message(ErrorOauthCodeEmpty))
    else
      match StringArgument(code)
      case Err(e) => Err(e)
      case Ok(c) => access(c)
  }

  // config

  /** What `static::` resolves to in a source class: its name, CONFIG_PATH
      and CONFIG_DEFAULT. */
  datatype ApiSource = ApiSource(name: string, configPath: string, configDefault: PhpArray)

  /** A configuration built for `source` as `new ApiConfig(CONFIG_PATH,
      CONFIG_DEFAULT)` does: the file read once and laid over the defaults. */
  method NewConfig(source: ApiSource, fileData: Value) returns (r: Result<ApiConfig.ApiConfig, AuthError>)
    ensures r.Ok? <==> ApiConfig.LoadFailure(source.configPath, fileData).None?
    ensures r.Err? ==> r.error == ApiConfig.LoadFailure(source.configPath, fileData).value
    ensures r.Ok? ==> (fresh(r.value) && r.value.filepath == source.configPath && r.value.loaded
      && r.value.data == if |source.configDefault| > 0 then ArrayMerge(source.configDefault, fileData.entries) else fileData.entries)
  {
    var c := new ApiConfig.ApiConfig(source.configPath);
    var init := c.Init(Some(source.configDefault), fileData);
    if init.Err? {
      return Err(init.error);
    }
    r := Ok(c);
  }

  /** The static `$config` as declared: the property is declared on BaseApi
      only, so all source classes read and fill one slot, and the first
      source to ask fixes the configuration every other source then gets. */
  class SharedConfigSlot {
    var config: ApiConfig.ApiConfig?

    constructor ()
      ensures config == null
    {
      config := null;
    }

    /** config() as written. */
    method Config(source: ApiSource, fileData: Value) returns (r: Result<ApiConfig.ApiConfig, AuthError>)
      modifies this`config
      ensures old(config) != null ==> r == Ok(old(config)) && config == old(config)
      ensures old(config) == null ==> (r.Ok? <==> ApiConfig.LoadFailure(source.configPath, fileData).None?)
      ensures old(config) == null && r.Ok? ==> fresh(r.value) && config == r.value && r.value.filepath == source.configPath
      ensures old(config) == null && r.Err? ==> config == null
    {
      if config == null {
        var c := NewConfig(source, fileData);
        if c.Err? {
          return Err(c.error);
        }
        config := c.value;
      }
      r := Ok(config);
    }
  }

  /** With the slot as declared, a second source asking after the first gets
      the first source's configuration, read from the first source's file. */
  method SecondSourceGetsFirstConfig(first: ApiSource, second: ApiSource, firstFile: Value, secondFile: Value)
    returns (c1: Result<ApiConfig.ApiConfig, AuthError>, c2: Result<ApiConfig.ApiConfig, AuthError>)
    requires first.configPath != second.configPath
    ensures c1.Ok? <==> ApiConfig.LoadFailure(first.configPath, firstFile).None?
    ensures c1.Ok? ==> c2 == c1 && c2.value.filepath == first.configPath && c2.value.filepath != second.configPath
  {
    var slot := new SharedConfigSlot();
    c1 := slot.Config(first, firstFile);
    c2 := slot.Config(second, secondFile);
  }

  /** The static `$config` as intended: one configuration per source class,
      each read from that class's own CONFIG_PATH (what a `protected static
      $config` redeclared in every source would give). */
  class SourceConfigs {
    var configs: map<ApiSource, ApiConfig.ApiConfig>

    /** Every stored configuration was read from its own source's path. */
    predicate Valid()
      reads this
    {
      forall s :: s in configs ==> configs[s].filepath == s.configPath
    }

    constructor ()
      ensures Valid() && configs == map[]
    {
      configs := map[];
    }

    /** config(), per source class. */
    method Config(source: ApiSource, fileData: Value) returns (r: Result<ApiConfig.ApiConfig, AuthError>)
      requires Valid()
      modifies this`configs
      ensures Valid()
      ensures r.Ok? ==> r.value.filepath == source.configPath
      ensures source in old(configs) ==> r == Ok(old(configs)[source]) && configs == old(configs)
      ensures source !in old(configs) ==> (r.Ok? <==> ApiConfig.LoadFailure(source.configPath, fileData).None?)
      ensures source !in old(configs) && r.Ok? ==> fresh(r.value) && configs == old(configs)[source := r.value]
      ensures source !in old(configs) && r.Err? ==> configs == old(configs)
    {
      if source in configs {
        return Ok(configs[source]);
      }
      var c := NewConfig(source, fileData);
      if c.Err? {
        return Err(c.error);
      }
      configs := configs[source := c.value];
      r := c;
    }
  }

  /** With one configuration per source, each source reads its own file,
      whichever asked first, and the two are different objects. */
  method EachSourceGetsOwnConfig(first: ApiSource, second: ApiSource, firstFile: Value, secondFile: Value)
    returns (c1: Result<ApiConfig.ApiConfig, AuthError>, c2: Result<ApiConfig.ApiConfig, AuthError>)
    requires first.configPath != second.configPath
    ensures c1.Ok? <==> ApiConfig.LoadFailure(first.configPath, firstFile).None?
    ensures c2.Ok? <==> ApiConfig.LoadFailure(second.configPath, secondFile).None?
    ensures c1.Ok? ==> c1.value.filepath == first.configPath
    ensures c2.Ok? ==> c2.value.filepath == second.configPath
    ensures c1.Ok? && c2.Ok? ==> c1.value != c2.value
  {
    var configs := new SourceConfigs();
    c1 := configs.Config(first, firstFile);
    c2 := configs.Config(second, secondFile);
  }
}
