/**
 * The newer Facebook source (Sources/FbOauth.php): its key map, defaults,
 * the checks on the access and user-data answers, the response check, and
 * prepareData, which reshapes the Graph API profile for the users table.
 *
 * `exec` stands for BaseOauth::exec: the request to a URL with its query
 * parameters and the decoded answer, or the error the request raises.
 */
module FbOauth {
  import opened Wrappers
  import opened Php
  import opened Errors
  import opened BaseOauth
  import opened Birthdates
  import Responses

  const SourceName := "facebook.com"
  const AccessUrl := "https://graph.facebook.com/v3.2/oauth/access_token"
  const ApiUrl := "https://graph.facebook.com/"

  /** USER_DATA_KEYS_REPLACES. */
  const Replaces: map<string, string> := map["id" := "fb_id", "birthday" := "bdate", "gender" := "sex"]

  /** configDefault. */
  const ConfigDefault: PhpArray := [
    Entry("scope", Str(Implode(",", ["public_profile", "email", "user_link", "user_location",
                                     "user_hometown", "user_birthday", "user_gender"]))),
    Entry("user_data_fields", Str(Implode(",", ["id", "first_name", "last_name", "picture", "email",
                                                "link", "location", "birthday", "gender"])))]

  lemma ReplacesNoChains()
    ensures NoChains(Replaces)
  {
    assert Replaces.Keys == {"id", "birthday", "gender"};
  }

  /** The query fetchAccess sends with the code. */
  function AccessQuery(config: PhpArray, code: string): (q: PhpArray)
    ensures Keys(q) == ["client_id", "client_secret", "redirect_uri", "code"]
    ensures Get(q, "client_id") == Get(config, "client_id") && Get(q, "client_secret") == Get(config, "client_secret")
    ensures Get(q, "redirect_uri") == Get(config, "redirect_uri") && Get(q, "code") == Str(code)
  {
    var e0 := Entry("client_id", Get(config, "client_id"));
    var e1 := Entry("client_secret", Get(config, "client_secret"));
    var e2 := Entry("redirect_uri", Get(config, "redirect_uri"));
    var e3 := Entry("code", Str(code));
    assert [e0, e1, e2, e3][1..] == [e1, e2, e3] && [e1, e2, e3][1..] == [e2, e3] && [e2, e3][1..] == [e3];
    assert [e3][1..] == [];
    assert Keys([e3]) == ["code"] && Lookup([e3], "code") == Some(Str(code));
    assert Keys([e2, e3]) == ["redirect_uri", "code"] && Lookup([e2, e3], "code") == Some(Str(code));
    assert Keys([e1, e2, e3]) == ["client_secret", "redirect_uri", "code"];
    assert Lookup([e1, e2, e3], "code") == Some(Str(code)) && Lookup([e1, e2, e3], "redirect_uri") == Some(e2.val);
    assert Lookup([e1, e2, e3], "client_secret") == Some(e1.val);
    [e0, e1, e2, e3]
  }

  /** fetchAccess: an empty answer raises oauth_empty_access; any other
      answer is the access data. */
  function FetchAccess(config: PhpArray, code: string, exec: (string, PhpArray) -> Result<PhpArray, AuthError>)
    : (r: Result<PhpArray, AuthError>)
    ensures var answer := exec(AccessUrl, AccessQuery(config, code));
      (answer.Err? ==> r == answer)
      && (answer.Ok? && |answer.value| == 0 ==> r == Err(Build("oauth_empty_access", [Str(SourceName)])))
      && (answer.Ok? && |answer.value| > 0 ==> r == answer)
  {
    match exec(AccessUrl, AccessQuery(config, code))
    case Err(e) => Err(e)
    case Ok(data) => if Empty(Arr(data)) then Err(Build("oauth_empty_access", [Str(SourceName)])) else Ok(data)
  }

  /** The query of fetchUserData: the access token, and the configured
      field list when it is non-empty. */
  function UserDataQuery(config: PhpArray, accessToken: string): (q: PhpArray)
    ensures Get(q, "access_token") == Str(accessToken)
    ensures Get(q, "fields") == if Empty(Get(config, "user_data_fields")) then Null else Get(config, "user_data_fields")
  {
    var base := [Entry("access_token", Str(accessToken))];
    var fields := Get(config, "user_data_fields");
    if !Empty(fields) then Set(base, "fields", fields) else base
  }

  /** fetchUserDataByAccess: the access data's token, which must be a
      string, sent to the `me` endpoint; the answer is returned unchecked. */
  function FetchUserDataByAccess(config: PhpArray, access: PhpArray, exec: (string, PhpArray) -> Result<PhpArray, AuthError>)
    : (r: Result<PhpArray, AuthError>)
    ensures Get(access, "access_token").Null? || Get(access, "access_token").Arr? ==> r == Err(TypeError)
    ensures !(Get(access, "access_token").Null? || Get(access, "access_token").Arr?) ==>
      r == exec(ApiUrl + "me", UserDataQuery(config, ToStr(Get(access, "access_token"))))
  {
    match StringArgument(Get(access, "access_token"))
    case Err(e) => Err(e)
    case Ok(token) => exec(ApiUrl + "me", UserDataQuery(config, token))
  }

  /** checkResponse: oauth_error_response, with the source name and the
      answer's error detail, when the answer is empty or has no response. */
  function CheckResponse(data: Value, jsonEncode: Value -> string): (r: Option<AuthError>)
    ensures r.Some? <==> Responses.Failed(data)
    ensures r.Some? ==> r.value == Build("oauth_error_response", [Str(SourceName), Responses.ErrorDetail(data, jsonEncode)])
  {
    if Responses.Failed(data) then Some(Build("oauth_error_response", [Str(SourceName), Responses.ErrorDetail(data, jsonEncode)]))
    else None
  }

  // prepareData, one step per block of the source

  /** An array picture is replaced by its `data.url`. */
  function PictureStep(d: PhpArray): (r: PhpArray)
    ensures forall j :: j != "picture" ==> Lookup(r, j) == Lookup(d, j)
    ensures Get(d, "picture").Arr? ==> Lookup(r, "picture") == Some(At(At(Get(d, "picture"), "data"), "url"))
    ensures !Get(d, "picture").Arr? ==> r == d
  {
    if IsSet(d, "picture") && Get(d, "picture").Arr? then Set(d, "picture", At(At(Get(d, "picture"), "data"), "url")) else d
  }

  /** A set bdate is reformatted by `format`. */
  function BdateStep(d: PhpArray, format: Value -> string): (r: PhpArray)
    ensures forall j :: j != "bdate" ==> Lookup(r, j) == Lookup(d, j)
    ensures IsSet(d, "bdate") ==> Lookup(r, "bdate") == Some(Str(format(Get(d, "bdate"))))
    ensures !IsSet(d, "bdate") ==> r == d
  {
    if IsSet(d, "bdate") then Set(d, "bdate", Str(format(Get(d, "bdate")))) else d
  }

  /** `['female' => 1, 'male' => 2][$sex]`, null for any other value. */
  function SexId(v: Value): (r: Value)
    ensures r == Int(1) <==> v == Str("female")
    ensures r == Int(2) <==> v == Str("male")
    ensures r != Int(1) && r != Int(2) ==> r == Null
  {
    if v == Str("female") then Int(1) else if v == Str("male") then Int(2) else Null
  }

  /** A set sex is replaced by its id. */
  function SexStep(d: PhpArray): (r: PhpArray)
    ensures forall j :: j != "sex" ==> Lookup(r, j) == Lookup(d, j)
    ensures IsSet(d, "sex") ==> Lookup(r, "sex") == Some(SexId(Get(d, "sex")))
    ensures !IsSet(d, "sex") ==> r == d
  {
    if IsSet(d, "sex") then Set(d, "sex", SexId(Get(d, "sex"))) else d
  }

  /** A set `location.name` is split on commas into city and region. */
  function LocationStep(d: PhpArray): (r: PhpArray)
    ensures forall j :: j != "city" && j != "region" ==> Lookup(r, j) == Lookup(d, j)
    ensures At(Get(d, "location"), "name") != Null ==>
      var parts := Explode(',', ToStr(At(Get(d, "location"), "name")));
      Lookup(r, "city") == Some(ListAt(parts, 0)) && Lookup(r, "region") == Some(ListAt(parts, 1))
    ensures At(Get(d, "location"), "name") == Null ==> r == d
  {
    if IsSet(d, "location") && At(Get(d, "location"), "name") != Null then
      var parts := Explode(',', ToStr(At(Get(d, "location"), "name")));
      Set(Set(d, "city", ListAt(parts, 0)), "region", ListAt(parts, 1))
    else d
  }

  /** prepareData with the date format given. */
  function Reshaped(user: PhpArray, format: Value -> string): PhpArray
  {
    LocationStep(SexStep(BdateStep(PictureStep(Renamed(user, user, Replaces)), format)))
  }

  /** The bdate format as written: "m/d/y" to "y-m-d", where a day below
      ten gets a zero and a month below ten is replaced by a zero and the
      padded day. */
  function BdateAsWritten(v: Value): string
  {
    var parts := Explode('/', ToStr(v));
    var day := PadAsWritten(ListAt(parts, 1));
    var month := if LessThanTen(ListAt(parts, 0)) then Str("0" + ToStr(day)) else ListAt(parts, 0);
    ToStr(ListAt(parts, 2)) + "-" + ToStr(month) + "-" + ToStr(day)
  }

  /** The evidently intended format: "m/d/y" to "y-mm-dd". */
  function Bdate(v: Value): string
  {
    var parts := Explode('/', ToStr(v));
    ToStr(ListAt(parts, 2)) + "-" + ToStr(PadTwo(ListAt(parts, 0))) + "-" + ToStr(PadTwo(ListAt(parts, 1)))
  }

  function PrepareDataAsWritten(user: PhpArray): PhpArray
  {
    Reshaped(user, BdateAsWritten)
  }

  /** prepareData with the intended date format; the source uses this. */
  function PrepareData(user: PhpArray): PhpArray
  {
    Reshaped(user, Bdate)
  }

  /** The source as the newer flows see it. */
  function Source(exec: (string, PhpArray) -> Result<PhpArray, AuthError>, authLink: PhpArray -> string): (p: Provider)
    ensures p.sourceName == SourceName && p.keyField == "id" && p.configDefault == ConfigDefault
  {
    Provider(SourceName, ConfigDefault, "id",
             (config, code) => FetchAccess(config, code, exec),
             (config, access) => FetchUserDataByAccess(config, access, exec),
             PrepareData, authLink)
  }

  /** A Facebook date "m/d/y" of one- or two-digit month and day comes out
      as "y-mm-dd", month and day as two digits of the same number. */
  lemma {:induction false} BdateFormat(m: string, d: string, y: string)
    requires IsDigits(m) && |m| <= 2 && IsDigits(d) && |d| <= 2 && '/' !in y
    ensures Bdate(Str(m + "/" + d + "/" + y)) == y + "-" + Two(m) + "-" + Two(d)
    ensures TwoDigitsOf(Two(m), m) && TwoDigitsOf(Two(d), d)
  {
    DigitsHoldNoSeparator(m, '/');
    DigitsHoldNoSeparator(d, '/');
    ExplodeDate('/', m, d, y);
    PadTwoDigits(m);
    PadTwoDigits(d);
  }

  /** As written, the month takes the day: for a one-digit month and day
      the month is lost, and "5/7/1990" becomes "1990-007-07" where
      "1990-05-07" is meant. */
  lemma {:induction false} MonthTakesDay(m: char, d: char, y: string)
    requires IsDigit(m) && IsDigit(d) && '/' !in y
    ensures BdateAsWritten(Str([m] + "/" + [d] + "/" + y)) == y + "-00" + [d] + "-0" + [d]
    ensures Bdate(Str([m] + "/" + [d] + "/" + y)) == y + "-0" + [m] + "-0" + [d]
  {
    var s := [m] + "/" + [d] + "/" + y;
    ExplodeDate('/', [m], [d], y);
    var parts := Explode('/', ToStr(Str(s)));
    assert parts == [[m], [d], y];
    assert ListAt(parts, 0) == Str([m]) && ListAt(parts, 1) == Str([d]) && ListAt(parts, 2) == Str(y);
    OneDigitPads(m);
    OneDigitPads(d);
    AsWrittenTakesDay(parts, m, d, y);
    assert Bdate(Str(s)) == y + "-" + ("0" + [m]) + "-" + ("0" + [d]);
    assert y + "-" + ("0" + [m]) + "-" + ("0" + [d]) == y + "-0" + [m] + "-0" + [d];
  }

  /** The as-written half of MonthTakesDay, on the exploded parts. */
  lemma AsWrittenTakesDay(parts: seq<string>, m: char, d: char, y: string)
    requires IsDigit(m) && IsDigit(d)
    requires ListAt(parts, 0) == Str([m]) && ListAt(parts, 1) == Str([d]) && ListAt(parts, 2) == Str(y)
    requires parts == Explode('/', [m] + "/" + [d] + "/" + y)
    requires PadAsWritten(Str([d])) == Str("0" + [d]) && LessThanTen(Str([m]))
    ensures BdateAsWritten(Str([m] + "/" + [d] + "/" + y)) == y + "-00" + [d] + "-0" + [d]
  {
    var day := PadAsWritten(ListAt(parts, 1));
    var month := Str("0" + ToStr(day));
    assert BdateAsWritten(Str([m] + "/" + [d] + "/" + y)) == y + "-" + ToStr(month) + "-" + ToStr(day);
    assert y + "-" + ToStr(month) + "-" + ToStr(day) == y + "-00" + [d] + "-0" + [d];
  }

  /** A key none of the reshaping steps writes reads in prepareData's
      result what it reads after the renaming. */
  lemma PreparedUntouched(user: PhpArray, j: string)
    requires j != "picture" && j != "bdate" && j != "sex" && j != "city" && j != "region"
    ensures Lookup(PrepareData(user), j) == Lookup(Renamed(user, user, Replaces), j)
  {
    var d0 := Renamed(user, user, Replaces);
    var d1 := PictureStep(d0);
    var d2 := BdateStep(d1, Bdate);
    var d3 := SexStep(d2);
    assert Lookup(d1, j) == Lookup(d0, j);
    assert Lookup(d2, j) == Lookup(d1, j);
    assert Lookup(d3, j) == Lookup(d2, j);
    assert PrepareData(user) == LocationStep(d3);
  }

  /** prepareData moves the user's id to fb_id, leaving no id. */
  lemma {:induction false} PreparedId(user: PhpArray)
    requires KeysDistinct(user) && Lookup(user, "id").Some?
    ensures Lookup(PrepareData(user), "fb_id") == Lookup(user, "id")
    ensures Lookup(PrepareData(user), "id") == None
  {
    ReplacesNoChains();
    RenamedData(user, Replaces, "id");
    PreparedUntouched(user, "fb_id");
    PreparedUntouched(user, "id");
  }

  /** A birthday "m/d/y" arrives as bdate "y-mm-dd"; no birthday key is
      left. */
  lemma {:induction false} PreparedBirthday(user: PhpArray, m: string, d: string, y: string)
    requires KeysDistinct(user) && Lookup(user, "birthday") == Some(Str(m + "/" + d + "/" + y))
    requires IsDigits(m) && |m| <= 2 && IsDigits(d) && |d| <= 2 && '/' !in y
    ensures Lookup(PrepareData(user), "bdate") == Some(Str(y + "-" + Two(m) + "-" + Two(d)))
    ensures Lookup(PrepareData(user), "birthday") == None
  {
    ReplacesNoChains();
    RenamedData(user, Replaces, "birthday");
    PreparedUntouched(user, "birthday");
    var d0 := Renamed(user, user, Replaces);
    var d1 := PictureStep(d0);
    var d2 := BdateStep(d1, Bdate);
    var d3 := SexStep(d2);
    assert Lookup(d1, "bdate") == Some(Str(m + "/" + d + "/" + y));
    assert Lookup(d2, "bdate") == Some(Str(Bdate(Str(m + "/" + d + "/" + y))));
    assert Lookup(d3, "bdate") == Lookup(d2, "bdate");
    assert PrepareData(user) == LocationStep(d3);
    BdateFormat(m, d, y);
  }

  /** As written, a birthday "m/d/y" of one-digit month and day arrives as
      bdate "y-00d-0d": the month is lost in the data a new user gets. */
  lemma {:induction false} PreparedBirthdayAsWritten(user: PhpArray, m: char, d: char, y: string)
    requires KeysDistinct(user) && Lookup(user, "birthday") == Some(Str([m] + "/" + [d] + "/" + y))
    requires IsDigit(m) && IsDigit(d) && '/' !in y
    ensures Lookup(PrepareDataAsWritten(user), "bdate") == Some(Str(y + "-00" + [d] + "-0" + [d]))
  {
    ReplacesNoChains();
    RenamedData(user, Replaces, "birthday");
    var d0 := Renamed(user, user, Replaces);
    var d1 := PictureStep(d0);
    var d2 := BdateStep(d1, BdateAsWritten);
    var d3 := SexStep(d2);
    assert Lookup(d0, "bdate") == Some(Str([m] + "/" + [d] + "/" + y));
    assert Lookup(d1, "bdate") == Lookup(d0, "bdate");
    assert Lookup(d2, "bdate") == Some(Str(BdateAsWritten(Str([m] + "/" + [d] + "/" + y))));
    assert Lookup(d3, "bdate") == Lookup(d2, "bdate");
    assert PrepareDataAsWritten(user) == LocationStep(d3);
    MonthTakesDay(m, d, y);
  }

  /** A gender arrives as sex 1 for "female", 2 for "male", null otherwise;
      no gender key is left. */
  lemma {:induction false} PreparedGender(user: PhpArray, g: Value)
    requires KeysDistinct(user) && Lookup(user, "gender") == Some(g) && g != Null
    ensures g == Str("female") ==> Lookup(PrepareData(user), "sex") == Some(Int(1))
    ensures g == Str("male") ==> Lookup(PrepareData(user), "sex") == Some(Int(2))
    ensures g != Str("female") && g != Str("male") ==> Lookup(PrepareData(user), "sex") == Some(Null)
    ensures Lookup(PrepareData(user), "gender") == None
  {
    ReplacesNoChains();
    RenamedData(user, Replaces, "gender");
    PreparedUntouched(user, "gender");
    var d0 := Renamed(user, user, Replaces);
    var d1 := PictureStep(d0);
    var d2 := BdateStep(d1, Bdate);
    var d3 := SexStep(d2);
    assert Lookup(d1, "sex") == Some(g);
    assert Lookup(d2, "sex") == Some(g);
    assert Lookup(d3, "sex") == Some(SexId(g));
    assert PrepareData(user) == LocationStep(d3);
  }

  /** An array picture arrives as its `data.url`. */
  lemma {:induction false} PreparedPicture(user: PhpArray, picture: PhpArray)
    requires KeysDistinct(user) && Lookup(user, "picture") == Some(Arr(picture))
    ensures Lookup(PrepareData(user), "picture") == Some(At(At(Arr(picture), "data"), "url"))
  {
    ReplacesNoChains();
    RenamedData(user, Replaces, "picture");
    var d0 := Renamed(user, user, Replaces);
    var d1 := PictureStep(d0);
    var d2 := BdateStep(d1, Bdate);
    var d3 := SexStep(d2);
    assert Lookup(d1, "picture") == Some(At(At(Arr(picture), "data"), "url"));
    assert Lookup(d2, "picture") == Lookup(d1, "picture");
    assert Lookup(d3, "picture") == Lookup(d2, "picture");
    assert PrepareData(user) == LocationStep(d3);
  }

  /** A location named "city,region" gives city and region. */
  lemma {:induction false} PreparedLocation(user: PhpArray, location: PhpArray, city: string, region: string)
    requires KeysDistinct(user) && Lookup(user, "location") == Some(Arr(location))
    requires Get(location, "name") == Str(city + "," + region) && ',' !in city && ',' !in region
    ensures Lookup(PrepareData(user), "city") == Some(Str(city))
    ensures Lookup(PrepareData(user), "region") == Some(Str(region))
  {
    ReplacesNoChains();
    RenamedData(user, Replaces, "location");
    var d0 := Renamed(user, user, Replaces);
    var d1 := PictureStep(d0);
    var d2 := BdateStep(d1, Bdate);
    var d3 := SexStep(d2);
    assert Lookup(d1, "location") == Lookup(d0, "location");
    assert Lookup(d2, "location") == Lookup(d1, "location");
    assert Lookup(d3, "location") == Lookup(d2, "location");
    assert PrepareData(user) == LocationStep(d3);
    LocationNamed(d3, location, city, region);
  }

  /** The location step on data whose location is named "city,region". */
  lemma LocationNamed(d: PhpArray, location: PhpArray, city: string, region: string)
    requires Lookup(d, "location") == Some(Arr(location))
    requires Get(location, "name") == Str(city + "," + region) && ',' !in city && ',' !in region
    ensures Lookup(LocationStep(d), "city") == Some(Str(city))
    ensures Lookup(LocationStep(d), "region") == Some(Str(region))
  {
    ExplodePair(',', city, region);
  }
}
