/**
 * The older VK source (Sources/Vk/VkOauth.php): its defaults, the API
 * query with the version in front, the response check, getUserData and
 * userDataFormatting.
 *
 * `api` stands for BaseApi::query: the decoded answer of an API method
 * called with the given parameters.
 */
module LegacyVkOauth {
  import opened Wrappers
  import opened Php
  import opened Errors
  import opened Birthdates
  import opened ApiConfig
  import Responses

  const ErrorResponse := "Неверный ответ от VK API"

  /** CONFIG_DEFAULT. */
  const ConfigDefault: PhpArray := [
    Entry("v", Str("5.80")), Entry("display", Str("page")),
    Entry("scope", Str("offline,friends")), Entry("responce_type", Str("token"))]

  /** checkResponse: ERROR_RESPONSE followed by the answer's error detail,
      when the answer is empty or has no response. */
  function CheckResponse(data: Value, jsonEncode: Value -> string): (r: Option<AuthError>)
    ensures r.Some? <==> Responses.Failed(data)
    ensures r.Some? ==> r.value == Message(ErrorResponse + ToStr(Responses.ErrorDetail(data, jsonEncode)))
  {
    if Responses.Failed(data) then Some(Message(ErrorResponse + ToStr(Responses.ErrorDetail(data, jsonEncode))))
    else None
  }

  /** The parameters query sends: the configured API version first, then
      the caller's parameters. */
  function QueryParams(config: ApiConfig, params: PhpArray): (r: Result<PhpArray, AuthError>)
    reads config
    ensures config.GetValue("v").Err? ==> r == Err(config.GetValue("v").error)
    ensures config.GetValue("v").Ok? ==> r == Ok(ArrayMerge([Entry("v", config.GetValue("v").value)], params))
  {
    match config.GetValue("v")
    case Err(e) => Err(e)
    case Ok(v) => Ok(ArrayMerge([Entry("v", v)], params))
  }

  /** The text up to the first comma, or all of it when it has none. */
  function UpToComma(s: string): (r: string)
    ensures r <= s && ',' !in r
    ensures |r| < |s| ==> s[|r|] == ','
  {
    if |s| == 0 || s[0] == ',' then "" else [s[0]] + UpToComma(s[1..])
  }

  /** `substr($ids, 0, strpos($ids, ','))`: without a comma `strpos` gives
      false, which `substr` reads as length 0. */
  function BeforeComma(ids: string): (r: string)
    ensures ',' !in ids ==> r == ""
    ensures ',' in ids ==> r + "," <= ids && ',' !in r
  {
    if ',' in ids then
      var r := UpToComma(ids);
      assert r != ids;
      r
    else ""
  }

  /** The parameters of getUserData's users.get call before the version is
      added: the token, the fields (given, else configured, when
      non-empty), and the cut user ids when ids were given. Reading the
      configured fields may raise. */
  function UserDataQuery(config: ApiConfig, accessToken: string, fields: Option<string>, userIds: Option<string>)
    : (r: Result<PhpArray, AuthError>)
    reads config
    ensures (fields.None? || Empty(Str(fields.value))) && config.GetValue("user_data_fields").Err? ==>
      r == Err(config.GetValue("user_data_fields").error)
    ensures r.Ok? ==> Get(r.value, "access_token") == Str(accessToken)
    ensures r.Ok? && userIds.Some? && !Empty(Str(userIds.value)) ==>
      Get(r.value, "user_ids") == Str(BeforeComma(userIds.value))
    ensures r.Ok? && !(userIds.Some? && !Empty(Str(userIds.value))) ==> Get(r.value, "user_ids") == Null
  {
    var f := if fields.None? || Empty(Str(fields.value)) then config.GetValue("user_data_fields") else Ok(Str(fields.value));
    match f
    case Err(e) => Err(e)
    case Ok(fv) =>
      var q := [Entry("access_token", Str(accessToken))];
      var q := if !Empty(fv) then Set(q, "fields", fv) else q;
      if userIds.Some? && !Empty(Str(userIds.value)) then Ok(Set(q, "user_ids", Str(BeforeComma(userIds.value))))
      else Ok(q)
  }

  /** getUserData: users.get with the query, the response check, then the
      whole response list when the cut ids are non-empty, else its first
      element. */
  function GetUserData(config: ApiConfig, accessToken: string, fields: Option<string>, userIds: Option<string>,
                       api: (string, PhpArray) -> Value, jsonEncode: Value -> string): (r: Result<Value, AuthError>)
    reads config
    ensures UserDataQuery(config, accessToken, fields, userIds).Err? ==>
      r == Err(UserDataQuery(config, accessToken, fields, userIds).error)
    ensures r.Ok? ==>
      var q := UserDataQuery(config, accessToken, fields, userIds).value;
      QueryParams(config, q).Ok?
      && var data := api("users.get", QueryParams(config, q).value);
      CheckResponse(data, jsonEncode).None?
      && r.value == if !Empty(Get(q, "user_ids")) then At(data, "response") else At(At(data, "response"), "0")
    ensures UserDataQuery(config, accessToken, fields, userIds).Ok? ==>
      var q := UserDataQuery(config, accessToken, fields, userIds).value;
      (QueryParams(config, q).Err? ==> r == Err(QueryParams(config, q).error))
      && (QueryParams(config, q).Ok? ==>
            var data := api("users.get", QueryParams(config, q).value);
            (CheckResponse(data, jsonEncode).Some? ==> r == Err(CheckResponse(data, jsonEncode).value))
            && (CheckResponse(data, jsonEncode).None? ==> r.Ok?))
  {
    match UserDataQuery(config, accessToken, fields, userIds)
    case Err(e) => Err(e)
    case Ok(q) =>
      match QueryParams(config, q)
      case Err(e) => Err(e)
      case Ok(params) =>
        var data := api("users.get", params);
        match CheckResponse(data, jsonEncode)
        case Some(e) => Err(e)
        case None =>
          if !Empty(Get(q, "user_ids")) then Ok(At(data, "response")) else Ok(At(At(data, "response"), "0"))
  }

  /** Ids without a comma are cut to nothing: users.get is asked with
      empty user_ids and only the first user is returned. */
  lemma {:induction false} IdsWithoutComma(config: ApiConfig, accessToken: string, fields: Option<string>, ids: string,
                                            api: (string, PhpArray) -> Value, jsonEncode: Value -> string)
    requires !Empty(Str(ids)) && ',' !in ids
    requires UserDataQuery(config, accessToken, fields, Some(ids)).Ok?
    ensures Get(UserDataQuery(config, accessToken, fields, Some(ids)).value, "user_ids") == Str("")
    ensures var r := GetUserData(config, accessToken, fields, Some(ids), api, jsonEncode);
      r.Ok? ==> r.value == At(At(api("users.get", QueryParams(config, UserDataQuery(config, accessToken, fields, Some(ids)).value).value), "response"), "0")
  {
  }

  /** Ids with a comma are cut to the first id: "12,34" asks for "12" and
      returns the whole response. */
  lemma {:induction false} IdsWithComma(first: string, rest: string)
    requires ',' !in first && |first| > 0
    ensures BeforeComma(first + "," + rest) == first
  {
    var s := first + "," + rest;
    var r := BeforeComma(s);
    assert s[|first|] == ',';
    assert forall i :: 0 <= i < |first| ==> s[i] == first[i];
    assert forall i :: 0 <= i < |r| ==> s[i] == r[i];
    assert r == s[..|r|] && first == s[..|first|];
  }

  /** The version goes first in every query, whatever the parameters. */
  lemma VersionFirst(v: Value, params: PhpArray)
    ensures |ArrayMerge([Entry("v", v)], params)| > 0 && ArrayMerge([Entry("v", v)], params)[0].key == "v"
  {
    assert !IsDigit("v"[0]);
    assert MergeEntries([], [Entry("v", v)]) == MergeEntries(CopyEntry([], Entry("v", v)), []);
    MergeKeepsFirstKey([Entry("v", v)], params);
  }

  /** Copying entries into an array whose first key is "v" keeps it first. */
  lemma {:induction false} MergeKeepsFirstKey(a: PhpArray, b: PhpArray)
    requires |a| > 0 && a[0].key == "v"
    ensures |MergeEntries(a, b)| > 0 && MergeEntries(a, b)[0].key == "v"
    decreases b
  {
    if |b| > 0 {
      MergeKeepsFirstKey(CopyEntry(a, b[0]), b[1..]);
    }
  }

  // userDataFormatting, one step per block of the source

  /** picture is always set from photo_max, which is removed. */
  function PictureStep(d: PhpArray): (r: PhpArray)
    ensures forall j :: j != "picture" && j != "photo_max" ==> Lookup(r, j) == Lookup(d, j)
    ensures Lookup(r, "picture") == Some(Get(d, "photo_max")) && Lookup(r, "photo_max") == None
  {
    Unset(Set(d, "picture", Get(d, "photo_max")), "photo_max")
  }

  /** When bdate is non-empty, birthdate is written by `format` from the
      whole data and bdate is removed. */
  function BdateStep(d: PhpArray, format: PhpArray -> string): (r: PhpArray)
    ensures forall j :: j != "bdate" && j != "birthdate" ==> Lookup(r, j) == Lookup(d, j)
    ensures !Empty(Get(d, "bdate")) ==> Lookup(r, "birthdate") == Some(Str(format(d))) && Lookup(r, "bdate") == None
    ensures Empty(Get(d, "bdate")) ==> r == d
  {
    if !Empty(Get(d, "bdate")) then Unset(Set(d, "birthdate", Str(format(d))), "bdate") else d
  }

  /** A non-empty sex moves to gender. */
  function SexStep(d: PhpArray): (r: PhpArray)
    ensures forall j :: j != "sex" && j != "gender" ==> Lookup(r, j) == Lookup(d, j)
    ensures !Empty(Get(d, "sex")) ==> Lookup(r, "gender") == Lookup(d, "sex") && Lookup(r, "sex") == None
    ensures Empty(Get(d, "sex")) ==> r == d
  {
    if !Empty(Get(d, "sex")) then Unset(Set(d, "gender", Get(d, "sex")), "sex") else d
  }

  /** A non-empty `key` is replaced by its title. */
  function TitleStep(d: PhpArray, key: string): (r: PhpArray)
    ensures forall j :: j != key ==> Lookup(r, j) == Lookup(d, j)
    ensures !Empty(Get(d, key)) ==> Lookup(r, key) == Some(At(Get(d, key), "title"))
    ensures Empty(Get(d, key)) ==> r == d
  {
    if !Empty(Get(d, key)) then Set(d, key, At(Get(d, key), "title")) else d
  }

  function Formatted(data: PhpArray, format: PhpArray -> string): PhpArray
  {
    TitleStep(TitleStep(SexStep(BdateStep(PictureStep(data), format)), "city"), "country")
  }

  /** The birthdate as written: "d.m.y" read from the `bday` key, which
      VK does not send, with the re-padding of two-digit values. */
  function BirthdateAsWritten(d: PhpArray): string
  {
    var parts := Explode('.', ToStr(Get(d, "bday")));
    Dotted(PadAsWritten(ListAt(parts, 0)), PadAsWritten(ListAt(parts, 1)), ListAt(parts, 2))
  }

  /** The birthdate evidently intended: "d.m.y" read from `bdate`, day and
      month as two digits. */
  function Birthdate(d: PhpArray): string
  {
    var parts := Explode('.', ToStr(Get(d, "bdate")));
    Dotted(PadTwo(ListAt(parts, 0)), PadTwo(ListAt(parts, 1)), ListAt(parts, 2))
  }

  function UserDataFormattingAsWritten(data: PhpArray): PhpArray
  {
    Formatted(data, BirthdateAsWritten)
  }

  /** userDataFormatting reading the date from bdate. */
  function UserDataFormatting(data: PhpArray): PhpArray
  {
    Formatted(data, Birthdate)
  }

  /** A non-empty bdate arrives as birthdate, written by `format` from the
      data as the picture step leaves it, and bdate is gone. */
  lemma FormattedBdate(data: PhpArray, format: PhpArray -> string)
    requires !Empty(Get(data, "bdate"))
    ensures Lookup(Formatted(data, format), "birthdate") == Some(Str(format(PictureStep(data))))
    ensures Lookup(Formatted(data, format), "bdate") == None
  {
    var d1 := PictureStep(data);
    assert Get(d1, "bdate") == Get(data, "bdate");
    var d2 := BdateStep(d1, format);
    var d3 := SexStep(d2);
    var d4 := TitleStep(d3, "city");
    assert Lookup(d4, "birthdate") == Lookup(d2, "birthdate") && Lookup(d4, "bdate") == None;
    assert Formatted(data, format) == TitleStep(d4, "country");
  }

  /** As written, a profile with bdate and no bday gets birthdate "0.0.",
      whatever its bdate says. */
  lemma {:induction false} BirthdateFromMissingKey(data: PhpArray)
    requires !Empty(Get(data, "bdate")) && Lookup(data, "bday") == None
    ensures Lookup(UserDataFormattingAsWritten(data), "birthdate") == Some(Str("0.0."))
    ensures Lookup(UserDataFormattingAsWritten(data), "bdate") == None
  {
    FormattedBdate(data, BirthdateAsWritten);
    MissingKeyDate(PictureStep(data));
  }

  /** The as-written date of data without bday: "" splits into one empty
      part; "" and null both count as below ten. */
  lemma MissingKeyDate(d: PhpArray)
    requires Get(d, "bday") == Null
    ensures BirthdateAsWritten(d) == "0.0."
  {
    var parts := Explode('.', ToStr(Get(d, "bday")));
    assert parts == [""];
    assert StrLess("", "10");
    assert PadAsWritten(ListAt(parts, 0)) == Str("0");
    assert PadAsWritten(ListAt(parts, 1)) == Str("0");
  }

  /** bdate "d.m.y" with one- or two-digit day and month arrives as
      birthdate "dd.mm.y" with two digits of the same numbers; bdate is
      gone. */
  lemma {:induction false} FormattedBirthdate(data: PhpArray, d: string, m: string, y: string)
    requires Get(data, "bdate") == Str(d + "." + m + "." + y)
    requires IsDigits(d) && |d| <= 2 && IsDigits(m) && |m| <= 2 && '.' !in y
    ensures Lookup(UserDataFormatting(data), "birthdate") == Some(Str(Two(d) + "." + Two(m) + "." + y))
    ensures Lookup(UserDataFormatting(data), "bdate") == None
    ensures TwoDigitsOf(Two(d), d) && TwoDigitsOf(Two(m), m)
  {
    assert !Empty(Get(data, "bdate")) by {
      assert |d + "." + m + "." + y| >= 3;
    }
    FormattedBdate(data, Birthdate);
    assert Get(PictureStep(data), "bdate") == Get(data, "bdate");
    BirthdateOfDate(PictureStep(data), d, m, y);
    PadTwoDigits(m);
    PadTwoDigits(d);
  }

  /** The intended date of data whose bdate is "d.m.y" of digit day and
      month. */
  lemma BirthdateOfDate(data: PhpArray, d: string, m: string, y: string)
    requires Get(data, "bdate") == Str(d + "." + m + "." + y)
    requires IsDigits(d) && IsDigits(m) && '.' !in y
    ensures Birthdate(data) == Two(d) + "." + Two(m) + "." + y
  {
    DigitsHoldNoSeparator(m, '.');
    DigitsHoldNoSeparator(d, '.');
    ExplodeDate('.', d, m, y);
    assert Explode('.', d + "." + m + "." + y) == [d, m, y];
  }

  /** picture comes from photo_max, and photo_max is gone. */
  lemma {:induction false} FormattedPicture(data: PhpArray)
    ensures Lookup(UserDataFormatting(data), "picture") == Some(Get(data, "photo_max"))
    ensures Lookup(UserDataFormatting(data), "photo_max") == None
  {
    var d1 := PictureStep(data);
    var d2 := BdateStep(d1, Birthdate);
    var d3 := SexStep(d2);
    assert Lookup(d3, "picture") == Some(Get(data, "photo_max")) && Lookup(d3, "photo_max") == None;
    var d4 := TitleStep(d3, "city");
    assert Lookup(d4, "picture") == Lookup(d3, "picture") && Lookup(d4, "photo_max") == None;
    assert UserDataFormatting(data) == TitleStep(d4, "country");
  }

  /** A non-empty sex is moved to gender. */
  lemma {:induction false} FormattedSex(data: PhpArray)
    requires !Empty(Get(data, "sex"))
    ensures Lookup(UserDataFormatting(data), "gender") == Lookup(data, "sex")
    ensures Lookup(UserDataFormatting(data), "sex") == None
  {
    var d1 := PictureStep(data);
    var d2 := BdateStep(d1, Birthdate);
    assert Lookup(d2, "sex") == Lookup(data, "sex");
    var d3 := SexStep(d2);
    assert Lookup(d3, "gender") == Lookup(data, "sex") && Lookup(d3, "sex") == None;
    var d4 := TitleStep(d3, "city");
    assert Lookup(d4, "gender") == Lookup(d3, "gender") && Lookup(d4, "sex") == None;
    assert UserDataFormatting(data) == TitleStep(d4, "country");
  }

  /** A key the first three steps do not write reaches the title steps
      as it came in. */
  lemma FirstStepsKeep(data: PhpArray, j: string)
    requires j != "picture" && j != "photo_max" && j != "bdate" && j != "birthdate" && j != "sex" && j != "gender"
    ensures Lookup(SexStep(BdateStep(PictureStep(data), Birthdate)), j) == Lookup(data, j)
  {
    var d1 := PictureStep(data);
    var d2 := BdateStep(d1, Birthdate);
    assert Lookup(d1, j) == Lookup(data, j);
    assert Lookup(d2, j) == Lookup(d1, j);
    assert Lookup(SexStep(d2), j) == Lookup(d2, j);
  }

  /** A non-empty city arrives as its title. */
  lemma {:induction false} FormattedCity(data: PhpArray)
    requires !Empty(Get(data, "city"))
    ensures Lookup(UserDataFormatting(data), "city") == Some(At(Get(data, "city"), "title"))
  {
    FirstStepsKeep(data, "city");
    var d3 := SexStep(BdateStep(PictureStep(data), Birthdate));
    assert Get(d3, "city") == Get(data, "city");
    var d4 := TitleStep(d3, "city");
    assert Lookup(d4, "city") == Some(At(Get(data, "city"), "title"));
    assert UserDataFormatting(data) == TitleStep(d4, "country");
  }

  /** A non-empty country arrives as its title. */
  lemma {:induction false} FormattedCountry(data: PhpArray)
    requires !Empty(Get(data, "country"))
    ensures Lookup(UserDataFormatting(data), "country") == Some(At(Get(data, "country"), "title"))
  {
    FirstStepsKeep(data, "country");
    var d3 := SexStep(BdateStep(PictureStep(data), Birthdate));
    var d4 := TitleStep(d3, "city");
    assert Lookup(d4, "country") == Lookup(data, "country");
    assert Get(d4, "country") == Get(data, "country");
    assert UserDataFormatting(data) == TitleStep(d4, "country");
  }
}
