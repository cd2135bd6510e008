/**
 * The older Facebook source (Sources/Fb/FbOauth.php): its gender map, the
 * response check and userDataFormatting, which turns a Graph API profile
 * into the application's format.
 */
module LegacyFbOauth {
  import opened Wrappers
  import opened Php
  import opened Errors
  import opened Birthdates
  import Responses

  const ErrorResponse := "Неверный ответ от Facebook API"

  /** GENDERS_MAP. */
  const GendersMap: PhpArray := [Entry("female", Int(1)), Entry("male", Int(2))]

  /** `GENDERS_MAP[$g] ?? null`. */
  function Gender(g: Value): (r: Value)
    ensures g == Str("female") ==> r == Int(1)
    ensures g == Str("male") ==> r == Int(2)
    ensures g != Str("female") && g != Str("male") ==> r == Null
  {
    if g.Str? then Get(GendersMap, g.s) else Null
  }

  /** checkResponse: ERROR_RESPONSE followed by the answer's error detail,
      when the answer is empty or has no response. */
  function CheckResponse(data: Value, jsonEncode: Value -> string): (r: Option<AuthError>)
    ensures r.Some? <==> Responses.Failed(data)
    ensures r.Some? ==> r.value == Message(ErrorResponse + ToStr(Responses.ErrorDetail(data, jsonEncode)))
  {
    if Responses.Failed(data) then Some(Message(ErrorResponse + ToStr(Responses.ErrorDetail(data, jsonEncode))))
    else None
  }

  /** "m/d/y" to "d.m.y" as written: day and month below ten get a zero,
      also when they already have two digits. */
  function BirthdateAsWritten(v: Value): string
  {
    var parts := Explode('/', ToStr(v));
    Dotted(PadAsWritten(ListAt(parts, 1)), PadAsWritten(ListAt(parts, 0)), ListAt(parts, 2))
  }

  /** The evidently intended format: "m/d/y" to "dd.mm.y". */
  function Birthdate(v: Value): string
  {
    var parts := Explode('/', ToStr(v));
    Dotted(PadTwo(ListAt(parts, 1)), PadTwo(ListAt(parts, 0)), ListAt(parts, 2))
  }

  /** A non-empty picture is replaced by its `data.url`. */
  function PictureStep(d: PhpArray): (r: PhpArray)
    ensures forall j :: j != "picture" ==> Lookup(r, j) == Lookup(d, j)
    ensures !Empty(Get(d, "picture")) ==> Lookup(r, "picture") == Some(At(At(Get(d, "picture"), "data"), "url"))
    ensures Empty(Get(d, "picture")) ==> r == d
  {
    if !Empty(Get(d, "picture")) then Set(d, "picture", At(At(Get(d, "picture"), "data"), "url")) else d
  }

  /** A non-empty birthday is written to birthdate by `format` and removed. */
  function BirthdayStep(d: PhpArray, format: Value -> string): (r: PhpArray)
    ensures forall j :: j != "birthday" && j != "birthdate" ==> Lookup(r, j) == Lookup(d, j)
    ensures !Empty(Get(d, "birthday")) ==>
      Lookup(r, "birthdate") == Some(Str(format(Get(d, "birthday")))) && Lookup(r, "birthday") == None
    ensures Empty(Get(d, "birthday")) ==> r == d
  {
    if !Empty(Get(d, "birthday")) then Unset(Set(d, "birthdate", Str(format(Get(d, "birthday")))), "birthday") else d
  }

  /** A non-empty gender is replaced by its id in GENDERS_MAP. */
  function GenderStep(d: PhpArray): (r: PhpArray)
    ensures forall j :: j != "gender" ==> Lookup(r, j) == Lookup(d, j)
    ensures !Empty(Get(d, "gender")) ==> Lookup(r, "gender") == Some(Gender(Get(d, "gender")))
    ensures Empty(Get(d, "gender")) ==> r == d
  {
    if !Empty(Get(d, "gender")) then Set(d, "gender", Gender(Get(d, "gender"))) else d
  }

  /** A non-empty location is split on commas into city and region; the
      location itself stays. */
  function LocationStep(d: PhpArray): (r: PhpArray)
    ensures forall j :: j != "city" && j != "region" ==> Lookup(r, j) == Lookup(d, j)
    ensures !Empty(Get(d, "location")) ==>
      var parts := Explode(',', ToStr(Get(d, "location")));
      Lookup(r, "city") == Some(ListAt(parts, 0)) && Lookup(r, "region") == Some(ListAt(parts, 1))
    ensures Empty(Get(d, "location")) ==> r == d
  {
    if !Empty(Get(d, "location")) then
      var parts := Explode(',', ToStr(Get(d, "location")));
      Set(Set(d, "city", ListAt(parts, 0)), "region", ListAt(parts, 1))
    else d
  }

  function Formatted(data: PhpArray, format: Value -> string): PhpArray
  {
    LocationStep(GenderStep(BirthdayStep(PictureStep(data), format)))
  }

  function UserDataFormattingAsWritten(data: PhpArray): PhpArray
  {
    Formatted(data, BirthdateAsWritten)
  }

  /** userDataFormatting with the intended day and month padding. */
  function UserDataFormatting(data: PhpArray): PhpArray
  {
    Formatted(data, Birthdate)
  }

  /** A birthday "m/d/y" of one- or two-digit month and day arrives as
      birthdate "dd.mm.y", with two digits of the same numbers, and the
      birthday key is gone; the other fields come out as the steps say. */
  lemma {:induction false} FormattedBirthday(data: PhpArray, m: string, d: string, y: string)
    requires Get(data, "birthday") == Str(m + "/" + d + "/" + y)
    requires IsDigits(m) && |m| <= 2 && IsDigits(d) && |d| <= 2 && '/' !in y
    ensures Lookup(UserDataFormatting(data), "birthdate") == Some(Str(Two(d) + "." + Two(m) + "." + y))
    ensures Lookup(UserDataFormatting(data), "birthday") == None
    ensures TwoDigitsOf(Two(d), d) && TwoDigitsOf(Two(m), m)
  {
    assert !Empty(Str(m + "/" + d + "/" + y)) by {
      assert |m + "/" + d + "/" + y| >= 3;
    }
    BirthdayFormatted(data);
    BirthdateOf(m, d, y);
    PadTwoDigits(m);
    PadTwoDigits(d);
  }

  /** A non-empty birthday arrives as birthdate, formatted, and is gone. */
  lemma BirthdayFormatted(data: PhpArray)
    requires !Empty(Get(data, "birthday"))
    ensures Lookup(UserDataFormatting(data), "birthdate") == Some(Str(Birthdate(Get(data, "birthday"))))
    ensures Lookup(UserDataFormatting(data), "birthday") == None
  {
    var d1 := PictureStep(data);
    var d2 := BirthdayStep(d1, Birthdate);
    var d3 := GenderStep(d2);
    assert Lookup(d1, "birthday") == Lookup(data, "birthday");
    assert Lookup(d3, "birthdate") == Lookup(d2, "birthdate") && Lookup(d3, "birthday") == None;
    assert UserDataFormatting(data) == LocationStep(d3);
  }

  /** The intended format of "m/d/y" for digit month and day. */
  lemma BirthdateOf(m: string, d: string, y: string)
    requires IsDigits(m) && IsDigits(d) && '/' !in y
    ensures Birthdate(Str(m + "/" + d + "/" + y)) == Two(d) + "." + Two(m) + "." + y
  {
    DigitsHoldNoSeparator(m, '/');
    DigitsHoldNoSeparator(d, '/');
    ExplodeDate('/', m, d, y);
    assert Explode('/', m + "/" + d + "/" + y) == [m, d, y];
  }

  /** As written, a two-digit day or month below ten is padded again:
      "05/07/1990" becomes "007.005.1990" where "07.05.1990" is meant. */
  lemma {:induction false} RepaddedBirthday(m: char, d: char, y: string)
    requires IsDigit(m) && IsDigit(d) && '/' !in y
    ensures BirthdateAsWritten(Str(['0', m] + "/" + ['0', d] + "/" + y)) == ("00" + [d]) + "." + ("00" + [m]) + "." + y
    ensures Birthdate(Str(['0', m] + "/" + ['0', d] + "/" + y)) == ['0', d] + "." + ['0', m] + "." + y
  {
    var s := ['0', m] + "/" + ['0', d] + "/" + y;
    ZeroLedParts(m, d, y);
    RepaddedAsWritten(m);
    RepaddedAsWritten(d);
    assert BirthdateAsWritten(Str(s)) == Dotted(Str("00" + [d]), Str("00" + [m]), Str(y));
    assert Birthdate(Str(s)) == Dotted(Str(['0', d]), Str(['0', m]), Str(y));
  }

  /** "0m/0d/y" splits into its three parts. */
  lemma ZeroLedParts(m: char, d: char, y: string)
    requires IsDigit(m) && IsDigit(d) && '/' !in y
    ensures var parts := Explode('/', ToStr(Str(['0', m] + "/" + ['0', d] + "/" + y)));
      ListAt(parts, 0) == Str(['0', m]) && ListAt(parts, 1) == Str(['0', d]) && ListAt(parts, 2) == Str(y)
  {
    ExplodeDate('/', ['0', m], ['0', d], y);
    assert Explode('/', ['0', m] + "/" + ['0', d] + "/" + y) == [['0', m], ['0', d], y];
  }

  /** The gender arrives as 1 for "female", 2 for "male" and null for any
      other non-empty value. */
  lemma FormattedGender(data: PhpArray)
    requires !Empty(Get(data, "gender"))
    ensures Get(data, "gender") == Str("female") ==> Lookup(UserDataFormatting(data), "gender") == Some(Int(1))
    ensures Get(data, "gender") == Str("male") ==> Lookup(UserDataFormatting(data), "gender") == Some(Int(2))
    ensures Get(data, "gender") != Str("female") && Get(data, "gender") != Str("male") ==>
      Lookup(UserDataFormatting(data), "gender") == Some(Null)
  {
  }

  /** A location "city,region" gives city and region, and stays. */
  lemma {:induction false} FormattedLocation(data: PhpArray, city: string, region: string)
    requires Get(data, "location") == Str(city + "," + region) && ',' !in city && ',' !in region
    ensures Lookup(UserDataFormatting(data), "city") == Some(Str(city))
    ensures Lookup(UserDataFormatting(data), "region") == Some(Str(region))
    ensures Lookup(UserDataFormatting(data), "location") == Lookup(data, "location")
  {
    var d1 := PictureStep(data);
    var d2 := BirthdayStep(d1, Birthdate);
    var d3 := GenderStep(d2);
    assert Lookup(d1, "location") == Lookup(data, "location");
    assert Lookup(d2, "location") == Lookup(d1, "location");
    assert Lookup(d3, "location") == Lookup(d2, "location");
    assert UserDataFormatting(data) == LocationStep(d3);
    LocationSplit(d3, city, region);
  }

  /** The location step on a location "city,region". */
  lemma LocationSplit(d: PhpArray, city: string, region: string)
    requires Lookup(d, "location") == Some(Str(city + "," + region)) && ',' !in city && ',' !in region
    ensures Lookup(LocationStep(d), "city") == Some(Str(city))
    ensures Lookup(LocationStep(d), "region") == Some(Str(region))
    ensures Lookup(LocationStep(d), "location") == Lookup(d, "location")
  {
    ExplodePair(',', city, region);
    assert !Empty(Str(city + "," + region)) by {
      assert |city + "," + region| > 0;
    }
  }

  /** A non-empty picture arrives as its `data.url`. */
  lemma FormattedPicture(data: PhpArray)
    requires !Empty(Get(data, "picture"))
    ensures Lookup(UserDataFormatting(data), "picture") == Some(At(At(Get(data, "picture"), "data"), "url"))
  {
  }
}
