/**
 * The older Google source (Sources/Google/GoogleOauth.php): its defaults
 * and key map, the checks access applies to the token exchange's answer,
 * renameDataKeys and userDataFormatting.
 *
 * `decode` stands for `json_decode($response, true)`.
 */
module LegacyGoogleOauth {
  import opened Wrappers
  import opened Php
  import opened Errors
  import opened BaseOauth

  /** CONFIG_DEFAULT. */
  const ConfigDefault: PhpArray := [
    Entry("response_type", Str("code")), Entry("scope", Str("")), Entry("access_type", Str("offline")),
    Entry("include_granted_scopes", Str("true")), Entry("grant_type", Str("authorization_code"))]

  /** USER_DATA_KEYS_REPLACES. */
  const Replaces: map<string, string> := map["picture" := "pic", "given_name" := "first_name", "family_name" := "last_name"]

  lemma ReplacesNoChains()
    ensures NoChains(Replaces)
  {
    assert Replaces.Keys == {"picture", "given_name", "family_name"};
  }

  /** access's checks on the curl response: an empty one raises, one that
      does not decode to a non-empty value raises with the response in the
      message, and a decoded value that is not an array does not fit the
      declared array result. */
  function AccessChecked(response: string, decode: string -> Value): (r: Result<PhpArray, AuthError>)
    ensures Empty(Str(response)) ==> r == Err(Message("Curl response is empty"))
    ensures !Empty(Str(response)) && Empty(decode(response)) ==>
      r == Err(Message("Cant' decoded curl response: " + response))
    ensures r.Ok? <==> !Empty(Str(response)) && !Empty(decode(response)) && decode(response).Arr?
    ensures r.Ok? ==> r.value == decode(response).entries && |r.value| > 0
  {
    if Empty(Str(response)) then Err(Message("Curl response is empty"))
    else
      var decoded := decode(response);
      if Empty(decoded) then Err(Message("Cant' decoded curl response: " + response))
      else if decoded.Arr? then Ok(decoded.entries)
      else Err(TypeError)
  }

  /** renameDataKeys: the same loop as the newer base class, over this
      source's map. */
  function RenameDataKeys(data: PhpArray): PhpArray
  {
    Renamed(data, data, Replaces)
  }

  /** renameDataKeys moves picture to pic, given_name to first_name and
      family_name to last_name with their values; other keys stay. */
  lemma {:induction false} RenamedKeys(data: PhpArray, k: string)
    requires KeysDistinct(data)
    ensures k in Replaces && Lookup(data, k).Some? ==>
      Lookup(RenameDataKeys(data), Replaces[k]) == Lookup(data, k) && Lookup(RenameDataKeys(data), k) == None
    ensures k !in {"picture", "given_name", "family_name", "pic", "first_name", "last_name"} ==>
      Lookup(RenameDataKeys(data), k) == Lookup(data, k)
  {
    ReplacesNoChains();
    if k in Replaces.Values {
      var key :| key in Replaces && Replaces[key] == k;
      assert key in {"picture", "given_name", "family_name"};
    }
    RenamedData(data, Replaces, k);
  }

  /** A non-empty name is split on spaces: the first two words become
      first_name and last_name (null when there is no second word), and
      name is removed. */
  function NameStep(d: PhpArray): (r: PhpArray)
    ensures forall j :: j != "name" && j != "first_name" && j != "last_name" ==> Lookup(r, j) == Lookup(d, j)
    ensures !Empty(Get(d, "name")) ==>
      var words := Explode(' ', ToStr(Get(d, "name")));
      Lookup(r, "first_name") == Some(ListAt(words, 0)) && Lookup(r, "last_name") == Some(ListAt(words, 1))
      && Lookup(r, "name") == None
    ensures Empty(Get(d, "name")) ==> r == d
  {
    if !Empty(Get(d, "name")) then
      var words := Explode(' ', ToStr(Get(d, "name")));
      Unset(Set(Set(d, "first_name", ListAt(words, 0)), "last_name", ListAt(words, 1)), "name")
    else d
  }

  /** A non-empty `from` overrides `to` and is removed. */
  function MoveStep(d: PhpArray, from: string, to: string): (r: PhpArray)
    requires from != to
    ensures forall j :: j != from && j != to ==> Lookup(r, j) == Lookup(d, j)
    ensures !Empty(Get(d, from)) ==> Lookup(r, to) == Lookup(d, from) && Lookup(r, from) == None
    ensures Empty(Get(d, from)) ==> r == d
  {
    if !Empty(Get(d, from)) then Unset(Set(d, to, Get(d, from)), from) else d
  }

  /** userDataFormatting: the name split, then given_name and family_name. */
  function UserDataFormatting(data: PhpArray): PhpArray
  {
    MoveStep(MoveStep(NameStep(data), "given_name", "first_name"), "family_name", "last_name")
  }

  /** A name "first last" gives first_name and last_name unless given_name
      or family_name, which win, are present; name, given_name and
      family_name are gone. */
  lemma {:induction false} FormattedName(data: PhpArray, first: string, last: string)
    requires Get(data, "name") == Str(first + " " + last) && ' ' !in first && ' ' !in last
    ensures Lookup(UserDataFormatting(data), "first_name") ==
      if Empty(Get(data, "given_name")) then Some(Str(first)) else Lookup(data, "given_name")
    ensures Lookup(UserDataFormatting(data), "last_name") ==
      if Empty(Get(data, "family_name")) then Some(Str(last)) else Lookup(data, "family_name")
    ensures Lookup(UserDataFormatting(data), "name") == None
  {
    NameSplits(data, first, last);
    var d1 := NameStep(data);
    var d2 := MoveStep(d1, "given_name", "first_name");
    if Empty(Get(data, "given_name")) {
      assert Lookup(d2, "first_name") == Some(Str(first));
    } else {
      assert Lookup(d2, "first_name") == Lookup(data, "given_name");
    }
    assert Lookup(d2, "last_name") == Some(Str(last));
    assert Lookup(d2, "family_name") == Lookup(data, "family_name");
    assert Lookup(d2, "name") == None;
    var d3 := MoveStep(d2, "family_name", "last_name");
    assert UserDataFormatting(data) == d3;
    assert Lookup(d3, "first_name") == Lookup(d2, "first_name");
  }

  /** The name step on a name "first last". */
  lemma NameSplits(data: PhpArray, first: string, last: string)
    requires Get(data, "name") == Str(first + " " + last) && ' ' !in first && ' ' !in last
    ensures var d1 := NameStep(data);
      Lookup(d1, "first_name") == Some(Str(first)) && Lookup(d1, "last_name") == Some(Str(last))
      && Lookup(d1, "name") == None
      && Lookup(d1, "given_name") == Lookup(data, "given_name")
      && Lookup(d1, "family_name") == Lookup(data, "family_name")
  {
    SplitName(first, last);
  }

  /** Two space-free words joined by a space split back into them, and
      their text is not empty in PHP's sense. */
  lemma SplitName(first: string, last: string)
    requires ' ' !in first && ' ' !in last
    ensures Explode(' ', first + " " + last) == [first, last]
    ensures !Empty(Str(first + " " + last))
  {
    ExplodeImplode(' ', [first, last]);
    assert Implode([' '], [first, last]) == first + " " + last;
    assert (first + " " + last)[|first|] == ' ';
  }

  /** Without a name, a non-empty given_name and family_name are moved to
      first_name and last_name. */
  lemma {:induction false} FormattedGivenNames(data: PhpArray)
    requires Empty(Get(data, "name"))
    ensures !Empty(Get(data, "given_name")) ==>
      Lookup(UserDataFormatting(data), "first_name") == Lookup(data, "given_name")
      && Lookup(UserDataFormatting(data), "given_name") == None
    ensures !Empty(Get(data, "family_name")) ==>
      Lookup(UserDataFormatting(data), "last_name") == Lookup(data, "family_name")
      && Lookup(UserDataFormatting(data), "family_name") == None
  {
    var d2 := MoveStep(data, "given_name", "first_name");
    assert Get(d2, "family_name") == Get(data, "family_name");
  }
}
