/**
 * Grants (Models/AuthGrant.php): one row per way a user may sign in. The
 * file shows insertion, lookup by source token, confirmation, recovery and
 * the status text; the password and code operations the flows call
 * (makeWithPassword, findWithPasswordByUserId, checkPassword,
 * setPasswordHash, changePassword, makeWithCode, findForeign, makeForeign)
 * are not in it, and are modelled here as table operations whose contracts
 * follow from their names and call sites, with the password hash an
 * opaque function.
 */
module AuthGrant {
  import opened Wrappers
  import opened Php
  import opened Errors
  import opened Records
  import opened Database

  const StatusInit: int := 0
  const StatusConfirmed: int := 1
  const StatusUnactive: int := 2
  const StatusOutdated: int := 3

  /** The source name of password grants. */
  const PasswordSource: string := "password"
  /** The source name of code grants. */
  const CodeSource: string := "code"

  /** Appending a grant numbered after the last keeps ids as positions. */
  method Insert(db: Db, userId: int, source: string, login: Option<string>, token: string) returns (g: Grant)
    requires db.Valid()
    modifies db`grants
    ensures db.Valid()
    ensures db.grants == old(db.grants) + [g]
    ensures g == Grant(|old(db.grants)| + 1, userId, source, login, token, None)
  {
    g := Grant(|db.grants| + 1, userId, source, login, token, None);
    db.grants := db.grants + [g];
  }

  /** make: inserts exactly user_id, source, login and token; the source is
      not validated. */
  method Make(db: Db, userId: int, source: string, login: string, token: string) returns (g: Grant)
    requires db.Valid()
    modifies db`grants
    ensures db.Valid()
    ensures db.grants == old(db.grants) + [g]
    ensures g == Grant(|old(db.grants)| + 1, userId, source, Some(login), token, None)
  {
    g := Insert(db, userId, source, Some(login), token);
  }

  /** findBySourceToken: the first grant matching both source and token. */
  function FindBySourceToken(grants: seq<Grant>, source: string, token: string): (r: Option<nat>)
    ensures r.Some? ==> r.value < |grants| && grants[r.value].source == source && grants[r.value].token == token
    ensures r.None? <==> forall j :: 0 <= j < |grants| ==> !(grants[j].source == source && grants[j].token == token)
  {
    FirstIndex(grants, (g: Grant) => g.source == source && g.token == token)
  }

  /** findById. */
  function FindById(grants: seq<Grant>, id: int): (r: Option<nat>)
    ensures r.Some? ==> r.value < |grants| && grants[r.value].id == id
    ensures r.None? <==> forall j :: 0 <= j < |grants| ==> grants[j].id != id
  {
    FirstIndex(grants, (g: Grant) => g.id == id)
  }

  /** confirm: the status becomes CONFIRMED, nothing else changes. */
  function Confirm(g: Grant): (c: Grant)
    ensures c.status == Some(StatusConfirmed)
    ensures c == g.(status := c.status)
  {
    g.(status := Some(StatusConfirmed))
  }

  /** recovery: the token is replaced, then the grant is confirmed. */
  function Recovery(g: Grant, token: string): (c: Grant)
    ensures c.token == token && c.status == Some(StatusConfirmed)
    ensures c == g.(token := c.token, status := c.status)
  {
    Confirm(g.(token := token))
  }

  /** Recovering twice with the same token is the same as recovering once. */
  lemma RecoveryIdempotent(g: Grant, token: string)
    ensures Recovery(Recovery(g, token), token) == Recovery(g, token)
  {
  }

  /** Saving a changed grant in place keeps the table's ids. */
  method Save(db: Db, k: nat, g: Grant)
    requires db.Valid() && k < |db.grants| && g.id == db.grants[k].id
    modifies db`grants
    ensures db.Valid()
    ensures db.grants == old(db.grants)[k := g]
  {
    db.grants := db.grants[k := g];
  }

  /** The status text: the configured format filled with the source and the
      status label, the label read from the configured map under the
      status (a null status reads the empty key). */
  function StatusLabel(g: Grant, statusesMap: Value): (text: string)
    ensures g.status.None? ==> text == ToStr(At(statusesMap, ""))
    ensures g.status.Some? ==> text == ToStr(At(statusesMap, IntToString(g.status.value)))
  {
    ToStr(At(statusesMap, if g.status.Some? then IntToString(g.status.value) else ""))
  }

  function GetStringStatus(g: Grant, format: Value, statusesMap: Value): (r: Result<string, AuthError>)
    ensures r.Err? <==> Format(ToStr(format), [g.source, StatusLabel(g, statusesMap)]).Err?
    ensures r.Err? ==> r.error == ArgumentCount
  {
    match Format(ToStr(format), [g.source, StatusLabel(g, statusesMap)])
    case Ok(s) => Ok(s)
    case Err(_) => Err(ArgumentCount)
  }

  const DefaultStatusFormat: string := "Вход через %s %s"

  /** A format with two `%s` and no other `%` gives its text with the
      source in the first place and the status label in the second. */
  lemma StatusTextFilled(g: Grant, pre: string, mid: string, post: string, statusesMap: Value)
    requires '%' !in pre && '%' !in mid && '%' !in post
    ensures GetStringStatus(g, Str(pre + "%s" + mid + "%s" + post), statusesMap)
      == Ok(pre + g.source + mid + StatusLabel(g, statusesMap) + post)
  {
    FormatTwoArgumentsAround(pre, mid, post, g.source, StatusLabel(g, statusesMap));
  }

  /** With the default format the text is "Вход через <source> <label>". */
  lemma DefaultStringStatus(g: Grant, statusesMap: Value)
    ensures GetStringStatus(g, Str(DefaultStatusFormat), statusesMap)
      == Ok("Вход через " + g.source + " " + StatusLabel(g, statusesMap))
  {
    FormatTwoArguments("Вход через ", " ", g.source, StatusLabel(g, statusesMap));
    assert DefaultStatusFormat == "Вход через " + "%s" + " " + "%s";
  }

  // Operations the flows call that the grant model does not show.

  /** findWithPasswordByUserId: the user's first password grant. */
  function FindWithPasswordByUserId(grants: seq<Grant>, userId: int): (r: Option<nat>)
    ensures r.Some? ==> r.value < |grants| && grants[r.value].userId == userId && grants[r.value].source == PasswordSource
    ensures r.None? <==> forall j :: 0 <= j < |grants| ==> !(grants[j].userId == userId && grants[j].source == PasswordSource)
  {
    FirstIndex(grants, (g: Grant) => g.userId == userId && g.source == PasswordSource)
  }

  /** checkPassword: the stored token is the password's hash. */
  predicate CheckPassword(g: Grant, password: string, hash: string -> string)
  {
    g.token == hash(password)
  }

  /** makeWithPassword: a new password grant holding the password's hash. */
  method MakeWithPassword(db: Db, userId: int, password: string, hash: string -> string) returns (g: Grant)
    requires db.Valid()
    modifies db`grants
    ensures db.Valid()
    ensures db.grants == old(db.grants) + [g]
    ensures g == Grant(|old(db.grants)| + 1, userId, PasswordSource, None, hash(password), None)
    ensures CheckPassword(g, password, hash)
  {
    g := Insert(db, userId, PasswordSource, None, hash(password));
  }

  /** createWithPassword, the name the older flow calls: the same insert. */
  method CreateWithPassword(db: Db, userId: int, password: string, hash: string -> string) returns (g: Grant)
    requires db.Valid()
    modifies db`grants
    ensures db.Valid()
    ensures db.grants == old(db.grants) + [g]
    ensures g == Grant(|old(db.grants)| + 1, userId, PasswordSource, None, hash(password), None)
  {
    g := Insert(db, userId, PasswordSource, None, hash(password));
  }

  /** setPasswordHash: the grant now holds the new password's hash. */
  function SetPasswordHash(g: Grant, password: string, hash: string -> string): (c: Grant)
    ensures CheckPassword(c, password, hash)
    ensures c == g.(token := c.token)
  {
    g.(token := hash(password))
  }

  /** changePassword: the old password must match; then the new one is set. */
  function ChangePassword(g: Grant, oldPassword: string, password: string, hash: string -> string): (r: Result<Grant, AuthError>)
    ensures r.Ok? <==> CheckPassword(g, oldPassword, hash)
    ensures r.Ok? ==> r.value == SetPasswordHash(g, password, hash)
    ensures r.Err? ==> r.error == Build("user_fail_password", [])
  {
    if CheckPassword(g, oldPassword, hash) then Ok(SetPasswordHash(g, password, hash))
    else Err(Build("user_fail_password", []))
  }

  /** After a change the new password verifies and, unless both hash
      alike, the old one no longer does. */
  lemma ChangedPasswordVerifies(g: Grant, oldPassword: string, password: string, hash: string -> string)
    requires CheckPassword(g, oldPassword, hash)
    ensures ChangePassword(g, oldPassword, password, hash).Ok?
    ensures CheckPassword(ChangePassword(g, oldPassword, password, hash).value, password, hash)
    ensures hash(oldPassword) != hash(password) ==>
      !CheckPassword(ChangePassword(g, oldPassword, password, hash).value, oldPassword, hash)
  {
  }

  /** makeWithCode: a code grant whose login is the address. */
  method MakeWithCode(db: Db, userId: int, to: string) returns (g: Grant)
    requires db.Valid()
    modifies db`grants
    ensures db.Valid()
    ensures db.grants == old(db.grants) + [g]
    ensures g == Grant(|old(db.grants)| + 1, userId, CodeSource, Some(to), "", None)
  {
    g := Insert(db, userId, CodeSource, Some(to), "");
  }

  /** findForeign: the first grant of the source whose login is the source
      key; a null key equals nothing, as in SQL. */
  function FindForeign(grants: seq<Grant>, source: string, sourceKey: Option<string>): (r: Option<nat>)
    ensures r.Some? ==> r.value < |grants| && grants[r.value].source == source && sourceKey.Some? && grants[r.value].login == sourceKey
    ensures r.None? <==> sourceKey.None? || forall j :: 0 <= j < |grants| ==> !(grants[j].source == source && grants[j].login == sourceKey)
  {
    if sourceKey.None? then None
    else FirstIndex(grants, (g: Grant) => g.source == source && g.login == sourceKey)
  }

  /** makeForeign: a grant of the source whose login is the source key. */
  method MakeForeign(db: Db, userId: int, source: string, sourceKey: Option<string>) returns (g: Grant)
    requires db.Valid()
    modifies db`grants
    ensures db.Valid()
    ensures db.grants == old(db.grants) + [g]
    ensures g == Grant(|old(db.grants)| + 1, userId, source, sourceKey, "", None)
  {
    g := Insert(db, userId, source, sourceKey, "");
  }

  /** A foreign grant, once made, is what findForeign returns for its key
      if no earlier grant matched. */
  lemma {:induction false} MadeForeignIsFound(grants: seq<Grant>, g: Grant, source: string, key: string)
    requires FindForeign(grants, source, Some(key)).None?
    requires g.source == source && g.login == Some(key)
    ensures FindForeign(grants + [g], source, Some(key)) == Some(|grants|)
  {
    var p := (x: Grant) => x.source == source && x.login == Some(key);
    var all := grants + [g];
    assert forall j :: 0 <= j < |grants| ==> all[j] == grants[j];
    assert p(all[|grants|]);
  }
}
