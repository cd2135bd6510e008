/**
 * Confirmation codes of the newer code (Models/AuthConfirm.php). The same
 * class also serves the recovery table (Models/AuthRecovery.php adds
 * nothing), so every operation takes `recovery` to pick the table.
 */
module AuthConfirm {
  import opened Wrappers
  import opened Php
  import opened Errors
  import opened Records
  import opened Database
  import opened Tokens

  const TypeEmail: int := 1
  const TypePhone: int := 2

  /** TYPES: a null key is stored as the empty string, integer keys as their
      decimal form. */
  const Types: PhpArray := [Entry("", Str("unknown")), Entry("1", Str("email")), Entry("2", Str("phone"))]

  /** The alphabet of confirmation codes. */
  const CodeSymbols: string := "0123456789"

  /** The value PHP gives back for an array key: decimal keys are integers. */
  function KeyValue(k: string): Value
  {
    if IsDigits(k) && (k == "0" || k[0] != '0') then Int(DigitsValue(k)) else Str(k)
  }

  /** `array_search($v, $a)`: the key of the first entry holding `v`, or
      false. */
  function ArraySearch(a: PhpArray, v: Value): (r: Value)
    ensures r == Bool(false) <==> forall i :: 0 <= i < |a| ==> a[i].val != v
    ensures r != Bool(false) ==> exists i :: 0 <= i < |a| && a[i].val == v && r == KeyValue(a[i].key)
  {
    if |a| == 0 then Bool(false)
    else if a[0].val == v then KeyValue(a[0].key)
    else ArraySearch(a[1..], v)
  }

  /** The type make stores for an explicit type name: its key in TYPES, or
      false for a name TYPES does not hold (`??` does not replace false). */
  lemma ExplicitTypes()
    ensures ArraySearch(Types, Str("email")) == Int(TypeEmail)
    ensures ArraySearch(Types, Str("phone")) == Int(TypePhone)
    ensures ArraySearch(Types, Str("unknown")) == Str("")
    ensures forall name :: name !in {"email", "phone", "unknown"} ==> ArraySearch(Types, Str(name)) == Bool(false)
  {
    var rest := Types[1..];
    assert rest == [Entry("1", Str("email")), Entry("2", Str("phone"))];
    assert rest[1..] == [Entry("2", Str("phone"))];
    assert rest[1..][1..] == [];
    assert KeyValue("1") == Int(1) by { assert DigitsValue("1") == 1; }
    assert KeyValue("2") == Int(2) by { assert DigitsValue("2") == 2; }
    assert KeyValue("") == Str("");
    forall name | name !in {"email", "phone", "unknown"}
      ensures ArraySearch(Types, Str(name)) == Bool(false)
    {
      assert ArraySearch(rest[1..][1..], Str(name)) == Bool(false);
    }
  }

  /** getRecipientType, corrected: email if the validation library's e-mail
      field accepts the recipient, else phone if its phone field does, else
      null. As written the two fields are not imported; see
      StoredTypeAsWritten. */
  function RecipientType(to: string, isEmail: string -> bool, isPhone: string -> bool): (t: Value)
    ensures t == Int(TypeEmail) <==> isEmail(to)
    ensures t == Int(TypePhone) <==> !isEmail(to) && isPhone(to)
    ensures t == Null <==> !isEmail(to) && !isPhone(to)
  {
    if isEmail(to) then Int(TypeEmail) else if isPhone(to) then Int(TypePhone) else Null
  }

  /** The type make stores: an explicit, truthy type name is searched in
      TYPES; otherwise the recipient is classified. */
  function StoredType(typeArg: Option<string>, to: string, isEmail: string -> bool, isPhone: string -> bool): Value
  {
    if typeArg.Some? && Truthy(Str(typeArg.value)) then ArraySearch(Types, Str(typeArg.value))
    else RecipientType(to, isEmail, isPhone)
  }

  /** The class getRecipientType instantiates AS WRITTEN: the model file
      imports neither EmailField nor PhoneField, so `new EmailField` names a
      class of its own namespace, which does not exist. */
  const UnimportedEmailField: string := "Evas\\Auth\\Models\\EmailField"

  /** The type make stores AS WRITTEN: an explicit, truthy type name as in
      StoredType; without one, getRecipientType raises on its first `new`. */
  function StoredTypeAsWritten(typeArg: Option<string>, to: string): (r: Result<Value, AuthError>)
    ensures r.Err? <==> !(typeArg.Some? && Truthy(Str(typeArg.value)))
    ensures r.Err? ==> r.error == UndefinedClass(UnimportedEmailField)
  {
    if typeArg.Some? && Truthy(Str(typeArg.value)) then Ok(ArraySearch(Types, Str(typeArg.value)))
    else Err(UndefinedClass(UnimportedEmailField))
  }

  /** As written, make without a type raises even for an e-mail recipient,
      which the corrected getRecipientType types TYPE_EMAIL. */
  lemma UntypedEmailRaisesAsWritten(to: string, isEmail: string -> bool, isPhone: string -> bool)
    requires isEmail(to)
    ensures StoredTypeAsWritten(None, to) == Err(UndefinedClass(UnimportedEmailField))
    ensures StoredType(None, to, isEmail, isPhone) == Int(TypeEmail)
  {
  }

  /** With a truthy type name, as every flow passes, the code as written
      stores what the corrected make stores. */
  lemma TypedMakeAgreesAsWritten(typeArg: Option<string>, to: string, isEmail: string -> bool, isPhone: string -> bool)
    requires typeArg.Some? && Truthy(Str(typeArg.value))
    ensures StoredTypeAsWritten(typeArg, to) == Ok(StoredType(typeArg, to, isEmail, isPhone))
  {
  }

  /** An email recipient is typed TYPE_EMAIL, whether the caller names the
      type "email" or leaves it out. */
  lemma EmailRecipientIsTypedEmail(to: string, typeArg: Option<string>, isEmail: string -> bool, isPhone: string -> bool)
    requires isEmail(to)
    requires typeArg == None || typeArg == Some("email")
    ensures StoredType(typeArg, to, isEmail, isPhone) == Int(TypeEmail)
  {
    ExplicitTypes();
  }

  /** isOutdated: strictly past the end time. */
  predicate IsOutdated(c: Confirm, now: int)
  {
    now > c.endTime
  }

  /** isCompleted: a completion time has been recorded. */
  predicate IsCompleted(c: Confirm)
  {
    c.completeTime.Some?
  }

  /** complete: refuses an outdated record; otherwise stamps the completion
      time, also on a record that was already completed. */
  function Complete(c: Confirm, now: int): (r: Result<Confirm, AuthError>)
    ensures r.Err? <==> IsOutdated(c, now)
    ensures r.Err? ==> r.error == Build("code_is_outdated", [])
    ensures r.Ok? ==> r.value.completeTime == Some(now) && IsCompleted(r.value)
    ensures r.Ok? ==> r.value == c.(completeTime := r.value.completeTime)
  {
    if IsOutdated(c, now) then Err(Build("code_is_outdated", []))
    else Ok(c.(completeTime := Some(now)))
  }

  /** Completing twice before the end time succeeds both times; the second
      call only moves the completion time. */
  lemma CompleteTwice(c: Confirm, t1: int, t2: int)
    requires t1 <= t2 && !IsOutdated(c, t2)
    ensures Complete(c, t1).Ok? && Complete(Complete(c, t1).value, t2) == Ok(c.(completeTime := Some(t2)))
  {
  }

  /** The column a lookup compares next to user_id. */
  datatype Column = CodeColumn | ToColumn

  function ColumnValue(c: Confirm, col: Column): string
  {
    match col
    case CodeColumn => c.code
    case ToColumn => c.to
  }

  /** findByUserIdAndCode (the code column) and findByUserIdAndTo (the to
      column): the first row of the user whose column holds the value. */
  function FindByUserIdAnd(rows: seq<Confirm>, userId: int, col: Column, value: string): (r: Option<nat>)
    ensures r.Some? ==> r.value < |rows| && rows[r.value].userId == userId && ColumnValue(rows[r.value], col) == value
    ensures r.None? <==> forall j :: 0 <= j < |rows| ==> !(rows[j].userId == userId && ColumnValue(rows[j], col) == value)
  {
    FirstIndex(rows, (c: Confirm) => c.userId == userId && ColumnValue(c, col) == value)
  }

  /** The lookup ignores completion and expiry: after a record is completed
      the same code still finds it. */
  lemma {:induction false} CompletedCodeIsFoundAgain(rows: seq<Confirm>, userId: int, code: string, now: int)
    requires FindByUserIdAnd(rows, userId, CodeColumn, code).Some?
    requires Complete(rows[FindByUserIdAnd(rows, userId, CodeColumn, code).value], now).Ok?
    ensures var k := FindByUserIdAnd(rows, userId, CodeColumn, code).value;
      FindByUserIdAnd(rows[k := Complete(rows[k], now).value], userId, CodeColumn, code) == Some(k)
  {
    var k := FindByUserIdAnd(rows, userId, CodeColumn, code).value;
    FirstIndexUpdate(rows, k, Complete(rows[k], now).value, (c: Confirm) => c.userId == userId && ColumnValue(c, CodeColumn) == code);
  }

  /** A code just issued to a user is what the check-code flows find for that user
      and code: codes are unique in the table, so no earlier row can match. */
  lemma {:induction false} IssuedCodeIsFound(rows: seq<Confirm>, c: Confirm)
    requires c.code !in CodesOf(rows)
    ensures FindByUserIdAnd(rows + [c], c.userId, CodeColumn, c.code) == Some(|rows|)
  {
    var all := rows + [c];
    forall j | 0 <= j < |rows|
      ensures !(all[j].userId == c.userId && all[j].code == c.code)
    {
      assert all[j] == rows[j] && rows[j] in rows;
    }
    FirstIndexAppendNew(rows, c, (x: Confirm) => x.userId == c.userId && ColumnValue(x, CodeColumn) == c.code);
  }

  /** Once a user has a row for an address, rows added later never change
      which row the lookup returns: it keeps returning the oldest. */
  lemma {:induction false} OldestRowWins(rows: seq<Confirm>, extra: seq<Confirm>, userId: int, to: string)
    requires FindByUserIdAnd(rows, userId, ToColumn, to).Some?
    ensures FindByUserIdAnd(rows + extra, userId, ToColumn, to) == FindByUserIdAnd(rows, userId, ToColumn, to)
  {
    FirstIndexAppend(rows, extra, (c: Confirm) => c.userId == userId && ColumnValue(c, ToColumn) == to);
  }

  function CodesOf(rows: seq<Confirm>): set<string>
  {
    set c | c in rows :: c.code
  }

  /** The table a call works on. */
  function ConfirmTable(recovery: bool): string
  {
    if recovery then "auth_recovery" else "auth_confirm"
  }

  function Rows(db: Db, recovery: bool): seq<Confirm>
    reads db
  {
    if recovery then db.recoveries else db.confirms
  }

  /** The code settings read from the configuration. */
  datatype CodeSettings = CodeSettings(codeLength: int, codeAlive: int, maxTries: int)

  /** Code draws pick one of the ten digits. */
  ghost predicate CodeDraws(draws: (nat, nat) -> int)
  {
    forall t, i :: 1 <= draws(t, i) <= |CodeSymbols|
  }

  /** Inserting a row whose code is new keeps the code column unique. */
  lemma {:induction false} AppendKeepsCodesUnique(rows: seq<Confirm>, c: Confirm)
    requires CodesUnique(rows) && c.code !in CodesOf(rows)
    ensures CodesUnique(rows + [c])
  {
    var all := rows + [c];
    forall i, j | 0 <= i < j < |all| ensures all[i].code != all[j].code {
      if j == |rows| {
        assert all[i] in rows;
      }
    }
  }

  /** Every one of the `max_tries` candidate codes is already held by a
      row: generateCode gives up. */
  predicate CodesExhausted(rows: seq<Confirm>, settings: CodeSettings, draws: (nat, nat) -> int)
    requires CodeDraws(draws)
  {
    forall t :: 0 <= t < settings.maxTries ==> Candidate(CodeSymbols, settings.codeLength, draws, t) in CodesOf(rows)
  }

  /** generateCode: a code of `code_length` digits that no row of the
      table holds, or the exhaustion error. Nothing is written. */
  method GenerateCode(db: Db, recovery: bool, settings: CodeSettings, draws: (nat, nat) -> int)
    returns (r: Result<string, AuthError>)
    requires CodeDraws(draws)
    ensures r.Ok? ==> r.value !in CodesOf(Rows(db, recovery))
    ensures r.Ok? ==> |r.value| == (if settings.codeLength < 0 then 0 else settings.codeLength)
    ensures r.Ok? ==> forall i :: 0 <= i < |r.value| ==> IsDigit(r.value[i])
    ensures r.Err? ==> r.error == Build("token_exceeed_max_try_generated", [])
    ensures r.Err? <==> CodesExhausted(Rows(db, recovery), settings, draws)
  {
    var codes := CodesOf(Rows(db, recovery));
    var table := ConfirmTable(recovery);
    var token := new Token(Props(Some(CodeSymbols), Some(settings.codeLength), Some(settings.maxTries)));
    var taken := (t: string, f: string, v: string) => t == table && f == "code" && v in codes;
    r := token.GenerateUniqueIn(List([table, "code"]), None, draws, taken);
    if r.Ok? {
      var k := FirstUniqueFound(CodeSymbols, settings.codeLength, draws, settings.maxTries, taken, table, "code", 0);
      SpelledDigits(settings.codeLength, (i: nat) => draws(k, i));
    }
  }

  lemma SpelledDigits(n: int, draw: nat -> int)
    requires forall i :: 0 <= i < n ==> 1 <= draw(i) <= |CodeSymbols|
    ensures |Spelled(CodeSymbols, n, draw)| == (if n < 0 then 0 else n)
    ensures forall i :: 0 <= i < |Spelled(CodeSymbols, n, draw)| ==> IsDigit(Spelled(CodeSymbols, n, draw)[i])
  {
    var s := Spelled(CodeSymbols, n, draw);
    forall i | 0 <= i < |s| ensures IsDigit(s[i]) {
      assert s[i] == CodeSymbols[draw(i) - 1];
    }
  }

  /** Row `c` is one make appends to `rows`: the next id, the user, the
      address, the stored type, end time now + code_alive, not completed,
      and a code of the configured length no earlier row holds. */
  predicate MadeRow(rows: seq<Confirm>, c: Confirm, userId: int, to: string, typeArg: Option<string>, now: int,
                    settings: CodeSettings, isEmail: string -> bool, isPhone: string -> bool)
  {
    c.id == |rows| + 1 && c.userId == userId && c.to == to
    && c.typ == StoredType(typeArg, to, isEmail, isPhone)
    && c.endTime == now + settings.codeAlive && c.completeTime == None
    && c.code !in CodesOf(rows)
    && |c.code| == (if settings.codeLength < 0 then 0 else settings.codeLength)
  }

  /** make: always inserts a new row, never reuses one: the user, the
      address, a fresh code, the stored type and end time now + code_alive.
      A code that cannot be generated raises and inserts nothing. */
  method Make(db: Db, recovery: bool, userId: int, to: string, typeArg: Option<string>, now: int,
              settings: CodeSettings, isEmail: string -> bool, isPhone: string -> bool, draws: (nat, nat) -> int)
    returns (r: Result<Confirm, AuthError>)
    requires db.Valid() && CodeDraws(draws)
    modifies db`confirms, db`recoveries
    ensures db.Valid()
    ensures Rows(db, !recovery) == old(Rows(db, !recovery))
    ensures r.Err? ==> Rows(db, recovery) == old(Rows(db, recovery))
    ensures r.Err? ==> r.error == Build("token_exceeed_max_try_generated", [])
    ensures r.Err? <==> CodesExhausted(old(Rows(db, recovery)), settings, draws)
    ensures r.Ok? ==> Rows(db, recovery) == old(Rows(db, recovery)) + [r.value]
    ensures r.Ok? ==> r.value.id == |old(Rows(db, recovery))| + 1
    ensures r.Ok? ==> r.value.userId == userId && r.value.to == to
    ensures r.Ok? ==> r.value.typ == StoredType(typeArg, to, isEmail, isPhone)
    ensures r.Ok? ==> r.value.endTime == now + settings.codeAlive && r.value.completeTime == None
    ensures r.Ok? ==> r.value.code !in CodesOf(old(Rows(db, recovery)))
    ensures r.Ok? ==> |r.value.code| == (if settings.codeLength < 0 then 0 else settings.codeLength)
  {
    var code := GenerateCode(db, recovery, settings, draws);
    if code.Err? {
      return Err(code.error);
    }
    var typ := StoredType(typeArg, to, isEmail, isPhone);
    var rows := Rows(db, recovery);
    var row := Confirm(|rows| + 1, userId, to, code.value, typ, now + settings.codeAlive, None);
    AppendKeepsCodesUnique(rows, row);
    if recovery {
      db.recoveries := db.recoveries + [row];
    } else {
      db.confirms := db.confirms + [row];
    }
    r := Ok(row);
  }

  /** complete on the stored row `k`, followed by save. An outdated row is
      refused and nothing changes. */
  method CompleteRow(db: Db, recovery: bool, k: nat, now: int) returns (r: Result<Confirm, AuthError>)
    requires db.Valid() && k < |Rows(db, recovery)|
    modifies db`confirms, db`recoveries
    ensures db.Valid()
    ensures Rows(db, !recovery) == old(Rows(db, !recovery))
    ensures r == Complete(old(Rows(db, recovery))[k], now)
    ensures r.Err? ==> Rows(db, recovery) == old(Rows(db, recovery))
    ensures r.Ok? ==> Rows(db, recovery) == old(Rows(db, recovery))[k := r.value]
  {
    var rows := Rows(db, recovery);
    r := Complete(rows[k], now);
    if r.Ok? {
      if recovery {
        db.recoveries := db.recoveries[k := r.value];
      } else {
        db.confirms := db.confirms[k := r.value];
      }
      assert forall i :: 0 <= i < |rows| ==> rows[k := r.value][i].code == rows[i].code;
    }
  }
}
