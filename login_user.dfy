/**
 * The user model's part of sign-in (Models/LoginUserTrait.php): which
 * columns identify a user, the lookup by those columns, and the inserts.
 * The columns of the host's users table are a parameter of the model
 * object; the query `k1 = ? OR k2 = ? ...` is evaluated by comparing each
 * named column with its parameter.
 */
module LoginUser {
  import opened Wrappers
  import opened Php
  import opened Records
  import opened Database

  /** The unique keys with their labels, in declaration order. */
  const KeysWithLabels: seq<(string, string)> := [("email", "Email"), ("phone", "Телефон"), ("login", "Логин")]

  function KeysOf(pairs: seq<(string, string)>): (keys: seq<string>)
    ensures |keys| == |pairs| && forall i :: 0 <= i < |pairs| ==> keys[i] == pairs[i].0
  {
    if |pairs| == 0 then [] else [pairs[0].0] + KeysOf(pairs[1..])
  }

  /** `xs` is `ys` with some elements left out, order kept. */
  predicate Subsequence(xs: seq<string>, ys: seq<string>)
    decreases |ys|
  {
    |xs| == 0 || (|ys| > 0 && (if xs[0] == ys[0] then Subsequence(xs[1..], ys[1..]) else Subsequence(xs, ys[1..])))
  }

  /** The keys that are columns of the table, in the order given. */
  function FilterColumns(keys: seq<string>, columns: seq<string>): (r: seq<string>)
    ensures forall k :: k in r <==> k in keys && k in columns
  {
    if |keys| == 0 then []
    else if keys[0] in columns then [keys[0]] + FilterColumns(keys[1..], columns)
    else FilterColumns(keys[1..], columns)
  }

  /** Filtering keeps the order of the keys. */
  lemma {:induction false} FilterColumnsKeepsOrder(keys: seq<string>, columns: seq<string>)
    ensures Subsequence(FilterColumns(keys, columns), keys)
  {
    if |keys| > 0 {
      FilterColumnsKeepsOrder(keys[1..], columns);
      var rest := FilterColumns(keys[1..], columns);
      if keys[0] in columns {
        assert ([keys[0]] + rest)[1..] == rest;
      } else if |rest| > 0 {
        assert rest[0] in rest;
        assert rest[0] != keys[0];
      }
    }
  }

  /** The static part of the configured user class: its table's columns and
      the `uniqueKeys` cache. */
  class UserModel {
    const columns: seq<string>
    var keysCache: Option<seq<string>>

    ghost predicate Valid()
      reads this
    {
      keysCache.Some? ==> keysCache.value == FilterColumns(KeysOf(KeysWithLabels), columns)
    }

    constructor (columns: seq<string>)
      ensures Valid() && this.columns == columns && keysCache == None
    {
      this.columns := columns;
      keysCache := None;
    }

    /** uniqueKeys: email, phone and login, those that are columns, in that
        order; computed on the first call and cached. */
    method UniqueKeys() returns (keys: seq<string>)
      requires Valid()
      modifies this`keysCache
      ensures Valid()
      ensures keys == FilterColumns(KeysOf(KeysWithLabels), columns)
      ensures keysCache == Some(keys)
      ensures old(keysCache).Some? ==> keysCache == old(keysCache)
    {
      if keysCache.None? {
        keysCache := Some(FilterColumns(KeysOf(KeysWithLabels), columns));
      }
      keys := keysCache.value;
    }
  }

  /** A table with every unique column has the keys in declaration order. */
  lemma AllColumnsGiveAllKeys(columns: seq<string>)
    requires "email" in columns && "phone" in columns && "login" in columns
    ensures FilterColumns(KeysOf(KeysWithLabels), columns) == ["email", "phone", "login"]
  {
    var keys := KeysOf(KeysWithLabels);
    assert keys == ["email", "phone", "login"];
    assert keys[1..] == ["phone", "login"] && keys[1..][1..] == ["login"] && keys[1..][1..][1..] == [];
    assert FilterColumns(["login"], columns) == ["login"];
    assert FilterColumns(["phone", "login"], columns) == ["phone", "login"];
  }

  /** getUniqueKeyLabel: the label declared for the key, or null. */
  function GetUniqueKeyLabel(name: string): (r: Option<string>)
    ensures r.Some? <==> name in KeysOf(KeysWithLabels)
    ensures name == "email" ==> r == Some("Email")
    ensures name == "phone" ==> r == Some("Телефон")
    ensures name == "login" ==> r == Some("Логин")
  {
    assert KeysOf(KeysWithLabels) == ["email", "phone", "login"];
    if name == "email" then Some("Email")
    else if name == "phone" then Some("Телефон")
    else if name == "login" then Some("Логин")
    else None
  }

  /** The unique keys set in the data, in key order. */
  function SetKeys(keys: seq<string>, data: PhpArray): (r: seq<string>)
    ensures |r| <= |keys|
  {
    if |keys| == 0 then []
    else if IsSet(data, keys[0]) then [keys[0]] + SetKeys(keys[1..], data)
    else SetKeys(keys[1..], data)
  }

  /** A key is among the set keys exactly when it is a unique key set in
      the data. */
  lemma {:induction false} SetKeysMembers(keys: seq<string>, data: PhpArray)
    ensures forall k :: k in SetKeys(keys, data) <==> k in keys && IsSet(data, k)
  {
    if |keys| > 0 {
      SetKeysMembers(keys[1..], data);
      assert keys == [keys[0]] + keys[1..];
    }
  }

  /** One placeholder condition per key. */
  function Placeholders(keys: seq<string>): (r: seq<string>)
    ensures |r| == |keys|
  {
    if |keys| == 0 then [] else [keys[0] + " = ?"] + Placeholders(keys[1..])
  }

  /** The data's value for each key, in the same order. */
  function Params(keys: seq<string>, data: PhpArray): (r: seq<Value>)
    ensures |r| == |keys|
  {
    if |keys| == 0 then [] else [Get(data, keys[0])] + Params(keys[1..], data)
  }

  /** The condition at each position names the key at that position. */
  lemma {:induction false} PlaceholderAt(keys: seq<string>, i: nat)
    requires i < |keys|
    ensures Placeholders(keys)[i] == keys[i] + " = ?"
  {
    if i > 0 {
      PlaceholderAt(keys[1..], i - 1);
    }
  }

  /** The parameter at each position is the data's value for the key at
      that position. */
  lemma {:induction false} ParamAt(keys: seq<string>, data: PhpArray, i: nat)
    requires i < |keys|
    ensures Params(keys, data)[i] == Get(data, keys[i])
  {
    if i > 0 {
      ParamAt(keys[1..], data, i - 1);
    }
  }

  /** The loop of findByUniqueKeys: a condition and a parameter for each
      unique key set in the data, in key order. */
  method BuildCondition(keys: seq<string>, data: PhpArray) returns (conds: seq<string>, props: seq<Value>)
    ensures conds == Placeholders(SetKeys(keys, data))
    ensures props == Params(SetKeys(keys, data), data)
  {
    conds, props := [], [];
    var i := 0;
    while i < |keys|
      invariant 0 <= i <= |keys|
      invariant conds == Placeholders(SetKeys(keys[..i], data))
      invariant props == Params(SetKeys(keys[..i], data), data)
    {
      var k := keys[i];
      BuildStep(keys, i, data);
      if IsSet(data, k) {
        conds := conds + [k + " = ?"];
        props := props + [Get(data, k)];
      }
      i := i + 1;
    }
    assert keys[..i] == keys;
  }

  /** One iteration of the loop: a set key adds its condition and its
      parameter at the end, any other key adds nothing. */
  lemma BuildStep(keys: seq<string>, i: nat, data: PhpArray)
    requires i < |keys|
    ensures IsSet(data, keys[i]) ==>
      Placeholders(SetKeys(keys[..i + 1], data)) == Placeholders(SetKeys(keys[..i], data)) + [keys[i] + " = ?"]
      && Params(SetKeys(keys[..i + 1], data), data) == Params(SetKeys(keys[..i], data), data) + [Get(data, keys[i])]
    ensures !IsSet(data, keys[i]) ==>
      Placeholders(SetKeys(keys[..i + 1], data)) == Placeholders(SetKeys(keys[..i], data))
      && Params(SetKeys(keys[..i + 1], data), data) == Params(SetKeys(keys[..i], data), data)
  {
    var prefix := SetKeys(keys[..i], data);
    var added: seq<string> := if IsSet(data, keys[i]) then [keys[i]] else [];
    SetKeysSnoc(keys, i, data);
    PlaceholdersAppend(prefix, added);
    ParamsAppend(prefix, added, data);
    if IsSet(data, keys[i]) {
      assert Placeholders(added) == [keys[i] + " = ?"];
      assert Params(added, data) == [Get(data, keys[i])];
    } else {
      assert prefix + added == prefix;
    }
  }

  lemma SetKeysSnoc(keys: seq<string>, i: nat, data: PhpArray)
    requires i < |keys|
    ensures SetKeys(keys[..i + 1], data)
      == SetKeys(keys[..i], data) + (if IsSet(data, keys[i]) then [keys[i]] else [])
  {
    SetKeysSplitOne(keys[..i + 1], i, data);
    assert keys[..i + 1][..i] == keys[..i];
    assert keys[..i + 1][i..] == [keys[i]];
    assert [keys[i]][1..] == [];
  }

  lemma {:induction false} SetKeysSplitOne(keys: seq<string>, i: nat, data: PhpArray)
    requires i <= |keys|
    ensures SetKeys(keys, data) == SetKeys(keys[..i], data) + SetKeys(keys[i..], data)
  {
    if i > 0 {
      SetKeysSplitOne(keys[1..], i - 1, data);
      assert keys[..i][1..] == keys[1..][..i - 1];
      assert keys[1..][i - 1..] == keys[i..];
    } else {
      assert keys[..0] == [] && keys[0..] == keys;
    }
  }

  lemma {:induction false} PlaceholdersAppend(a: seq<string>, b: seq<string>)
    ensures Placeholders(a + b) == Placeholders(a) + Placeholders(b)
  {
    if |a| > 0 {
      PlaceholdersAppend(a[1..], b);
      assert (a + b)[1..] == a[1..] + b;
    } else {
      assert a + b == b;
    }
  }

  lemma {:induction false} ParamsAppend(a: seq<string>, b: seq<string>, data: PhpArray)
    ensures Params(a + b, data) == Params(a, data) + Params(b, data)
  {
    if |a| > 0 {
      ParamsAppend(a[1..], b, data);
      assert (a + b)[1..] == a[1..] + b;
    } else {
      assert a + b == b;
    }
  }

  /** The row matches the query: some set key's column equals its parameter. */
  predicate MatchesSomeKey(u: User, setKeys: seq<string>, data: PhpArray)
  {
    exists i :: 0 <= i < |setKeys| && Get(u.fields, setKeys[i]) == Get(data, setKeys[i])
  }

  /** What findByUniqueKeys returns: null without a query when no unique key
      is set, otherwise the first user matching any set key. */
  function FindBySetKeys(users: seq<User>, keys: seq<string>, data: PhpArray): (r: Option<nat>)
    ensures r.Some? ==> r.value < |users| && MatchesSomeKey(users[r.value], SetKeys(keys, data), data)
    ensures r.None? <==> (|SetKeys(keys, data)| == 0
      || forall j :: 0 <= j < |users| ==> !MatchesSomeKey(users[j], SetKeys(keys, data), data))
  {
    var sk := SetKeys(keys, data);
    if |sk| == 0 then None
    else FirstIndex(users, (u: User) => MatchesSomeKey(u, sk, data))
  }

  /** findByUniqueKeys: the row found and, when the database is asked, the
      condition text and its parameters. */
  method FindByUniqueKeys(m: UserModel, db: Db, data: PhpArray)
    returns (r: Option<nat>, query: Option<(string, seq<Value>)>)
    requires m.Valid()
    modifies m`keysCache
    ensures m.Valid() && m.keysCache.Some?
    ensures r == FindBySetKeys(db.users, m.keysCache.value, data)
    ensures query.None? <==> |SetKeys(m.keysCache.value, data)| == 0
    ensures query.Some? ==> query.value == (Implode(" OR ", Placeholders(SetKeys(m.keysCache.value, data))),
                                            Params(SetKeys(m.keysCache.value, data), data))
  {
    var keys := m.UniqueKeys();
    var conds, props := BuildCondition(keys, data);
    if |props| == 0 {
      return None, None;
    }
    query := Some((Implode(" OR ", conds), props));
    r := FindBySetKeys(db.users, keys, data);
  }

  /** The first unique key whose stored value strictly equals the submitted
      one: the key the registration conflict names. */
  function ConflictKey(u: User, keys: seq<string>, data: PhpArray): (r: Option<string>)
    ensures r.Some? ==> r.value in keys && IsSet(data, r.value) && Get(u.fields, r.value) == Get(data, r.value)
    ensures r.None? <==> forall i :: 0 <= i < |keys| ==> !(IsSet(data, keys[i]) && Get(u.fields, keys[i]) == Get(data, keys[i]))
  {
    if |keys| == 0 then None
    else if IsSet(data, keys[0]) && Get(u.fields, keys[0]) == Get(data, keys[0]) then Some(keys[0])
    else ConflictKey(u, keys[1..], data)
  }

  /** The scan over the unique keys that stops at the first conflict. */
  method ScanConflict(u: User, keys: seq<string>, data: PhpArray) returns (r: Option<string>)
    ensures r == ConflictKey(u, keys, data)
  {
    var i := 0;
    while i < |keys|
      invariant 0 <= i <= |keys|
      invariant ConflictKey(u, keys, data) == ConflictKey(u, keys[i..], data)
    {
      assert keys[i..][1..] == keys[i + 1..];
      if IsSet(data, keys[i]) && Get(u.fields, keys[i]) == Get(data, keys[i]) {
        return Some(keys[i]);
      }
      i := i + 1;
    }
    return None;
  }

  /** A user found by the unique keys always shows a conflict on one of
      them, so registration never inserts a second user with the same key. */
  lemma FoundUserConflicts(users: seq<User>, keys: seq<string>, data: PhpArray)
    requires FindBySetKeys(users, keys, data).Some?
    ensures ConflictKey(users[FindBySetKeys(users, keys, data).value], keys, data).Some?
  {
    var u := users[FindBySetKeys(users, keys, data).value];
    var sk := SetKeys(keys, data);
    var i :| 0 <= i < |sk| && Get(u.fields, sk[i]) == Get(data, sk[i]);
    SetKeysMembers(keys, data);
    assert sk[i] in keys;
    var j :| 0 <= j < |keys| && keys[j] == sk[i];
    assert IsSet(data, keys[j]) && Get(u.fields, keys[j]) == Get(data, keys[j]);
  }

  /** findByUniqueKeysFilled: the first user whose column named by the type
      holds the address. */
  function FindByUniqueKeysFilled(users: seq<User>, to: Value, typ: string): (r: Option<nat>)
    ensures r.Some? ==> r.value < |users| && Get(users[r.value].fields, typ) == to
    ensures r.None? <==> forall j :: 0 <= j < |users| ==> Get(users[j].fields, typ) != to
  {
    FirstIndex(users, (u: User) => Get(u.fields, typ) == to)
  }

  /** insert: a new user row holding the data. */
  method Insert(db: Db, data: PhpArray) returns (u: User)
    requires db.Valid()
    modifies db`users
    ensures db.Valid()
    ensures db.users == old(db.users) + [u] && u == User(|old(db.users)| + 1, data)
  {
    u := User(|db.users| + 1, data);
    db.users := db.users + [u];
  }

  /** insertByPassword: a plain insert. */
  method InsertByPassword(db: Db, data: PhpArray) returns (u: User)
    requires db.Valid()
    modifies db`users
    ensures db.Valid()
    ensures db.users == old(db.users) + [u] && u == User(|old(db.users)| + 1, data)
  {
    u := Insert(db, data);
  }

  /** insertByForeign: a plain insert; the source is not used. */
  method InsertByForeign(db: Db, source: string, data: PhpArray) returns (u: User)
    requires db.Valid()
    modifies db`users
    ensures db.Valid()
    ensures db.users == old(db.users) + [u] && u == User(|old(db.users)| + 1, data)
  {
    u := Insert(db, data);
  }
}
