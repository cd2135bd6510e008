/**
 * The stored records of both generations, one datatype per table, and the
 * "first row that matches" lookup every `find()->where(...)->one()` call
 * performs.
 */
module Records {
  import opened Wrappers
  import opened Php

  /** A row of the host's users table: its id and its columns. */
  datatype User = User(id: nat, fields: PhpArray)

  /** A row of the confirmation table (AuthConfirm) or of the recovery
      table (AuthRecovery, the same class on another table). `typ` holds
      whatever make computed: 1, 2, "", false or null. Times are seconds. */
  datatype Confirm = Confirm(id: nat, userId: int, to: string, code: string, typ: Value,
                             endTime: int, completeTime: Option<int>)

  /** A grant (AuthGrant): how a user may sign in through one source.
      `login` is the user's key in the source; `status` is null until
      something sets it. */
  datatype Grant = Grant(id: nat, userId: int, source: string, login: Option<string>,
                         token: string, status: Option<int>)

  /** A session (AuthSession): the token a signed-in browser presents. */
  datatype Session = Session(id: nat, userId: int, grantId: int, token: string,
                             userIp: string, userAgent: string, endTime: int)

  /** A pending grant recovery (AuthGrantRecovery), keyed by auth_grant_id. */
  datatype GrantRecovery = GrantRecovery(authGrantId: int, userId: int, code: string)

  /** A pending grant confirmation (AuthGrantConfirm), keyed by user_id. */
  datatype GrantConfirm = GrantConfirm(userId: int, authGrantId: int, code: string)

  /** The index of the first row satisfying `p`: what `one()` returns for a
      query whose condition is `p`. */
  function FirstIndex<T>(rows: seq<T>, p: T -> bool): (r: Option<nat>)
    ensures r.Some? ==>
      r.value < |rows| && p(rows[r.value]) && forall j :: 0 <= j < r.value ==> !p(rows[j])
    ensures r.None? <==> forall j :: 0 <= j < |rows| ==> !p(rows[j])
  {
    if |rows| == 0 then None
    else if p(rows[0]) then Some(0)
    else
      match FirstIndex(rows[1..], p)
      case Some(k) => Some(k + 1)
      case None => None
  }

  /** The row `one()` returns, or null. */
  function First<T>(rows: seq<T>, p: T -> bool): (r: Option<T>)
    ensures r.Some? <==> exists j :: 0 <= j < |rows| && p(rows[j])
    ensures r.Some? ==> r.value in rows && p(r.value)
  {
    match FirstIndex(rows, p)
    case Some(k) => Some(rows[k])
    case None => None
  }

  /** Rows appended after the first match do not change which row is found. */
  lemma {:induction false} FirstIndexAppend<T>(rows: seq<T>, extra: seq<T>, p: T -> bool)
    requires FirstIndex(rows, p).Some?
    ensures FirstIndex(rows + extra, p) == FirstIndex(rows, p)
  {
    if !p(rows[0]) {
      assert (rows + extra)[1..] == rows[1..] + extra;
      FirstIndexAppend(rows[1..], extra, p);
    }
  }

  /** Updating a row in place, in a way that keeps the row matching, keeps
      the match where it was. */
  lemma {:induction false} FirstIndexUpdate<T>(rows: seq<T>, k: nat, row: T, p: T -> bool)
    requires FirstIndex(rows, p) == Some(k)
    requires p(row)
    ensures FirstIndex(rows[k := row], p) == Some(k)
  {
    if k > 0 {
      assert rows[k := row][1..] == rows[1..][k - 1 := row];
      FirstIndexUpdate(rows[1..], k - 1, row, p);
    }
  }

  /** A row appended after rows that all fail is the first match. */
  lemma FirstIndexAppendNew<T>(rows: seq<T>, row: T, p: T -> bool)
    requires FirstIndex(rows, p).None? && p(row)
    ensures FirstIndex(rows + [row], p) == Some(|rows|)
  {
    var all := rows + [row];
    assert all[|rows|] == row;
    assert forall j :: 0 <= j < |rows| ==> all[j] == rows[j];
  }

  // Table invariants.

  predicate UsersNumbered(users: seq<User>)
  {
    forall i :: 0 <= i < |users| ==> users[i].id == i + 1
  }

  predicate ConfirmsNumbered(rows: seq<Confirm>)
  {
    forall i :: 0 <= i < |rows| ==> rows[i].id == i + 1
  }

  predicate GrantsNumbered(grants: seq<Grant>)
  {
    forall i :: 0 <= i < |grants| ==> grants[i].id == i + 1
  }

  predicate SessionsNumbered(sessions: seq<Session>)
  {
    forall i :: 0 <= i < |sessions| ==> sessions[i].id == i + 1
  }

  /** The code column is unique: generateCode only hands out unused codes. */
  predicate CodesUnique(rows: seq<Confirm>)
  {
    forall i, j :: 0 <= i < j < |rows| ==> rows[i].code != rows[j].code
  }

  /** The session token column is unique. */
  predicate TokensUnique(sessions: seq<Session>)
  {
    forall i, j :: 0 <= i < j < |sessions| ==> sessions[i].token != sessions[j].token
  }

  /** auth_grant_id is the primary key of AuthGrantRecovery. */
  predicate KeyedByGrant(rows: seq<GrantRecovery>)
  {
    forall i, j :: 0 <= i < j < |rows| ==> rows[i].authGrantId != rows[j].authGrantId
  }

  /** The code column of AuthGrantRecovery is unique. */
  predicate RecoveryCodesUnique(rows: seq<GrantRecovery>)
  {
    forall i, j :: 0 <= i < j < |rows| ==> rows[i].code != rows[j].code
  }

  /** user_id is the primary key of AuthGrantConfirm. */
  predicate KeyedByUser(rows: seq<GrantConfirm>)
  {
    forall i, j :: 0 <= i < j < |rows| ==> rows[i].userId != rows[j].userId
  }
}

/** The database: one table per record kind, each a sequence of rows in
    insertion order. Autoincrement ids are positions plus one. */
module Database {
  import opened Records

  class Db {
    var users: seq<User>
    var confirms: seq<Confirm>
    var recoveries: seq<Confirm>
    var grants: seq<Grant>
    var sessions: seq<Session>
    var grantRecoveries: seq<GrantRecovery>
    var grantConfirms: seq<GrantConfirm>

    ghost predicate Valid()
      reads this
    {
      UsersNumbered(users) && ConfirmsNumbered(confirms) && ConfirmsNumbered(recoveries)
      && GrantsNumbered(grants) && SessionsNumbered(sessions)
      && CodesUnique(confirms) && CodesUnique(recoveries) && TokensUnique(sessions)
      && KeyedByGrant(grantRecoveries) && RecoveryCodesUnique(grantRecoveries) && KeyedByUser(grantConfirms)
    }

    constructor ()
      ensures Valid()
      ensures users == [] && confirms == [] && recoveries == [] && grants == []
      ensures sessions == [] && grantRecoveries == [] && grantConfirms == []
    {
      users, confirms, recoveries, grants := [], [], [], [];
      sessions, grantRecoveries, grantConfirms := [], [], [];
    }
  }

  /** The contents of every table at once. */
  datatype Tables = Tables(users: seq<User>, confirms: seq<Confirm>, recoveries: seq<Confirm>,
                           grants: seq<Grant>, sessions: seq<Session>,
                           grantRecoveries: seq<GrantRecovery>, grantConfirms: seq<GrantConfirm>)

  function TablesOf(db: Db): Tables
    reads db
  {
    Tables(db.users, db.confirms, db.recoveries, db.grants, db.sessions, db.grantRecoveries, db.grantConfirms)
  }
}
