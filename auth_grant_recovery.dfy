/**
 * Pending grant recoveries (Models/AuthGrantRecovery.php): a one-time code
 * that, once presented with a new token, recovers its grant and is deleted.
 */
module AuthGrantRecovery {
  import opened Wrappers
  import opened Errors
  import opened Records
  import opened Database
  import AuthGrant

  /** The constant the source names for a missing code; AuthAdapter does
      not declare it, so reading it raises before anything is changed. */
  const RecoveryNotFound: string := "ERROR_AUTH_GRANT_RECOVERY_NOT_FOUND"

  /** findByCode: the row holding the code. */
  function FindByCode(rows: seq<GrantRecovery>, code: string): (r: Option<nat>)
    ensures r.Some? ==> r.value < |rows| && rows[r.value].code == code
    ensures r.None? <==> forall j :: 0 <= j < |rows| ==> rows[j].code != code
  {
    FirstIndex(rows, (x: GrantRecovery) => x.code == code)
  }

  /** The table without row `i`: what `$row->delete()` leaves, the primary
      key being unique. */
  function Remove(rows: seq<GrantRecovery>, i: nat): (r: seq<GrantRecovery>)
    requires i < |rows|
    ensures |r| == |rows| - 1
    ensures forall j :: 0 <= j < i ==> r[j] == rows[j]
    ensures forall j :: i <= j < |r| ==> r[j] == rows[j + 1]
  {
    rows[..i] + rows[i + 1..]
  }

  /** Deleting a row keeps both unique columns unique. */
  lemma RemoveKeepsKeys(rows: seq<GrantRecovery>, i: nat)
    requires i < |rows| && KeyedByGrant(rows) && RecoveryCodesUnique(rows)
    ensures KeyedByGrant(Remove(rows, i)) && RecoveryCodesUnique(Remove(rows, i))
  {
    var r := Remove(rows, i);
    forall a, b | 0 <= a < b < |r|
      ensures r[a].authGrantId != r[b].authGrantId && r[a].code != r[b].code
    {
      var a' := if a < i then a else a + 1;
      var b' := if b < i then b else b + 1;
      assert r[a] == rows[a'] && r[b] == rows[b'] && a' < b';
    }
  }

  /** A recovery code works once: after its row is deleted no row holds it. */
  lemma RecoveryCodeIsSpent(rows: seq<GrantRecovery>, code: string)
    requires RecoveryCodesUnique(rows) && FindByCode(rows, code).Some?
    ensures FindByCode(Remove(rows, FindByCode(rows, code).value), code).None?
  {
    var i := FindByCode(rows, code).value;
    var r := Remove(rows, i);
    forall j | 0 <= j < |r| ensures r[j].code != code {
      if j < i {
        assert r[j] == rows[j];
      } else {
        assert r[j] == rows[j + 1];
      }
    }
  }

  /** recoveryByCode. A missing code raises (the undefined constant) and a
      missing grant raises ERROR_AUTH_GRANT_NOT_FOUND, both before anything
      is written; otherwise the grant takes the new token and is confirmed,
      and the code's row is deleted. */
  method RecoveryByCode(db: Db, code: string, token: string) returns (r: Result<(), AuthError>)
    requires db.Valid()
    modifies db`grants, db`grantRecoveries
    ensures db.Valid()
    ensures FindByCode(old(db.grantRecoveries), code).None? ==>
      r == Err(UndefinedConstant(RecoveryNotFound)) && unchanged(db)
    ensures FindByCode(old(db.grantRecoveries), code).Some? ==>
      var i := FindByCode(old(db.grantRecoveries), code).value;
      var k := AuthGrant.FindById(old(db.grants), old(db.grantRecoveries)[i].authGrantId);
      (k.None? ==> r == Err(AdapterError(8, [])) && unchanged(db))
      && (k.Some? ==>
        r.Ok?
        && db.grants == old(db.grants)[k.value := AuthGrant.Recovery(old(db.grants)[k.value], token)]
        && db.grantRecoveries == Remove(old(db.grantRecoveries), i))
    ensures r.Ok? ==> FindByCode(db.grantRecoveries, code).None?
  {
    var i := FindByCode(db.grantRecoveries, code);
    if i.None? {
      return Err(UndefinedConstant(RecoveryNotFound));
    }
    var row := db.grantRecoveries[i.value];
    var k := AuthGrant.FindById(db.grants, row.authGrantId);
    if k.None? {
      return Err(AdapterError(8, []));
    }
    AuthGrant.Save(db, k.value, AuthGrant.Recovery(db.grants[k.value], token));
    RemoveKeepsKeys(db.grantRecoveries, i.value);
    RecoveryCodeIsSpent(db.grantRecoveries, code);
    db.grantRecoveries := Remove(db.grantRecoveries, i.value);
    r := Ok(());
  }
}
