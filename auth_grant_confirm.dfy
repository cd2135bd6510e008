/**
 * Pending grant confirmations (Models/AuthGrantConfirm.php). As written,
 * findByCode declares that it returns an AuthConfirm but returns the
 * AuthGrantConfirm row, so a found code raises a TypeError and
 * confirmByCode can never succeed; the corrected pair returns the row.
 */
module AuthGrantConfirm {
  import opened Wrappers
  import opened Errors
  import opened Records

  /** The message of the missing-code exception: the error code 9 made a string. */
  const ConfirmNotFound: string := "9"

  predicate HasCode(rows: seq<GrantConfirm>, code: string)
  {
    exists j :: 0 <= j < |rows| && rows[j].code == code
  }

  /** findByCode as written: the return type check fails whenever a row is found. */
  function FindByCodeAsWritten(rows: seq<GrantConfirm>, code: string): (r: Result<Option<GrantConfirm>, AuthError>)
    ensures r.Err? <==> HasCode(rows, code)
    ensures r.Err? ==> r.error == TypeError
    ensures r.Ok? ==> r.value.None?
  {
    match FirstIndex(rows, (x: GrantConfirm) => x.code == code)
    case Some(_) => Err(TypeError)
    case None => Ok(None)
  }

  /** confirmByCode as written. */
  function ConfirmByCodeAsWritten(rows: seq<GrantConfirm>, code: string): Result<(), AuthError>
  {
    match FindByCodeAsWritten(rows, code)
    case Err(e) => Err(e)
    case Ok(found) => if found.None? then Err(Message(ConfirmNotFound)) else Ok(())
  }

  /** As written, no code is ever accepted: a stored code raises a
      TypeError and any other raises the not-found error. */
  lemma ConfirmByCodeAsWrittenNeverSucceeds(rows: seq<GrantConfirm>, code: string)
    ensures ConfirmByCodeAsWritten(rows, code).Err?
    ensures HasCode(rows, code) ==> ConfirmByCodeAsWritten(rows, code) == Err(TypeError)
    ensures !HasCode(rows, code) ==> ConfirmByCodeAsWritten(rows, code) == Err(Message(ConfirmNotFound))
  {
  }

  /** findByCode, returning the AuthGrantConfirm row it finds. */
  function FindByCode(rows: seq<GrantConfirm>, code: string): (r: Option<GrantConfirm>)
    ensures r.Some? <==> HasCode(rows, code)
    ensures r.Some? ==> r.value in rows && r.value.code == code
  {
    match FirstIndex(rows, (x: GrantConfirm) => x.code == code)
    case Some(i) => Some(rows[i])
    case None => None
  }

  /** confirmByCode: succeeds exactly for a stored code and changes nothing;
      otherwise raises the not-found error. */
  function ConfirmByCode(rows: seq<GrantConfirm>, code: string): (r: Result<(), AuthError>)
    ensures r.Ok? <==> HasCode(rows, code)
    ensures r.Err? ==> r.error == Message(ConfirmNotFound)
  {
    if FindByCode(rows, code).None? then Err(Message(ConfirmNotFound)) else Ok(())
  }
}
