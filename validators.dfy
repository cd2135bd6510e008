/**
 * The request validators of the code flows (Validators/EmailOrPhoneField.php
 * and Validators/GetCodeFieldset.php, with CheckCodeFieldset.php adding a
 * code field). The email, phone and code fields belong to the validation
 * library and are parameters: each accepts a value, giving its normalised
 * form, or rejects it.
 */
module Validators {
  import opened Wrappers
  import opened Php
  import opened Errors

  /** A field of the validation library: the normalised value if it accepts. */
  type FieldCheck = Value -> Option<Value>

  datatype Classified = Classified(valueType: string, value: Value)

  /** The classification isValid performs. */
  function Classify(v: Value, email: FieldCheck, phone: FieldCheck): (r: Option<Classified>)
    ensures r.Some? <==> email(v).Some? || phone(v).Some?
    ensures r.Some? ==> r.value.valueType == "email" || r.value.valueType == "phone"
    ensures email(v).Some? ==> r == Some(Classified("email", email(v).value))
    ensures email(v).None? && phone(v).Some? ==> r == Some(Classified("phone", phone(v).value))
  {
    match email(v)
    case Some(e) => Some(Classified("email", e))
    case None =>
      match phone(v)
      case Some(p) => Some(Classified("phone", p))
      case None => None
  }

  /** The email-or-phone field: what it remembers of the last check. */
  class EmailOrPhoneField {
    var value: Value
    var valueType: Value
    var errors: seq<string>

    constructor ()
      ensures value == Null && valueType == Null && errors == []
    {
      value, valueType, errors := Null, Null, [];
    }

    /** isValid: email is tried first, phone only when email fails; on
        success the type and the normalised value are kept, otherwise the
        raw value is kept and a 'pattern' error is added, the type left as
        it was. */
    method IsValid(v: Value, email: FieldCheck, phone: FieldCheck) returns (ok: bool)
      modifies this
      ensures ok <==> Classify(v, email, phone).Some?
      ensures ok ==> (valueType == Str(Classify(v, email, phone).value.valueType)
        && value == Classify(v, email, phone).value.value && errors == old(errors))
      ensures !ok ==> value == v && valueType == old(valueType) && errors == old(errors) + ["pattern"]
    {
      var e := email(v);
      if e.Some? {
        valueType := Str("email");
        value := e.value;
        return true;
      }
      var p := phone(v);
      if p.Some? {
        valueType := Str("phone");
        value := p.value;
        return true;
      }
      value := v;
      errors := errors + ["pattern"];
      return false;
    }
  }

  /** The fields the code request declares. */
  const GetCodeFields: seq<string> := ["to"]
  const CheckCodeFields: seq<string> := ["to", "code"]

  /** The values after afterValidate: 'to' removed, the address stored under
      its type, and the type stored under 'type'. */
  function Reshape(values: PhpArray, to: Value, typ: Value): PhpArray
  {
    Set(Set(Unset(values, "to"), ToStr(typ), to), "type", typ)
  }

  /** After reshaping, `values[values['type']]` is the address, 'to' is gone
      and every other entry is as it was. */
  lemma ReshapeReadsBack(values: PhpArray, to: Value, t: string)
    requires t == "email" || t == "phone"
    ensures var r := Reshape(values, to, Str(t));
      Get(r, "type") == Str(t) && Get(r, ToStr(Get(r, "type"))) == to && Lookup(r, "to") == None
      && forall k :: k != "to" && k != "type" && k != t ==> Lookup(r, k) == Lookup(values, k)
  {
  }

  /** The field set of a code request, after the library has checked it. */
  class GetCodeFieldset {
    var values: PhpArray

    constructor (values: PhpArray)
      ensures this.values == values
    {
      this.values := values;
    }

    /** afterValidate, given the field's normalised address and its type. */
    method AfterValidate(to: Value, typ: Value)
      modifies this`values
      ensures values == Reshape(old(values), to, typ)
    {
      values := Unset(values, "to");
      values := Set(values, ToStr(typ), to);
      values := Set(values, "type", typ);
    }
  }

  /** What validateGetCodeFieldset and validateCheckCodeFieldset return. */
  datatype CodeRequest = CodeRequest(data: PhpArray, to: Value, typ: Value, code: Value)

  /** validateGetCodeFieldset: the address is classified; the values hold
      the declared field, reshaped; type and address are read back. */
  function ValidateGetCode(payload: PhpArray, email: FieldCheck, phone: FieldCheck): (r: Result<CodeRequest, AuthError>)
    ensures r.Err? <==> Classify(Get(payload, "to"), email, phone).None?
    ensures r.Err? ==> r.error == ValidationFailed("GetCodeFieldset")
    ensures r.Ok? ==> var c := Classify(Get(payload, "to"), email, phone).value;
      r.value.typ == Str(c.valueType) && r.value.to == c.value
    ensures r.Ok? ==> Get(r.value.data, ToStr(r.value.typ)) == r.value.to
  {
    match Classify(Get(payload, "to"), email, phone)
    case None => Err(ValidationFailed("GetCodeFieldset"))
    case Some(c) =>
      ReshapeReadsBack([Entry("to", c.value)], c.value, c.valueType);
      var values := Reshape([Entry("to", c.value)], c.value, Str(c.valueType));
      var typ := Get(values, "type");
      Ok(CodeRequest(values, Get(values, ToStr(typ)), typ, Null))
  }

  /** validateCheckCodeFieldset: as above, with the code field as well. */
  function ValidateCheckCode(payload: PhpArray, email: FieldCheck, phone: FieldCheck, codeField: FieldCheck)
    : (r: Result<CodeRequest, AuthError>)
    ensures r.Err? <==> Classify(Get(payload, "to"), email, phone).None? || codeField(Get(payload, "code")).None?
    ensures r.Err? ==> r.error == ValidationFailed("CheckCodeFieldset")
    ensures r.Ok? ==> var c := Classify(Get(payload, "to"), email, phone).value;
      r.value.typ == Str(c.valueType) && r.value.to == c.value
      && r.value.code == codeField(Get(payload, "code")).value
    ensures r.Ok? ==> Get(r.value.data, ToStr(r.value.typ)) == r.value.to
  {
    var c := Classify(Get(payload, "to"), email, phone);
    var k := codeField(Get(payload, "code"));
    if c.None? || k.None? then Err(ValidationFailed("CheckCodeFieldset"))
    else
      var fields := [Entry("to", c.value.value), Entry("code", k.value)];
      ReshapeReadsBack(fields, c.value.value, c.value.valueType);
      assert Lookup(fields, "code") == Some(k.value);
      var values := Reshape(fields, c.value.value, Str(c.value.valueType));
      var typ := Get(values, "type");
      Ok(CodeRequest(values, Get(values, ToStr(typ)), typ, Get(values, "code")))
  }
}
