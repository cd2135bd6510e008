/**
 * What the library raises. The newer classes raise `AuthException::build`
 * with an error name and arguments; the older ones raise an AuthException
 * with a literal message or through `AuthAdapter::throwError`, whose
 * message text AuthAdapter.ErrorMessage computes; PHP itself
 * raises argument, type and undefined-name errors.
 */
module Errors {
  import opened Wrappers
  import opened Php

  datatype AuthError =
    | Build(name: string, args: seq<Value>)   // AuthException::build(name, ...args)
    | Message(text: string)                   // new AuthException(text)
    | AdapterError(code: int, props: seq<string>)  // AuthAdapter::throwError(code, props)
    | InvalidArgument                         // \InvalidArgumentException
    | ArgumentCount                           // sprintf given fewer arguments than its format needs
    | ValueError                              // vsprintf given fewer values than its format needs
    | TypeError                               // a value that does not fit a declared PHP type
    | UndefinedConstant(name: string)         // a class constant that is not declared
    | UndefinedClass(name: string)            // `new $class` naming a class that does not exist
    | ValidationFailed(fieldset: string)      // the validation library rejects the payload

  /** A value passed to a parameter declared `string` outside strict mode:
      scalars arrive converted, null and arrays are refused. */
  function StringArgument(v: Value): (r: Result<string, AuthError>)
    ensures r.Err? <==> v.Null? || v.Arr?
    ensures r.Err? ==> r.error == TypeError
    ensures r.Ok? ==> r.value == ToStr(v)
  {
    if v.Null? || v.Arr? then Err(TypeError) else Ok(ToStr(v))
  }
}
