/**
 * The response check the Facebook and VK sources share (checkResponse in
 * Sources/FbOauth.php, Sources/Fb/FbOauth.php and Sources/Vk/VkOauth.php):
 * a decoded API answer fails when it is empty or carries no `response`,
 * and the failure names the answer's error as JSON.
 *
 * `jsonEncode` stands for PHP's `json_encode`.
 */
module Responses {
  import opened Php

  /** The failure test: no data, or no (or an empty) `response` in it. */
  predicate Failed(data: Value)
  {
    Empty(data) || Empty(At(data, "response"))
  }

  /** The detail appended to the failure: `response.error` when it is
      non-empty, otherwise the top-level `error` when that is non-empty,
      each as ": " and its JSON; null when neither is present. */
  function ErrorDetail(data: Value, jsonEncode: Value -> string): (r: Value)
    ensures !Empty(At(At(data, "response"), "error")) ==>
      r == Str(": " + jsonEncode(At(At(data, "response"), "error")))
    ensures Empty(At(At(data, "response"), "error")) && !Empty(At(data, "error")) ==>
      r == Str(": " + jsonEncode(At(data, "error")))
    ensures Empty(At(At(data, "response"), "error")) && Empty(At(data, "error")) ==> r == Null
  {
    var topError := if !Empty(At(data, "error")) then At(data, "error") else Null;
    var error := if !Empty(At(At(data, "response"), "error")) then At(At(data, "response"), "error") else topError;
    if !Empty(error) then Str(": " + jsonEncode(error)) else error
  }
}
