/** JavaScript values and errors as they cross between the browser and the Meteor server. */
module Js {

  datatype Option<+T> = None | Some(value: T)

  datatype Result<+T, +E> = Success(value: T) | Failure(error: E)

  /** The JSON-like values exchanged through `Meteor.call`. Numbers are not needed by the
      core beyond their being "not a string", so they are integers here. */
  datatype Value =
    | Undefined
    | Null
    | Bool(b: bool)
    | Num(n: int)
    | Str(s: string)
    | Object(fields: map<string, Value>)

  /** Property access `v.key`: a property the object does not have reads as `undefined`.
      (On `undefined` or `null` JavaScript would throw; every caller checks first.) */
  function Get(v: Value, key: string): Value
  {
    if v.Object? && key in v.fields then v.fields[key] else Undefined
  }

  /** The errors a flow can end with. */
  datatype Error =
    | MatchFailed(expected: string)   // a failed `check(value, pattern)` on the server
    | AccessDenied                    // `new Meteor.Error("Access Denied")`
    | TypeError                       // property access on `null`
    | Message(text: string)           // `new Error(text)`, or an error reported by a foreign call
}
