/** Values shared by every part of the model: optional values, bytes, JSON request
    fields with their JavaScript truthiness, and the (status, message) replies that
    handlers and middleware produce. */
module Common {

  datatype Option<+T> = None | Some(value: T)

  newtype byte = x: int | 0 <= x < 256

  /** A field of a parsed JSON request body, query or route parameter. Arrays and
      objects are kept opaque: no gate of the model looks inside them. */
  datatype Json = JStr(s: string) | JNum(n: real) | JBool(b: bool) | JNull | JArray | JObject

  /** JavaScript truthiness of a JSON value (JSON has no NaN). */
  predicate Truthy(v: Json)
  {
    match v
    case JStr(s) => s != ""
    case JNum(n) => n != 0.0
    case JBool(b) => b
    case JNull => false
    case JArray => true
    case JObject => true
  }

  /** JavaScript truthiness of a value that is either undefined or a string. */
  predicate Present(s: Option<string>)
  {
    s.Some? && s.value != ""
  }

  /** `a || b` on an optional string: the string when it is truthy, else the fallback. */
  function OrElse(s: Option<string>, fallback: string): (r: string)
    ensures Present(s) ==> r == s.value
    ensures !Present(s) ==> r == fallback
  {
    if Present(s) then s.value else fallback
  }

  /** An HTTP answer: status code and the `message` field of the JSON body. */
  datatype Reply = Reply(status: int, message: string)

  /** What an Express middleware does: call `next()` or answer the request itself. */
  datatype Gate = Next | Respond(reply: Reply)
}
