/** Optional values, HTTP helpers shared by the route handlers, and the
    JavaScript notion of a "truthy" string. */
module Wrappers {

  /** A value that may be absent (`undefined` or `null` in the source). */
  datatype Option<T> = None | Some(value: T)

  /** JavaScript truthiness of a value that is either absent or a string:
      `undefined`, `null` and `""` are falsy, every other string is truthy. */
  predicate Truthy(o: Option<string>) {
    o.Some? && o.value != ""
  }

  /** `Response.ok` of the Fetch standard: the status is in the range 200 to 299. */
  predicate IsOk(status: int) {
    200 <= status <= 299
  }

  /** What a route handler does after checking its input and configuration:
      answer at once, or make exactly one outbound request. */
  datatype Step<Req, Res> = Respond(response: Res) | Call(request: Req)

  /** The text of an error the handlers report: either worded by this code,
      or worded by the JavaScript runtime (a `SyntaxError` from parsing a
      body that is not JSON, a `TypeError` from reading a property of
      `undefined`, a rejected `fetch`), whose wording is not modelled. */
  datatype ErrorText = Text(text: string) | EngineText
}
