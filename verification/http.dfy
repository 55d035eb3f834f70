/**
 * What a handler gets back from `fetch`: either the promise rejects (a network
 * failure, `TypeError: Failed to fetch`), or a response arrives with a status,
 * its body as text, and that body read as JSON, which fails with a SyntaxError
 * when the text is not JSON. A JSON body is represented by the record of the
 * fields the handler reads from it.
 */
module Http {

  import opened Common

  datatype Parsed<B> = Unparsable(syntaxError: string) | Json(value: B)

  datatype Reply<B> =
    | NetworkError(reason: string)
    | Response(status: int, text: string, body: Parsed<B>)

  /** `response.ok`: a status in the range 200 to 299. */
  predicate Ok<B>(r: Reply<B>) {
    r.Response? && 200 <= r.status <= 299
  }

  /** `response.status` as a template literal prints it. */
  function StatusText<B>(r: Reply<B>): string
    requires r.Response?
  {
    IntText(r.status)
  }

  /** The message of the error a handler raises for a reply it reads as text and finds not ok:
      the rejection's own message, or `new Error(text || fallback)`. */
  function TextFailure<B>(r: Reply<B>, fallback: string): (m: string)
    requires !Ok(r)
    ensures fallback != "" ==> m != "" || r.NetworkError?
  {
    if r.NetworkError? then r.reason else Or(r.text, fallback)
  }

  /** What a handler's `try` block ends with: the value it went on with, or the message of the
      error it threw. */
  datatype Outcome<T> = Done(value: T) | Failed(message: string)

  /** `const data = await response.json(); if (!response.ok) throw new Error(data.message ||
      fallback)`: the body is read before the status is looked at. */
  function ReadThenCheck<B>(r: Reply<B>, messageOf: B -> string, fallback: string): (o: Outcome<B>)
    ensures o.Done? <==> Ok(r) && r.body.Json?
    ensures o.Done? ==> o.value == r.body.value
    ensures r.Response? && r.body.Unparsable? ==> o == Failed(r.body.syntaxError)
    ensures r.Response? && !Ok(r) && r.body.Json? ==> o == Failed(Or(messageOf(r.body.value), fallback))
  {
    match r
    case NetworkError(reason) => Failed(reason)
    case Response(_, _, body) =>
      if body.Unparsable? then Failed(body.syntaxError)
      else if !Ok(r) then Failed(Or(messageOf(body.value), fallback))
      else Done(body.value)
  }

  /** `if (!response.ok) { const e = await response.json(); throw new Error(e.message ||
      fallback) }`: the message of the error thrown before an ok reply's body is looked at, or
      `None` for an ok reply. */
  function CheckThenRead<B>(r: Reply<B>, messageOf: B -> string, fallback: string): (m: Option<string>)
    ensures m.None? <==> Ok(r)
    ensures r.Response? && !Ok(r) && r.body.Json? ==> m == Some(Or(messageOf(r.body.value), fallback))
    ensures r.Response? && !Ok(r) && r.body.Unparsable? ==> m == Some(r.body.syntaxError)
  {
    match r
    case NetworkError(reason) => Some(reason)
    case Response(_, _, body) =>
      if Ok(r) then None
      else if body.Unparsable? then Some(body.syntaxError)
      else Some(Or(messageOf(body.value), fallback))
  }
}
