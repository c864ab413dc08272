/** Values that cross the boundary of the application: optional values,
    what a `throw` carries, the reply of an outbound `fetch`, and the
    (status, body) pair a route handler answers with. */
module Outcomes {

  datatype Option<+T> = None | Some(value: T)

  /** A thrown value: an `Error` instance with its message, or anything else. */
  datatype Thrown = Error(message: string) | NonError

  /** The result of an awaited call: a value, or the value it threw. */
  datatype Outcome<+T> = Ok(value: T) | Threw(thrown: Thrown)

  /** What a parsed JSON body gives: the value, or the parser's error message. */
  datatype Parsed<+T> = Parsed(value: T) | Unparsable(message: string)

  /** The reply of an outbound `fetch`: a status with its body read as text and
      as JSON, or a rejected promise (a network-level `TypeError`). */
  datatype HttpReply<+T> =
    | Reply(status: nat, text: string, json: Parsed<T>)
    | NetworkFailure(message: string)

  /** `response.ok`. */
  predicate IsOkStatus(status: nat) { 200 <= status <= 299 }

  /** What a route handler answers: an HTTP status and a JSON body. */
  datatype Response<+B> = Response(status: nat, body: B)
}
