/** What a network or datastore call can come back with. Every call the
    dashboard makes is passed its outcome as a value, so each path through a
    handler is deterministic. */
module Outcomes {

  datatype Option<+T> = None | Some(value: T)

  /** A value caught by a `catch` clause: an Error object with its message,
      or some other thrown value. */
  datatype Thrown = ErrorObj(message: string) | NonError

  /** The settled result of a `fetch`:
      - Ok: the response was ok and its JSON body parsed to `value`;
      - HttpError: `response.ok` was false; `details` is the `details` field of
        the error body, "" when the body had none or did not parse;
      - Rejected: the request itself, or reading the body of an ok response, threw. */
  datatype Outcome<+T> =
    | Ok(value: T)
    | HttpError(status: nat, statusText: string, details: string)
    | Rejected(thrown: Thrown)

  /** A call that either returns a value or throws with a message. */
  datatype Result<+T> = Success(value: T) | Failure(message: string)

  /** `details || fallback`: an empty details string is falsy. */
  function DetailsOr(details: string, fallback: string): (m: string)
    ensures fallback != "" ==> m != ""
  {
    if details != "" then details else fallback
  }

  /** `err instanceof Error ? err.message : fallback`. */
  function CaughtMessage(t: Thrown, fallback: string): string
  {
    match t
    case ErrorObj(msg) => msg
    case NonError => fallback
  }
}
