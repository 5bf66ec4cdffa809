/** The error records the resolvers throw and the error-forwarding middleware
    (utils/error-handler.js). */
module Errors {

  datatype Option<+T> = None | Some(value: T)

  /** One entry of the `data` list of a Bad-Input error: `{ message }`. */
  datatype Violation = Violation(message: string)

  /** A thrown error object: `message`, `statusCode` and `data`.
      `statusCode == None` is an error with no `statusCode` property at all
      (a TypeError, a driver or token-library error); `data == None` is `null`. */
  datatype Error = Error(message: string, statusCode: Option<int>, data: Option<seq<Violation>>)

  /** What a handler does: return a value, or throw an error. */
  datatype Result<+T> = Ok(value: T) | Err(error: Error)

  const InternalStatus: int := 500

  /** JavaScript truthiness of an optional status code: absent and 0 are falsy. */
  predicate Truthy(code: Option<int>)
  {
    code.Some? && code.value != 0
  }

  /** `throwError(message, statusCode = 500, errors = null)`: never returns
      normally; an omitted argument (None) takes its default. */
  function ThrowError<T>(message: string, statusCode: Option<int>, errors: Option<seq<Violation>>): (r: Result<T>)
    ensures r.Err?
    ensures r.error.message == message
    ensures statusCode.Some? ==> r.error.statusCode == statusCode
    ensures statusCode.None? ==> r.error.statusCode == Some(InternalStatus)
    ensures r.error.data == errors
  {
    var code := if statusCode.Some? then statusCode.value else InternalStatus;
    Err(Error(message, Some(code), errors))
  }

  /** An error raised by the JavaScript runtime itself (dereferencing null or
      undefined): it carries no `statusCode` and no `data`. */
  function RuntimeFailure<T>(message: string): (r: Result<T>)
    ensures r.Err? && r.error.message == message
    ensures !Truthy(r.error.statusCode) && r.error.data == None
  {
    Err(Error(message, None, None))
  }

  /** The value `errorHandler` leaves behind: the status code defaults to 500
      when it is falsy; nothing else changes. */
  function WithDefaultStatus(e: Error): (r: Error)
    ensures r.message == e.message && r.data == e.data
    ensures Truthy(r.statusCode)
    ensures Truthy(e.statusCode) ==> r == e
    ensures !Truthy(e.statusCode) ==> r.statusCode == Some(InternalStatus)
  {
    if Truthy(e.statusCode) then e else e.(statusCode := Some(InternalStatus))
  }

  /** Applying the default twice is the same as applying it once. */
  lemma WithDefaultStatusIdempotent(e: Error)
    ensures WithDefaultStatus(WithDefaultStatus(e)) == WithDefaultStatus(e)
  {
  }

  /** A status set by `throwError` always survives `errorHandler` unless it is 0. */
  lemma ThrownStatusSurvives<T>(message: string, code: int, errors: Option<seq<Violation>>)
    requires code != 0
    ensures WithDefaultStatus(ThrowError<T>(message, Some(code), errors).error).statusCode == Some(code)
  {
  }

  /** A thrown error as the mutable object `errorHandler` receives. */
  class ErrorObject {
    var message: string
    var statusCode: Option<int>
    var data: Option<seq<Violation>>

    constructor (e: Error)
      ensures Value() == e
    {
      message, statusCode, data := e.message, e.statusCode, e.data;
    }

    function Value(): Error
      reads this
    {
      Error(message, statusCode, data)
    }
  }

  /** `errorHandler(errors, next)`: sets `statusCode` to 500 when it is falsy
      and hands the same object on; the returned object is what `next`
      receives, once. */
  method ErrorHandler(err: ErrorObject) returns (forwarded: ErrorObject)
    modifies err
    ensures forwarded == err
    ensures err.Value() == WithDefaultStatus(old(err.Value()))
  {
    if !Truthy(err.statusCode) {
      err.statusCode := Some(InternalStatus);
    }
    forwarded := err;
  }
}
