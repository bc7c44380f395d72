/**
 * What an Express handler does with a request: the response it writes, if
 * any, and how it calls `next`.
 */
module Http {
  import opened Wrappers
  import opened Js
  import opened AppErrors

  /**
   * A JSON response: the HTTP status and the body's keys. `rawError` is the
   * error object a body carries under `error` when the raw error is sent.
   */
  datatype Response = Response(statusCode: int, body: map<string, JsValue>, rawError: Option<JsError>)

  /** `next()` not called, called with nothing, or called with an error. */
  datatype Next = NotCalled | Called | CalledWith(err: JsError)

  /** The observable effect of one handler invocation. */
  datatype Outcome = Outcome(response: Option<Response>, next: Next)

  /** A response whose body has only `status` and `message`. */
  function StatusMessage(code: int, status: string, message: string): (r: Response)
    ensures r.statusCode == code && r.rawError.None?
    ensures r.body.Keys == {"status", "message"}
    ensures r.body["status"] == Str(status) && r.body["message"] == Str(message)
  {
    Response(code, map["status" := Str(status), "message" := Str(message)], None)
  }

  /** `return next(err)`: no response, the error passed on. */
  function Fail(err: JsError): (o: Outcome)
    ensures o.response.None? && o.next == CalledWith(err)
  {
    Outcome(None, CalledWith(err))
  }
}
