/**
 * Error objects as the handlers see them. `AppError` is the application's
 * own error class (`new AppError(message, statusCode)`); the other errors
 * reaching the central handler come from the store and the token library
 * and are told apart by `name`.
 *
 * The class body of `AppError` lies outside this model, so its fields are an
 * explicit assumption: it is operational, its `name` is the inherited
 * `'Error'`, and its `status` is `'fail'` for a 4xx code and `'error'`
 * otherwise.
 */
module AppErrors {
  import opened Wrappers

  /**
   * An error value: `statusCode` and `status` may be unset (`None`);
   * `errors` holds the per-field messages of a store validation error in
   * the order `Object.values` lists them (empty for other errors).
   */
  datatype JsError = JsError(
    name: string,
    message: string,
    statusCode: Option<int>,
    status: Option<string>,
    isOperational: bool,
    errors: seq<string>)

  /** A client error code. */
  predicate IsClientError(code: int) { 400 <= code < 500 }

  /** The `status` an `AppError` derives from its code. */
  function DerivedStatus(statusCode: Option<int>): (s: string)
    ensures s == "fail" || s == "error"
    ensures s == "fail" <==> statusCode.Some? && IsClientError(statusCode.value)
  {
    if statusCode.Some? && IsClientError(statusCode.value) then "fail" else "error"
  }

  /** `new AppError(message, statusCode)`. */
  function NewAppError(message: string, statusCode: Option<int>): (e: JsError)
    ensures e.message == message && e.statusCode == statusCode
    ensures e.isOperational && e.name == "Error" && e.errors == []
    ensures e.status == Some(DerivedStatus(statusCode))
  {
    JsError("Error", message, statusCode, Some(DerivedStatus(statusCode)), true, [])
  }

  /** `new AppError(message, code)` with a code given. */
  function AppError(message: string, code: int): (e: JsError)
    ensures e.message == message && e.statusCode == Some(code) && e.isOperational
  {
    NewAppError(message, Some(code))
  }
}
