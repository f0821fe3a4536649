/**
 * What an HTTP handler hands back to the framework: a success body, or an
 * AppError, given here the status `AppError.StatusCode` assigns it, which is
 * the status `middleware.ErrorHandler` renders it with.
 */
module Responses {
  import opened AppErrors

  datatype Response<+T> =
    | Ok(data: T)                 // 200, {"success": true, "data": ...}
    | Created(data: T)            // 201, {"success": true, "data": ...}
    | Accepted(message: string)   // 202, {"success": true, "message": ...}
    | Rejected(error: AppError)   // ErrorHandler's {"error": {code, message, details}}

  /** The status of a success body, or the status `AppError.StatusCode` assigns a rejection. */
  function Status<T>(r: Response<T>): (code: int)
    ensures r.Rejected? ==> code == StatusCode(r.error)
    ensures r.Rejected? <==> !(200 <= code < 300)
  {
    match r
    case Ok(_) => 200
    case Created(_) => 201
    case Accepted(_) => 202
    case Rejected(e) => StatusCodeCases(e); StatusCode(e)
  }
}
