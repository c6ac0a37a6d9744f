/**
 * The application's last-resort error middleware
 * (src/middlewares/errorHandler.ts): it defaults the status and the message
 * and answers `{ error: { message, status } }`.
 */
module ErrorHandler {
  import opened Wrappers

  /** An `AppError`: `status` is absent (`undefined`) or a number */
  datatype AppError = AppError(status: Option<int>, message: string)

  /** `{ error: { message, status } }` */
  datatype ErrorBody = ErrorBody(message: string, status: int)

  /** `res.status(statusCode).json(body)` */
  datatype ErrorResponse = ErrorResponse(status: int, body: ErrorBody)

  const DefaultStatus: int := 500
  const DefaultMessage: string := "Internal Server Error"

  /** `err.status || 500`: an absent or zero status is replaced */
  function StatusOf(err: AppError): (s: int)
    ensures s != 0
    ensures err.status.Some? && err.status.value != 0 ==> s == err.status.value
    ensures err.status == None || err.status == Some(0) ==> s == DefaultStatus
  {
    match err.status
    case Some(n) => if n != 0 then n else DefaultStatus
    case None => DefaultStatus
  }

  /** `err.message || 'Internal Server Error'`: an empty message is replaced */
  function MessageOf(err: AppError): (m: string)
    ensures m != ""
    ensures err.message != "" ==> m == err.message
    ensures err.message == "" ==> m == DefaultMessage
  {
    if err.message != "" then err.message else DefaultMessage
  }

  /** `errorHandler(err, req, res, next)`: the response it sends */
  function HandleError(err: AppError): (r: ErrorResponse)
    ensures r.body.status == r.status
    ensures r.status == StatusOf(err) && r.body.message == MessageOf(err)
  {
    var status := StatusOf(err);
    ErrorResponse(status, ErrorBody(MessageOf(err), status))
  }

  /** Two errors get the same response exactly when their defaulted status and message agree */
  lemma HandleErrorDeterminedByDefaults(a: AppError, b: AppError)
    ensures HandleError(a) == HandleError(b) <==> StatusOf(a) == StatusOf(b) && MessageOf(a) == MessageOf(b)
  {
  }
}
