/** The application's error value, its type and code enumerations and the status-code map. */
module AppErrors {
  import opened Wrappers

  /** ErrorType is a Go string type; the six named values are the known ones. */
  type ErrorType = string

  const ValidationType: ErrorType := "VALIDATION_ERROR"
  const AuthorizationType: ErrorType := "AUTHORIZATION_ERROR"
  const NotFoundType: ErrorType := "NOT_FOUND_ERROR"
  const InternalType: ErrorType := "INTERNAL_ERROR"
  const ConflictType: ErrorType := "CONFLICT_ERROR"
  const BadRequestType: ErrorType := "BAD_REQUEST_ERROR"

  /** ErrorCode is a Go string type too; handlers also pass ad-hoc codes. */
  type ErrorCode = string

  const InvalidCredentials: ErrorCode := "INVALID_CREDENTIALS"
  const TokenRequired: ErrorCode := "TOKEN_REQUIRED"
  const InvalidToken: ErrorCode := "INVALID_TOKEN"
  const TokenExpired: ErrorCode := "TOKEN_EXPIRED"
  const InvalidInput: ErrorCode := "INVALID_INPUT"
  const RequiredField: ErrorCode := "REQUIRED_FIELD"
  const InvalidFormat: ErrorCode := "INVALID_FORMAT"
  const ResourceNotFound: ErrorCode := "RESOURCE_NOT_FOUND"
  const ResourceExists: ErrorCode := "RESOURCE_EXISTS"
  const ResourceConflict: ErrorCode := "RESOURCE_CONFLICT"
  const DatabaseError: ErrorCode := "DATABASE_ERROR"
  const InternalServerError: ErrorCode := "INTERNAL_SERVER_ERROR"

  const ErrorCodes: seq<ErrorCode> := [
    InvalidCredentials, TokenRequired, InvalidToken, TokenExpired,
    InvalidInput, RequiredField, InvalidFormat,
    ResourceNotFound, ResourceExists, ResourceConflict,
    DatabaseError, InternalServerError
  ]

  /** errorTypeToStatusCode. */
  const StatusByType: map<ErrorType, int> := map[
    ValidationType := 400,
    AuthorizationType := 401,
    NotFoundType := 404,
    InternalType := 500,
    ConflictType := 409,
    BadRequestType := 400
  ]

  /**
   * AppError. `err` is the wrapped Go error, represented by its Error() text
   * (None is nil); `details` is the `any` payload, present only for validation
   * errors, as the list of failures the validator reported.
   */
  datatype AppError = AppError(
    errorType: ErrorType,
    code: ErrorCode,
    message: string,
    details: Option<seq<string>>,
    debugInfo: string,
    err: Option<string>)

  /** `fmt.Sprintf("%+v", err)`: "<nil>" for a nil error, its text otherwise. */
  function DebugText(err: Option<string>): string {
    match err
    case None => "<nil>"
    case Some(m) => m
  }

  /** AppError.Error(). */
  function Error(e: AppError): (s: string)
    ensures |s| >= |e.code| + 2 + |e.message|
    ensures s[..|e.code| + 2 + |e.message|] == e.code + ": " + e.message
  {
    match e.err
    case Some(m) => e.code + ": " + e.message + " (" + m + ")"
    case None => e.code + ": " + e.message
  }

  /** A wrapped error only appends " (cause)" to the text an error without a cause has. */
  lemma ErrorWithCause(e: AppError, cause: string)
    ensures Error(e.(err := Some(cause))) == Error(e.(err := None)) + " (" + cause + ")"
    ensures Error(e.(err := Some(cause))) != Error(e.(err := None))
  {
  }

  /** AppError.Unwrap(). */
  function Unwrap(e: AppError): Option<string> {
    e.err
  }

  /** AppError.StatusCode(): the mapped status for a known type, 500 for any other. */
  function StatusCode(e: AppError): (status: int)
    ensures e.errorType in StatusByType ==> status == StatusByType[e.errorType]
    ensures e.errorType !in StatusByType ==> status == 500
  {
    if e.errorType in StatusByType then StatusByType[e.errorType] else 500
  }

  /**
   * Which types produce which status. Validation and BadRequest share 400, so
   * the map is not injective; 500 covers Internal and every unknown type.
   */
  lemma StatusCodeCases(e: AppError)
    ensures StatusCode(e) in {400, 401, 404, 409, 500}
    ensures StatusCode(e) == 400 <==> e.errorType == ValidationType || e.errorType == BadRequestType
    ensures StatusCode(e) == 401 <==> e.errorType == AuthorizationType
    ensures StatusCode(e) == 404 <==> e.errorType == NotFoundType
    ensures StatusCode(e) == 409 <==> e.errorType == ConflictType
    ensures StatusCode(e) == 500 <==> e.errorType == InternalType || e.errorType !in StatusByType
  {
  }

  /** The six types are pairwise distinct and the map covers exactly them. */
  lemma ErrorTypesDistinct()
    ensures |{ValidationType, AuthorizationType, NotFoundType, InternalType, ConflictType, BadRequestType}| == 6
    ensures StatusByType.Keys == {ValidationType, AuthorizationType, NotFoundType, InternalType, ConflictType, BadRequestType}
  {
  }

  /** The twelve error codes are pairwise distinct. */
  lemma ErrorCodesDistinct()
    ensures forall i, j :: 0 <= i < j < |ErrorCodes| ==> ErrorCodes[i] != ErrorCodes[j]
  {
  }

  // ---------------------------------------------------------------- constructors

  function NewValidationError(code: ErrorCode, message: string, details: seq<string>): AppError {
    AppError(ValidationType, code, message, Some(details), "", None)
  }

  function NewAuthorizationError(code: ErrorCode, message: string): AppError {
    AppError(AuthorizationType, code, message, None, "", None)
  }

  function NewNotFoundError(code: ErrorCode, message: string): AppError {
    AppError(NotFoundType, code, message, None, "", None)
  }

  function NewConflictError(code: ErrorCode, message: string): AppError {
    AppError(ConflictType, code, message, None, "", None)
  }

  function NewInternalError(code: ErrorCode, message: string, err: Option<string>): AppError {
    AppError(InternalType, code, message, None, DebugText(err), err)
  }

  function NewBadRequestError(code: ErrorCode, message: string): AppError {
    AppError(BadRequestType, code, message, None, "", None)
  }

  /**
   * What each constructor fixes: its type and hence its status; only the
   * internal error carries a cause and debug text, only the validation error
   * carries details; code and message are stored as given.
   */
  lemma ConstructorShapes(code: ErrorCode, message: string, details: seq<string>, err: Option<string>)
    ensures StatusCode(NewValidationError(code, message, details)) == 400
    ensures StatusCode(NewAuthorizationError(code, message)) == 401
    ensures StatusCode(NewNotFoundError(code, message)) == 404
    ensures StatusCode(NewConflictError(code, message)) == 409
    ensures StatusCode(NewInternalError(code, message, err)) == 500
    ensures StatusCode(NewBadRequestError(code, message)) == 400
    ensures Unwrap(NewInternalError(code, message, err)) == err
    ensures NewInternalError(code, message, err).debugInfo == DebugText(err)
    ensures Unwrap(NewValidationError(code, message, details)) == None
    ensures Unwrap(NewAuthorizationError(code, message)) == None
    ensures Unwrap(NewNotFoundError(code, message)) == None
    ensures Unwrap(NewConflictError(code, message)) == None
    ensures Unwrap(NewBadRequestError(code, message)) == None
    ensures NewValidationError(code, message, details).details == Some(details)
    ensures NewInternalError(code, message, err).details == None
    ensures NewBadRequestError(code, message).details == None
    ensures NewNotFoundError(code, message).details == None
    ensures Error(NewBadRequestError(code, message)) == code + ": " + message
  {
  }
}
