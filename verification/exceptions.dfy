/** The backend's exception classes and the handler that maps them to HTTP
    responses (backend/src/core/exceptions.py). */
module Exceptions {

  /** The platform's exception classes below the common base class. */
  datatype ErrorClass = PlatformBase | UserNotFound | InvalidCredentials | TransactionFailure

  /** An exception, seen through `isinstance`: the set of platform classes
      it is an instance of. Any other exception has the empty set. */
  datatype Raised = Raised(classes: set<ErrorClass>)

  /** Each platform class derives from the base, so an instance of one is
      an instance of the base too. */
  predicate WellFormed(e: Raised) {
    e.classes != {} ==> PlatformBase in e.classes
  }

  datatype HttpError = HttpError(statusCode: int, detail: string)

  const NotFound := 404
  const Unauthorized := 401
  const BadRequest := 400
  const InternalServerError := 500

  /** `http_exception_handler`: the first matching check wins, in the
      order user-not-found, invalid credentials, transaction; anything else,
      including the bare base class, is an internal error. */
  function HttpExceptionHandler(e: Raised): (r: HttpError)
    ensures r.statusCode == NotFound <==> UserNotFound in e.classes
    ensures r.statusCode == Unauthorized <==> UserNotFound !in e.classes && InvalidCredentials in e.classes
    ensures r.statusCode == BadRequest <==>
      UserNotFound !in e.classes && InvalidCredentials !in e.classes && TransactionFailure in e.classes
    ensures r.statusCode == InternalServerError <==>
      UserNotFound !in e.classes && InvalidCredentials !in e.classes && TransactionFailure !in e.classes
  {
    if UserNotFound in e.classes then HttpError(NotFound, "User not found")
    else if InvalidCredentials in e.classes then HttpError(Unauthorized, "Invalid credentials")
    else if TransactionFailure in e.classes then HttpError(BadRequest, "Transaction failed")
    else HttpError(InternalServerError, "An unexpected error occurred")
  }

  /** The detail is determined by the status, and the status is one of four. */
  lemma DetailFollowsStatus(e: Raised)
    ensures var r := HttpExceptionHandler(e);
      && r.statusCode in {NotFound, Unauthorized, BadRequest, InternalServerError}
      && (r.statusCode == NotFound ==> r.detail == "User not found")
      && (r.statusCode == Unauthorized ==> r.detail == "Invalid credentials")
      && (r.statusCode == BadRequest ==> r.detail == "Transaction failed")
      && (r.statusCode == InternalServerError ==> r.detail == "An unexpected error occurred")
  {
  }

  /** Only the three specific classes earn a client-error status: an
      exception outside the platform's classes and one of the bare base
      class are both internal errors. */
  lemma BaseClassIsInternal()
    ensures HttpExceptionHandler(Raised({})).statusCode == InternalServerError
    ensures HttpExceptionHandler(Raised({PlatformBase})).statusCode == InternalServerError
    ensures WellFormed(Raised({PlatformBase}))
  {
  }

  /** An exception deriving from two specific classes gets the status of
      the one checked first. */
  lemma FirstCheckWins()
    ensures HttpExceptionHandler(Raised({PlatformBase, InvalidCredentials, TransactionFailure})).statusCode == Unauthorized
    ensures HttpExceptionHandler(Raised({PlatformBase, UserNotFound, InvalidCredentials})).statusCode == NotFound
  {
  }
}
