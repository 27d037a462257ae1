/**
 * The service's error values: `statusError` (a cause, a message and an HTTP
 * status) with its constructors and its `Error` text, and the other errors the
 * core passes through unchanged (datastore failures, and the multi-error that
 * joins the two reads of a registration).
 */
module Errors {
  import opened Wrappers

  const StatusBadRequest: int := 400
  const StatusUnauthorized: int := 401
  const StatusForbidden: int := 403
  const StatusNotFound: int := 404
  const StatusConflict: int := 409
  const StatusInternalServerError: int := 500

  /** A `statusError`; None stands for a nil cause. */
  datatype StatusError = StatusError(cause: Option<Cause>, message: string, status: int)

  /** The error a `statusError` wraps. */
  datatype Cause =
    | StatusCause(inner: StatusError)
    | ServiceCause(failure: ServiceFailure)
    | LibraryCause(text: string)   // an error of a library (key decoding, time or number parsing), by its text

  /**
   * Failures of the App Engine services: `datastore.ErrNoSuchEntity`,
   * `datastore.ErrConcurrentTransaction`, and any other failure of the datastore,
   * the search index or the task queue.
   */
  datatype ServiceFailure = NoSuchEntity | ConcurrentTransaction | Unavailable

  /** Any error an operation of the core returns. */
  datatype Error =
    | Status(statusError: StatusError)
    | Multi(errors: seq<Error>)
    | Service(failure: ServiceFailure)

  function NewErrorCode(message: string, code: int): (e: StatusError)
    ensures e.cause.None? && e.message == message && e.status == code
  {
    StatusError(None, message, code)
  }

  /** A business-rule error: status 403 Forbidden. */
  function NewError(message: string): (e: StatusError)
    ensures e.cause.None? && e.message == message && e.status == StatusForbidden
  {
    NewErrorCode(message, StatusForbidden)
  }

  function ErrBadRequest(cause: Option<Cause>, message: string): (e: StatusError)
    ensures e.cause == cause && e.message == message && e.status == StatusBadRequest
  {
    StatusError(cause, message, StatusBadRequest)
  }

  function ErrNotFound(cause: Option<Cause>, message: string): (e: StatusError)
    ensures e.cause == cause && e.message == message && e.status == StatusNotFound
  {
    StatusError(cause, message, StatusNotFound)
  }

  /**
   * `errConflict` and `errInternalServer` are used by the registration code but
   * declared in a file that is not part of this model; they are given the
   * statuses the handler tests expect (409 and 500) and the same shape as the others.
   */
  function ErrConflict(message: string): (e: StatusError)
    ensures e.cause.None? && e.message == message && e.status == StatusConflict
  {
    StatusError(None, message, StatusConflict)
  }

  function ErrInternalServer(cause: Option<Cause>, message: string): (e: StatusError)
    ensures e.cause == cause && e.message == message && e.status == StatusInternalServerError
  {
    StatusError(cause, message, StatusInternalServerError)
  }

  const ErrUnauthorized: StatusError := NewErrorCode("authorization required", StatusUnauthorized)
  const ErrRegistered: StatusError := NewError("already registered")
  const ErrNotRegistered: StatusError := NewError("not registered")
  const ErrNoSeatsAvailable: StatusError := NewError("no seats available")

  function ServiceFailureText(f: ServiceFailure): string {
    match f
    case NoSuchEntity => "datastore: no such entity"
    case ConcurrentTransaction => "datastore: concurrent transaction"
    case Unavailable => "service unavailable"
  }

  /** `%v` of the cause: its text, or `<nil>`. */
  function CauseText(cause: Option<Cause>): string {
    match cause
    case None => "<nil>"
    case Some(StatusCause(inner)) => ErrorText(inner)
    case Some(ServiceCause(f)) => ServiceFailureText(f)
    case Some(LibraryCause(text)) => text
  }

  /** `statusError.Error()`: `ud859: <message> (<cause>)`. */
  function ErrorText(e: StatusError): (s: string)
    ensures |s| == |e.message| + |CauseText(e.cause)| + 10
    ensures s[..7] == "ud859: " && s[|s| - 1] == ')'
    ensures s[7..7 + |e.message|] == e.message
  {
    "ud859: " + e.message + " (" + CauseText(e.cause) + ")"
  }

  /** Two errors with the same cause print alike only when their messages are equal. */
  lemma ErrorTextDeterminesMessage(e1: StatusError, e2: StatusError)
    requires e1.cause == e2.cause && ErrorText(e1) == ErrorText(e2)
    ensures e1.message == e2.message
  {
    var tail := " (" + CauseText(e1.cause) + ")";
    assert ErrorText(e1) == "ud859: " + e1.message + tail;
    assert ErrorText(e2) == "ud859: " + e2.message + tail;
    assert |e1.message| == |e2.message|;
    assert e1.message == ErrorText(e1)[7..7 + |e1.message|];
  }

  /** The four named error values carry the statuses the handlers map them to. */
  lemma NamedErrorStatuses()
    ensures ErrUnauthorized.status == 401
    ensures ErrRegistered.status == 403 && ErrNotRegistered.status == 403 && ErrNoSeatsAvailable.status == 403
    ensures ErrRegistered != ErrNotRegistered && ErrRegistered != ErrNoSeatsAvailable && ErrNotRegistered != ErrNoSeatsAvailable
  {
  }
}
