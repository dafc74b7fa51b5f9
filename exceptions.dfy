/** The service's exception hierarchy: a base exception carrying a message
    and an HTTP status code, and three subclasses that fix the code. */
module Exceptions {

  /** Which class of the hierarchy raised the error. */
  datatype ExceptionKind = SuiBotError | ValidationError | SearchError | AIServiceError

  /** Every exception of the hierarchy is a `SuiBotException`: it has a
      `message` and a `status_code`. */
  datatype SuiBotException = SuiBotException(kind: ExceptionKind, message: string, statusCode: int)

  const DefaultStatusCode := 500
  const HttpBadRequest := 400
  const HttpServiceUnavailable := 503

  /** `SuiBotException(message, status_code=500)`. */
  function NewSuiBotException(message: string, statusCode: int := DefaultStatusCode): (e: SuiBotException)
    ensures e.kind == SuiBotError && e.message == message && e.statusCode == statusCode
  {
    SuiBotException(SuiBotError, message, statusCode)
  }

  /** The status code a subclass always passes to the base constructor;
      the base class itself has none of its own. */
  function FixedStatus(kind: ExceptionKind): (code: int)
    requires kind != SuiBotError
    ensures 400 <= code < 600
  {
    match kind
    case ValidationError => HttpBadRequest
    case SearchError => HttpServiceUnavailable
    case AIServiceError => HttpServiceUnavailable
  }

  /** The subclass constructors: each takes only a message. */
  function NewError(kind: ExceptionKind, message: string): (e: SuiBotException)
    requires kind != SuiBotError
    ensures e.kind == kind && e.message == message
    ensures e.statusCode == (if kind == ValidationError then 400 else 503)
  {
    NewSuiBotException(message, FixedStatus(kind)).(kind := kind)
  }

  function NewValidationError(message: string): SuiBotException
  {
    NewError(ValidationError, message)
  }

  function NewSearchError(message: string): SuiBotException
  {
    NewError(SearchError, message)
  }

  function NewAIServiceError(message: string): SuiBotException
  {
    NewError(AIServiceError, message)
  }

  /** A subclass's status code depends on its class alone, never on the
      message; only a validation error is the client's fault (4xx). */
  lemma SubclassStatusIsFixed(kind: ExceptionKind, m1: string, m2: string)
    requires kind != SuiBotError
    ensures NewError(kind, m1).statusCode == NewError(kind, m2).statusCode
    ensures NewError(kind, m1).statusCode < 500 <==> kind == ValidationError
  {
  }
}
