/**
 * The API's exception hierarchy: every error a service raises carries a
 * message, an HTTP status code, a machine-readable error code and a
 * details dictionary, and each subclass fixes the status and code.
 */
module Exceptions {
  import opened Wrappers
  import opened Values

  /** Which class of `CTSRException` was raised. */
  datatype Kind = Internal | NotFound | Validation | Authentication | Authorization | Conflict

  /** An exception instance with the attributes its constructor sets. */
  datatype Error = Error(kind: Kind, message: string, statusCode: int, errorCode: string, details: map<string, Value>)

  /** The outcome of a service call: a value, or the exception it raises. */
  datatype Result<T> = Ok(value: T) | Err(error: Error)

  /** The HTTP status each subclass fixes (the base class defaults to 500). */
  function StatusOf(k: Kind): int
  {
    match k
    case Internal => 500
    case NotFound => 404
    case Validation => 400
    case Authentication => 401
    case Authorization => 403
    case Conflict => 409
  }

  /** The error code each subclass fixes (the base class defaults to INTERNAL_ERROR). */
  function CodeOf(k: Kind): string
  {
    match k
    case Internal => "INTERNAL_ERROR"
    case NotFound => "NOT_FOUND"
    case Validation => "VALIDATION_ERROR"
    case Authentication => "AUTHENTICATION_ERROR"
    case Authorization => "AUTHORIZATION_ERROR"
    case Conflict => "CONFLICT"
  }

  /** `details or {}`: a missing details dictionary becomes an empty one. */
  function DetailsOrEmpty(details: Option<map<string, Value>>): (r: map<string, Value>)
    ensures details.Some? ==> r == details.value
    ensures details.None? ==> r == map[]
  {
    details.GetOr(map[])
  }

  /** `CTSRException(message, status_code=500, error_code="INTERNAL_ERROR", details=None)`. */
  function BaseError(message: string, statusCode: Option<int>, errorCode: Option<string>,
                     details: Option<map<string, Value>>): (e: Error)
    ensures e.kind == Internal && e.message == message
    ensures e.statusCode == statusCode.GetOr(500) && e.errorCode == errorCode.GetOr("INTERNAL_ERROR")
    ensures e.details == DetailsOrEmpty(details)
  {
    Error(Internal, message, statusCode.GetOr(500), errorCode.GetOr("INTERNAL_ERROR"), DetailsOrEmpty(details))
  }

  /** `NotFoundError(resource, identifier)`: "<resource> not found: <identifier>". */
  function NotFoundError(resource: string, identifier: string, details: Option<map<string, Value>>): (e: Error)
    ensures WellFormed(e) && e.kind == NotFound
    ensures e.message == resource + " not found: " + identifier
  {
    Error(NotFound, resource + " not found: " + identifier, StatusOf(NotFound), CodeOf(NotFound), DetailsOrEmpty(details))
  }

  function ValidationError(message: string, details: Option<map<string, Value>>): (e: Error)
    ensures WellFormed(e) && e.kind == Validation && e.message == message
  {
    Error(Validation, message, StatusOf(Validation), CodeOf(Validation), DetailsOrEmpty(details))
  }

  /** `AuthenticationError(message="Authentication failed")`. */
  function AuthenticationError(message: Option<string>, details: Option<map<string, Value>>): (e: Error)
    ensures WellFormed(e) && e.kind == Authentication
    ensures e.message == message.GetOr("Authentication failed")
  {
    Error(Authentication, message.GetOr("Authentication failed"), StatusOf(Authentication),
          CodeOf(Authentication), DetailsOrEmpty(details))
  }

  /** `AuthorizationError(message="Insufficient permissions")`. */
  function AuthorizationError(message: Option<string>, details: Option<map<string, Value>>): (e: Error)
    ensures WellFormed(e) && e.kind == Authorization
    ensures e.message == message.GetOr("Insufficient permissions")
  {
    Error(Authorization, message.GetOr("Insufficient permissions"), StatusOf(Authorization),
          CodeOf(Authorization), DetailsOrEmpty(details))
  }

  function ConflictError(message: string, details: Option<map<string, Value>>): (e: Error)
    ensures WellFormed(e) && e.kind == Conflict && e.message == message
  {
    Error(Conflict, message, StatusOf(Conflict), CodeOf(Conflict), DetailsOrEmpty(details))
  }

  /** A subclass instance carries its class's status and code. */
  predicate WellFormed(e: Error)
  {
    e.kind != Internal ==> e.statusCode == StatusOf(e.kind) && e.errorCode == CodeOf(e.kind)
  }

  /** The subclass an HTTP status belongs to, if any. */
  function KindOfStatus(status: int): (k: Option<Kind>)
    ensures k.Some? ==> k.value != Internal && StatusOf(k.value) == status
  {
    if status == 404 then Some(NotFound)
    else if status == 400 then Some(Validation)
    else if status == 401 then Some(Authentication)
    else if status == 403 then Some(Authorization)
    else if status == 409 then Some(Conflict)
    else None
  }

  /**
   * Status codes tell the subclasses apart: a client can recover which
   * class was raised from the HTTP status alone.
   */
  lemma StatusIdentifiesKind(e: Error)
    requires WellFormed(e) && e.kind != Internal
    ensures KindOfStatus(e.statusCode) == Some(e.kind)
  {
  }

  /** Distinct subclasses have distinct codes. */
  lemma CodesDistinct(a: Kind, b: Kind)
    requires a != b
    ensures CodeOf(a) != CodeOf(b) && StatusOf(a) != StatusOf(b)
  {
  }
}
