/**
 * The tap's exception hierarchy and the table from HTTP status codes to the
 * exception raised and its default message.
 */
module Exceptions {
  import opened Wrappers

  /** The classes of the hierarchy; `DelightedError` is the root the tap defines. */
  datatype ErrorClass =
    | DelightedError
    | DelightedBackoffError
    | DelightedBadRequestError
    | DelightedUnauthorizedError
    | DelightedForbiddenError
    | DelightedNotFoundError
    | DelightedConflictError
    | DelightedUnprocessableEntityError
    | DelightedRateLimitError
    | DelightedInternalServerError
    | DelightedNotImplementedError
    | DelightedBadGatewayError
    | DelightedServiceUnavailableError

  /** The direct base class inside the hierarchy (`DelightedError` derives from `Exception`). */
  function Parent(c: ErrorClass): Option<ErrorClass> {
    match c
    case DelightedError => None
    case DelightedBackoffError => Some(DelightedError)
    case DelightedBadRequestError => Some(DelightedError)
    case DelightedUnauthorizedError => Some(DelightedError)
    case DelightedForbiddenError => Some(DelightedError)
    case DelightedNotFoundError => Some(DelightedError)
    case DelightedConflictError => Some(DelightedError)
    case _ => Some(DelightedBackoffError)
  }

  function Depth(c: ErrorClass): nat {
    match c
    case DelightedError => 0
    case DelightedBackoffError => 1
    case DelightedBadRequestError => 1
    case DelightedUnauthorizedError => 1
    case DelightedForbiddenError => 1
    case DelightedNotFoundError => 1
    case DelightedConflictError => 1
    case _ => 2
  }

  /** `issubclass(c, d)`. */
  predicate IsSubclassOf(c: ErrorClass, d: ErrorClass)
    decreases Depth(c)
  {
    c == d || (Parent(c).Some? && IsSubclassOf(Parent(c).value, d))
  }

  /** The errors the request wrapper retries (it names `DelightedBackoffError`). */
  predicate IsBackoff(c: ErrorClass) {
    IsSubclassOf(c, DelightedBackoffError)
  }

  /** One entry of the status table. */
  datatype MappingEntry = MappingEntry(raiseException: ErrorClass, message: string)

  const ERROR_CODE_EXCEPTION_MAPPING: map<int, MappingEntry> := map[
    400 := MappingEntry(DelightedBadRequestError, "A validation exception has occurred."),
    401 := MappingEntry(DelightedUnauthorizedError,
      "The access token provided is expired, revoked, malformed or invalid for other reasons."),
    403 := MappingEntry(DelightedForbiddenError, "You are missing the following required scopes: read"),
    404 := MappingEntry(DelightedNotFoundError, "The resource you have specified cannot be found."),
    409 := MappingEntry(DelightedConflictError,
      "The API request cannot be completed because the requested operation would conflict with an existing item."),
    422 := MappingEntry(DelightedUnprocessableEntityError, "The request content itself is not processable by the server."),
    429 := MappingEntry(DelightedRateLimitError,
      "The API rate limit for your organisation/application pairing has been exceeded."),
    500 := MappingEntry(DelightedInternalServerError,
      "The server encountered an unexpected condition which prevented it from fulfilling the request."),
    501 := MappingEntry(DelightedNotImplementedError,
      "The server does not support the functionality required to fulfill the request."),
    502 := MappingEntry(DelightedBadGatewayError, "Server received an invalid response."),
    503 := MappingEntry(DelightedServiceUnavailableError, "API service is currently unavailable.")
  ]

  const MAPPED_CODES: set<int> := {400, 401, 403, 404, 409, 422, 429, 500, 501, 502, 503}
  const BACKOFF_CODES: set<int> := {422, 429, 500, 501, 502, 503}
  const CLIENT_ERROR_CODES: set<int> := {400, 401, 403, 404, 409}

  /** `{"raise_exception": ...}` looked up with `DelightedError` as the default. */
  function ClassForStatus(status: int): (c: ErrorClass)
    ensures IsSubclassOf(c, DelightedError)
    ensures status in ERROR_CODE_EXCEPTION_MAPPING ==> c == ERROR_CODE_EXCEPTION_MAPPING[status].raiseException
    ensures status !in MAPPED_CODES ==> c == DelightedError
  {
    if status in ERROR_CODE_EXCEPTION_MAPPING then
      var c := ERROR_CODE_EXCEPTION_MAPPING[status].raiseException;
      assert Depth(c) <= 2;
      c
    else DelightedError
  }

  /** `{"message": ...}` looked up with `"Unknown Error"` as the default. */
  function MessageForStatus(status: int): (m: string)
    ensures |m| > 0
  {
    if status in ERROR_CODE_EXCEPTION_MAPPING then ERROR_CODE_EXCEPTION_MAPPING[status].message
    else "Unknown Error"
  }

  /** A raised `DelightedError` (or subclass) instance with its two attributes. */
  datatype DelightedException<R> = DelightedException(cls: ErrorClass, message: Option<string>, response: Option<R>)

  /** `cls(message, response)`: the instance keeps both arguments as given. */
  function NewException<R>(cls: ErrorClass, message: Option<string>, response: Option<R>): (e: DelightedException<R>)
    ensures e.cls == cls && e.message == message && e.response == response
  {
    DelightedException(cls, message, response)
  }

  /** The table covers exactly eleven codes. */
  lemma MappingCoversExactlyTheDocumentedCodes()
    ensures ERROR_CODE_EXCEPTION_MAPPING.Keys == MAPPED_CODES
  {
  }

  /** Each code has a class strictly below `DelightedError` and a non-empty message. */
  lemma {:induction false} EveryEntryIsComplete(code: int)
    requires code in ERROR_CODE_EXCEPTION_MAPPING
    ensures |ERROR_CODE_EXCEPTION_MAPPING[code].message| > 0
    ensures ERROR_CODE_EXCEPTION_MAPPING[code].raiseException != DelightedError
    ensures IsSubclassOf(ERROR_CODE_EXCEPTION_MAPPING[code].raiseException, DelightedError)
  {
    var c := ERROR_CODE_EXCEPTION_MAPPING[code].raiseException;
    assert Parent(c).Some? && Depth(c) <= 2;
  }

  /** The status decides the class: no two codes share one. */
  lemma MappedClassesAreDistinct(c1: int, c2: int)
    requires c1 in ERROR_CODE_EXCEPTION_MAPPING && c2 in ERROR_CODE_EXCEPTION_MAPPING && c1 != c2
    ensures ERROR_CODE_EXCEPTION_MAPPING[c1].raiseException != ERROR_CODE_EXCEPTION_MAPPING[c2].raiseException
  {
  }

  /** A status leads to a retried error exactly when it is 422, 429 or 500-503. */
  lemma {:induction false} BackoffExactlyForRetryableCodes(status: int)
    ensures IsBackoff(ClassForStatus(status)) <==> status in BACKOFF_CODES
  {
    if status in ERROR_CODE_EXCEPTION_MAPPING {
      var c := ERROR_CODE_EXCEPTION_MAPPING[status].raiseException;
      if status in BACKOFF_CODES {
        assert Parent(c) == Some(DelightedBackoffError);
      } else {
        assert Parent(c) == Some(DelightedError);
        assert !IsSubclassOf(DelightedError, DelightedBackoffError);
      }
    } else {
      assert !IsSubclassOf(DelightedError, DelightedBackoffError);
    }
  }

  /** 400, 401, 403, 404 and 409 raise direct subclasses of `DelightedError` that are never retried. */
  lemma {:induction false} ClientErrorsAreNotRetried(status: int)
    requires status in CLIENT_ERROR_CODES
    ensures Parent(ClassForStatus(status)) == Some(DelightedError)
    ensures !IsBackoff(ClassForStatus(status))
  {
    BackoffExactlyForRetryableCodes(status);
  }
}
