/**
 The application's exception taxonomy: the base `ApiException`, its sixteen
 subclasses, each of which fixes an HTTP status code, and the constant table
 from status codes back to exception classes.

 An exception object carries a message and a status code, both set once by
 the constructor chain and never changed afterwards, so an exception is a
 value here. Both fields may be Python's `None` (nothing in the constructors
 stops a caller from passing it), which is why they are options.
 */
module Exceptions {
  import opened Wrappers

  /** The exception classes. `Api` is `ApiException` itself. */
  datatype Kind =
    | Api
    | BadRequest
    | DuplicateEntry
    | Unauthorized
    | UnauthorizedServiceAccount
    | Forbidden
    | ExpiredToken
    | PasswordPolicy
    | PasswordExpired
    | NotFound
    | MethodNotAllowed
    | Conflict
    | TooManyRequests
    | InternalError
    | NotImplemented
    | BadGateway
    | ServiceUnavailable

  /** An exception object: its class, `message` and `status_code`. */
  datatype ApiError = ApiError(kind: Kind, message: Option<string>, statusCode: Option<int>)

  /** The direct base class of each exception class (`Api` derives from
      Python's `Exception`, which is outside the taxonomy). */
  function Parent(k: Kind): Option<Kind> {
    match k
    case Api => None
    case DuplicateEntry => Some(BadRequest)
    case UnauthorizedServiceAccount => Some(Unauthorized)
    case PasswordPolicy => Some(Forbidden)
    case PasswordExpired => Some(Forbidden)
    case _ => Some(Api)
  }

  /** Distance from `Api` along `Parent`. */
  function Depth(k: Kind): nat {
    match k
    case Api => 0
    case DuplicateEntry => 2
    case UnauthorizedServiceAccount => 2
    case PasswordPolicy => 2
    case PasswordExpired => 2
    case _ => 1
  }

  /** `sub` is `sup` or inherits from it, directly or not. */
  predicate IsSubclass(sub: Kind, sup: Kind)
    decreases Depth(sub)
  {
    sub == sup || (Parent(sub).Some? && IsSubclass(Parent(sub).value, sup))
  }

  /** Every class of the taxonomy is an `ApiException`. */
  lemma {:induction false} AllAreApiExceptions(k: Kind)
    ensures IsSubclass(k, Api)
    decreases Depth(k)
  {
    if k != Api {
      AllAreApiExceptions(Parent(k).value);
    }
  }

  /** `exp.__class__.__name__` for each class. */
  function ClassName(k: Kind): string {
    match k
    case Api => "ApiException"
    case BadRequest => "BadRequestApiException"
    case DuplicateEntry => "DuplicateEntryException"
    case Unauthorized => "UnauthorizedApiException"
    case UnauthorizedServiceAccount => "UnauthorizedServiceAccountException"
    case Forbidden => "ForbiddenApiException"
    case ExpiredToken => "ExpiredTokenException"
    case PasswordPolicy => "PasswordPolicyException"
    case PasswordExpired => "PasswordExpiredException"
    case NotFound => "NotFoundApiException"
    case MethodNotAllowed => "MethodNotAllowedApiException"
    case Conflict => "ConflictApiException"
    case TooManyRequests => "TooManyRequestsApiException"
    case InternalError => "InternalErrorApiException"
    case NotImplemented => "NotImplementedApiException"
    case BadGateway => "BadGatewayApiException"
    case ServiceUnavailable => "ServiceUnavailable"
  }

  /** The length of each class name. */
  function NameLength(k: Kind): nat {
    match k
    case Api => 12
    case BadRequest => 22
    case DuplicateEntry => 23
    case Unauthorized => 24
    case UnauthorizedServiceAccount => 35
    case Forbidden => 21
    case ExpiredToken => 21
    case PasswordPolicy => 23
    case PasswordExpired => 24
    case NotFound => 20
    case MethodNotAllowed => 28
    case Conflict => 20
    case TooManyRequests => 27
    case InternalError => 25
    case NotImplemented => 26
    case BadGateway => 22
    case ServiceUnavailable => 18
  }

  lemma ClassNameLength(k: Kind)
    ensures |ClassName(k)| == NameLength(k)
  {
  }

  /** Class names tell every two classes apart, including those that share a
      status code. */
  lemma ClassNamesDistinct(k1: Kind, k2: Kind)
    requires k1 != k2
    ensures ClassName(k1) != ClassName(k2)
  {
    ClassNameLength(k1);
    ClassNameLength(k2);
  }

  /** The status code each class is documented to carry when built from a
      message alone; an independent table, checked against the constructor
      chain by `ConstructFixesCode`. */
  function FixedCode(k: Kind): (c: int)
    ensures 400 <= c <= 599
  {
    match k
    case Api => 500
    case BadRequest => 400
    case DuplicateEntry => 400
    case Unauthorized => 401
    case UnauthorizedServiceAccount => 401
    case Forbidden => 403
    case ExpiredToken => 403
    case PasswordPolicy => 403
    case PasswordExpired => 403
    case NotFound => 404
    case MethodNotAllowed => 405
    case Conflict => 409
    case TooManyRequests => 429
    case InternalError => 500
    case NotImplemented => 501
    case BadGateway => 502
    case ServiceUnavailable => 503
  }

  /** `ApiException.__init__(self, message, status_code=500)` run on an
      object whose class is `cls`. */
  function NewApiExceptionAs(cls: Kind, message: Option<string>, statusCode: Option<int> := Some(500)): (e: ApiError)
    ensures e.kind == cls && e.message == message && e.statusCode == statusCode
  {
    ApiError(cls, message, statusCode)
  }

  /** `ApiException(message, status_code)`, the default code being 500. */
  function NewApiException(message: Option<string>, statusCode: Option<int> := Some(500)): (e: ApiError)
    ensures e.kind == Api && e.message == message && e.statusCode == statusCode
  {
    NewApiExceptionAs(Api, message, statusCode)
  }

  /** The `__init__(self, message)` of class `k`, run on an object of class
      `cls`: a subclass that only forwards to its parent's `__init__` takes
      whatever code the parent fixes. */
  function Init(cls: Kind, k: Kind, message: Option<string>): ApiError
    decreases Depth(k)
  {
    match k
    case Api => NewApiExceptionAs(cls, message)
    case BadRequest => NewApiExceptionAs(cls, message, Some(400))
    case Unauthorized => NewApiExceptionAs(cls, message, Some(401))
    case Forbidden => NewApiExceptionAs(cls, message, Some(403))
    case ExpiredToken => NewApiExceptionAs(cls, message, Some(403))
    case NotFound => NewApiExceptionAs(cls, message, Some(404))
    case MethodNotAllowed => NewApiExceptionAs(cls, message, Some(405))
    case Conflict => NewApiExceptionAs(cls, message, Some(409))
    case TooManyRequests => NewApiExceptionAs(cls, message, Some(429))
    case InternalError => NewApiExceptionAs(cls, message, Some(500))
    case NotImplemented => NewApiExceptionAs(cls, message, Some(501))
    case BadGateway => NewApiExceptionAs(cls, message, Some(502))
    case ServiceUnavailable => NewApiExceptionAs(cls, message, Some(503))
    case DuplicateEntry => Init(cls, BadRequest, message)
    case UnauthorizedServiceAccount => Init(cls, Unauthorized, message)
    case PasswordPolicy => Init(cls, Forbidden, message)
    case PasswordExpired => Init(cls, Forbidden, message)
  }

  /** `K(message)` for exception class `K`. */
  function Construct(k: Kind, message: Option<string>): ApiError {
    Init(k, k, message)
  }

  /** Building any class from a message keeps the class and the message
      unchanged and gives the class's documented fixed code. */
  lemma ConstructFixesCode(k: Kind, message: Option<string>)
    ensures Construct(k, message) == ApiError(k, message, Some(FixedCode(k)))
  {
  }

  /** A subclass that forwards to its parent's constructor inherits the
      parent's code, and a constructed object of the subclass has that
      code. */
  lemma SubclassInheritsCode(k: Kind, message: Option<string>)
    requires Parent(k).Some? && Parent(k).value != Api
    ensures FixedCode(k) == FixedCode(Parent(k).value)
    ensures Construct(k, message).statusCode == Construct(Parent(k).value, message).statusCode
  {
  }

  /** `ERROR_CODE_TO_EXCEPTION`. */
  const ErrorCodeToException: map<int, Kind> := map[
    400 := BadRequest,
    401 := Unauthorized,
    403 := Forbidden,
    404 := NotFound,
    405 := MethodNotAllowed,
    409 := Conflict,
    429 := TooManyRequests,
    500 := InternalError,
    501 := NotImplemented,
    502 := BadGateway,
    503 := ServiceUnavailable
  ]

  lemma TableDomain()
    ensures ErrorCodeToException.Keys == {400, 401, 403, 404, 405, 409, 429, 500, 501, 502, 503}
  {
  }

  /** The class the table gives for a code, built with any message, carries
      exactly that code. */
  lemma TableRoundTrip(c: int, message: Option<string>)
    requires c in ErrorCodeToException
    ensures Construct(ErrorCodeToException[c], message).statusCode == Some(c)
  {
    ConstructFixesCode(ErrorCodeToException[c], message);
  }

  /** Every class's code is a key of the table, and looking that code up
      gives the class back exactly when the class is one the table lists:
      `ExpiredToken`, `PasswordPolicy`, `PasswordExpired` (and the other
      subclasses and the base) come back as some other class. */
  lemma TableCoversCodes(k: Kind)
    ensures FixedCode(k) in ErrorCodeToException
    ensures ErrorCodeToException[FixedCode(k)] == k <==> k in ErrorCodeToException.Values
  {
    if k in ErrorCodeToException.Values {
      var c :| c in ErrorCodeToException && ErrorCodeToException[c] == k;
      assert FixedCode(k) == c;
    }
  }

  /** The table is not injective on classes' codes: three classes that are
      not `Forbidden` share its code. */
  lemma ForbiddenFamilyMapsToForbidden()
    ensures ErrorCodeToException[FixedCode(ExpiredToken)] == Forbidden
    ensures ErrorCodeToException[FixedCode(PasswordPolicy)] == Forbidden
    ensures ErrorCodeToException[FixedCode(PasswordExpired)] == Forbidden
  {
  }
}
