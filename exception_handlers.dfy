/**
 The global handler that turns an `ApiException` reaching the request
 boundary into a JSON error response. Only the response is modelled; the log
 line the handler writes first is a side effect left out.
 */
module ExceptionHandlers {
  import opened Wrappers
  import opened Exceptions

  /** The JSON values that appear in an error body. */
  datatype Json = JString(s: string) | JInt(i: int)

  /** A `JSONResponse`: its HTTP status and its top-level JSON object. */
  datatype Response = Response(statusCode: int, content: map<string, Json>)

  const FallbackDetails: string := "Unexpected error occurred."

  /** Python truthiness of an optional integer: `None` and `0` are false. */
  predicate IntTruthy(c: Option<int>) {
    c.Some? && c.value != 0
  }

  /** Python truthiness of an optional string: `None` and `""` are false. */
  predicate StrTruthy(m: Option<string>) {
    m.Some? && m.value != ""
  }

  /** `exp.status_code or 500`. */
  function StatusOrDefault(c: Option<int>): (s: int)
    ensures IntTruthy(c) ==> s == c.value
    ensures !IntTruthy(c) ==> s == 500
  {
    if IntTruthy(c) then c.value else 500
  }

  /** `exp.message or "Unexpected error occurred."`. */
  function MessageOrDefault(m: Option<string>): (d: string)
    ensures StrTruthy(m) ==> d == m.value
    ensures !StrTruthy(m) ==> d == FallbackDetails
  {
    if StrTruthy(m) then m.value else FallbackDetails
  }

  /** `api_exception_handler(request, exp)`. The request's URL only feeds
      the log line, so it does not reach the response. */
  function Handle(requestUrl: string, exp: ApiError): (r: Response)
    ensures r.content.Keys == {"error", "details", "status_code"}
    ensures r.statusCode != 0
    ensures r.content["status_code"] == JInt(r.statusCode)
    ensures IntTruthy(exp.statusCode) ==> r.statusCode == exp.statusCode.value
    ensures !IntTruthy(exp.statusCode) ==> r.statusCode == 500
    ensures r.content["error"] == JString(ClassName(exp.kind))
    ensures StrTruthy(exp.message) ==> r.content["details"] == JString(exp.message.value)
    ensures !StrTruthy(exp.message) ==> r.content["details"] == JString(FallbackDetails)
  {
    var status := StatusOrDefault(exp.statusCode);
    Response(status, map[
      "error" := JString(ClassName(exp.kind)),
      "details" := JString(MessageOrDefault(exp.message)),
      "status_code" := JInt(status)
    ])
  }

  /** The response depends on the exception alone. */
  lemma ResponseIgnoresRequest(url1: string, url2: string, exp: ApiError)
    ensures Handle(url1, exp) == Handle(url2, exp)
  {
  }

  /** Any class built from a message is answered with the class's fixed
      status code, and with the message itself when it is non-empty. */
  lemma HandleConstructed(url: string, k: Kind, message: Option<string>)
    ensures Handle(url, Construct(k, message)).statusCode == FixedCode(k)
    ensures StrTruthy(message) ==> Handle(url, Construct(k, message)).content["details"] == JString(message.value)
  {
    ConstructFixesCode(k, message);
  }

  /** Two different classes give different `error` fields, even when they
      share a status code (as `Forbidden` and `ExpiredToken` do). */
  lemma ErrorFieldDistinguishesKinds(url: string, e1: ApiError, e2: ApiError)
    requires e1.kind != e2.kind
    ensures Handle(url, e1).content["error"] != Handle(url, e2).content["error"]
  {
    ClassNamesDistinct(e1.kind, e2.kind);
  }

  /** Building an `ApiException` with status code 0 or `None` still gives a
      500 response. */
  lemma FalsyCodeBecomes500(url: string, message: Option<string>, code: Option<int>)
    requires code == None || code == Some(0)
    ensures Handle(url, NewApiException(message, code)).statusCode == 500
  {
  }
}
