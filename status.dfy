/**
 * The status classifier: which HTTP status each request method accepts,
 * and the exception kind a rejected status is turned into.
 */
module Status {
  import opened Wrappers

  const HTTP_OK := 200
  const HTTP_CREATED := 201
  const HTTP_NO_CONTENT := 204
  const HTTP_MULTIPLE_CHOICES := 300
  const HTTP_BAD_REQUEST := 400
  const HTTP_FORBIDDEN := 403
  const HTTP_NOT_FOUND := 404
  const HTTP_METHOD_NOT_ALLOWED := 405
  const HTTP_CONFLICT := 409

  datatype HttpMethod = GET | POST | PUT | DELETE

  /** The client's exception classes, plus the fatal error a malformed response leads to. */
  datatype ErrorKind =
    | InvalidArgument
    | ObjectNotFound
    | PermissionDenied
    | NotSupported
    | NotImplemented
    | Constraint
    | Runtime
    | ParseFailure

  /** A raised exception: its class, its message and its code (0 when none is given). */
  datatype CmisError = CmisError(kind: ErrorKind, message: string, code: int)

  /** The codes that have an exception class of their own. */
  predicate IsMappedCode(code: int) {
    code == HTTP_BAD_REQUEST || code == HTTP_FORBIDDEN || code == HTTP_NOT_FOUND
    || code == HTTP_METHOD_NOT_ALLOWED || code == HTTP_CONFLICT
  }

  /**
   * convertStatusCode: a closed table from status to exception class; the
   * exception always carries the status and the response body as message.
   */
  function ConvertStatusCode(code: int, message: string): (e: CmisError)
    ensures e.code == code && e.message == message
    ensures e.kind == InvalidArgument <==> code == HTTP_BAD_REQUEST
    ensures e.kind == PermissionDenied <==> code == HTTP_FORBIDDEN
    ensures e.kind == ObjectNotFound <==> code == HTTP_NOT_FOUND
    ensures e.kind == NotSupported <==> code == HTTP_METHOD_NOT_ALLOWED
    ensures e.kind == Constraint <==> code == HTTP_CONFLICT
    ensures e.kind == Runtime <==> !IsMappedCode(code)
    ensures e.kind != NotImplemented && e.kind != ParseFailure
  {
    var kind :=
      if code == HTTP_BAD_REQUEST then InvalidArgument
      else if code == HTTP_NOT_FOUND then ObjectNotFound
      else if code == HTTP_FORBIDDEN then PermissionDenied
      else if code == HTTP_METHOD_NOT_ALLOWED then NotSupported
      else if code == HTTP_CONFLICT then Constraint
      else Runtime;
    CmisError(kind, message, code)
  }

  /**
   * The status each request helper treats as success: GET needs 200, POST
   * 201, DELETE 204, and PUT anything from 200 up to (not including) 300.
   */
  function Accepts(m: HttpMethod, code: int): (ok: bool)
    ensures ok ==> HTTP_OK <= code < HTTP_MULTIPLE_CHOICES
    ensures ok && m != PUT ==> code == (if m == GET then HTTP_OK else if m == POST then HTTP_CREATED else HTTP_NO_CONTENT)
  {
    match m
    case GET => code == HTTP_OK
    case POST => code == HTTP_CREATED
    case DELETE => code == HTTP_NO_CONTENT
    case PUT => HTTP_OK <= code < HTTP_MULTIPLE_CHOICES
  }

  /**
   * doGet / doPost / doPut / doDelete after the transport answered: no
   * exception when the status is accepted, otherwise convertStatusCode of the
   * status with the response body as message.
   */
  function CheckStatus(m: HttpMethod, code: int, body: string): (r: Option<CmisError>)
    ensures r.None? <==> Accepts(m, code)
    ensures r.Some? ==> r.value.code == code && r.value.message == body
    ensures r.Some? ==> r.value.kind != NotImplemented && r.value.kind != ParseFailure
    ensures r.Some? && r.value.kind != Runtime ==> HTTP_BAD_REQUEST <= code <= HTTP_CONFLICT
  {
    if Accepts(m, code) then None else Some(ConvertStatusCode(code, body))
  }

  /** 204 counts as success for DELETE and for PUT, and for nothing else. */
  lemma NoContentAcceptedBy(m: HttpMethod)
    ensures Accepts(m, HTTP_NO_CONTENT) <==> m == DELETE || m == PUT
  {
  }
}
