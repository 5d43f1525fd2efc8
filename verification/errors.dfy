/** API errors with an HTTP status, and the standard error table
    (internal/domain/errors.go). */
module ApiErrors {
  import opened Wrappers

  /** A value in an error's free-form details map. */
  datatype Detail = Str(s: string) | Int(n: int)

  /** Go's `map[string]any`; a nil map and an empty one behave alike. */
  type Details = map<string, Detail>

  datatype APIError = APIError(statusCode: int, code: string, message: string, details: Details)

  /** `e.Error()`: the code, a colon and a space, then the message. */
  function ErrorText(e: APIError): (s: string)
    ensures |s| == |e.code| + 2 + |e.message|
    ensures s[..|e.code|] == e.code
    ensures s[|e.code|..|e.code| + 2] == ": "
    ensures s[|e.code| + 2..] == e.message
  {
    e.code + ": " + e.message
  }

  /** The part of an error text before its first colon. */
  function CodeOf(s: string): string {
    if s == [] || s[0] == ':' then [] else [s[0]] + CodeOf(s[1..])
  }

  /** The code is recoverable from the error text whenever it holds no colon,
      which is so for every standard code. */
  lemma {:induction false} CodeOfErrorText(e: APIError)
    requires ':' !in e.code
    ensures CodeOf(ErrorText(e)) == e.code
  {
    CodeOfPrefix(e.code, ": " + e.message);
    assert ErrorText(e) == e.code + (": " + e.message);
  }

  lemma {:induction false} CodeOfPrefix(code: string, rest: string)
    requires ':' !in code
    requires rest != [] && rest[0] == ':'
    ensures CodeOf(code + rest) == code
  {
    if code == [] {
      assert code + rest == rest;
    } else {
      assert (code + rest)[1..] == code[1..] + rest;
      CodeOfPrefix(code[1..], rest);
    }
  }

  /** `e.WithDetails(d)`: a new error, the original is a value and stays as it was. */
  function WithDetails(e: APIError, details: Details): (r: APIError)
    ensures r.statusCode == e.statusCode && r.code == e.code && r.message == e.message
    ensures r.details == details
  {
    APIError(e.statusCode, e.code, e.message, details)
  }

  /** `e.WithMessage(m)`: a new error carrying a different message. */
  function WithMessage(e: APIError, msg: string): (r: APIError)
    ensures r.statusCode == e.statusCode && r.code == e.code && r.details == e.details
    ensures r.message == msg
  {
    APIError(e.statusCode, e.code, msg, e.details)
  }

  /** The two copy helpers touch disjoint fields: they commute, re-applying an
      error's own value is the identity, and the last write wins. */
  lemma CopyHelpersAlgebra(e: APIError, d: Details, d': Details, m: string, m': string)
    ensures WithMessage(WithDetails(e, d), m) == WithDetails(WithMessage(e, m), d)
    ensures WithDetails(e, e.details) == e && WithMessage(e, e.message) == e
    ensures WithDetails(WithDetails(e, d), d') == WithDetails(e, d')
    ensures WithMessage(WithMessage(e, m), m') == WithMessage(e, m')
  {
  }

  /** The HTTP status codes the server uses. */
  const StatusCreated := 201
  const StatusNotFound := 404
  const StatusGone := 410
  const StatusRequestEntityTooLarge := 413
  const StatusUnprocessableEntity := 422
  const StatusTooEarly := 425
  const StatusInternalServerError := 500
  const StatusServiceUnavailable := 503

  /** The package-level error values. */
  datatype StandardError =
    | JobNotFound | ResultExpired | JobNotComplete | Validation | TextTooLong
    | ProviderUnavailable | InternalServer | InvalidVoice | InvalidFormat

  function Standard(k: StandardError): (e: APIError)
    ensures e.message != "" && e.details == map[]
    ensures 400 <= e.statusCode <= 599 && e.code != ""
  {
    match k
    case JobNotFound =>
      APIError(StatusNotFound, "JOB_NOT_FOUND", "Job not found", map[])
    case ResultExpired =>
      APIError(StatusGone, "RESULT_EXPIRED", "Result has expired. Results are retained for 24 hours.", map[])
    case JobNotComplete =>
      APIError(StatusTooEarly, "JOB_NOT_COMPLETE", "Job not yet completed", map[])
    case Validation =>
      APIError(StatusUnprocessableEntity, "VALIDATION_ERROR", "Validation failed", map[])
    case TextTooLong =>
      APIError(StatusRequestEntityTooLarge, "TEXT_TOO_LONG",
        "Text exceeds 5000 character limit. Use POST /api/v1/jobs for longer texts.", map[])
    case ProviderUnavailable =>
      APIError(StatusServiceUnavailable, "PROVIDER_UNAVAILABLE", "TTS provider unavailable", map[])
    case InternalServer =>
      APIError(StatusInternalServerError, "INTERNAL_ERROR", "Internal server error", map[])
    case InvalidVoice =>
      APIError(StatusUnprocessableEntity, "INVALID_VOICE", "Invalid voice_id", map[])
    case InvalidFormat =>
      APIError(StatusUnprocessableEntity, "INVALID_FORMAT", "Invalid output_format. Must be 'mp3' or 'wav'.", map[])
  }

  /** Which standard error a code names, if any. */
  function StandardOfCode(code: string): Option<StandardError> {
    if code == "JOB_NOT_FOUND" then Some(JobNotFound)
    else if code == "RESULT_EXPIRED" then Some(ResultExpired)
    else if code == "JOB_NOT_COMPLETE" then Some(JobNotComplete)
    else if code == "VALIDATION_ERROR" then Some(Validation)
    else if code == "TEXT_TOO_LONG" then Some(TextTooLong)
    else if code == "PROVIDER_UNAVAILABLE" then Some(ProviderUnavailable)
    else if code == "INTERNAL_ERROR" then Some(InternalServer)
    else if code == "INVALID_VOICE" then Some(InvalidVoice)
    else if code == "INVALID_FORMAT" then Some(InvalidFormat)
    else None
  }

  /** Each standard error is identified by its code: no two share one. */
  lemma StandardCodesIdentify(k: StandardError)
    ensures StandardOfCode(Standard(k).code) == Some(k)
  {
  }

  lemma StandardCodesDistinct(a: StandardError, b: StandardError)
    ensures Standard(a).code == Standard(b).code ==> a == b
  {
    StandardCodesIdentify(a);
    StandardCodesIdentify(b);
  }

  /** The statuses the result-gating path relies on. */
  lemma GatingStatuses()
    ensures Standard(JobNotFound).statusCode == 404 && Standard(JobNotFound).code == "JOB_NOT_FOUND"
    ensures Standard(ResultExpired).statusCode == 410 && Standard(ResultExpired).code == "RESULT_EXPIRED"
    ensures Standard(JobNotComplete).statusCode == 425 && Standard(JobNotComplete).code == "JOB_NOT_COMPLETE"
  {
  }

  /** The JSON envelope `{"error": ...}`. */
  datatype ErrorResponse = ErrorResponse(error: APIError)

  function NewErrorResponse(err: APIError): (r: ErrorResponse)
    ensures r.error == err
  {
    ErrorResponse(err)
  }
}
