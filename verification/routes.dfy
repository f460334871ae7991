/**
 * The API's error responses: an error number fixes the HTTP status code, the message is kept
 * as given, and any Docker failure becomes an internal error whose message is prefixed with
 * "Docker hatası: ".
 */
module Routes {
  import opened Wrappers

  datatype ErrorNumber = ContainerNotFound | OperationFailed | InternalError | GpuTransferError

  /** `ErrorResponse { error, code }`; the code is a `u16`. */
  datatype ErrorResponse = ErrorResponse(error: string, code: nat)

  /** "Docker hatası: ", the Turkish word with a dotless i. */
  const DOCKER_ERROR_PREFIX: string := "Docker hata\U{0131}: "

  /** The code `ErrorResponse::new` assigns to each error number. */
  function Code(e: ErrorNumber): (code: nat) {
    match e
    case ContainerNotFound => 404
    case OperationFailed => 400
    case InternalError => 500
    case GpuTransferError => 409
  }

  /** The inverse of `Code`. */
  function ErrorNumberOfCode(code: nat): Option<ErrorNumber> {
    if code == 404 then Some(ContainerNotFound)
    else if code == 400 then Some(OperationFailed)
    else if code == 500 then Some(InternalError)
    else if code == 409 then Some(GpuTransferError)
    else None
  }

  /** `ErrorResponse::new`: the message is stored verbatim beside the number's code. */
  function NewErrorResponse(e: ErrorNumber, message: string): (r: ErrorResponse)
    ensures r.error == message
    ensures ErrorNumberOfCode(r.code) == Some(e)
  {
    ErrorResponse(message, Code(e))
  }

  /**
   * Distinct error numbers get distinct codes, and a code is recovered as its error number;
   * no other code is produced.
   */
  lemma CodeRoundTrip(e: ErrorNumber, code: nat)
    ensures ErrorNumberOfCode(Code(e)) == Some(e)
    ensures ErrorNumberOfCode(code).Some? ==> Code(ErrorNumberOfCode(code).value) == code
  {
  }

  /** The status `into_response` sends: the code if it is a valid status, else 500. */
  function Status(r: ErrorResponse): nat {
    if 100 <= r.code <= 999 then r.code else 500
  }

  /** Every code `ErrorResponse::new` produces is a valid status, so the 500 fallback never fires. */
  lemma StatusIsCode(e: ErrorNumber, message: string)
    ensures Status(NewErrorResponse(e, message)) == Code(e)
  {
  }

  /** `handle_error`: the Docker error's text after the prefix, as an internal error. */
  function HandleError(errorText: string): (r: ErrorResponse)
    ensures r.code == 500 && ErrorNumberOfCode(r.code) == Some(InternalError)
    ensures |r.error| == |DOCKER_ERROR_PREFIX| + |errorText|
    ensures r.error[..|DOCKER_ERROR_PREFIX|] == DOCKER_ERROR_PREFIX
    ensures r.error[|DOCKER_ERROR_PREFIX|..] == errorText
  {
    NewErrorResponse(InternalError, DOCKER_ERROR_PREFIX + errorText)
  }

  /** Different Docker errors give different messages: `handle_error` loses nothing. */
  lemma HandleErrorInjective(a: string, b: string)
    requires HandleError(a) == HandleError(b)
    ensures a == b
  {
    assert a == HandleError(a).error[|DOCKER_ERROR_PREFIX|..];
  }
}
