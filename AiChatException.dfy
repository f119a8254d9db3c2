/**
 * The single exception type of the AI chat client
 * (chatbox/exception/AiChatException.java): its seven constructors, the
 * Vietnamese message shown to the business layer, and the error-kind
 * tests.
 *
 * The exception is a value: its message (possibly null), its cause, its
 * kind and the optional HTTP status, response body and timeout.
 */
module AiChatErrors {
  import opened Common

  datatype ErrorType = CLIENT_ERROR | SERVER_ERROR | TIMEOUT_ERROR

  /**
   * A Spring `HttpStatusCode`: a known status prints as its number and
   * name ("404 NOT_FOUND"), any other code as the number alone.
   */
  datatype HttpStatusCode = HttpStatusCode(code: int, name: Option<string>)

  function StatusText(s: HttpStatusCode): string
  {
    IntToString(s.code) + (if s.name.Some? then " " + s.name.value else "")
  }

  datatype AiChatException = AiChatException(
    message: Option<string>,
    cause: Option<JavaObject>,
    errorType: ErrorType,
    httpStatus: Option<HttpStatusCode>,
    responseBody: Option<string>,
    timeoutSeconds: Option<int>)

  /** The timeout applied when an exception records none, in seconds. */
  const DefaultTimeoutSeconds := 180

  /** Status only: a client error carrying that status. */
  function ForStatus(status: HttpStatusCode): (e: AiChatException)
    ensures e.errorType == CLIENT_ERROR && e.httpStatus == Some(status)
    ensures e.responseBody.None? && e.timeoutSeconds.None? && e.cause.None?
    ensures e.message == Some("Lỗi yêu cầu AI chat không hợp lệ: " + StatusText(status))
  {
    AiChatException(Some("Lỗi yêu cầu AI chat không hợp lệ: " + StatusText(status)), None, CLIENT_ERROR, Some(status), None, None)
  }

  /** Status, body and kind: both shown in the message; no timeout. */
  function ForResponse(status: HttpStatusCode, responseBody: Option<string>, errorType: ErrorType): (e: AiChatException)
    ensures e.errorType == errorType && e.httpStatus == Some(status) && e.responseBody == responseBody
    ensures e.timeoutSeconds.None? && e.cause.None?
    ensures e.message == Some("Lỗi AI chat: " + StatusText(status) + " - " + JavaString(responseBody))
  {
    AiChatException(Some("Lỗi AI chat: " + StatusText(status) + " - " + JavaString(responseBody)), None,
                     errorType, Some(status), responseBody, None)
  }

  /** Timeout only: a timeout error recording the seconds, with no status. */
  function ForTimeout(timeoutSeconds: JavaInt): (e: AiChatException)
    ensures e.errorType == TIMEOUT_ERROR && e.timeoutSeconds == Some(timeoutSeconds as int)
    ensures e.httpStatus.None? && e.responseBody.None? && e.cause.None?
    ensures e.message == Some("AI chat request timeout sau " + IntToString(timeoutSeconds) + " giây")
  {
    AiChatException(Some("AI chat request timeout sau " + IntToString(timeoutSeconds) + " giây"), None,
                     TIMEOUT_ERROR, None, None, Some(timeoutSeconds as int))
  }

  /** A message and a kind, optionally a cause: nothing else recorded. */
  function WithMessage(message: Option<string>, cause: Option<JavaObject>, errorType: ErrorType): (e: AiChatException)
    ensures e.message == message && e.cause == cause && e.errorType == errorType
    ensures e.httpStatus.None? && e.responseBody.None? && e.timeoutSeconds.None?
  {
    AiChatException(message, cause, errorType, None, None, None)
  }

  /** A message and a timeout, optionally a cause: a timeout error recording the seconds. */
  function TimeoutWithMessage(message: Option<string>, cause: Option<JavaObject>, timeoutSeconds: JavaInt): (e: AiChatException)
    ensures e.message == message && e.cause == cause
    ensures e.errorType == TIMEOUT_ERROR && e.timeoutSeconds == Some(timeoutSeconds as int)
    ensures e.httpStatus.None? && e.responseBody.None?
  {
    AiChatException(message, cause, TIMEOUT_ERROR, None, None, Some(timeoutSeconds as int))
  }

  const ClientMessage := "Yêu cầu AI chat không hợp lệ. Vui lòng kiểm tra lại thông tin và thử lại."
  const ServerMessage := "Lỗi hệ thống AI chat. Vui lòng thử lại sau hoặc liên hệ bộ phận hỗ trợ kỹ thuật."
  const TimeoutHead := "Yêu cầu AI chat đã hết thời gian chờ sau "
  const TimeoutTail := " giây. Vui lòng thử lại hoặc liên hệ bộ phận hỗ trợ."

  /** `getVietnameseMessage`: a fixed text per kind; a timeout names its seconds, 180 when none is recorded. */
  function VietnameseMessage(e: AiChatException): (r: string)
    ensures e.errorType == CLIENT_ERROR ==> r == ClientMessage
    ensures e.errorType == SERVER_ERROR ==> r == ServerMessage
    ensures e.errorType == TIMEOUT_ERROR && e.timeoutSeconds.Some? ==> r == TimeoutHead + IntToString(e.timeoutSeconds.value) + TimeoutTail
    ensures e.errorType == TIMEOUT_ERROR && e.timeoutSeconds.None? ==> r == TimeoutHead + "180" + TimeoutTail
  {
    match e.errorType
    case CLIENT_ERROR => ClientMessage
    case SERVER_ERROR => ServerMessage
    case TIMEOUT_ERROR =>
      TimeoutHead + IntToString(if e.timeoutSeconds.Some? then e.timeoutSeconds.value else DefaultTimeoutSeconds) + TimeoutTail
  }

  /** A timeout raised with its seconds tells the user those seconds. */
  lemma TimeoutMessageNamesSeconds(seconds: JavaInt)
    ensures Contains(VietnameseMessage(ForTimeout(seconds)), IntToString(seconds))
  {
    ContainsSuffix(TimeoutHead, IntToString(seconds));
    ContainsExtend(TimeoutHead + IntToString(seconds), IntToString(seconds), TimeoutTail);
  }

  predicate IsClientError(e: AiChatException) { e.errorType == CLIENT_ERROR }
  predicate IsServerError(e: AiChatException) { e.errorType == SERVER_ERROR }
  predicate IsTimeoutError(e: AiChatException) { e.errorType == TIMEOUT_ERROR }

  /** Exactly one of the three kind tests holds. */
  lemma ExactlyOneKind(e: AiChatException)
    ensures IsClientError(e) || IsServerError(e) || IsTimeoutError(e)
    ensures !(IsClientError(e) && IsServerError(e)) && !(IsClientError(e) && IsTimeoutError(e))
    ensures !(IsServerError(e) && IsTimeoutError(e))
  {
  }

  /** Only a timeout records seconds, and a status is recorded only by the status constructors, which never time out. */
  lemma TimeoutAndStatusExclusive(status: HttpStatusCode, body: Option<string>, t: ErrorType, seconds: JavaInt,
                                  message: Option<string>, cause: Option<JavaObject>)
    ensures ForStatus(status).timeoutSeconds.None? && ForResponse(status, body, t).timeoutSeconds.None?
    ensures IsTimeoutError(ForTimeout(seconds)) && ForTimeout(seconds).httpStatus.None?
    ensures IsTimeoutError(TimeoutWithMessage(message, cause, seconds)) && TimeoutWithMessage(message, cause, seconds).httpStatus.None?
    ensures IsClientError(ForStatus(status))
  {
  }
}
