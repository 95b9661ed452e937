/** The SDK's exceptions. `ApiException` and its four subclasses form a closed
  * hierarchy whose instances are never changed after construction, so each
  * subclass is one variant of a datatype carrying the attributes its
  * constructor stores; `Failure` adds the built-in Python exceptions the SDK
  * lets escape (a `ValueError`, `binascii.Error` included, a `KeyError` for a
  * missing field, a `TypeError`, an `AttributeError`). */
module Exceptions {

  datatype ApiException =
    | UnexpectedResponseException(message: string, httpBody: string)
    | ErrorResponseException(message: string, errorCode: string)
    | NotFoundException(message: string, url: string)
    | UnauthorizedException(message: string, servicePlanId: string, token: string)

  datatype Failure =
    | Api(exception: ApiException)
    | ValueError(message: string)
    | KeyError(key: string)
    | TypeError(message: string)
    | AttributeError(message: string)

  const NOT_FOUND_PREFIX := "No resource found at \""
  const UNAUTHORIZED_PREFIX := "Authentication failed with service plan \""

  /** The server answered something the SDK cannot interpret; the body is kept. */
  function UnexpectedResponse(message: string, httpBody: string): (e: ApiException)
    ensures e.UnexpectedResponseException?
    ensures e.message == message && e.httpBody == httpBody
  {
    UnexpectedResponseException(message, httpBody)
  }

  /** The server answered with an error document: its text is the message. */
  function ErrorResponse(message: string, code: string): (e: ApiException)
    ensures e.ErrorResponseException?
    ensures e.message == message && e.errorCode == code
  {
    ErrorResponseException(message, code)
  }

  /** No resource at `url`; the message quotes the URL. */
  function NotFound(url: string): (e: ApiException)
    ensures e.NotFoundException? && e.url == url
    ensures e.message == NOT_FOUND_PREFIX + url + "\""
  {
    NotFoundException(NOT_FOUND_PREFIX + url + "\"", url)
  }

  /** The service plan and token were refused; the message names the plan
    * only, while the token is kept as an attribute. */
  function Unauthorized(servicePlanId: string, token: string): (e: ApiException)
    ensures e.UnauthorizedException?
    ensures e.servicePlanId == servicePlanId && e.token == token
    ensures e.message == UNAUTHORIZED_PREFIX + servicePlanId + "\""
  {
    UnauthorizedException(UNAUTHORIZED_PREFIX + servicePlanId + "\"", servicePlanId, token)
  }

  /** The text between a fixed prefix and the closing quote of a message. */
  function Quoted(message: string, prefix: string): string
  {
    if |prefix| + 1 <= |message| then message[|prefix|..|message| - 1] else ""
  }

  /** The URL of a not-found exception can be read back off its message, so
    * two missing resources never share a message. */
  lemma NotFoundMessageNamesUrl(url: string, other: string)
    ensures Quoted(NotFound(url).message, NOT_FOUND_PREFIX) == url
    ensures NotFound(url).message == NotFound(other).message ==> url == other
  {
    var m := NotFound(url).message;
    assert m[|NOT_FOUND_PREFIX|..|m| - 1] == url;
    var m' := NotFound(other).message;
    assert m'[|NOT_FOUND_PREFIX|..|m'| - 1] == other;
  }

  /** Likewise the service plan of an authentication failure. */
  lemma UnauthorizedMessageNamesPlan(plan: string, token: string, otherPlan: string, otherToken: string)
    ensures Quoted(Unauthorized(plan, token).message, UNAUTHORIZED_PREFIX) == plan
    ensures Unauthorized(plan, token).message == Unauthorized(otherPlan, otherToken).message <==> plan == otherPlan
  {
    var m := Unauthorized(plan, token).message;
    assert m[|UNAUTHORIZED_PREFIX|..|m| - 1] == plan;
    var m' := Unauthorized(otherPlan, otherToken).message;
    assert m'[|UNAUTHORIZED_PREFIX|..|m'| - 1] == otherPlan;
  }
}
