/**
 * The login half of the user client (`app/services/UserService.ts`). The HTTP
 * round trip is abstracted into the response it yields; what remains is the
 * effect of that response on the two public fields `user` and `error` and on
 * the returned flag.
 */
module Users {
  import opened Wrappers
  import Numerals
  import Auth

  /** Gateway URL used when none is configured. */
  const DEFAULT_GATEWAY_URL := "http://recipy-ag:3030"
  /** Message recorded when the thrown value is not an `Error`. */
  const UNKNOWN_ERROR := "Error desconocido"
  const STATUS_ERROR_PREFIX := "Error "

  /**
   * What the login request yields: a response whose status is not 2xx; a
   * parsed JSON body with its optional `error` and `token` fields; or a thrown
   * value (a network failure, an unreadable body), with its message when it is
   * an `Error`. `NotOk` stands for a status outside 200-299, the only ones
   * for which the response is not ok.
   */
  datatype LoginResponse =
    | NotOk(status: nat)
    | Body(error: Option<string>, token: Option<string>)
    | Thrown(isError: bool, message: string)

  /** The configured gateway URL when it is a non-empty string, the default otherwise. */
  function GatewayUrl(config: Option<string>): (url: string)
    ensures url != ""
    ensures Truthy(config) ==> url == config.value
    ensures !Truthy(config) ==> url == DEFAULT_GATEWAY_URL
  {
    if Truthy(config) then config.value else DEFAULT_GATEWAY_URL
  }

  /** The message of the `Error` thrown for a non-ok status. */
  function StatusError(status: nat): string {
    STATUS_ERROR_PREFIX + Numerals.FormatInt(status)
  }

  /** The status can be read back from its message, so callers can tell status codes apart. */
  lemma StatusErrorCarriesStatus(status: nat)
    ensures STATUS_ERROR_PREFIX <= StatusError(status)
    ensures Numerals.ParseInt(StatusError(status)[|STATUS_ERROR_PREFIX|..]) == Some(status as int)
  {
    assert StatusError(status)[|STATUS_ERROR_PREFIX|..] == Numerals.FormatInt(status);
    Numerals.ParseFormatInt(status);
  }

  /** Different statuses give different messages. */
  lemma StatusErrorInjective(a: nat, b: nat)
    requires StatusError(a) == StatusError(b)
    ensures a == b
  {
    StatusErrorCarriesStatus(a);
    StatusErrorCarriesStatus(b);
  }

  class UserService {
    const apiUrl: string
    var user: Option<string>
    var error: Option<string>

    constructor(config: Option<string>)
      ensures apiUrl == GatewayUrl(config)
      ensures user == None && error == None
    {
      apiUrl := GatewayUrl(config);
      user := None;
      error := None;
    }

    /**
     * `loginUser`. Precedence: a non-ok status, then a truthy `error`, then a
     * truthy `token`. Success sets `user` and leaves a stale `error` in place;
     * every failure leaves `user` as it was.
     */
    method LoginUser(response: LoginResponse) returns (ok: bool)
      modifies this
      ensures ok <==> response.Body? && !Truthy(response.error) && Truthy(response.token)
      ensures user == if ok then response.token else old(user)
      ensures error == match response
        case NotOk(status) => Some(StatusError(status))
        case Body(e, _) => if Truthy(e) then e else old(error)
        case Thrown(isError, message) => Some(if isError then message else UNKNOWN_ERROR)
    {
      match response
      case NotOk(status) =>
        // the `Error` thrown for the status is caught below the request
        error := Some(StatusError(status));
        ok := false;
      case Body(e, token) =>
        if Truthy(e) {
          error := e;
          return false;
        }
        if Truthy(token) {
          user := token;
          return true;
        }
        ok := false;
      case Thrown(isError, message) =>
        error := Some(if isError then message else UNKNOWN_ERROR);
        ok := false;
    }
  }

  /**
   * Logging in persists nothing: whatever the response, a later
   * `isAuthenticated` observes the session store exactly as it was before.
   */
  method LoginLeavesSessionAlone(users: UserService, auth: Auth.AuthService, response: LoginResponse,
                                 now: int, fault: Auth.Fault)
    returns (ok: bool, authenticated: bool)
    modifies users, auth
    ensures ok <==> response.Body? && !Truthy(response.error) && Truthy(response.token)
    ensures authenticated == Auth.GetTokenOutcome(old(auth.storage), now, fault).token.Some?
  {
    ok := users.LoginUser(response);
    authenticated := auth.IsAuthenticated(now, fault);
  }
}
