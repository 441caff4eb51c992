/**
 * API-key authentication: the `x-api-key` header is compared with the one
 * configured key; on a match the request's user becomes an "admin", otherwise
 * the answer is 401 unauthorized.
 */
module Auth {
  import opened Wrappers

  /** `process.env.APP_API_KEY || "dev-key"`. */
  function ConfiguredApiKey(env: Option<string>): (key: string)
    ensures key != ""
    ensures env.Some? && env.value != "" ==> key == env.value
    ensures env.None? || env.value == "" ==> key == "dev-key"
  {
    OrDefault(env, "dev-key")
  }

  datatype AuthResult = Unauthorized(message: string) | Authenticated(role: string)

  /** The decision of `authMiddleware` for a request carrying `header` as its `x-api-key`. */
  function Authenticate(header: Option<string>, configuredKey: string): (r: AuthResult)
    ensures header.None? || header.value == "" ==> r == Unauthorized("API key is required")
    ensures header.Some? && header.value != "" && header.value != configuredKey ==> r == Unauthorized("Invalid API key")
    ensures r.Authenticated? <==> header.Some? && header.value != "" && header.value == configuredKey
    ensures r.Authenticated? ==> r.role == "admin"
  {
    if header.None? || header.value == "" then Unauthorized("API key is required")
    else if header.value != configuredKey then Unauthorized("Invalid API key")
    else Authenticated("admin")
  }

  /**
   * With the configured key taken from the environment, the configured key is
   * the one and only credential: the outcome is decided by comparing the header with it.
   */
  lemma OnlyTheConfiguredKeyPasses(header: Option<string>, env: Option<string>)
    ensures Authenticate(header, ConfiguredApiKey(env)).Authenticated? <==> header == Some(ConfiguredApiKey(env))
  {
  }

  /** The 401 answer's body. */
  datatype ErrorBody = ErrorBody(status: int, error: string, message: string)

  /** The part of an Express request that the middleware reads and writes. */
  class Request {
    const apiKeyHeader: Option<string>
    var userRole: Option<string>

    constructor (apiKeyHeader: Option<string>)
      ensures this.apiKeyHeader == apiKeyHeader && userRole.None?
    {
      this.apiKeyHeader := apiKeyHeader;
      userRole := None;
    }

    /**
     * `authMiddleware(req, res, next)`: answers 401 and leaves the request as it
     * was, or sets `req.user = {role: "admin"}` and passes the request on.
     */
    method AuthMiddleware(configuredKey: string) returns (rejection: Option<ErrorBody>)
      modifies this
      ensures rejection.None? <==> Authenticate(apiKeyHeader, configuredKey).Authenticated?
      ensures rejection.Some? ==>
        && rejection.value == ErrorBody(401, "unauthorized", Authenticate(apiKeyHeader, configuredKey).message)
        && userRole == old(userRole)
      ensures rejection.None? ==> userRole == Some("admin")
    {
      match Authenticate(apiKeyHeader, configuredKey)
      case Unauthorized(message) =>
        rejection := Some(ErrorBody(401, "unauthorized", message));
      case Authenticated(role) =>
        userRole := Some(role);
        rejection := None;
    }
  }
}
