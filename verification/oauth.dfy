/**
 * The VTN's OAuth token endpoint: the client-credentials grant of section
 * 4.4 of RFC 6749, client authentication by Basic header or form body
 * (sections 2.3 and 2.3.1), and the error responses of section 5.2. The
 * credential lookup and the token signing are parameters.
 */
module OAuth {
  import opened Wrappers
  import Jwt

  /** The error codes the VTN emits. */
  datatype OAuthErrorType = InvalidRequest | InvalidClient | UnsupportedGrantType | ServerError

  /** The `error` member of the JSON body, in snake case. */
  function ErrorCode(t: OAuthErrorType): (code: string)
    ensures |code| > 0
  {
    match t
    case InvalidRequest => "invalid_request"
    case InvalidClient => "invalid_client"
    case UnsupportedGrantType => "unsupported_grant_type"
    case ServerError => "server_error"
  }

  /** Distinct error types serialise to distinct codes. */
  lemma ErrorCodeInjective(a: OAuthErrorType, b: OAuthErrorType)
    ensures ErrorCode(a) == ErrorCode(b) <==> a == b
  {
    if a != b {
      assert ErrorCode(a)[|ErrorCode(a)| - 1] != ErrorCode(b)[|ErrorCode(b)| - 1] || |ErrorCode(a)| != |ErrorCode(b)|;
    }
  }

  datatype OAuthError = OAuthError(error: OAuthErrorType, errorDescription: Option<string>, errorUri: Option<string>)

  /** `OAuthError::new`: the bare error type. */
  function NewError(t: OAuthErrorType): (e: OAuthError)
    ensures e.error == t && e.errorDescription.None? && e.errorUri.None?
  {
    OAuthError(t, None, None)
  }

  /** `with_description`: sets the description and keeps everything else. */
  function WithDescription(e: OAuthError, d: string): (r: OAuthError)
    ensures r.errorDescription == Some(d) && r.error == e.error && r.errorUri == e.errorUri
  {
    e.(errorDescription := Some(d))
  }

  /** `with_uri`: sets the URI and keeps everything else. */
  function WithUri(e: OAuthError, u: string): (r: OAuthError)
    ensures r.errorUri == Some(u) && r.error == e.error && r.errorDescription == e.errorDescription
  {
    e.(errorUri := Some(u))
  }

  function Described(t: OAuthErrorType, d: string): OAuthError
  {
    WithDescription(NewError(t), d)
  }

  const BasicChallenge: string := "Basic realm=\"VTN\""

  /** An error response: status, optional `WWW-Authenticate` header and the JSON body. */
  datatype OAuthResponse = OAuthResponse(status: int, wwwAuthenticate: Option<string>, body: OAuthError)

  /**
   * `ResponseOAuthError::into_response`: an unauthenticated client gets 401
   * with a Basic challenge, a server failure 500, every other error 400.
   */
  function IntoResponse(e: OAuthError): (r: OAuthResponse)
    ensures r.body == e
    ensures r.status == 401 <==> e.error == InvalidClient
    ensures r.status == 500 <==> e.error == ServerError
    ensures r.status == 400 <==> e.error in {InvalidRequest, UnsupportedGrantType}
    ensures r.wwwAuthenticate.Some? <==> r.status == 401
    ensures r.wwwAuthenticate.Some? ==> r.wwwAuthenticate.value == BasicChallenge
  {
    match e.error
    case InvalidClient => OAuthResponse(401, Some(BasicChallenge), e)
    case ServerError => OAuthResponse(500, None, e)
    case _ => OAuthResponse(400, None, e)
  }

  const TokenIssueFailedMessage: string := "Could not issue a new token"

  /** `From<jsonwebtoken::errors::Error>`: a signing failure is a server error. */
  function FromJwtError(): (e: OAuthError)
    ensures e.error == ServerError && e.errorDescription == Some(TokenIssueFailedMessage) && e.errorUri.None?
    ensures IntoResponse(e).status == 500
  {
    Described(ServerError, TokenIssueFailedMessage)
  }

  /** The form body of a token request. */
  datatype AccessTokenRequest = AccessTokenRequest(grantType: string, clientId: Option<string>, clientSecret: Option<string>)

  /** A decoded `Authorization: Basic` header. */
  datatype BasicCredentials = BasicCredentials(username: string, password: string)

  /** A client id with a secret. */
  datatype ClientCredentials = ClientCredentials(clientId: string, clientSecret: string)

  /**
   * The credentials the form body carries: present when either field is,
   * with a missing field read as the empty string.
   */
  function BodyCredentials(req: AccessTokenRequest): (r: Option<ClientCredentials>)
    ensures r.Some? <==> req.clientId.Some? || req.clientSecret.Some?
    ensures r.Some? ==> r.value.clientId == (if req.clientId.Some? then req.clientId.value else "")
    ensures r.Some? ==> r.value.clientSecret == (if req.clientSecret.Some? then req.clientSecret.value else "")
  {
    match req.clientId
    case Some(id) => Some(ClientCredentials(id, if req.clientSecret.Some? then req.clientSecret.value else ""))
    case None =>
      match req.clientSecret
      case Some(secret) => Some(ClientCredentials("", secret))
      case None => None
  }

  function HeaderCredentials(header: Option<BasicCredentials>): (r: Option<ClientCredentials>)
    ensures r.Some? <==> header.Some?
    ensures r.Some? ==> r.value == ClientCredentials(header.value.username, header.value.password)
  {
    match header
    case Some(b) => Some(ClientCredentials(b.username, b.password))
    case None => None
  }

  /** A user the credential store knows. */
  datatype AuthInfo = AuthInfo(clientId: string, roles: seq<Jwt.AuthRole>)

  /** Thirty days, in seconds. */
  const TokenLifetime: nat := 3600 * 24 * 30

  datatype AccessTokenResponse = AccessTokenResponse(accessToken: string, tokenType: string, expiresIn: nat, scope: Option<string>)

  const ClientCredentialsGrant: string := "client_credentials"
  const UnsupportedGrantMessage: string := "Only client_credentials grant type is supported"
  const BothCredentialsMessage: string := "Both header and body authentication provided"
  const NoCredentialsMessage: string := "No valid authentication data provided, client_id and client_secret required"
  const BadCredentialsMessage: string := "Invalid client_id or client_secret"

  /** `auth_body.or(auth_header)`: the credentials from the body if it has any, else from the header. */
  function Presented(req: AccessTokenRequest, header: Option<BasicCredentials>): (r: Option<ClientCredentials>)
    ensures r.None? <==> header.None? && BodyCredentials(req).None?
    ensures BodyCredentials(req).Some? ==> r == BodyCredentials(req)
    ensures BodyCredentials(req).None? ==> r == HeaderCredentials(header)
  {
    if BodyCredentials(req).Some? then BodyCredentials(req) else HeaderCredentials(header)
  }

  /**
   * `token`. `check` is the credential store's lookup and `issue` signs a
   * token for a lifetime, a subject and roles, failing with `None`. The
   * grant type is checked before any credential; credentials may come from
   * the header or the body but not both.
   */
  function Token(
    req: AccessTokenRequest,
    header: Option<BasicCredentials>,
    check: ClientCredentials -> Option<AuthInfo>,
    issue: (nat, string, seq<Jwt.AuthRole>) -> Option<string>): (r: Result<AccessTokenResponse, OAuthError>)
    ensures req.grantType != ClientCredentialsGrant ==> r == Err(Described(UnsupportedGrantType, UnsupportedGrantMessage))
    ensures req.grantType == ClientCredentialsGrant && header.Some? && BodyCredentials(req).Some? ==>
      r == Err(Described(InvalidRequest, BothCredentialsMessage))
    ensures req.grantType == ClientCredentialsGrant && header.None? && BodyCredentials(req).None? ==>
      r == Err(Described(InvalidClient, NoCredentialsMessage))
    ensures r.Err? && r.error.error == UnsupportedGrantType <==> req.grantType != ClientCredentialsGrant
    ensures r.Err? && r.error.error == InvalidRequest <==>
      req.grantType == ClientCredentialsGrant && header.Some? && BodyCredentials(req).Some?
    ensures r.Ok? ==>
      && req.grantType == ClientCredentialsGrant
      && (header.None? || BodyCredentials(req).None?)
      && var creds := if header.Some? then HeaderCredentials(header).value else BodyCredentials(req).value;
      && check(creds).Some?
      && issue(TokenLifetime, check(creds).value.clientId, check(creds).value.roles) == Some(r.value.accessToken)
    ensures
      (&& req.grantType == ClientCredentialsGrant
       && (header.None? || BodyCredentials(req).None?)
       && (header.Some? || BodyCredentials(req).Some?)
       && check(if header.Some? then HeaderCredentials(header).value else BodyCredentials(req).value).None?)
      ==> r == Err(Described(InvalidClient, BadCredentialsMessage))
    ensures r.Ok? ==> r.value.tokenType == "bearer" && r.value.expiresIn == 2592000 && r.value.scope.None?
    ensures r.Err? && r.error.error == ServerError ==> r.error == FromJwtError()
    ensures req.grantType == ClientCredentialsGrant && !(header.Some? && BodyCredentials(req).Some?) ==>
      var c := Presented(req, header);
      c.Some? && check(c.value).Some? ==>
        var u := check(c.value).value;
        && (issue(TokenLifetime, u.clientId, u.roles).Some? ==>
              r == Ok(AccessTokenResponse(issue(TokenLifetime, u.clientId, u.roles).value, "bearer", TokenLifetime, None)))
        && (issue(TokenLifetime, u.clientId, u.roles).None? ==> r == Err(FromJwtError()))
  {
    if req.grantType != ClientCredentialsGrant then Err(Described(UnsupportedGrantType, UnsupportedGrantMessage))
    else if header.Some? && BodyCredentials(req).Some? then Err(Described(InvalidRequest, BothCredentialsMessage))
    else
      match Presented(req, header)
      case None => Err(Described(InvalidClient, NoCredentialsMessage))
      case Some(creds) =>
        match check(creds)
        case None => Err(Described(InvalidClient, BadCredentialsMessage))
        case Some(user) =>
          match issue(TokenLifetime, user.clientId, user.roles)
          case None => Err(FromJwtError())
          case Some(token) => Ok(AccessTokenResponse(token, "bearer", TokenLifetime, None))
  }

  /** The grant type is judged before the credentials: a wrong grant ignores header, store and signer. */
  lemma GrantCheckedFirst(
    req: AccessTokenRequest,
    h1: Option<BasicCredentials>, c1: ClientCredentials -> Option<AuthInfo>, i1: (nat, string, seq<Jwt.AuthRole>) -> Option<string>,
    h2: Option<BasicCredentials>, c2: ClientCredentials -> Option<AuthInfo>, i2: (nat, string, seq<Jwt.AuthRole>) -> Option<string>)
    requires req.grantType != ClientCredentialsGrant
    ensures Token(req, h1, c1, i1) == Token(req, h2, c2, i2)
  {
  }

  /**
   * A body with only a client id authenticates with the empty secret, and
   * one with only a secret authenticates as the empty client id.
   */
  lemma PartialBodyCredentials(id: string, secret: string, check: ClientCredentials -> Option<AuthInfo>, issue: (nat, string, seq<Jwt.AuthRole>) -> Option<string>)
    ensures Token(AccessTokenRequest(ClientCredentialsGrant, Some(id), None), None, check, issue).Err? <==>
      check(ClientCredentials(id, "")).None? || issue(TokenLifetime, check(ClientCredentials(id, "")).value.clientId, check(ClientCredentials(id, "")).value.roles).None?
    ensures Token(AccessTokenRequest(ClientCredentialsGrant, None, Some(secret)), None, check, issue).Err? <==>
      check(ClientCredentials("", secret)).None? || issue(TokenLifetime, check(ClientCredentials("", secret)).value.clientId, check(ClientCredentials("", secret)).value.roles).None?
  {
  }

  /**
   * How each failure of the endpoint reaches the client: unknown or missing
   * credentials are 401 with a Basic challenge, a malformed request 400, a
   * signing failure 500.
   */
  lemma TokenErrorStatuses(req: AccessTokenRequest, header: Option<BasicCredentials>, check: ClientCredentials -> Option<AuthInfo>, issue: (nat, string, seq<Jwt.AuthRole>) -> Option<string>)
    requires Token(req, header, check, issue).Err?
    ensures var resp := IntoResponse(Token(req, header, check, issue).error);
      && (req.grantType != ClientCredentialsGrant ==> resp.status == 400 && resp.wwwAuthenticate.None?)
      && (req.grantType == ClientCredentialsGrant && header.Some? && BodyCredentials(req).Some? ==> resp.status == 400)
      && (req.grantType == ClientCredentialsGrant && header.None? && BodyCredentials(req).None? ==>
            resp.status == 401 && resp.wwwAuthenticate == Some(BasicChallenge))
      && (resp.status == 500 ==> resp.body.errorDescription == Some(TokenIssueFailedMessage))
      && (resp.status == 500 <==>
            && req.grantType == ClientCredentialsGrant
            && !(header.Some? && BodyCredentials(req).Some?)
            && Presented(req, header).Some?
            && check(Presented(req, header).value).Some?
            && issue(TokenLifetime, check(Presented(req, header).value).value.clientId,
                     check(Presented(req, header).value).value.roles).None?)
  {
  }

  /**
   * A token is issued exactly when the grant is right, one source presents
   * credentials, the store knows them and the signer succeeds.
   */
  lemma TokenSucceedsIff(req: AccessTokenRequest, header: Option<BasicCredentials>, check: ClientCredentials -> Option<AuthInfo>, issue: (nat, string, seq<Jwt.AuthRole>) -> Option<string>)
    ensures Token(req, header, check, issue).Ok? <==>
      && req.grantType == ClientCredentialsGrant
      && !(header.Some? && BodyCredentials(req).Some?)
      && Presented(req, header).Some?
      && check(Presented(req, header).value).Some?
      && issue(TokenLifetime, check(Presented(req, header).value).value.clientId,
               check(Presented(req, header).value).value.roles).Some?
  {
  }
}
