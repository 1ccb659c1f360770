/**
 * The gRPC handler of the auth service: how service results become protobuf
 * responses, and the closed classification of service errors into codes.
 *
 * uuid.Parse is a parameter (`parse`). A handler that may or may not reach the
 * service receives the service as a function and reports, in `calledWith`,
 * the argument it invoked it with, if any.
 */
module AuthHandler {
  import opened Common
  import opened AuthErrors
  import GoErrors
  import JwtManager
  import AuthService

  datatype ErrorCode = InvalidArgument | InternalError | TokenExpiredCode | TokenInvalidCode | RefreshTokenRevokedCode

  /** pb.Error */
  datatype ProtoError = ProtoError(code: ErrorCode, message: string)

  /** The code each sentinel is reported with, and INTERNAL_ERROR for anything else. */
  function CodeOfRoot(root: Option<Kind>): ErrorCode
  {
    match root
    case Some(TokenExpired) => TokenExpiredCode
    case Some(TokenInvalid) => TokenInvalidCode
    case Some(RefreshTokenRevoked) => RefreshTokenRevokedCode
    case _ => InternalError
  }

  /** mapErrorToProto: errors.Is tests in the order expired, invalid, revoked. */
  function MapErrorToProto(e: Error): (p: ProtoError)
    ensures p.code == TokenExpiredCode <==> GoErrors.Is(e, TokenExpired)
    ensures p.code == TokenInvalidCode <==> GoErrors.Is(e, TokenInvalid)
    ensures p.code == RefreshTokenRevokedCode <==> GoErrors.Is(e, RefreshTokenRevoked)
    ensures p.code == InternalError <==>
      !GoErrors.Is(e, TokenExpired) && !GoErrors.Is(e, TokenInvalid) && !GoErrors.Is(e, RefreshTokenRevoked)
    ensures p.code != InvalidArgument
  {
    if GoErrors.Is(e, TokenExpired) then
      GoErrors.IsIffRoot(e, TokenInvalid);
      GoErrors.IsIffRoot(e, RefreshTokenRevoked);
      GoErrors.IsIffRoot(e, TokenExpired);
      ProtoError(TokenExpiredCode, "The token has expired")
    else if GoErrors.Is(e, TokenInvalid) then
      GoErrors.IsIffRoot(e, RefreshTokenRevoked);
      GoErrors.IsIffRoot(e, TokenInvalid);
      ProtoError(TokenInvalidCode, "Invalid token")
    else if GoErrors.Is(e, RefreshTokenRevoked) then
      ProtoError(RefreshTokenRevokedCode, "Refresh token has been revoked")
    else
      ProtoError(InternalError, "Internal server error")
  }

  /** The classification is the code of the sentinel at the root of the %w chain. */
  lemma {:induction false} MapErrorFollowsRoot(e: Error)
    ensures MapErrorToProto(e).code == CodeOfRoot(GoErrors.Root(e))
  {
    GoErrors.IsIffRoot(e, TokenExpired);
    GoErrors.IsIffRoot(e, TokenInvalid);
    GoErrors.IsIffRoot(e, RefreshTokenRevoked);
  }

  /** The store's not-found error is not one of the three: it is reported as INTERNAL_ERROR. */
  lemma NotFoundIsInternal(context: string)
    ensures MapErrorToProto(GoErrors.Sentinel(TokenNotFound)).code == InternalError
    ensures MapErrorToProto(GoErrors.Wrap(context, GoErrors.Sentinel(TokenExpired))).code == TokenExpiredCode
    ensures MapErrorToProto(GoErrors.Flatten(context, GoErrors.Sentinel(TokenExpired))).code == InternalError
  {
    GoErrors.WrapKeepsIs(GoErrors.Sentinel(TokenExpired), context, TokenExpired);
  }

  /** What a handler hands back to gRPC besides the response: nil, or an error. */
  datatype TransportError = UuidParseError | ServiceError(err: Error)

  /** pb.AuthenticateResponse / pb.RefreshTokenResponse (same shape). */
  datatype TokenResponse = TokenResponse(
    accessToken: string, refreshToken: string, expiresIn: int,
    expiresAt: Option<Instant>, error: Option<ProtoError>)

  const EmptyTokenResponse := TokenResponse("", "", 0, None, None)

  datatype Handled<R> = Handled(response: R, transportErr: Option<TransportError>, calledWith: Option<Uuid>)

  /** Handler.Authenticate. */
  function Authenticate(userIdText: string, parse: string -> Option<Uuid>, call: Uuid -> AuthService.Reply): (h: Handled<TokenResponse>)
    // an unparsable id is refused before the service is reached
    ensures parse(userIdText).None? ==>
      h == Handled(EmptyTokenResponse.(error := Some(ProtoError(InvalidArgument, "Invalid User ID"))), Some(UuidParseError), None)
    ensures parse(userIdText).Some? ==> h.calledWith == parse(userIdText)
    // any service failure is INTERNAL_ERROR carrying the error text
    ensures parse(userIdText).Some? && call(parse(userIdText).value).err.Some? ==>
      var e := call(parse(userIdText).value).err.value;
      h == Handled(EmptyTokenResponse.(error := Some(ProtoError(InternalError, Text(e)))), Some(ServiceError(e)), parse(userIdText))
    // success passes the service's values through unchanged
    ensures parse(userIdText).Some? && call(parse(userIdText).value).err.None? ==>
      var t := call(parse(userIdText).value).tokens;
      h.transportErr.None? && h.response == TokenResponse(t.accessToken, t.refreshToken, t.expiresIn, Some(t.expiresAt), None)
  {
    match parse(userIdText)
    case None =>
      Handled(EmptyTokenResponse.(error := Some(ProtoError(InvalidArgument, "Invalid User ID"))), Some(UuidParseError), None)
    case Some(userId) =>
      var reply := call(userId);
      if reply.err.Some? then
        Handled(EmptyTokenResponse.(error := Some(ProtoError(InternalError, Text(reply.err.value)))),
                Some(ServiceError(reply.err.value)), Some(userId))
      else
        Handled(TokenResponse(reply.tokens.accessToken, reply.tokens.refreshToken, reply.tokens.expiresIn,
                              Some(reply.tokens.expiresAt), None), None, Some(userId))
  }

  /** pb.ValidateTokenResponse; userId is the formatted user id, absent meaning "". */
  datatype ValidateTokenResponse = ValidateTokenResponse(valid: bool, userId: Option<Uuid>, error: Option<ProtoError>)

  /** Handler.ValidateToken: a failure is a response, never a transport error. */
  function ValidateToken(result: Result<Uuid, Error>): (h: (ValidateTokenResponse, Option<TransportError>))
    ensures h.1.None?
    ensures h.0.valid <==> result.Success?
    ensures result.Success? ==> h.0 == ValidateTokenResponse(true, Some(result.value), None)
    ensures result.Failure? ==> h.0 == ValidateTokenResponse(false, None, Some(MapErrorToProto(result.error)))
  {
    if result.Failure? then (ValidateTokenResponse(false, None, Some(MapErrorToProto(result.error))), None)
    else (ValidateTokenResponse(true, Some(result.value), None), None)
  }

  /** Handler.RefreshToken: the classified error in the response and the raw one to gRPC. */
  function RefreshToken(reply: AuthService.Reply): (h: (TokenResponse, Option<TransportError>))
    ensures reply.err.Some? ==>
      h == (EmptyTokenResponse.(error := Some(MapErrorToProto(reply.err.value))), Some(ServiceError(reply.err.value)))
    ensures reply.err.None? ==>
      h == (TokenResponse(reply.tokens.accessToken, reply.tokens.refreshToken, reply.tokens.expiresIn,
                          Some(reply.tokens.expiresAt), None), None)
  {
    if reply.err.Some? then
      (EmptyTokenResponse.(error := Some(MapErrorToProto(reply.err.value))), Some(ServiceError(reply.err.value)))
    else
      (TokenResponse(reply.tokens.accessToken, reply.tokens.refreshToken, reply.tokens.expiresIn,
                     Some(reply.tokens.expiresAt), None), None)
  }

  /** pb.LogoutResponse */
  datatype LogoutResponse = LogoutResponse(success: bool, error: Option<ProtoError>)

  /** Handler.Logout: every failure, not-found included, is INTERNAL_ERROR. */
  function Logout(err: Option<Error>): (h: (LogoutResponse, Option<TransportError>))
    ensures h.0.success <==> err.None?
    ensures err.Some? ==> h.0.error == Some(ProtoError(InternalError, Text(err.value))) && h.1 == Some(ServiceError(err.value))
    ensures err.None? ==> h == (LogoutResponse(true, None), None)
  {
    if err.Some? then (LogoutResponse(false, Some(ProtoError(InternalError, Text(err.value)))), Some(ServiceError(err.value)))
    else (LogoutResponse(true, None), None)
  }

  /** An expired access token reaches a client as TOKEN_INVALID, never TOKEN_EXPIRED. */
  lemma ExpiredAccessTokenReportsInvalid(cfg: JwtManager.Config, codec: JwtManager.Codec, token: string, now: Instant)
    requires AuthService.ValidateToken(cfg, codec, token, now).Failure?
    ensures ValidateToken(AuthService.ValidateToken(cfg, codec, token, now)).0.error == Some(ProtoError(TokenInvalidCode, "Invalid token"))
  {
  }
}
