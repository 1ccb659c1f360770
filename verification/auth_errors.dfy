/**
 * The sentinel errors of the auth service: the three declared next to
 * AuthService and the repository's ErrTokenNotFound.
 */
module AuthErrors {
  import GoErrors

  datatype Kind =
    | TokenExpired        // service.ErrTokenExpired
    | TokenInvalid        // service.ErrTokenInvalid
    | RefreshTokenRevoked // service.ErrRefreshTokenRevoked
    | TokenNotFound       // repository.ErrTokenNotFound

  type Error = GoErrors.Error<Kind>

  function Message(k: Kind): string
  {
    match k
    case TokenExpired => "the token expired"
    case TokenInvalid => "invalid token"
    case RefreshTokenRevoked => "refresh token has been revoked"
    case TokenNotFound => "refresh token not found"
  }

  function Text(e: Error): string
  {
    GoErrors.Text(e, Message)
  }
}
