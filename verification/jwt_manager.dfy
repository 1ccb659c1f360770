/**
 * The JWT manager of the auth service: minting an access/refresh pair and
 * validating a token.
 *
 * HS256 signing and parsing belong to a library and are a `Codec`: two
 * function values. The only thing assumed of them is `RoundTrips`: a token
 * signed from some claims parses back, under the same key and before its
 * expiry, to those claims.
 */
module JwtManager {
  import opened Common

  datatype Config = Config(
    secretKey: string,
    accessTokenDuration: Duration,
    refreshTokenDuration: Duration)

  /** UserClaims: the registered `exp` and `jti` claims plus `user_id`. */
  datatype Claims = Claims(userId: Uuid, expiresAt: Instant, id: nat)

  /**
   * What jwt.ParseWithClaims hands back: an error (malformed, bad signature,
   * expired, ...), or a token with its Valid flag and its claims if they have
   * the expected shape.
   */
  datatype Parsed = ParseFailed(reason: string) | Decoded(valid: bool, claims: Option<Claims>)

  datatype Codec = Codec(
    sign: (Claims, string) -> Result<string, string>,
    parse: (string, string, Instant) -> Parsed)

  /** A signed token parses back to its claims, under the same key, strictly before its exp. */
  ghost predicate RoundTrips(codec: Codec)
  {
    forall c: Claims, key: string :: codec.sign(c, key).Success? ==>
      forall now: Instant :: now < c.expiresAt ==>
        codec.parse(codec.sign(c, key).value, key, now) == Decoded(true, Some(c))
  }

  /** The four non-error results of GenerateTokens. */
  datatype Tokens = Tokens(accessToken: string, refreshToken: string, expiresIn: int, expiresAt: Instant)

  /** The zero values Go returns beside an error. */
  const NoTokens := Tokens("", "", 0, ZeroTime)

  /** jwt.NewNumericDate: the instant truncated to whole seconds. */
  function NumericDate(t: Instant): (d: Instant)
    ensures d <= t < d + Second
    ensures d % Second == 0
  {
    (t / Second) * Second
  }

  /** int64(d.Seconds()): whole seconds of d, truncated toward zero. */
  function TruncSeconds(d: Duration): (s: int)
    ensures d >= 0 ==> 0 <= s * Second <= d < (s + 1) * Second
    ensures d < 0 ==> (s - 1) * Second < d <= s * Second <= 0
  {
    if d >= 0 then d / Second else -((-d) / Second)
  }

  /** The claims of the access token minted at now with token id jti. */
  function AccessClaims(cfg: Config, userId: Uuid, now: Instant, jti: nat): (c: Claims)
    ensures c.userId == userId && c.id == jti
    ensures c.expiresAt <= now + cfg.accessTokenDuration < c.expiresAt + Second
  {
    Claims(userId, NumericDate(now + cfg.accessTokenDuration), jti)
  }

  /** The claims of the refresh token minted beside it, with the next token id. */
  function RefreshClaims(cfg: Config, userId: Uuid, now: Instant, jti: nat): (c: Claims)
    ensures c.userId == userId && c.id == jti + 1
    ensures c.expiresAt <= now + cfg.refreshTokenDuration < c.expiresAt + Second
  {
    Claims(userId, NumericDate(now + cfg.refreshTokenDuration), jti + 1)
  }

  datatype Generated = Generated(tokens: Tokens, err: Option<string>)

  /**
   * JWTManager.GenerateTokens at instant now. The two uuid.New() draws are
   * jti and jti + 1 (fresh ids from a counter).
   */
  function GenerateTokens(cfg: Config, codec: Codec, userId: Uuid, now: Instant, jti: nat): (r: Generated)
    // an error leaves every other output at its zero value
    ensures r.err.Some? ==> r.tokens == NoTokens
    // a failing access signature stops before the refresh token is signed
    ensures codec.sign(AccessClaims(cfg, userId, now, jti), cfg.secretKey).Failure? ==>
      r.err == Some(codec.sign(AccessClaims(cfg, userId, now, jti), cfg.secretKey).error)
    ensures r.err.None? <==>
      codec.sign(AccessClaims(cfg, userId, now, jti), cfg.secretKey).Success? &&
      codec.sign(RefreshClaims(cfg, userId, now, jti), cfg.secretKey).Success?
    // on success: the access token's expiry (not the refresh one) and whole seconds of its lifetime
    ensures r.err.None? ==>
      && r.tokens.expiresAt == now + cfg.accessTokenDuration
      && r.tokens.expiresIn == TruncSeconds(cfg.accessTokenDuration)
      && r.tokens.accessToken == codec.sign(AccessClaims(cfg, userId, now, jti), cfg.secretKey).value
      && r.tokens.refreshToken == codec.sign(RefreshClaims(cfg, userId, now, jti), cfg.secretKey).value
  {
    var access := codec.sign(AccessClaims(cfg, userId, now, jti), cfg.secretKey);
    if access.Failure? then Generated(NoTokens, Some(access.error))
    else
      var refresh := codec.sign(RefreshClaims(cfg, userId, now, jti), cfg.secretKey);
      if refresh.Failure? then Generated(NoTokens, Some(refresh.error))
      else
        Generated(Tokens(access.value, refresh.value, TruncSeconds(cfg.accessTokenDuration),
                         now + cfg.accessTokenDuration), None)
  }

  const InvalidToken := "invalid token"
  const IncorrectData := "incorrect data in the token"

  /** JWTManager.ValidateToken at instant now; errors are errors.New texts. */
  function ValidateToken(cfg: Config, codec: Codec, token: string, now: Instant): (r: Result<Claims, string>)
    ensures r.Success? <==> codec.parse(token, cfg.secretKey, now).Decoded?
                            && codec.parse(token, cfg.secretKey, now).valid
                            && codec.parse(token, cfg.secretKey, now).claims.Some?
    ensures r.Success? ==> codec.parse(token, cfg.secretKey, now) == Decoded(true, Some(r.value))
    // only these two texts; in particular never "token is expired"
    ensures r.Failure? ==> r.error == InvalidToken || r.error == IncorrectData
    ensures r.Failure? ==> r.error != "token is expired"
  {
    match codec.parse(token, cfg.secretKey, now)
    case ParseFailed(_) => Failure(InvalidToken)
    case Decoded(valid, claims) =>
      if !valid then Failure(InvalidToken)
      else if claims.None? then Failure(IncorrectData)
      else Success(claims.value)
  }

  /** The two tokens of one call carry the same user and different ids. */
  lemma PairSharesUserDiffersInId(cfg: Config, userId: Uuid, now: Instant, jti: nat)
    ensures AccessClaims(cfg, userId, now, jti).userId == RefreshClaims(cfg, userId, now, jti).userId == userId
    ensures AccessClaims(cfg, userId, now, jti).id != RefreshClaims(cfg, userId, now, jti).id
  {
  }

  /**
   * A freshly minted access token validates, strictly before its (second-truncated)
   * expiry, to claims carrying the user it was minted for.
   */
  lemma {:induction false} GeneratedAccessTokenValidates(cfg: Config, codec: Codec, userId: Uuid, now: Instant, jti: nat, later: Instant)
    requires RoundTrips(codec)
    requires GenerateTokens(cfg, codec, userId, now, jti).err.None?
    requires later < NumericDate(GenerateTokens(cfg, codec, userId, now, jti).tokens.expiresAt)
    ensures ValidateToken(cfg, codec, GenerateTokens(cfg, codec, userId, now, jti).tokens.accessToken, later)
            == Success(AccessClaims(cfg, userId, now, jti))
    ensures ValidateToken(cfg, codec, GenerateTokens(cfg, codec, userId, now, jti).tokens.accessToken, later).value.userId
            == userId
  {
    var c := AccessClaims(cfg, userId, now, jti);
    assert codec.sign(c, cfg.secretKey).Success?;
    assert later < c.expiresAt;
    assert codec.parse(codec.sign(c, cfg.secretKey).value, cfg.secretKey, later) == Decoded(true, Some(c));
  }

  /** The refresh token validates likewise until its own expiry, now + RefreshTokenDuration. */
  lemma {:induction false} GeneratedRefreshTokenValidates(cfg: Config, codec: Codec, userId: Uuid, now: Instant, jti: nat, later: Instant)
    requires RoundTrips(codec)
    requires GenerateTokens(cfg, codec, userId, now, jti).err.None?
    requires later < NumericDate(now + cfg.refreshTokenDuration)
    ensures ValidateToken(cfg, codec, GenerateTokens(cfg, codec, userId, now, jti).tokens.refreshToken, later)
            == Success(RefreshClaims(cfg, userId, now, jti))
  {
    var c := RefreshClaims(cfg, userId, now, jti);
    assert codec.sign(c, cfg.secretKey).Success?;
    assert codec.parse(codec.sign(c, cfg.secretKey).value, cfg.secretKey, later) == Decoded(true, Some(c));
  }
}
