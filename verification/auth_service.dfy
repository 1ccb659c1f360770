/**
 * AuthService: issuing, rotating, validating and revoking tokens over the
 * refresh-token store.
 *
 * Each operation is first a function from the state before (the table, its id
 * sequence, the token-id counter) to the reply and the state after; the class
 * below runs the same steps against a Repository object and is proved to end
 * exactly where the function says. The reply is Go's five results: four token
 * values and an error, with the token values at their zero values whenever
 * the error is set.
 */
module AuthService {
  import opened Common
  import opened AuthErrors
  import GoErrors
  import JwtManager
  import opened TokenRepository

  datatype State = State(rows: Table, nextRowId: nat, nextJti: nat)

  datatype Reply = Reply(tokens: JwtManager.Tokens, err: Option<Error>)

  datatype Step = Step(reply: Reply, state: State)

  /** Driver errors for the three store calls a rotation can make. */
  datatype Faults = Faults(lookup: Fault, save: Fault, revoke: RevokeFault)

  const NoFaults := Faults(None, None, NoFault)

  /** The record GenerateTokens hands to SaveRefreshToken. */
  function NewRecord(cfg: JwtManager.Config, userId: Uuid, refreshToken: string, now: Instant): (rec: RefreshToken)
    ensures rec.userId == userId && rec.token == refreshToken && !rec.revoked
    ensures rec.expiresAt == now + cfg.refreshTokenDuration && rec.createdAt == now
  {
    RefreshToken(0, userId, refreshToken, now + cfg.refreshTokenDuration, false, now)
  }

  /**
   * AuthService.GenerateTokens (and Authenticate, which only forwards it):
   * mint a pair, save the refresh record, and only then release the tokens.
   */
  function GenerateStep(cfg: JwtManager.Config, codec: JwtManager.Codec, st: State, userId: Uuid, now: Instant, saveFault: Fault): (r: Step)
    ensures r.reply.err.Some? ==> r.reply.tokens == JwtManager.NoTokens
    // tokens come out only when minting and saving both succeeded
    ensures r.reply.err.None? <==>
      JwtManager.GenerateTokens(cfg, codec, userId, now, st.nextJti).err.None? && saveFault.None?
    ensures r.reply.err.None? ==> r.reply.tokens == JwtManager.GenerateTokens(cfg, codec, userId, now, st.nextJti).tokens
    // the store changes only by the saved record
    ensures JwtManager.GenerateTokens(cfg, codec, userId, now, st.nextJti).err.Some? || saveFault.Some? ==>
      r.state.rows == st.rows && r.state.nextRowId == st.nextRowId
    ensures r.reply.err.None? ==>
      r.state.rows == Insert(st.rows, NewRecord(cfg, userId, r.reply.tokens.refreshToken, now), st.nextRowId)
    ensures r.state.nextJti == st.nextJti + 2
    ensures Evolves(st.rows, r.state.rows) && st.rows.Keys <= r.state.rows.Keys
  {
    var g := JwtManager.GenerateTokens(cfg, codec, userId, now, st.nextJti);
    var minted := st.(nextJti := st.nextJti + 2);
    if g.err.Some? then Step(Reply(JwtManager.NoTokens, Some(GoErrors.Opaque(g.err.value))), minted)
    else
      var s := Save(st.rows, st.nextRowId, NewRecord(cfg, userId, g.tokens.refreshToken, now), saveFault);
      var saved := minted.(rows := s.rows, nextRowId := s.nextRowId);
      if s.err.Some? then Step(Reply(JwtManager.NoTokens, s.err), saved)
      else Step(Reply(g.tokens, None), saved)
  }

  /**
   * AuthService.RefreshTokens: lookup, revoked check, expiry check, mint and
   * save a new pair, and only then revoke the presented token.
   */
  function RefreshStep(cfg: JwtManager.Config, codec: JwtManager.Codec, st: State, token: string, now: Instant, f: Faults): (r: Step)
    ensures r.reply.err.Some? ==> r.reply.tokens == JwtManager.NoTokens
    // a failed lookup is returned as the store reported it, before anything is minted
    ensures Lookup(st.rows, token, f.lookup).Failure? ==>
      r == Step(Reply(JwtManager.NoTokens, Some(Lookup(st.rows, token, f.lookup).error)), st)
    ensures token !in st.rows && f.lookup.None? ==> r.reply.err == Some(NotFound) && r.state == st
    // a revoked record fails before the expiry check and before minting
    ensures token in st.rows && f.lookup.None? && st.rows[token].revoked ==>
      r == Step(Reply(JwtManager.NoTokens, Some(GoErrors.Sentinel(RefreshTokenRevoked))), st)
    // an unrevoked record has expired exactly when now is strictly after ExpiresAt
    ensures token in st.rows && f.lookup.None? && !st.rows[token].revoked ==>
      (r.reply.err == Some(GoErrors.Sentinel(TokenExpired)) <==> now > st.rows[token].expiresAt)
    ensures token in st.rows && f.lookup.None? && !st.rows[token].revoked && now > st.rows[token].expiresAt ==>
      r.state == st
    // a live record is exchanged exactly when minting, saving and revoking all succeed
    ensures token in st.rows && f.lookup.None? && !st.rows[token].revoked && now <= st.rows[token].expiresAt ==>
      (r.reply.err.None? <==>
        JwtManager.GenerateTokens(cfg, codec, st.rows[token].userId, now, st.nextJti).err.None?
        && f.save.None? && f.revoke.NoFault?)
    // success: the presented record is now revoked, the new one saved for the same user
    ensures r.reply.err.None? ==>
      && token in st.rows && !st.rows[token].revoked && now <= st.rows[token].expiresAt
      && token in r.state.rows && r.state.rows[token].revoked
      && r.state.rows == Revoke(Insert(st.rows, NewRecord(cfg, st.rows[token].userId, r.reply.tokens.refreshToken, now), st.nextRowId), token)
    ensures r.reply.err.None? && r.reply.tokens.refreshToken !in st.rows ==>
      && r.state.rows.Keys == st.rows.Keys + {r.reply.tokens.refreshToken}
      && r.state.rows[r.reply.tokens.refreshToken].userId == st.rows[token].userId
      && r.state.rows[r.reply.tokens.refreshToken].expiresAt == now + cfg.refreshTokenDuration
      && !r.state.rows[r.reply.tokens.refreshToken].revoked
      && (forall k :: k in st.rows && k != token ==> r.state.rows[k] == st.rows[k])
    ensures Evolves(st.rows, r.state.rows) && st.rows.Keys <= r.state.rows.Keys
  {
    var l := Lookup(st.rows, token, f.lookup);
    if l.Failure? then Step(Reply(JwtManager.NoTokens, Some(l.error)), st)
    else if l.value.revoked then Step(Reply(JwtManager.NoTokens, Some(GoErrors.Sentinel(RefreshTokenRevoked))), st)
    else if now > l.value.expiresAt then Step(Reply(JwtManager.NoTokens, Some(GoErrors.Sentinel(TokenExpired))), st)
    else
      var g := GenerateStep(cfg, codec, st, l.value.userId, now, f.save);
      if g.reply.err.Some? then g
      else
        var rv := RevokeOutcome(g.state.rows, token, f.revoke);
        if rv.err.Some? then Step(Reply(JwtManager.NoTokens, rv.err), g.state.(rows := rv.rows))
        else Step(g.reply, g.state.(rows := rv.rows))
  }

  datatype LogoutResult = LogoutResult(err: Option<Error>, rows: Table)

  /** AuthService.Logout: lookup; an already revoked record is a success that changes nothing. */
  function LogoutStep(st: State, token: string, lookupFault: Fault, revokeFault: RevokeFault): (r: LogoutResult)
    ensures Lookup(st.rows, token, lookupFault).Failure? ==>
      r == LogoutResult(Some(Lookup(st.rows, token, lookupFault).error), st.rows)
    ensures token in st.rows && lookupFault.None? && st.rows[token].revoked ==>
      r == LogoutResult(None, st.rows)
    ensures token in st.rows && lookupFault.None? && !st.rows[token].revoked ==>
      r == LogoutResult(RevokeOutcome(st.rows, token, revokeFault).err, RevokeOutcome(st.rows, token, revokeFault).rows)
    ensures r.err.None? ==> token in st.rows && r.rows == Revoke(st.rows, token)
    ensures r.err.Some? ==> r.rows == st.rows
  {
    var l := Lookup(st.rows, token, lookupFault);
    if l.Failure? then LogoutResult(Some(l.error), st.rows)
    else if l.value.revoked then LogoutResult(None, st.rows)
    else
      var rv := RevokeOutcome(st.rows, token, revokeFault);
      LogoutResult(rv.err, rv.rows)
  }

  /**
   * AuthService.ValidateToken: a codec failure whose text is "token is expired"
   * would become ErrTokenExpired; every other failure is ErrTokenInvalid.
   */
  function ValidateToken(cfg: JwtManager.Config, codec: JwtManager.Codec, accessToken: string, now: Instant): (r: Result<Uuid, Error>)
    ensures r.Success? <==> JwtManager.ValidateToken(cfg, codec, accessToken, now).Success?
    ensures r.Success? ==> r.value == JwtManager.ValidateToken(cfg, codec, accessToken, now).value.userId
    // the JWT manager never says "token is expired", so expiry surfaces as ErrTokenInvalid
    ensures r.Failure? ==> r.error == GoErrors.Sentinel(TokenInvalid)
  {
    var v := JwtManager.ValidateToken(cfg, codec, accessToken, now);
    if v.Failure? then
      if v.error == "token is expired" then Failure(GoErrors.Sentinel(TokenExpired))
      else Failure(GoErrors.Sentinel(TokenInvalid))
    else Success(v.value.userId)
  }

  /** Rotation is one-shot: the token a successful refresh consumed is refused as revoked. */
  lemma {:induction false} RotationIsOneShot(cfg: JwtManager.Config, codec: JwtManager.Codec, st: State, token: string,
                                             now: Instant, f: Faults, later: Instant, f2: Faults)
    requires RefreshStep(cfg, codec, st, token, now, f).reply.err.None?
    requires f2.lookup.None?
    ensures RefreshStep(cfg, codec, RefreshStep(cfg, codec, st, token, now, f).state, token, later, f2)
            == Step(Reply(JwtManager.NoTokens, Some(GoErrors.Sentinel(RefreshTokenRevoked))),
                    RefreshStep(cfg, codec, st, token, now, f).state)
  {
    var s1 := RefreshStep(cfg, codec, st, token, now, f).state;
    assert token in s1.rows && s1.rows[token].revoked;
  }

  /**
   * The new record is saved before the old one is revoked: when the revoke
   * fails, the caller gets an error and no tokens, yet the new record stays.
   */
  lemma {:induction false} RevokeFailureKeepsNewRecord(cfg: JwtManager.Config, codec: JwtManager.Codec, st: State, token: string, now: Instant, f: Faults)
    requires token in st.rows && f.lookup.None? && !st.rows[token].revoked && now <= st.rows[token].expiresAt
    requires JwtManager.GenerateTokens(cfg, codec, st.rows[token].userId, now, st.nextJti).err.None?
    requires f.save.None? && !f.revoke.NoFault?
    ensures RefreshStep(cfg, codec, st, token, now, f).reply == Reply(JwtManager.NoTokens, RefreshStep(cfg, codec, st, token, now, f).reply.err)
    ensures RefreshStep(cfg, codec, st, token, now, f).reply.err.Some?
    ensures RefreshStep(cfg, codec, st, token, now, f).state.rows
            == Insert(st.rows, NewRecord(cfg, st.rows[token].userId,
                                         JwtManager.GenerateTokens(cfg, codec, st.rows[token].userId, now, st.nextJti).tokens.refreshToken,
                                         now), st.nextRowId)
  {
    var g := GenerateStep(cfg, codec, st, st.rows[token].userId, now, f.save);
    assert g.reply.err.None?;
    assert token in g.state.rows;
  }

  /** Logging out twice: the second call succeeds and changes nothing. */
  lemma {:induction false} LogoutIsIdempotent(st: State, token: string, revokeFault: RevokeFault, revokeFault2: RevokeFault)
    requires LogoutStep(st, token, None, revokeFault).err.None?
    ensures LogoutStep(st.(rows := LogoutStep(st, token, None, revokeFault).rows), token, None, revokeFault2)
            == LogoutResult(None, LogoutStep(st, token, None, revokeFault).rows)
  {
    var rows1 := LogoutStep(st, token, None, revokeFault).rows;
    assert token in rows1 && rows1[token].revoked;
  }

  /** After logout the token can no longer be rotated. */
  lemma {:induction false} NoRefreshAfterLogout(cfg: JwtManager.Config, codec: JwtManager.Codec, st: State, token: string,
                                                revokeFault: RevokeFault, now: Instant, f: Faults)
    requires LogoutStep(st, token, None, revokeFault).err.None?
    requires f.lookup.None?
    ensures RefreshStep(cfg, codec, st.(rows := LogoutStep(st, token, None, revokeFault).rows), token, now, f).reply.err
            == Some(GoErrors.Sentinel(RefreshTokenRevoked))
  {
    var rows1 := LogoutStep(st, token, None, revokeFault).rows;
    assert token in rows1 && rows1[token].revoked;
  }

  /**
   * The new refresh token of a rotation is itself good for one more rotation,
   * until its own expiry, provided the store and the codec do not fail.
   */
  lemma {:induction false} RotatedTokenRotates(cfg: JwtManager.Config, codec: JwtManager.Codec, st: State, token: string,
                                               now: Instant, f: Faults, later: Instant)
    requires RefreshStep(cfg, codec, st, token, now, f).reply.err.None?
    requires RefreshStep(cfg, codec, st, token, now, f).reply.tokens.refreshToken !in st.rows
    requires later <= now + cfg.refreshTokenDuration
    requires JwtManager.GenerateTokens(cfg, codec, st.rows[token].userId, later,
                                       RefreshStep(cfg, codec, st, token, now, f).state.nextJti).err.None?
    ensures RefreshStep(cfg, codec, RefreshStep(cfg, codec, st, token, now, f).state,
                        RefreshStep(cfg, codec, st, token, now, f).reply.tokens.refreshToken, later, NoFaults).reply.err.None?
  {
    var r1 := RefreshStep(cfg, codec, st, token, now, f);
    var t2 := r1.reply.tokens.refreshToken;
    assert t2 in r1.state.rows && !r1.state.rows[t2].revoked;
    assert r1.state.rows[t2].userId == st.rows[token].userId;
  }

  /** The service object: the store it drives, the JWT manager's settings, and the token-id source. */
  class AuthService {
    const repo: Repository
    const cfg: JwtManager.Config
    const codec: JwtManager.Codec
    var nextJti: nat

    function Snapshot(): State
      reads this, repo
    {
      State(repo.rows, repo.nextRowId, nextJti)
    }

    constructor (repo: Repository, cfg: JwtManager.Config, codec: JwtManager.Codec)
      ensures this.repo == repo && this.cfg == cfg && this.codec == codec && nextJti == 0
    {
      this.repo := repo;
      this.cfg := cfg;
      this.codec := codec;
      nextJti := 0;
    }

    method GenerateTokens(userId: Uuid, now: Instant, saveFault: Fault) returns (r: Reply)
      modifies this, repo
      ensures Step(r, Snapshot()) == GenerateStep(cfg, codec, old(Snapshot()), userId, now, saveFault)
    {
      var g := JwtManager.GenerateTokens(cfg, codec, userId, now, nextJti);
      nextJti := nextJti + 2;
      if g.err.Some? {
        return Reply(JwtManager.NoTokens, Some(GoErrors.Opaque(g.err.value)));
      }
      var rec := RefreshToken(0, userId, g.tokens.refreshToken, now + cfg.refreshTokenDuration, false, now);
      var err := repo.SaveRefreshToken(rec, saveFault);
      if err.Some? {
        return Reply(JwtManager.NoTokens, err);
      }
      r := Reply(g.tokens, None);
    }

    method Authenticate(userId: Uuid, now: Instant, saveFault: Fault) returns (r: Reply)
      modifies this, repo
      ensures Step(r, Snapshot()) == GenerateStep(cfg, codec, old(Snapshot()), userId, now, saveFault)
    {
      r := GenerateTokens(userId, now, saveFault);
      if r.err.Some? {
        return Reply(JwtManager.NoTokens, r.err);
      }
    }

    method RefreshTokens(token: string, now: Instant, f: Faults) returns (r: Reply)
      modifies this, repo
      ensures Step(r, Snapshot()) == RefreshStep(cfg, codec, old(Snapshot()), token, now, f)
    {
      var stored := repo.GetRefreshToken(token, f.lookup);
      if stored.Failure? {
        return Reply(JwtManager.NoTokens, Some(stored.error));
      }
      if stored.value.revoked {
        return Reply(JwtManager.NoTokens, Some(GoErrors.Sentinel(RefreshTokenRevoked)));
      }
      if now > stored.value.expiresAt {
        return Reply(JwtManager.NoTokens, Some(GoErrors.Sentinel(TokenExpired)));
      }
      var minted := GenerateTokens(stored.value.userId, now, f.save);
      if minted.err.Some? {
        return Reply(JwtManager.NoTokens, minted.err);
      }
      var err := repo.RevokeRefreshToken(token, f.revoke);
      if err.Some? {
        return Reply(JwtManager.NoTokens, err);
      }
      r := minted;
    }

    method Logout(token: string, lookupFault: Fault, revokeFault: RevokeFault) returns (err: Option<Error>)
      modifies repo
      ensures LogoutResult(err, repo.rows) == LogoutStep(old(Snapshot()), token, lookupFault, revokeFault)
      ensures repo.nextRowId == old(repo.nextRowId)
    {
      var stored := repo.GetRefreshToken(token, lookupFault);
      if stored.Failure? {
        return Some(stored.error);
      }
      if stored.value.revoked {
        return None;
      }
      err := repo.RevokeRefreshToken(token, revokeFault);
    }

  }
}
