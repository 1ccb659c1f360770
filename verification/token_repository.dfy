/**
 * The refresh_tokens table and the four statements the repository runs on it.
 *
 * The table is a map from the token string (the UNIQUE column) to the rest of
 * the row. A driver error on a statement is an oracle parameter (`fault`);
 * a failed statement changes nothing.
 */
module TokenRepository {
  import opened Common
  import opened AuthErrors
  import GoErrors

  /** A row of refresh_tokens, keyed by its token string. */
  datatype Row = Row(id: nat, userId: Uuid, expiresAt: Instant, revoked: bool, createdAt: Instant)

  /** entity.RefreshToken: what the service saves and what a lookup returns. */
  datatype RefreshToken = RefreshToken(
    id: nat, userId: Uuid, token: string, expiresAt: Instant, revoked: bool, createdAt: Instant)

  type Table = map<string, Row>

  /** The driver error a statement fails with, if it fails. */
  type Fault = Option<string>

  /** Where RevokeRefreshToken's transaction can fail. */
  datatype RevokeFault = NoFault | BeginFails(text: string) | ExecFails(text: string) | CommitFails(text: string)

  const NotFound: Error := GoErrors.Sentinel(TokenNotFound)

  /** Every row present before and after is the same row, or the same row now revoked. */
  ghost predicate Evolves(t: Table, t': Table)
  {
    forall k :: k in t && k in t' ==> t'[k] == t[k] || t'[k] == t[k].(revoked := true)
  }

  /** INSERT ... ON CONFLICT (token) DO NOTHING, with revoked written as false. */
  function Insert(t: Table, rec: RefreshToken, rowId: nat): (t': Table)
    ensures rec.token in t ==> t' == t
    ensures rec.token !in t ==> t'.Keys == t.Keys + {rec.token}
    ensures rec.token in t' && !t'[rec.token].revoked <== rec.token !in t
    ensures rec.token !in t ==>
      t'[rec.token].userId == rec.userId && t'[rec.token].expiresAt == rec.expiresAt
      && t'[rec.token].createdAt == rec.createdAt
    ensures forall k :: k in t ==> k in t' && t'[k] == t[k]
    ensures Evolves(t, t')
  {
    if rec.token in t then t
    else t[rec.token := Row(rowId, rec.userId, rec.expiresAt, false, rec.createdAt)]
  }

  /** The entity GetRefreshToken builds from a row. */
  function ToEntity(token: string, row: Row): RefreshToken
  {
    RefreshToken(row.id, row.userId, token, row.expiresAt, row.revoked, row.createdAt)
  }

  /** SELECT ... WHERE token = $1, with sql.ErrNoRows turned into ErrTokenNotFound. */
  function Lookup(t: Table, token: string, fault: Fault): (r: Result<RefreshToken, Error>)
    ensures r.Failure? && r.error == NotFound <==> fault.None? && token !in t
    ensures fault.Some? ==> r == Failure(GoErrors.Opaque(fault.value))
    ensures r.Success? <==> fault.None? && token in t
    ensures r.Success? ==>
      && r.value.token == token
      && r.value.userId == t[token].userId
      && r.value.expiresAt == t[token].expiresAt
      && r.value.revoked == t[token].revoked
      && r.value.createdAt == t[token].createdAt
      && r.value.id == t[token].id
  {
    if fault.Some? then Failure(GoErrors.Opaque(fault.value))
    else if token !in t then Failure(NotFound)
    else Success(ToEntity(token, t[token]))
  }

  /** UPDATE refresh_tokens SET revoked = true WHERE token = $1, on a present token. */
  function Revoke(t: Table, token: string): (t': Table)
    requires token in t
    ensures t'.Keys == t.Keys
    ensures t'[token] == t[token].(revoked := true)
    ensures forall k :: k in t && k != token ==> t'[k] == t[k]
    ensures Evolves(t, t')
  {
    t[token := t[token].(revoked := true)]
  }

  /** DELETE FROM refresh_tokens WHERE expires_at < now. */
  function Sweep(t: Table, now: Instant): (t': Table)
    ensures forall k :: k in t' <==> k in t && t[k].expiresAt >= now
    ensures forall k :: k in t' ==> t'[k] == t[k]
    ensures Evolves(t, t')
  {
    map k | k in t && t[k].expiresAt >= now :: t[k]
  }

  /** Outcome of SaveRefreshToken: the error, the table, and the id sequence. */
  datatype SaveOutcome = SaveOutcome(err: Option<Error>, rows: Table, nextRowId: nat)

  /**
   * SaveRefreshToken. The serial id is drawn for every executed INSERT, also
   * when the ON CONFLICT clause discards the row.
   */
  function Save(t: Table, nextRowId: nat, rec: RefreshToken, fault: Fault): (o: SaveOutcome)
    ensures o.err.None? <==> fault.None?
    ensures o.err.Some? ==> o.rows == t && o.nextRowId == nextRowId
    ensures o.err.None? ==> o.rows == Insert(t, rec, nextRowId)
    ensures Evolves(t, o.rows)
  {
    if fault.Some? then SaveOutcome(Some(GoErrors.Opaque(fault.value)), t, nextRowId)
    else SaveOutcome(None, Insert(t, rec, nextRowId), nextRowId + 1)
  }

  datatype Outcome = Outcome(err: Option<Error>, rows: Table)

  /**
   * RevokeRefreshToken: a transaction whose UPDATE has no `revoked = false`
   * filter, so an already revoked row is matched again and the call succeeds.
   */
  function RevokeOutcome(t: Table, token: string, fault: RevokeFault): (o: Outcome)
    ensures o.err.None? <==> token in t && fault.NoFault?
    ensures o.err.None? ==> o.rows == Revoke(t, token)
    ensures o.err.Some? ==> o.rows == t
    ensures fault.NoFault? && token !in t ==> o.err == Some(NotFound)
    ensures o.err == Some(NotFound) ==> token !in t
    ensures Evolves(t, o.rows)
  {
    match fault
    case BeginFails(text) => Outcome(Some(GoErrors.Opaque(text)), t)
    case ExecFails(text) => Outcome(Some(GoErrors.Opaque(text)), t)
    case CommitFails(text) =>
      if token !in t then Outcome(Some(NotFound), t)  // rows affected == 0: rolled back
      else Outcome(Some(GoErrors.Opaque(text)), t)
    case NoFault =>
      if token !in t then Outcome(Some(NotFound), t)  // rows affected == 0: rolled back
      else Outcome(None, Revoke(t, token))
  }

  /** DeleteExpiredRefreshTokens at instant now. */
  function SweepOutcome(t: Table, now: Instant, fault: Fault): (o: Outcome)
    ensures o.err.None? <==> fault.None?
    ensures o.err.None? ==> o.rows == Sweep(t, now)
    ensures o.err.Some? ==> o.rows == t
  {
    if fault.Some? then Outcome(Some(GoErrors.Opaque(fault.value)), t)
    else Outcome(None, Sweep(t, now))
  }

  /** Sweeping twice at the same instant deletes nothing the second time. */
  lemma SweepIdempotent(t: Table, now: Instant)
    ensures Sweep(Sweep(t, now), now) == Sweep(t, now)
  {
  }

  /** The sweep ignores the revoked flag: a live revoked row stays, an expired unrevoked row goes. */
  lemma SweepIgnoresRevoked(t: Table, now: Instant, k: string)
    requires k in t
    ensures k in Sweep(t, now) <==> !(t[k].expiresAt < now)
  {
  }

  /** Evolves composes: along any sequence of statements a revoked row never becomes unrevoked. */
  lemma EvolvesTransitive(t1: Table, t2: Table, t3: Table)
    requires Evolves(t1, t2) && Evolves(t2, t3)
    requires forall k :: k in t1 && k in t3 ==> k in t2
    ensures Evolves(t1, t3)
  {
  }

  /** Revoking twice leaves the table as revoking once. */
  lemma RevokeIdempotent(t: Table, token: string)
    requires token in t
    ensures Revoke(Revoke(t, token), token) == Revoke(t, token)
  {
  }

  /** The table's state as a mutable object, as the repository holds it through its *sql.DB. */
  class Repository {
    var rows: Table
    var nextRowId: nat

    constructor ()
      ensures rows == map[] && nextRowId == 1
    {
      rows := map[];
      nextRowId := 1;
    }

    method SaveRefreshToken(rec: RefreshToken, fault: Fault) returns (err: Option<Error>)
      modifies this
      ensures SaveOutcome(err, rows, nextRowId) == Save(old(rows), old(nextRowId), rec, fault)
    {
      if fault.Some? {
        return Some(GoErrors.Opaque(fault.value));
      }
      if rec.token !in rows {
        rows := rows[rec.token := Row(nextRowId, rec.userId, rec.expiresAt, false, rec.createdAt)];
      }
      nextRowId := nextRowId + 1;
      err := None;
    }

    method GetRefreshToken(token: string, fault: Fault) returns (r: Result<RefreshToken, Error>)
      ensures r == Lookup(rows, token, fault)
    {
      if fault.Some? {
        return Failure(GoErrors.Opaque(fault.value));
      }
      if token !in rows {
        return Failure(NotFound);
      }
      var row := rows[token];
      r := Success(RefreshToken(row.id, row.userId, token, row.expiresAt, row.revoked, row.createdAt));
    }

    method RevokeRefreshToken(token: string, fault: RevokeFault) returns (err: Option<Error>)
      modifies this
      ensures Outcome(err, rows) == RevokeOutcome(old(rows), token, fault)
      ensures nextRowId == old(nextRowId)
    {
      if fault.BeginFails? || fault.ExecFails? {
        return Some(GoErrors.Opaque(fault.text));
      }
      if token !in rows {
        return Some(NotFound);
      }
      if fault.CommitFails? {
        return Some(GoErrors.Opaque(fault.text));
      }
      rows := rows[token := rows[token].(revoked := true)];
      err := None;
    }

    method DeleteExpiredRefreshTokens(now: Instant, fault: Fault) returns (err: Option<Error>)
      modifies this
      ensures Outcome(err, rows) == SweepOutcome(old(rows), now, fault)
      ensures nextRowId == old(nextRowId)
    {
      if fault.Some? {
        return Some(GoErrors.Opaque(fault.value));
      }
      rows := map k | k in rows && rows[k].expiresAt >= now :: rows[k];
      err := None;
    }
  }
}
