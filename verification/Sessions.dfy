/**
 * Refresh-token sessions: the row of `user_sessions`, the tokens, and the
 * operations of the session repository and of the authentication middleware.
 *
 * A token is the tuple of claims it was signed with, so signing is a
 * deterministic function of (secret, subject, roles, session, issue second) and
 * two tokens are the same text exactly when these agree. The hash is a
 * constructor, hence injective.
 */
module Sessions {
  import opened Prelude

  datatype Token = Token(secret: nat, sub: Uuid, roles: seq<UserRole>, sid: Uuid, iat: nat, exp: nat)

  datatype TokenHash = HashOf(preimage: Token)

  datatype Pair = Pair(access: Token, refresh: Token)

  datatype RevokeReason = LoggedOut | Suspicious | Expired | Invalid

  datatype Session = Session(
    userId: Uuid,
    refreshTokenHash: TokenHash,
    previousRefreshTokenHash: Option<TokenHash>,
    rotatedAt: Option<Time>,
    rotatedAccessToken: Option<Token>,
    rotatedRefreshToken: Option<Token>,
    isRevoked: bool,
    revokedReason: Option<RevokeReason>,
    expiresAt: Time)

  type Table = map<Uuid, Session>

  // The two signing secrets and the two lifetimes (in seconds) of the environment.
  datatype Config = Config(accessSecret: nat, refreshSecret: nat, accessTtl: nat, refreshTtl: nat)

  const REFRESH_ROTATION_GRACE_PERIOD := 5000

  // ---------------------------------------------------------------- tokens

  function Sign(secret: nat, ttl: nat, sub: Uuid, roles: seq<UserRole>, sid: Uuid, now: Time): Token {
    Token(secret, sub, roles, sid, now / 1000, now / 1000 + ttl)
  }

  function SignPair(cfg: Config, sub: Uuid, roles: seq<UserRole>, sid: Uuid, now: Time): Pair {
    Pair(Sign(cfg.accessSecret, cfg.accessTtl, sub, roles, sid, now),
         Sign(cfg.refreshSecret, cfg.refreshTtl, sub, roles, sid, now))
  }

  datatype Verdict = Genuine | TokenExpired | BadSignature

  // "exp" is section 4.1.4 of RFC 7519: on or after that second the token is refused.
  function Verify(secret: nat, token: Token, now: Time): Verdict {
    if token.secret != secret then BadSignature
    else if now / 1000 >= token.exp then TokenExpired
    else Genuine
  }

  // A refresh token this server signed for the session `sid` of `user`.
  predicate Minted(cfg: Config, token: Token, user: Uuid, sid: Uuid) {
    token == Token(cfg.refreshSecret, user, token.roles, sid, token.iat, token.iat + cfg.refreshTtl)
  }

  // The pair whose refresh half is `refresh`: both halves are signed in one second.
  function PairOf(cfg: Config, refresh: Token): Pair {
    Pair(Token(cfg.accessSecret, refresh.sub, refresh.roles, refresh.sid, refresh.iat, refresh.iat + cfg.accessTtl),
         refresh)
  }

  // ------------------------------------------------------------------ rows

  function NewSession(cfg: Config, sid: Uuid, user: Uuid, roles: seq<UserRole>, now: Time): Session {
    Session(user, HashOf(SignPair(cfg, user, roles, sid, now).refresh), None, None, None, None,
            false, None, now + cfg.refreshTtl * 1000)
  }

  function Revoked(row: Session, reason: RevokeReason): Session {
    row.(isRevoked := true, revokedReason := Some(reason))
  }

  // What the locked transaction answers: nothing, the stored pair again, or a new pair.
  datatype Rotation = Refused | Replayed(pair: Pair) | Rotated(pair: Pair)

  predicate InGrace(row: Session, token: Token, now: Time) {
    row.rotatedAt.Some?
    && row.previousRefreshTokenHash == Some(HashOf(token))
    && now - row.rotatedAt.value <= REFRESH_ROTATION_GRACE_PERIOD
  }

  // What every row of the table satisfies at `now`: the current token was signed
  // for this session, and a rotated row stores exactly the pair it handed out.
  ghost predicate RowOk(cfg: Config, sid: Uuid, row: Session, now: Time) {
    var current := row.refreshTokenHash.preimage;
    && Minted(cfg, current, row.userId, sid)
    && current.iat <= now / 1000
    && (row.rotatedAt.None? ==>
          row.previousRefreshTokenHash.None? && row.rotatedAccessToken.None? && row.rotatedRefreshToken.None?)
    && (row.rotatedAt.Some? ==>
          && row.previousRefreshTokenHash.Some? && row.rotatedAccessToken.Some? && row.rotatedRefreshToken.Some?
          && row.rotatedAt.value <= now
          && Pair(row.rotatedAccessToken.value, row.rotatedRefreshToken.value) == PairOf(cfg, current)
          && current.iat == row.rotatedAt.value / 1000
          && var previous := row.previousRefreshTokenHash.value.preimage;
          && Minted(cfg, previous, row.userId, sid)
          && previous.roles == current.roles
          && previous.iat <= current.iat)
  }

  ghost predicate TableOk(cfg: Config, rows: Table, now: Time) {
    forall sid <- rows :: RowOk(cfg, sid, rows[sid], now)
  }

  function Rotate(cfg: Config, sid: Uuid, row: Session, roles: seq<UserRole>, token: Token, now: Time)
    : (Session, Rotation)
    requires row.rotatedAt.Some? ==> row.rotatedAccessToken.Some? && row.rotatedRefreshToken.Some?
  {
    if InGrace(row, token, now) then
      (row, Replayed(Pair(row.rotatedAccessToken.value, row.rotatedRefreshToken.value)))
    else if row.refreshTokenHash != HashOf(token) then
      (row, Refused)
    else
      var pair := SignPair(cfg, row.userId, roles, sid, now);
      (row.(previousRefreshTokenHash := Some(row.refreshTokenHash),
            rotatedRefreshToken := Some(pair.refresh),
            rotatedAccessToken := Some(pair.access),
            refreshTokenHash := HashOf(pair.refresh),
            rotatedAt := Some(now)),
       Rotated(pair))
  }

  function RevokeAll(rows: Table, user: Uuid): Table {
    map sid <- rows ::
      if rows[sid].userId == user && !rows[sid].isRevoked then Revoked(rows[sid], Suspicious) else rows[sid]
  }

  predicate Matches(row: Session, token: Token) {
    row.refreshTokenHash == HashOf(token) || row.previousRefreshTokenHash == Some(HashOf(token))
  }

  // ------------------------------------------------- decisions of the middleware

  // What a request does with the row it looked up; the checks use that snapshot.
  datatype Action =
    | RevokeOwner(user: Uuid)
    | Retire(reason: RevokeReason)
    | TryRotate(user: Uuid, roles: seq<UserRole>)
    | LogOut

  function Decide(cfg: Config, snapshot: Session, token: Token, now: Time): Action {
    match Verify(cfg.refreshSecret, token, now)
    case BadSignature => Retire(Invalid)
    case TokenExpired => Retire(Expired)
    case Genuine =>
      if snapshot.isRevoked then RevokeOwner(token.sub)
      else if snapshot.expiresAt < now then Retire(Expired)
      else TryRotate(token.sub, token.roles)
  }

  // The exact condition under which presenting `token` yields a token pair when
  // nothing else touches the session meanwhile.
  predicate Honours(cfg: Config, rows: Table, token: Token, now: Time) {
    && token.sid in rows
    && var row := rows[token.sid];
    && Verify(cfg.refreshSecret, token, now) == Genuine
    && !row.isRevoked
    && now <= row.expiresAt
    && (row.refreshTokenHash == HashOf(token) || InGrace(row, token, now))
  }

  // What a refresh token leaves of the table: the session it names, if its row knows
  // it, is marked, rotated or locked out together with its owner's other sessions.
  function Presented(cfg: Config, rows: Table, token: Token, now: Time): Table
    requires TableOk(cfg, rows, now)
  {
    if token.sid !in rows || !Matches(rows[token.sid], token) then rows else
    var row := rows[token.sid];
    match Verify(cfg.refreshSecret, token, now)
    case TokenExpired => rows[token.sid := Revoked(row, Expired)]
    case BadSignature => rows[token.sid := Revoked(row, Invalid)]
    case Genuine =>
      if row.isRevoked then RevokeAll(rows, token.sub)
      else if row.expiresAt < now then rows[token.sid := Revoked(row, Expired)]
      else rows[token.sid := Rotate(cfg, token.sid, row, token.roles, token, now).0]
  }

  datatype AuthRefusal =
    | InvalidAccessToken | InvalidAuthentication | InvalidSession
    | SuspiciousActivity | ExpiredSession | UnableToRotate

  datatype Response =
    | Passed(user: Uuid, roles: seq<UserRole>)
    | Refreshed(user: Uuid, roles: seq<UserRole>, pair: Pair)
    | Unauthorized(why: AuthRefusal)

  // The table knows the token as the present or the previous one of its session.
  predicate Knows(rows: Table, token: Token) {
    token.sid in rows
    && (rows[token.sid].refreshTokenHash == HashOf(token)
        || rows[token.sid].previousRefreshTokenHash == Some(HashOf(token)))
  }

  // Known, signed with the right secret and not run out.
  predicate IsIntact(cfg: Config, rows: Table, token: Token, now: Time) {
    Knows(rows, token) && token.secret == cfg.refreshSecret && now / 1000 < token.exp
  }

  // Why a refresh token is turned away.
  predicate IsReason(cfg: Config, rows: Table, token: Token, now: Time, why: AuthRefusal) {
    match why
    case InvalidAccessToken => false
    case InvalidAuthentication => false
    case InvalidSession => !IsIntact(cfg, rows, token, now)
    case SuspiciousActivity => IsIntact(cfg, rows, token, now) && rows[token.sid].isRevoked
    case ExpiredSession =>
      IsIntact(cfg, rows, token, now) && !rows[token.sid].isRevoked && rows[token.sid].expiresAt < now
    case UnableToRotate =>
      IsIntact(cfg, rows, token, now) && !rows[token.sid].isRevoked && now <= rows[token.sid].expiresAt
      && rows[token.sid].refreshTokenHash != HashOf(token)
      && (rows[token.sid].rotatedAt.Some? ==> now > rows[token.sid].rotatedAt.value + 5000)
  }

  // ---------------------------------------------------------- row-level facts

  predicate Names(token: Token, user: Uuid, roles: seq<UserRole>, sid: Uuid) {
    token.sub == user && token.roles == roles && token.sid == sid
  }

  // A token of either kind is genuine from the second it is signed in for as many
  // seconds as its kind lives, and under no other secret.
  lemma SignedIsGenuine(cfg: Config, user: Uuid, roles: seq<UserRole>, sid: Uuid, now: Time, secret: nat, t: Time)
    requires now <= t
    ensures var pair := SignPair(cfg, user, roles, sid, now);
            && (Verify(secret, pair.access, t) == Genuine
                <==> secret == cfg.accessSecret && t / 1000 < now / 1000 + cfg.accessTtl)
            && (Verify(secret, pair.refresh, t) == Genuine
                <==> secret == cfg.refreshSecret && t / 1000 < now / 1000 + cfg.refreshTtl)
            && Names(pair.access, user, roles, sid) && Names(pair.refresh, user, roles, sid)
  {
  }

  lemma NewSessionHonours(cfg: Config, sid: Uuid, user: Uuid, roles: seq<UserRole>, now: Time)
    ensures var row, refresh := NewSession(cfg, sid, user, roles, now), SignPair(cfg, user, roles, sid, now).refresh;
            && row.expiresAt / 1000 == refresh.exp
            && (forall rows: Table, t: Time | now <= t && sid in rows && rows[sid] == row ::
                  Honours(cfg, rows, refresh, t) <==> t / 1000 < now / 1000 + cfg.refreshTtl)
  {
  }

  // A live row honours its current token at any time, its predecessor for the
  // grace period only, and no other token.
  lemma RotateAnswers(cfg: Config, sid: Uuid, row: Session, roles: seq<UserRole>, token: Token, now: Time)
    requires RowOk(cfg, sid, row, now)
    ensures var (row', answer) := Rotate(cfg, sid, row, roles, token, now);
            && (!answer.Refused? <==>
                  || row.refreshTokenHash.preimage == token
                  || (row.previousRefreshTokenHash == Some(HashOf(token)) && now <= row.rotatedAt.value + 5000))
            && (answer.Replayed? ==> row' == row && answer.pair == PairOf(cfg, row.refreshTokenHash.preimage))
            && (answer.Rotated? ==> answer.pair == PairOf(cfg, row'.refreshTokenHash.preimage))
            && (answer.Refused? ==> row' == row)
  {
  }

  lemma RotateKeepsRowOk(cfg: Config, sid: Uuid, row: Session, token: Token, now: Time)
    requires RowOk(cfg, sid, row, now)
    ensures RowOk(cfg, sid, Rotate(cfg, sid, row, token.roles, token, now).0, now)
  {
  }

  // A rotation retires the presented token unless it happens in the very second
  // in which that token was issued: then the "new" token is the old one.
  lemma RotationReissuesIff(cfg: Config, sid: Uuid, row: Session, token: Token, now: Time)
    requires RowOk(cfg, sid, row, now)
    requires Rotate(cfg, sid, row, token.roles, token, now).1.Rotated?
    ensures Rotate(cfg, sid, row, token.roles, token, now).0.refreshTokenHash == HashOf(token)
            <==> now / 1000 == token.iat
  {
  }

  // Row by row: a refresh token that is not known changes nothing; else the session it
  // names is revoked with the reason, or rotated, and other sessions change only when
  // their owner is locked out.
  lemma PresentedLeaves(cfg: Config, rows: Table, token: Token, now: Time)
    requires TableOk(cfg, rows, now)
    ensures var after := Presented(cfg, rows, token, now);
            && after.Keys == rows.Keys
            && (!Knows(rows, token) ==> after == rows)
            && (Knows(rows, token) && !IsIntact(cfg, rows, token, now) ==>
                  after[token.sid].isRevoked && after[token.sid].revokedReason ==
                    Some(if token.secret != cfg.refreshSecret then Invalid else Expired))
            && (IsReason(cfg, rows, token, now, ExpiredSession) ==>
                  after[token.sid].isRevoked && after[token.sid].revokedReason == Some(Expired))
            && (IsReason(cfg, rows, token, now, SuspiciousActivity) ==>
                  forall sid <- rows ::
                    if rows[sid].userId != token.sub || rows[sid].isRevoked then after[sid] == rows[sid]
                    else after[sid].isRevoked && after[sid].revokedReason == Some(Suspicious))
            && (!IsReason(cfg, rows, token, now, SuspiciousActivity) ==>
                  forall sid <- rows | sid != token.sid :: after[sid] == rows[sid])
            && (Honours(cfg, rows, token, now) ==> !after[token.sid].isRevoked)
  {
  }

  // The lookup is by hash, without a session id; at most one row can match.
  lemma LookupIsUnique(cfg: Config, rows: Table, token: Token, now: Time)
    requires TableOk(cfg, rows, now)
    ensures forall sid <- rows :: Matches(rows[sid], token) ==>
              sid == token.sid && token.sub == rows[sid].userId && Minted(cfg, token, token.sub, sid)
  {
  }

  // ------------------------------------------------------------ the repository

  class SessionRepository {
    const cfg: Config
    var rows: Table

    constructor (cfg: Config)
      ensures this.cfg == cfg && rows == map[]
    {
      this.cfg := cfg;
      rows := map[];
    }

    // `sid` and `now` stand for randomUUID() and the clock.
    method CreateSession(sid: Uuid, user: Uuid, roles: seq<UserRole>, now: Time) returns (pair: Pair)
      requires TableOk(cfg, rows, now) && sid !in rows
      modifies this
      ensures TableOk(cfg, rows, now)
      ensures rows == old(rows)[sid := NewSession(cfg, sid, user, roles, now)]
      ensures Names(pair.access, user, roles, sid) && Names(pair.refresh, user, roles, sid)
      ensures pair == PairOf(cfg, rows[sid].refreshTokenHash.preimage)
      // The session ends with its first refresh token, which is honoured until then.
      ensures rows[sid].expiresAt / 1000 == pair.refresh.exp
      ensures forall t | now <= t :: Honours(cfg, rows, pair.refresh, t) <==> t / 1000 < now / 1000 + cfg.refreshTtl
    {
      NewSessionHonours(cfg, sid, user, roles, now);
      pair := SignPair(cfg, user, roles, sid, now);
      var row := Session(user, HashOf(pair.refresh), None, None, None, None, false, None, now + cfg.refreshTtl * 1000);
      rows := rows[sid := row];
    }

    method RevokeSession(sid: Uuid, reason: RevokeReason)
      modifies this
      ensures rows == if sid in old(rows) then old(rows)[sid := Revoked(old(rows)[sid], reason)] else old(rows)
    {
      if sid in rows {
        var row := rows[sid];
        row := row.(isRevoked := true);
        row := row.(revokedReason := Some(reason));
        rows := rows[sid := row];
      }
    }

    method RevokeAllSessions(user: Uuid)
      modifies this
      ensures rows == RevokeAll(old(rows), user)
    {
      ghost var before, after := rows, RevokeAll(rows, user);
      var todo := rows.Keys;
      while todo != {}
        invariant todo <= before.Keys == rows.Keys
        invariant forall sid <- before :: rows[sid] == if sid in todo then before[sid] else after[sid]
        decreases |todo|
      {
        var sid :| sid in todo;
        if rows[sid].userId == user && !rows[sid].isRevoked {
          rows := rows[sid := Revoked(rows[sid], Suspicious)];
        }
        todo := todo - {sid};
      }
    }

    // The transaction that holds the row lock.
    method RotateSession(sid: Uuid, roles: seq<UserRole>, token: Token, now: Time) returns (pair: Option<Pair>)
      requires TableOk(cfg, rows, now)
      modifies this
      ensures sid !in old(rows) ==> rows == old(rows) && pair == None
      ensures sid in old(rows) ==>
                var (row', answer) := Rotate(cfg, sid, old(rows)[sid], roles, token, now);
                rows == old(rows)[sid := row'] && pair == (if answer.Refused? then None else Some(answer.pair))
    {
      if sid !in rows {
        return None;
      }
      var row := rows[sid];
      if row.rotatedAt.Some? && row.previousRefreshTokenHash == Some(HashOf(token))
         && now - row.rotatedAt.value <= REFRESH_ROTATION_GRACE_PERIOD {
        return Some(Pair(row.rotatedAccessToken.value, row.rotatedRefreshToken.value));
      }
      if row.refreshTokenHash != HashOf(token) {
        return None;
      }
      var signed := SignPair(cfg, row.userId, roles, sid, now);
      row := row.(previousRefreshTokenHash := Some(row.refreshTokenHash));
      row := row.(rotatedRefreshToken := Some(signed.refresh), rotatedAccessToken := Some(signed.access));
      row := row.(refreshTokenHash := HashOf(signed.refresh), rotatedAt := Some(now));
      rows := rows[sid := row];
      return Some(signed);
    }

    method FindByToken(token: Token) returns (found: Option<Uuid>)
      ensures found.Some? ==> found.value in rows && Matches(rows[found.value], token)
      ensures found.None? ==> forall sid <- rows :: !Matches(rows[sid], token)
    {
      if sid: Uuid :| sid in rows && Matches(rows[sid], token) {
        found := Some(sid);
      } else {
        found := None;
      }
    }

    // The middleware as one uninterrupted request.
    method Authenticate(access: Option<Token>, refresh: Option<Token>, now: Time) returns (res: Response)
      requires TableOk(cfg, rows, now)
      modifies this
      ensures TableOk(cfg, rows, now)
      // An access token decides alone, whatever the table says of its session.
      ensures res.Passed? <==> access.Some? && Verify(cfg.accessSecret, access.value, now) == Genuine
      ensures access.Some? && Verify(cfg.accessSecret, access.value, now) != TokenExpired ==> rows == old(rows)
      // Otherwise tokens are refreshed exactly when the table honours the refresh token.
      ensures res.Refreshed? <==>
                && !res.Passed?
                && (access.Some? ==> Verify(cfg.accessSecret, access.value, now) == TokenExpired)
                && refresh.Some? && Honours(cfg, old(rows), refresh.value, now)
      // Who is let in is who the token names, in the roles it names.
      ensures res.Passed? ==> res.user == access.value.sub && res.roles == access.value.roles
      ensures res.Refreshed? ==>
                && res.user == refresh.value.sub == old(rows)[refresh.value.sid].userId
                && res.roles == refresh.value.roles
                && refresh.value.sid in rows
                && res.pair == PairOf(cfg, rows[refresh.value.sid].refreshTokenHash.preimage)
      // A request is turned away for exactly one reason.
      ensures res == Unauthorized(InvalidAccessToken) <==> access.Some? && access.value.secret != cfg.accessSecret
      ensures res == Unauthorized(InvalidAuthentication) <==>
                refresh.None? && (access.Some? ==> Verify(cfg.accessSecret, access.value, now) == TokenExpired)
      ensures res.Unauthorized? && res.why != InvalidAccessToken && res.why != InvalidAuthentication ==>
                refresh.Some? && IsReason(cfg, old(rows), refresh.value, now, res.why)
      ensures rows == if refresh.Some? && (access.Some? ==> Verify(cfg.accessSecret, access.value, now) == TokenExpired)
                then Presented(cfg, old(rows), refresh.value, now) else old(rows)
      // No session but the presented one changes, except when its owner is locked out.
      ensures refresh.None? ==> rows == old(rows)
      ensures refresh.Some? ==> forall sid <- old(rows) ::
                sid in rows && (sid == refresh.value.sid || rows[sid] == old(rows)[sid]
                                || (res == Unauthorized(SuspiciousActivity)
                                    && rows[sid].userId == refresh.value.sub && rows[sid].isRevoked))
      ensures res == Unauthorized(SuspiciousActivity) ==>
                && refresh.Some?
                && forall sid <- rows :: rows[sid].userId == refresh.value.sub ==> rows[sid].isRevoked
    {
      if access.Some? {
        var verdict := Verify(cfg.accessSecret, access.value, now);
        if verdict == Genuine {
          return Passed(access.value.sub, access.value.roles);
        }
        if verdict != TokenExpired {
          return Unauthorized(InvalidAccessToken);
        }
      }
      if refresh.None? {
        return Unauthorized(InvalidAuthentication);
      }
      res := Refresh(refresh.value, now);
    }

    // What the middleware does with a refresh token.
    method Refresh(token: Token, now: Time) returns (res: Response)
      requires TableOk(cfg, rows, now)
      modifies this
      ensures TableOk(cfg, rows, now) && rows == Presented(cfg, old(rows), token, now)
      ensures !res.Passed? && (res.Refreshed? <==> Honours(cfg, old(rows), token, now))
      ensures res.Refreshed? ==>
                && res.user == token.sub == old(rows)[token.sid].userId && res.roles == token.roles
                && token.sid in rows && res.pair == PairOf(cfg, rows[token.sid].refreshTokenHash.preimage)
      ensures res.Unauthorized? ==> IsReason(cfg, old(rows), token, now, res.why)
      ensures forall sid <- old(rows) ::
                sid in rows && (sid == token.sid || rows[sid] == old(rows)[sid]
                                || (res == Unauthorized(SuspiciousActivity)
                                    && rows[sid].userId == token.sub && rows[sid].isRevoked))
      ensures res == Unauthorized(SuspiciousActivity) ==>
                forall sid <- rows :: rows[sid].userId == token.sub ==> rows[sid].isRevoked
    {
      LookupIsUnique(cfg, rows, token, now);
      var found := FindByToken(token);
      if found.None? {
        return Unauthorized(InvalidSession);
      }
      var sid := found.value;
      var session := rows[sid];
      var verdict := Verify(cfg.refreshSecret, token, now);
      if verdict != Genuine {
        RevokeSession(sid, if verdict == TokenExpired then Expired else Invalid);
        return Unauthorized(InvalidSession);
      }
      if session.isRevoked {
        RevokeAllSessions(token.sub);
        return Unauthorized(SuspiciousActivity);
      }
      if session.expiresAt < now {
        RevokeSession(sid, Expired);
        return Unauthorized(ExpiredSession);
      }
      RotateAnswers(cfg, sid, session, token.roles, token, now);
      RotateKeepsRowOk(cfg, sid, session, token, now);
      var pair := RotateSession(sid, token.roles, token, now);
      if pair.None? {
        return Unauthorized(UnableToRotate);
      }
      return Refreshed(token.sub, token.roles, pair.value);
    }

    // Logging out finds a session by its current token only.
    method Logout(token: Token, now: Time)
      requires TableOk(cfg, rows, now)
      modifies this
      ensures forall sid <- old(rows) :: sid in rows
      ensures rows.Keys == old(rows).Keys
      ensures forall sid <- rows :: rows[sid] ==
                if old(rows)[sid].refreshTokenHash == HashOf(token) && !old(rows)[sid].isRevoked
                then Revoked(old(rows)[sid], LoggedOut) else old(rows)[sid]
    {
      LookupIsUnique(cfg, rows, token, now);
      if sid: Uuid :| sid in rows && rows[sid].refreshTokenHash == HashOf(token) {
        if rows[sid].isRevoked {
          return;
        }
        RevokeSession(sid, LoggedOut);
      }
    }

    // The WebSocket gate: unlike the middleware it reads the session row.
    method GetWsSession(access: Token, now: Time) returns (user: Option<Uuid>)
      ensures user.Some? <==>
                && Verify(cfg.accessSecret, access, now) == Genuine
                && access.sid in rows && !rows[access.sid].isRevoked && now <= rows[access.sid].expiresAt
      ensures user.Some? ==> user.value == rows[access.sid].userId
    {
      if Verify(cfg.accessSecret, access, now) != Genuine {
        return None;
      }
      if access.sid !in rows {
        return None;
      }
      var session := rows[access.sid];
      if session.isRevoked || session.expiresAt < now {
        return None;
      }
      return Some(session.userId);
    }
  }
}
