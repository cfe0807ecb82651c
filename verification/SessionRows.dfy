/**
 * What the session operations do, told by the columns of the rows alone: which rows change, to what, and
 * which answer goes with which rows.
 */
module SessionRows {
  import opened AuthModel
  import opened AuthDb
  import opened SessionLaws

  /** The sessions `gone` end at `now` for this reason; every other session is as it was. */
  ghost predicate SessionsEnd(
      a: map<SessionId, Session>, b: map<SessionId, Session>, gone: set<SessionId>, reason: RevocationReason,
      now: Time) {
    forall s :: s in a ==>
      s in b && b[s] == if s in gone then a[s].(revokedAt := Some(now), reason := Some(reason)) else a[s]
  }

  /** The tokens of the sessions `of` end at `now`, unless they were revoked before; every other token is as it was. */
  ghost predicate TokensEnd(
      a: map<TokenId, RefreshToken>, b: map<TokenId, RefreshToken>, of: set<SessionId>, now: Time) {
    forall k :: k in a ==>
      k in b && b[k] == if a[k].sessionId in of && a[k].revokedAt.None? then a[k].(revokedAt := Some(now)) else a[k]
  }

  /** The sessions `gone` end, with their tokens, and the rest of the database is as it was, but for the events. */
  ghost predicate Ends(before: Db, after: Db, gone: set<SessionId>, reason: RevocationReason, now: Time) {
    && SessionsEnd(before.sessions, after.sessions, gone, reason, now)
    && TokensEnd(before.tokens, after.tokens, gone, now)
    && after.sessions.Keys == before.sessions.Keys && after.tokens.Keys == before.tokens.Keys
    && after == before.(sessions := after.sessions, tokens := after.tokens, events := after.events)
  }

  /** The row of a token minted at `now` for a session that ends at `sessionEnd`. */
  predicate IsMinted(cfg: SessionConfig, row: RefreshToken, sid: SessionId, sessionEnd: Time, now: Time) {
    && row.sessionId == sid && row.createdAt == now && row.usedAt.None? && row.revokedAt.None?
    && row.expiresAt <= sessionEnd && row.expiresAt <= now + cfg.refreshTtlSeconds * 1000
    && (row.expiresAt == sessionEnd || row.expiresAt == now + cfg.refreshTtlSeconds * 1000)
  }

  // ----- logout -----

  /** Logout ends one session, if it was not over, and records that. */
  lemma LogoutRows(db: Db, sid: SessionId, now: Time)
    ensures var db' := Logout(db, sid, now);
      if sid in db.sessions && db.sessions[sid].revokedAt.None? then
        && Ends(db, db', {sid}, LOGOUT, now)
        && db'.events == db.events + [AuthEvent(LOGOUT_EVENT, db.sessions[sid].userId, Some(sid))]
      else db' == db
  {
  }

  /** The sessions of the user that are not over. */
  function SessionsOf(db: Db, user: UserId): set<SessionId> {
    set s | s in db.sessions && db.sessions[s].userId == user && db.sessions[s].revokedAt.None?
  }

  lemma UserSelection(db: Db, user: UserId)
    ensures Selected(db.sessions, ByUser(user)) == SessionsOf(db, user)
  {
  }

  /** Logout-all ends every session of the user that was not over, and records that once, if there was one. */
  lemma LogoutAllRows(db: Db, user: UserId, initiating: Option<SessionId>, now: Time)
    ensures var db' := LogoutAll(db, user, initiating, now);
      if SessionsOf(db, user) != {} then
        Ends(db, db', SessionsOf(db, user), LOGOUT_ALL, now)
        && db'.events == db.events + [AuthEvent(LOGOUT_ALL_EVENT, user, initiating)]
      else db' == db
  {
    UserSelection(db, user);
  }

  // ----- rotation -----

  /** Which answer a rotation gives, in the order in which the rows are looked at. */
  lemma RotationAnswers(cfg: SessionConfig, db: Db, k: TokenId, child: TokenId, now: Time)
    requires IsKnown(db, k)
    ensures var v := Rotate(cfg, db, k, child, now).1; var tok := db.tokens[k]; var ses := db.sessions[tok.sessionId];
      var running := ses.revokedAt.None? && now < ses.expiresAt;
      var trusted := running && db.users[ses.userId].status == ACTIVE;
      && (v == Rejected(SessionRevoked) <==> ses.revokedAt.Some?)
      && (v == Rejected(SessionExpired) <==> ses.revokedAt.None? && ses.expiresAt <= now)
      && (v == Rejected(UserNotActive) <==> running && db.users[ses.userId].status != ACTIVE)
      && (v == Rejected(TokenRevoked) <==> trusted && tok.revokedAt.Some?)
      && (v == Rejected(TokenExpired) <==> trusted && tok.revokedAt.None? && tok.expiresAt <= now)
  {
  }

  /** A known token of a session past its lifetime sweeps the session, unless it is over already. */
  lemma ExpiredSessionsAreSwept(cfg: SessionConfig, db: Db, k: TokenId, child: TokenId, now: Time)
    requires IsKnown(db, k)
    requires db.sessions[db.tokens[k].sessionId].revokedAt.None? && db.sessions[db.tokens[k].sessionId].expiresAt <= now
    ensures var (db', v) := Rotate(cfg, db, k, child, now);
      && v == Rejected(SessionExpired) && Ends(db, db', {db.tokens[k].sessionId}, EXPIRED, now)
      && db'.events == db.events
  {
  }

  /** The sessions with the user and the family of `stolen` that are not over. */
  function FamilyOf(db: Db, stolen: Session): set<SessionId> {
    set s | s in db.sessions && db.sessions[s].userId == stolen.userId && db.sessions[s].familyId == stolen.familyId
            && db.sessions[s].revokedAt.None?
  }

  lemma FamilySelection(db: Db, stolen: Session)
    ensures Selected(db.sessions, ByFamily(stolen.userId, stolen.familyId)) == FamilyOf(db, stolen)
  {
  }

  /**
   * Detected theft ends the sessions of the same user and family that were not over, and no other, and leaves
   * no token of theirs that is ever usable again.
   */
  lemma ReuseRevokesTheFamily(cfg: SessionConfig, db: Db, k: TokenId, child: TokenId, now: Time)
    requires Rotate(cfg, db, k, child, now).1 == Rejected(TokenReuse)
    ensures k in db.tokens && db.tokens[k].sessionId in db.sessions
    ensures var db' := Rotate(cfg, db, k, child, now).0;
      var family := FamilyOf(db, db.sessions[db.tokens[k].sessionId]);
      && db.tokens[k].sessionId in family && Ends(db, db', family, TOKEN_REUSE, now)
      && (forall o, at :: o in db.tokens && db.tokens[o].sessionId in family ==> !IsUsableToken(db', o, at))
  {
    FamilySelection(db, db.sessions[db.tokens[k].sessionId]);
  }

  /** The child of an accepted rotation, and that nothing but the sessions, tokens and events is written. */
  lemma RotatedRows(cfg: SessionConfig, db: Db, k: TokenId, child: TokenId, now: Time)
    requires child !in db.tokens && Rotate(cfg, db, k, child, now).1.Rotated?
    ensures var db' := Rotate(cfg, db, k, child, now).0;
      && k in db.tokens && db.tokens[k].sessionId in db.sessions && child in db'.tokens
      && IsMinted(cfg, db'.tokens[child], db.tokens[k].sessionId, db.sessions[db.tokens[k].sessionId].expiresAt, now)
      && db' == db.(sessions := db'.sessions, tokens := db'.tokens, events := db'.events)
  {
  }

  // ----- login -----

  /** The head of the listing that a login has to end to make room for one more session. */
  function Surplus(cfg: SessionConfig, order: seq<SessionId>): set<SessionId> {
    set i | 0 <= i < |order| && i <= |order| - cfg.maxActivePerUser :: order[i]
  }

  lemma SurplusIsEvicted(cfg: SessionConfig, db: Db, user: UserId, order: seq<SessionId>, now: Time)
    requires cfg.Valid() && IsLruListing(db.sessions, ActiveSessions(db.sessions, user, now), order)
    ensures Evicted(order, cfg) == Surplus(cfg, order)
    ensures Selected(db.sessions, Among(Evicted(order, cfg))) == Surplus(cfg, order)
  {
    assert Evicted(order, cfg) == Surplus(cfg, order);
    assert Evicted(order, cfg) <= ActiveSessions(db.sessions, user, now);
  }

  lemma EvictRows(cfg: SessionConfig, db: Db, user: UserId, order: seq<SessionId>, now: Time)
    requires cfg.Valid() && IsLruListing(db.sessions, ActiveSessions(db.sessions, user, now), order)
    ensures var db' := Evict(cfg, db, user, order, now); var gone := Surplus(cfg, order);
      && Ends(db, db', gone, SESSION_LIMIT, now)
      && db'.events == db.events + if gone == {} then [] else [AuthEvent(SESSION_REVOKED, user, None)]
  {
    SurplusIsEvicted(cfg, db, user, order, now);
  }

  /** What a login writes: it ends the surplus, and adds its session, its token and its events. */
  ghost predicate LoginWrites(
      cfg: SessionConfig, before: Db, after: Db, user: UserId, gone: set<SessionId>, sid: SessionId, family: FamilyId,
      tid: TokenId, now: Time) {
    && SessionsEnd(before.sessions, after.sessions, gone, SESSION_LIMIT, now)
    && TokensEnd(before.tokens, after.tokens, gone, now)
    && after.sessions.Keys == before.sessions.Keys + {sid} && after.tokens.Keys == before.tokens.Keys + {tid}
    && after.sessions[sid] == Session(user, family, now, now, now + cfg.absoluteTtlSeconds * 1000, None, None)
    && IsMinted(cfg, after.tokens[tid], sid, now + cfg.absoluteTtlSeconds * 1000, now)
    && after.events == before.events + (if gone == {} then [] else [AuthEvent(SESSION_REVOKED, user, None)])
                       + [AuthEvent(LOGIN_SUCCESS, user, Some(sid))]
    && after == before.(sessions := after.sessions, tokens := after.tokens, events := after.events)
  }

  lemma LoginRows(
      cfg: SessionConfig, db: Db, user: UserId, order: seq<SessionId>, sid: SessionId, family: FamilyId, tid: TokenId,
      now: Time)
    requires cfg.Valid() && sid !in db.sessions && tid !in db.tokens
    requires IsLruListing(db.sessions, ActiveSessions(db.sessions, user, now), order)
    ensures LoginWrites(cfg, db, CreateSession(cfg, db, user, order, sid, family, tid, now), user, Surplus(cfg, order),
                        sid, family, tid, now)
  {
    EvictRows(cfg, db, user, order, now);
    LoginInserts(cfg, db, user, order, sid, family, tid, now);
  }

  /** What a login counts and may end: the sessions of the user that are neither over nor expired, and no other. */
  lemma RunningSessionsAreListed(db: Db, user: UserId, order: seq<SessionId>, now: Time, s: SessionId)
    requires IsLruListing(db.sessions, ActiveSessions(db.sessions, user, now), order)
    ensures s in order <==> s in db.sessions && db.sessions[s].userId == user && db.sessions[s].revokedAt.None?
                            && now < db.sessions[s].expiresAt
  {
  }
}
