/**
 * The session service, statement by statement, when no other transaction runs between its statements.
 * ReadCommitted has the same statements interleaved, with the branches that only a rival can reach.
 */
module SessionService {
  import opened AuthModel
  import opened AuthDb
  import opened SessionLaws
  import opened UnitOfWork
  import opened SessionRows

  datatype IssuedSession = IssuedSession(sid: SessionId, family: FamilyId, token: TokenId, tokenExpiresAt: Time)

  class SessionService {
    const cfg: SessionConfig
    const database: Database
    const denylist: SessionDenylist

    constructor (cfg: SessionConfig, database: Database, denylist: SessionDenylist)
      ensures this.cfg == cfg && this.database == database && this.denylist == denylist
    {
      this.cfg, this.database, this.denylist := cfg, database, denylist;
    }

    /** `active` is what the database returns for the user's active sessions, least recently used first. */
    method CreateSession(
        user: UserId, active: seq<SessionId>, sid: SessionId, family: FamilyId, tid: TokenId, now: Time, fate: Fate)
      returns (issued: Option<IssuedSession>)
      requires cfg.Valid() && sid !in database.state.sessions
      requires IsLruListing(database.state.sessions, ActiveSessions(database.state.sessions, user, now), active)
      modifies database, denylist
      ensures Ended(database, denylist,
                    AuthDb.CreateSession(cfg, old(database.state), user, active, sid, family, tid, now), fate)
      ensures issued == if !fate.commits then None
                        else Some(IssuedSession(sid, family, tid, database.state.tokens[tid].expiresAt))
    {
      var uow := new Work(database, denylist);
      var expiresAt := CreateWithin(uow, user, active, sid, family, tid, now);
      uow.Complete(fate);
      issued := if fate.commits then Some(IssuedSession(sid, family, tid, expiresAt)) else None;
    }

    /** The body of the unit of work. */
    method CreateWithin(
        uow: Work, user: UserId, active: seq<SessionId>, sid: SessionId, family: FamilyId, tid: TokenId, now: Time)
      returns (expiresAt: Time)
      requires cfg.Valid() && sid !in database.state.sessions && uow.database == database && uow.effects == []
      requires IsLruListing(database.state.sessions, ActiveSessions(database.state.sessions, user, now), active)
      modifies database, uow`effects
      ensures database.state == AuthDb.CreateSession(cfg, old(database.state), user, active, sid, family, tid, now)
      ensures expiresAt == database.state.tokens[tid].expiresAt
      ensures Queued(uow.effects) == NewlyRevoked(old(database.state), database.state)
    {
      LoginActives(cfg, database.state, user, active, sid, family, tid, now);
      EvictSelects(cfg, database.state, user, active, now);
      EvictLeastRecentlyUsed(uow, user, active, now);
      var session := NewSession(user, family, now, cfg);
      database.state := database.state.(sessions := database.state.sessions[sid := session]);
      expiresAt := CreateRefreshToken(sid, session.expiresAt, now, tid);
      database.state := Log(database.state, LOGIN_SUCCESS, user, Some(sid));
    }

    /** Makes room for one more session, if there is none. */
    method EvictLeastRecentlyUsed(uow: Work, user: UserId, active: seq<SessionId>, now: Time)
      requires cfg.Valid() && uow.database == database && uow.effects == []
      requires Selected(database.state.sessions, Among(Evicted(active, cfg))) == Evicted(active, cfg)
      modifies database, uow`effects
      ensures database.state == Evict(cfg, old(database.state), user, active, now)
      ensures Queued(uow.effects) == Evicted(active, cfg)
    {
      ghost var before := database.state;
      var evictCount := |active| - cfg.maxActivePerUser + 1;
      if evictCount <= 0 {
        EvictNothing(cfg, before, user, active, now);
        return;
      }
      EvictedIsAPrefix(active, cfg);
      var ids := RevokeSessions(uow, Among(Elements(active[..evictCount])), SESSION_LIMIT, now);
      if ids == {} {
        EmptyRevocationWritesNothing(before, Among(Evicted(active, cfg)), SESSION_LIMIT, now);
        return;
      }
      database.state := Log(database.state, SESSION_REVOKED, user, None);
      QueuedOne(uow.effects);
    }

    /** The verdict is returned, not thrown, so that the writes of a rejection commit with it. */
    method RotateRefreshToken(k: TokenId, child: TokenId, now: Time, fate: Fate) returns (verdict: Option<Verdict>)
      requires child !in database.state.tokens
      modifies database, denylist
      ensures Ended(database, denylist, Rotate(cfg, old(database.state), k, child, now).0, fate)
      ensures verdict == if fate.commits then Some(Rotate(cfg, old(database.state), k, child, now).1) else None
    {
      var uow := new Work(database, denylist);
      var v := RotateWithin(uow, k, child, now);
      uow.Complete(fate);
      verdict := if fate.commits then Some(v) else None;
    }

    method RotateWithin(uow: Work, k: TokenId, child: TokenId, now: Time) returns (verdict: Verdict)
      requires uow.database == database && uow.effects == [] && child !in database.state.tokens
      modifies database, uow`effects
      ensures (database.state, verdict) == Rotate(cfg, old(database.state), k, child, now)
      ensures |uow.effects| <= 1 && Queued(uow.effects) == NewlyRevoked(old(database.state), database.state)
    {
      var db := database.state;
      NothingRevoked(db, db, uow.effects);
      if k !in db.tokens || db.tokens[k].sessionId !in db.sessions
        || db.sessions[db.tokens[k].sessionId].userId !in db.users {
        return Rejected(TokenNotFound);
      }
      var stored := db.tokens[k];
      var session := db.sessions[stored.sessionId];
      if session.revokedAt.Some? {
        return Rejected(SessionRevoked);
      }
      if session.expiresAt <= now {
        var _ := RevokeSessions(uow, ById(stored.sessionId), EXPIRED, now);
        QueuedOne(uow.effects);
        return Rejected(SessionExpired);
      }
      if db.users[session.userId].status != ACTIVE {
        return Rejected(UserNotActive);
      }
      if stored.revokedAt.Some? {
        return Rejected(TokenRevoked);
      }
      if stored.expiresAt <= now {
        return Rejected(TokenExpired);
      }
      var graceReplay := false;
      if stored.usedAt.Some? {
        if !IsWithinGrace(stored.usedAt.value, now, cfg.graceSeconds) {
          RevokeTokenFamily(uow, stored.sessionId, session, now);
          return Rejected(TokenReuse);
        }
        graceReplay := true;
      } else {
        database.state := db.(tokens := db.tokens[k := stored.(usedAt := Some(now))]);
      }
      var _ := CreateRefreshToken(stored.sessionId, session.expiresAt, now, child);
      database.state := database.state.(
        sessions := database.state.sessions[stored.sessionId := session.(lastUsedAt := now)]);
      database.state := Log(database.state, TOKEN_REFRESH, session.userId, Some(stored.sessionId));
      NothingRevoked(db, database.state, uow.effects);
      return Rotated(stored.sessionId, child, graceReplay);
    }

    method RevokeSession(sid: SessionId, now: Time, fate: Fate)
      modifies database, denylist
      ensures Ended(database, denylist, Logout(old(database.state), sid, now), fate)
    {
      var uow := new Work(database, denylist);
      ghost var before := database.state;
      if sid in database.state.sessions {
        var user := database.state.sessions[sid].userId;
        var ids := RevokeSessions(uow, ById(sid), LOGOUT, now);
        if ids != {} {
          database.state := Log(database.state, LOGOUT_EVENT, user, Some(sid));
        }
      }
      LogoutSelects(before, sid, now);
      QueuedOne(uow.effects);
      uow.Complete(fate);
    }

    /** The token is looked up outside the transaction that revokes its session. */
    method RevokeSessionByRefreshToken(k: TokenId, now: Time, fate: Fate)
      modifies database, denylist
      ensures Ended(database, denylist,
                    if k in old(database.state).tokens
                    then Logout(old(database.state), old(database.state).tokens[k].sessionId, now)
                      else old(database.state), fate)
    {
      if k !in database.state.tokens {
        assert NewlyRevoked(database.state, database.state) == {};
        WritingNothing(denylist.entries, fate.effectsAt + denylist.ttlSeconds * MS_PER_SECOND);
        return;
      }
      RevokeSession(database.state.tokens[k].sessionId, now, fate);
    }

    method RevokeAllSessions(user: UserId, initiating: Option<SessionId>, now: Time, fate: Fate) returns (revoked: nat)
      modifies database, denylist
      ensures Ended(database, denylist, LogoutAll(old(database.state), user, initiating, now), fate)
      ensures revoked == if fate.commits then |NewlyRevoked(old(database.state), database.state)| else 0
    {
      var uow := new Work(database, denylist);
      ghost var before := database.state;
      var ids := RevokeSessions(uow, ByUser(user), LOGOUT_ALL, now);
      if ids != {} {
        database.state := Log(database.state, LOGOUT_ALL_EVENT, user, initiating);
      }
      LogoutAllSelects(before, user, initiating, now);
      QueuedOne(uow.effects);
      uow.Complete(fate);
      revoked := if fate.commits then |ids| else 0;
    }

    /** Every path that ends a session comes through here. The returned ids are exactly those it revoked. */
    method RevokeSessions(uow: Work, where: Where, reason: RevocationReason, now: Time) returns (ids: set<SessionId>)
      requires uow.database == database
      modifies database, uow`effects
      ensures database.state == AuthDb.RevokeSessions(old(database.state), where, reason, now)
      ensures ids == NewlyRevoked(old(database.state), database.state) == Selected(old(database.state).sessions, where)
      ensures uow.effects == if ids == {} then old(uow.effects) else old(uow.effects) + [ids]
    {
      RevocationIsExact(database.state, where, reason, now);
      ids := Selected(database.state.sessions, where);
      if ids == {} {
        EmptyRevocationWritesNothing(database.state, where, reason, now);
        return;
      }
      database.state := database.state.(sessions := MarkRevoked(database.state.sessions, ids, reason, now));
      RetireRefreshTokens(ids, now);
      uow.AfterCommit(ids);
    }

    method ReissueRefreshToken(
        sid: SessionId, sessionExpiresAt: Time, now: Time, tid: TokenId) returns (expiresAt: Time)
      modifies database
      ensures database.state == AuthDb.ReissueRefreshToken(cfg, old(database.state), sid, sessionExpiresAt, now, tid)
      ensures expiresAt == database.state.tokens[tid].expiresAt <= sessionExpiresAt
      ensures RotatesUntil(cfg, database.state, sid, tid, expiresAt)
      ensures OthersAreRefused(cfg, database.state, sid, tid)
    {
      RetireRefreshTokens({sid}, now);
      expiresAt := CreateRefreshToken(sid, sessionExpiresAt, now, tid);
    }

    method CreateRefreshToken(sid: SessionId, sessionExpiresAt: Time, now: Time, tid: TokenId) returns (expiresAt: Time)
      modifies database
      ensures database.state == AddToken(cfg, old(database.state), sid, sessionExpiresAt, now, tid)
      ensures expiresAt == database.state.tokens[tid].expiresAt
      ensures expiresAt <= sessionExpiresAt && expiresAt <= now + cfg.refreshTtlSeconds * MS_PER_SECOND
      ensures expiresAt == sessionExpiresAt || expiresAt == now + cfg.refreshTtlSeconds * MS_PER_SECOND
      ensures RotatesUntil(cfg, database.state, sid, tid, expiresAt)
    {
      expiresAt := RefreshExpiry(now, sessionExpiresAt, cfg);
      var row := RefreshToken(sid, now, expiresAt, None, None);
      database.state := database.state.(tokens := database.state.tokens[tid := row]);
    }

    method RetireRefreshTokens(ids: set<SessionId>, now: Time)
      modifies database
      ensures database.state == old(database.state).(tokens := Retire(old(database.state).tokens, ids, now))
      ensures LeavesNoLiveToken(old(database.state), database.state, ids)
      ensures forall k :: k in database.state.tokens && database.state.tokens[k] != old(database.state).tokens[k] ==>
        database.state.tokens[k].revokedAt == Some(now)
    {
      database.state := database.state.(tokens := Retire(database.state.tokens, ids, now));
    }

    method RevokeTokenFamily(uow: Work, sid: SessionId, session: Session, now: Time)
      requires uow.database == database && uow.effects == []
      modifies database, uow`effects
      ensures database.state ==
                Log(AuthDb.RevokeSessions(old(database.state), ByFamily(session.userId, session.familyId),
                                          TOKEN_REUSE, now),
                    TOKEN_REUSE_DETECTED, session.userId, Some(sid))
      ensures |uow.effects| <= 1 && Queued(uow.effects) == NewlyRevoked(old(database.state), database.state)
      ensures Queued(uow.effects) == FamilyOf(old(database.state), session)
      ensures Ends(old(database.state), database.state, FamilyOf(old(database.state), session), TOKEN_REUSE, now)
    {
      FamilySelection(database.state, session);
      var _ := RevokeSessions(uow, ByFamily(session.userId, session.familyId), TOKEN_REUSE, now);
      database.state := Log(database.state, TOKEN_REUSE_DETECTED, session.userId, Some(sid));
      QueuedOne(uow.effects);
    }
  }

  lemma QueuedOne(effects: seq<set<SessionId>>)
    requires |effects| <= 1
    ensures Queued(effects) == if effects == [] then {} else effects[0]
  {
  }

  lemma NothingRevoked(a: Db, b: Db, effects: seq<set<SessionId>>)
    requires effects == [] && forall s :: s in a.sessions && s in b.sessions ==>
      b.sessions[s].revokedAt == a.sessions[s].revokedAt
    ensures Queued(effects) == NewlyRevoked(a, b)
  {
  }

  lemma WritingNothing(entries: map<SessionId, Time>, until: Time)
    ensures Written(entries, {}, until) == entries
  {
  }

  function Elements(ids: seq<SessionId>): set<SessionId> {
    set s | s in ids
  }

  /** Evicting the first of the list is slicing it. */
  lemma EvictedIsAPrefix(active: seq<SessionId>, cfg: SessionConfig)
    requires cfg.Valid()
    ensures EvictCount(|active|, cfg) <= |active|
    ensures Evicted(active, cfg) == Elements(active[..EvictCount(|active|, cfg)])
  {
    var n := EvictCount(|active|, cfg);
    forall s | s in active[..n] ensures s in Evicted(active, cfg) {
      var i :| 0 <= i < n && active[..n][i] == s;
      assert active[i] == s;
    }
    forall s | s in Evicted(active, cfg) ensures s in active[..n] {
      var i :| 0 <= i < n && active[i] == s;
      assert active[..n][i] == s;
    }
  }

  lemma EvictSelects(cfg: SessionConfig, db: Db, user: UserId, active: seq<SessionId>, now: Time)
    requires cfg.Valid() && IsLruListing(db.sessions, ActiveSessions(db.sessions, user, now), active)
    ensures Selected(db.sessions, Among(Evicted(active, cfg))) == Evicted(active, cfg)
  {
    assert Evicted(active, cfg) <= ActiveSessions(db.sessions, user, now);
  }

  lemma EvictNothing(cfg: SessionConfig, db: Db, user: UserId, active: seq<SessionId>, now: Time)
    requires cfg.Valid() && |active| - cfg.maxActivePerUser + 1 <= 0
    ensures Evict(cfg, db, user, active, now) == db && Evicted(active, cfg) == {}
  {
    assert Selected(db.sessions, Among({})) == {};
  }

  lemma LogoutSelects(db: Db, sid: SessionId, now: Time)
    ensures NewlyRevoked(db, Logout(db, sid, now)) == Selected(db.sessions, ById(sid))
    ensures Selected(db.sessions, ById(sid))
      == (if sid in db.sessions && db.sessions[sid].revokedAt.None? then {sid} else {})
  {
  }

  lemma LogoutAllSelects(db: Db, user: UserId, initiating: Option<SessionId>, now: Time)
    ensures NewlyRevoked(db, LogoutAll(db, user, initiating, now)) == Selected(db.sessions, ByUser(user))
  {
  }
}
