/** What the session transactions mean when no other transaction overlaps them. */
module SessionLaws {
  import opened AuthModel
  import opened AuthDb

  /** The sessions that are revoked in `after` and were live rows in `before`. */
  function NewlyRevoked(before: Db, after: Db): set<SessionId> {
    set s | s in after.sessions && after.sessions[s].revokedAt.Some?
            && s in before.sessions && before.sessions[s].revokedAt.None?
  }

  /** A refresh token that a rotation would still take: it and its session unrevoked and unexpired. */
  predicate IsUsableToken(db: Db, k: TokenId, at: Time) {
    && k in db.tokens && db.tokens[k].revokedAt.None? && db.tokens[k].expiresAt > at
    && db.tokens[k].sessionId in db.sessions
    && db.sessions[db.tokens[k].sessionId].revokedAt.None? && db.sessions[db.tokens[k].sessionId].expiresAt > at
  }

  /** Nothing but the presented token itself can make a rotation in this session fail. */
  predicate CanRefresh(db: Db, sid: SessionId, at: Time) {
    && sid in db.sessions && db.sessions[sid].revokedAt.None? && db.sessions[sid].expiresAt > at
    && db.sessions[sid].userId in db.users && db.users[db.sessions[sid].userId].status == ACTIVE
  }

  /** As long as the session lives, `tid` is accepted, as a first use, exactly before `end`. */
  ghost predicate RotatesUntil(cfg: SessionConfig, db: Db, sid: SessionId, tid: TokenId, end: Time) {
    forall child, at :: CanRefresh(db, sid, at) ==>
      (Rotate(cfg, db, tid, child, at).1 == Rotated(sid, child, false) <==> at < end)
  }

  /** As long as the session lives, every token of it but `tid` is refused as revoked, whenever it is presented. */
  ghost predicate OthersAreRefused(cfg: SessionConfig, db: Db, sid: SessionId, tid: TokenId) {
    forall k, child, at :: k in db.tokens && k != tid && db.tokens[k].sessionId == sid && CanRefresh(db, sid, at) ==>
      Rotate(cfg, db, k, child, at).1 == Rejected(TokenRevoked)
  }

  /** No token of `ids` is left unrevoked; a token revoked before keeps its time, and no other token changes. */
  ghost predicate LeavesNoLiveToken(before: Db, after: Db, ids: set<SessionId>) {
    && after == before.(tokens := after.tokens) && after.tokens.Keys == before.tokens.Keys
    && (forall k :: k in before.tokens ==>
        TokenLater(before.tokens[k], after.tokens[k]) && after.tokens[k].usedAt == before.tokens[k].usedAt)
    && (forall k :: k in after.tokens && after.tokens[k].sessionId in ids ==> after.tokens[k].revokedAt.Some?)
    && (forall k :: k in before.tokens && before.tokens[k].sessionId !in ids ==> after.tokens[k] == before.tokens[k])
  }

  /**
   * A revocation ends exactly the still-active sessions that match, with this time and reason, and
   * leaves no unrevoked token of theirs; a session revoked earlier keeps its first timestamp, and
   * nothing else in the database changes.
   */
  lemma RevocationIsExact(db: Db, w: Where, reason: RevocationReason, now: Time)
    ensures var db' := RevokeSessions(db, w, reason, now);
      && NewlyRevoked(db, db') == Selected(db.sessions, w)
      && (forall s :: s in db.sessions && Matches(w, s, db.sessions[s])
            ==> s in db'.sessions && db'.sessions[s].revokedAt.Some?)
      && (forall s :: s in NewlyRevoked(db, db')
            ==> db'.sessions[s] == db.sessions[s].(revokedAt := Some(now), reason := Some(reason)))
      && (forall s :: s in db.sessions && s !in NewlyRevoked(db, db') ==>
          s in db'.sessions && db'.sessions[s] == db.sessions[s])
      && (forall k :: k in db'.tokens && db'.tokens[k].sessionId in NewlyRevoked(db, db')
            ==> db'.tokens[k].revokedAt.Some?)
      && (forall k :: k in db.tokens && db.tokens[k].sessionId !in NewlyRevoked(db, db')
            ==> k in db'.tokens && db'.tokens[k] == db.tokens[k])
      && db'.sessions.Keys == db.sessions.Keys && db'.tokens.Keys == db.tokens.Keys
      && db' == db.(sessions := db'.sessions, tokens := db'.tokens)
  {
  }

  /** A revocation that selects nothing writes nothing. */
  lemma EmptyRevocationWritesNothing(db: Db, w: Where, reason: RevocationReason, now: Time)
    requires Selected(db.sessions, w) == {}
    ensures RevokeSessions(db, w, reason, now) == db
  {
    assert MarkRevoked(db.sessions, {}, reason, now) == db.sessions;
    assert Retire(db.tokens, {}, now) == db.tokens;
  }

  lemma {:induction false} ListingSize(order: seq<SessionId>, ids: set<SessionId>)
    requires forall i :: 0 <= i < |order| ==> order[i] in ids
    requires forall s :: s in ids ==> s in order
    requires forall i, j :: 0 <= i < j < |order| ==> order[i] != order[j]
    ensures |order| == |ids|
  {
    if order == [] {
      assert ids == {};
    } else {
      var last := |order| - 1;
      forall s | s in ids - {order[last]} ensures s in order[..last] {
        var i :| 0 <= i < |order| && order[i] == s;
        assert order[..last][i] == s;
      }
      ListingSize(order[..last], ids - {order[last]});
    }
  }

  /** The sessions evicted are the first of the list: no survivor was used before any of them. */
  lemma EvictedAreTheOldest(
      cfg: SessionConfig, sessions: map<SessionId, Session>, ids: set<SessionId>, order: seq<SessionId>,
      gone: SessionId, kept: SessionId)
    requires cfg.Valid() && IsLruListing(sessions, ids, order)
    requires gone in Evicted(order, cfg) && kept in ids && kept !in Evicted(order, cfg)
    ensures gone in ids && gone in sessions && kept in sessions
    ensures sessions[gone].lastUsedAt <= sessions[kept].lastUsedAt
  {
    var i :| 0 <= i < EvictCount(|order|, cfg) && order[i] == gone;
    var j :| 0 <= j < |order| && order[j] == kept;
    assert i < j;
  }

  lemma {:induction false} EvictedSize(order: seq<SessionId>, n: nat)
    requires n <= |order| && forall i, j :: 0 <= i < j < |order| ==> order[i] != order[j]
    ensures |set i | 0 <= i < n :: order[i]| == n
  {
    if n > 0 {
      EvictedSize(order, n - 1);
      assert (set i | 0 <= i < n :: order[i]) == (set i | 0 <= i < n - 1 :: order[i]) + {order[n - 1]};
    }
  }

  lemma EvictKeepsTheRest(cfg: SessionConfig, db: Db, user: UserId, order: seq<SessionId>, now: Time)
    requires cfg.Valid() && IsLruListing(db.sessions, ActiveSessions(db.sessions, user, now), order)
    ensures ActiveSessions(Evict(cfg, db, user, order, now).sessions, user, now)
              == ActiveSessions(db.sessions, user, now) - Evicted(order, cfg)
    ensures NewlyRevoked(db, Evict(cfg, db, user, order, now)) == Evicted(order, cfg)
  {
    var evicted := Evicted(order, cfg);
    RevocationIsExact(db, Among(evicted), SESSION_LIMIT, now);
    assert evicted <= ActiveSessions(db.sessions, user, now);
    assert Selected(db.sessions, Among(evicted)) == evicted;
  }

  lemma LoginActives(
      cfg: SessionConfig, db: Db, user: UserId, order: seq<SessionId>, sid: SessionId, family: FamilyId, tid: TokenId,
      now: Time)
    requires cfg.Valid() && sid !in db.sessions
    requires IsLruListing(db.sessions, ActiveSessions(db.sessions, user, now), order)
    ensures ActiveSessions(CreateSession(cfg, db, user, order, sid, family, tid, now).sessions, user, now)
              == ActiveSessions(db.sessions, user, now) - Evicted(order, cfg) + {sid}
    ensures NewlyRevoked(db, CreateSession(cfg, db, user, order, sid, family, tid, now)) == Evicted(order, cfg)
  {
    EvictKeepsTheRest(cfg, db, user, order, now);
  }

  lemma RoomIsExact(
      cfg: SessionConfig, sessions: map<SessionId, Session>, before: set<SessionId>, order: seq<SessionId>,
      sid: SessionId)
    requires cfg.Valid() && IsLruListing(sessions, before, order) && sid !in before
    ensures Evicted(order, cfg) <= before
    ensures |before - Evicted(order, cfg) + {sid}| == if |before| < cfg.maxActivePerUser then |before| + 1
      else cfg.maxActivePerUser
  {
    ListingSize(order, before);
    EvictedSize(order, EvictCount(|order|, cfg));
    assert |before - Evicted(order, cfg)| == |before| - |Evicted(order, cfg)|;
  }

  /** A login replaces what it evicts by its own session. */
  ghost predicate Swaps(before: set<SessionId>, after: set<SessionId>, evicted: set<SessionId>, sid: SessionId) {
    evicted <= before && sid !in before && after == before - evicted + {sid}
  }

  lemma LoginSwaps(
      cfg: SessionConfig, db: Db, user: UserId, order: seq<SessionId>, sid: SessionId, family: FamilyId, tid: TokenId,
      now: Time)
    requires cfg.Valid() && sid !in db.sessions
    requires IsLruListing(db.sessions, ActiveSessions(db.sessions, user, now), order)
    ensures var db' := CreateSession(cfg, db, user, order, sid, family, tid, now);
      && NewlyRevoked(db, db') == Evicted(order, cfg)
      && Swaps(ActiveSessions(db.sessions, user, now), ActiveSessions(db'.sessions, user, now), Evicted(order, cfg),
               sid)
  {
    LoginActives(cfg, db, user, order, sid, family, tid, now);
    EvictedWereListed(cfg, db.sessions, ActiveSessions(db.sessions, user, now), order);
  }

  lemma EvictedWereListed(
      cfg: SessionConfig, sessions: map<SessionId, Session>, ids: set<SessionId>, order: seq<SessionId>)
    requires cfg.Valid() && IsLruListing(sessions, ids, order)
    ensures Evicted(order, cfg) <= ids
  {
  }

  lemma SwapSize(
      cfg: SessionConfig, sessions: map<SessionId, Session>, before: set<SessionId>, after: set<SessionId>,
      order: seq<SessionId>, sid: SessionId)
    requires cfg.Valid() && IsLruListing(sessions, before, order) && Swaps(before, after, Evicted(order, cfg), sid)
    ensures sid in after && after - {sid} <= before && before - after == Evicted(order, cfg)
    ensures |after| == if |before| < cfg.maxActivePerUser then |before| + 1 else cfg.maxActivePerUser
  {
    RoomIsExact(cfg, sessions, before, order, sid);
  }

  /**
   * Logins that do not overlap keep the cap exactly: a login leaves at most maxActivePerUser
   * sessions active, its own among them, and evicts no more than it must.
   */
  lemma LoginKeepsTheCap(
      cfg: SessionConfig, db: Db, user: UserId, order: seq<SessionId>, sid: SessionId, family: FamilyId, tid: TokenId,
      now: Time)
    requires cfg.Valid() && sid !in db.sessions
    requires IsLruListing(db.sessions, ActiveSessions(db.sessions, user, now), order)
    ensures var db' := CreateSession(cfg, db, user, order, sid, family, tid, now);
      var before := ActiveSessions(db.sessions, user, now); var after := ActiveSessions(db'.sessions, user, now);
      && sid in after && after - {sid} <= before && before - after == NewlyRevoked(db, db')
      && |after| == (if |before| < cfg.maxActivePerUser then |before| + 1 else cfg.maxActivePerUser)
  {
    LoginSwaps(cfg, db, user, order, sid, family, tid, now);
    var db' := CreateSession(cfg, db, user, order, sid, family, tid, now);
    SwapSize(cfg, db.sessions, ActiveSessions(db.sessions, user, now), ActiveSessions(db'.sessions, user, now), order,
             sid);
  }

  /** A login evicts the least recently used: what it takes was used no later than anything it leaves. */
  lemma LoginEvictsTheOldest(
      cfg: SessionConfig, db: Db, user: UserId, order: seq<SessionId>, sid: SessionId, family: FamilyId, tid: TokenId,
      now: Time, gone: SessionId, kept: SessionId)
    requires cfg.Valid() && sid !in db.sessions
    requires IsLruListing(db.sessions, ActiveSessions(db.sessions, user, now), order)
    requires gone in NewlyRevoked(db, CreateSession(cfg, db, user, order, sid, family, tid, now))
    requires kept in ActiveSessions(db.sessions, user, now)
    requires kept in ActiveSessions(CreateSession(cfg, db, user, order, sid, family, tid, now).sessions, user, now)
    ensures gone in db.sessions && db.sessions[gone].lastUsedAt <= db.sessions[kept].lastUsedAt
  {
    LoginActives(cfg, db, user, order, sid, family, tid, now);
    EvictedAreTheOldest(cfg, db.sessions, ActiveSessions(db.sessions, user, now), order, gone, kept);
  }

  /** The stored token, its session and its user's row all exist. */
  predicate IsKnown(db: Db, k: TokenId) {
    && k in db.tokens && db.tokens[k].sessionId in db.sessions
    && db.sessions[db.tokens[k].sessionId].userId in db.users
  }

  /** Consumed, and no longer explained by a double submit. */
  predicate IsStale(row: RefreshToken, now: Time, graceSeconds: nat) {
    row.usedAt.Some? && row.usedAt.value + graceSeconds * 1000 < now
  }

  /** When a rotation succeeds, when it raises the theft alarm, and that it does neither otherwise. */
  lemma RotationVerdicts(cfg: SessionConfig, db: Db, k: TokenId, child: TokenId, now: Time)
    ensures var v := Rotate(cfg, db, k, child, now).1;
      var live := IsKnown(db, k) && IsUsableToken(db, k, now)
                  && db.users[db.sessions[db.tokens[k].sessionId].userId].status == ACTIVE;
      && (v == Rejected(TokenNotFound) <==> !IsKnown(db, k))
      && (v.Rotated? <==> live && !IsStale(db.tokens[k], now, cfg.graceSeconds))
      && (v == Rejected(TokenReuse) <==> live && IsStale(db.tokens[k], now, cfg.graceSeconds))
      && (v.Rotated? ==> v == Rotated(db.tokens[k].sessionId, child, db.tokens[k].usedAt.Some?))
  {
  }

  /**
   * An accepted rotation consumes the presented token once and for all, leaves a usable child
   * in the same session, revokes nothing and changes no other token.
   */
  lemma RotationConsumesOnce(cfg: SessionConfig, db: Db, k: TokenId, child: TokenId, now: Time)
    requires cfg.Valid() && child !in db.tokens && Rotate(cfg, db, k, child, now).1.Rotated?
    ensures var db' := Rotate(cfg, db, k, child, now).0;
      && k in db.tokens && db.tokens[k].sessionId in db.sessions && k in db'.tokens && child in db'.tokens
      && db'.tokens[k] == db.tokens[k].(usedAt := if db.tokens[k].usedAt.Some? then db.tokens[k].usedAt else Some(now))
      && db'.tokens[child].sessionId == db.tokens[k].sessionId && db'.tokens[child].usedAt.None?
      && IsUsableToken(db', child, now)
      && (forall o :: o in db.tokens && o != k ==> o in db'.tokens && db'.tokens[o] == db.tokens[o])
      && db'.tokens.Keys == db.tokens.Keys + {child}
      && db'.sessions == db.sessions[db.tokens[k].sessionId := db.sessions[db.tokens[k].sessionId].(lastUsedAt := now)]
      && NewlyRevoked(db, db') == {}
  {
  }

  lemma EvictKeepsTables(cfg: SessionConfig, db: Db, user: UserId, order: seq<SessionId>, now: Time)
    requires cfg.Valid()
    ensures var db' := Evict(cfg, db, user, order, now);
      && db'.sessions.Keys == db.sessions.Keys && db'.tokens.Keys == db.tokens.Keys
      && (forall k :: k in db.tokens && db.tokens[k].sessionId !in Evicted(order, cfg) ==>
          db'.tokens[k] == db.tokens[k])
  {
    RevocationIsExact(db, Among(Evicted(order, cfg)), SESSION_LIMIT, now);
  }

  /** The two rows a login inserts. */
  lemma LoginInserts(
      cfg: SessionConfig, db: Db, user: UserId, order: seq<SessionId>, sid: SessionId, family: FamilyId, tid: TokenId,
      now: Time)
    requires cfg.Valid()
    ensures var db' := CreateSession(cfg, db, user, order, sid, family, tid, now);
      var evicted := Evict(cfg, db, user, order, now); var row := NewSession(user, family, now, cfg);
      && db'.sessions == evicted.sessions[sid := row]
      && db'.tokens == evicted.tokens[tid := NewRefreshToken(sid, row.expiresAt, now, cfg)]
  {
  }

  /** A fresh token of a fresh session is usable until the earlier of the two expiries. */
  lemma FreshTokenIsUsable(
      cfg: SessionConfig, db: Db, user: UserId, sid: SessionId, family: FamilyId, tid: TokenId, now: Time, at: Time)
    requires sid in db.sessions && db.sessions[sid] == NewSession(user, family, now, cfg)
    requires tid in db.tokens && db.tokens[tid] == NewRefreshToken(sid, db.sessions[sid].expiresAt, now, cfg)
    ensures IsUsableToken(db, tid, at) <==>
      at < now + cfg.absoluteTtlSeconds * MS_PER_SECOND && at < now + cfg.refreshTtlSeconds * MS_PER_SECOND
  {
  }

  /**
   * A login issues one session and one token for it: the session runs for absoluteTtl, the token is
   * usable from now until the earlier of its own and the session's expiry, and no other token changes
   * unless its session was evicted.
   */
  lemma LoginIssuesOneSession(
      cfg: SessionConfig, db: Db, user: UserId, order: seq<SessionId>, sid: SessionId, family: FamilyId, tid: TokenId,
      now: Time, at: Time)
    requires cfg.Valid() && sid !in db.sessions && tid !in db.tokens
    ensures var db' := CreateSession(cfg, db, user, order, sid, family, tid, now);
      && db'.sessions.Keys == db.sessions.Keys + {sid} && db'.tokens.Keys == db.tokens.Keys + {tid}
      && db'.sessions[sid] == Session(user, family, now, now, now + cfg.absoluteTtlSeconds * MS_PER_SECOND, None, None)
      && db'.tokens[tid].sessionId == sid && db'.tokens[tid].usedAt.None?
      && (now <= at ==>
            (IsUsableToken(db', tid, at) <==> at < now + cfg.absoluteTtlSeconds * MS_PER_SECOND
                                              && at < now + cfg.refreshTtlSeconds * MS_PER_SECOND))
      && (forall k :: k in db.tokens && db.tokens[k].sessionId !in Evicted(order, cfg) ==>
          db'.tokens[k] == db.tokens[k])
  {
    EvictKeepsTables(cfg, db, user, order, now);
    LoginInserts(cfg, db, user, order, sid, family, tid, now);
    FreshTokenIsUsable(cfg, CreateSession(cfg, db, user, order, sid, family, tid, now), user, sid, family, tid, now,
                       at);
  }

  /** Logout ends exactly the one session, and doing it again at any later time changes nothing. */
  lemma LogoutIsIdempotent(db: Db, sid: SessionId, now: Time, later: Time)
    ensures var db' := Logout(db, sid, now);
      && Logout(db', sid, later) == db'
      && (sid in db.sessions ==> sid in db'.sessions && db'.sessions[sid].revokedAt.Some?)
      && (forall s :: s in db.sessions && s != sid ==> s in db'.sessions && db'.sessions[s] == db.sessions[s])
      && (db' != db ==> db'.events == db.events + [AuthEvent(LOGOUT_EVENT, db.sessions[sid].userId, Some(sid))])
  {
    RevocationIsExact(db, ById(sid), LOGOUT, now);
  }

  /** Logout-all leaves the user no unrevoked session, and other users all of theirs. */
  lemma LogoutAllEndsEverySession(db: Db, user: UserId, initiating: Option<SessionId>, now: Time, s: SessionId)
    requires s in db.sessions
    ensures var db' := LogoutAll(db, user, initiating, now);
      && s in db'.sessions
      && (if db.sessions[s].userId == user then db'.sessions[s].revokedAt.Some? else db'.sessions[s] == db.sessions[s])
  {
    RevocationIsExact(db, ByUser(user), LOGOUT_ALL, now);
  }

  /** The audit trail of rotations: a refresh is recorded exactly when accepted, theft exactly when detected. */
  lemma RotationIsRecorded(cfg: SessionConfig, db: Db, k: TokenId, child: TokenId, now: Time)
    ensures var (db', v) := Rotate(cfg, db, k, child, now);
      if v.Rotated? then
        db'.events == db.events + [AuthEvent(TOKEN_REFRESH, db.sessions[v.session].userId, Some(v.session))]
      else if v == Rejected(TokenReuse) then
        && k in db.tokens && db.tokens[k].sessionId in db.sessions
        && db'.events == db.events + [AuthEvent(TOKEN_REUSE_DETECTED, db.sessions[db.tokens[k].sessionId].userId,
                                                Some(db.tokens[k].sessionId))]
      else db'.events == db.events
  {
  }

  /** A refused rotation mints and consumes nothing; it writes only to sweep a session past its lifetime. */
  lemma RefusalWritesOnlyTheSweep(cfg: SessionConfig, db: Db, k: TokenId, child: TokenId, now: Time)
    requires Rotate(cfg, db, k, child, now).1.Rejected?
    ensures var (db', v) := Rotate(cfg, db, k, child, now);
      && db'.tokens.Keys == db.tokens.Keys
      && (forall o :: o in db.tokens ==> db'.tokens[o].usedAt == db.tokens[o].usedAt)
      && (v != Rejected(TokenReuse) && v != Rejected(SessionExpired) ==> db' == db)
      && (v == Rejected(SessionExpired) ==>
            && k in db.tokens && NewlyRevoked(db, db') == {db.tokens[k].sessionId}
            && db.sessions[db.tokens[k].sessionId].expiresAt <= now)
  {
  }
}
