/** Transactions that do not overlap only move the session tables forward, and mint sound tokens. */
module Forward {
  import opened AuthModel
  import opened AuthDb
  import opened Runs

  /** Without overlaps the first revocation is also the only one. */
  predicate SessionKept(a: Session, b: Session) {
    SessionLater(a, b) && (a.revokedAt.Some? ==> b.revokedAt == a.revokedAt && b.reason == a.reason)
  }

  ghost predicate TokenSound(db: Db, k: TokenId)
    requires k in db.tokens
  {
    db.tokens[k].sessionId in db.sessions && db.tokens[k].expiresAt <= db.sessions[db.tokens[k].sessionId].expiresAt
  }

  /** From `a` to `b` no session is lost or revived, and every token is an older one's later version or new. */
  ghost predicate IsForward(a: Db, b: Db, added: set<TokenId>) {
    && (forall s :: s in a.sessions ==> s in b.sessions && SessionKept(a.sessions[s], b.sessions[s]))
    && (forall k :: k in b.tokens ==>
          if k in added then TokenSound(b, k) else k in a.tokens && TokenLater(a.tokens[k], b.tokens[k]))
  }

  lemma Compose(a: Db, b: Db, c: Db, m: set<TokenId>, n: set<TokenId>)
    requires IsForward(a, b, m) && IsForward(b, c, n)
    ensures IsForward(a, c, m + n)
  {
    forall k | k in c.tokens
      ensures if k in m + n then TokenSound(c, k) else k in a.tokens && TokenLater(a.tokens[k], c.tokens[k])
    {
      if k in n {
      } else if k in m {
        assert TokenSound(b, k) && TokenLater(b.tokens[k], c.tokens[k]);
      }
    }
  }

  lemma RevokeIsForward(db: Db, w: Where, reason: RevocationReason, now: Time)
    ensures IsForward(db, RevokeSessions(db, w, reason, now), {})
  {
  }

  lemma AddTokenIsForward(cfg: SessionConfig, db: Db, sid: SessionId, sessionExpiresAt: Time, now: Time, tid: TokenId)
    requires sid in db.sessions && db.sessions[sid].expiresAt == sessionExpiresAt
    ensures IsForward(db, AddToken(cfg, db, sid, sessionExpiresAt, now, tid), {tid})
  {
  }

  lemma SameTablesAreForward(a: Db, b: Db)
    requires b.sessions == a.sessions && b.tokens == a.tokens
    ensures IsForward(a, b, {})
  {
  }

  lemma EvictIsForward(cfg: SessionConfig, db: Db, user: UserId, order: seq<SessionId>, now: Time)
    requires cfg.Valid()
    ensures IsForward(db, Evict(cfg, db, user, order, now), {})
    ensures Evict(cfg, db, user, order, now).sessions.Keys == db.sessions.Keys
  {
    RevokeIsForward(db, Among(Evicted(order, cfg)), SESSION_LIMIT, now);
  }

  lemma InsertIsForward(cfg: SessionConfig, db: Db, sid: SessionId, session: Session, now: Time, tid: TokenId)
    requires sid !in db.sessions
    ensures var inserted := db.(sessions := db.sessions[sid := session]);
      IsForward(db, AddToken(cfg, inserted, sid, session.expiresAt, now, tid), {tid})
  {
  }

  lemma LoginIsForward(
      cfg: SessionConfig, db: Db, user: UserId, order: seq<SessionId>, sid: SessionId, family: FamilyId, tid: TokenId,
      now: Time)
    requires cfg.Valid() && sid !in db.sessions
    ensures IsForward(db, CreateSession(cfg, db, user, order, sid, family, tid, now), {tid})
  {
    var evicted := Evict(cfg, db, user, order, now);
    EvictIsForward(cfg, db, user, order, now);
    var session := NewSession(user, family, now, cfg);
    InsertIsForward(cfg, evicted, sid, session, now, tid);
    var inserted := evicted.(sessions := evicted.sessions[sid := session]);
    Compose(db, evicted, AddToken(cfg, inserted, sid, session.expiresAt, now, tid), {}, {tid});
  }

  lemma MintIsForward(cfg: SessionConfig, db: Db, tok: RefreshToken, child: TokenId, graceReplay: bool, now: Time)
    requires tok.sessionId in db.sessions
    ensures IsForward(db, Mint(cfg, db, tok, child, graceReplay, now).0, {child})
  {
    var session := db.sessions[tok.sessionId];
    var minted := AddToken(cfg, db, tok.sessionId, session.expiresAt, now, child);
    AddTokenIsForward(cfg, db, tok.sessionId, session.expiresAt, now, child);
    var touched := minted.(sessions := minted.sessions[tok.sessionId := session.(lastUsedAt := now)]);
    assert IsForward(minted, touched, {});
    Compose(db, minted, touched, {child}, {});
  }

  lemma ConsumeIsForward(cfg: SessionConfig, db: Db, k: TokenId, child: TokenId, now: Time)
    requires k in db.tokens && db.tokens[k].sessionId in db.sessions && db.tokens[k].usedAt.None?
    ensures var used := db.(tokens := db.tokens[k := db.tokens[k].(usedAt := Some(now))]);
      IsForward(db, Mint(cfg, used, db.tokens[k], child, false, now).0, {child})
  {
    var used := db.(tokens := db.tokens[k := db.tokens[k].(usedAt := Some(now))]);
    MintIsForward(cfg, used, db.tokens[k], child, false, now);
    assert IsForward(db, used, {});
    Compose(db, used, Mint(cfg, used, db.tokens[k], child, false, now).0, {}, {child});
  }

  lemma FamilyIsForward(db: Db, tok: RefreshToken, session: Session, now: Time)
    ensures IsForward(db, AuthDb.RevokeFamily(db, tok, session, now).0, {})
  {
    RevokeIsForward(db, ByFamily(session.userId, session.familyId), TOKEN_REUSE, now);
  }

  /** A step that adds nothing is also forward when something might have been added. */
  lemma Loosen(a: Db, b: Db, added: set<TokenId>)
    requires IsForward(a, b, {}) && added !! a.tokens.Keys
    ensures IsForward(a, b, added)
  {
  }

  lemma RejectionIsForward(db: Db, b: Db, tok: RefreshToken, session: Session, child: TokenId, now: Time)
    requires child !in db.tokens
    requires b == db || b == RevokeSessions(db, ById(tok.sessionId), EXPIRED, now)
             || b == AuthDb.RevokeFamily(db, tok, session, now).0
    ensures IsForward(db, b, {child})
  {
    if b == db {
      SameTablesAreForward(db, b);
    } else if b == RevokeSessions(db, ById(tok.sessionId), EXPIRED, now) {
      RevokeIsForward(db, ById(tok.sessionId), EXPIRED, now);
    } else {
      FamilyIsForward(db, tok, session, now);
    }
    Loosen(db, b, {child});
  }

  lemma RotateIsForward(cfg: SessionConfig, db: Db, k: TokenId, child: TokenId, now: Time)
    requires child !in db.tokens
    ensures IsForward(db, Rotate(cfg, db, k, child, now).0, {child})
  {
    var r := Rotate(cfg, db, k, child, now);
    if r.1.Rotated? {
      if db.tokens[k].usedAt.None? {
        ConsumeIsForward(cfg, db, k, child, now);
      } else {
        MintIsForward(cfg, db, db.tokens[k], child, true, now);
      }
    } else if r.0 == db {
      SameTablesAreForward(db, db);
      Loosen(db, db, {child});
    } else {
      RejectionIsForward(db, r.0, db.tokens[k], db.sessions[db.tokens[k].sessionId], child, now);
    }
  }

  lemma ReplacePasswordIsForward(
      cfg: SessionConfig, db: Db, user: UserId, sid: SessionId, sessionExpiresAt: Time, hash: PasswordHash,
      tid: TokenId, now: Time)
    requires user in db.users && sid in db.sessions && db.sessions[sid].expiresAt == sessionExpiresAt
    ensures IsForward(db, CommitPasswordChange(cfg, db, user, sid, sessionExpiresAt, hash, tid, now), {tid})
  {
    var credential := SetCredential(db, user, Some(hash), now);
    var revoked := RevokeSessions(credential, ByUserExcept(user, sid), PASSWORD_CHANGED, now);
    RevokeIsForward(credential, ByUserExcept(user, sid), PASSWORD_CHANGED, now);
    assert IsForward(db, revoked, {});
    var retired := revoked.(tokens := Retire(revoked.tokens, {sid}, now));
    assert IsForward(revoked, retired, {});
    AddTokenIsForward(cfg, retired, sid, sessionExpiresAt, now, tid);
    Compose(db, revoked, retired, {}, {});
    Compose(db, retired, AddToken(cfg, retired, sid, sessionExpiresAt, now, tid), {} + {}, {tid});
  }

  lemma LinkIsForward(db: Db, p: Profile, now: Time)
    requires p.email in db.emails && db.emails[p.email].userId in db.users
    ensures IsForward(db, LinkToExistingUser(db, p, now), {})
  {
    var user := db.emails[p.email].userId;
    var linked := db.(identities := db.identities[p.identity := user]);
    if !db.emails[p.email].isVerified {
      var verified := linked.(
        emails := linked.emails[p.email := linked.emails[p.email].(isVerified := true, verifiedAt := Some(now))],
        userTokens := ExpireUnused(linked.userTokens, user, now));
      var stripped := if linked.users[user].passwordHash.Some? then SetCredential(verified, user, None, now)
        else verified;
      RevokeIsForward(stripped, ByUser(user), SECURITY, now);
    }
  }

  lemma TransactIsForward(settings: Settings, w: World, op: Op)
    requires settings.Valid() && Admissible(settings, w, op) && w.db.tokens.Keys <= w.minted
    ensures IsForward(w.db, Transact(settings, w.db, op, w.clock), MintedBy(op))
  {
    match op
    case Login(user, order, sid, family, tid) =>
      LoginIsForward(settings.session, w.db, user, order, sid, family, tid, w.clock);
    case Refresh(token, child) => RotateIsForward(settings.session, w.db, token, child, w.clock);
    case ReplacePassword(user, sid, expiresAt, hash, tid, requestedAt) =>
      ReplacePasswordIsForward(settings.session, w.db, user, sid, expiresAt, hash, tid, requestedAt);
    case _ => OtherTransactionsAreForward(settings, w, op);
  }

  lemma LogoutIsForward(db: Db, sid: SessionId, now: Time)
    ensures IsForward(db, Logout(db, sid, now), {})
  {
    RevokeIsForward(db, ById(sid), LOGOUT, now);
  }

  lemma OtherTransactionsAreForward(settings: Settings, w: World, op: Op)
    requires settings.Valid() && MintedBy(op) == {} && !op.Refresh?
    ensures IsForward(w.db, Transact(settings, w.db, op, w.clock), {})
  {
    match op
    case EndSession(sid) => LogoutIsForward(w.db, sid, w.clock);
    case EndByToken(token) =>
      if token in w.db.tokens {
        LogoutIsForward(w.db, w.db.tokens[token].sessionId, w.clock);
      }
    case EndAllSessions(user, _) => RevokeIsForward(w.db, ByUser(user), LOGOUT_ALL, w.clock);
    case SignInExternally(p, newUser) => SignInIsForward(w.db, p, newUser, w.clock);
    case _ => AccountOpsAreForward(settings, w, op);
  }

  lemma SignInIsForward(db: Db, p: Profile, newUser: UserId, now: Time)
    ensures IsForward(db, ResolveIdentity(db, p, newUser, now).0, {})
  {
    if p.identity !in db.identities && p.email in db.emails && db.emails[p.email].userId in db.users {
      LinkIsForward(db, p, now);
    }
  }

  lemma AccountOpsAreForward(settings: Settings, w: World, op: Op)
    requires settings.Valid()
    requires op.SignUp? || op.ResendMail? || op.ConfirmEmail? || op.Administer? || op.Clean? || op.Wait?
    ensures IsForward(w.db, Transact(settings, w.db, op, w.clock), {})
  {
  }

  /** What every reachable world keeps: rows are known, and no token outlives its session. */
  ghost predicate WorldOk(w: World) {
    w.db.tokens.Keys <= w.minted && forall k :: k in w.db.tokens ==> TokenSound(w.db, k)
  }

  lemma DoKeepsWorldOk(settings: Settings, w: World, op: Op)
    requires settings.Valid() && Admissible(settings, w, op) && WorldOk(w)
    ensures WorldOk(Do(settings, w, op))
    ensures IsForward(w.db, Do(settings, w, op).db, MintedBy(op))
  {
    TransactIsForward(settings, w, op);
    ForwardKeepsSound(w.db, Do(settings, w, op).db, MintedBy(op), w.minted);
  }

  lemma ForwardKeepsSound(a: Db, b: Db, added: set<TokenId>, minted: set<TokenId>)
    requires IsForward(a, b, added) && a.tokens.Keys <= minted && forall k :: k in a.tokens ==> TokenSound(a, k)
    ensures b.tokens.Keys <= minted + added && forall k :: k in b.tokens ==> TokenSound(b, k)
  {
  }

  /**
   * Over any run of transactions that do not overlap, sessions are never lost or revived and keep
   * their first revocation, tokens are consumed and revoked once, and no token ever comes to
   * outlive its session.
   */
  lemma {:induction false} RunIsForward(settings: Settings, w: World, ops: seq<Op>)
    requires settings.Valid() && IsRun(settings, w, ops) && WorldOk(w)
    ensures var last := DoAll(settings, w, ops);
      WorldOk(last) && w.minted <= last.minted && w.clock <= last.clock
        && IsForward(w.db, last.db, last.minted - w.minted)
    decreases |ops|
  {
    if ops == [] {
      SameTablesAreForward(w.db, w.db);
      assert w.minted - w.minted == {};
    } else {
      var next := Do(settings, w, ops[0]);
      var last := DoAll(settings, w, ops);
      DoKeepsWorldOk(settings, w, ops[0]);
      RunIsForward(settings, next, ops[1..]);
      Compose(w.db, next.db, last.db, MintedBy(ops[0]), last.minted - next.minted);
      assert MintedBy(ops[0]) + (last.minted - next.minted) == last.minted - w.minted;
    }
  }
}
