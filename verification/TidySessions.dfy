/**
 * Revoked sessions with only revoked tokens: what whole transactions keep, and the one that does not.
 */
module TidySessions {
  import opened AuthModel
  import opened AuthDb
  import opened Runs

  /** Every token of a revoked session is revoked. */
  ghost predicate IsTidy(db: Db) {
    forall k :: k in db.tokens ==> TokenIsTidy(db, k)
  }

  predicate TokenIsTidy(db: Db, k: TokenId)
    requires k in db.tokens
  {
    db.tokens[k].sessionId in db.sessions && db.sessions[db.tokens[k].sessionId].revokedAt.Some? ==>
      db.tokens[k].revokedAt.Some?
  }

  // ----- building blocks -----

  lemma RevocationIsTidy(db: Db, w: Where, reason: RevocationReason, now: Time)
    requires IsTidy(db)
    ensures IsTidy(RevokeSessions(db, w, reason, now))
  {
    var db' := RevokeSessions(db, w, reason, now);
    forall k | k in db'.tokens ensures TokenIsTidy(db', k) {
      assert TokenIsTidy(db, k);
    }
  }

  lemma SameTablesAreTidy(a: Db, b: Db)
    requires IsTidy(a) && b.sessions == a.sessions && b.tokens == a.tokens
    ensures IsTidy(b)
  {
    forall k | k in b.tokens ensures TokenIsTidy(b, k) {
      assert TokenIsTidy(a, k);
    }
  }

  /** A new token is tidy exactly when its session is not revoked. */
  lemma AddedTokenIsTidy(cfg: SessionConfig, db: Db, sid: SessionId, expiresAt: Time, now: Time, tid: TokenId)
    requires IsTidy(db)
    ensures IsTidy(AddToken(cfg, db, sid, expiresAt, now, tid)) <==>
      !(sid in db.sessions && db.sessions[sid].revokedAt.Some?)
  {
    var db' := AddToken(cfg, db, sid, expiresAt, now, tid);
    assert tid in db'.tokens;
    assert forall k :: k in db.tokens && k != tid ==> TokenIsTidy(db, k) && TokenIsTidy(db', k) == TokenIsTidy(db, k);
    assert TokenIsTidy(db', tid) <==> !(sid in db.sessions && db.sessions[sid].revokedAt.Some?);
  }

  lemma LoginIsTidy(
      cfg: SessionConfig, db: Db, user: UserId, order: seq<SessionId>, sid: SessionId, family: FamilyId, tid: TokenId,
      now: Time)
    requires cfg.Valid() && IsTidy(db)
    ensures IsTidy(CreateSession(cfg, db, user, order, sid, family, tid, now))
  {
    var evicted := Evict(cfg, db, user, order, now);
    RevocationIsTidy(db, Among(Evicted(order, cfg)), SESSION_LIMIT, now);
    assert IsTidy(evicted);
    var session := NewSession(user, family, now, cfg);
    var inserted := evicted.(sessions := evicted.sessions[sid := session]);
    forall k | k in inserted.tokens ensures TokenIsTidy(inserted, k) {
      assert TokenIsTidy(evicted, k);
    }
    AddedTokenIsTidy(cfg, inserted, sid, session.expiresAt, now, tid);
    SameTablesAreTidy(AddToken(cfg, inserted, sid, session.expiresAt, now, tid),
                      CreateSession(cfg, db, user, order, sid, family, tid, now));
  }

  lemma MintIsTidy(cfg: SessionConfig, db: Db, tok: RefreshToken, child: TokenId, graceReplay: bool, now: Time)
    requires IsTidy(db) && tok.sessionId in db.sessions && db.sessions[tok.sessionId].revokedAt.None?
    ensures IsTidy(Mint(cfg, db, tok, child, graceReplay, now).0)
  {
    var session := db.sessions[tok.sessionId];
    var minted := AddToken(cfg, db, tok.sessionId, session.expiresAt, now, child);
    AddedTokenIsTidy(cfg, db, tok.sessionId, session.expiresAt, now, child);
    var db' := Mint(cfg, db, tok, child, graceReplay, now).0;
    forall k | k in db'.tokens ensures TokenIsTidy(db', k) {
      assert TokenIsTidy(minted, k);
    }
  }

  lemma ConsumptionIsTidy(db: Db, k: TokenId, now: Time)
    requires IsTidy(db) && k in db.tokens
    ensures IsTidy(db.(tokens := db.tokens[k := db.tokens[k].(usedAt := Some(now))]))
  {
    var db' := db.(tokens := db.tokens[k := db.tokens[k].(usedAt := Some(now))]);
    forall o | o in db'.tokens ensures TokenIsTidy(db', o) {
      assert TokenIsTidy(db, o);
    }
  }

  lemma RotationIsTidy(cfg: SessionConfig, db: Db, k: TokenId, child: TokenId, now: Time)
    requires IsTidy(db)
    ensures IsTidy(Rotate(cfg, db, k, child, now).0)
  {
    var r := Rotate(cfg, db, k, child, now);
    if r.1.Rotated? {
      if db.tokens[k].usedAt.None? {
        ConsumptionIsTidy(db, k, now);
        MintIsTidy(cfg, db.(tokens := db.tokens[k := db.tokens[k].(usedAt := Some(now))]), db.tokens[k], child, false,
                   now);
      } else {
        MintIsTidy(cfg, db, db.tokens[k], child, true, now);
      }
    } else if r.1 == Rejected(SessionExpired) {
      RevocationIsTidy(db, ById(db.tokens[k].sessionId), EXPIRED, now);
    } else if r.1 == Rejected(TokenReuse) {
      var stolen := db.sessions[db.tokens[k].sessionId];
      RevocationIsTidy(db, ByFamily(stolen.userId, stolen.familyId), TOKEN_REUSE, now);
      SameTablesAreTidy(RevokeSessions(db, ByFamily(stolen.userId, stolen.familyId), TOKEN_REUSE, now), r.0);
    }
  }

  /** A password change is tidy exactly when the session it reissues for is not revoked. */
  lemma PasswordChangeIsTidy(
      cfg: SessionConfig, db: Db, user: UserId, sid: SessionId, expiresAt: Time, hash: PasswordHash, tid: TokenId,
      now: Time)
    requires IsTidy(db) && user in db.users && sid in db.sessions
    ensures IsTidy(CommitPasswordChange(cfg, db, user, sid, expiresAt, hash, tid, now)) <==>
      db.sessions[sid].revokedAt.None?
  {
    var credential := SetCredential(db, user, Some(hash), now);
    SameTablesAreTidy(db, credential);
    var revoked := RevokeSessions(credential, ByUserExcept(user, sid), PASSWORD_CHANGED, now);
    RevocationIsTidy(credential, ByUserExcept(user, sid), PASSWORD_CHANGED, now);
    var retired := revoked.(tokens := Retire(revoked.tokens, {sid}, now));
    forall k | k in retired.tokens ensures TokenIsTidy(retired, k) {
      assert TokenIsTidy(revoked, k);
    }
    AddedTokenIsTidy(cfg, retired, sid, expiresAt, now, tid);
    var issued := AddToken(cfg, retired, sid, expiresAt, now, tid);
    var changed := CommitPasswordChange(cfg, db, user, sid, expiresAt, hash, tid, now);
    assert changed.sessions == issued.sessions && changed.tokens == issued.tokens;
    if IsTidy(issued) {
      SameTablesAreTidy(issued, changed);
    }
    if IsTidy(changed) {
      SameTablesAreTidy(changed, issued);
    }
  }

  lemma LinkIsTidy(db: Db, p: Profile, now: Time)
    requires IsTidy(db) && p.email in db.emails && db.emails[p.email].userId in db.users
    ensures IsTidy(LinkToExistingUser(db, p, now))
  {
    var user := db.emails[p.email].userId;
    var linked := db.(identities := db.identities[p.identity := user]);
    SameTablesAreTidy(db, linked);
    if !db.emails[p.email].isVerified {
      var verified := linked.(
        emails := linked.emails[p.email := linked.emails[p.email].(isVerified := true, verifiedAt := Some(now))],
        userTokens := ExpireUnused(linked.userTokens, user, now));
      var stripped := if linked.users[user].passwordHash.Some? then SetCredential(verified, user, None, now)
        else verified;
      SameTablesAreTidy(linked, stripped);
      RevocationIsTidy(stripped, ByUser(user), SECURITY, now);
      SameTablesAreTidy(RevokeSessions(stripped, ByUser(user), SECURITY, now), LinkToExistingUser(db, p, now));
    } else {
      SameTablesAreTidy(db, LinkToExistingUser(db, p, now));
    }
  }

  lemma LogoutIsTidy(db: Db, sid: SessionId, now: Time)
    requires IsTidy(db)
    ensures IsTidy(Logout(db, sid, now))
  {
    RevocationIsTidy(db, ById(sid), LOGOUT, now);
    if sid in db.sessions && db.sessions[sid].revokedAt.None? {
      SameTablesAreTidy(RevokeSessions(db, ById(sid), LOGOUT, now), Logout(db, sid, now));
    }
  }

  lemma LogoutAllIsTidy(db: Db, user: UserId, initiating: Option<SessionId>, now: Time)
    requires IsTidy(db)
    ensures IsTidy(LogoutAll(db, user, initiating, now))
  {
    RevocationIsTidy(db, ByUser(user), LOGOUT_ALL, now);
    if Selected(db.sessions, ByUser(user)) != {} {
      SameTablesAreTidy(RevokeSessions(db, ByUser(user), LOGOUT_ALL, now), LogoutAll(db, user, initiating, now));
    }
  }

  lemma CleaningIsTidy(settings: Settings, db: Db, op: Op, now: Time)
    requires settings.Valid() && IsTidy(db) && op.Clean?
    ensures IsTidy(Transact(settings, db, op, now))
  {
    var db' := Transact(settings, db, op, now);
    forall k | k in db'.tokens ensures TokenIsTidy(db', k) {
      assert TokenIsTidy(db, k);
    }
  }

  // ----- runs -----

  /** A password change commits for a session that was revoked after the change had checked it. */
  predicate ReissuesForRevoked(db: Db, op: Op) {
    op.ReplacePassword? && op.sid in db.sessions && db.sessions[op.sid].revokedAt.Some?
  }

  lemma SignInIsTidy(db: Db, p: Profile, newUser: UserId, now: Time)
    requires IsTidy(db)
    ensures IsTidy(ResolveIdentity(db, p, newUser, now).0)
  {
    if p.identity !in db.identities && p.emailVerified {
      if p.email !in db.emails {
        SameTablesAreTidy(db, CreateExternalUser(db, p, newUser, now));
      } else if db.emails[p.email].userId in db.users {
        LinkIsTidy(db, p, now);
      }
    }
  }

  lemma QuietOpsAreTidy(settings: Settings, w: World, op: Op)
    requires settings.Valid() && IsTidy(w.db)
    requires op.SignUp? || op.ResendMail? || op.ConfirmEmail? || op.Administer? || op.Wait?
    ensures IsTidy(Transact(settings, w.db, op, w.clock))
  {
    SameTablesAreTidy(w.db, Transact(settings, w.db, op, w.clock));
  }

  lemma StepIsTidy(settings: Settings, w: World, op: Op)
    requires settings.Valid() && Admissible(settings, w, op) && IsTidy(w.db)
    ensures IsTidy(Do(settings, w, op).db) <==> !ReissuesForRevoked(w.db, op)
  {
    match op
    case Login(user, order, sid, family, tid) =>
      LoginIsTidy(settings.session, w.db, user, order, sid, family, tid, w.clock);
    case Refresh(token, child) => RotationIsTidy(settings.session, w.db, token, child, w.clock);
    case EndSession(sid) => LogoutIsTidy(w.db, sid, w.clock);
    case EndByToken(token) =>
      if token in w.db.tokens {
        LogoutIsTidy(w.db, w.db.tokens[token].sessionId, w.clock);
      }
    case EndAllSessions(user, initiating) => LogoutAllIsTidy(w.db, user, initiating, w.clock);
    case ReplacePassword(user, sid, expiresAt, hash, tid, requestedAt) =>
      PasswordChangeIsTidy(settings.session, w.db, user, sid, expiresAt, hash, tid, requestedAt);
    case SignInExternally(p, newUser) => SignInIsTidy(w.db, p, newUser, w.clock);
    case Clean(_, _) => CleaningIsTidy(settings, w.db, op, w.clock);
    case _ => QuietOpsAreTidy(settings, w, op);
  }

  /** Every state of the run is tidy. */
  ghost predicate AlwaysTidy(settings: Settings, w: World, ops: seq<Op>)
    requires settings.Valid()
    decreases |ops|
  {
    IsTidy(w.db) && (ops != [] ==> AlwaysTidy(settings, Do(settings, w, ops[0]), ops[1..]))
  }

  /** Every password change of the run that commits finds its caller's session unrevoked. */
  ghost predicate ChangesFindLiveSessions(settings: Settings, w: World, ops: seq<Op>)
    requires settings.Valid()
    decreases |ops|
  {
    ops != [] ==>
      !ReissuesForRevoked(w.db, ops[0]) && ChangesFindLiveSessions(settings, Do(settings, w, ops[0]), ops[1..])
  }

  /**
   * Over any run of whole transactions, revoked sessions have only revoked tokens at every moment if and
   * only if no password change commits for a session that was revoked after its check.
   */
  lemma {:induction false} TidyExactlyWhenChecksHold(settings: Settings, w: World, ops: seq<Op>)
    requires settings.Valid() && IsRun(settings, w, ops) && IsTidy(w.db)
    ensures AlwaysTidy(settings, w, ops) <==> ChangesFindLiveSessions(settings, w, ops)
    decreases |ops|
  {
    if ops != [] {
      StepIsTidy(settings, w, ops[0]);
      if IsTidy(Do(settings, w, ops[0]).db) {
        TidyExactlyWhenChecksHold(settings, Do(settings, w, ops[0]), ops[1..]);
      }
    }
  }
}
