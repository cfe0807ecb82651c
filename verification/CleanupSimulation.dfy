/**
 * Two databases that differ only in what has expired, and what each transaction does to both: `a`
 * stands for a run without cleanup passes and `b` for the same run with them.
 */
module CleanupSimulation {
  import opened AuthModel
  import opened AuthDb
  import opened SessionLaws
  import opened Runs
  import opened Forward
  import opened Verification

  /** A pass deletes, of the rows it reaches, exactly those that expired more than their table's retention ago. */
  lemma CleanPassRows(settings: Settings, db: Db, tokens: set<TokenId>, userTokens: set<UserTokenId>, now: Time)
    requires settings.Valid()
    ensures var db' := Transact(settings, db, Clean(tokens, userTokens), now);
      && db' == db.(tokens := db'.tokens, userTokens := db'.userTokens)
      && (forall k :: k in db'.tokens ==> k in db.tokens && db'.tokens[k] == db.tokens[k])
      && (forall k :: k in db.tokens ==>
            (k !in db'.tokens <==>
               k in tokens && db.tokens[k].expiresAt + settings.tokenRetentionDays * 24 * 60 * 60 * 1000 < now))
      && (forall k :: k in db'.userTokens ==> k in db.userTokens && db'.userTokens[k] == db.userTokens[k])
      && (forall k :: k in db.userTokens ==>
            (k !in db'.userTokens <==>
               k in userTokens
               && db.userTokens[k].expiresAt + settings.userTokenRetentionDays * 24 * 60 * 60 * 1000 < now))
  {
  }

  ghost predicate SessionsAgree(now: Time, a: Db, b: Db) {
    && a.sessions.Keys == b.sessions.Keys
    && forall s :: s in a.sessions ==> SessionAgrees(now, a.sessions[s], b.sessions[s])
  }

  predicate SessionAgrees(now: Time, a: Session, b: Session) {
    && b.userId == a.userId && b.familyId == a.familyId && b.expiresAt == a.expiresAt
    && (a.expiresAt > now ==> b == a)
  }

  /** `b` has lost only expired rows, and agrees with `a` on every unexpired one. */
  ghost predicate TokensAgree(now: Time, a: Db, b: Db) {
    && (forall k :: k in a.tokens && a.tokens[k].expiresAt > now ==> k in b.tokens && b.tokens[k] == a.tokens[k])
    && (forall k :: k in b.tokens ==>
          k in a.tokens && b.tokens[k].sessionId == a.tokens[k].sessionId
            && b.tokens[k].expiresAt == a.tokens[k].expiresAt)
  }

  ghost predicate Alike(now: Time, a: Db, b: Db) {
    && SessionsAgree(now, a, b) && TokensAgree(now, a, b)
    && a.users == b.users && a.emails == b.emails && a.identities == b.identities
  }

  ghost predicate Sound(db: Db) {
    forall k :: k in db.tokens ==> TokenSound(db, k)
  }

  /** Time passing only makes more rows expire. */
  lemma AlikeLater(now: Time, later: Time, a: Db, b: Db)
    requires Alike(now, a, b) && now <= later
    ensures Alike(later, a, b)
  {
  }

  // ----- revocations -----

  lemma SelectionsAgree(now: Time, a: Db, b: Db, w: Where, s: SessionId)
    requires SessionsAgree(now, a, b) && s in a.sessions && a.sessions[s].expiresAt > now
    ensures s in Selected(a.sessions, w) <==> s in Selected(b.sessions, w)
  {
  }

  lemma MarkedSessionsAgree(
      now: Time, a: Db, b: Db, inA: set<SessionId>, inB: set<SessionId>, reason: RevocationReason, at: Time)
    requires SessionsAgree(now, a, b)
    requires forall s :: s in a.sessions && a.sessions[s].expiresAt > now ==> (s in inA <==> s in inB)
    ensures SessionsAgree(now, a.(sessions := MarkRevoked(a.sessions, inA, reason, at)),
                          b.(sessions := MarkRevoked(b.sessions, inB, reason, at)))
  {
  }

  lemma RetiredTokensAgree(now: Time, a: Db, b: Db, inA: set<SessionId>, inB: set<SessionId>, at: Time)
    requires TokensAgree(now, a, b) && Sound(a)
    requires forall s :: s in a.sessions && a.sessions[s].expiresAt > now ==> (s in inA <==> s in inB)
    ensures TokensAgree(now, a.(tokens := Retire(a.tokens, inA, at)), b.(tokens := Retire(b.tokens, inB, at)))
  {
    forall k | k in a.tokens && a.tokens[k].expiresAt > now
      ensures a.tokens[k].sessionId in inA <==> a.tokens[k].sessionId in inB
    {
      assert TokenSound(a, k);
    }
  }

  lemma RevocationsAgree(now: Time, a: Db, b: Db, w: Where, reason: RevocationReason, at: Time)
    requires Alike(now, a, b) && Sound(a)
    ensures Alike(now, RevokeSessions(a, w, reason, at), RevokeSessions(b, w, reason, at))
  {
    var inA, inB := Selected(a.sessions, w), Selected(b.sessions, w);
    forall s | s in a.sessions && a.sessions[s].expiresAt > now ensures s in inA <==> s in inB {
      SelectionsAgree(now, a, b, w, s);
    }
    MarkedSessionsAgree(now, a, b, inA, inB, reason, at);
    RetiredTokensAgree(now, a, b, inA, inB, at);
  }

  /** Sweeping an expired session on one side only keeps the two alike. */
  lemma SweptSessionsAgree(now: Time, a: Db, b: Db, ids: set<SessionId>, reason: RevocationReason, at: Time)
    requires SessionsAgree(now, a, b) && forall s :: s in ids && s in a.sessions ==> a.sessions[s].expiresAt <= now
    ensures SessionsAgree(now, a.(sessions := MarkRevoked(a.sessions, ids, reason, at)), b)
    ensures SessionsAgree(now, a, b.(sessions := MarkRevoked(b.sessions, ids, reason, at)))
  {
  }

  lemma SweptTokensAgree(now: Time, a: Db, b: Db, ids: set<SessionId>, at: Time)
    requires TokensAgree(now, a, b) && Sound(a) && forall s :: s in ids && s in a.sessions ==>
      a.sessions[s].expiresAt <= now
    ensures TokensAgree(now, a.(tokens := Retire(a.tokens, ids, at)), b)
    ensures TokensAgree(now, a, b.(tokens := Retire(b.tokens, ids, at)))
  {
    forall k | k in a.tokens && a.tokens[k].expiresAt > now ensures a.tokens[k].sessionId !in ids {
      assert TokenSound(a, k);
    }
  }

  lemma SweepOnTheLeft(now: Time, a: Db, b: Db, sid: SessionId, at: Time)
    requires Alike(now, a, b) && Sound(a) && sid in a.sessions && a.sessions[sid].expiresAt <= now
    ensures Alike(now, RevokeSessions(a, ById(sid), EXPIRED, at), b)
  {
    SweptSessionsAgree(now, a, b, Selected(a.sessions, ById(sid)), EXPIRED, at);
    SweptTokensAgree(now, a, b, Selected(a.sessions, ById(sid)), at);
  }

  lemma SweepOnTheRight(now: Time, a: Db, b: Db, sid: SessionId, at: Time)
    requires Alike(now, a, b) && Sound(a) && sid in a.sessions && a.sessions[sid].expiresAt <= now
    ensures Alike(now, a, RevokeSessions(b, ById(sid), EXPIRED, at))
  {
    SweptSessionsAgree(now, a, b, Selected(b.sessions, ById(sid)), EXPIRED, at);
    SweptTokensAgree(now, a, b, Selected(b.sessions, ById(sid)), at);
  }

  ghost predicate SameButEvents(a: Db, b: Db) {
    a == b.(events := a.events)
  }

  lemma LogoutRevokes(db: Db, sid: SessionId, now: Time)
    ensures SameButEvents(Logout(db, sid, now), RevokeSessions(db, ById(sid), LOGOUT, now))
  {
    if sid !in db.sessions || db.sessions[sid].revokedAt.Some? {
      EmptyRevocationWritesNothing(db, ById(sid), LOGOUT, now);
    }
  }

  lemma LogoutAllRevokes(db: Db, user: UserId, initiating: Option<SessionId>, now: Time)
    ensures SameButEvents(LogoutAll(db, user, initiating, now), RevokeSessions(db, ByUser(user), LOGOUT_ALL, now))
  {
    if Selected(db.sessions, ByUser(user)) == {} {
      EmptyRevocationWritesNothing(db, ByUser(user), LOGOUT_ALL, now);
    }
  }

  lemma EvictRevokes(cfg: SessionConfig, db: Db, user: UserId, order: seq<SessionId>, now: Time)
    requires cfg.Valid()
    ensures SameButEvents(Evict(cfg, db, user, order, now),
                          RevokeSessions(db, Among(Evicted(order, cfg)), SESSION_LIMIT, now))
  {
    if Selected(db.sessions, Among(Evicted(order, cfg))) == {} {
      EmptyRevocationWritesNothing(db, Among(Evicted(order, cfg)), SESSION_LIMIT, now);
    }
  }

  lemma LogoutsAgree(now: Time, a: Db, b: Db, sid: SessionId)
    requires Alike(now, a, b) && Sound(a)
    ensures Alike(now, Logout(a, sid, now), Logout(b, sid, now))
  {
    RevocationsAgree(now, a, b, ById(sid), LOGOUT, now);
    LogoutRevokes(a, sid, now);
    LogoutRevokes(b, sid, now);
  }

  lemma LogoutAllsAgree(now: Time, a: Db, b: Db, user: UserId, initiating: Option<SessionId>)
    requires Alike(now, a, b) && Sound(a)
    ensures Alike(now, LogoutAll(a, user, initiating, now), LogoutAll(b, user, initiating, now))
  {
    RevocationsAgree(now, a, b, ByUser(user), LOGOUT_ALL, now);
    LogoutAllRevokes(a, user, initiating, now);
    LogoutAllRevokes(b, user, initiating, now);
  }

  // ----- logins -----

  lemma ActivesAgree(now: Time, a: Db, b: Db, user: UserId, order: seq<SessionId>)
    requires Alike(now, a, b)
    ensures ActiveSessions(a.sessions, user, now) == ActiveSessions(b.sessions, user, now)
    ensures IsLruListing(a.sessions, ActiveSessions(a.sessions, user, now), order) ==>
              IsLruListing(b.sessions, ActiveSessions(b.sessions, user, now), order)
  {
  }

  lemma InsertionsAgree(cfg: SessionConfig, now: Time, a: Db, b: Db, sid: SessionId, session: Session, tid: TokenId)
    requires Alike(now, a, b) && tid !in a.tokens
    ensures Alike(now, AddToken(cfg, a.(sessions := a.sessions[sid := session]), sid, session.expiresAt, now, tid),
                       AddToken(cfg, b.(sessions := b.sessions[sid := session]), sid, session.expiresAt, now, tid))
  {
  }

  lemma LoginsAgree(
      cfg: SessionConfig, now: Time, a: Db, b: Db, user: UserId, order: seq<SessionId>, sid: SessionId,
      family: FamilyId, tid: TokenId)
    requires cfg.Valid() && Alike(now, a, b) && Sound(a) && tid !in a.tokens
    ensures Alike(now, CreateSession(cfg, a, user, order, sid, family, tid, now),
                       CreateSession(cfg, b, user, order, sid, family, tid, now))
  {
    RevocationsAgree(now, a, b, Among(Evicted(order, cfg)), SESSION_LIMIT, now);
    EvictRevokes(cfg, a, user, order, now);
    EvictRevokes(cfg, b, user, order, now);
    InsertionsAgree(cfg, now, Evict(cfg, a, user, order, now), Evict(cfg, b, user, order, now), sid,
                    NewSession(user, family, now, cfg), tid);
  }

  // ----- rotations -----

  /** What a rotation reveals: the new token, the theft alarm, or the one message for every refusal. */
  datatype Answer = Accepted(session: SessionId, child: TokenId, graceReplay: bool) | Alarm | Refused

  function AnswerOf(v: Verdict): Answer {
    match v
    case Rotated(session, child, graceReplay) => Accepted(session, child, graceReplay)
    case Rejected(why) => if why == TokenReuse then Alarm else Refused
  }

  lemma MintsAgree(cfg: SessionConfig, now: Time, a: Db, b: Db, tok: RefreshToken, child: TokenId, graceReplay: bool)
    requires Alike(now, a, b) && child !in a.tokens
    requires tok.sessionId in a.sessions && a.sessions[tok.sessionId].expiresAt > now
    ensures Alike(now, Mint(cfg, a, tok, child, graceReplay, now).0, Mint(cfg, b, tok, child, graceReplay, now).0)
  {
  }

  lemma ConsumptionsAgree(now: Time, a: Db, b: Db, k: TokenId)
    requires Alike(now, a, b) && k in a.tokens && a.tokens[k].expiresAt > now
    ensures var used := a.tokens[k].(usedAt := Some(now));
      Alike(now, a.(tokens := a.tokens[k := used]), b.(tokens := b.tokens[k := used]))
  {
  }

  lemma FamiliesAgree(now: Time, a: Db, b: Db, tok: RefreshToken, session: Session)
    requires Alike(now, a, b) && Sound(a)
    ensures Alike(now, AuthDb.RevokeFamily(a, tok, session, now).0, AuthDb.RevokeFamily(b, tok, session, now).0)
  {
    RevocationsAgree(now, a, b, ByFamily(session.userId, session.familyId), TOKEN_REUSE, now);
  }

  /** An unexpired token is judged alike on both sides, with the same effect. */
  lemma LiveRotationsAgree(cfg: SessionConfig, now: Time, a: Db, b: Db, k: TokenId, child: TokenId)
    requires Alike(now, a, b) && Sound(a) && child !in a.tokens && k in a.tokens && a.tokens[k].expiresAt > now
    ensures Rotate(cfg, a, k, child, now).1 == Rotate(cfg, b, k, child, now).1
    ensures Alike(now, Rotate(cfg, a, k, child, now).0, Rotate(cfg, b, k, child, now).0)
  {
    var tok := a.tokens[k];
    assert TokenSound(a, k) && b.tokens[k] == tok && b.sessions[tok.sessionId] == a.sessions[tok.sessionId];
    var v := Rotate(cfg, a, k, child, now).1;
    if v.Rotated? {
      if tok.usedAt.None? {
        ConsumptionsAgree(now, a, b, k);
        var used := tok.(usedAt := Some(now));
        MintsAgree(cfg, now, a.(tokens := a.tokens[k := used]), b.(tokens := b.tokens[k := used]), tok, child, false);
      } else {
        MintsAgree(cfg, now, a, b, tok, child, true);
      }
    } else if v == Rejected(TokenReuse) {
      FamiliesAgree(now, a, b, tok, a.sessions[tok.sessionId]);
    }
  }

  /** An expired token is refused without an alarm; at most its expired session is swept. */
  lemma ExpiredRotation(cfg: SessionConfig, db: Db, k: TokenId, child: TokenId, now: Time)
    requires k in db.tokens ==> db.tokens[k].expiresAt <= now
    ensures var r := Rotate(cfg, db, k, child, now);
      && AnswerOf(r.1) == Refused
      && (r.0 == db || (k in db.tokens && db.tokens[k].sessionId in db.sessions
                        && db.sessions[db.tokens[k].sessionId].expiresAt <= now
                        && r.0 == RevokeSessions(db, ById(db.tokens[k].sessionId), EXPIRED, now)))
  {
  }

  lemma ExpiredRotationsAgree(cfg: SessionConfig, now: Time, a: Db, b: Db, k: TokenId, child: TokenId)
    requires Alike(now, a, b) && Sound(a) && (k in a.tokens ==> a.tokens[k].expiresAt <= now)
    ensures AnswerOf(Rotate(cfg, a, k, child, now).1) == Refused && AnswerOf(Rotate(cfg, b, k, child, now).1) == Refused
    ensures Alike(now, Rotate(cfg, a, k, child, now).0, Rotate(cfg, b, k, child, now).0)
  {
    ExpiredRotation(cfg, a, k, child, now);
    ExpiredRotation(cfg, b, k, child, now);
    var a', b' := Rotate(cfg, a, k, child, now).0, Rotate(cfg, b, k, child, now).0;
    if b' != b {
      SweepOnTheRight(now, a, b, b.tokens[k].sessionId, now);
    }
    if a' != a {
      SweepOnTheLeft(now, a, b', a.tokens[k].sessionId, now);
    }
  }

  lemma RotationsAgree(cfg: SessionConfig, now: Time, a: Db, b: Db, k: TokenId, child: TokenId)
    requires Alike(now, a, b) && Sound(a) && child !in a.tokens
    ensures AnswerOf(Rotate(cfg, a, k, child, now).1) == AnswerOf(Rotate(cfg, b, k, child, now).1)
    ensures Alike(now, Rotate(cfg, a, k, child, now).0, Rotate(cfg, b, k, child, now).0)
  {
    if k in a.tokens && a.tokens[k].expiresAt > now {
      LiveRotationsAgree(cfg, now, a, b, k, child);
    } else {
      ExpiredRotationsAgree(cfg, now, a, b, k, child);
    }
  }

  // ----- password changes, sign-ins and registrations -----

  lemma ReissuesAgree(
      cfg: SessionConfig, now: Time, a: Db, b: Db, sid: SessionId, expiresAt: Time, at: Time, tid: TokenId)
    requires Alike(now, a, b) && tid !in a.tokens
    ensures Alike(now, ReissueRefreshToken(cfg, a, sid, expiresAt, at, tid),
                  ReissueRefreshToken(cfg, b, sid, expiresAt, at, tid))
  {
  }

  lemma PasswordChangesAgree(
      cfg: SessionConfig, now: Time, a: Db, b: Db, user: UserId, sid: SessionId, expiresAt: Time, hash: PasswordHash,
      tid: TokenId, at: Time)
    requires Alike(now, a, b) && Sound(a) && tid !in a.tokens && user in a.users
    ensures Alike(now, CommitPasswordChange(cfg, a, user, sid, expiresAt, hash, tid, at),
                       CommitPasswordChange(cfg, b, user, sid, expiresAt, hash, tid, at))
  {
    var a1, b1 := SetCredential(a, user, Some(hash), at), SetCredential(b, user, Some(hash), at);
    assert Alike(now, a1, b1) && Sound(a1);
    RevocationsAgree(now, a1, b1, ByUserExcept(user, sid), PASSWORD_CHANGED, at);
    ReissuesAgree(cfg, now, RevokeSessions(a1, ByUserExcept(user, sid), PASSWORD_CHANGED, at),
                  RevokeSessions(b1, ByUserExcept(user, sid), PASSWORD_CHANGED, at), sid, expiresAt, at, tid);
  }

  lemma TakeOversAgree(now: Time, a: Db, b: Db, email: Address)
    requires Alike(now, a, b) && Sound(a) && email in a.emails && a.emails[email].userId in a.users
    ensures Alike(now, TakeOver(a, email, now), TakeOver(b, email, now))
  {
    var user := a.emails[email].userId;
    var a1 := a.(
      emails := a.emails[email := a.emails[email].(isVerified := true, verifiedAt := Some(now))],
      userTokens := ExpireUnused(a.userTokens, user, now));
    var b1 := b.(
      emails := b.emails[email := b.emails[email].(isVerified := true, verifiedAt := Some(now))],
      userTokens := ExpireUnused(b.userTokens, user, now));
    var a2 := if a.users[user].passwordHash.Some? then SetCredential(a1, user, None, now) else a1;
    var b2 := if b.users[user].passwordHash.Some? then SetCredential(b1, user, None, now) else b1;
    assert Alike(now, a2, b2) && Sound(a2);
    RevocationsAgree(now, a2, b2, ByUser(user), SECURITY, now);
  }

  lemma LinksAgree(now: Time, a: Db, b: Db, p: Profile)
    requires Alike(now, a, b) && Sound(a) && p.email in a.emails && a.emails[p.email].userId in a.users
    ensures Alike(now, LinkToExistingUser(a, p, now), LinkToExistingUser(b, p, now))
  {
    var user := a.emails[p.email].userId;
    var a1, b1 := a.(identities := a.identities[p.identity := user]),
      b.(identities := b.identities[p.identity := user]);
    assert Alike(now, a1, b1) && Sound(a1);
    if !a.emails[p.email].isVerified {
      TakeOversAgree(now, a1, b1, p.email);
    }
  }

  lemma CreationsAgree(now: Time, a: Db, b: Db, p: Profile, newUser: UserId)
    requires Alike(now, a, b)
    ensures Alike(now, CreateExternalUser(a, p, newUser, now), CreateExternalUser(b, p, newUser, now))
  {
  }

  lemma SignInsAgree(now: Time, a: Db, b: Db, p: Profile, newUser: UserId)
    requires Alike(now, a, b) && Sound(a)
    ensures Alike(now, ResolveIdentity(a, p, newUser, now).0, ResolveIdentity(b, p, newUser, now).0)
    ensures ResolveIdentity(a, p, newUser, now).1 == ResolveIdentity(b, p, newUser, now).1
  {
    if p.identity in a.identities {
      assert PrimaryEmailVerified(a, a.identities[p.identity]) == PrimaryEmailVerified(b, b.identities[p.identity]);
    } else if p.email !in a.emails {
      CreationsAgree(now, a, b, p, newUser);
    } else if a.emails[p.email].userId in a.users {
      LinksAgree(now, a, b, p);
    }
  }

  lemma RegistrationsAgree(
      vcfg: VerificationConfig, now: Time, a: Db, b: Db, email: Address, user: UserId, hash: PasswordHash,
      mail: UserTokenId)
    requires Alike(now, a, b)
    ensures Alike(now, Register(vcfg, a, email, user, hash, mail, now), Register(vcfg, b, email, user, hash, mail, now))
  {
  }

  lemma UserTokensDoNotMatter(now: Time, a: Db, b: Db, ra: map<UserTokenId, UserToken>, rb: map<UserTokenId, UserToken>)
    requires Alike(now, a, b)
    ensures Alike(now, a.(userTokens := ra), b.(userTokens := rb))
  {
  }

  lemma ResendsAgree(vcfg: VerificationConfig, now: Time, a: Db, b: Db, email: Address, mail: UserTokenId)
    requires Alike(now, a, b)
    ensures Alike(now, Resend(vcfg, a, email, mail, now), Resend(vcfg, b, email, mail, now))
  {
    var a', b' := Resend(vcfg, a, email, mail, now), Resend(vcfg, b, email, mail, now);
    assert a' == a.(userTokens := a'.userTokens) && b' == b.(userTokens := b'.userTokens);
    UserTokensDoNotMatter(now, a, b, a'.userTokens, b'.userTokens);
  }

  // ----- verification tokens -----

  predicate PastCooldown(settings: Settings, db: Db, row: UserToken, now: Time) {
    row.kind == EMAIL_VERIFICATION && row.email.Some? ==>
      || row.createdAt + Cooldown(settings) <= now
      || (row.email.value in db.emails && db.emails[row.email.value].isVerified)
  }

  /** `b` has lost only expired verification tokens; if anyone resends, only ones that no longer block it. */
  ghost predicate MailAgrees(settings: Settings, resends: bool, now: Time, a: Db, b: Db) {
    && (forall k :: k in b.userTokens ==> k in a.userTokens && b.userTokens[k] == a.userTokens[k])
    && (forall k :: k in a.userTokens && k !in b.userTokens ==>
          a.userTokens[k].expiresAt <= now && (resends ==> PastCooldown(settings, a, a.userTokens[k], now)))
  }

  /** A row that still blocks resends keeps its full lifetime, unless its address is verified. */
  ghost predicate RowsGuarded(settings: Settings, db: Db, now: Time) {
    forall k :: k in db.userTokens ==>
      PastCooldown(settings, db, db.userTokens[k], now)
      || db.userTokens[k].expiresAt >= db.userTokens[k].createdAt + Lifetime(settings)
  }

  lemma QuietKeepsRows(settings: Settings, a: Db, b: Db, now: Time, later: Time)
    requires Quiet(settings, a, b, now) && RowsGuarded(settings, a, now) && MailOk(a, now) && now <= later
    ensures RowsGuarded(settings, b, later)
  {
    forall k | k in b.userTokens
      ensures PastCooldown(settings, b, b.userTokens[k], later)
              || b.userTokens[k].expiresAt >= b.userTokens[k].createdAt + Lifetime(settings)
    {
      assert RowLater(a.userTokens[k], b.userTokens[k], now);
      assert MailRowOk(a, a.userTokens[k], now);
    }
  }

  lemma SentKeepsRows(settings: Settings, a: Db, b: Db, email: Address, mail: UserTokenId, now: Time)
    requires Sent(settings, a, b, email, mail, now) && RowsGuarded(settings, a, now) && MailOk(a, now)
    ensures RowsGuarded(settings, b, now)
  {
    forall k | k in b.userTokens && k != mail
      ensures PastCooldown(settings, b, b.userTokens[k], now)
              || b.userTokens[k].expiresAt >= b.userTokens[k].createdAt + Lifetime(settings)
    {
      assert MailRowOk(a, a.userTokens[k], now);
      if a.userTokens[k].email == Some(email) && a.userTokens[k].kind == EMAIL_VERIFICATION {
        assert IsTokenOf(a, k, email);
      }
    }
  }
}
