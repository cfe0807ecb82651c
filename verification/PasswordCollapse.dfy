/** What a password change does to the user's refresh tokens, at once and for good. */
module PasswordCollapse {
  import opened AuthModel
  import opened AuthDb
  import opened SessionLaws
  import opened Runs
  import opened Forward

  predicate BelongsTo(db: Db, k: TokenId, user: UserId) {
    k in db.tokens && db.tokens[k].sessionId in db.sessions && db.sessions[db.tokens[k].sessionId].userId == user
  }

  /** The token can no longer be accepted: it is deleted, or revoked, or its session is. */
  predicate IsDead(db: Db, k: TokenId) {
    k in db.tokens && db.tokens[k].sessionId in db.sessions ==>
      db.tokens[k].revokedAt.Some? || db.sessions[db.tokens[k].sessionId].revokedAt.Some?
  }

  /** The change leaves every earlier token of the user dead, and each session of theirs but one revoked. */
  lemma ChangeKillsEarlierTokens(
      cfg: SessionConfig, db: Db, user: UserId, sid: SessionId, expiresAt: Time, hash: PasswordHash,
      tid: TokenId, now: Time, k: TokenId)
    requires user in db.users && k != tid && BelongsTo(db, k, user)
    ensures IsDead(CommitPasswordChange(cfg, db, user, sid, expiresAt, hash, tid, now), k)
    ensures k in CommitPasswordChange(cfg, db, user, sid, expiresAt, hash, tid, now).tokens
  {
    var credential := SetCredential(db, user, Some(hash), now);
    RevocationIsExact(credential, ByUserExcept(user, sid), PASSWORD_CHANGED, now);
  }

  lemma ChangeKeepsTheCaller(
      cfg: SessionConfig, db: Db, user: UserId, sid: SessionId, expiresAt: Time, hash: PasswordHash, tid: TokenId,
      now: Time)
    requires user in db.users && sid in db.sessions
    ensures var db' := CommitPasswordChange(cfg, db, user, sid, expiresAt, hash, tid, now);
      && sid in db'.sessions && db'.sessions[sid] == db.sessions[sid]
      && db'.tokens.Keys == db.tokens.Keys + {tid} && db'.tokens[tid] == NewRefreshToken(sid, expiresAt, now, cfg)
      && db'.sessions.Keys == db.sessions.Keys
      && (forall s :: s in db.sessions ==> db'.sessions[s].userId == db.sessions[s].userId)
      && (forall k :: k in db.tokens && k != tid ==> db'.tokens[k].sessionId == db.tokens[k].sessionId)
  {
  }

  /**
   * A password change collapses the user's usable tokens to the one it reissues. That token is
   * usable exactly when the caller's session was not revoked between the check and the commit,
   * until the token expires.
   */
  lemma PasswordChangeCollapses(settings: Settings, w: World, op: Op, k: TokenId, at: Time)
    requires settings.Valid() && op.ReplacePassword? && Admissible(settings, w, op) && w.db.tokens.Keys <= w.minted
    ensures var db' := Do(settings, w, op).db; BelongsTo(db', k, op.user) && IsUsableToken(db', k, at) ==> k == op.tid
    ensures var db' := Do(settings, w, op).db;
      IsUsableToken(db', op.tid, at) <==>
        w.db.sessions[op.sid].revokedAt.None?
          && at < RefreshExpiry(op.requestedAt, op.sessionExpiresAt, settings.session)
  {
    ChangeKeepsTheCaller(settings.session, w.db, op.user, op.sid, op.sessionExpiresAt, op.hash, op.tid, op.requestedAt);
    if k != op.tid && BelongsTo(w.db, k, op.user) {
      ChangeKillsEarlierTokens(settings.session, w.db, op.user, op.sid, op.sessionExpiresAt, op.hash, op.tid,
                               op.requestedAt, k);
    }
  }

  /** A dead token is refused, whenever it is presented, and never as theft. */
  lemma DeadTokensAreRefused(cfg: SessionConfig, db: Db, k: TokenId, child: TokenId, now: Time)
    requires IsDead(db, k)
    ensures var v := Rotate(cfg, db, k, child, now).1; v.Rejected? && v != Rejected(TokenReuse)
  {
  }

  lemma DeadStaysDead(a: Db, b: Db, added: set<TokenId>, k: TokenId)
    requires IsForward(a, b, added) && k !in added && IsDead(a, k) && (k in a.tokens ==> TokenSound(a, k))
    ensures IsDead(b, k)
  {
  }

  /**
   * Every token the user had before the change is refused at every later moment of every run of
   * logins, rotations, logouts, password changes, sign-ins and cleanups, and never as theft.
   */
  lemma OldTokensStayDead(settings: Settings, w: World, op: Op, ops: seq<Op>, k: TokenId, child: TokenId)
    requires settings.Valid() && WorldOk(w) && op.ReplacePassword? && IsRun(settings, w, [op] + ops)
    requires k in w.minted && (k in w.db.tokens ==> BelongsTo(w.db, k, op.user))
    ensures var last := DoAll(settings, w, [op] + ops);
      var v := Rotate(settings.session, last.db, k, child, last.clock).1;
      v.Rejected? && v != Rejected(TokenReuse)
  {
    assert ([op] + ops)[1..] == ops;
    var next := Do(settings, w, op);
    DoKeepsWorldOk(settings, w, op);
    ChangeKeepsTheCaller(settings.session, w.db, op.user, op.sid, op.sessionExpiresAt, op.hash, op.tid, op.requestedAt);
    if k in w.db.tokens {
      ChangeKillsEarlierTokens(settings.session, w.db, op.user, op.sid, op.sessionExpiresAt, op.hash, op.tid,
                               op.requestedAt, k);
    }
    assert IsDead(next.db, k);
    RunIsForward(settings, next, ops);
    var last := DoAll(settings, next, ops);
    DeadStaysDead(next.db, last.db, last.minted - next.minted, k);
    DeadTokensAreRefused(settings.session, last.db, k, child, last.clock);
  }

  /** The credential is replaced and the lockout cleared for this user; no other account or user's session changes. */
  lemma ChangeTouchesOnlyTheUser(
      cfg: SessionConfig, db: Db, user: UserId, sid: SessionId, expiresAt: Time, hash: PasswordHash, tid: TokenId,
      now: Time)
    requires user in db.users
    ensures var db' := CommitPasswordChange(cfg, db, user, sid, expiresAt, hash, tid, now);
      && db'.users.Keys == db.users.Keys && db'.users[user].passwordHash == Some(hash)
      && db'.users[user].failedAttempts == 0 && db'.users[user].lockedUntil.None? && !db'.users[user].mustChangePassword
      && (forall u :: u in db.users && u != user ==> db'.users[u] == db.users[u])
      && (forall s :: s in db.sessions && db.sessions[s].userId != user ==>
          s in db'.sessions && db'.sessions[s] == db.sessions[s])
      && (forall s :: s in db.sessions && db.sessions[s].userId == user && s != sid ==>
            s in db'.sessions && db'.sessions[s].revokedAt.Some?)
  {
    RevocationIsExact(SetCredential(db, user, Some(hash), now), ByUserExcept(user, sid), PASSWORD_CHANGED, now);
  }
}
