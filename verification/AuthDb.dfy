/**
 * The authentication tables as one value, and each transaction as a function from the tables
 * it finds to the tables it commits. These are the specifications that the services meet when
 * no other transaction overlaps; ReadCommitted covers the overlaps.
 */
module AuthDb {
  import opened AuthModel

  type Address = nat        // a normalised email address
  type ExternalId = nat     // a (provider, providerUserId) pair
  type UserTokenId = nat    // the hash of a raw verification token
  type PasswordHash = nat

  datatype UserStatus = ACTIVE | SUSPENDED | DEACTIVATED

  datatype User = User(
    status: UserStatus,
    deletedAt: Option<Time>,
    passwordHash: Option<PasswordHash>,
    passwordChangedAt: Option<Time>,
    failedAttempts: nat,
    lockedUntil: Option<Time>,
    mustChangePassword: bool)

  datatype UserEmail = UserEmail(userId: UserId, isPrimary: bool, isVerified: bool, verifiedAt: Option<Time>)

  datatype UserTokenType = EMAIL_VERIFICATION | PASSWORD_RESET

  /** `email` is the userEmailId in the metadata; old rows may lack it. */
  datatype UserToken = UserToken(
    userId: UserId, kind: UserTokenType, email: Option<Address>, createdAt: Time, expiresAt: Time, usedAt: Option<Time>)

  datatype EventType =
    | LOGIN_SUCCESS | SESSION_REVOKED | TOKEN_REFRESH | TOKEN_REUSE_DETECTED | LOGOUT_EVENT | LOGOUT_ALL_EVENT
    | PASSWORD_CHANGED_EVENT | IDENTITY_LINKED | EMAIL_VERIFIED

  datatype AuthEvent = AuthEvent(kind: EventType, userId: UserId, sessionId: Option<SessionId>)

  datatype Db = Db(
    users: map<UserId, User>,
    emails: map<Address, UserEmail>,
    identities: map<ExternalId, UserId>,
    sessions: map<SessionId, Session>,
    tokens: map<TokenId, RefreshToken>,
    userTokens: map<UserTokenId, UserToken>,
    events: seq<AuthEvent>)

  function Log(db: Db, kind: EventType, user: UserId, session: Option<SessionId>): Db {
    db.(events := db.events + [AuthEvent(kind, user, session)])
  }

  predicate IsUsable(u: User) {
    u.status == ACTIVE && u.deletedAt.None?
  }

  // ----- sessions -----

  /** The still-active sessions that a revocation with this `where` takes. */
  function Selected(sessions: map<SessionId, Session>, w: Where): set<SessionId> {
    set s | s in sessions && Matches(w, s, sessions[s]) && sessions[s].revokedAt.None?
  }

  function MarkRevoked(
      sessions: map<SessionId, Session>, ids: set<SessionId>, reason: RevocationReason, now: Time)
    : map<SessionId, Session> {
    map s | s in sessions :: if s in ids then sessions[s].(revokedAt := Some(now), reason := Some(reason))
      else sessions[s]
  }

  function Retire(tokens: map<TokenId, RefreshToken>, ids: set<SessionId>, now: Time): map<TokenId, RefreshToken> {
    map k | k in tokens ::
      if tokens[k].sessionId in ids && tokens[k].revokedAt.None? then tokens[k].(revokedAt := Some(now)) else tokens[k]
  }

  function RevokeSessions(db: Db, w: Where, reason: RevocationReason, now: Time): Db {
    var ids := Selected(db.sessions, w);
    db.(sessions := MarkRevoked(db.sessions, ids, reason, now), tokens := Retire(db.tokens, ids, now))
  }

  function AddToken(cfg: SessionConfig, db: Db, sid: SessionId, sessionExpiresAt: Time, now: Time, tid: TokenId): Db {
    db.(tokens := db.tokens[tid := NewRefreshToken(sid, sessionExpiresAt, now, cfg)])
  }

  /** The evictions a login commits before it inserts its own session. */
  function Evict(cfg: SessionConfig, db: Db, user: UserId, order: seq<SessionId>, now: Time): Db
    requires cfg.Valid()
  {
    var evicted := Evicted(order, cfg);
    if Selected(db.sessions, Among(evicted)) == {} then db
    else Log(RevokeSessions(db, Among(evicted), SESSION_LIMIT, now), SESSION_REVOKED, user, None)
  }

  /** `order` is how the database lists the active sessions, least recently used first. */
  function CreateSession(
      cfg: SessionConfig, db: Db, user: UserId, order: seq<SessionId>,
      sid: SessionId, family: FamilyId, tid: TokenId, now: Time): Db
    requires cfg.Valid()
  {
    var evicted := Evict(cfg, db, user, order, now);
    var session := NewSession(user, family, now, cfg);
    var inserted := evicted.(sessions := evicted.sessions[sid := session]);
    Log(AddToken(cfg, inserted, sid, session.expiresAt, now, tid), LOGIN_SUCCESS, user, Some(sid))
  }

  datatype Verdict =
    | Rotated(session: SessionId, child: TokenId, graceReplay: bool)
    | Rejected(failure: RefreshFailure)

  /** The tables after a rotation whose checks have passed. */
  function Mint(
      cfg: SessionConfig, db: Db, tok: RefreshToken, child: TokenId, graceReplay: bool, now: Time): (Db, Verdict)
    requires tok.sessionId in db.sessions
  {
    var session := db.sessions[tok.sessionId];
    var minted := AddToken(cfg, db, tok.sessionId, session.expiresAt, now, child);
    var touched := minted.(sessions := minted.sessions[tok.sessionId := session.(lastUsedAt := now)]);
    (Log(touched, TOKEN_REFRESH, session.userId, Some(tok.sessionId)), Rotated(tok.sessionId, child, graceReplay))
  }

  /** The tables after theft is detected: the whole family is revoked, and the event recorded. */
  function RevokeFamily(db: Db, tok: RefreshToken, session: Session, now: Time): (Db, Verdict) {
    var revoked := RevokeSessions(db, ByFamily(session.userId, session.familyId), TOKEN_REUSE, now);
    (Log(revoked, TOKEN_REUSE_DETECTED, session.userId, Some(tok.sessionId)), Rejected(TokenReuse))
  }

  function Rotate(cfg: SessionConfig, db: Db, k: TokenId, child: TokenId, now: Time): (Db, Verdict) {
    if k !in db.tokens || db.tokens[k].sessionId !in db.sessions
      || db.sessions[db.tokens[k].sessionId].userId !in db.users
    then (db, Rejected(TokenNotFound))
    else
      var tok := db.tokens[k];
      var session := db.sessions[tok.sessionId];
      if session.revokedAt.Some? then (db, Rejected(SessionRevoked))
      else if session.expiresAt <= now then
        (RevokeSessions(db, ById(tok.sessionId), EXPIRED, now), Rejected(SessionExpired))
      else if db.users[session.userId].status != ACTIVE then (db, Rejected(UserNotActive))
      else if tok.revokedAt.Some? then (db, Rejected(TokenRevoked))
      else if tok.expiresAt <= now then (db, Rejected(TokenExpired))
      else if tok.usedAt.None? then
        Mint(cfg, db.(tokens := db.tokens[k := tok.(usedAt := Some(now))]), tok, child, false, now)
      else if IsWithinGrace(tok.usedAt.value, now, cfg.graceSeconds) then Mint(cfg, db, tok, child, true, now)
      else RevokeFamily(db, tok, session, now)
  }

  function Logout(db: Db, sid: SessionId, now: Time): Db {
    if sid !in db.sessions || db.sessions[sid].revokedAt.Some? then db
    else Log(RevokeSessions(db, ById(sid), LOGOUT, now), LOGOUT_EVENT, db.sessions[sid].userId, Some(sid))
  }

  function LogoutAll(db: Db, user: UserId, initiating: Option<SessionId>, now: Time): Db {
    if Selected(db.sessions, ByUser(user)) == {} then db
    else Log(RevokeSessions(db, ByUser(user), LOGOUT_ALL, now), LOGOUT_ALL_EVENT, user, initiating)
  }

  // ----- passwords -----

  datatype PasswordRefusal = SessionInactive | NoPasswordCredential | InvalidCurrentPassword | PasswordUnchanged

  datatype PasswordOutcome = PasswordChanged(token: TokenId) | PasswordRefused(why: PasswordRefusal)

  /** What argon2 and the comparison of the two passwords answer. */
  datatype PasswordProof = PasswordProof(currentMatches: bool, sameAsCurrent: bool, newHash: PasswordHash)

  predicate SessionStillActive(db: Db, user: UserId, sid: SessionId, now: Time) {
    && sid in db.sessions && db.sessions[sid].userId == user && user in db.users
    && db.sessions[sid].revokedAt.None? && db.sessions[sid].expiresAt > now
    && IsUsable(db.users[user])
  }

  /** The password columns after the credential is set to `hash`, or removed. */
  function ResetCredential(u: User, hash: Option<PasswordHash>, now: Time): User {
    u.(passwordHash := hash, passwordChangedAt := Some(now), mustChangePassword := false,
       failedAttempts := 0, lockedUntil := None)
  }

  function SetCredential(db: Db, user: UserId, hash: Option<PasswordHash>, now: Time): Db
    requires user in db.users
  {
    db.(users := db.users[user := ResetCredential(db.users[user], hash, now)])
  }

  function ReissueRefreshToken(
      cfg: SessionConfig, db: Db, sid: SessionId, sessionExpiresAt: Time, now: Time, tid: TokenId): Db {
    AddToken(cfg, db.(tokens := Retire(db.tokens, {sid}, now)), sid, sessionExpiresAt, now, tid)
  }

  /** The unit of work of a password change, which trusts the check that preceded it. */
  function CommitPasswordChange(
      cfg: SessionConfig, db: Db, user: UserId, sid: SessionId, sessionExpiresAt: Time, hash: PasswordHash,
      tid: TokenId, now: Time): Db
    requires user in db.users
  {
    var credential := SetCredential(db, user, Some(hash), now);
    var revoked := RevokeSessions(credential, ByUserExcept(user, sid), PASSWORD_CHANGED, now);
    Log(ReissueRefreshToken(cfg, revoked, sid, sessionExpiresAt, now, tid), PASSWORD_CHANGED_EVENT, user, Some(sid))
  }

  function ChangePassword(
      cfg: SessionConfig, db: Db, user: UserId, sid: SessionId, proof: PasswordProof, tid: TokenId, now: Time)
      : (Db, PasswordOutcome) {
    if !SessionStillActive(db, user, sid, now) then (db, PasswordRefused(SessionInactive))
    else if db.users[user].passwordHash.None? then (db, PasswordRefused(NoPasswordCredential))
    else if !proof.currentMatches then (db, PasswordRefused(InvalidCurrentPassword))
    else if proof.sameAsCurrent then (db, PasswordRefused(PasswordUnchanged))
    else
      (CommitPasswordChange(cfg, db, user, sid, db.sessions[sid].expiresAt, proof.newHash, tid, now),
       PasswordChanged(tid))
  }

  // ----- accounts and external identities -----

  datatype Profile = Profile(identity: ExternalId, email: Address, emailVerified: bool)

  datatype IdentityOutcome = Resolved(user: UserId, emailVerified: bool) | EmailUnverified | AccountUnavailable

  function NewUser(hash: Option<PasswordHash>, now: Time): User {
    User(ACTIVE, None, hash, if hash.Some? then Some(now) else None, 0, None, false)
  }

  /** The `isVerified` of the user's primary email. */
  ghost predicate PrimaryEmailVerified(db: Db, user: UserId) {
    exists e :: e in db.emails && db.emails[e].userId == user && db.emails[e].isPrimary && db.emails[e].isVerified
  }

  function CreateExternalUser(db: Db, p: Profile, user: UserId, now: Time): Db {
    var created := db.(
      users := db.users[user := NewUser(None, now)],
      emails := db.emails[p.email := UserEmail(user, true, true, Some(now))],
      identities := db.identities[p.identity := user]);
    Log(created, IDENTITY_LINKED, user, None)
  }

  /** The verification tokens of a user that a link expires: the unused ones. */
  function ExpireUnused(rows: map<UserTokenId, UserToken>, user: UserId, now: Time): map<UserTokenId, UserToken> {
    map k | k in rows ::
      if rows[k].userId == user && rows[k].kind == EMAIL_VERIFICATION && rows[k].usedAt.None?
      then rows[k].(expiresAt := now) else rows[k]
  }

  /** Everything an unverified registration created goes, when the provider vouches for the email. */
  function TakeOver(db: Db, email: Address, now: Time): Db
    requires email in db.emails && db.emails[email].userId in db.users
  {
    var user := db.emails[email].userId;
    var verified := db.(
      emails := db.emails[email := db.emails[email].(isVerified := true, verifiedAt := Some(now))],
      userTokens := ExpireUnused(db.userTokens, user, now));
    var stripped := if db.users[user].passwordHash.Some? then SetCredential(verified, user, None, now) else verified;
    RevokeSessions(stripped, ByUser(user), SECURITY, now)
  }

  function LinkToExistingUser(db: Db, p: Profile, now: Time): Db
    requires p.email in db.emails && db.emails[p.email].userId in db.users
  {
    var user := db.emails[p.email].userId;
    var linked := db.(identities := db.identities[p.identity := user]);
    var settled := if db.emails[p.email].isVerified then linked else TakeOver(linked, p.email, now);
    Log(settled, IDENTITY_LINKED, user, None)
  }

  ghost function ResolveIdentity(db: Db, p: Profile, newUser: UserId, now: Time): (Db, IdentityOutcome) {
    if p.identity in db.identities then
      var user := db.identities[p.identity];
      if user !in db.users || !IsUsable(db.users[user]) then (db, AccountUnavailable)
      else (db, Resolved(user, PrimaryEmailVerified(db, user)))
    else if !p.emailVerified then (db, EmailUnverified)
    else if p.email !in db.emails then (CreateExternalUser(db, p, newUser, now), Resolved(newUser, true))
    else
      var user := db.emails[p.email].userId;
      if user !in db.users || !IsUsable(db.users[user]) then (db, AccountUnavailable)
      else (LinkToExistingUser(db, p, now), Resolved(user, true))
  }

  // ----- email verification -----

  datatype VerificationConfig = VerificationConfig(cooldownSeconds: nat, tokenTtlHours: nat) {
    predicate Valid() { cooldownSeconds > 0 && tokenTtlHours > 0 }
  }

  const MS_PER_HOUR := 3600000

  function NewVerificationToken(vcfg: VerificationConfig, user: UserId, email: Address, now: Time): UserToken {
    UserToken(user, EMAIL_VERIFICATION, Some(email), now, now + MS_PER_HOUR * vcfg.tokenTtlHours, None)
  }

  predicate IsVerificationToken(row: UserToken, user: UserId, email: Address) {
    row.userId == user && row.kind == EMAIL_VERIFICATION && row.email == Some(email)
  }

  /** A registration creates an account only for an address that has no row yet. */
  function Register(
      vcfg: VerificationConfig, db: Db, email: Address, user: UserId, hash: PasswordHash, tid: UserTokenId, now: Time)
    : Db {
    if email in db.emails then db
    else
      db.(users := db.users[user := NewUser(Some(hash), now)],
          emails := db.emails[email := UserEmail(user, true, false, None)],
          userTokens := db.userTokens[tid := NewVerificationToken(vcfg, user, email, now)])
  }

  /** The latest verification token of the email was created less than the cooldown ago. */
  predicate IsCooldownActive(
      vcfg: VerificationConfig, rows: map<UserTokenId, UserToken>, user: UserId, email: Address, now: Time) {
    exists k :: k in rows && IsVerificationToken(rows[k], user, email)
                && now < rows[k].createdAt + vcfg.cooldownSeconds * MS_PER_SECOND
  }

  function ExpireAll(
      rows: map<UserTokenId, UserToken>, user: UserId, email: Address, now: Time): map<UserTokenId, UserToken> {
    map k | k in rows :: if IsVerificationToken(rows[k], user, email) then rows[k].(expiresAt := now) else rows[k]
  }

  function Resend(vcfg: VerificationConfig, db: Db, email: Address, tid: UserTokenId, now: Time): Db {
    if email !in db.emails || db.emails[email].isVerified
       || IsCooldownActive(vcfg, db.userTokens, db.emails[email].userId, email, now)
    then db
    else
      var user := db.emails[email].userId;
      db.(userTokens := ExpireAll(db.userTokens, user, email, now)[tid := NewVerificationToken(vcfg, user, email, now)])
  }

  predicate IsLiveVerification(row: UserToken, now: Time) {
    row.kind == EMAIL_VERIFICATION && row.usedAt.None? && row.expiresAt > now
  }

  /** The verification link is accepted. */
  predicate Confirms(db: Db, k: UserTokenId, now: Time) {
    && k in db.userTokens && IsLiveVerification(db.userTokens[k], now) && db.userTokens[k].email.Some?
    && db.userTokens[k].email.value in db.emails
  }

  function VerifyEmail(db: Db, k: UserTokenId, now: Time): Db {
    if !Confirms(db, k, now) then db
    else
      var row := db.userTokens[k];
      var email := row.email.value;
      Log(db.(userTokens := db.userTokens[k := row.(usedAt := Some(now))],
              emails := db.emails[email := db.emails[email].(isVerified := true, verifiedAt := Some(now))]),
          EMAIL_VERIFIED, row.userId, None)
  }

  // ----- cleanup -----

  /**
   * A cleanup pass deletes rows that expired before the cutoff, used or not; `tokens` and
   * `userTokens` say which of them its batches reached.
   */
  function CleanUp(
      db: Db, tokens: set<TokenId>, tokenCutoff: Time, userTokens: set<UserTokenId>, userTokenCutoff: Time): Db {
    db.(tokens := db.tokens - (set k | k in tokens && k in db.tokens && db.tokens[k].expiresAt < tokenCutoff),
        userTokens := db.userTokens - (set k | k in userTokens && k in db.userTokens
                                       && db.userTokens[k].expiresAt < userTokenCutoff))
  }
}
