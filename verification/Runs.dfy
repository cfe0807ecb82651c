/**
 * Runs of whole transactions: each operation of the services takes effect at one instant, in any
 * order, with time passing and cleanup passes in between.
 */
module Runs {
  import opened AuthModel
  import opened AuthDb

  const MS_PER_DAY := 24 * 60 * 60 * 1000

  datatype Settings = Settings(
    session: SessionConfig,
    verification: VerificationConfig,
    tokenRetentionDays: nat,
    userTokenRetentionDays: nat)
  {
    predicate Valid() { session.Valid() && verification.Valid() }
  }

  datatype Op =
    | Login(user: UserId, order: seq<SessionId>, sid: SessionId, family: FamilyId, tid: TokenId)
    | Refresh(token: TokenId, child: TokenId)
    | EndSession(sid: SessionId)
    | EndByToken(token: TokenId)
    | EndAllSessions(user: UserId, initiating: Option<SessionId>)
    | ReplacePassword(user: UserId, sid: SessionId, sessionExpiresAt: Time, hash: PasswordHash, tid: TokenId,
                      requestedAt: Time)
    | SignInExternally(profile: Profile, newUser: UserId)
    | SignUp(email: Address, newUser: UserId, hash: PasswordHash, mail: UserTokenId)
    | ResendMail(email: Address, mail: UserTokenId)
    | ConfirmEmail(mail: UserTokenId)
    | Administer(user: UserId, status: UserStatus, deletedAt: Option<Time>)
    | Clean(tokens: set<TokenId>, userTokens: set<UserTokenId>)
    | Wait(until: Time)

  /** The tables, the clock, and as history every refresh and verification token so far, deleted ones included. */
  datatype World = World(db: Db, clock: Time, minted: set<TokenId>, mailed: set<UserTokenId>)

  function SetStatus(db: Db, user: UserId, status: UserStatus, deletedAt: Option<Time>): Db {
    if user !in db.users then db
    else db.(users := db.users[user := db.users[user].(status := status, deletedAt := deletedAt)])
  }

  /** The refresh token that an operation mints. */
  function MintedBy(op: Op): set<TokenId> {
    match op
    case Login(_, _, _, _, tid) => {tid}
    case Refresh(_, child) => {child}
    case ReplacePassword(_, _, _, _, tid, _) => {tid}
    case _ => {}
  }

  /** The verification token that an operation may create. */
  function MailedBy(op: Op): set<UserTokenId> {
    match op
    case SignUp(_, _, _, mail) => {mail}
    case ResendMail(_, mail) => {mail}
    case _ => {}
  }

  /** The database after one operation at time `now`. */
  ghost function Transact(settings: Settings, db: Db, op: Op, now: Time): Db
    requires settings.Valid()
  {
    match op
    case Login(user, order, sid, family, tid) => CreateSession(settings.session, db, user, order, sid, family, tid, now)
    case Refresh(token, child) => Rotate(settings.session, db, token, child, now).0
    case EndSession(sid) => Logout(db, sid, now)
    case EndByToken(token) => if token in db.tokens then Logout(db, db.tokens[token].sessionId, now) else db
    case EndAllSessions(user, initiating) => LogoutAll(db, user, initiating, now)
    case ReplacePassword(user, sid, sessionExpiresAt, hash, tid, requestedAt) =>
      if user in db.users then CommitPasswordChange(settings.session, db, user, sid, sessionExpiresAt, hash, tid,
                                                    requestedAt) else db
    case SignInExternally(profile, newUser) => ResolveIdentity(db, profile, newUser, now).0
    case SignUp(email, newUser, hash, mail) => Register(settings.verification, db, email, newUser, hash, mail, now)
    case ResendMail(email, mail) => Resend(settings.verification, db, email, mail, now)
    case ConfirmEmail(mail) => VerifyEmail(db, mail, now)
    case Administer(user, status, deletedAt) => SetStatus(db, user, status, deletedAt)
    case Clean(tokens, userTokens) =>
      CleanUp(db, tokens, now - settings.tokenRetentionDays * MS_PER_DAY,
              userTokens, now - settings.userTokenRetentionDays * MS_PER_DAY)
    case Wait(_) => db
  }

  /** A password change commits after its check passed at `requestedAt`: the row was live then. */
  predicate PasswordCheckHeld(
      db: Db, user: UserId, sid: SessionId, sessionExpiresAt: Time, requestedAt: Time, now: Time) {
    && user in db.users && sid in db.sessions && db.sessions[sid].userId == user
    && db.sessions[sid].expiresAt == sessionExpiresAt && requestedAt < sessionExpiresAt && requestedAt <= now
  }

  /** Fresh random ids, the database's own listing, and a clock that never goes back. */
  ghost predicate Admissible(settings: Settings, w: World, op: Op) {
    && MintedBy(op) !! w.minted && MailedBy(op) !! w.mailed
    && match op
       case Login(user, order, sid, _, _) =>
         sid !in w.db.sessions && user in w.db.users
         && IsLruListing(w.db.sessions, ActiveSessions(w.db.sessions, user, w.clock), order)
       case ReplacePassword(user, sid, sessionExpiresAt, _, _, requestedAt) =>
         PasswordCheckHeld(w.db, user, sid, sessionExpiresAt, requestedAt, w.clock)
       case SignInExternally(_, newUser) => newUser !in w.db.users
       case SignUp(_, newUser, _, mail) => newUser !in w.db.users && mail !in w.db.userTokens
       case ResendMail(_, mail) => mail !in w.db.userTokens
       case Wait(until) => w.clock <= until
       case _ => true
  }

  ghost function Do(settings: Settings, w: World, op: Op): World
    requires settings.Valid()
  {
    World(Transact(settings, w.db, op, w.clock), if op.Wait? then op.until else w.clock,
          w.minted + MintedBy(op), w.mailed + MailedBy(op))
  }

  ghost predicate IsRun(settings: Settings, w: World, ops: seq<Op>)
    requires settings.Valid()
    decreases |ops|
  {
    ops != [] ==> Admissible(settings, w, ops[0]) && IsRun(settings, Do(settings, w, ops[0]), ops[1..])
  }

  ghost function DoAll(settings: Settings, w: World, ops: seq<Op>): World
    requires settings.Valid()
    decreases |ops|
  {
    if ops == [] then w else DoAll(settings, Do(settings, w, ops[0]), ops[1..])
  }

  // ----- session operations leave the accounts alone -----

  ghost predicate SameAccountTables(a: Db, b: Db) {
    a.users == b.users && a.emails == b.emails && a.identities == b.identities && a.userTokens == b.userTokens
  }

  lemma RotationLeavesAccounts(cfg: SessionConfig, db: Db, token: TokenId, child: TokenId, now: Time)
    ensures SameAccountTables(db, Rotate(cfg, db, token, child, now).0)
  {
  }

  lemma LoginLeavesAccounts(
      cfg: SessionConfig, db: Db, user: UserId, order: seq<SessionId>, sid: SessionId, family: FamilyId, tid: TokenId,
      now: Time)
    requires cfg.Valid()
    ensures SameAccountTables(db, CreateSession(cfg, db, user, order, sid, family, tid, now))
  {
  }

  lemma LogoutsLeaveAccounts(db: Db, sid: SessionId, user: UserId, initiating: Option<SessionId>, now: Time)
    ensures SameAccountTables(db, Logout(db, sid, now)) && SameAccountTables(db, LogoutAll(db, user, initiating, now))
  {
  }

  predicate IsSessionOnly(op: Op) {
    op.Login? || op.Refresh? || op.EndSession? || op.EndByToken? || op.EndAllSessions?
  }

  lemma SessionOpsLeaveAccounts(settings: Settings, db: Db, op: Op, now: Time)
    requires settings.Valid() && IsSessionOnly(op)
    ensures SameAccountTables(db, Transact(settings, db, op, now))
  {
    match op
    case Login(user, order, sid, family, tid) =>
      LoginLeavesAccounts(settings.session, db, user, order, sid, family, tid, now);
    case Refresh(token, child) => RotationLeavesAccounts(settings.session, db, token, child, now);
    case EndSession(sid) => LogoutsLeaveAccounts(db, sid, 0, None, now);
    case EndByToken(token) =>
      if token in db.tokens {
        LogoutsLeaveAccounts(db, db.tokens[token].sessionId, 0, None, now);
      }
    case EndAllSessions(user, initiating) => LogoutsLeaveAccounts(db, 0, user, initiating, now);
  }
}
