/** Cleanup passes, wherever they fall in a run, change nothing that anyone is told. */
module CleanupInvisible {
  import opened AuthModel
  import opened AuthDb
  import opened SessionLaws
  import opened Runs
  import opened Forward
  import opened Accounts
  import opened Verification
  import opened CleanupSimulation

  // ----- verification tokens, operation by operation -----

  lemma UntouchedMailAgrees(settings: Settings, resends: bool, now: Time, a: Db, b: Db, a': Db, b': Db)
    requires MailAgrees(settings, resends, now, a, b)
    requires a'.userTokens == a.userTokens && a'.emails == a.emails && b'.userTokens == b.userTokens
    ensures MailAgrees(settings, resends, now, a', b')
  {
  }

  lemma LinkedMailAgrees(settings: Settings, resends: bool, now: Time, a: Db, b: Db, p: Profile)
    requires MailAgrees(settings, resends, now, a, b) && a.emails == b.emails && a.users == b.users
    requires p.email in a.emails && a.emails[p.email].userId in a.users
    ensures MailAgrees(settings, resends, now, LinkToExistingUser(a, p, now), LinkToExistingUser(b, p, now))
  {
    LinkOnMail(a, p, now);
    LinkOnMail(b, p, now);
  }

  lemma CreatedMailAgrees(settings: Settings, resends: bool, now: Time, a: Db, b: Db, p: Profile, newUser: UserId)
    requires MailAgrees(settings, resends, now, a, b) && p.email !in a.emails
    ensures MailAgrees(settings, resends, now, CreateExternalUser(a, p, newUser, now),
                       CreateExternalUser(b, p, newUser, now))
  {
  }

  lemma SignInMailAgrees(settings: Settings, resends: bool, now: Time, a: Db, b: Db, p: Profile, newUser: UserId)
    requires MailAgrees(settings, resends, now, a, b)
    requires a.users == b.users && a.emails == b.emails && a.identities == b.identities
    ensures MailAgrees(settings, resends, now, ResolveIdentity(a, p, newUser, now).0,
                       ResolveIdentity(b, p, newUser, now).0)
  {
    if p.identity in a.identities || !p.emailVerified {
    } else if p.email !in a.emails {
      CreatedMailAgrees(settings, resends, now, a, b, p, newUser);
    } else if a.emails[p.email].userId in a.users {
      LinkedMailAgrees(settings, resends, now, a, b, p);
    }
  }

  lemma SignUpMailAgrees(
      settings: Settings, resends: bool, now: Time, a: Db, b: Db, email: Address, user: UserId, hash: PasswordHash,
      mail: UserTokenId)
    requires MailAgrees(settings, resends, now, a, b) && a.emails == b.emails && mail !in a.userTokens
    ensures MailAgrees(settings, resends, now, Register(settings.verification, a, email, user, hash, mail, now),
                       Register(settings.verification, b, email, user, hash, mail, now))
  {
  }

  /** Cleanup never lets a resend through that the deleted rows would have held back. */
  lemma CooldownsAgree(settings: Settings, now: Time, a: Db, b: Db, email: Address)
    requires MailAgrees(settings, true, now, a, b) && a.emails == b.emails
    requires email in a.emails && !a.emails[email].isVerified
    ensures var user := a.emails[email].userId;
      IsCooldownActive(settings.verification, a.userTokens, user, email, now)
        == IsCooldownActive(settings.verification, b.userTokens, user, email, now)
  {
    var user := a.emails[email].userId;
    if IsCooldownActive(settings.verification, a.userTokens, user, email, now) {
      var k :| k in a.userTokens && IsVerificationToken(a.userTokens[k], user, email)
               && now < a.userTokens[k].createdAt + settings.verification.cooldownSeconds * MS_PER_SECOND;
      assert !PastCooldown(settings, a, a.userTokens[k], now);
      assert k in b.userTokens && IsVerificationToken(b.userTokens[k], user, email);
    }
  }

  lemma ReplacedMailAgrees(
      settings: Settings, now: Time, a: Db, b: Db, email: Address, user: UserId, mail: UserTokenId, row: UserToken)
    requires MailAgrees(settings, true, now, a, b) && mail !in a.userTokens
    ensures MailAgrees(settings, true, now, a.(userTokens := ExpireAll(a.userTokens, user, email, now)[mail := row]),
                       b.(userTokens := ExpireAll(b.userTokens, user, email, now)[mail := row]))
  {
  }

  lemma ResendMailAgrees(settings: Settings, now: Time, a: Db, b: Db, email: Address, mail: UserTokenId)
    requires MailAgrees(settings, true, now, a, b) && a.emails == b.emails && mail !in a.userTokens
    ensures Sends(settings, a, ResendMail(email, mail), now, email)
      == Sends(settings, b, ResendMail(email, mail), now, email)
    ensures MailAgrees(settings, true, now, Resend(settings.verification, a, email, mail, now),
                       Resend(settings.verification, b, email, mail, now))
  {
    if email in a.emails && !a.emails[email].isVerified {
      CooldownsAgree(settings, now, a, b, email);
      var user := a.emails[email].userId;
      ReplacedMailAgrees(settings, now, a, b, email, user, mail,
                         NewVerificationToken(settings.verification, user, email, now));
    }
  }

  lemma ConfirmationsAgree(settings: Settings, resends: bool, now: Time, a: Db, b: Db, mail: UserTokenId)
    requires Alike(now, a, b) && MailAgrees(settings, resends, now, a, b)
    ensures Confirms(a, mail, now) == Confirms(b, mail, now)
    ensures Alike(now, VerifyEmail(a, mail, now), VerifyEmail(b, mail, now))
    ensures MailAgrees(settings, resends, now, VerifyEmail(a, mail, now), VerifyEmail(b, mail, now))
  {
  }

  /** A cleanup pass on the right only: what it deletes has expired, and blocks nobody any more. */
  lemma CleaningStaysAlike(
      settings: Settings, now: Time, a: Db, b: Db, tokens: set<TokenId>, userTokens: set<UserTokenId>)
    requires settings.Valid() && Alike(now, a, b)
    ensures Alike(now, a, Transact(settings, b, Clean(tokens, userTokens), now))
  {
  }

  lemma CleaningMailAgrees(
      settings: Settings, resends: bool, now: Time, a: Db, b: Db, tokens: set<TokenId>, userTokens: set<UserTokenId>)
    requires settings.Valid() && MailAgrees(settings, resends, now, a, b) && RowsGuarded(settings, a, now)
    requires resends ==> CooldownIsRetained(settings)
    ensures MailAgrees(settings, resends, now, a, Transact(settings, b, Clean(tokens, userTokens), now))
  {
  }

  // ----- one operation -----

  datatype Reply =
    | Rotation(answer: Answer)
    | Identity(outcome: IdentityOutcome)
    | Mailed(sent: bool)
    | Confirmed(accepted: bool)
    | Done

  /** What the caller of an operation is told, as far as it depends on the tables. */
  ghost function ReplyTo(settings: Settings, db: Db, op: Op, now: Time): Reply
    requires settings.Valid()
  {
    match op
    case Refresh(token, child) => Rotation(AnswerOf(Rotate(settings.session, db, token, child, now).1))
    case SignInExternally(p, newUser) => Identity(ResolveIdentity(db, p, newUser, now).1)
    case SignUp(email, _, _, _) => Mailed(Sends(settings, db, op, now, email))
    case ResendMail(email, _) => Mailed(Sends(settings, db, op, now, email))
    case ConfirmEmail(mail) => Confirmed(Confirms(db, mail, now))
    case _ => Done
  }

  /** Two worlds at the same moment, alike but for what cleanup removed from `b`. */
  ghost predicate Simulates(settings: Settings, resends: bool, a: World, b: World) {
    && a.clock == b.clock && a.minted == b.minted && a.mailed == b.mailed
    && Alike(a.clock, a.db, b.db) && MailAgrees(settings, resends, a.clock, a.db, b.db)
  }

  /** What the simulation needs to know of the run without cleanup. */
  ghost predicate Healthy(settings: Settings, w: World) {
    && WorldOk(w) && MailOk(w.db, w.clock) && OneLive(w.db, w.clock) && AccountsOk(w.db)
    && RowsGuarded(settings, w.db, w.clock)
  }

  lemma DoKeepsHealthy(settings: Settings, w: World, op: Op)
    requires settings.Valid() && Admissible(settings, w, op) && Healthy(settings, w)
    ensures Healthy(settings, Do(settings, w, op))
  {
    DoKeepsWorldOk(settings, w, op);
    DoKeepsMail(settings, w, op);
    TransactOnMail(settings, w, op);
    var db' := Transact(settings, w.db, op, w.clock);
    if (op.SignUp? || op.ResendMail?) && Sends(settings, w.db, op, w.clock, op.email) {
      SentKeepsRows(settings, w.db, db', op.email, op.mail, w.clock);
    } else {
      QuietKeepsRows(settings, w.db, db', w.clock, Do(settings, w, op).clock);
    }
  }

  /** Whatever may run without cleanup may run with it. */
  lemma AdmissibleOnBoth(settings: Settings, resends: bool, a: World, b: World, op: Op)
    requires settings.Valid() && Simulates(settings, resends, a, b) && Admissible(settings, a, op)
    ensures Admissible(settings, b, op)
  {
    if op.Login? {
      ActivesAgree(a.clock, a.db, b.db, op.user, op.order);
    }
  }

  predicate IsSessionOp(op: Op) {
    op.Login? || op.Refresh? || op.EndSession? || op.EndAllSessions? || op.ReplacePassword? || op.Administer?
      || op.Wait?
  }

  lemma SessionOpsSimulate(settings: Settings, resends: bool, a: World, b: World, op: Op)
    requires settings.Valid() && Simulates(settings, resends, a, b) && Admissible(settings, a, op)
    requires Healthy(settings, a)
    requires IsSessionOp(op)
    ensures Alike(a.clock, Transact(settings, a.db, op, a.clock), Transact(settings, b.db, op, a.clock))
    ensures ReplyTo(settings, a.db, op, a.clock) == ReplyTo(settings, b.db, op, a.clock)
  {
    match op
    case Login(user, order, sid, family, tid) =>
      LoginsAgree(settings.session, a.clock, a.db, b.db, user, order, sid, family, tid);
    case Refresh(token, child) => RotationsAgree(settings.session, a.clock, a.db, b.db, token, child);
    case EndSession(sid) => LogoutsAgree(a.clock, a.db, b.db, sid);
    case EndAllSessions(user, initiating) => LogoutAllsAgree(a.clock, a.db, b.db, user, initiating);
    case ReplacePassword(user, sid, expiresAt, hash, tid, requestedAt) =>
      PasswordChangesAgree(settings.session, a.clock, a.db, b.db, user, sid, expiresAt, hash, tid, requestedAt);
    case _ =>
  }

  lemma AccountOpsSimulate(settings: Settings, resends: bool, a: World, b: World, op: Op)
    requires settings.Valid() && Simulates(settings, resends, a, b) && Admissible(settings, a, op)
    requires Healthy(settings, a)
    requires op.SignInExternally? || op.SignUp? || op.ConfirmEmail? || (op.ResendMail? && resends)
    ensures Alike(a.clock, Transact(settings, a.db, op, a.clock), Transact(settings, b.db, op, a.clock))
    ensures MailAgrees(settings, resends, a.clock, Transact(settings, a.db, op, a.clock),
                       Transact(settings, b.db, op, a.clock))
    ensures ReplyTo(settings, a.db, op, a.clock) == ReplyTo(settings, b.db, op, a.clock)
  {
    match op
    case SignInExternally(p, newUser) =>
      SignInsAgree(a.clock, a.db, b.db, p, newUser);
      SignInMailAgrees(settings, resends, a.clock, a.db, b.db, p, newUser);
    case SignUp(email, user, hash, mail) =>
      RegistrationsAgree(settings.verification, a.clock, a.db, b.db, email, user, hash, mail);
      SignUpMailAgrees(settings, resends, a.clock, a.db, b.db, email, user, hash, mail);
    case ResendMail(email, mail) =>
      ResendsAgree(settings.verification, a.clock, a.db, b.db, email, mail);
      ResendMailAgrees(settings, a.clock, a.db, b.db, email, mail);
    case ConfirmEmail(mail) => ConfirmationsAgree(settings, resends, a.clock, a.db, b.db, mail);
  }

  lemma MailAgreesLater(settings: Settings, resends: bool, now: Time, later: Time, a: Db, b: Db)
    requires MailAgrees(settings, resends, now, a, b) && now <= later
    ensures MailAgrees(settings, resends, later, a, b)
  {
  }

  lemma StepSimulates(settings: Settings, resends: bool, a: World, b: World, op: Op)
    requires settings.Valid() && Simulates(settings, resends, a, b) && Admissible(settings, a, op)
    requires Healthy(settings, a)
    requires !op.Clean? && !op.EndByToken? && (op.ResendMail? ==> resends)
    ensures Simulates(settings, resends, Do(settings, a, op), Do(settings, b, op))
    ensures ReplyTo(settings, a.db, op, a.clock) == ReplyTo(settings, b.db, op, b.clock)
  {
    var a', b' := Transact(settings, a.db, op, a.clock), Transact(settings, b.db, op, b.clock);
    if IsSessionOp(op) {
      SessionOpsSimulate(settings, resends, a, b, op);
      SessionOpsAreQuiet(settings, a, op);
      SessionOpsAreQuiet(settings, b, op);
      UntouchedMailAgrees(settings, resends, a.clock, a.db, b.db, a', b');
    } else {
      AccountOpsSimulate(settings, resends, a, b, op);
    }
    AlikeLater(a.clock, Do(settings, a, op).clock, a', b');
    MailAgreesLater(settings, resends, a.clock, Do(settings, a, op).clock, a', b');
  }

  lemma CleanSimulates(settings: Settings, resends: bool, a: World, b: World, op: Op)
    requires settings.Valid() && Simulates(settings, resends, a, b) && Healthy(settings, a) && op.Clean?
    requires resends ==> CooldownIsRetained(settings)
    ensures Admissible(settings, b, op) && Simulates(settings, resends, a, Do(settings, b, op))
  {
    CleaningStaysAlike(settings, a.clock, a.db, b.db, op.tokens, op.userTokens);
    CleaningMailAgrees(settings, resends, a.clock, a.db, b.db, op.tokens, op.userTokens);
  }

  // ----- whole runs -----

  /** The run without its cleanup passes. */
  function Uncleaned(ops: seq<Op>): seq<Op> {
    if ops == [] then [] else (if ops[0].Clean? then [] else [ops[0]]) + Uncleaned(ops[1..])
  }

  /** The replies of a run, in order; a cleanup pass replies to nobody. */
  ghost function Replies(settings: Settings, w: World, ops: seq<Op>): seq<Reply>
    requires settings.Valid()
    decreases |ops|
  {
    if ops == [] then []
    else
      (if ops[0].Clean? then [] else [ReplyTo(settings, w.db, ops[0], w.clock)])
      + Replies(settings, Do(settings, w, ops[0]), ops[1..])
  }

  /** Resending is the only operation that needs cleanup to wait for the cooldown. */
  ghost predicate Covered(settings: Settings, resends: bool, ops: seq<Op>) {
    && (resends ==> CooldownIsRetained(settings))
    && forall i :: 0 <= i < |ops| ==> !ops[i].EndByToken? && (ops[i].ResendMail? ==> resends)
  }

  lemma {:induction false} RunsSimulate(settings: Settings, resends: bool, a: World, b: World, ops: seq<Op>)
    requires settings.Valid() && Covered(settings, resends, ops) && Healthy(settings, a)
    requires Simulates(settings, resends, a, b)
    requires IsRun(settings, a, Uncleaned(ops))
    ensures IsRun(settings, b, ops)
    ensures Replies(settings, b, ops) == Replies(settings, a, Uncleaned(ops))
    ensures Simulates(settings, resends, DoAll(settings, a, Uncleaned(ops)), DoAll(settings, b, ops))
    ensures Healthy(settings, DoAll(settings, a, Uncleaned(ops)))
    decreases |ops|
  {
    if ops != [] {
      var op, rest := ops[0], ops[1..];
      if op.Clean? {
        assert Uncleaned(ops) == Uncleaned(rest);
        CleanSimulates(settings, resends, a, b, op);
        RunsSimulate(settings, resends, a, Do(settings, b, op), rest);
      } else {
        assert Uncleaned(ops)[0] == op && Uncleaned(ops)[1..] == Uncleaned(rest);
        assert !op.EndByToken? && (op.ResendMail? ==> resends);
        AdmissibleOnBoth(settings, resends, a, b, op);
        StepSimulates(settings, resends, a, b, op);
        DoKeepsHealthy(settings, a, op);
        RunsSimulate(settings, resends, Do(settings, a, op), Do(settings, b, op), rest);
      }
    }
  }

  /**
   * Insert cleanup passes anywhere into any run of logins, rotations, revocations, password changes,
   * registrations, verifications and external sign-ins. Every reply stays the same, every theft alarm
   * included, and the tokens still usable at the end are the same.
   */
  lemma CleanupIsInvisible(settings: Settings, resends: bool, w: World, ops: seq<Op>)
    requires settings.Valid() && Covered(settings, resends, ops) && Healthy(settings, w)
    requires IsRun(settings, w, Uncleaned(ops))
    ensures IsRun(settings, w, ops)
    ensures Replies(settings, w, ops) == Replies(settings, w, Uncleaned(ops))
    ensures var uncleaned := DoAll(settings, w, Uncleaned(ops)); var cleaned := DoAll(settings, w, ops);
      && uncleaned.clock == cleaned.clock
      && forall k :: IsUsableToken(cleaned.db, k, cleaned.clock) <==> IsUsableToken(uncleaned.db, k, cleaned.clock)
  {
    RunsSimulate(settings, resends, w, w, ops);
    UsableAlike(DoAll(settings, w, Uncleaned(ops)).clock, DoAll(settings, w, Uncleaned(ops)).db,
                DoAll(settings, w, ops).db);
  }

  lemma UsableAlike(now: Time, a: Db, b: Db)
    requires Alike(now, a, b) && Sound(a)
    ensures forall k :: IsUsableToken(a, k, now) <==> IsUsableToken(b, k, now)
  {
  }

  /** The cleanup pass deletes the row of `k`, whose session has not been revoked yet. */
  predicate TakesTheCookie(settings: Settings, w: World, k: TokenId, tokens: set<TokenId>) {
    && k in tokens && k in w.db.tokens && w.db.tokens[k].expiresAt < w.clock - settings.tokenRetentionDays * MS_PER_DAY
    && w.db.tokens[k].sessionId in w.db.sessions && w.db.sessions[w.db.tokens[k].sessionId].revokedAt.None?
  }

  /** Logouts read the sessions and the token's session only. */
  lemma LogoutsSeeSessions(a: Db, b: Db, sid: SessionId, now: Time)
    requires a.sessions == b.sessions
    ensures Logout(a, sid, now).sessions == Logout(b, sid, now).sessions
  {
  }

  lemma LogoutEndsOne(db: Db, sid: SessionId, now: Time)
    ensures NewlyRevoked(db, Logout(db, sid, now))
              == if sid in db.sessions && db.sessions[sid].revokedAt.None? then {sid} else {}
  {
  }

  /**
   * Logging out by refresh cookie is the exception, and this is all of it: a cleanup pass changes which
   * sessions the logout leaves revoked exactly when it deletes the cookie's row while the session is
   * unrevoked. Then the logout ends that session without the pass, and nothing after it.
   */
  lemma CookieLogoutSeesCleanup(
      settings: Settings, w: World, k: TokenId, tokens: set<TokenId>, userTokens: set<UserTokenId>)
    requires settings.Valid()
    ensures var kept := DoAll(settings, w, [EndByToken(k)]).db;
      var cleaned := DoAll(settings, w, [Clean(tokens, userTokens), EndByToken(k)]).db;
      && (kept.sessions != cleaned.sessions <==> TakesTheCookie(settings, w, k, tokens))
      && (TakesTheCookie(settings, w, k, tokens) ==>
            NewlyRevoked(w.db, kept) == {w.db.tokens[k].sessionId} && cleaned.sessions == w.db.sessions)
  {
    var clean := Clean(tokens, userTokens);
    var w1 := Do(settings, w, clean);
    assert [clean, EndByToken(k)][1..] == [EndByToken(k)] && [EndByToken(k)][1..] == [];
    assert DoAll(settings, w1, [EndByToken(k)]) == Do(settings, w1, EndByToken(k));
    if k in w.db.tokens {
      var sid := w.db.tokens[k].sessionId;
      LogoutEndsOne(w.db, sid, w.clock);
      LogoutsSeeSessions(w.db, w1.db, sid, w.clock);
      assert sid !in w.db.sessions || w.db.sessions[sid].revokedAt.Some? ==> Logout(w.db, sid, w.clock) == w.db;
    }
  }

  /** Every state that a run from empty tables reaches meets the hypotheses of the theorems on whole runs. */
  lemma RunsFromTheStartAreHealthy(settings: Settings, clock: Time, ops: seq<Op>)
    requires settings.Valid() && IsRun(settings, World(EMPTY_DB, clock, {}, {}), ops)
    ensures Healthy(settings, DoAll(settings, World(EMPTY_DB, clock, {}, {}), ops))
  {
    RunKeepsHealthy(settings, World(EMPTY_DB, clock, {}, {}), ops);
  }

  lemma {:induction false} RunKeepsHealthy(settings: Settings, w: World, ops: seq<Op>)
    requires settings.Valid() && IsRun(settings, w, ops) && Healthy(settings, w)
    ensures Healthy(settings, DoAll(settings, w, ops))
    decreases |ops|
  {
    if ops != [] {
      DoKeepsHealthy(settings, w, ops[0]);
      RunKeepsHealthy(settings, Do(settings, w, ops[0]), ops[1..]);
    }
  }
}
