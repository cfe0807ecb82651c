/**
 * What the account operations do, told by the columns of the rows alone: who is let in, who is refused with
 * which answer, and which rows change to what.
 */
module AccountRows {
  import opened AuthModel
  import opened AuthDb
  import opened SessionRows
  import opened Lockout

  /** The account exists, is active and is not deleted. */
  predicate IsOpen(db: Db, user: UserId) {
    user in db.users && db.users[user].status == ACTIVE && db.users[user].deletedAt.None?
  }

  /** The account has a password, and is open. */
  predicate HasPassword(db: Db, user: UserId) {
    IsOpen(db, user) && db.users[user].passwordHash.Some?
  }

  /** `user` has this credential since `now` and no lockout; every other user is as before. */
  ghost predicate CredentialSet(
      a: map<UserId, User>, b: map<UserId, User>, user: UserId, hash: Option<PasswordHash>, now: Time) {
    && b.Keys == a.Keys
    && forall u :: u in a ==>
        b[u] == if u != user then a[u]
                else a[u].(passwordHash := hash, passwordChangedAt := Some(now), mustChangePassword := false,
                           failedAttempts := 0, lockedUntil := None)
  }

  // ----- password change -----

  /** The session row that a password change insists on. */
  predicate IsRunningSessionOf(db: Db, user: UserId, sid: SessionId, now: Time) {
    sid in db.sessions && db.sessions[sid].userId == user && db.sessions[sid].revokedAt.None?
    && now < db.sessions[sid].expiresAt
  }

  /** The checks that come before the two passwords are looked at. */
  predicate MayTryToChange(db: Db, user: UserId, sid: SessionId, now: Time) {
    IsRunningSessionOf(db, user, sid, now) && HasPassword(db, user)
  }

  /** Nothing stands against the change. */
  predicate MayChange(db: Db, user: UserId, sid: SessionId, proof: PasswordProof, now: Time) {
    MayTryToChange(db, user, sid, now) && proof.currentMatches && !proof.sameAsCurrent
  }

  /** Which refusal goes with which rows and passwords. */
  predicate AnswersTheChange(
      db: Db, user: UserId, sid: SessionId, proof: PasswordProof, now: Time, outcome: PasswordOutcome) {
    && (outcome.PasswordChanged? <==> MayChange(db, user, sid, proof, now))
    && (outcome == PasswordRefused(SessionInactive) <==>
          !IsRunningSessionOf(db, user, sid, now) || !IsOpen(db, user))
    && (outcome == PasswordRefused(NoPasswordCredential) <==>
          IsRunningSessionOf(db, user, sid, now) && IsOpen(db, user) && !HasPassword(db, user))
    && (outcome == PasswordRefused(InvalidCurrentPassword) <==>
          MayTryToChange(db, user, sid, now) && !proof.currentMatches)
    && (outcome == PasswordRefused(PasswordUnchanged) <==>
          MayTryToChange(db, user, sid, now) && proof.currentMatches && proof.sameAsCurrent)
  }

  /** The other sessions of the user that are not over. */
  function OthersOf(db: Db, user: UserId, sid: SessionId): set<SessionId> {
    SessionsOf(db, user) - {sid}
  }

  /**
   * What an accepted change writes: the new hash; the end of the user's other sessions; the end of every token
   * of theirs and of the caller's session, but for a new one of that session; and one event.
   */
  ghost predicate ChangeWrites(
      cfg: SessionConfig, before: Db, after: Db, user: UserId, sid: SessionId, sessionEnd: Time, hash: PasswordHash,
      tid: TokenId, now: Time) {
    && CredentialSet(before.users, after.users, user, Some(hash), now)
    && SessionsEnd(before.sessions, after.sessions, OthersOf(before, user, sid), PASSWORD_CHANGED, now)
    && TokensEnd(before.tokens, after.tokens, OthersOf(before, user, sid) + {sid}, now)
    && after.sessions.Keys == before.sessions.Keys && after.tokens.Keys == before.tokens.Keys + {tid}
    && IsMinted(cfg, after.tokens[tid], sid, sessionEnd, now)
    && after.events == before.events + [AuthEvent(PASSWORD_CHANGED_EVENT, user, Some(sid))]
    && after == before.(users := after.users, sessions := after.sessions, tokens := after.tokens,
                        events := after.events)
  }

  lemma OthersSelection(db: Db, user: UserId, sid: SessionId)
    ensures Selected(db.sessions, ByUserExcept(user, sid)) == OthersOf(db, user, sid)
  {
  }

  lemma CommittedChangeRows(
      cfg: SessionConfig, db: Db, user: UserId, sid: SessionId, sessionEnd: Time, hash: PasswordHash, tid: TokenId,
      now: Time)
    requires user in db.users && tid !in db.tokens
    ensures ChangeWrites(cfg, db, CommitPasswordChange(cfg, db, user, sid, sessionEnd, hash, tid, now), user, sid,
                         sessionEnd, hash, tid, now)
  {
    OthersSelection(db, user, sid);
  }

  lemma ChangeAnswers(
      cfg: SessionConfig, db: Db, user: UserId, sid: SessionId, proof: PasswordProof, tid: TokenId, now: Time)
    ensures AnswersTheChange(db, user, sid, proof, now, ChangePassword(cfg, db, user, sid, proof, tid, now).1)
  {
  }

  /**
   * A password change is accepted exactly for a running session of an open account that has a password, with
   * the current password and another new one. It then stores the new hash and does what ChangeWrites says; it
   * writes nothing at all otherwise, and each refusal has its reason.
   */
  lemma ChangePasswordRows(
      cfg: SessionConfig, db: Db, user: UserId, sid: SessionId, proof: PasswordProof, tid: TokenId, now: Time)
    requires tid !in db.tokens
    ensures var (db', outcome) := ChangePassword(cfg, db, user, sid, proof, tid, now);
      && AnswersTheChange(db, user, sid, proof, now, outcome)
      && (if MayChange(db, user, sid, proof, now)
          then outcome == PasswordChanged(tid)
               && ChangeWrites(cfg, db, db', user, sid, db.sessions[sid].expiresAt, proof.newHash, tid, now)
          else db' == db)
  {
    ChangeAnswers(cfg, db, user, sid, proof, tid, now);
    if MayChange(db, user, sid, proof, now) {
      CommittedChangeRows(cfg, db, user, sid, db.sessions[sid].expiresAt, proof.newHash, tid, now);
    }
  }

  // ----- password login -----

  /** The account behind an address that a password may open: open, and with that address. */
  predicate HasAccount(db: Db, email: Address) {
    email in db.emails && IsOpen(db, db.emails[email].userId)
  }

  /** The rows let a password be tried. */
  predicate MayTry(db: Db, email: Address, now: Time) {
    && HasAccount(db, email) && HasPassword(db, db.emails[email].userId)
    && (db.users[db.emails[email].userId].lockedUntil.Some? ==>
          db.users[db.emails[email].userId].lockedUntil.value <= now)
  }

  /** Which answer goes with which rows, and with the right or a wrong password. */
  predicate AnswersTheAttempt(db: Db, email: Address, valid: bool, now: Time, verdict: LoginVerdict) {
    && (verdict.LoggedIn? <==> MayTry(db, email, now) && valid)
    && (verdict.BadPassword? <==> MayTry(db, email, now) && !valid)
    && (verdict.UserNotFound? <==> !HasAccount(db, email))
    && (verdict.NoPassword? <==> HasAccount(db, email) && !HasPassword(db, db.emails[email].userId))
    && (verdict.LoggedIn? ==> verdict.user == db.emails[email].userId)
    && (verdict.BadPassword? ==> verdict.user == db.emails[email].userId)
  }

  /** The counter and the lock after a wrong password; a lock that is over starts the count afresh. */
  function Counted(lcfg: LockoutConfig, row: User, lockedAt: Time): User {
    var failures := 1 + if row.lockedUntil.Some? then 0 else row.failedAttempts;
    row.(failedAttempts := failures,
         lockedUntil := if failures < lcfg.maxFailedAttempts then None
           else Some(lockedAt + lcfg.lockSeconds * 1000))
  }

  /** The right password clears the counter, a wrong one counts, and nothing else is written. */
  ghost predicate AttemptWrites(
      lcfg: LockoutConfig, before: Db, after: Db, verdict: LoginVerdict, lockedAt: Time) {
    match verdict
    case LoggedIn(user) =>
      user in before.users
      && after == before.(users := before.users[user := before.users[user].(failedAttempts := 0, lockedUntil := None)])
    case BadPassword(user) =>
      user in before.users
      && after == before.(users := before.users[user := Counted(lcfg, before.users[user], lockedAt)])
    case _ => after == before
  }

  /**
   * The right password opens an account that is open, has a password and is not locked, and a wrong one never
   * does; which answer is given, and what happens to the counter and the lock, follows from the rows alone.
   */
  lemma AttemptRows(lcfg: LockoutConfig, db: Db, email: Address, valid: bool, now: Time, lockedAt: Time)
    ensures var (db', verdict) := Authenticate(lcfg, db, email, valid, now, lockedAt);
      AnswersTheAttempt(db, email, valid, now, verdict) && AttemptWrites(lcfg, db, db', verdict, lockedAt)
  {
  }

  // ----- external sign-in -----

  /** An identity that is linked stands for its user, whatever the profile says. */
  predicate IsLinked(db: Db, p: Profile) {
    p.identity in db.identities
  }

  /** The provider's word is good and the address belongs to an account. */
  predicate WantsLink(db: Db, p: Profile) {
    !IsLinked(db, p) && p.emailVerified && p.email in db.emails
  }

  predicate WantsAccount(db: Db, p: Profile) {
    !IsLinked(db, p) && p.emailVerified && p.email !in db.emails
  }

  /** The user that a sign-in is about: linked already, owner of the address, or new. */
  function Candidate(db: Db, p: Profile, newUser: UserId): UserId {
    if IsLinked(db, p) then db.identities[p.identity]
    else if p.email in db.emails then db.emails[p.email].userId
    else newUser
  }

  /** Which answer goes with which rows. An account that is not open is never resolved, linked or not. */
  ghost predicate AnswersTheSignIn(db: Db, p: Profile, newUser: UserId, outcome: IdentityOutcome) {
    && (outcome == EmailUnverified <==> !IsLinked(db, p) && !p.emailVerified)
    && (outcome == AccountUnavailable <==>
          (IsLinked(db, p) || WantsLink(db, p)) && !IsOpen(db, Candidate(db, p, newUser)))
    && (outcome.Resolved? ==> outcome.user == Candidate(db, p, newUser))
    && (outcome.Resolved? ==>
          (outcome.emailVerified <==> IsLinked(db, p) ==> HasVerifiedPrimary(db, outcome.user)))
  }

  ghost predicate HasVerifiedPrimary(db: Db, user: UserId) {
    exists e :: e in db.emails && db.emails[e] == UserEmail(user, true, true, db.emails[e].verifiedAt)
  }

  /** A sign-in that resolves leaves the identity linked to an open account, its user. */
  ghost predicate SignedIn(db: Db, p: Profile, user: UserId) {
    p.identity in db.identities && db.identities[p.identity] == user && IsOpen(db, user)
  }

  /** The rows of a new account: active, no password, one verified primary email, one identity, one event. */
  ghost predicate AccountWrites(before: Db, after: Db, p: Profile, user: UserId, now: Time) {
    && after.users == before.users[user := User(ACTIVE, None, None, None, 0, None, false)]
    && after.emails == before.emails[p.email := UserEmail(user, true, true, Some(now))]
    && after.identities == before.identities[p.identity := user]
    && after.events == before.events + [AuthEvent(IDENTITY_LINKED, user, None)]
    && after == before.(users := after.users, emails := after.emails, identities := after.identities,
                        events := after.events)
  }

  /** A link to a verified address adds the identity and the event. */
  ghost predicate LinkWrites(before: Db, after: Db, p: Profile, user: UserId) {
    after == before.(identities := before.identities[p.identity := user],
                     events := before.events + [AuthEvent(IDENTITY_LINKED, user, None)])
  }

  /** The unused verification tokens of the user end at `now`; every other token is as it was. */
  ghost predicate LinksEnd(
      a: map<UserTokenId, UserToken>, b: map<UserTokenId, UserToken>, user: UserId, now: Time) {
    && b.Keys == a.Keys
    && forall k :: k in a ==>
        b[k] == if a[k].userId == user && a[k].kind == EMAIL_VERIFICATION && a[k].usedAt.None?
                then a[k].(expiresAt := now) else a[k]
  }

  /**
   * A link to an address that was never verified verifies it, and ends the password, the sessions and the
   * verification links that its registration may have left.
   */
  ghost predicate TakeOverWrites(before: Db, after: Db, p: Profile, user: UserId, now: Time)
    requires p.email in before.emails
  {
    && (if user in before.users && before.users[user].passwordHash.Some?
        then CredentialSet(before.users, after.users, user, None, now) else after.users == before.users)
    && after.emails == before.emails[p.email := before.emails[p.email].(isVerified := true, verifiedAt := Some(now))]
    && LinksEnd(before.userTokens, after.userTokens, user, now)
    && SessionsEnd(before.sessions, after.sessions, SessionsOf(before, user), SECURITY, now)
    && TokensEnd(before.tokens, after.tokens, SessionsOf(before, user), now)
    && after.sessions.Keys == before.sessions.Keys && after.tokens.Keys == before.tokens.Keys
    && after.identities == before.identities[p.identity := user]
    && after.events == before.events + [AuthEvent(IDENTITY_LINKED, user, None)]
  }

  /** The sign-in comes to a transaction that writes: a new account, or a link to an open one. */
  predicate WritesSignIn(db: Db, p: Profile) {
    WantsAccount(db, p) || (WantsLink(db, p) && IsOpen(db, db.emails[p.email].userId))
  }

  /** What a sign-in writes, by the rows it finds. */
  ghost predicate SignInWrites(before: Db, after: Db, p: Profile, newUser: UserId, now: Time) {
    var user := Candidate(before, p, newUser);
    if WantsAccount(before, p) then AccountWrites(before, after, p, newUser, now)
    else if WantsLink(before, p) && IsOpen(before, user) then
      if before.emails[p.email].isVerified then LinkWrites(before, after, p, user)
      else TakeOverWrites(before, after, p, user, now)
    else after == before
  }

  lemma TakeOverRows(db: Db, p: Profile, now: Time)
    requires p.email in db.emails && db.emails[p.email].userId in db.users && !db.emails[p.email].isVerified
    ensures TakeOverWrites(db, LinkToExistingUser(db, p, now), p, db.emails[p.email].userId, now)
  {
    UserSelection(db, db.emails[p.email].userId);
  }

  lemma LinkRows(db: Db, p: Profile, now: Time)
    requires p.email in db.emails && db.emails[p.email].userId in db.users && db.emails[p.email].isVerified
    ensures LinkWrites(db, LinkToExistingUser(db, p, now), p, db.emails[p.email].userId)
  {
  }

  lemma NewAccountRows(db: Db, p: Profile, newUser: UserId, now: Time)
    ensures AccountWrites(db, CreateExternalUser(db, p, newUser, now), p, newUser, now)
  {
  }

  lemma SignInAnswers(db: Db, p: Profile, newUser: UserId, now: Time)
    ensures AnswersTheSignIn(db, p, newUser, ResolveIdentity(db, p, newUser, now).1)
  {
    assert PrimaryEmailVerified(db, Candidate(db, p, newUser)) <==> HasVerifiedPrimary(db, Candidate(db, p, newUser));
  }

  /** External sign-in, by the rows: who is resolved, who is refused and how, and what is written. */
  lemma SignInRows(db: Db, p: Profile, newUser: UserId, now: Time)
    ensures var (db', outcome) := ResolveIdentity(db, p, newUser, now);
      && AnswersTheSignIn(db, p, newUser, outcome) && SignInWrites(db, db', p, newUser, now)
      && (outcome.Resolved? ==> SignedIn(db', p, outcome.user))
  {
    SignInAnswers(db, p, newUser, now);
    if WantsAccount(db, p) {
      NewAccountRows(db, p, newUser, now);
    } else if WantsLink(db, p) && IsOpen(db, db.emails[p.email].userId) {
      if db.emails[p.email].isVerified {
        LinkRows(db, p, now);
      } else {
        TakeOverRows(db, p, now);
      }
    }
  }

  // ----- registration and email verification -----

  predicate IsLinkFor(row: UserToken, user: UserId, email: Address) {
    row.userId == user && row.kind == EMAIL_VERIFICATION && row.email == Some(email)
  }

  /** A new account with its password, its unverified primary email and its verification link. */
  ghost predicate RegistrationWrites(
      vcfg: VerificationConfig, before: Db, after: Db, email: Address, user: UserId, hash: PasswordHash,
      mail: UserTokenId, now: Time) {
    after == before.(
      users := before.users[user := User(ACTIVE, None, Some(hash), Some(now), 0, None, false)],
      emails := before.emails[email := UserEmail(user, true, false, None)],
      userTokens := before.userTokens[mail := UserToken(user, EMAIL_VERIFICATION, Some(email), now,
                                                        now + vcfg.tokenTtlHours * 60 * 60 * 1000, None)])
  }

  lemma RegistrationRows(
      vcfg: VerificationConfig, db: Db, email: Address, user: UserId, hash: PasswordHash, mail: UserTokenId, now: Time)
    ensures var db' := Register(vcfg, db, email, user, hash, mail, now);
      if email in db.emails then db' == db else RegistrationWrites(vcfg, db, db', email, user, hash, mail, now)
  {
  }

  /** No verification link of the address is younger than the cooldown. */
  ghost predicate IsRested(vcfg: VerificationConfig, db: Db, email: Address, now: Time)
    requires email in db.emails
  {
    forall k :: k in db.userTokens && IsLinkFor(db.userTokens[k], db.emails[email].userId, email) ==>
      db.userTokens[k].createdAt + vcfg.cooldownSeconds * 1000 <= now
  }

  /** A resend is due: the address has an unverified row, and the cooldown is over. */
  ghost predicate MayResend(vcfg: VerificationConfig, db: Db, email: Address, now: Time) {
    email in db.emails && !db.emails[email].isVerified && IsRested(vcfg, db, email, now)
  }

  /** Every link of the address ends at `now`, but for a new one; no other user token changes. */
  ghost predicate ResendWrites(
      vcfg: VerificationConfig, before: Db, after: Db, email: Address, mail: UserTokenId, now: Time)
    requires email in before.emails
  {
    var user := before.emails[email].userId;
    && after == before.(userTokens := after.userTokens) && after.userTokens.Keys == before.userTokens.Keys + {mail}
    && after.userTokens[mail]
       == UserToken(user, EMAIL_VERIFICATION, Some(email), now, now + vcfg.tokenTtlHours * 60 * 60 * 1000, None)
    && forall k :: k in before.userTokens && k != mail ==>
        after.userTokens[k] == if IsLinkFor(before.userTokens[k], user, email)
                               then before.userTokens[k].(expiresAt := now) else before.userTokens[k]
  }

  lemma CooldownIsRest(vcfg: VerificationConfig, db: Db, email: Address, now: Time)
    requires email in db.emails
    ensures IsCooldownActive(vcfg, db.userTokens, db.emails[email].userId, email, now)
      <==> !IsRested(vcfg, db, email, now)
  {
  }

  /** A resend sends exactly when it is due, and writes nothing otherwise. */
  lemma ResendRows(vcfg: VerificationConfig, db: Db, email: Address, mail: UserTokenId, now: Time)
    ensures var db' := Resend(vcfg, db, email, mail, now);
      if MayResend(vcfg, db, email, now) then ResendWrites(vcfg, db, db', email, mail, now) else db' == db
  {
    if email in db.emails {
      CooldownIsRest(vcfg, db, email, now);
    }
  }

  /** A verification link that confirms: it is one, unused and unexpired, and its address has a row. */
  predicate MayConfirm(db: Db, mail: UserTokenId, now: Time) {
    && mail in db.userTokens && db.userTokens[mail].kind == EMAIL_VERIFICATION && db.userTokens[mail].usedAt.None?
    && now < db.userTokens[mail].expiresAt && db.userTokens[mail].email.Some?
    && db.userTokens[mail].email.value in db.emails
  }

  /** The address is verified now, the link is used, one event tells so, and nothing else changes. */
  ghost predicate ConfirmationWrites(before: Db, after: Db, mail: UserTokenId, now: Time)
    requires MayConfirm(before, mail, now)
  {
    var row := before.userTokens[mail]; var email := before.emails[row.email.value];
    after == before.(
      userTokens := before.userTokens[mail := row.(usedAt := Some(now))],
      emails := before.emails[row.email.value := UserEmail(email.userId, email.isPrimary, true, Some(now))],
      events := before.events + [AuthEvent(EMAIL_VERIFIED, row.userId, None)])
  }

  /** A link that confirms verifies its address; any other writes nothing. */
  lemma ConfirmationRows(db: Db, mail: UserTokenId, now: Time)
    ensures var db' := VerifyEmail(db, mail, now);
      if MayConfirm(db, mail, now) then ConfirmationWrites(db, db', mail, now) else db' == db
  {
  }
}
