/** Accounts, their emails and their external identities, over whole runs. */
module Accounts {
  import opened AuthModel
  import opened AuthDb
  import opened Runs
  import opened AccountRows

  ghost predicate OneEmailEach(db: Db) {
    && (forall e :: e in db.emails ==> db.emails[e].userId in db.users && db.emails[e].isPrimary)
    && (forall e, f :: e in db.emails && f in db.emails && db.emails[e].userId == db.emails[f].userId ==> e == f)
  }

  ghost predicate HasEmail(db: Db, user: UserId) {
    exists e :: e in db.emails && db.emails[e].userId == user
  }

  ghost predicate IdentitiesAreProven(db: Db) {
    forall i :: i in db.identities ==> db.identities[i] in db.users && HasProvenEmail(db, db.identities[i])
  }

  ghost predicate HasProvenEmail(db: Db, user: UserId) {
    forall e :: e in db.emails && db.emails[e].userId == user ==> db.emails[e].isVerified
  }

  /** Each user has exactly one email, a primary one, and it is verified once an identity is linked. */
  ghost predicate AccountsOk(db: Db) {
    OneEmailEach(db) && IdentitiesAreProven(db) && forall u :: u in db.users ==> HasEmail(db, u)
  }

  /** Emails keep their owner, stay primary, and are never unverified again. */
  ghost predicate EmailsForward(a: Db, b: Db) {
    forall e :: e in a.emails ==>
      && e in b.emails && b.emails[e].userId == a.emails[e].userId && b.emails[e].isPrimary == a.emails[e].isPrimary
      && (a.emails[e].isVerified ==> b.emails[e].isVerified)
  }

  /** A transaction that adds neither an account nor an email. */
  ghost predicate SameAccounts(a: Db, b: Db) {
    a.users.Keys == b.users.Keys && a.emails.Keys == b.emails.Keys && EmailsForward(a, b)
  }

  lemma SameAccountsStayOk(a: Db, b: Db)
    requires AccountsOk(a) && SameAccounts(a, b)
    requires forall i :: i in b.identities ==>
      (i in a.identities && b.identities[i] == a.identities[i])
      || (b.identities[i] in b.users && HasProvenEmail(b, b.identities[i]))
    ensures AccountsOk(b)
  {
    forall u | u in b.users ensures HasEmail(b, u) {
      assert HasEmail(a, u);
      var e :| e in a.emails && a.emails[e].userId == u;
      assert e in b.emails && b.emails[e].userId == u;
    }
    forall i | i in b.identities ensures HasProvenEmail(b, b.identities[i]) {
      if i in a.identities && b.identities[i] == a.identities[i] {
        assert HasProvenEmail(a, a.identities[i]);
      }
    }
  }

  /** A transaction that creates one account with one email, which is its identities' proof if it has any. */
  ghost predicate AddsAccount(a: Db, b: Db, user: UserId, email: Address) {
    && user !in a.users && email !in a.emails
    && b.users.Keys == a.users.Keys + {user} && b.emails.Keys == a.emails.Keys + {email}
    && (forall e :: e in a.emails ==> b.emails[e] == a.emails[e])
    && b.emails[email].userId == user && b.emails[email].isPrimary
    && (forall i :: i in b.identities ==>
          (i in a.identities && b.identities[i] == a.identities[i])
          || (b.identities[i] == user && b.emails[email].isVerified))
  }

  lemma AddedAccountIsOk(a: Db, b: Db, user: UserId, email: Address)
    requires AccountsOk(a) && AddsAccount(a, b, user, email)
    ensures AccountsOk(b)
  {
    forall u | u in b.users ensures HasEmail(b, u) {
      AddedAccountHasEmail(a, b, user, email, u);
    }
    forall i | i in b.identities ensures b.identities[i] in b.users && HasProvenEmail(b, b.identities[i]) {
      AddedAccountIsProven(a, b, user, email, i);
    }
  }

  lemma AddedAccountHasEmail(a: Db, b: Db, user: UserId, email: Address, u: UserId)
    requires AccountsOk(a) && AddsAccount(a, b, user, email) && u in b.users
    ensures HasEmail(b, u)
  {
    if u == user {
      assert email in b.emails && b.emails[email].userId == u;
    } else {
      assert HasEmail(a, u);
      var e :| e in a.emails && a.emails[e].userId == u;
      assert e in b.emails && b.emails[e].userId == u;
    }
  }

  lemma AddedAccountIsProven(a: Db, b: Db, user: UserId, email: Address, i: ExternalId)
    requires AccountsOk(a) && AddsAccount(a, b, user, email) && i in b.identities
    ensures b.identities[i] in b.users && HasProvenEmail(b, b.identities[i])
  {
    if i in a.identities && b.identities[i] == a.identities[i] {
      assert HasProvenEmail(a, a.identities[i]);
    }
  }

  lemma LinkEffect(db: Db, p: Profile, now: Time)
    requires p.email in db.emails && db.emails[p.email].userId in db.users
    ensures var db' := LinkToExistingUser(db, p, now); var row := db.emails[p.email];
      && db'.identities == db.identities[p.identity := row.userId] && db'.users.Keys == db.users.Keys
      && db'.emails == if row.isVerified then db.emails
                       else db.emails[p.email := row.(isVerified := true, verifiedAt := Some(now))]
  {
  }

  lemma LinkedAccountIsOk(a: Db, b: Db, identity: ExternalId, email: Address)
    requires AccountsOk(a) && SameAccounts(a, b) && email in a.emails
    requires b.identities == a.identities[identity := a.emails[email].userId] && b.emails[email].isVerified
    ensures AccountsOk(b)
  {
    assert HasProvenEmail(b, a.emails[email].userId);
    SameAccountsStayOk(a, b);
  }

  lemma LinkKeepsAccounts(db: Db, p: Profile, now: Time)
    requires AccountsOk(db) && p.email in db.emails && db.emails[p.email].userId in db.users
    ensures AccountsOk(LinkToExistingUser(db, p, now)) && EmailsForward(db, LinkToExistingUser(db, p, now))
  {
    LinkEffect(db, p, now);
    LinkedAccountIsOk(db, LinkToExistingUser(db, p, now), p.identity, p.email);
  }

  lemma CreateKeepsAccounts(db: Db, p: Profile, newUser: UserId, now: Time)
    requires AccountsOk(db) && newUser !in db.users && p.email !in db.emails && p.identity !in db.identities
    ensures AccountsOk(CreateExternalUser(db, p, newUser, now))
    ensures EmailsForward(db, CreateExternalUser(db, p, newUser, now))
  {
    AddedAccountIsOk(db, CreateExternalUser(db, p, newUser, now), newUser, p.email);
  }

  lemma ExternalSignInKeepsAccounts(db: Db, p: Profile, newUser: UserId, now: Time)
    requires AccountsOk(db) && newUser !in db.users
    ensures AccountsOk(ResolveIdentity(db, p, newUser, now).0)
    ensures EmailsForward(db, ResolveIdentity(db, p, newUser, now).0)
  {
    if p.identity !in db.identities && p.emailVerified {
      if p.email !in db.emails {
        CreateKeepsAccounts(db, p, newUser, now);
      } else {
        LinkKeepsAccounts(db, p, now);
      }
    }
  }

  lemma SignUpKeepsAccounts(
      vcfg: VerificationConfig, db: Db, email: Address, user: UserId, hash: PasswordHash, mail: UserTokenId, now: Time)
    requires AccountsOk(db) && user !in db.users
    ensures AccountsOk(Register(vcfg, db, email, user, hash, mail, now))
    ensures EmailsForward(db, Register(vcfg, db, email, user, hash, mail, now))
  {
    var db' := Register(vcfg, db, email, user, hash, mail, now);
    if email !in db.emails {
      AddedAccountIsOk(db, db', user, email);
    }
  }

  lemma ConfirmKeepsAccounts(db: Db, mail: UserTokenId, now: Time)
    requires AccountsOk(db)
    ensures AccountsOk(VerifyEmail(db, mail, now)) && EmailsForward(db, VerifyEmail(db, mail, now))
  {
    SameAccountsStayOk(db, VerifyEmail(db, mail, now));
  }

  lemma OtherOpsLeaveAccounts(settings: Settings, w: World, op: Op)
    requires settings.Valid() && !op.SignInExternally? && !op.SignUp? && !op.ConfirmEmail?
    ensures var db' := Transact(settings, w.db, op, w.clock);
      db'.users.Keys == w.db.users.Keys && db'.emails == w.db.emails && db'.identities == w.db.identities
  {
    if IsSessionOnly(op) {
      SessionOpsLeaveAccounts(settings, w.db, op, w.clock);
    }
  }

  lemma TransactKeepsAccounts(settings: Settings, w: World, op: Op)
    requires settings.Valid() && Admissible(settings, w, op) && AccountsOk(w.db)
    ensures AccountsOk(Transact(settings, w.db, op, w.clock))
    ensures EmailsForward(w.db, Transact(settings, w.db, op, w.clock))
  {
    match op
    case SignInExternally(p, newUser) => ExternalSignInKeepsAccounts(w.db, p, newUser, w.clock);
    case SignUp(email, newUser, hash, mail) =>
      SignUpKeepsAccounts(settings.verification, w.db, email, newUser, hash, mail, w.clock);
    case ConfirmEmail(mail) => ConfirmKeepsAccounts(w.db, mail, w.clock);
    case _ =>
      OtherOpsLeaveAccounts(settings, w, op);
      SameAccountsStayOk(w.db, Transact(settings, w.db, op, w.clock));
  }

  /** In every reachable state each user has one primary email, and any linked identity means it is verified. */
  lemma {:induction false} AccountsStayOk(settings: Settings, w: World, ops: seq<Op>)
    requires settings.Valid() && IsRun(settings, w, ops) && AccountsOk(w.db)
    ensures AccountsOk(DoAll(settings, w, ops).db) && EmailsForward(w.db, DoAll(settings, w, ops).db)
    decreases |ops|
  {
    if ops != [] {
      var next := Do(settings, w, ops[0]);
      TransactKeepsAccounts(settings, w, ops[0]);
      AccountsStayOk(settings, next, ops[1..]);
    }
  }

  ghost predicate IdentitiesKept(a: Db, b: Db) {
    forall i :: i in a.identities ==> i in b.identities && b.identities[i] == a.identities[i]
  }

  lemma TransactKeepsIdentities(settings: Settings, w: World, op: Op)
    requires settings.Valid()
    ensures IdentitiesKept(w.db, Transact(settings, w.db, op, w.clock))
  {
    match op
    case SignInExternally(p, newUser) => SignInKeepsIdentities(w.db, p, newUser, w.clock);
    case SignUp(_, _, _, _) =>
    case ConfirmEmail(_) =>
    case _ => OtherOpsLeaveAccounts(settings, w, op);
  }

  lemma SignInKeepsIdentities(db: Db, p: Profile, newUser: UserId, now: Time)
    ensures IdentitiesKept(db, ResolveIdentity(db, p, newUser, now).0)
  {
    SignInRows(db, p, newUser, now);
  }

  lemma {:induction false} RunKeepsIdentities(settings: Settings, w: World, ops: seq<Op>)
    requires settings.Valid() && IsRun(settings, w, ops)
    ensures IdentitiesKept(w.db, DoAll(settings, w, ops).db)
    decreases |ops|
  {
    if ops != [] {
      TransactKeepsIdentities(settings, w, ops[0]);
      RunKeepsIdentities(settings, Do(settings, w, ops[0]), ops[1..]);
    }
  }

  /**
   * An external sign-in is for good: at every later moment of every run the identity resolves to the same user,
   * whatever email it then carries, or is refused because that user's account is not open.
   */
  lemma ResolvedForGood(
      settings: Settings, w: World, p: Profile, newUser: UserId, ops: seq<Op>, q: Profile, u: UserId)
    requires settings.Valid() && IsRun(settings, w, [SignInExternally(p, newUser)] + ops)
    requires ResolveIdentity(w.db, p, newUser, w.clock).1.Resolved? && q.identity == p.identity
    ensures var end := DoAll(settings, w, [SignInExternally(p, newUser)] + ops);
      var user := ResolveIdentity(w.db, p, newUser, w.clock).1.user;
      var later := ResolveIdentity(end.db, q, u, end.clock).1;
      if IsOpen(end.db, user) then later.Resolved? && later.user == user else later == AccountUnavailable
  {
    var op := SignInExternally(p, newUser);
    assert ([op] + ops)[1..] == ops;
    SignInRows(w.db, p, newUser, w.clock);
    RunKeepsIdentities(settings, Do(settings, w, op), ops);
    var end := DoAll(settings, w, [op] + ops);
    SignInRows(end.db, q, u, end.clock);
  }

  /** An address that was once verified is verified at every later moment, for the same user. */
  lemma ConfirmedStaysVerified(settings: Settings, w: World, mail: UserTokenId, ops: seq<Op>)
    requires settings.Valid() && AccountsOk(w.db) && IsRun(settings, w, [ConfirmEmail(mail)] + ops)
    requires MayConfirm(w.db, mail, w.clock)
    ensures var end := DoAll(settings, w, [ConfirmEmail(mail)] + ops).db;
      var email := w.db.userTokens[mail].email.value;
      email in end.emails && end.emails[email].isVerified && end.emails[email].userId == w.db.emails[email].userId
  {
    assert ([ConfirmEmail(mail)] + ops)[1..] == ops;
    ConfirmationRows(w.db, mail, w.clock);
    TransactKeepsAccounts(settings, w, ConfirmEmail(mail));
    AccountsStayOk(settings, Do(settings, w, ConfirmEmail(mail)), ops);
  }

  /** A user with a linked identity has exactly one email: primary and verified. */
  lemma LinkedUsersAreVerified(settings: Settings, w: World, ops: seq<Op>, identity: ExternalId)
    requires settings.Valid() && IsRun(settings, w, ops) && AccountsOk(w.db)
    requires identity in DoAll(settings, w, ops).db.identities
    ensures var db := DoAll(settings, w, ops).db; var user := db.identities[identity];
      && PrimaryEmailVerified(db, user)
      && (forall e, f ::
            e in db.emails && f in db.emails && db.emails[e].userId == user && db.emails[f].userId == user ==> e == f)
  {
    AccountsStayOk(settings, w, ops);
    var db := DoAll(settings, w, ops).db;
    assert HasProvenEmail(db, db.identities[identity]) && HasEmail(db, db.identities[identity]);
  }

  /** What a never-verified registration left behind: a password, sessions, verification links. */
  ghost predicate HasForeignAccess(db: Db, user: UserId, now: Time) {
    || (user in db.users && db.users[user].passwordHash.Some?)
    || (exists s :: s in db.sessions && db.sessions[s].userId == user && db.sessions[s].revokedAt.None?)
    || (exists k :: k in db.userTokens && db.userTokens[k].userId == user && IsLiveVerification(db.userTokens[k], now))
  }

  lemma TakeOverStrips(db: Db, email: Address, now: Time)
    requires email in db.emails && db.emails[email].userId in db.users
    ensures !HasForeignAccess(TakeOver(db, email, now), db.emails[email].userId, now)
    ensures email in TakeOver(db, email, now).emails && TakeOver(db, email, now).emails[email].isVerified
  {
  }

  /**
   * Linking an identity to an account whose email was never verified removes every access that the
   * earlier registration could have left; linking to a verified account takes nothing away.
   */
  lemma LinkingClosesPriorAccess(db: Db, p: Profile, newUser: UserId, now: Time)
    requires p.identity !in db.identities && p.email in db.emails
    requires ResolveIdentity(db, p, newUser, now).1.Resolved?
    ensures var db' := ResolveIdentity(db, p, newUser, now).0; var user := db.emails[p.email].userId;
      && ResolveIdentity(db, p, newUser, now).1 == Resolved(user, true)
      && p.identity in db'.identities && db'.identities[p.identity] == user
      && (if db.emails[p.email].isVerified
          then db'.users == db.users && db'.sessions == db.sessions && db'.tokens == db.tokens
               && db'.userTokens == db.userTokens && db'.emails == db.emails
          else !HasForeignAccess(db', user, now)
               && p.email in db'.emails && db'.emails[p.email].isVerified)
  {
    var linked := db.(identities := db.identities[p.identity := db.emails[p.email].userId]);
    if !db.emails[p.email].isVerified {
      TakeOverStrips(linked, p.email, now);
    }
  }
}
