/**
 * Turning a verified external identity into a user, when nothing else runs in between. IdentityRace has
 * the overlaps, and with them the unique violation and its retry.
 */
module IdentityService {
  import opened AuthModel
  import opened AuthDb
  import opened SessionLaws
  import opened UnitOfWork
  import opened SessionService
  import opened PasswordService
  import opened Accounts
  import opened AccountRows

  /** From now on the identity resolves to this user, whatever email it carries, and nobody can register the address. */
  ghost predicate SignsInAs(db: Db, p: Profile, user: UserId) {
    && (forall q: Profile, u, at :: q.identity == p.identity ==>
        ResolveIdentity(db, q, u, at) == (db, Resolved(user, true)))
    && (forall vcfg: VerificationConfig, u, hash, k, at :: AuthDb.Register(vcfg, db, p.email, u, hash, k, at) == db)
  }

  /** One user without a password, one email, one identity; whatever else there was is as it was. */
  ghost predicate AddsOneAccount(before: Db, after: Db, p: Profile, user: UserId) {
    && user in after.users && after.users[user].passwordHash.None? && IsUsable(after.users[user])
    && after.users - {user} == before.users - {user} && after.emails - {p.email} == before.emails - {p.email}
    && after.identities - {p.identity} == before.identities - {p.identity}
    && after.sessions == before.sessions && after.tokens == before.tokens && after.userTokens == before.userTokens
  }

  class IdentityService {
    const database: Database
    const sessions: SessionService
    const passwords: PasswordService

    constructor (sessions: SessionService, passwords: PasswordService)
      ensures this.sessions == sessions && this.passwords == passwords && database == sessions.database
    {
      this.sessions, this.passwords, this.database := sessions, passwords, sessions.database;
    }

    ghost predicate Valid()
      reads this, database
    {
      database == sessions.database && database == passwords.database && AccountsOk(database.state)
    }

    method ResolveExternalIdentity(
        p: Profile, newUser: UserId, now: Time, fate: Fate) returns (outcome: Option<IdentityOutcome>)
      requires Valid() && newUser !in database.state.users
      modifies database, sessions.denylist
      ensures Ended(database, sessions.denylist, ResolveIdentity(old(database.state), p, newUser, now).0, fate)
      ensures fate.commits ==> outcome == Some(ResolveIdentity(old(database.state), p, newUser, now).1)
      ensures outcome.Some? ==> AnswersTheSignIn(old(database.state), p, newUser, outcome.value)
      ensures outcome.None? <==> !fate.commits && WritesSignIn(old(database.state), p)
      ensures if fate.commits then SignInWrites(old(database.state), database.state, p, newUser, now)
              else database.state == old(database.state)
      ensures outcome.Some? && outcome.value.Resolved? ==> SignedIn(database.state, p, outcome.value.user)
      ensures Valid()
    {
      ghost var before := database.state;
      SignInRows(before, p, newUser, now);
      UnchangedRevokesNothing(before);
      WritingNothing(sessions.denylist.entries, fate.effectsAt + sessions.denylist.ttlSeconds * MS_PER_SECOND);
      outcome := FindLinkedUser(p);
      if outcome.Some? {
        return;
      }
      if !p.emailVerified {
        return Some(EmailUnverified);
      }
      ExternalSignInKeepsAccounts(before, p, newUser, now);
      outcome := LinkOrCreate(p, newUser, now, fate);
    }

    method FindLinkedUser(p: Profile) returns (outcome: Option<IdentityOutcome>)
      requires AccountsOk(database.state)
      ensures outcome.Some? <==> p.identity in database.state.identities
      ensures outcome.Some? ==>
        forall u, now :: outcome == Some(ResolveIdentity(database.state, p, u, now).1)
      ensures outcome.Some? ==> forall u :: AnswersTheSignIn(database.state, p, u, outcome.value)
    {
      var db := database.state;
      if p.identity !in db.identities {
        return None;
      }
      var user := db.identities[p.identity];
      if user !in db.users || !IsUsable(db.users[user]) {
        return Some(AccountUnavailable);
      }
      var primary := set e | e in db.emails && db.emails[e].userId == user && db.emails[e].isPrimary;
      assert forall e :: e in db.emails && db.emails[e].userId == user && db.emails[e].isPrimary ==> e in primary;
      var verified := false;
      if primary != {} {
        var first :| first in primary;
        verified := db.emails[first].isVerified;
        FirstPrimaryDecides(db, user, first);
      }
      assert primary == {} ==> !PrimaryEmailVerified(db, user);
      return Some(Resolved(user, verified));
    }

    method LinkOrCreate(p: Profile, newUser: UserId, now: Time, fate: Fate) returns (outcome: Option<IdentityOutcome>)
      requires database == sessions.database && database == passwords.database
      requires p.identity !in database.state.identities && p.emailVerified
      modifies database, sessions.denylist
      ensures Ended(database, sessions.denylist, ResolveIdentity(old(database.state), p, newUser, now).0, fate)
      ensures var result := ResolveIdentity(old(database.state), p, newUser, now).1;
        outcome == if fate.commits || result.AccountUnavailable? then Some(result) else None
    {
      var uow := new Work(database, sessions.denylist);
      ghost var before := database.state;
      var user := LinkOrCreateWithin(uow, p, newUser, now);
      if user.None? {
        UnchangedRevokesNothing(before);
        WritingNothing(sessions.denylist.entries, fate.effectsAt + sessions.denylist.ttlSeconds * MS_PER_SECOND);
        uow.Complete(fate.(commits := false));
        return Some(AccountUnavailable);
      }
      uow.Complete(fate);
      return if fate.commits then Some(Resolved(user.value, true)) else None;
    }

    /** The body of the unit of work; None stands for the error that an unusable account raises. */
    method LinkOrCreateWithin(uow: Work, p: Profile, newUser: UserId, now: Time) returns (user: Option<UserId>)
      requires database == sessions.database && database == passwords.database && uow.database == database
      requires uow.effects == []
      requires p.identity !in database.state.identities && p.emailVerified
      modifies database, uow`effects
      ensures (database.state, if user.Some? then Resolved(user.value, true) else AccountUnavailable)
              == ResolveIdentity(old(database.state), p, newUser, now)
      ensures user.None? ==> database.state == old(database.state)
      ensures Queued(uow.effects) == NewlyRevoked(old(database.state), database.state)
    {
      var db := database.state;
      NewIdentity(db, p, newUser, now);
      UnchangedRevokesNothing(db);
      QueuedOne(uow.effects);
      if p.email !in db.emails {
        CreateUser(p, newUser, now);
        return Some(newUser);
      }
      var owner := db.emails[p.email].userId;
      if owner !in db.users || !IsUsable(db.users[owner]) {
        return None;
      }
      LinkToExistingUser(uow, p, now);
      return Some(owner);
    }

    method CreateUser(p: Profile, newUser: UserId, now: Time)
      modifies database
      ensures database.state == CreateExternalUser(old(database.state), p, newUser, now)
      ensures NewlyRevoked(old(database.state), database.state) == {}
      ensures AccountWrites(old(database.state), database.state, p, newUser, now)
      ensures SignsInAs(database.state, p, newUser) && AddsOneAccount(old(database.state), database.state, p, newUser)
    {
      database.state := database.state.(
        users := database.state.users[newUser := NewUser(None, now)],
        emails := database.state.emails[p.email := UserEmail(newUser, true, true, Some(now))],
        identities := database.state.identities[p.identity := newUser]);
      database.state := Log(database.state, IDENTITY_LINKED, newUser, None);
      assert PrimaryEmailVerified(database.state, newUser) by { assert p.email in database.state.emails; }
    }

    method LinkToExistingUser(uow: Work, p: Profile, now: Time)
      requires database == sessions.database && database == passwords.database && uow.database == database
      requires uow.effects == []
      requires p.email in database.state.emails && database.state.emails[p.email].userId in database.state.users
      modifies database, uow`effects
      ensures database.state == AuthDb.LinkToExistingUser(old(database.state), p, now)
      ensures var before := old(database.state); var owner := before.emails[p.email];
        if owner.isVerified then LinkWrites(before, database.state, p, owner.userId)
        else TakeOverWrites(before, database.state, p, owner.userId, now)
      ensures Queued(uow.effects) == NewlyRevoked(old(database.state), database.state)
    {
      var db := database.state;
      var email := db.emails[p.email];
      LinkRevokes(db, p, now);
      if email.isVerified {
        LinkRows(db, p, now);
      } else {
        TakeOverRows(db, p, now);
      }
      database.state := db.(identities := db.identities[p.identity := email.userId]);
      if !email.isVerified {
        database.state := database.state.(
          emails := database.state.emails[p.email := email.(isVerified := true, verifiedAt := Some(now))]);
        database.state := database.state.(userTokens := ExpireUnused(database.state.userTokens, email.userId, now));
        if db.users[email.userId].passwordHash.Some? {
          passwords.RemovePassword(email.userId, now);
        }
        var _ := sessions.RevokeSessions(uow, ByUser(email.userId), SECURITY, now);
      }
      QueuedOne(uow.effects);
      database.state := Log(database.state, IDENTITY_LINKED, email.userId, None);
    }
  }

  /** There is only one primary email, so it does not matter which the query returns. */
  lemma FirstPrimaryDecides(db: Db, user: UserId, first: Address)
    requires OneEmailEach(db) && first in db.emails && db.emails[first].userId == user && db.emails[first].isPrimary
    ensures PrimaryEmailVerified(db, user) <==> db.emails[first].isVerified
  {
    forall e | e in db.emails && db.emails[e].userId == user ensures e == first {
    }
  }

  /** What a new identity comes to, in the order of the branches. */
  lemma NewIdentity(db: Db, p: Profile, newUser: UserId, now: Time)
    requires p.identity !in db.identities && p.emailVerified
    ensures ResolveIdentity(db, p, newUser, now) ==
            if p.email !in db.emails then (CreateExternalUser(db, p, newUser, now), Resolved(newUser, true))
            else if db.emails[p.email].userId !in db.users || !IsUsable(db.users[db.emails[p.email].userId])
            then (db, AccountUnavailable)
            else (AuthDb.LinkToExistingUser(db, p, now), Resolved(db.emails[p.email].userId, true))
  {
  }

  lemma LinkRevokes(db: Db, p: Profile, now: Time)
    requires p.email in db.emails && db.emails[p.email].userId in db.users
    ensures NewlyRevoked(db, AuthDb.LinkToExistingUser(db, p, now))
              == if db.emails[p.email].isVerified then {} else Selected(db.sessions, ByUser(db.emails[p.email].userId))
  {
  }
}
