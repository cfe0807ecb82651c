/** The password credential: changing it, and stripping it when an address changes hands. */
module PasswordService {
  import opened AuthModel
  import opened AuthDb
  import opened SessionLaws
  import opened UnitOfWork
  import opened SessionService
  import opened AccountRows
  import Lockout

  /** No password opens the account any more, whatever is typed and however often, and no change can bring one back. */
  ghost predicate PasswordIsGone(db: Db, user: UserId) {
    && (forall lcfg: Lockout.LockoutConfig, email, valid, at, lockedAt ::
          email in db.emails && db.emails[email].userId == user ==>
            var (db', verdict) := Lockout.Authenticate(lcfg, db, email, valid, at, lockedAt);
            db' == db && (verdict.NoPassword? || verdict.UserNotFound?))
    && (forall cfg: SessionConfig, sid, proof, tid, at ::
          AuthDb.ChangePassword(cfg, db, user, sid, proof, tid, at).1.PasswordRefused?)
  }

  /** Only the password columns of `user` may differ: who they are and how they stand is the same. */
  ghost predicate LeavesOthersAlone(before: Db, after: Db, user: UserId) {
    && after == before.(users := after.users) && after.users.Keys == before.users.Keys
    && (forall u :: u in before.users && u != user ==> after.users[u] == before.users[u])
    && (user in before.users ==> (IsUsable(after.users[user]) <==> IsUsable(before.users[user])))
  }

  class PasswordService {
    const database: Database
    const sessions: SessionService

    constructor (sessions: SessionService)
      ensures this.sessions == sessions && database == sessions.database
    {
      this.sessions, this.database := sessions, sessions.database;
    }

    /**
     * The checks read outside the unit of work; nothing runs in between here. By the rows: an allowed change
     * stores the new hash, and writes the rest of ChangeWrites with it, or fails as a whole; a refused one
     * writes nothing, and each refusal has its reason.
     */
    method ChangePassword(user: UserId, sid: SessionId, proof: PasswordProof, tid: TokenId, now: Time, fate: Fate)
      returns (outcome: Option<PasswordOutcome>)
      requires database == sessions.database && tid !in database.state.tokens
      modifies database, sessions.denylist
      ensures var (target, result) := AuthDb.ChangePassword(sessions.cfg, old(database.state), user, sid, proof, tid,
                                                            now);
        && Ended(database, sessions.denylist, target, fate)
        && outcome == if fate.commits || result.PasswordRefused? then Some(result) else None
      ensures var before := old(database.state); var allowed := MayChange(before, user, sid, proof, now);
        && (outcome.None? <==> allowed && !fate.commits)
        && (outcome.Some? ==> AnswersTheChange(before, user, sid, proof, now, outcome.value))
        && (if allowed && fate.commits
            then ChangeWrites(sessions.cfg, before, database.state, user, sid, before.sessions[sid].expiresAt,
                              proof.newHash, tid, now)
            else database.state == before)
    {
      var db := database.state;
      ChangePasswordRows(sessions.cfg, db, user, sid, proof, tid, now);
      UnchangedRevokesNothing(db);
      WritingNothing(sessions.denylist.entries, fate.effectsAt + sessions.denylist.ttlSeconds * MS_PER_SECOND);
      if !SessionStillActive(db, user, sid, now) {
        return Some(PasswordRefused(SessionInactive));
      }
      if db.users[user].passwordHash.None? {
        return Some(PasswordRefused(NoPasswordCredential));
      }
      if !proof.currentMatches {
        return Some(PasswordRefused(InvalidCurrentPassword));
      }
      if proof.sameAsCurrent {
        return Some(PasswordRefused(PasswordUnchanged));
      }
      ReplacePassword(user, sid, db.sessions[sid].expiresAt, proof.newHash, tid, now, fate);
      outcome := if fate.commits then Some(PasswordChanged(tid)) else None;
    }

    method ReplacePassword(
        user: UserId, sid: SessionId, sessionExpiresAt: Time, hash: PasswordHash, tid: TokenId, now: Time, fate: Fate)
      requires database == sessions.database && user in database.state.users
      modifies database, sessions.denylist
      ensures Ended(database, sessions.denylist,
                    CommitPasswordChange(sessions.cfg, old(database.state), user, sid, sessionExpiresAt, hash, tid,
                                         now), fate)
    {
      var uow := new Work(database, sessions.denylist);
      ChangeRevokesTheOthers(sessions.cfg, database.state, user, sid, sessionExpiresAt, hash, tid, now);
      database.state := database.state.(
        users := database.state.users[user := ResetCredential(database.state.users[user], Some(hash), now)]);
      var _ := sessions.RevokeSessions(uow, ByUserExcept(user, sid), PASSWORD_CHANGED, now);
      var _ := sessions.ReissueRefreshToken(sid, sessionExpiresAt, now, tid);
      database.state := Log(database.state, PASSWORD_CHANGED_EVENT, user, Some(sid));
      QueuedOne(uow.effects);
      uow.Complete(fate);
    }

    method RemovePassword(user: UserId, now: Time)
      requires user in database.state.users
      modifies database
      ensures database.state == SetCredential(old(database.state), user, None, now)
      ensures PasswordIsGone(database.state, user) && LeavesOthersAlone(old(database.state), database.state, user)
    {
      database.state := database.state.(
        users := database.state.users[user := ResetCredential(database.state.users[user], None, now)]);
    }
  }

  lemma UnchangedRevokesNothing(db: Db)
    ensures NewlyRevoked(db, db) == {}
  {
  }

  lemma ChangeRevokesTheOthers(
      cfg: SessionConfig, db: Db, user: UserId, sid: SessionId, expiresAt: Time, hash: PasswordHash, tid: TokenId,
      now: Time)
    requires user in db.users
    ensures NewlyRevoked(db, CommitPasswordChange(cfg, db, user, sid, expiresAt, hash, tid, now))
              == Selected(db.sessions, ByUserExcept(user, sid))
  {
    RevocationIsExact(SetCredential(db, user, Some(hash), now), ByUserExcept(user, sid), PASSWORD_CHANGED, now);
  }
}
