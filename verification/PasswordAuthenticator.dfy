/** The password authenticator, statement by statement, for attempts that follow one another. */
module PasswordAuthenticator {
  import opened AuthModel
  import opened AuthDb
  import opened UnitOfWork
  import opened Lockout
  import opened AccountRows

  /** The row after `n` wrong passwords, the last of them at `at`. */
  function AfterFailures(lcfg: LockoutConfig, row: User, n: nat, at: Time): User {
    if n == 0 then row else CountFailure(lcfg, AfterFailures(lcfg, row, n - 1, at), at)
  }

  /** Not locked, and it takes the full number of wrong passwords to lock it again. */
  ghost predicate StartsAfresh(lcfg: LockoutConfig, row: User) {
    forall n: nat, at, later :: later < at + LockMs(lcfg) ==>
      (IsLocked(AfterFailures(lcfg, row, n, at), later) <==> 0 < n && lcfg.maxFailedAttempts <= n)
  }

  lemma {:induction false} FailuresAddUp(lcfg: LockoutConfig, row: User, n: nat, at: Time)
    requires row.failedAttempts == 0 && row.lockedUntil.None?
    ensures AfterFailures(lcfg, row, n, at).failedAttempts == n
    ensures AfterFailures(lcfg, row, n, at).lockedUntil
              == if 0 < n && lcfg.maxFailedAttempts <= n then Some(at + LockMs(lcfg)) else None
  {
    if n > 0 {
      FailuresAddUp(lcfg, row, n - 1, at);
    }
  }

  class PasswordAuthenticator {
    const lcfg: LockoutConfig
    const database: Database

    constructor (lcfg: LockoutConfig, database: Database)
      ensures this.lcfg == lcfg && this.database == database
    {
      this.lcfg, this.database := lcfg, database;
    }

    /** By the rows: the right password, and only the right one, opens an account that may be tried. */
    method Authenticate(email: Address, valid: bool, now: Time, lockedAt: Time) returns (verdict: LoginVerdict)
      modifies database
      ensures (database.state, verdict) == Lockout.Authenticate(lcfg, old(database.state), email, valid, now, lockedAt)
      ensures AnswersTheAttempt(old(database.state), email, valid, now, verdict)
      ensures AttemptWrites(lcfg, old(database.state), database.state, verdict, lockedAt)
    {
      var db := database.state;
      AttemptRows(lcfg, db, email, valid, now, lockedAt);
      if email !in db.emails || db.emails[email].userId !in db.users || !IsUsable(db.users[db.emails[email].userId]) {
        return UserNotFound;
      }
      var user := db.emails[email].userId;
      var row := db.users[user];
      if row.passwordHash.None? {
        return NoPassword;
      }
      if IsLocked(row, now) {
        return AccountLocked;
      }
      if !valid {
        LastPutWins(db, user, Cleared(row), CountFailure(lcfg, Cleared(row), lockedAt));
        if row.lockedUntil.Some? {
          ResetPasswordFailureState(user);
        }
        RecordFailedLogin(user, lockedAt);
        return BadPassword(user);
      }
      ResetPasswordFailureState(user);
      return LoggedIn(user);
    }

    method RecordFailedLogin(user: UserId, now: Time)
      requires user in database.state.users
      modifies database
      ensures database.state == PutUser(old(database.state), user,
                                        CountFailure(lcfg, old(database.state).users[user], now))
    {
      var row := database.state.users[user];
      var attempts := row.failedAttempts + 1;
      database.state := PutUser(database.state, user, row.(failedAttempts := attempts));
      if attempts >= lcfg.maxFailedAttempts {
        var counted := database.state.users[user];
        database.state := PutUser(database.state, user,
                                  counted.(lockedUntil := Some(now + lcfg.lockSeconds * MS_PER_SECOND)));
      }
    }

    method ResetPasswordFailureState(user: UserId)
      requires user in database.state.users
      modifies database
      ensures database.state == PutUser(old(database.state), user, Cleared(old(database.state).users[user]))
      ensures StartsAfresh(lcfg, database.state.users[user])
    {
      database.state := PutUser(database.state, user, Cleared(database.state.users[user]));
      forall n: nat, at: Time { FailuresAddUp(lcfg, database.state.users[user], n, at); }
    }
  }
}
