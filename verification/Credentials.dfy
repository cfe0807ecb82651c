/** Which password opens an account, over whole runs with password attempts in between. */
module Credentials {
  import opened AuthModel
  import opened AuthDb
  import opened Runs
  import opened Lockout
  import opened LockoutRuns
  import opened AccountRows

  predicate SamePassword(a: User, b: User) {
    b.passwordHash == a.passwordHash && b.passwordChangedAt == a.passwordChangedAt
  }

  /** The password columns of `user` after an operation, if it writes them: the new hash, or none after a takeover. */
  predicate IsCredentialOf(op: Op, row: User, now: Time) {
    if op.ReplacePassword? then row.passwordHash == Some(op.hash) && row.passwordChangedAt == Some(op.requestedAt)
    else row.passwordHash.None? && row.passwordChangedAt == Some(now)
  }

  /** An operation sets the passwords of exactly the users it is about, and keeps everybody else's. */
  ghost predicate SetsPasswords(before: Db, after: Db, users: set<UserId>, op: Op, now: Time) {
    forall u :: u in before.users ==>
      && u in after.users
      && (if u in users then IsCredentialOf(op, after.users[u], now) else SamePassword(before.users[u], after.users[u]))
  }

  lemma ChangeSetsOne(
      cfg: SessionConfig, db: Db, user: UserId, sid: SessionId, end: Time, hash: PasswordHash, tid: TokenId, now: Time)
    requires user in db.users
    ensures CredentialSet(db.users, CommitPasswordChange(cfg, db, user, sid, end, hash, tid, now).users, user,
                          Some(hash), now)
  {
  }

  lemma SignInSetsOne(db: Db, p: Profile, newUser: UserId, now: Time)
    requires newUser !in db.users
    ensures SetsPasswords(db, ResolveIdentity(db, p, newUser, now).0,
                          if TakesOver(db, p) then {db.emails[p.email].userId} else {}, SignInExternally(p, newUser),
                          now)
  {
    LinksTouchOneUser(db, p, newUser, now);
  }

  /**
   * Only a password change and a takeover by the verified owner of the address write a password: the one sets
   * its new hash, the other removes the password, and both do so for one user.
   */
  lemma TransactSetsPasswords(settings: Settings, w: World, op: Op)
    requires settings.Valid() && Admissible(settings, w, op)
    ensures SetsPasswords(w.db, Transact(settings, w.db, op, w.clock), NewlyCredentialed(w.db, op), op, w.clock)
  {
    match op
    case ReplacePassword(user, sid, end, hash, tid, at) =>
      ChangeSetsOne(settings.session, w.db, user, sid, end, hash, tid, at);
    case SignInExternally(p, newUser) => SignInSetsOne(w.db, p, newUser, w.clock);
    case SignUp(_, _, _, _) =>
    case Administer(_, _, _) =>
    case _ => SessionOpsLeaveUsers(settings, w, op);
  }

  /** The step does not write the password of `user`. */
  ghost predicate Spares(w: World, step: Step, user: UserId) {
    step.Operate? ==> user !in NewlyCredentialed(w.db, step.op)
  }

  ghost predicate AllSpare(settings: Settings, lcfg: LockoutConfig, w: World, steps: seq<Step>, user: UserId)
    requires settings.Valid()
  {
    forall i :: 0 <= i < |steps| ==> Spares(TakeAll(settings, lcfg, w, steps[..i]), steps[i], user)
  }

  lemma StepKeepsPassword(settings: Settings, lcfg: LockoutConfig, w: World, step: Step, user: UserId)
    requires settings.Valid() && CanStep(settings, w, step) && Spares(w, step, user) && user in w.db.users
    ensures var next := Take(settings, lcfg, w, step).db;
      user in next.users && SamePassword(w.db.users[user], next.users[user])
  {
    match step
    case Attempt(email, valid, lockedAt) =>
    case Operate(op) => TransactSetsPasswords(settings, w, op);
  }

  /** A password stands for as long as nothing writes it, whatever else happens to the account and around it. */
  lemma {:induction false} PasswordStands(
      settings: Settings, lcfg: LockoutConfig, w: World, steps: seq<Step>, user: UserId)
    requires settings.Valid() && CanStepAll(settings, lcfg, w, steps) && user in w.db.users
    requires AllSpare(settings, lcfg, w, steps, user)
    ensures var end := TakeAll(settings, lcfg, w, steps).db;
      user in end.users && SamePassword(w.db.users[user], end.users[user])
  {
    if steps != [] {
      var init, last := steps[..|steps| - 1], steps[|steps| - 1];
      forall i | 0 <= i < |init| ensures Spares(TakeAll(settings, lcfg, w, init[..i]), init[i], user) {
        assert init[..i] == steps[..i];
        assert Spares(TakeAll(settings, lcfg, w, steps[..i]), steps[i], user);
      }
      PasswordStands(settings, lcfg, w, init, user);
      assert Spares(TakeAll(settings, lcfg, w, steps[..|steps| - 1]), last, user);
      StepKeepsPassword(settings, lcfg, TakeAll(settings, lcfg, w, init), last, user);
    }
  }

  /**
   * After a password change the new hash, and no other, is what the account is opened with, at every later moment
   * of every run of operations and attempts until the user's password is written again.
   */
  lemma NewPasswordStands(settings: Settings, lcfg: LockoutConfig, w: World, op: Op, steps: seq<Step>)
    requires settings.Valid() && op.ReplacePassword? && Admissible(settings, w, op)
    requires var next := Do(settings, w, op);
      CanStepAll(settings, lcfg, next, steps) && AllSpare(settings, lcfg, next, steps, op.user)
    ensures var end := TakeAll(settings, lcfg, Do(settings, w, op), steps).db;
      op.user in end.users && end.users[op.user].passwordHash == Some(op.hash)
  {
    TransactSetsPasswords(settings, w, op);
    assert op.user in w.db.users && op.user in NewlyCredentialed(w.db, op);
    PasswordStands(settings, lcfg, Do(settings, w, op), steps, op.user);
  }
}
