/** The histories of the lockout and the runs of the services are about the same accounts. */
module LockoutRuns {
  import opened AuthModel
  import opened AuthDb
  import opened Runs
  import opened Lockout

  /** The user whose password columns the operation writes: a password change, or a link that takes an account over. */
  ghost function NewlyCredentialed(db: Db, op: Op): set<UserId> {
    match op
    case ReplacePassword(user, _, _, _, _, _) => {user}
    case SignInExternally(p, _) => if TakesOver(db, p) then {db.emails[p.email].userId} else {}
    case _ => {}
  }

  /** The provider vouches for an address that was registered with a password and never verified. */
  predicate TakesOver(db: Db, p: Profile) {
    && p.identity !in db.identities && p.emailVerified && p.email in db.emails && !db.emails[p.email].isVerified
    && db.emails[p.email].userId in db.users && IsUsable(db.users[db.emails[p.email].userId])
    && db.users[db.emails[p.email].userId].passwordHash.Some?
  }

  lemma SessionOpsLeaveUsers(settings: Settings, w: World, op: Op)
    requires settings.Valid() && Admissible(settings, w, op)
    requires op.Login? || op.Refresh? || op.EndSession? || op.EndByToken? || op.EndAllSessions? || op.ResendMail?
             || op.ConfirmEmail? || op.Clean? || op.Wait?
    ensures Transact(settings, w.db, op, w.clock).users == w.db.users
  {
    if IsSessionOnly(op) {
      SessionOpsLeaveAccounts(settings, w.db, op, w.clock);
    }
  }

  lemma LinksTouchOneUser(db: Db, p: Profile, newUser: UserId, now: Time)
    requires newUser !in db.users
    ensures var db' := ResolveIdentity(db, p, newUser, now).0;
      if TakesOver(db, p) then db'.users == SetCredential(db, db.emails[p.email].userId, None, now).users
      else db'.users == db.users || db'.users == db.users[newUser := NewUser(None, now)]
  {
  }

  /**
   * What the histories assume of every other transaction holds of every operation: unless it sets or
   * removes a password it leaves the lockout columns alone and starts accounts unlocked; if it does, it
   * does to the lockout columns what that new credential does, and no more.
   */
  lemma OnlyCredentialsClearTheLockout(settings: Settings, lcfg: LockoutConfig, w: World, op: Op)
    requires settings.Valid() && Admissible(settings, w, op)
    ensures var db' := Transact(settings, w.db, op, w.clock); var users := NewlyCredentialed(w.db, op);
      && (users == {} ==> LockoutUntouched(w.db, db'))
      && (forall user, at, hash :: user in users ==>
            users == {user} && LockoutUntouched(Happen(lcfg, w.db, NewCredential(at, user, hash)), db'))
  {
    match op
    case ReplacePassword(user, sid, end, hash, tid, at) =>
    case SignInExternally(p, newUser) => LinksTouchOneUser(w.db, p, newUser, w.clock);
    case SignUp(_, _, _, _) =>
    case Administer(_, _, _) =>
    case _ => SessionOpsLeaveUsers(settings, w, op);
  }

  // ----- runs with password attempts in between -----

  datatype Step =
    | Attempt(email: Address, valid: bool, lockedAt: Time)
    | Operate(op: Op)

  ghost predicate CanStep(settings: Settings, w: World, step: Step)
    requires settings.Valid()
  {
    match step
    case Attempt(_, _, lockedAt) => w.clock <= lockedAt
    case Operate(op) => Admissible(settings, w, op)
  }

  ghost function Take(settings: Settings, lcfg: LockoutConfig, w: World, step: Step): World
    requires settings.Valid()
  {
    match step
    case Attempt(email, valid, lockedAt) => w.(db := Authenticate(lcfg, w.db, email, valid, w.clock, lockedAt).0)
    case Operate(op) => Do(settings, w, op)
  }

  ghost function TakeAll(settings: Settings, lcfg: LockoutConfig, w: World, steps: seq<Step>): World
    requires settings.Valid()
  {
    if steps == [] then w
    else Take(settings, lcfg, TakeAll(settings, lcfg, w, steps[..|steps| - 1]), steps[|steps| - 1])
  }

  ghost predicate CanStepAll(settings: Settings, lcfg: LockoutConfig, w: World, steps: seq<Step>)
    requires settings.Valid()
  {
    steps == [] || (CanStepAll(settings, lcfg, w, steps[..|steps| - 1])
                    && CanStep(settings, TakeAll(settings, lcfg, w, steps[..|steps| - 1]), steps[|steps| - 1]))
  }

  /** A step as the lockout sees it: what it does to the lockout columns first, whatever else it does then. */
  ghost function EventsOf(settings: Settings, w: World, step: Step): seq<Event>
    requires settings.Valid()
  {
    match step
    case Attempt(email, valid, lockedAt) => [Try(w.clock, lockedAt, email, valid)]
    case Operate(op) =>
      var rest := [Elsewhere(w.clock, Transact(settings, w.db, op, w.clock))];
      if NewlyCredentialed(w.db, op) == {} then rest
      else
        var user :| user in NewlyCredentialed(w.db, op);
        [NewCredential(w.clock, user, None)] + rest
  }

  ghost function History(settings: Settings, lcfg: LockoutConfig, w: World, steps: seq<Step>): seq<Event>
    requires settings.Valid()
  {
    if steps == [] then []
    else History(settings, lcfg, w, steps[..|steps| - 1])
         + EventsOf(settings, TakeAll(settings, lcfg, w, steps[..|steps| - 1]), steps[|steps| - 1])
  }

  lemma {:induction false} BeforeIsStable(lcfg: LockoutConfig, db: Db, events: seq<Event>, e: Event, i: nat)
    requires i <= |events|
    ensures Before(lcfg, db, events + [e], i) == Before(lcfg, db, events, i)
  {
    if i > 0 {
      BeforeIsStable(lcfg, db, events, e, i - 1);
      assert (events + [e])[i - 1] == events[i - 1];
    }
  }

  predicate NotBefore(events: seq<Event>, at: Time) {
    forall i :: 0 <= i < |events| ==> events[i].at <= at
  }

  /** `events` is a history of what leads from `db` to `now` by the time `clock`. */
  ghost predicate Tells(lcfg: LockoutConfig, db: Db, events: seq<Event>, now: Db, clock: Time) {
    IsHistory(lcfg, db, events) && Before(lcfg, db, events, |events|) == now && NotBefore(events, clock)
  }

  lemma OrderGrows(events: seq<Event>, clock: Time, e: Event)
    requires InOrder(events) && NotBefore(events, clock) && e.at == clock && (e.Try? ==> e.at <= e.lockedAt)
    ensures InOrder(events + [e]) && NotBefore(events + [e], clock)
  {
  }

  lemma OthersStillLeave(lcfg: LockoutConfig, db: Db, events: seq<Event>, e: Event)
    requires OthersLeaveLockout(lcfg, db, events)
    requires e.Elsewhere? ==> LockoutUntouched(Before(lcfg, db, events, |events|), e.db)
    ensures OthersLeaveLockout(lcfg, db, events + [e])
  {
    forall i | 0 <= i < |events + [e]| ensures LeavesLockout(lcfg, db, events + [e], i) {
      BeforeIsStable(lcfg, db, events, e, i);
      assert i < |events| ==> LeavesLockout(lcfg, db, events, i);
    }
  }

  lemma HistoryGrows(lcfg: LockoutConfig, db: Db, events: seq<Event>, now: Db, clock: Time, e: Event)
    requires Tells(lcfg, db, events, now, clock) && e.at == clock && (e.Try? ==> e.at <= e.lockedAt)
    requires e.Elsewhere? ==> LockoutUntouched(now, e.db)
    ensures Tells(lcfg, db, events + [e], Happen(lcfg, now, e), clock)
  {
    OrderGrows(events, clock, e);
    OthersStillLeave(lcfg, db, events, e);
    BeforeIsStable(lcfg, db, events, e, |events|);
  }

  lemma StepIsTold(settings: Settings, lcfg: LockoutConfig, db: Db, events: seq<Event>, w: World, step: Step)
    requires settings.Valid() && Tells(lcfg, db, events, w.db, w.clock) && CanStep(settings, w, step)
    ensures var next := Take(settings, lcfg, w, step);
      Tells(lcfg, db, events + EventsOf(settings, w, step), next.db, next.clock)
  {
    var told := EventsOf(settings, w, step);
    match step
    case Attempt(_, _, _) => HistoryGrows(lcfg, db, events, w.db, w.clock, told[0]);
    case Operate(op) =>
      OnlyCredentialsClearTheLockout(settings, lcfg, w, op);
      if |told| == 1 {
        HistoryGrows(lcfg, db, events, w.db, w.clock, told[0]);
      } else {
        HistoryGrows(lcfg, db, events, w.db, w.clock, told[0]);
        HistoryGrows(lcfg, db, events + [told[0]], Happen(lcfg, w.db, told[0]), w.clock, told[1]);
        assert events + told == events + [told[0]] + [told[1]];
      }
  }

  /**
   * Every run of the services with any password attempts in between is a history, so that everything
   * proved of histories, the bound on the rate of guessing included, holds of it.
   */
  lemma {:induction false} RunsAreHistories(settings: Settings, lcfg: LockoutConfig, w: World, steps: seq<Step>)
    requires settings.Valid() && CanStepAll(settings, lcfg, w, steps)
    ensures var end := TakeAll(settings, lcfg, w, steps);
      Tells(lcfg, w.db, History(settings, lcfg, w, steps), end.db, end.clock)
  {
    if steps != [] {
      var init, last := steps[..|steps| - 1], steps[|steps| - 1];
      RunsAreHistories(settings, lcfg, w, init);
      StepIsTold(settings, lcfg, w.db, History(settings, lcfg, w, init), TakeAll(settings, lcfg, w, init), last);
    }
  }

  /** At the end of every such run each counter is in 0..max, and equals max exactly while a lock is set. */
  lemma RunsKeepCounters(settings: Settings, lcfg: LockoutConfig, w: World, steps: seq<Step>)
    requires settings.Valid() && lcfg.Valid() && CountersOk(lcfg, w.db) && CanStepAll(settings, lcfg, w, steps)
    ensures CountersOk(lcfg, TakeAll(settings, lcfg, w, steps).db)
  {
    RunsAreHistories(settings, lcfg, w, steps);
    CountersStayOk(lcfg, w.db, History(settings, lcfg, w, steps), |History(settings, lcfg, w, steps)|);
  }
}
