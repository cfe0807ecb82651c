/** Password login and its lockout counter: what one attempt does, and what whole histories of them keep. */
module Lockout {
  import opened AuthModel
  import opened AuthDb

  datatype LockoutConfig = LockoutConfig(maxFailedAttempts: nat, lockSeconds: nat) {
    predicate Valid() { maxFailedAttempts > 0 && lockSeconds > 0 }
  }

  function LockMs(lcfg: LockoutConfig): nat {
    lcfg.lockSeconds * MS_PER_SECOND
  }

  datatype LoginVerdict =
    | LoggedIn(user: UserId)
    | UserNotFound
    | NoPassword
    | AccountLocked
    | BadPassword(user: UserId)

  predicate IsLocked(u: User, now: Time) {
    u.lockedUntil.Some? && u.lockedUntil.value > now
  }

  function Cleared(u: User): User {
    u.(failedAttempts := 0, lockedUntil := None)
  }

  function CountFailure(lcfg: LockoutConfig, u: User, lockedAt: Time): User {
    u.(failedAttempts := u.failedAttempts + 1,
       lockedUntil := if u.failedAttempts + 1 >= lcfg.maxFailedAttempts then Some(lockedAt + LockMs(lcfg))
         else u.lockedUntil)
  }

  function PutUser(db: Db, user: UserId, row: User): Db {
    db.(users := db.users[user := row])
  }

  lemma LastPutWins(db: Db, user: UserId, a: User, b: User)
    ensures PutUser(PutUser(db, user, a), user, b) == PutUser(db, user, b)
  {
    assert db.users[user := a][user := b] == db.users[user := b];
  }

  /**
   * One login attempt; `valid` is the answer of the one hash comparison it makes. The lock is tested at
   * `now`, before the comparison; a lock that it sets counts from `lockedAt`, after it.
   */
  function Authenticate(
      lcfg: LockoutConfig, db: Db, email: Address, valid: bool, now: Time, lockedAt: Time): (Db, LoginVerdict) {
    if email !in db.emails || db.emails[email].userId !in db.users || !IsUsable(db.users[db.emails[email].userId])
    then (db, UserNotFound)
    else
      var user := db.emails[email].userId;
      var row := db.users[user];
      if row.passwordHash.None? then (db, NoPassword)
      else if IsLocked(row, now) then (db, AccountLocked)
      else if valid then (PutUser(db, user, Cleared(row)), LoggedIn(user))
      else
        var start := if row.lockedUntil.Some? then Cleared(row) else row;
        (PutUser(db, user, CountFailure(lcfg, start, lockedAt)), BadPassword(user))
  }

  // ----- runs of attempts, one after another -----

  datatype Event =
    | Try(at: Time, lockedAt: Time, email: Address, valid: bool)
    | NewCredential(at: Time, user: UserId, hash: Option<PasswordHash>)
    | Elsewhere(at: Time, db: Db)

  /** Every other transaction leaves the lockout columns alone, and new accounts start unlocked. */
  ghost predicate LockoutUntouched(a: Db, b: Db) {
    && (forall u :: u in a.users ==> u in b.users && SameLockout(a.users[u], b.users[u]))
    && (forall u :: u in b.users && u !in a.users ==> b.users[u].failedAttempts == 0 && b.users[u].lockedUntil.None?)
  }

  predicate SameLockout(a: User, b: User) {
    b.failedAttempts == a.failedAttempts && b.lockedUntil == a.lockedUntil
  }

  function Happen(lcfg: LockoutConfig, db: Db, e: Event): Db {
    match e
    case Try(at, lockedAt, email, valid) => Authenticate(lcfg, db, email, valid, at, lockedAt).0
    case NewCredential(at, user, hash) => if user in db.users then SetCredential(db, user, hash, at) else db
    case Elsewhere(_, next) => next
  }

  /** The tables before event `i`. */
  function Before(lcfg: LockoutConfig, db: Db, events: seq<Event>, i: nat): Db
    requires i <= |events|
  {
    if i == 0 then db else Happen(lcfg, Before(lcfg, db, events, i - 1), events[i - 1])
  }

  /** Attempts follow one another on one clock, and a lock is set no earlier than its attempt began. */
  predicate InOrder(events: seq<Event>) {
    && (forall i :: 0 <= i < |events| && events[i].Try? ==> events[i].at <= events[i].lockedAt)
    && (forall i, j :: 0 <= i <= j < |events| ==> events[i].at <= events[j].at)
  }

  ghost predicate LeavesLockout(lcfg: LockoutConfig, db: Db, events: seq<Event>, i: nat)
    requires i < |events|
  {
    events[i].Elsewhere? ==> LockoutUntouched(Before(lcfg, db, events, i), events[i].db)
  }

  ghost predicate OthersLeaveLockout(lcfg: LockoutConfig, db: Db, events: seq<Event>) {
    forall i {:trigger LeavesLockout(lcfg, db, events, i)} :: 0 <= i < |events| ==> LeavesLockout(lcfg, db, events, i)
  }

  ghost predicate IsHistory(lcfg: LockoutConfig, db: Db, events: seq<Event>) {
    InOrder(events) && OthersLeaveLockout(lcfg, db, events)
  }

  /** Event `i` is a wrong password that counts against `user`. */
  predicate Counts(lcfg: LockoutConfig, db: Db, events: seq<Event>, i: nat, user: UserId)
    requires i < |events|
  {
    events[i].Try? && FailsFor(lcfg, Before(lcfg, db, events, i), events[i], user)
  }

  predicate FailsFor(lcfg: LockoutConfig, db: Db, e: Event, user: UserId) {
    e.Try? && Authenticate(lcfg, db, e.email, e.valid, e.at, e.lockedAt).1 == BadPassword(user)
  }

  /** The event clears the user's counter: a successful login, or a new credential. */
  predicate ClearsFor(lcfg: LockoutConfig, db: Db, e: Event, user: UserId) {
    match e
    case Try(at, lockedAt, email, valid) => Authenticate(lcfg, db, email, valid, at, lockedAt).1 == LoggedIn(user)
    case NewCredential(_, u, _) => u == user
    case Elsewhere(_, _) => false
  }

  /** How many of the events from `i` up to `j` count against `user`. */
  function Failures(lcfg: LockoutConfig, db: Db, events: seq<Event>, i: nat, j: nat, user: UserId): nat
    requires i <= j <= |events|
    decreases j - i
  {
    if i == j then 0
    else Failures(lcfg, db, events, i, j - 1, user) + if Counts(lcfg, db, events, j - 1, user) then 1 else 0
  }

  /** The counter stays in 0..max, and is max exactly when a lock is set. */
  ghost predicate CountersOk(lcfg: LockoutConfig, db: Db) {
    forall u :: u in db.users ==> CounterOk(lcfg, db.users[u])
  }

  predicate CounterOk(lcfg: LockoutConfig, u: User) {
    u.failedAttempts <= lcfg.maxFailedAttempts && (u.failedAttempts == lcfg.maxFailedAttempts <==> u.lockedUntil.Some?)
  }

  lemma HappenKeepsCounters(lcfg: LockoutConfig, db: Db, e: Event)
    requires lcfg.Valid() && CountersOk(lcfg, db) && (e.Elsewhere? ==> LockoutUntouched(db, e.db))
    ensures CountersOk(lcfg, Happen(lcfg, db, e))
  {
    forall u | u in Happen(lcfg, db, e).users ensures CounterOk(lcfg, Happen(lcfg, db, e).users[u]) {
      if u in db.users {
        assert CounterOk(lcfg, db.users[u]);
      }
    }
  }

  /** At every moment of every history the counter is in 0..max, and equals max exactly while a lock is set. */
  lemma {:induction false} CountersStayOk(lcfg: LockoutConfig, db: Db, events: seq<Event>, i: nat)
    requires lcfg.Valid() && CountersOk(lcfg, db) && IsHistory(lcfg, db, events) && i <= |events|
    ensures CountersOk(lcfg, Before(lcfg, db, events, i))
  {
    if i > 0 {
      CountersStayOk(lcfg, db, events, i - 1);
      assert LeavesLockout(lcfg, db, events, i - 1);
      HappenKeepsCounters(lcfg, Before(lcfg, db, events, i - 1), events[i - 1]);
    }
  }

  /** After a failure at `since`: a lock has run its course, or one holds, or the counter still grows. */
  predicate Progress(lcfg: LockoutConfig, u: User, since: Time, clock: Time, failures: nat) {
    || since + LockMs(lcfg) <= clock
    || (u.lockedUntil.Some? && since + LockMs(lcfg) <= u.lockedUntil.value)
    || (u.lockedUntil.None? && failures <= u.failedAttempts)
  }

  /** The row of a counted failure. */
  function FailedRow(lcfg: LockoutConfig, row: User, lockedAt: Time): User {
    CountFailure(lcfg, if row.lockedUntil.Some? then Cleared(row) else row, lockedAt)
  }

  lemma RowAfter(lcfg: LockoutConfig, db: Db, e: Event, user: UserId)
    requires user in db.users && !ClearsFor(lcfg, db, e, user) && (e.Elsewhere? ==> LockoutUntouched(db, e.db))
    ensures user in Happen(lcfg, db, e).users
    ensures var row := db.users[user]; var next := Happen(lcfg, db, e).users[user];
      if FailsFor(lcfg, db, e, user) then !IsLocked(row, e.at) && next == FailedRow(lcfg, row, e.lockedAt)
        else SameLockout(row, next)
  {
    match e
    case Try(_, _, _, _) =>
    case NewCredential(_, _, _) =>
    case Elsewhere(_, _) =>
  }

  lemma FailureProgresses(
      lcfg: LockoutConfig, row: User, since: Time, clock: Time, at: Time, lockedAt: Time, failures: nat)
    requires Progress(lcfg, row, since, clock, failures) && since <= clock <= at <= lockedAt && !IsLocked(row, at)
    ensures Progress(lcfg, FailedRow(lcfg, row, lockedAt), since, at, failures + 1)
  {
  }

  lemma EventProgresses(lcfg: LockoutConfig, db: Db, e: Event, user: UserId, since: Time, clock: Time, failures: nat)
    requires lcfg.Valid() && user in db.users && Progress(lcfg, db.users[user], since, clock, failures)
    requires since <= clock <= e.at && (e.Try? ==> e.at <= e.lockedAt) && !ClearsFor(lcfg, db, e, user)
    requires (e.Elsewhere? ==> LockoutUntouched(db, e.db))
    ensures var next := Happen(lcfg, db, e);
      && user in next.users
      && Progress(lcfg, next.users[user], since, e.at, if FailsFor(lcfg, db, e, user) then failures + 1 else failures)
  {
    RowAfter(lcfg, db, e, user);
    if FailsFor(lcfg, db, e, user) {
      FailureProgresses(lcfg, db.users[user], since, clock, e.at, e.lockedAt, failures);
    }
  }

  lemma FirstFailure(lcfg: LockoutConfig, db: Db, e: Event, user: UserId)
    requires lcfg.Valid() && FailsFor(lcfg, db, e, user) && e.at <= e.lockedAt
    ensures var next := Happen(lcfg, db, e); user in next.users && Progress(lcfg, next.users[user], e.at, e.at, 1)
  {
  }

  /** No successful login and no new credential for `user` from event `i` up to `j`. */
  predicate Unbroken(lcfg: LockoutConfig, db: Db, events: seq<Event>, i: nat, j: nat, user: UserId)
    requires i <= j <= |events|
    decreases j - i
  {
    i == j
    || (!ClearsFor(lcfg, Before(lcfg, db, events, j - 1), events[j - 1], user)
        && Unbroken(lcfg, db, events, i, j - 1, user))
  }

  /** Progress since event `i`, just after event `j - 1`. */
  predicate InProgress(lcfg: LockoutConfig, db: Db, events: seq<Event>, i: nat, j: nat, user: UserId)
    requires i < j <= |events|
  {
    var now := Before(lcfg, db, events, j);
    user in now.users
    && Progress(lcfg, now.users[user], events[i].at, events[j - 1].at, Failures(lcfg, db, events, i, j, user))
  }

  lemma SegmentStarts(lcfg: LockoutConfig, db: Db, events: seq<Event>, i: nat, user: UserId)
    requires lcfg.Valid() && IsHistory(lcfg, db, events) && i < |events| && Counts(lcfg, db, events, i, user)
    ensures InProgress(lcfg, db, events, i, i + 1, user)
  {
    FirstFailure(lcfg, Before(lcfg, db, events, i), events[i], user);
    assert Failures(lcfg, db, events, i, i, user) == 0;
  }

  lemma SegmentContinues(lcfg: LockoutConfig, db: Db, events: seq<Event>, i: nat, j: nat, user: UserId)
    requires lcfg.Valid() && IsHistory(lcfg, db, events) && i + 1 < j <= |events|
    requires !ClearsFor(lcfg, Before(lcfg, db, events, j - 1), events[j - 1], user)
    requires InProgress(lcfg, db, events, i, j - 1, user)
    ensures InProgress(lcfg, db, events, i, j, user)
  {
    var last, e := Before(lcfg, db, events, j - 1), events[j - 1];
    assert Before(lcfg, db, events, j) == Happen(lcfg, last, e);
    assert events[i].at <= events[j - 2].at <= e.at && LeavesLockout(lcfg, db, events, j - 1);
    EventProgresses(lcfg, last, e, user, events[i].at, events[j - 2].at, Failures(lcfg, db, events, i, j - 1, user));
  }

  lemma {:induction false} UnbrokenAt(
      lcfg: LockoutConfig, db: Db, events: seq<Event>, i: nat, j: nat, k: nat, user: UserId)
    requires i <= k < j <= |events| && Unbroken(lcfg, db, events, i, j, user)
    ensures !ClearsFor(lcfg, Before(lcfg, db, events, k), events[k], user)
    decreases j - k
  {
    if k < j - 1 {
      UnbrokenAt(lcfg, db, events, i, j - 1, k, user);
    }
  }

  lemma {:induction false} SegmentGoesOn(
      lcfg: LockoutConfig, db: Db, events: seq<Event>, i: nat, k: nat, j: nat, user: UserId)
    requires lcfg.Valid() && IsHistory(lcfg, db, events) && i < k <= j <= |events|
    requires Unbroken(lcfg, db, events, i, j, user) && InProgress(lcfg, db, events, i, k, user)
    ensures InProgress(lcfg, db, events, i, j, user)
    decreases j - k
  {
    if k < j {
      UnbrokenAt(lcfg, db, events, i, j, k, user);
      SegmentContinues(lcfg, db, events, i, k + 1, user);
      SegmentGoesOn(lcfg, db, events, i, k + 1, j, user);
    }
  }

  lemma SegmentProgresses(lcfg: LockoutConfig, db: Db, events: seq<Event>, i: nat, j: nat, user: UserId)
    requires lcfg.Valid() && IsHistory(lcfg, db, events) && i < j <= |events|
    requires Counts(lcfg, db, events, i, user) && Unbroken(lcfg, db, events, i, j, user)
    ensures InProgress(lcfg, db, events, i, j, user)
  {
    SegmentStarts(lcfg, db, events, i, user);
    SegmentGoesOn(lcfg, db, events, i, i + 1, j, user);
  }

  /**
   * The lockout bounds the rate of guessing. With no successful login and no credential reset in
   * between, a counted failure that has max or more counted failures before it, from `i` on, comes at
   * least the lock duration after the first of them.
   */
  lemma LockoutBoundsTheRate(lcfg: LockoutConfig, db: Db, events: seq<Event>, i: nat, j: nat, user: UserId)
    requires lcfg.Valid() && CountersOk(lcfg, db) && IsHistory(lcfg, db, events) && i < j < |events|
    requires Counts(lcfg, db, events, i, user) && Counts(lcfg, db, events, j, user)
    requires Unbroken(lcfg, db, events, i, j, user)
    requires Failures(lcfg, db, events, i, j, user) >= lcfg.maxFailedAttempts
    ensures events[i].at + LockMs(lcfg) <= events[j].at
  {
    SegmentProgresses(lcfg, db, events, i, j, user);
    CountersStayOk(lcfg, db, events, j);
    assert CounterOk(lcfg, Before(lcfg, db, events, j).users[user]);
    assert events[j - 1].at <= events[j].at;
  }
}
