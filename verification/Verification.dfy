/** Email verification: the resend cooldown, and at most one live token, over whole runs. */
module Verification {
  import opened AuthModel
  import opened AuthDb
  import opened Runs
  import opened Accounts

  function Cooldown(settings: Settings): nat {
    settings.verification.cooldownSeconds * MS_PER_SECOND
  }

  function Lifetime(settings: Settings): nat {
    settings.verification.tokenTtlHours * MS_PER_HOUR
  }

  function Retention(settings: Settings): nat {
    settings.userTokenRetentionDays * MS_PER_DAY
  }

  /** Cleanup keeps a token's row for as long as that row has to block a resend. */
  predicate CooldownIsRetained(settings: Settings) {
    Cooldown(settings) <= Lifetime(settings) + Retention(settings)
  }

  /** The address for which this operation creates a verification token, if any. */
  predicate Sends(settings: Settings, db: Db, op: Op, now: Time, email: Address) {
    match op
    case SignUp(e, _, _, _) => e == email && email !in db.emails
    case ResendMail(e, _) =>
      && e == email && email in db.emails && !db.emails[email].isVerified
      && !IsCooldownActive(settings.verification, db.userTokens, db.emails[email].userId, email, now)
    case _ => false
  }

  ghost predicate MailOk(db: Db, clock: Time) {
    forall k :: k in db.userTokens ==> MailRowOk(db, db.userTokens[k], clock)
  }

  predicate MailRowOk(db: Db, row: UserToken, clock: Time) {
    && row.createdAt <= clock && row.createdAt <= row.expiresAt
    && (row.email.Some? ==> row.email.value in db.emails && db.emails[row.email.value].userId == row.userId)
  }

  /** No two unused and unexpired verification tokens of one address. */
  ghost predicate OneLive(db: Db, clock: Time) {
    forall j, k :: j in db.userTokens && k in db.userTokens && j != k
                   && db.userTokens[j].email.Some? && db.userTokens[j].email == db.userTokens[k].email
                   ==> !(IsLiveVerification(db.userTokens[j], clock) && IsLiveVerification(db.userTokens[k], clock))
  }

  /** The token created at `last` still blocks resends, or no longer needs to. */
  ghost predicate Guarded(settings: Settings, db: Db, clock: Time, email: Address, last: Time) {
    && email in db.emails
    && (last + Cooldown(settings) <= clock || db.emails[email].isVerified
        || exists k :: k in db.userTokens && IsGuard(settings, db, k, email, last))
  }

  /** The token created at `last`, with its full lifetime. */
  predicate IsGuard(settings: Settings, db: Db, k: UserTokenId, email: Address, last: Time)
    requires k in db.userTokens && email in db.emails
  {
    IsTokenOf(db, k, email) && db.userTokens[k].createdAt == last
      && db.userTokens[k].expiresAt == last + Lifetime(settings)
  }

  predicate IsTokenOf(db: Db, k: UserTokenId, email: Address)
    requires k in db.userTokens && email in db.emails
  {
    IsVerificationToken(db.userTokens[k], db.emails[email].userId, email)
  }

  // ----- what a transaction does to the user tokens -----

  predicate RowLater(a: UserToken, b: UserToken, now: Time) {
    && b.userId == a.userId && b.kind == a.kind && b.email == a.email && b.createdAt == a.createdAt
    && (b.expiresAt == a.expiresAt || b.expiresAt == now)
    && (a.usedAt.Some? ==> b.usedAt.Some?)
  }

  ghost predicate RowsLater(a: map<UserTokenId, UserToken>, b: map<UserTokenId, UserToken>, now: Time) {
    forall k :: k in b ==> k in a && RowLater(a[k], b[k], now)
  }

  /** Only linking, which verifies the address, shortens the life of a token it does not replace. */
  ghost predicate ExpiriesKept(a: Db, b: Db) {
    forall k :: k in a.userTokens && k in b.userTokens && a.userTokens[k].email.Some? ==>
      || b.userTokens[k].expiresAt == a.userTokens[k].expiresAt
      || (a.userTokens[k].email.value in b.emails && b.emails[a.userTokens[k].email.value].isVerified)
  }

  /** Rows that disappear expired more than the retention ago. */
  ghost predicate OnlyStaleRowsGo(
      settings: Settings, a: map<UserTokenId, UserToken>, b: map<UserTokenId, UserToken>, now: Time) {
    forall k :: k in a && k !in b ==> a[k].expiresAt < now - Retention(settings)
  }

  /** A transaction that creates no verification token. */
  ghost predicate Quiet(settings: Settings, a: Db, b: Db, now: Time) {
    RowsLater(a.userTokens, b.userTokens, now) && EmailsForward(a, b) && ExpiriesKept(a, b)
    && OnlyStaleRowsGo(settings, a.userTokens, b.userTokens, now)
  }

  /** A transaction that expires every token of `email` and creates one more. */
  ghost predicate Sent(settings: Settings, a: Db, b: Db, email: Address, mail: UserTokenId, now: Time) {
    && mail !in a.userTokens && mail in b.userTokens && email in b.emails && EmailsForward(a, b)
    && (email in a.emails ==> !a.emails[email].isVerified)
    && b.userTokens[mail] == NewVerificationToken(settings.verification, b.emails[email].userId, email, now)
    && a.userTokens.Keys + {mail} == b.userTokens.Keys
    && (forall k :: k in a.userTokens ==> RowLater(a.userTokens[k], b.userTokens[k], now))
    && (forall k :: k in a.userTokens && a.userTokens[k].email != Some(email) ==> b.userTokens[k] == a.userTokens[k])
    && (forall k :: k in a.userTokens && a.userTokens[k].email == Some(email) ==>
        !IsLiveVerification(b.userTokens[k], now))
    && (forall k :: k in a.userTokens && email in a.emails && IsTokenOf(a, k, email)
          ==> a.userTokens[k].createdAt + Cooldown(settings) <= now)
  }

  lemma SessionOpsAreQuiet(settings: Settings, w: World, op: Op)
    requires settings.Valid() && (op.Login? || op.Refresh? || op.EndSession? || op.EndByToken? || op.EndAllSessions?
                                  || op.ReplacePassword? || op.Administer? || op.Wait?)
    ensures var db' := Transact(settings, w.db, op, w.clock);
      db'.userTokens == w.db.userTokens && db'.emails == w.db.emails && db'.identities == w.db.identities
  {
    if IsSessionOnly(op) {
      SessionOpsLeaveAccounts(settings, w.db, op, w.clock);
    }
  }

  lemma LinkOnMail(db: Db, p: Profile, now: Time)
    requires p.email in db.emails && db.emails[p.email].userId in db.users
    ensures var db' := LinkToExistingUser(db, p, now); var row := db.emails[p.email];
      && db'.userTokens == (if row.isVerified then db.userTokens else ExpireUnused(db.userTokens, row.userId, now))
      && db'.emails == (if row.isVerified then db.emails
                        else db.emails[p.email := row.(isVerified := true, verifiedAt := Some(now))])
  {
  }

  /** Expiring the tokens of a user whose address is verified in the same transaction. */
  lemma ExpiringIsQuiet(settings: Settings, a: Db, b: Db, email: Address, now: Time)
    requires MailOk(a, now) && OneEmailEach(a) && email in a.emails
    requires b.userTokens == ExpireUnused(a.userTokens, a.emails[email].userId, now)
    requires b.emails == a.emails[email := a.emails[email].(isVerified := true, verifiedAt := Some(now))]
    ensures Quiet(settings, a, b, now)
  {
    forall k | k in a.userTokens && a.userTokens[k].email.Some?
      ensures b.userTokens[k].expiresAt == a.userTokens[k].expiresAt || b.emails[a.userTokens[k].email.value].isVerified
    {
      assert MailRowOk(a, a.userTokens[k], now);
    }
  }

  lemma LinkIsQuiet(settings: Settings, db: Db, p: Profile, now: Time)
    requires MailOk(db, now) && OneEmailEach(db) && p.email in db.emails && db.emails[p.email].userId in db.users
    ensures Quiet(settings, db, LinkToExistingUser(db, p, now), now)
  {
    LinkOnMail(db, p, now);
    if !db.emails[p.email].isVerified {
      ExpiringIsQuiet(settings, db, LinkToExistingUser(db, p, now), p.email, now);
    }
  }

  lemma ExternalSignInIsQuiet(settings: Settings, db: Db, p: Profile, newUser: UserId, now: Time)
    requires MailOk(db, now) && OneEmailEach(db)
    ensures Quiet(settings, db, ResolveIdentity(db, p, newUser, now).0, now)
  {
    if p.identity !in db.identities && p.email in db.emails && db.emails[p.email].userId in db.users {
      LinkIsQuiet(settings, db, p, now);
    }
  }

  lemma ConfirmIsQuiet(settings: Settings, db: Db, mail: UserTokenId, now: Time)
    ensures Quiet(settings, db, VerifyEmail(db, mail, now), now)
  {
  }

  lemma SignUpSends(
      settings: Settings, db: Db, email: Address, user: UserId, hash: PasswordHash, mail: UserTokenId, now: Time)
    requires MailOk(db, now) && mail !in db.userTokens
    ensures var db' := Register(settings.verification, db, email, user, hash, mail, now);
      if email in db.emails then db' == db else Sent(settings, db, db', email, mail, now)
  {
  }

  lemma ResendSends(settings: Settings, db: Db, email: Address, mail: UserTokenId, now: Time)
    requires MailOk(db, now) && mail !in db.userTokens
    ensures var db' := Resend(settings.verification, db, email, mail, now);
      if Sends(settings, db, ResendMail(email, mail), now, email) then Sent(settings, db, db', email, mail, now)
        else db' == db
  {
  }

  /** Every admissible operation is quiet or sends one token, and `Sends` says which. */
  lemma TransactOnMail(settings: Settings, w: World, op: Op)
    requires settings.Valid() && Admissible(settings, w, op) && MailOk(w.db, w.clock) && AccountsOk(w.db)
    ensures var db' := Transact(settings, w.db, op, w.clock);
      if (op.SignUp? || op.ResendMail?) && Sends(settings, w.db, op, w.clock, op.email)
      then Sent(settings, w.db, db', op.email, op.mail, w.clock)
      else Quiet(settings, w.db, db', w.clock)
  {
    match op
    case SignInExternally(p, newUser) => ExternalSignInIsQuiet(settings, w.db, p, newUser, w.clock);
    case SignUp(email, newUser, hash, mail) => SignUpSends(settings, w.db, email, newUser, hash, mail, w.clock);
    case ResendMail(email, mail) => ResendSends(settings, w.db, email, mail, w.clock);
    case ConfirmEmail(mail) => ConfirmIsQuiet(settings, w.db, mail, w.clock);
    case Clean(_, _) =>
    case _ => SessionOpsAreQuiet(settings, w, op);
  }

  // ----- invariants -----

  lemma QuietKeepsMail(settings: Settings, a: Db, b: Db, now: Time, later: Time)
    requires Quiet(settings, a, b, now) && MailOk(a, now) && OneLive(a, now) && now <= later
    ensures MailOk(b, later) && OneLive(b, later)
  {
    forall j, k | j in b.userTokens && k in b.userTokens && j != k
                  && b.userTokens[j].email.Some? && b.userTokens[j].email == b.userTokens[k].email
      ensures !(IsLiveVerification(b.userTokens[j], later) && IsLiveVerification(b.userTokens[k], later))
    {
      assert !(IsLiveVerification(a.userTokens[j], now) && IsLiveVerification(a.userTokens[k], now));
    }
  }

  lemma SentKeepsMail(settings: Settings, a: Db, b: Db, email: Address, mail: UserTokenId, now: Time)
    requires Sent(settings, a, b, email, mail, now) && MailOk(a, now) && OneLive(a, now)
    ensures MailOk(b, now) && OneLive(b, now)
  {
    forall j, k | j in b.userTokens && k in b.userTokens && j != k
                  && b.userTokens[j].email.Some? && b.userTokens[j].email == b.userTokens[k].email
      ensures !(IsLiveVerification(b.userTokens[j], now) && IsLiveVerification(b.userTokens[k], now))
    {
      if j != mail && k != mail {
        assert !(IsLiveVerification(a.userTokens[j], now) && IsLiveVerification(a.userTokens[k], now));
      }
    }
  }

  lemma DoKeepsMail(settings: Settings, w: World, op: Op)
    requires settings.Valid() && Admissible(settings, w, op) && MailOk(w.db, w.clock) && AccountsOk(w.db)
    requires OneLive(w.db, w.clock)
    ensures MailOk(Do(settings, w, op).db, Do(settings, w, op).clock)
    ensures OneLive(Do(settings, w, op).db, Do(settings, w, op).clock)
    ensures AccountsOk(Do(settings, w, op).db)
  {
    TransactOnMail(settings, w, op);
    TransactKeepsAccounts(settings, w, op);
    var db' := Transact(settings, w.db, op, w.clock);
    if (op.SignUp? || op.ResendMail?) && Sends(settings, w.db, op, w.clock, op.email) {
      SentKeepsMail(settings, w.db, db', op.email, op.mail, w.clock);
    } else {
      QuietKeepsMail(settings, w.db, db', w.clock, Do(settings, w, op).clock);
    }
  }

  lemma QuietKeepsGuard(settings: Settings, a: Db, b: Db, now: Time, later: Time, email: Address, last: Time)
    requires CooldownIsRetained(settings) && Quiet(settings, a, b, now) && MailOk(a, now) && now <= later
    requires Guarded(settings, a, now, email, last)
    ensures Guarded(settings, b, later, email, last)
  {
    if !(last + Cooldown(settings) <= later) && !b.emails[email].isVerified {
      var k :| k in a.userTokens && IsGuard(settings, a, k, email, last);
      assert k in b.userTokens;
      assert b.userTokens[k].expiresAt == a.userTokens[k].expiresAt ==> IsGuard(settings, b, k, email, last);
    }
  }

  lemma SentKeepsGuard(
      settings: Settings, a: Db, b: Db, sent: Address, mail: UserTokenId, now: Time, email: Address, last: Time)
    requires Sent(settings, a, b, sent, mail, now) && Guarded(settings, a, now, email, last)
    ensures Guarded(settings, b, now, email, last)
    ensures email == sent ==> last + Cooldown(settings) <= now
  {
    if !(last + Cooldown(settings) <= now) && !a.emails[email].isVerified {
      var k :| k in a.userTokens && IsGuard(settings, a, k, email, last);
      assert email != sent ==> IsGuard(settings, b, k, email, last);
    }
  }

  lemma SentIsGuarded(settings: Settings, a: Db, b: Db, email: Address, mail: UserTokenId, now: Time)
    requires Sent(settings, a, b, email, mail, now)
    ensures Guarded(settings, b, now, email, now)
  {
    assert IsGuard(settings, b, mail, email, now);
  }

  // ----- whole runs -----

  /** When the run creates verification tokens for `email`. */
  ghost function SentTimes(settings: Settings, w: World, ops: seq<Op>, email: Address): seq<Time>
    requires settings.Valid()
    decreases |ops|
  {
    if ops == [] then []
    else
      (if Sends(settings, w.db, ops[0], w.clock, email) then [w.clock] else [])
      + SentTimes(settings, Do(settings, w, ops[0]), ops[1..], email)
  }

  predicate Spaced(times: seq<Time>, gap: nat) {
    forall i :: 0 <= i < |times| - 1 ==> times[i] + gap <= times[i + 1]
  }

  lemma StepGuards(settings: Settings, w: World, op: Op, email: Address, last: Time)
    requires settings.Valid() && CooldownIsRetained(settings) && Admissible(settings, w, op) && MailOk(w.db, w.clock)
    requires AccountsOk(w.db)
    requires Guarded(settings, w.db, w.clock, email, last)
    ensures Guarded(settings, Do(settings, w, op).db, Do(settings, w, op).clock, email, last)
    ensures Sends(settings, w.db, op, w.clock, email) ==>
              last + Cooldown(settings) <= w.clock
                && Guarded(settings, Do(settings, w, op).db, Do(settings, w, op).clock, email, w.clock)
  {
    TransactOnMail(settings, w, op);
    var db' := Transact(settings, w.db, op, w.clock);
    if (op.SignUp? || op.ResendMail?) && Sends(settings, w.db, op, w.clock, op.email) {
      SentKeepsGuard(settings, w.db, db', op.email, op.mail, w.clock, email, last);
      SentIsGuarded(settings, w.db, db', op.email, op.mail, w.clock);
    } else {
      QuietKeepsGuard(settings, w.db, db', w.clock, Do(settings, w, op).clock, email, last);
    }
  }

  lemma {:induction false} GuardedRunIsSpaced(settings: Settings, w: World, ops: seq<Op>, email: Address, last: Time)
    requires settings.Valid() && CooldownIsRetained(settings) && IsRun(settings, w, ops)
    requires MailOk(w.db, w.clock) && OneLive(w.db, w.clock) && AccountsOk(w.db)
    requires Guarded(settings, w.db, w.clock, email, last)
    ensures Spaced([last] + SentTimes(settings, w, ops, email), Cooldown(settings))
    decreases |ops|
  {
    if ops != [] {
      var next := Do(settings, w, ops[0]);
      DoKeepsMail(settings, w, ops[0]);
      StepGuards(settings, w, ops[0], email, last);
      if Sends(settings, w.db, ops[0], w.clock, email) {
        GuardedRunIsSpaced(settings, next, ops[1..], email, w.clock);
        assert [last] + SentTimes(settings, w, ops, email)
            == [last] + ([w.clock] + SentTimes(settings, next, ops[1..], email));
      } else {
        GuardedRunIsSpaced(settings, next, ops[1..], email, last);
        assert SentTimes(settings, w, ops, email) == SentTimes(settings, next, ops[1..], email);
      }
    }
  }

  lemma FirstSendGuards(settings: Settings, w: World, op: Op, email: Address)
    requires settings.Valid() && Admissible(settings, w, op) && MailOk(w.db, w.clock) && AccountsOk(w.db)
    requires Sends(settings, w.db, op, w.clock, email)
    ensures Guarded(settings, Do(settings, w, op).db, Do(settings, w, op).clock, email, w.clock)
  {
    TransactOnMail(settings, w, op);
    SentIsGuarded(settings, w.db, Transact(settings, w.db, op, w.clock), op.email, op.mail, w.clock);
  }

  /**
   * Over any run of registrations, resends, verifications, identity links, cleanups and everything
   * else, consecutive verification tokens of one address are at least the cooldown apart.
   */
  lemma {:induction false} TokensAreSpaced(settings: Settings, w: World, ops: seq<Op>, email: Address)
    requires settings.Valid() && CooldownIsRetained(settings) && IsRun(settings, w, ops)
    requires MailOk(w.db, w.clock) && OneLive(w.db, w.clock) && AccountsOk(w.db)
    ensures Spaced(SentTimes(settings, w, ops, email), Cooldown(settings))
    decreases |ops|
  {
    if ops != [] {
      var next := Do(settings, w, ops[0]);
      DoKeepsMail(settings, w, ops[0]);
      if Sends(settings, w.db, ops[0], w.clock, email) {
        FirstSendGuards(settings, w, ops[0], email);
        GuardedRunIsSpaced(settings, next, ops[1..], email, w.clock);
      } else {
        TokensAreSpaced(settings, next, ops[1..], email);
        assert SentTimes(settings, w, ops, email) == SentTimes(settings, next, ops[1..], email);
      }
    }
  }

  lemma {:induction false} SpacedSpan(times: seq<Time>, gap: nat, i: nat, j: nat)
    requires Spaced(times, gap) && i <= j < |times|
    ensures times[i] + (j - i) * gap <= times[j]
  {
    if i < j {
      SpacedSpan(times, gap, i, j - 1);
      assert (j - i) * gap == (j - 1 - i) * gap + gap;
    }
  }

  /** A window of length `width` holds at most width / cooldown + 1 tokens of one address. */
  lemma WindowHoldsFew(settings: Settings, w: World, ops: seq<Op>, email: Address, i: nat, j: nat, width: nat)
    requires settings.Valid() && CooldownIsRetained(settings) && IsRun(settings, w, ops)
    requires MailOk(w.db, w.clock) && OneLive(w.db, w.clock) && AccountsOk(w.db)
    requires i <= j < |SentTimes(settings, w, ops, email)|
    requires SentTimes(settings, w, ops, email)[j] - SentTimes(settings, w, ops, email)[i] <= width
    ensures j - i + 1 <= width / Cooldown(settings) + 1
  {
    TokensAreSpaced(settings, w, ops, email);
    SpacedWindow(SentTimes(settings, w, ops, email), Cooldown(settings), i, j, width);
  }

  lemma SpacedWindow(times: seq<Time>, gap: nat, i: nat, j: nat, width: nat)
    requires Spaced(times, gap) && gap > 0 && i <= j < |times| && times[j] - times[i] <= width
    ensures j - i + 1 <= width / gap + 1
  {
    SpacedSpan(times, gap, i, j);
    DivisionBound(j - i, gap, width);
  }

  lemma {:induction false} CancelFactor(n: nat, m: nat, d: nat)
    requires n * d < m * d
    ensures n < m
  {
    if n > 0 && m > 0 {
      assert (n - 1) * d == n * d - d && (m - 1) * d == m * d - d;
      CancelFactor(n - 1, m - 1, d);
    }
  }

  lemma QuotientCeiling(width: nat, d: nat)
    requires d > 0
    ensures width < (width / d + 1) * d
  {
    assert width == (width / d) * d + width % d;
  }

  lemma DivisionBound(n: nat, d: nat, width: nat)
    requires d > 0 && n * d <= width
    ensures n <= width / d
  {
    QuotientCeiling(width, d);
    CancelFactor(n, width / d + 1, d);
  }

  /** At any time at most one verification token of an address is both unused and unexpired. */
  lemma {:induction false} AtMostOneLiveToken(settings: Settings, w: World, ops: seq<Op>)
    requires settings.Valid() && IsRun(settings, w, ops) && MailOk(w.db, w.clock) && OneLive(w.db, w.clock)
    requires AccountsOk(w.db)
    ensures MailOk(DoAll(settings, w, ops).db, DoAll(settings, w, ops).clock)
    ensures OneLive(DoAll(settings, w, ops).db, DoAll(settings, w, ops).clock)
    decreases |ops|
  {
    if ops != [] {
      DoKeepsMail(settings, w, ops[0]);
      AtMostOneLiveToken(settings, Do(settings, w, ops[0]), ops[1..]);
    }
  }

  /** The link has been used, and its token is not about to be issued again. */
  predicate IsSpent(w: World, k: UserTokenId) {
    k in w.mailed && (k in w.db.userTokens ==> w.db.userTokens[k].usedAt.Some?)
  }

  lemma DoKeepsSpent(settings: Settings, w: World, op: Op, k: UserTokenId)
    requires settings.Valid() && Admissible(settings, w, op) && MailOk(w.db, w.clock) && AccountsOk(w.db)
    requires IsSpent(w, k)
    ensures IsSpent(Do(settings, w, op), k)
  {
    TransactOnMail(settings, w, op);
  }

  lemma {:induction false} SpentStaysSpent(settings: Settings, w: World, ops: seq<Op>, k: UserTokenId)
    requires settings.Valid() && IsRun(settings, w, ops) && IsSpent(w, k)
    requires MailOk(w.db, w.clock) && OneLive(w.db, w.clock) && AccountsOk(w.db)
    ensures IsSpent(DoAll(settings, w, ops), k)
    decreases |ops|
  {
    if ops != [] {
      DoKeepsSpent(settings, w, ops[0], k);
      DoKeepsMail(settings, w, ops[0]);
      SpentStaysSpent(settings, Do(settings, w, ops[0]), ops[1..], k);
    }
  }

  /** A verification link that was accepted is never accepted again, whatever the run goes on to do. */
  lemma LinksAreSingleUse(settings: Settings, w: World, ops: seq<Op>, k: UserTokenId)
    requires settings.Valid() && IsRun(settings, w, [ConfirmEmail(k)] + ops) && k in w.mailed
    requires MailOk(w.db, w.clock) && OneLive(w.db, w.clock) && AccountsOk(w.db)
    requires Confirms(w.db, k, w.clock)
    ensures var last := DoAll(settings, w, [ConfirmEmail(k)] + ops); !Confirms(last.db, k, last.clock)
  {
    assert ([ConfirmEmail(k)] + ops)[1..] == ops;
    DoKeepsMail(settings, w, ConfirmEmail(k));
    SpentStaysSpent(settings, Do(settings, w, ConfirmEmail(k)), ops, k);
  }

  // ----- the condition is exact -----

  const EMPTY_DB := Db(map[], map[], map[], map[], map[], map[], [])

  /** Register, let the token expire and be cleaned away, and ask for another. */
  function ForgetfulRun(settings: Settings): seq<Op> {
    [SignUp(0, 0, 0, 0), Wait(Lifetime(settings) + Retention(settings) + 1), Clean({}, {0}), ResendMail(0, 1)]
  }

  lemma WorldBeforeResend(settings: Settings, w: World)
    requires settings.Valid() && w == World(EMPTY_DB, 0, {}, {})
    ensures var next := Do(settings,
                           Do(settings, Do(settings, w, ForgetfulRun(settings)[0]), ForgetfulRun(settings)[1]),
                           ForgetfulRun(settings)[2]);
      && next.clock == Lifetime(settings) + Retention(settings) + 1 && next.db.userTokens == map[]
      && next.db.emails == map[0 := UserEmail(0, true, false, None)]
  {
  }

  lemma NotSpaced(settings: Settings, times: seq<Time>)
    requires !CooldownIsRetained(settings) && times == [0, Lifetime(settings) + Retention(settings) + 1]
    ensures !Spaced(times, Cooldown(settings))
  {
    assert Cooldown(settings) % 1000 == 0 && (Lifetime(settings) + Retention(settings)) % 1000 == 0;
    assert times[0] + Cooldown(settings) > times[0 + 1];
  }

  /** The run after its first mail: it waits, cleans up, and sends again. */
  lemma SecondMail(settings: Settings, w1: World, ops: seq<Op>)
    requires settings.Valid() && ops == ForgetfulRun(settings)[1..]
    requires var w3 := Do(settings, Do(settings, w1, ops[0]), ops[1]);
      Sends(settings, w3.db, ops[2], w3.clock, 0)
    ensures SentTimes(settings, w1, ops, 0) == [Do(settings, Do(settings, w1, ops[0]), ops[1]).clock]
  {
    var w2 := Do(settings, w1, ops[0]);
    var w3 := Do(settings, w2, ops[1]);
    assert ops[1..][1..] == ops[2..] && ops[2..][1..] == [];
    assert SentTimes(settings, w3, ops[2..], 0) == [w3.clock];
    assert SentTimes(settings, w2, ops[1..], 0) == [w3.clock];
  }

  /** The times of the run: one mail at the start, one after the row is forgotten. */
  lemma ForgetfulTimes(settings: Settings)
    requires settings.Valid() && !CooldownIsRetained(settings)
    ensures var w := World(EMPTY_DB, 0, {}, {});
      SentTimes(settings, w, ForgetfulRun(settings), 0) == [0, Lifetime(settings) + Retention(settings) + 1]
  {
    var w := World(EMPTY_DB, 0, {}, {});
    var ops := ForgetfulRun(settings);
    WorldBeforeResend(settings, w);
    SecondMail(settings, Do(settings, w, ops[0]), ops[1..]);
    assert Sends(settings, w.db, ops[0], 0, 0);
  }

  lemma ForgetfulRunIsRun(settings: Settings)
    requires settings.Valid() && !CooldownIsRetained(settings)
    ensures IsRun(settings, World(EMPTY_DB, 0, {}, {}), ForgetfulRun(settings))
  {
    var w := World(EMPTY_DB, 0, {}, {});
    var ops := ForgetfulRun(settings);
    WorldBeforeResend(settings, w);
    var w1 := Do(settings, w, ops[0]);
    var w2 := Do(settings, w1, ops[1]);
    var w3 := Do(settings, w2, ops[2]);
    assert ops[1..][1..] == ops[2..] && ops[2..][1..] == ops[3..] && ops[3..][1..] == [];
    RunGoesOn(settings, w3, ops[3..]);
    RunGoesOn(settings, w2, ops[2..]);
    RunGoesOn(settings, w1, ops[1..]);
    RunGoesOn(settings, w, ops);
  }

  lemma RunGoesOn(settings: Settings, w: World, ops: seq<Op>)
    requires settings.Valid() && ops != [] && Admissible(settings, w, ops[0])
    requires IsRun(settings, Do(settings, w, ops[0]), ops[1..])
    ensures IsRun(settings, w, ops)
  {
  }

  /** If the cooldown outlasts the rows, a run exists whose two tokens are closer than the cooldown. */
  lemma ForgottenCooldown(settings: Settings)
    requires settings.Valid() && !CooldownIsRetained(settings)
    ensures var w := World(EMPTY_DB, 0, {}, {});
      && IsRun(settings, w, ForgetfulRun(settings)) && MailOk(w.db, w.clock) && OneLive(w.db, w.clock)
      && AccountsOk(w.db)
      && !Spaced(SentTimes(settings, w, ForgetfulRun(settings), 0), Cooldown(settings))
  {
    ForgetfulTimes(settings);
    ForgetfulRunIsRun(settings);
    NotSpaced(settings, SentTimes(settings, World(EMPTY_DB, 0, {}, {}), ForgetfulRun(settings), 0));
  }

  /** Tokens are spaced by the cooldown in every run if and only if cleanup retains rows long enough. */
  lemma CooldownHoldsExactlyWhenRetained(settings: Settings)
    requires settings.Valid()
    ensures CooldownIsRetained(settings) <==>
              forall w, ops, email ::
                IsRun(settings, w, ops) && MailOk(w.db, w.clock) && OneLive(w.db, w.clock) && AccountsOk(w.db)
                ==> Spaced(SentTimes(settings, w, ops, email), Cooldown(settings))
  {
    if CooldownIsRetained(settings) {
      forall w, ops, email | IsRun(settings, w, ops) && MailOk(w.db, w.clock) && OneLive(w.db, w.clock)
        && AccountsOk(w.db)
        ensures Spaced(SentTimes(settings, w, ops, email), Cooldown(settings))
      {
        TokensAreSpaced(settings, w, ops, email);
      }
    } else {
      ForgottenCooldown(settings);
    }
  }
}
