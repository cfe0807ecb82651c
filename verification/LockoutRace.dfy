/**
 * Password attempts on one account that overlap. An attempt reads the account, reads the clock, verifies,
 * clears the counter if the row it read had a lock that is over, and counts; each of these is a step of its
 * own, and counting increments and locks in one transaction.
 */
module LockoutRace {
  import opened AuthModel
  import opened AuthDb
  import opened Lockout
  import opened SetCounting

  type AttemptId = nat

  datatype Stage =
    | Arrived
    | Found(row: User)        // as it was when the attempt read it
    | Wrong(expired: bool)    // the password is wrong; the row had a lock, which is over
    | Counting                // the counter is cleared, the failure still to be counted
    | Right
    | Over

  datatype Machine = Machine(
    clock: Time,
    row: User,
    attempts: map<AttemptId, Stage>,
    counted: nat)             // history: the failures counted so far

  datatype Label =
    | Arrive(a: AttemptId)
    | Find(a: AttemptId)
    | Verify(a: AttemptId, valid: bool)
    | Clear(a: AttemptId)
    | Count(a: AttemptId)
    | Succeed(a: AttemptId)
    | Fail(a: AttemptId)
    | NewCredential(hash: Option<PasswordHash>)
    | Administer(status: UserStatus, deletedAt: Option<Time>)
    | Tick(to: Time)

  /** What the attempt makes of the row it read, at the time `now`. */
  function Judge(row: User, valid: bool, now: Time): Stage {
    if !IsUsable(row) || row.passwordHash.None? || IsLocked(row, now) then Over
    else if valid then Right
    else Wrong(row.lockedUntil.Some?)
  }

  predicate Enabled(m: Machine, l: Label) {
    match l
    case Arrive(a) => a !in m.attempts
    case Find(a) => a in m.attempts && m.attempts[a].Arrived?
    case Verify(a, _) => a in m.attempts && m.attempts[a].Found?
    case Clear(a) => a in m.attempts && m.attempts[a] == Wrong(true)
    case Count(a) => a in m.attempts && (m.attempts[a] == Wrong(false) || m.attempts[a].Counting?)
    case Succeed(a) => a in m.attempts && m.attempts[a].Right?
    case Fail(a) => a in m.attempts
    case Tick(to) => m.clock <= to
    case _ => true
  }

  function To(m: Machine, a: AttemptId, stage: Stage): Machine {
    m.(attempts := m.attempts[a := stage])
  }

  function Step(lcfg: LockoutConfig, m: Machine, l: Label): Machine
    requires Enabled(m, l)
  {
    match l
    case Arrive(a) => To(m, a, Arrived)
    case Find(a) => To(m, a, Found(m.row))
    case Verify(a, valid) => To(m, a, Judge(m.attempts[a].row, valid, m.clock))
    case Clear(a) => To(m, a, Counting).(row := Cleared(m.row))
    case Count(a) => To(m, a, Over).(row := CountFailure(lcfg, m.row, m.clock), counted := m.counted + 1)
    case Succeed(a) => To(m, a, Over).(row := Cleared(m.row))
    case Fail(a) => To(m, a, Over)
    case NewCredential(hash) => m.(row := ResetCredential(m.row, hash, m.clock))
    case Administer(status, deletedAt) => m.(row := m.row.(status := status, deletedAt := deletedAt))
    case Tick(to) => m.(clock := to)
  }

  predicate Moves(lcfg: LockoutConfig, m: Machine, l: Label, m': Machine) {
    Enabled(m, l) && m' == Step(lcfg, m, l)
  }

  // ----- the counter is full exactly while a lock is set -----

  predicate RowOk(lcfg: LockoutConfig, row: User) {
    row.lockedUntil.Some? <==> row.failedAttempts >= lcfg.maxFailedAttempts
  }

  lemma StepKeepsRow(lcfg: LockoutConfig, m: Machine, l: Label, m': Machine)
    requires lcfg.Valid() && RowOk(lcfg, m.row) && Moves(lcfg, m, l, m')
    ensures RowOk(lcfg, m'.row) && m.clock <= m'.clock && m.counted <= m'.counted
  {
  }

  // ----- a stretch shorter than the lock, with no success and no new credential -----

  predicate IsGuess(l: Label) {
    !l.Succeed? && !l.NewCredential?
  }

  ghost predicate GuessNext(lcfg: LockoutConfig, m: Machine, m': Machine) {
    exists l :: Moves(lcfg, m, l, m') && IsGuess(l)
  }

  /** A lock that holds for the whole stretch, up to `end`. */
  predicate IsShut(row: User, end: Time) {
    row.lockedUntil.Some? && row.lockedUntil.value >= end
  }

  /** The attempt may still clear the counter: it has read a lock that may be over. */
  predicate MayClear(stage: Stage, end: Time) {
    match stage
    case Found(row) => row.lockedUntil.Some? && !IsShut(row, end)
    case Wrong(expired) => expired
    case _ => false
  }

  /** The attempt may still count a failure. */
  predicate MayCount(stage: Stage, end: Time) {
    match stage
    case Found(row) => !IsShut(row, end)
    case Wrong(_) => true
    case Counting => true
    case _ => false
  }

  function Clearing(m: Machine, end: Time): set<AttemptId> {
    set a | a in m.attempts && MayClear(m.attempts[a], end)
  }

  function Pending(m: Machine, end: Time): set<AttemptId> {
    set a | a in m.attempts && MayCount(m.attempts[a], end)
  }

  /** What one opening of the lock lets through, with at most `k` attempts in flight together. */
  function PerOpening(lcfg: LockoutConfig, k: nat): nat
    requires lcfg.Valid() && k > 0
  {
    lcfg.maxFailedAttempts + k - 1
  }

  /** What `n` openings let through. */
  function Openings(n: nat, each: nat): nat {
    if n == 0 then 0 else each + Openings(n - 1, each)
  }

  /** What is left until the lock, if none is set. */
  function Left(lcfg: LockoutConfig, row: User): nat {
    if row.failedAttempts <= lcfg.maxFailedAttempts then lcfg.maxFailedAttempts - row.failedAttempts else 0
  }

  /** With `clearing` attempts that may clear the counter, and `others` that may count but not clear. */
  function Allowance(lcfg: LockoutConfig, row: User, end: Time, k: nat, clearing: nat, others: nat): nat
    requires lcfg.Valid() && k > 0
  {
    var each := PerOpening(lcfg, k);
    if row.lockedUntil.None? then Left(lcfg, row) + k - 1 + Openings(clearing, each)
    else if IsShut(row, end) then others + Openings(clearing, each)
    else Openings(k, each)
  }

  /** At most how many failures can still be counted before `end`. */
  function Budget(lcfg: LockoutConfig, m: Machine, end: Time, k: nat): nat
    requires lcfg.Valid() && k > 0
  {
    Allowance(lcfg, m.row, end, k, |Clearing(m, end)|, |Pending(m, end) - Clearing(m, end)|)
  }

  lemma {:induction false} MoreOpenings(a: nat, b: nat, each: nat)
    requires a <= b && each > 0
    ensures Openings(a, each) + (b - a) <= Openings(b, each)
    decreases b
  {
    if a < b {
      MoreOpenings(a, b - 1, each);
    }
  }

  lemma ClearersArePending(m: Machine, end: Time)
    ensures Clearing(m, end) <= Pending(m, end)
    ensures |Clearing(m, end)| <= |Pending(m, end)|
    ensures |Pending(m, end) - Clearing(m, end)| == |Pending(m, end)| - |Clearing(m, end)|
  {
    SubsetSize(Clearing(m, end), Pending(m, end));
  }

  /** What a step on one attempt does to the two sets. */
  lemma OneAttempt(m: Machine, m': Machine, a: AttemptId, stage: Stage, end: Time)
    requires m'.attempts == m.attempts[a := stage]
    ensures Clearing(m', end) == (if MayClear(stage, end) then Clearing(m, end) + {a} else Clearing(m, end) - {a})
    ensures Pending(m', end) == (if MayCount(stage, end) then Pending(m, end) + {a} else Pending(m, end) - {a})
  {
  }

  /** A step that leaves the row as it is, and adds nobody to either set. */
  lemma FewerAttempts(lcfg: LockoutConfig, m: Machine, m': Machine, end: Time, k: nat)
    requires lcfg.Valid() && k > 0 && m'.row.failedAttempts == m.row.failedAttempts
    requires m'.row.lockedUntil == m.row.lockedUntil
    requires Clearing(m', end) <= Clearing(m, end)
    requires IsShut(m.row, end) ==> Pending(m', end) - Clearing(m', end) <= Pending(m, end) - Clearing(m, end)
    ensures Budget(lcfg, m', end, k) <= Budget(lcfg, m, end, k)
  {
    SubsetSize(Clearing(m', end), Clearing(m, end));
    MoreOpenings(|Clearing(m', end)|, |Clearing(m, end)|, PerOpening(lcfg, k));
    if IsShut(m.row, end) {
      SubsetSize(Pending(m', end) - Clearing(m', end), Pending(m, end) - Clearing(m, end));
    }
  }

  ghost predicate AtMost(m: Machine, end: Time, k: nat) {
    |Pending(m, end)| <= k
  }

  /** Reading the account adds the attempt to the ones that may clear, or count, only while that is in the budget. */
  lemma FindingIsBudgeted(lcfg: LockoutConfig, m: Machine, a: AttemptId, m': Machine, end: Time, k: nat)
    requires lcfg.Valid() && k > 0 && Moves(lcfg, m, Find(a), m')
    ensures Budget(lcfg, m', end, k) <= Budget(lcfg, m, end, k)
  {
    OneAttempt(m, m', a, Found(m.row), end);
    if m.row.lockedUntil.None? || IsShut(m.row, end) {
      assert a !in Clearing(m, end) && a !in Pending(m, end);
      FewerAttempts(lcfg, m, m', end, k);
    }
  }

  lemma VerifyingIsBudgeted(lcfg: LockoutConfig, m: Machine, a: AttemptId, valid: bool, m': Machine, end: Time, k: nat)
    requires lcfg.Valid() && k > 0 && Moves(lcfg, m, Verify(a, valid), m') && m.clock < end
    ensures Budget(lcfg, m', end, k) <= Budget(lcfg, m, end, k)
  {
    OneAttempt(m, m', a, Judge(m.attempts[a].row, valid, m.clock), end);
    assert MayCount(m'.attempts[a], end) ==>
      (a in Clearing(m, end) <==> a in Clearing(m', end)) && a in Pending(m, end);
    FewerAttempts(lcfg, m, m', end, k);
  }

  /** Clearing opens the account again, at the price of one attempt that could have cleared it. */
  lemma ClearingIsBudgeted(lcfg: LockoutConfig, m: Machine, a: AttemptId, m': Machine, end: Time, k: nat)
    requires lcfg.Valid() && k > 0 && Moves(lcfg, m, Clear(a), m') && AtMost(m, end, k)
    ensures Budget(lcfg, m', end, k) <= Budget(lcfg, m, end, k)
  {
    OneAttempt(m, m', a, Counting, end);
    ClearersArePending(m, end);
    assert a in Clearing(m, end) && |Clearing(m', end)| == |Clearing(m, end)| - 1;
    MoreOpenings(|Clearing(m, end)|, k, PerOpening(lcfg, k));
  }

  lemma CountingAllowance(lcfg: LockoutConfig, row: User, now: Time, end: Time, k: nat, clearing: nat, others: nat)
    requires lcfg.Valid() && k > 0 && RowOk(lcfg, row) && 0 < others && clearing + others <= k
    requires end <= now + LockMs(lcfg)
    ensures Allowance(lcfg, CountFailure(lcfg, row, now), end, k, clearing, others - 1) + 1
            <= Allowance(lcfg, row, end, k, clearing, others)
  {
    MoreOpenings(clearing, k, PerOpening(lcfg, k));
  }

  lemma WithoutOne(pending: set<AttemptId>, clearing: set<AttemptId>, a: AttemptId)
    requires a in pending && a !in clearing && clearing <= pending
    ensures |pending - {a} - clearing| == |pending - clearing| - 1 && |clearing| + |pending - clearing| == |pending|
    ensures clearing - {a} == clearing
  {
    assert pending - {a} - clearing == pending - clearing - {a};
  }

  lemma CountedIsGone(lcfg: LockoutConfig, m: Machine, a: AttemptId, m': Machine, end: Time)
    requires Moves(lcfg, m, Count(a), m')
    ensures Clearing(m', end) == Clearing(m, end) && Pending(m', end) == Pending(m, end) - {a}
    ensures m'.row == CountFailure(lcfg, m.row, m.clock)
  {
    OneAttempt(m, m', a, Over, end);
  }

  /** Counting uses up the budget by one. */
  lemma CountingIsBudgeted(lcfg: LockoutConfig, m: Machine, a: AttemptId, m': Machine, end: Time, k: nat)
    requires lcfg.Valid() && k > 0 && RowOk(lcfg, m.row) && Moves(lcfg, m, Count(a), m') && AtMost(m, end, k)
    requires end <= m.clock + LockMs(lcfg)
    ensures Budget(lcfg, m', end, k) + 1 <= Budget(lcfg, m, end, k)
  {
    CountingTakesOne(lcfg, m, a, m', end);
    CountingAllowance(lcfg, m.row, m.clock, end, k, |Clearing(m, end)|, |Pending(m, end) - Clearing(m, end)|);
  }

  /** One attempt fewer may count, and as many may clear. */
  lemma CountingTakesOne(lcfg: LockoutConfig, m: Machine, a: AttemptId, m': Machine, end: Time)
    requires Moves(lcfg, m, Count(a), m')
    ensures m'.row == CountFailure(lcfg, m.row, m.clock) && m'.counted == m.counted + 1
    ensures |Clearing(m', end)| == |Clearing(m, end)| && |Pending(m, end) - Clearing(m, end)| > 0
    ensures |Pending(m', end) - Clearing(m', end)| == |Pending(m, end) - Clearing(m, end)| - 1
    ensures |Clearing(m, end)| + |Pending(m, end) - Clearing(m, end)| == |Pending(m, end)|
  {
    CountedIsGone(lcfg, m, a, m', end);
    CounterIsPending(m, a, end);
    WithoutOne(Pending(m, end), Clearing(m, end), a);
  }

  lemma CounterIsPending(m: Machine, a: AttemptId, end: Time)
    requires Enabled(m, Count(a))
    ensures a in Pending(m, end) && a !in Clearing(m, end) && Clearing(m, end) <= Pending(m, end)
  {
  }

  lemma EndingIsBudgeted(lcfg: LockoutConfig, m: Machine, l: Label, m': Machine, end: Time, k: nat)
    requires lcfg.Valid() && k > 0 && Moves(lcfg, m, l, m') && (l.Arrive? || l.Fail?)
    ensures Budget(lcfg, m', end, k) <= Budget(lcfg, m, end, k)
  {
    OneAttempt(m, m', l.a, m'.attempts[l.a], end);
    FewerAttempts(lcfg, m, m', end, k);
  }

  lemma PassiveIsBudgeted(lcfg: LockoutConfig, m: Machine, l: Label, m': Machine, end: Time, k: nat)
    requires lcfg.Valid() && k > 0 && Moves(lcfg, m, l, m') && (l.Administer? || l.Tick?)
    ensures Budget(lcfg, m', end, k) <= Budget(lcfg, m, end, k)
  {
    assert Clearing(m', end) == Clearing(m, end) && Pending(m', end) == Pending(m, end);
    FewerAttempts(lcfg, m, m', end, k);
  }

  lemma StepIsBudgeted(lcfg: LockoutConfig, m: Machine, l: Label, m': Machine, end: Time, k: nat)
    requires lcfg.Valid() && k > 0 && RowOk(lcfg, m.row) && Moves(lcfg, m, l, m') && IsGuess(l) && AtMost(m, end, k)
    requires m.clock < end <= m.clock + LockMs(lcfg)
    ensures Budget(lcfg, m', end, k) + m'.counted - m.counted <= Budget(lcfg, m, end, k)
  {
    match l
    case Find(a) => FindingIsBudgeted(lcfg, m, a, m', end, k);
    case Verify(a, valid) => VerifyingIsBudgeted(lcfg, m, a, valid, m', end, k);
    case Clear(a) => ClearingIsBudgeted(lcfg, m, a, m', end, k);
    case Count(a) => CountingIsBudgeted(lcfg, m, a, m', end, k);
    case Arrive(_) => EndingIsBudgeted(lcfg, m, l, m', end, k);
    case Fail(_) => EndingIsBudgeted(lcfg, m, l, m', end, k);
    case _ => PassiveIsBudgeted(lcfg, m, l, m', end, k);
  }

  // ----- whole runs -----

  /** `k` bounds the attempts that have read the account and are not over. */
  ghost predicate IsStretch(lcfg: LockoutConfig, run: seq<Machine>, k: nat) {
    && |run| > 0 && RowOk(lcfg, run[0].row)
    && (forall i :: 0 <= i < |run| - 1 ==> GuessNext(lcfg, run[i], run[i + 1]))
    && (forall i :: 0 <= i < |run| ==> FewInFlight(run[i], k))
  }

  function InFlight(m: Machine): set<AttemptId> {
    set a | a in m.attempts && !m.attempts[a].Arrived? && !m.attempts[a].Over?
  }

  predicate FewInFlight(m: Machine, k: nat) {
    |InFlight(m)| <= k
  }

  lemma PendingAreInFlight(m: Machine, end: Time, k: nat)
    requires FewInFlight(m, k)
    ensures AtMost(m, end, k) && |Clearing(m, end)| <= k
  {
    ClearersArePending(m, end);
    SubsetSize(Pending(m, end), InFlight(m));
  }

  lemma {:induction false} StretchKeeps(lcfg: LockoutConfig, run: seq<Machine>, i: nat, k: nat)
    requires lcfg.Valid() && IsStretch(lcfg, run, k) && i < |run|
    ensures RowOk(lcfg, run[i].row) && run[0].clock <= run[i].clock
  {
    if i > 0 {
      StretchKeeps(lcfg, run, i - 1, k);
      assert GuessNext(lcfg, run[i - 1], run[i - 1 + 1]);
      var l :| Moves(lcfg, run[i - 1], l, run[i - 1 + 1]);
      StepKeepsRow(lcfg, run[i - 1], l, run[i]);
    }
  }

  lemma {:induction false} ClocksAscend(lcfg: LockoutConfig, run: seq<Machine>, i: nat, j: nat, k: nat)
    requires lcfg.Valid() && IsStretch(lcfg, run, k) && i <= j < |run|
    ensures run[i].clock <= run[j].clock
    decreases j - i
  {
    if i < j {
      assert GuessNext(lcfg, run[i], run[i + 1]);
      var l :| Moves(lcfg, run[i], l, run[i + 1]);
      StretchKeeps(lcfg, run, i, k);
      StepKeepsRow(lcfg, run[i], l, run[i + 1]);
      ClocksAscend(lcfg, run, i + 1, j, k);
    }
  }

  lemma {:induction false} StretchIsBudgeted(lcfg: LockoutConfig, run: seq<Machine>, i: nat, k: nat, end: Time)
    requires lcfg.Valid() && k > 0 && IsStretch(lcfg, run, k) && i < |run|
    requires run[|run| - 1].clock < end <= run[0].clock + LockMs(lcfg)
    ensures Budget(lcfg, run[i], end, k) + run[i].counted - run[0].counted <= Budget(lcfg, run[0], end, k)
  {
    if i > 0 {
      var m, m' := run[i - 1], run[i];
      StretchIsBudgeted(lcfg, run, i - 1, k, end);
      assert GuessNext(lcfg, run[i - 1], run[i - 1 + 1]);
      var l :| Moves(lcfg, m, l, m') && IsGuess(l);
      StretchKeeps(lcfg, run, i - 1, k);
      ClocksAscend(lcfg, run, i - 1, |run| - 1, k);
      PendingAreInFlight(m, end, k);
      StepIsBudgeted(lcfg, m, l, m', end, k);
    }
  }

  lemma BudgetIsBounded(lcfg: LockoutConfig, m: Machine, end: Time, k: nat)
    requires lcfg.Valid() && k > 0 && FewInFlight(m, k)
    ensures Budget(lcfg, m, end, k) <= Openings(k + 1, PerOpening(lcfg, k))
    ensures InFlight(m) == {} && m.row.lockedUntil.None? ==> Budget(lcfg, m, end, k) <= PerOpening(lcfg, k)
  {
    PendingAreInFlight(m, end, k);
    ClearersArePending(m, end);
    MoreOpenings(|Clearing(m, end)|, k, PerOpening(lcfg, k));
    assert Clearing(m, end) <= InFlight(m);
    assert InFlight(m) == {} ==> Clearing(m, end) == {};
  }

  lemma {:induction false} OpeningsAreProducts(n: nat, each: nat)
    ensures Openings(n, each) == n * each
  {
    if n > 0 {
      OpeningsAreProducts(n - 1, each);
      assert n * each == (n - 1) * each + each;
    }
  }

  /**
   * Parallel guessing is bounded too. If at most `k` attempts are in flight together, then in a stretch
   * shorter than the lock duration, with no success and no new credential, at most (k + 1)(max + k - 1)
   * failures count; and at most max + k - 1 if the stretch starts unlocked with nobody in flight.
   */
  lemma ParallelGuessesAreBounded(lcfg: LockoutConfig, run: seq<Machine>, k: nat)
    requires lcfg.Valid() && k > 0 && IsStretch(lcfg, run, k)
    requires run[|run| - 1].clock < run[0].clock + LockMs(lcfg)
    ensures var counted := run[|run| - 1].counted - run[0].counted; var each := lcfg.maxFailedAttempts + k - 1;
      && counted <= (k + 1) * each
      && (InFlight(run[0]) == {} && run[0].row.lockedUntil.None? ==> counted <= each)
  {
    var end := run[0].clock + LockMs(lcfg);
    StretchIsBudgeted(lcfg, run, |run| - 1, k, end);
    BudgetIsBounded(lcfg, run[0], end, k);
    OpeningsAreProducts(k + 1, PerOpening(lcfg, k));
  }

  // ----- only a right password succeeds, and only a wrong one counts -----

  /** The row lets a password be tried at `now`. */
  predicate MayBeTried(row: User, now: Time) {
    && row.status == ACTIVE && row.deletedAt.None? && row.passwordHash.Some?
    && (row.lockedUntil.Some? ==> row.lockedUntil.value <= now)
  }

  /** What the verification of an attempt comes to, by the row it read and the password alone. */
  lemma VerifyDecides(lcfg: LockoutConfig, m: Machine, a: AttemptId, valid: bool, m': Machine)
    requires Moves(lcfg, m, Verify(a, valid), m')
    ensures var row := m.attempts[a].row; var stage := m'.attempts[a];
      && (stage == Right <==> MayBeTried(row, m.clock) && valid)
      && (stage == Wrong(row.lockedUntil.Some?) <==> MayBeTried(row, m.clock) && !valid)
      && (stage == Over <==> !MayBeTried(row, m.clock))
  {
  }

  /** The step from `m` to `m'` verifies the password of `a`, and the answer is `valid`. */
  predicate Verified(lcfg: LockoutConfig, m: Machine, a: AttemptId, valid: bool, m': Machine) {
    Moves(lcfg, m, Verify(a, valid), m') && MayBeTried(m.attempts[a].row, m.clock)
  }

  /** The attempt is about to succeed, or about to count as a failure. */
  predicate Awaits(stage: Stage, success: bool) {
    if success then stage.Right? else stage.Wrong? || stage.Counting?
  }

  lemma StepVerifies(lcfg: LockoutConfig, m: Machine, l: Label, m': Machine, a: AttemptId, success: bool)
    requires Moves(lcfg, m, l, m') && a in m'.attempts && Awaits(m'.attempts[a], success)
    ensures (a in m.attempts && Awaits(m.attempts[a], success)) || Verified(lcfg, m, a, success, m')
  {
  }

  lemma AwaitingIsInFlight(m: Machine, a: AttemptId, success: bool)
    requires a in m.attempts && Awaits(m.attempts[a], success)
    ensures a in InFlight(m)
  {
  }

  ghost predicate Next(lcfg: LockoutConfig, m: Machine, m': Machine) {
    exists l: Label :: Moves(lcfg, m, l, m')
  }

  /** Any run from a state in which no attempt is in flight. */
  ghost predicate IsRun(lcfg: LockoutConfig, run: seq<Machine>) {
    |run| > 0 && InFlight(run[0]) == {}
    && forall i :: 0 <= i < |run| - 1 ==> Next(lcfg, run[i], run[i + 1])
  }

  ghost predicate WasVerified(lcfg: LockoutConfig, run: seq<Machine>, j: nat, a: AttemptId, valid: bool)
    requires j < |run|
  {
    exists i :: 0 <= i < j && Verified(lcfg, run[i], a, valid, run[i + 1])
  }

  /**
   * Over every run of overlapping attempts: an attempt that can succeed was verified with the right password,
   * and one that can count as a failure with a wrong one, and the row it had read was open and not locked then.
   */
  lemma {:induction false} OutcomesAreVerified(
      lcfg: LockoutConfig, run: seq<Machine>, j: nat, a: AttemptId, success: bool)
    requires IsRun(lcfg, run) && j < |run| && a in run[j].attempts && Awaits(run[j].attempts[a], success)
    ensures WasVerified(lcfg, run, j, a, success)
  {
    AwaitingIsInFlight(run[j], a, success);
    if j > 0 {
      assert Next(lcfg, run[j - 1], run[j - 1 + 1]);
      var l :| Moves(lcfg, run[j - 1], l, run[j]);
      StepVerifies(lcfg, run[j - 1], l, run[j], a, success);
      if Verified(lcfg, run[j - 1], a, success, run[j]) {
        assert Verified(lcfg, run[j - 1], a, success, run[j - 1 + 1]);
      } else {
        OutcomesAreVerified(lcfg, run, j - 1, a, success);
        var i :| 0 <= i < j - 1 && Verified(lcfg, run[i], a, success, run[i + 1]);
        assert 0 <= i < j;
      }
    }
  }

  // ----- alone -----

  /** An attempt whose steps follow each other does to the row what the whole attempt does. */
  lemma LoneAttemptIsWhole(
      lcfg: LockoutConfig, db: Db, email: Address, valid: bool, m: Machine, a: AttemptId, lockedAt: Time)
    requires email in db.emails && db.emails[email].userId in db.users && m.row == db.users[db.emails[email].userId]
    requires a !in m.attempts && m.clock <= lockedAt
    ensures var (db', verdict) := Authenticate(lcfg, db, email, valid, m.clock, lockedAt);
      var read := Step(lcfg, Step(lcfg, Step(lcfg, m, Arrive(a)), Find(a)), Verify(a, valid));
      var later := read.(clock := lockedAt);
      var row' := db'.users[db.emails[email].userId];
      match read.attempts[a]
      case Right => verdict.LoggedIn? && Step(lcfg, read, Succeed(a)).row == row'
      case Wrong(expired) => verdict.BadPassword?
        && (if expired then Step(lcfg, Step(lcfg, later, Clear(a)), Count(a)) else Step(lcfg, later, Count(a))).row
          == row'
      case Over => (verdict.UserNotFound? || verdict.NoPassword? || verdict.AccountLocked?) && row' == m.row
      case _ => false
  {
  }
}
