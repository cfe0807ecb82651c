/**
 * Single-use sign-in nonces. The steps of any number of Google sign-ins, of nonce issues and of
 * cleanup passes interleave; each step is one statement, and consuming is one conditional UPDATE.
 */
module GoogleNonce {
  import opened AuthModel

  type NonceId = nat  // the hash of a raw nonce
  type SignInId = nat

  datatype NonceRow = NonceRow(expiresAt: Time, usedAt: Option<Time>)

  datatype NonceConfig = NonceConfig(ttlSeconds: nat, required: bool)

  predicate IsConsumable(rows: map<NonceId, NonceRow>, n: NonceId, now: Time) {
    n in rows && rows[n].usedAt.None? && rows[n].expiresAt > now
  }

  /** The conditional update: it takes the nonce, or it matches no row. */
  function Consumed(rows: map<NonceId, NonceRow>, n: NonceId, now: Time): map<NonceId, NonceRow> {
    if IsConsumable(rows, n, now) then rows[n := rows[n].(usedAt := Some(now))] else rows
  }

  class GoogleNonceService {
    const ttlSeconds: nat
    var rows: map<NonceId, NonceRow>

    constructor (ttlSeconds: nat)
      ensures this.ttlSeconds == ttlSeconds && rows == map[]
    {
      this.ttlSeconds, rows := ttlSeconds, map[];
    }

    method Issue(n: NonceId, now: Time) returns (expiresAt: Time)
      requires n !in rows
      modifies this
      ensures rows == old(rows)[n := NonceRow(expiresAt, None)] && expiresAt == now + ttlSeconds * MS_PER_SECOND
      ensures forall at :: IsConsumable(rows, n, at) <==> at < now + ttlSeconds * MS_PER_SECOND
      ensures forall o, at :: o != n ==> (IsConsumable(rows, o, at) <==> IsConsumable(old(rows), o, at))
      ensures forall at, later :: at < expiresAt ==> !IsConsumable(Consumed(rows, n, at), n, later)
    {
      expiresAt := now + ttlSeconds * MS_PER_SECOND;
      rows := rows[n := NonceRow(expiresAt, None)];
    }

    /** Fails unless the update changed exactly one row. */
    method Consume(n: NonceId, now: Time) returns (ok: bool)
      modifies this
      ensures ok <==> IsConsumable(old(rows), n, now)
      ensures rows == Consumed(old(rows), n, now)
      ensures ok <==> n in old(rows) && old(rows)[n].usedAt.None? && now < old(rows)[n].expiresAt
      ensures rows == if ok then old(rows)[n := NonceRow(old(rows)[n].expiresAt, Some(now))] else old(rows)
    {
      var matching := set k | k in rows && k == n && rows[k].usedAt.None? && rows[k].expiresAt > now;
      ok := n in matching;
      rows := map k | k in rows :: if k in matching then rows[k].(usedAt := Some(now)) else rows[k];
      assert rows == Consumed(old(rows), n, now);
    }
  }

  // ----- interleaved sign-ins -----

  /** Where a sign-in stands: verify the token, then enforce the nonce, then resolve the identity. */
  datatype Stage =
    | Verifying
    | Claimed(claim: Option<NonceId>)
    | Consuming(nonce: NonceId, now: Time)
    | Enforced(used: Option<NonceId>, at: Time)
    | SignedIn(used: Option<NonceId>, at: Time)
    | TurnedAway

  datatype State = State(
    clock: Time,
    rows: map<NonceId, NonceRow>,
    signIns: map<SignInId, Stage>,
    issued: map<NonceId, Time>)  // history: the expiry of every nonce ever issued

  datatype Label =
    | Issue(n: NonceId)
    | Start(t: SignInId)
    | Verify(t: SignInId, claims: Option<Option<NonceId>>)
    | EnforceNonce(t: SignInId)
    | RunUpdate(t: SignInId)
    | Resolve(t: SignInId, ok: bool)
    | CleanNonces(deleted: set<NonceId>)
    | Tick(to: Time)

  /** The stage after enforceNonce looked at the token's nonce and read the clock. */
  function Enforcing(ncfg: NonceConfig, nonce: Option<NonceId>, now: Time): Stage {
    match nonce
    case Some(n) => Consuming(n, now)
    case None => if ncfg.required then TurnedAway else Enforced(None, now)
  }

  ghost predicate Moves(ncfg: NonceConfig, s: State, l: Label, s': State) {
    match l
    case Issue(n) =>
      var expiresAt := s.clock + ncfg.ttlSeconds * MS_PER_SECOND;
      n !in s.issued && s' == s.(rows := s.rows[n := NonceRow(expiresAt, None)], issued := s.issued[n := expiresAt])
    case Start(t) => t !in s.signIns && s' == s.(signIns := s.signIns[t := Verifying])
    case Verify(t, claims) =>
      && t in s.signIns && s.signIns[t].Verifying?
      && s' == s.(signIns := s.signIns[t := if claims.Some? then Claimed(claims.value) else TurnedAway])
    case EnforceNonce(t) =>
      && t in s.signIns && s.signIns[t].Claimed?
      && s' == s.(signIns := s.signIns[t := Enforcing(ncfg, s.signIns[t].claim, s.clock)])
    case RunUpdate(t) =>
      && t in s.signIns && s.signIns[t].Consuming?
      && var n := s.signIns[t].nonce; var now := s.signIns[t].now;
      s' == s.(rows := Consumed(s.rows, n, now),
               signIns := s.signIns[t := if IsConsumable(s.rows, n, now) then Enforced(Some(n), now) else TurnedAway])
    case Resolve(t, ok) =>
      && t in s.signIns && s.signIns[t].Enforced?
      && s' == s.(signIns := s.signIns[t := if ok then SignedIn(s.signIns[t].used, s.signIns[t].at) else TurnedAway])
    case CleanNonces(deleted) =>
      && (forall n :: n in deleted ==> n in s.rows && s.rows[n].expiresAt < s.clock)
      && s' == s.(rows := s.rows - deleted)
    case Tick(to) => s.clock <= to && s' == s.(clock := to)
  }

  ghost predicate Next(ncfg: NonceConfig, s: State, s': State) {
    exists l :: Moves(ncfg, s, l, s')
  }

  ghost predicate IsRun(ncfg: NonceConfig, run: seq<State>) {
    && |run| > 0 && run[0].rows == map[] && run[0].signIns == map[] && run[0].issued == map[]
    && forall i :: 0 <= i < |run| - 1 ==> Next(ncfg, run[i], run[i + 1])
  }

  /** Sign-in `t` passed enforceNonce with nonce `n`. */
  predicate Passed(s: State, t: SignInId, n: NonceId) {
    t in s.signIns && (s.signIns[t].Enforced? || s.signIns[t].SignedIn?) && s.signIns[t].used == Some(n)
  }

  /** `n` was issued, taken before its expiry, and its row, if still there, says so. */
  predicate Spent(s: State, n: NonceId, at: Time) {
    n in s.issued && at < s.issued[n] && (n in s.rows ==> s.rows[n].usedAt.Some?)
  }

  ghost predicate Inv(s: State) {
    && (forall n :: n in s.rows ==> n in s.issued && s.rows[n].expiresAt == s.issued[n])
    && (forall t, n :: Passed(s, t, n) ==> Spent(s, n, s.signIns[t].at))
    && (forall t, u, n :: Passed(s, t, n) && Passed(s, u, n) ==> t == u)
  }

  lemma UpdateKeepsInv(ncfg: NonceConfig, s: State, t: SignInId, s': State)
    requires Inv(s) && Moves(ncfg, s, RunUpdate(t), s')
    ensures Inv(s')
  {
    forall u, k | Passed(s', u, k) ensures Spent(s', k, s'.signIns[u].at) {
      if u != t {
        assert Passed(s, u, k);
      }
    }
    forall u, v, k | Passed(s', u, k) && Passed(s', v, k) ensures u == v {
      assert u != t ==> Passed(s, u, k);
      assert v != t ==> Passed(s, v, k);
    }
  }

  lemma OtherStepsKeepInv(ncfg: NonceConfig, s: State, l: Label, s': State)
    requires Inv(s) && Moves(ncfg, s, l, s') && !l.RunUpdate?
    ensures Inv(s')
  {
    forall t, n | Passed(s', t, n) ensures Passed(s, t, n) && s.signIns[t].at == s'.signIns[t].at {
    }
  }

  lemma {:induction false} RunKeepsInv(ncfg: NonceConfig, run: seq<State>, i: nat)
    requires IsRun(ncfg, run) && i < |run|
    ensures Inv(run[i])
  {
    if i > 0 {
      RunKeepsInv(ncfg, run, i - 1);
      assert Next(ncfg, run[i - 1], run[i - 1 + 1]);
      var l :| Moves(ncfg, run[i - 1], l, run[i]);
      if l.RunUpdate? {
        UpdateKeepsInv(ncfg, run[i - 1], l.t, run[i]);
      } else {
        OtherStepsKeepInv(ncfg, run[i - 1], l, run[i]);
      }
    }
  }

  /**
   * Over every interleaving, an issued nonce lets at most one sign-in past enforceNonce, and only with
   * a clock reading before its expiry; a nonce that was never issued lets nobody past.
   */
  lemma NoncesAreSingleUse(ncfg: NonceConfig, run: seq<State>, i: nat, t: SignInId, n: NonceId)
    requires IsRun(ncfg, run) && i < |run| && Passed(run[i], t, n)
    ensures n in run[i].issued && run[i].signIns[t].at < run[i].issued[n]
    ensures forall u :: Passed(run[i], u, n) ==> u == t
  {
    RunKeepsInv(ncfg, run, i);
    assert Spent(run[i], n, run[i].signIns[t].at);
  }

  /** Nobody will pass with `n` any more: it was issued, and its row is spent, expired or deleted. */
  predicate IsOver(s: State, n: NonceId) {
    n in s.issued && (n in s.rows ==> s.rows[n].usedAt.Some?)
  }

  /**
   * The conditional update lets a sign-in pass exactly when its nonce was issued, is neither spent nor deleted,
   * and has not expired at the clock the sign-in read; it is turned away otherwise.
   */
  lemma UpdatePassesExactly(ncfg: NonceConfig, run: seq<State>, i: nat, t: SignInId, s': State)
    requires IsRun(ncfg, run) && i < |run| && Moves(ncfg, run[i], RunUpdate(t), s')
    ensures t in s'.signIns
    ensures var n := run[i].signIns[t].nonce; var now := run[i].signIns[t].now;
      && (Passed(s', t, n) <==> n in run[i].issued && !IsOver(run[i], n) && now < run[i].issued[n])
      && (s'.signIns[t].TurnedAway? <==> !Passed(s', t, n))
  {
    RunKeepsInv(ncfg, run, i);
  }

  /** A token without a nonce is turned away exactly when one is required; one with a nonce always has it checked. */
  lemma EnforcementDecides(ncfg: NonceConfig, s: State, t: SignInId, s': State)
    requires Moves(ncfg, s, EnforceNonce(t), s')
    ensures t in s'.signIns
    ensures s'.signIns[t].TurnedAway? <==> s.signIns[t].claim.None? && ncfg.required
    ensures s'.signIns[t].Enforced? <==> s.signIns[t].claim.None? && !ncfg.required
    ensures forall n :: s.signIns[t].claim == Some(n) ==> s'.signIns[t] == Consuming(n, s.clock)
  {
  }

  lemma StepKeepsOver(ncfg: NonceConfig, s: State, l: Label, s': State, n: NonceId, t: SignInId)
    requires Moves(ncfg, s, l, s') && IsOver(s, n)
    ensures IsOver(s', n) && (Passed(s', t, n) ==> Passed(s, t, n))
  {
  }

  /** Once a nonce is spent, or its row deleted, no sign-in that has not passed with it ever will. */
  lemma {:induction false} DeletionNeverReopens(
      ncfg: NonceConfig, run: seq<State>, i: nat, j: nat, n: NonceId, t: SignInId)
    requires IsRun(ncfg, run) && i <= j < |run| && IsOver(run[i], n)
    ensures IsOver(run[j], n) && (Passed(run[j], t, n) ==> Passed(run[i], t, n))
    decreases j - i
  {
    if i < j {
      DeletionNeverReopens(ncfg, run, i, j - 1, n, t);
      assert Next(ncfg, run[j - 1], run[j - 1 + 1]);
      var l :| Moves(ncfg, run[j - 1], l, run[j]);
      StepKeepsOver(ncfg, run[j - 1], l, run[j], n, t);
    }
  }

  /** With the nonce required, every sign-in that passes has spent one. */
  lemma {:induction false} RequiredMeansSpent(ncfg: NonceConfig, run: seq<State>, i: nat, t: SignInId)
    requires IsRun(ncfg, run) && ncfg.required && i < |run| && t in run[i].signIns
    requires run[i].signIns[t].Enforced? || run[i].signIns[t].SignedIn?
    ensures run[i].signIns[t].used.Some?
  {
    if i > 0 {
      assert Next(ncfg, run[i - 1], run[i - 1 + 1]);
      var l :| Moves(ncfg, run[i - 1], l, run[i]);
      if t in run[i - 1].signIns && (run[i - 1].signIns[t].Enforced? || run[i - 1].signIns[t].SignedIn?) {
        RequiredMeansSpent(ncfg, run, i - 1, t);
      }
    }
  }
}
