/**
 * Cleanup can delete the presented row between a rotation's read and its consuming update. The rotation
 * then revokes the family with no `usedAt` to report. Exactly how long a rotation must be in flight for it.
 */
module Retention {
  import opened AuthModel
  import opened ReadCommitted
  import opened Evolution
  import opened Assertions
  import opened Safety
  import opened Guarantees
  import opened Overlaps
  import opened OverlappingRevocations

  /** A step whose cleanup, if it is one, keeps rows for `retention` milliseconds after they expire. */
  ghost predicate RetainingNext(cfg: SessionConfig, retention: nat, m: Machine, m': Machine)
    requires cfg.Valid()
  {
    exists l :: Moves(cfg, m, l, m') && (l.Cleanup? ==> l.cutoff + retention <= m.clock)
  }

  ghost predicate RetainingRun(cfg: SessionConfig, retention: nat, run: seq<Machine>)
    requires cfg.Valid()
  {
    |run| > 0 && Init(run[0]) && forall i :: 0 <= i < |run| - 1 ==> RetainingNext(cfg, retention, run[i], run[i + 1])
  }

  lemma RetainingRunIsRun(cfg: SessionConfig, retention: nat, run: seq<Machine>)
    requires cfg.Valid() && RetainingRun(cfg, retention, run)
    ensures Reachable(cfg, run)
  {
    forall i | 0 <= i < |run| - 1 ensures Next(cfg, run[i], run[i + 1]) {
      assert RetainingNext(cfg, retention, run[i], run[i + 1]);
    }
  }

  // ----- deleted rows are old -----

  ghost predicate GoneIsOld(retention: nat, m: Machine) {
    forall k :: k in m.gone ==> k in m.tokens && m.tokens[k].expiresAt + retention < m.clock
  }

  lemma StepKeepsGoneOld(cfg: SessionConfig, retention: nat, m: Machine, m': Machine)
    requires cfg.Valid() && Struct(m) && GoneIsOld(retention, m) && RetainingNext(cfg, retention, m, m')
    ensures GoneIsOld(retention, m')
  {
    var l :| Moves(cfg, m, l, m') && (l.Cleanup? ==> l.cutoff + retention <= m.clock);
    StepKeepsStruct(cfg, m, l);
    GoneGrowsByCleanup(cfg, m, l, m');
  }

  lemma StatementsDeleteNothing(m: Machine, t: TxId, tx: Tx, e: Effect)
    requires !e.Wait?
    ensures ApplyEffect(m, t, tx, e).gone == m.gone
  {
  }

  lemma GoneGrowsByCleanup(cfg: SessionConfig, m: Machine, l: Label, m': Machine)
    requires cfg.Valid() && Moves(cfg, m, l, m')
    ensures l.Cleanup? || m'.gone == m.gone
  {
    if l.Execute? {
      StatementsDeleteNothing(m, l.t, m.txs[l.t], Statement(cfg, m, l.t, m.txs[l.t], l.choice));
    }
  }

  lemma {:induction false} RunKeepsGoneOld(cfg: SessionConfig, retention: nat, run: seq<Machine>, i: nat, n: nat)
    requires cfg.Valid() && RetainingRun(cfg, retention, run) && i <= n < |run| && GoneIsOld(retention, run[i])
    ensures GoneIsOld(retention, run[n])
    decreases n - i
  {
    if i < n {
      RetainingRunIsRun(cfg, retention, run);
      RunStruct(cfg, run, i);
      assert RetainingNext(cfg, retention, run[i], run[i + 1]);
      StepKeepsGoneOld(cfg, retention, run[i], run[i + 1]);
      RunKeepsGoneOld(cfg, retention, run, i + 1, n);
    }
  }

  // ----- a verdict without usedAt takes longer than the retention -----

  /** Transaction `t` committed a reuse verdict with no `usedAt` to report. */
  predicate CommittedNullReuse(m: Machine, t: TxId) {
    t in m.done && m.done[t].pc.Ready? && m.done[t].pc.result.Reused? && m.done[t].pc.result.usedAt.None?
  }

  /** Transaction `t`, as long as it is in flight, has been so for at most `limit` milliseconds. */
  predicate IsBrief(m: Machine, t: TxId, limit: int) {
    t in m.txs ==> m.clock <= m.txs[t].now + limit
  }

  ghost predicate BriefFlight(run: seq<Machine>, t: TxId, limit: int) {
    forall i :: 0 <= i < |run| ==> IsBrief(run[i], t, limit)
  }

  /** The presented row expired after the rotation began, and was kept for the retention; then it was deleted. */
  lemma NullReuseOutlastsRetention(
      cfg: SessionConfig, retention: nat, run: seq<Machine>, n: nat, t: TxId) returns (i: nat)
    requires cfg.Valid() && RetainingRun(cfg, retention, run) && n < |run| && CommittedNullReuse(run[n], t)
    ensures i < n && t in run[i].txs && run[i].txs[t] == run[n].done[t] && !IsBrief(run[i], t, retention + 1)
  {
    RetainingRunIsRun(cfg, retention, run);
    i := CommitMoment(cfg, run, n, t);
    RunIsSafe(cfg, run, i);
    assert PcOk(cfg, run[i], t, run[i].txs[t]);
    RunKeepsGoneOld(cfg, retention, run, 0, i);
  }

  /**
   * For a rotation that does not outlast the retention by more than a millisecond TOKEN_REUSE is exact,
   * whether or not the presented row has been deleted since.
   */
  lemma ReuseIsExactWithinRetention(
      cfg: SessionConfig, retention: nat, run: seq<Machine>, n: nat, t: TxId, token: TokenId, result: Result)
    requires cfg.Valid() && RetainingRun(cfg, retention, run) && n < |run| && BriefFlight(run, t, retention + 1)
    requires CommittedRotation(run[n], t, token, result) && (result.Rotated? || result.Reused?)
    ensures token in run[n].tokens && run[n].tokens[token].usedAt.Some?
    ensures result.Reused? <==>
              !IsWithinGrace(run[n].tokens[token].usedAt.value, run[n].done[t].now, cfg.graceSeconds)
    ensures result.Reused? ==> result.usedAt == run[n].tokens[token].usedAt
  {
    RetainingRunIsRun(cfg, retention, run);
    RunIsSafe(cfg, run, n);
    assert DoneOk(cfg, run[n], t, run[n].done[t]);
    if CommittedNullReuse(run[n], t) {
      var i := NullReuseOutlastsRetention(cfg, retention, run, n, t);
    }
  }

  // ----- a rotation that outlasts it by two milliseconds can do it -----

  /** Some run keeps rows for `retention`, never has 2 in flight for more than `retention + 2`, and ends in `m`. */
  ghost predicate CanReach(cfg: SessionConfig, retention: nat, m: Machine)
    requires cfg.Valid()
  {
    exists run :: RetainingRun(cfg, retention, run) && BriefFlight(run, 2, retention + 2) && run[|run| - 1] == m
  }

  lemma Continues(cfg: SessionConfig, retention: nat, m: Machine, l: Label, m': Machine)
    requires cfg.Valid() && CanReach(cfg, retention, m) && Moves(cfg, m, l, m') && IsBrief(m', 2, retention + 2)
    requires l.Cleanup? ==> l.cutoff + retention <= m.clock
    ensures CanReach(cfg, retention, m')
  {
    var run :| RetainingRun(cfg, retention, run) && BriefFlight(run, 2, retention + 2) && run[|run| - 1] == m;
    var longer := run + [m'];
    assert RetainingNext(cfg, retention, m, m');
    forall i | 0 <= i < |longer| - 1 ensures RetainingNext(cfg, retention, longer[i], longer[i + 1]) {
      assert i < |run| - 1 ==> RetainingNext(cfg, retention, run[i], run[i + 1]);
    }
    forall i | 0 <= i < |longer| ensures IsBrief(longer[i], 2, retention + 2) {
      assert i < |run| ==> IsBrief(run[i], 2, retention + 2);
    }
    assert RetainingRun(cfg, retention, longer) && BriefFlight(longer, 2, retention + 2) && longer[|longer| - 1] == m';
  }

  /** A step that changes the transactions in flight is no cleanup. */
  predicate IsBusy(m: Machine, m': Machine) {
    m'.txs != m.txs && 2 !in m'.txs
  }

  lemma ContinuesBusy(cfg: SessionConfig, retention: nat, m: Machine, m': Machine)
    requires cfg.Valid() && CanReach(cfg, retention, m) && Next(cfg, m, m') && IsBusy(m, m')
    ensures CanReach(cfg, retention, m')
  {
    var l :| Moves(cfg, m, l, m');
    Continues(cfg, retention, m, l, m');
  }

  lemma {:induction false} ChainIsReached(cfg: SessionConfig, retention: nat, run: seq<Machine>, i: nat)
    requires cfg.Valid() && Chained(cfg, run) && i < |run| && CanReach(cfg, retention, run[i])
    requires forall j :: 0 <= j < |run| - 1 ==> IsBusy(run[j], run[j + 1])
    ensures CanReach(cfg, retention, run[|run| - 1])
    decreases |run| - i
  {
    if i < |run| - 1 {
      assert Next(cfg, run[i], run[i + 1]);
      ContinuesBusy(cfg, retention, run[i], run[i + 1]);
      ChainIsReached(cfg, retention, run, i + 1);
    }
  }

  lemma OpeningIsBusy(cfg: SessionConfig, j: nat)
    requires cfg.Valid() && j < 5
    ensures IsBusy(Opening(cfg)[j], Opening(cfg)[j + 1])
  {
    var m, m' := Opening(cfg)[j], Opening(cfg)[j + 1];
    assert 0 in m.txs || 0 in m'.txs;
    assert 0 in m.txs && 0 in m'.txs ==> m.txs[0].pc != m'.txs[0].pc;
  }

  lemma SignedInIsReached(cfg: SessionConfig, retention: nat)
    requires cfg.Valid()
    ensures CanReach(cfg, retention, SignedIn(cfg))
  {
    assert RetainingRun(cfg, retention, [NOTHING]) && BriefFlight([NOTHING], 2, retention + 2);
    assert [NOTHING][|[NOTHING]| - 1] == NOTHING;
    OpeningIsChained(cfg);
    forall j | 0 <= j < |Opening(cfg)| - 1 ensures IsBusy(Opening(cfg)[j], Opening(cfg)[j + 1]) {
      OpeningIsBusy(cfg, j);
    }
    ChainIsReached(cfg, retention, Opening(cfg), 0);
  }

  /** The moment before the token expires. */
  function Late(cfg: SessionConfig): Time {
    TheToken(cfg).expiresAt - 1
  }

  function LateTx(cfg: SessionConfig, pc: Pc, ids: set<SessionId>): Tx {
    Tx(Rotate(0), Late(cfg), pc, ids, ids)
  }

  /** The rotation at `pc`, before the row is deleted. */
  function Reading(cfg: SessionConfig, pc: Pc): Machine {
    SignedIn(cfg).(clock := Late(cfg), txs := map[2 := LateTx(cfg, pc, {})], begun := {0, 2})
  }

  /** The rotation at `pc`, once the retention has passed and the row is deleted. */
  function Bereft(cfg: SessionConfig, retention: nat, pc: Pc, ids: set<SessionId>): Machine {
    SignedIn(cfg).(clock := Late(cfg) + retention + 2, gone := {0}, txs := map[2 := LateTx(cfg, pc, ids)],
                   begun := {0, 2})
  }

  /** And once it has revoked the session. */
  function Revoked(cfg: SessionConfig, retention: nat, pc: Pc): Machine {
    Bereft(cfg, retention, pc, {0}).(
      dirtySessions := map[0 := Dirty(2, RevokedAt(TheSession(cfg), Late(cfg), TOKEN_REUSE))])
  }

  const ALARM := Finish(Reused(0, None))

  lemma RotationBegins(cfg: SessionConfig, retention: nat)
    requires cfg.Valid()
    ensures CanReach(cfg, retention, Reading(cfg, ReadToken))
  {
    SignedInIsReached(cfg, retention);
    var m := SignedIn(cfg).(clock := Late(cfg));
    Continues(cfg, retention, SignedIn(cfg), Tick(Late(cfg)), m);
    Continues(cfg, retention, m, Begin(2, Rotate(0)), Reading(cfg, ReadToken));
  }

  lemma RotationReads(cfg: SessionConfig, retention: nat)
    requires cfg.Valid() && CanReach(cfg, retention, Reading(cfg, ReadToken))
    ensures CanReach(cfg, retention, Reading(cfg, ReadSession(TheToken(cfg))))
  {
    Continues(cfg, retention, Reading(cfg, ReadToken), Execute(2, CHOICE), Reading(cfg, ReadSession(TheToken(cfg))));
  }

  lemma RotationDecides(cfg: SessionConfig, retention: nat)
    requires cfg.Valid() && CanReach(cfg, retention, Reading(cfg, ReadSession(TheToken(cfg))))
    ensures CanReach(cfg, retention, Reading(cfg, Consume(TheToken(cfg), TheSession(cfg))))
  {
    var tok, ses := TheToken(cfg), TheSession(cfg);
    assert Decide(cfg, tok, ses, true, Late(cfg)) == Consume(tok, ses);
    Continues(cfg, retention, Reading(cfg, ReadSession(tok)), Execute(2, CHOICE), Reading(cfg, Consume(tok, ses)));
  }

  lemma RowIsDeleted(cfg: SessionConfig, retention: nat)
    requires cfg.Valid() && CanReach(cfg, retention, Reading(cfg, Consume(TheToken(cfg), TheSession(cfg))))
    ensures CanReach(cfg, retention, Bereft(cfg, retention, Consume(TheToken(cfg), TheSession(cfg)), {}))
  {
    var pc := Consume(TheToken(cfg), TheSession(cfg));
    var m := Reading(cfg, pc).(clock := Late(cfg) + retention + 2);
    Continues(cfg, retention, Reading(cfg, pc), Tick(m.clock), m);
    assert {} + {0} == {0};
    Continues(cfg, retention, m, Cleanup({0}, Late(cfg) + 2), Bereft(cfg, retention, pc, {}));
  }

  /** The next statement of the rotation, whatever it does. */
  lemma ContinuesWith(cfg: SessionConfig, retention: nat, m: Machine, e: Effect, m': Machine)
    requires cfg.Valid() && CanReach(cfg, retention, m) && 2 in m.txs && IsBrief(m', 2, retention + 2)
    requires Statement(cfg, m, 2, m.txs[2], CHOICE) == e && !e.Wait? && m' == ApplyEffect(m, 2, m.txs[2], e)
    ensures CanReach(cfg, retention, m')
  {
    Continues(cfg, retention, m, Execute(2, CHOICE), m');
  }

  lemma LostRow(cfg: SessionConfig, m: Machine, tx: Tx, tok: RefreshToken, ses: Session)
    requires cfg.Valid() && 0 in m.gone && tx.job == Rotate(0)
    ensures tx.pc == Consume(tok, ses) ==> Statement(cfg, m, 2, tx, CHOICE) == Go(ReadWinner(tok, ses))
    ensures tx.pc == ReadWinner(tok, ses) ==> Statement(cfg, m, 2, tx, CHOICE) == Go(RevokeFamily(tok, ses, None))
  {
  }

  lemma LosesTheRow(cfg: SessionConfig, retention: nat)
    requires cfg.Valid()
    requires CanReach(cfg, retention, Bereft(cfg, retention, Consume(TheToken(cfg), TheSession(cfg)), {}))
    ensures CanReach(cfg, retention, Bereft(cfg, retention, ReadWinner(TheToken(cfg), TheSession(cfg)), {}))
  {
    var tok, ses := TheToken(cfg), TheSession(cfg);
    var m := Bereft(cfg, retention, Consume(tok, ses), {});
    LostRow(cfg, m, m.txs[2], tok, ses);
    ContinuesWith(cfg, retention, m, Go(ReadWinner(tok, ses)), Bereft(cfg, retention, ReadWinner(tok, ses), {}));
  }

  lemma RaisesTheAlarm(cfg: SessionConfig, retention: nat)
    requires cfg.Valid()
    requires CanReach(cfg, retention, Bereft(cfg, retention, ReadWinner(TheToken(cfg), TheSession(cfg)), {}))
    ensures CanReach(cfg, retention, Bereft(cfg, retention, FindSessions(ByFamily(0, 0), TOKEN_REUSE, ALARM), {}))
  {
    var tok, ses := TheToken(cfg), TheSession(cfg);
    var m := Bereft(cfg, retention, ReadWinner(tok, ses), {});
    LostRow(cfg, m, m.txs[2], tok, ses);
    ContinuesWith(cfg, retention, m, Go(RevokeFamily(tok, ses, None)),
                  Bereft(cfg, retention, FindSessions(ByFamily(0, 0), TOKEN_REUSE, ALARM), {}));
  }

  lemma FindsTheFamily(cfg: SessionConfig, m: Machine, tx: Tx)
    requires cfg.Valid() && m.sessions == map[0 := TheSession(cfg)] && m.dirtySessions == map[]
    requires tx.pc == FindSessions(ByFamily(0, 0), TOKEN_REUSE, ALARM)
    ensures Statement(cfg, m, 2, tx, CHOICE) == Select({0}, {0}, RevokeRows({0}, TOKEN_REUSE, ALARM))
  {
    assert SessionTable(m, 2) == map[0 := TheSession(cfg)];
    var e := Statement(cfg, m, 2, tx, CHOICE);
    assert forall s :: s in e.targets <==> s == 0;
    assert e.targets == {0};
    assert forall s :: s in e.ids <==> s == 0;
    assert e.ids == {0};
  }

  lemma FamilyIsFound(cfg: SessionConfig, retention: nat)
    requires cfg.Valid()
    requires CanReach(cfg, retention, Bereft(cfg, retention, FindSessions(ByFamily(0, 0), TOKEN_REUSE, ALARM), {}))
    ensures CanReach(cfg, retention, Bereft(cfg, retention, RevokeRows({0}, TOKEN_REUSE, ALARM), {0}))
  {
    var m := Bereft(cfg, retention, FindSessions(ByFamily(0, 0), TOKEN_REUSE, ALARM), {});
    FindsTheFamily(cfg, m, m.txs[2]);
    Continues(cfg, retention, m, Execute(2, CHOICE), Bereft(cfg, retention, RevokeRows({0}, TOKEN_REUSE, ALARM), {0}));
  }

  lemma TakesTheSession(cfg: SessionConfig, m: Machine, tx: Tx)
    requires cfg.Valid() && m.sessions == map[0 := TheSession(cfg)] && m.dirtySessions == map[]
    requires tx.pc == RevokeRows({0}, TOKEN_REUSE, ALARM)
    ensures Statement(cfg, m, 2, tx, CHOICE)
      == PutSession(0, RevokedAt(TheSession(cfg), tx.now, TOKEN_REUSE), RevokeRows({}, TOKEN_REUSE, ALARM))
  {
    assert {0} - {0} == {};
  }

  lemma FamilyIsRevoked(cfg: SessionConfig, retention: nat)
    requires cfg.Valid() && CanReach(cfg, retention, Bereft(cfg, retention, RevokeRows({0}, TOKEN_REUSE, ALARM), {0}))
    ensures CanReach(cfg, retention, Revoked(cfg, retention, RevokeRows({}, TOKEN_REUSE, ALARM)))
  {
    var m := Bereft(cfg, retention, RevokeRows({0}, TOKEN_REUSE, ALARM), {0});
    TakesTheSession(cfg, m, m.txs[2]);
    ContinuesWith(cfg, retention, m,
                  PutSession(0, RevokedAt(TheSession(cfg), Late(cfg), TOKEN_REUSE), RevokeRows({}, TOKEN_REUSE, ALARM)),
                  Revoked(cfg, retention, RevokeRows({}, TOKEN_REUSE, ALARM)));
  }

  lemma TokensAreNext(cfg: SessionConfig, retention: nat)
    requires cfg.Valid() && CanReach(cfg, retention, Revoked(cfg, retention, RevokeRows({}, TOKEN_REUSE, ALARM)))
    ensures CanReach(cfg, retention, Revoked(cfg, retention, SelectTokens({0}, ALARM)))
  {
    ContinuesWith(cfg, retention, Revoked(cfg, retention, RevokeRows({}, TOKEN_REUSE, ALARM)),
                  Go(SelectTokens({0}, ALARM)),
                  Revoked(cfg, retention, SelectTokens({0}, ALARM)));
  }

  lemma FindsNoToken(m: Machine)
    requires m.tokens.Keys == {0} && m.gone == {0} && m.dirtyTokens == map[]
    ensures LiveTokensOf(m, 2, {0}) == {}
  {
  }

  lemma NoTokenIsLeft(cfg: SessionConfig, retention: nat)
    requires cfg.Valid() && CanReach(cfg, retention, Revoked(cfg, retention, SelectTokens({0}, ALARM)))
    ensures CanReach(cfg, retention, Revoked(cfg, retention, RetireRows({}, ALARM)))
  {
    var m := Revoked(cfg, retention, SelectTokens({0}, ALARM));
    FindsNoToken(m);
    ContinuesWith(cfg, retention, m, Go(RetireRows({}, ALARM)), Revoked(cfg, retention, RetireRows({}, ALARM)));
  }

  lemma AlarmIsReady(cfg: SessionConfig, retention: nat)
    requires cfg.Valid() && CanReach(cfg, retention, Revoked(cfg, retention, RetireRows({}, ALARM)))
    ensures CanReach(cfg, retention, Revoked(cfg, retention, Ready(Reused(0, None))))
  {
    ContinuesWith(cfg, retention, Revoked(cfg, retention, RetireRows({}, ALARM)), Go(Ready(Reused(0, None))),
                  Revoked(cfg, retention, Ready(Reused(0, None))));
  }

  lemma AlarmCommits(cfg: SessionConfig, retention: nat)
    requires cfg.Valid() && CanReach(cfg, retention, Revoked(cfg, retention, Ready(Reused(0, None))))
    ensures exists m :: CanReach(cfg, retention, m) && CommittedNullReuse(m, 2) && IsRevoked(m, 0)
  {
    var m := Revoked(cfg, retention, Ready(Reused(0, None)));
    SessionCommitLeaves(m, 2, RevokedAt(TheSession(cfg), Late(cfg), TOKEN_REUSE));
    Continues(cfg, retention, m, Commit(2), CommitTx(m, 2));
  }

  /** A rotation that begins as its token is about to expire, and outlasts the retention, revokes the family. */
  lemma NullReuseHappens(cfg: SessionConfig, retention: nat)
    requires cfg.Valid()
    ensures exists m :: CanReach(cfg, retention, m) && CommittedNullReuse(m, 2) && IsRevoked(m, 0)
  {
    RotationBegins(cfg, retention);
    RotationReads(cfg, retention);
    RotationDecides(cfg, retention);
    RowIsDeleted(cfg, retention);
    LosesTheRow(cfg, retention);
    RaisesTheAlarm(cfg, retention);
    FamilyIsFound(cfg, retention);
    FamilyIsRevoked(cfg, retention);
    TokensAreNext(cfg, retention);
    NoTokenIsLeft(cfg, retention);
    AlarmIsReady(cfg, retention);
    AlarmCommits(cfg, retention);
  }

  /** No rotation that is in flight for at most `limit` commits a reuse verdict without a `usedAt`. */
  ghost predicate NullReuseNeedsMoreThan(cfg: SessionConfig, retention: nat, limit: int)
    requires cfg.Valid()
  {
    forall run, n, t :: RetainingRun(cfg, retention, run) && 0 <= n < |run| && BriefFlight(run, t, limit) ==>
      !CommittedNullReuse(run[n], t)
  }

  lemma BrieferIsBrief(run: seq<Machine>, t: TxId, limit: int, more: int)
    requires BriefFlight(run, t, limit) && limit <= more
    ensures BriefFlight(run, t, more)
  {
    forall i | 0 <= i < |run| ensures IsBrief(run[i], t, more) {
      assert IsBrief(run[i], t, limit);
    }
  }

  lemma LongFlightsCan(cfg: SessionConfig, retention: nat, limit: int)
    requires cfg.Valid() && retention + 2 <= limit
    ensures !NullReuseNeedsMoreThan(cfg, retention, limit)
  {
    NullReuseHappens(cfg, retention);
    var m :| CanReach(cfg, retention, m) && CommittedNullReuse(m, 2);
    var run :| RetainingRun(cfg, retention, run) && BriefFlight(run, 2, retention + 2) && run[|run| - 1] == m;
    BrieferIsBrief(run, 2, retention + 2, limit);
    assert CommittedNullReuse(run[|run| - 1], 2);
  }

  /**
   * How long that takes, exactly: with rotations in flight for at most `limit` the family is never revoked
   * without a `usedAt`, in any run with this retention, if and only if `limit` is at most the retention
   * plus one millisecond.
   */
  lemma NullReuseExactlyBeyondRetention(cfg: SessionConfig, retention: nat, limit: int)
    requires cfg.Valid()
    ensures NullReuseNeedsMoreThan(cfg, retention, limit) <==> limit <= retention + 1
  {
    if limit <= retention + 1 {
      forall run, n: nat, t | RetainingRun(cfg, retention, run) && n < |run| && BriefFlight(run, t, limit)
        ensures !CommittedNullReuse(run[n], t)
      {
        BrieferIsBrief(run, t, limit, retention + 1);
        if CommittedNullReuse(run[n], t) {
          var i := NullReuseOutlastsRetention(cfg, retention, run, n, t);
        }
      }
    } else {
      LongFlightsCan(cfg, retention, limit);
    }
  }
}
