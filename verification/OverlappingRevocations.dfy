/**
 * What overlapping revocations do to each other: a run in which two revocations return the same session
 * and the second overwrites the time and the reason of the first.
 */
module OverlappingRevocations {
  import opened AuthModel
  import opened ReadCommitted
  import opened Evolution

  function TheSession(cfg: SessionConfig): Session {
    NewSession(0, 0, 0, cfg)
  }

  function TheToken(cfg: SessionConfig): RefreshToken {
    NewRefreshToken(0, TheSession(cfg).expiresAt, 0, cfg)
  }

  const NOTHING := Machine(0, map[], map[], {}, map[], map[], map[], map[], {}, {}, map[], map[], map[], 0, {})

  function LoginAt(pc: Pc): Tx {
    Tx(Login(0), 0, pc, {}, {})
  }

  const CHOICE := Choice(true, 0, 0, 0, [])

  /** The states of one login, which creates session 0 with token 0. */
  function Opening(cfg: SessionConfig): seq<Machine> {
    var seen := NOTHING.(txs := map[0 := LoginAt(InsertSession)], snaps := map[0 := Snapshot(0, 0, {}, {}, {0})],
                         taken := 1, begun := {0});
    var s := TheSession(cfg);
    var inserted := seen.(txs := map[0 := LoginAt(InsertToken(0, s.expiresAt, true))],
                          dirtySessions := map[0 := Dirty(0, s)], creators := map[0 := 0]);
    var minted := inserted.(txs := map[0 := LoginAt(Ready(LoggedIn(0, 0)))],
                            dirtyTokens := map[0 := Dirty(0, TheToken(cfg))], born := map[0 := Birth(0, [0], 0)]);
    [NOTHING, NOTHING.(txs := map[0 := LoginAt(ReadActive)], begun := {0}), seen, inserted, minted, SignedIn(cfg)]
  }

  function SignedIn(cfg: SessionConfig): Machine {
    Machine(0, map[0 := TheSession(cfg)], map[0 := TheToken(cfg)], {}, map[], map[], map[],
            map[0 := LoginAt(Ready(LoggedIn(0, 0)))], {}, {},
            map[0 := Birth(0, [0], 0)], map[0 := 0], map[0 := Snapshot(0, 0, {}, {}, {0})], 1, {0})
  }

  lemma OpeningReads(cfg: SessionConfig)
    requires cfg.Valid()
    ensures var m := Opening(cfg)[1];
      && 0 in m.txs
      && Statement(cfg, m, 0, m.txs[0], CHOICE) == TakeSnapshot(Snapshot(0, 0, {}, {}, {0}), InsertSession)
  {
    var m := Opening(cfg)[1];
    assert SessionTable(m, 0) == map[];
    assert ActiveSessions(SessionTable(m, 0), 0, 0) == {};
    assert Evicted([], cfg) == {};
    assert InFlightLogins(m, 0) + {0} == {0};
  }

  lemma OpeningMoves(cfg: SessionConfig)
    requires cfg.Valid()
    ensures Next(cfg, Opening(cfg)[0], Opening(cfg)[1]) && Next(cfg, Opening(cfg)[1], Opening(cfg)[2])
  {
    var run := Opening(cfg);
    assert Moves(cfg, run[0], Begin(0, Login(0)), run[1]);
    OpeningReads(cfg);
    assert Moves(cfg, run[1], Execute(0, CHOICE), run[2]);
  }

  lemma OpeningInserts(cfg: SessionConfig)
    requires cfg.Valid()
    ensures Next(cfg, Opening(cfg)[2], Opening(cfg)[3]) && Next(cfg, Opening(cfg)[3], Opening(cfg)[4])
  {
    var run := Opening(cfg);
    assert Moves(cfg, run[2], Execute(0, CHOICE), run[3]);
    assert [] + [0] == [0];
    assert Moves(cfg, run[3], Execute(0, CHOICE), run[4]);
  }

  lemma OpeningCommits(cfg: SessionConfig)
    requires cfg.Valid()
    ensures Next(cfg, Opening(cfg)[4], Opening(cfg)[5])
  {
    var m := Opening(cfg)[4];
    assert SessionTable(m, 0) == map[0 := TheSession(cfg)];
    assert CommitTx(m, 0).tokens == map[0 := TheToken(cfg)];
    assert CommitTx(m, 0) == SignedIn(cfg);
    assert Moves(cfg, m, Commit(0), SignedIn(cfg));
  }

  // ----- two revocations of session 0, by transactions 1 and 2 -----

  /** One statement, whose effect is known. */
  lemma Executes(cfg: SessionConfig, m: Machine, t: TxId, ch: Choice, e: Effect, m': Machine)
    requires cfg.Valid() && t in m.txs && Statement(cfg, m, t, m.txs[t], ch) == e && !e.Wait?
    requires m' == ApplyEffect(m, t, m.txs[t], e)
    ensures Next(cfg, m, m')
  {
    assert Moves(cfg, m, Execute(t, ch), m');
  }

  function Revocation(t: TxId, pc: Pc, found: bool): Tx {
    var ids := if found then {0} else {};
    if t == 1 then Tx(Revoke(ById(0), LOGOUT), 0, pc, ids, ids) else Tx(Revoke(ByUser(0), LOGOUT_ALL), 1, pc, ids, ids)
  }

  function Start(t: TxId): Tx {
    if t == 1 then Revocation(1, FindSessions(ById(0), LOGOUT, Finish(SessionsRevoked)), false)
    else Revocation(2, FindSessions(ByUser(0), LOGOUT_ALL, Finish(SessionsRevoked)), false)
  }

  function Reason(t: TxId): RevocationReason {
    if t == 1 then LOGOUT else LOGOUT_ALL
  }

  function Revoking(t: TxId, rows: set<SessionId>): Tx {
    Revocation(t, RevokeRows(rows, Reason(t), Finish(SessionsRevoked)), true)
  }

  function Selecting(t: TxId): Tx {
    Revocation(t, SelectTokens({0}, Finish(SessionsRevoked)), true)
  }

  function Retiring(t: TxId, todo: set<TokenId>): Tx {
    Revocation(t, RetireRows(todo, Finish(SessionsRevoked)), true)
  }

  function Over(t: TxId): Tx {
    Revocation(t, Ready(SessionsRevoked), true)
  }

  function RevokedAt(s: Session, at: Time, reason: RevocationReason): Session {
    s.(revokedAt := Some(at), reason := Some(reason))
  }

  /** Both begin, a moment apart, and both find the session active. */
  function Overlap(cfg: SessionConfig): seq<Machine> {
    var m := SignedIn(cfg);
    var one := m.(txs := map[1 := Start(1)], begun := {0, 1});
    var both := one.(txs := map[1 := Start(1), 2 := Start(2)], clock := 1, begun := {0, 1, 2});
    [m, one, one.(clock := 1), both, both.(txs := map[1 := Revoking(1, {0}), 2 := Start(2)]),
     both.(txs := map[1 := Revoking(1, {0}), 2 := Revoking(2, {0})])]
  }

  lemma OverlapBegins(cfg: SessionConfig)
    requires cfg.Valid()
    ensures Next(cfg, Overlap(cfg)[0], Overlap(cfg)[1]) && Next(cfg, Overlap(cfg)[1], Overlap(cfg)[2])
    ensures Next(cfg, Overlap(cfg)[2], Overlap(cfg)[3])
  {
    var run := Overlap(cfg);
    assert Moves(cfg, run[0], Begin(1, Revoke(ById(0), LOGOUT)), run[1]);
    assert Moves(cfg, run[1], Tick(1), run[2]);
    assert Moves(cfg, run[2], Begin(2, Revoke(ByUser(0), LOGOUT_ALL)), run[3]);
  }

  lemma BothFind(cfg: SessionConfig)
    requires cfg.Valid()
    ensures Next(cfg, Overlap(cfg)[3], Overlap(cfg)[4]) && Next(cfg, Overlap(cfg)[4], Overlap(cfg)[5])
  {
    var run := Overlap(cfg);
    Finds(cfg, run[3], 1);
    Executes(cfg, run[3], 1, CHOICE, Found(1), run[4]);
    Finds(cfg, run[4], 2);
    Executes(cfg, run[4], 2, CHOICE, Found(2), run[5]);
  }

  lemma OverlapMoves(cfg: SessionConfig)
    requires cfg.Valid()
    ensures Chained(cfg, Overlap(cfg))
  {
    OverlapBegins(cfg);
    BothFind(cfg);
    Five(cfg, Overlap(cfg));
  }

  /** The selection of session 0. */
  function Found(t: TxId): Effect {
    Select({0}, {0}, RevokeRows({0}, Reason(t), Finish(SessionsRevoked)))
  }

  lemma Finds(cfg: SessionConfig, m: Machine, t: TxId)
    requires cfg.Valid() && m.sessions == map[0 := TheSession(cfg)] && m.dirtySessions == map[] && (t == 1 || t == 2)
    ensures Statement(cfg, m, t, Start(t), CHOICE) == Found(t)
  {
    assert SessionTable(m, t) == map[0 := TheSession(cfg)];
    var e := Statement(cfg, m, t, Start(t), CHOICE);
    assert e.Select?;
    assert forall s :: s in e.targets <==> s == 0;
    assert e.targets == {0};
    assert forall s :: s in e.ids <==> s == 0;
    assert e.ids == {0};
  }

  // ----- the first revocation commits, then the second -----

  function RetiredToken(cfg: SessionConfig): RefreshToken {
    TheToken(cfg).(revokedAt := Some(0))
  }

  /** The session row as transaction `t` leaves it. */
  function Marked(cfg: SessionConfig, t: TxId): Session {
    if t == 1 then RevokedAt(TheSession(cfg), 0, LOGOUT)
      else RevokedAt(RevokedAt(TheSession(cfg), 0, LOGOUT), 1, LOGOUT_ALL)
  }

  /** Both have begun: 1 is about to take the row, and 2 stands where `second` says. */
  function Middle(cfg: SessionConfig, second: Tx, clock: Time): Machine {
    SignedIn(cfg).(clock := clock, txs := map[1 := Revoking(1, {0}), 2 := second], begun := {0, 1, 2})
  }

  /** Transaction 1 at `tx`, once it has written the session. */
  function Held(cfg: SessionConfig, second: Tx, clock: Time, tx: Tx): Machine {
    Middle(cfg, second, clock).(txs := map[1 := tx, 2 := second], dirtySessions := map[0 := Dirty(1, Marked(cfg, 1))])
  }

  /** And once it has written the token too. */
  function Retired(cfg: SessionConfig, second: Tx, clock: Time, tx: Tx): Machine {
    Held(cfg, second, clock, tx).(dirtyTokens := map[0 := Dirty(1, RetiredToken(cfg))])
  }

  /** Transaction 1 finishes while 2 stands still. */
  function First(cfg: SessionConfig, second: Tx, clock: Time): seq<Machine> {
    [Middle(cfg, second, clock), Held(cfg, second, clock, Revoking(1, {})), Held(cfg, second, clock, Selecting(1)),
     Held(cfg, second, clock, Retiring(1, {0})), Retired(cfg, second, clock, Retiring(1, {})),
     Retired(cfg, second, clock, Over(1)), Between(cfg, second, clock)]
  }

  function Between(cfg: SessionConfig, second: Tx, clock: Time): Machine {
    var m := SignedIn(cfg);
    m.(clock := clock, sessions := map[0 := Marked(cfg, 1)], tokens := map[0 := RetiredToken(cfg)],
       txs := map[2 := second], done := m.done[1 := Over(1)], begun := {0, 1, 2})
  }

  /** The update of the session row. */
  function Taken(t: TxId, row: Session): Effect {
    PutSession(0, RevokedAt(row, Revoking(t, {0}).now, Reason(t)), RevokeRows({}, Reason(t), Finish(SessionsRevoked)))
  }

  /** Visiting the row, when no other transaction holds it. */
  lemma TakesTheRow(cfg: SessionConfig, m: Machine, t: TxId, row: Session)
    requires cfg.Valid() && m.sessions == map[0 := row] && m.dirtySessions == map[] && (t == 1 || t == 2)
    ensures Statement(cfg, m, t, Revoking(t, {0}), CHOICE) == Taken(t, row)
  {
    assert {0} - {0} == {};
  }

  /** A statement of transaction 1 that writes nothing. */
  lemma FirstGoes(cfg: SessionConfig, m: Machine, second: Tx, tx: Tx, pc: Pc)
    requires cfg.Valid() && m.txs == map[1 := tx, 2 := second] && Statement(cfg, m, 1, tx, CHOICE) == Go(pc)
    ensures Next(cfg, m, m.(txs := map[1 := tx.(pc := pc), 2 := second]))
  {
    assert m.txs[1 := tx.(pc := pc)] == map[1 := tx.(pc := pc), 2 := second];
    Executes(cfg, m, 1, CHOICE, Go(pc), m.(txs := map[1 := tx.(pc := pc), 2 := second]));
  }

  lemma FirstMoves(cfg: SessionConfig, second: Tx, clock: Time)
    requires cfg.Valid()
    ensures Next(cfg, Middle(cfg, second, clock), Held(cfg, second, clock, Revoking(1, {})))
  {
    var m := Middle(cfg, second, clock);
    TakesTheRow(cfg, m, 1, TheSession(cfg));
    Executes(cfg, m, 1, CHOICE, Taken(1, TheSession(cfg)), Held(cfg, second, clock, Revoking(1, {})));
  }

  /** With no row left to visit, the tokens are next; with no token left, the end. */
  lemma NothingLeft(cfg: SessionConfig, m: Machine, t: TxId)
    requires cfg.Valid() && (t == 1 || t == 2)
    ensures Statement(cfg, m, t, Revoking(t, {}), CHOICE) == Go(SelectTokens({0}, Finish(SessionsRevoked)))
    ensures Statement(cfg, m, t, Retiring(t, {}), CHOICE) == Go(Ready(SessionsRevoked))
  {
  }

  lemma FirstTurnsToTokens(cfg: SessionConfig, second: Tx, clock: Time)
    requires cfg.Valid()
    ensures Next(cfg, Held(cfg, second, clock, Revoking(1, {})), Held(cfg, second, clock, Selecting(1)))
  {
    var m := Held(cfg, second, clock, Revoking(1, {}));
    NothingLeft(cfg, m, 1);
    FirstGoes(cfg, m, second, Revoking(1, {}), SelectTokens({0}, Finish(SessionsRevoked)));
  }

  lemma FirstSelectsTokens(cfg: SessionConfig, second: Tx, clock: Time)
    requires cfg.Valid()
    ensures Next(cfg, Held(cfg, second, clock, Selecting(1)), Held(cfg, second, clock, Retiring(1, {0})))
  {
    var m := Held(cfg, second, clock, Selecting(1));
    FindsTheToken(cfg, m);
    FirstGoes(cfg, m, second, Selecting(1), RetireRows({0}, Finish(SessionsRevoked)));
  }

  lemma FindsTheToken(cfg: SessionConfig, m: Machine)
    requires cfg.Valid() && m.tokens == map[0 := TheToken(cfg)] && m.dirtyTokens == map[] && m.gone == {}
    ensures Statement(cfg, m, 1, Selecting(1), CHOICE) == Go(RetireRows({0}, Finish(SessionsRevoked)))
  {
    assert SeeToken(m, 1, 0) == Some(TheToken(cfg));
    assert LiveTokensOf(m, 1, {0}) == {0};
  }

  /** Retiring the token, when no other transaction holds it. */
  lemma TakesTheToken(cfg: SessionConfig, m: Machine)
    requires cfg.Valid() && m.tokens == map[0 := TheToken(cfg)] && m.dirtyTokens == map[] && m.gone == {}
    ensures Statement(cfg, m, 1, Retiring(1, {0}), CHOICE)
      == PutToken(0, RetiredToken(cfg), RetireRows({}, Finish(SessionsRevoked)))
  {
    assert {0} - {0} == {};
    assert SeeToken(m, 1, 0) == Some(TheToken(cfg));
  }

  lemma FirstRetires(cfg: SessionConfig, second: Tx, clock: Time)
    requires cfg.Valid()
    ensures Next(cfg, Held(cfg, second, clock, Retiring(1, {0})), Retired(cfg, second, clock, Retiring(1, {})))
  {
    var m := Held(cfg, second, clock, Retiring(1, {0}));
    TakesTheToken(cfg, m);
    Executes(cfg, m, 1, CHOICE, PutToken(0, RetiredToken(cfg), RetireRows({}, Finish(SessionsRevoked))),
             Retired(cfg, second, clock, Retiring(1, {})));
  }

  lemma FirstFinishes(cfg: SessionConfig, second: Tx, clock: Time)
    requires cfg.Valid()
    ensures Next(cfg, Retired(cfg, second, clock, Retiring(1, {})), Retired(cfg, second, clock, Over(1)))
  {
    var m := Retired(cfg, second, clock, Retiring(1, {}));
    NothingLeft(cfg, m, 1);
    FirstGoes(cfg, m, second, Retiring(1, {}), Ready(SessionsRevoked));
  }

  lemma FirstCommits(cfg: SessionConfig, second: Tx, clock: Time)
    requires cfg.Valid()
    ensures Next(cfg, Retired(cfg, second, clock, Over(1)), Between(cfg, second, clock))
  {
    var m := Retired(cfg, second, clock, Over(1));
    FirstLeaves(cfg, second, clock);
    assert Moves(cfg, m, Commit(1), Between(cfg, second, clock));
  }

  /** A commit of the only row versions there are. */
  lemma CommitLeaves(m: Machine, t: TxId, ses: Session, tok: RefreshToken)
    requires t in m.txs && m.sessions.Keys == {0} && m.tokens.Keys == {0} && m.gone == {}
    requires m.dirtySessions == map[0 := Dirty(t, ses)] && m.dirtyTokens == map[0 := Dirty(t, tok)]
    ensures CommitTx(m, t) == m.(sessions := map[0 := ses], tokens := map[0 := tok], dirtySessions := map[],
                                 dirtyTokens := map[],
                                 txs := m.txs - {t}, done := m.done[t := m.txs[t]])
  {
    assert SessionTable(m, t) == map[0 := ses];
    assert CommitTx(m, t).tokens == map[0 := tok];
    assert CommitTx(m, t).dirtySessions == map[] && CommitTx(m, t).dirtyTokens == map[];
  }

  lemma FirstLeaves(cfg: SessionConfig, second: Tx, clock: Time)
    requires cfg.Valid()
    ensures CommitTx(Retired(cfg, second, clock, Over(1)), 1) == Between(cfg, second, clock)
  {
    CommitLeaves(Retired(cfg, second, clock, Over(1)), 1, Marked(cfg, 1), RetiredToken(cfg));
    assert map[1 := Over(1), 2 := second] - {1} == map[2 := second];
  }

  function Second(cfg: SessionConfig): seq<Machine> {
    var m := Between(cfg, Revoking(2, {0}), 1);
    var held := m.(txs := map[2 := Revoking(2, {})], dirtySessions := map[0 := Dirty(2, Marked(cfg, 2))]);
    [m, held, held.(txs := map[2 := Selecting(2)]), held.(txs := map[2 := Retiring(2, {})]),
     held.(txs := map[2 := Over(2)]),
     m.(sessions := map[0 := Marked(cfg, 2)], txs := map[], done := m.done[2 := Over(2)])]
  }

  lemma SecondMoves(cfg: SessionConfig)
    requires cfg.Valid()
    ensures Next(cfg, Second(cfg)[0], Second(cfg)[1]) && Next(cfg, Second(cfg)[1], Second(cfg)[2])
  {
    var run := Second(cfg);
    TakesTheRow(cfg, run[0], 2, Marked(cfg, 1));
    Executes(cfg, run[0], 2, CHOICE, Taken(2, Marked(cfg, 1)), run[1]);
    NothingLeft(cfg, run[1], 2);
    Executes(cfg, run[1], 2, CHOICE, Go(SelectTokens({0}, Finish(SessionsRevoked))), run[2]);
  }

  lemma FindsNoToken(m: Machine)
    requires m.tokens.Keys == {0} && m.tokens[0].revokedAt.Some? && m.dirtyTokens == map[]
    ensures LiveTokensOf(m, 2, {0}) == {}
  {
  }

  lemma SecondFindsNoToken(cfg: SessionConfig)
    requires cfg.Valid()
    ensures Next(cfg, Second(cfg)[2], Second(cfg)[3]) && Next(cfg, Second(cfg)[3], Second(cfg)[4])
  {
    var run := Second(cfg);
    FindsNoToken(run[2]);
    Executes(cfg, run[2], 2, CHOICE, Go(RetireRows({}, Finish(SessionsRevoked))), run[3]);
    NothingLeft(cfg, run[3], 2);
    Executes(cfg, run[3], 2, CHOICE, Go(Ready(SessionsRevoked)), run[4]);
  }

  /** A commit that writes the session only. */
  lemma SessionCommitLeaves(m: Machine, t: TxId, ses: Session)
    requires t in m.txs && m.sessions.Keys == {0} && m.dirtySessions == map[0 := Dirty(t, ses)]
    requires m.dirtyTokens == map[]
    ensures CommitTx(m, t) == m.(sessions := map[0 := ses], dirtySessions := map[], txs := m.txs - {t},
                                 done := m.done[t := m.txs[t]])
  {
    assert SessionTable(m, t) == map[0 := ses];
    assert CommitTx(m, t).tokens == m.tokens;
    assert CommitTx(m, t).dirtySessions == map[] && CommitTx(m, t).dirtyTokens == map[];
  }

  lemma SecondCommits(cfg: SessionConfig)
    requires cfg.Valid()
    ensures Next(cfg, Second(cfg)[4], Second(cfg)[5])
  {
    var m := Second(cfg)[4];
    SessionCommitLeaves(m, 2, Marked(cfg, 2));
    assert m.txs - {2} == map[];
    assert Moves(cfg, m, Commit(2), Second(cfg)[5]);
  }

  /** The whole run: a login, the overlap, the first commit, the second commit. */
  function WholeRun(cfg: SessionConfig): seq<Machine> {
    Opening(cfg) + Overlap(cfg)[1..] + First(cfg, Revoking(2, {0}), 1)[1..] + Second(cfg)[1..]
  }

  ghost predicate Chained(cfg: SessionConfig, run: seq<Machine>)
    requires cfg.Valid()
  {
    forall i :: 0 <= i < |run| - 1 ==> Next(cfg, run[i], run[i + 1])
  }

  lemma Join(cfg: SessionConfig, a: seq<Machine>, b: seq<Machine>)
    requires cfg.Valid() && Chained(cfg, a) && Chained(cfg, b) && a != [] && b != [] && a[|a| - 1] == b[0]
    ensures Chained(cfg, a + b[1..])
  {
    var run := a + b[1..];
    forall i | 0 <= i < |run| - 1 ensures Next(cfg, run[i], run[i + 1]) {
      if i < |a| - 1 {
        assert run[i] == a[i] && run[i + 1] == a[i + 1];
      } else {
        assert run[i] == b[i - (|a| - 1)] && run[i + 1] == b[i - (|a| - 1) + 1];
      }
    }
  }

  lemma Five(cfg: SessionConfig, run: seq<Machine>)
    requires cfg.Valid() && |run| == 6 && Next(cfg, run[0], run[1]) && Next(cfg, run[1], run[2])
    requires Next(cfg, run[2], run[3])
    requires Next(cfg, run[3], run[4]) && Next(cfg, run[4], run[5])
    ensures Chained(cfg, run)
  {
  }

  lemma Six(cfg: SessionConfig, run: seq<Machine>)
    requires cfg.Valid() && |run| == 7 && Next(cfg, run[0], run[1]) && Next(cfg, run[1], run[2])
    requires Next(cfg, run[2], run[3])
    requires Next(cfg, run[3], run[4]) && Next(cfg, run[4], run[5]) && Next(cfg, run[5], run[6])
    ensures Chained(cfg, run)
  {
  }

  lemma OpeningIsChained(cfg: SessionConfig)
    requires cfg.Valid()
    ensures Chained(cfg, Opening(cfg))
  {
    OpeningMoves(cfg);
    OpeningInserts(cfg);
    OpeningCommits(cfg);
    Five(cfg, Opening(cfg));
  }

  lemma FirstIsChained(cfg: SessionConfig, second: Tx, clock: Time)
    requires cfg.Valid()
    ensures Chained(cfg, First(cfg, second, clock))
  {
    FirstMoves(cfg, second, clock);
    FirstTurnsToTokens(cfg, second, clock);
    FirstSelectsTokens(cfg, second, clock);
    FirstRetires(cfg, second, clock);
    FirstFinishes(cfg, second, clock);
    FirstCommits(cfg, second, clock);
    Six(cfg, First(cfg, second, clock));
  }

  lemma SecondIsChained(cfg: SessionConfig)
    requires cfg.Valid()
    ensures Chained(cfg, Second(cfg))
  {
    SecondMoves(cfg);
    SecondFindsNoToken(cfg);
    SecondCommits(cfg);
    Five(cfg, Second(cfg));
  }

  /**
   * When two revocations overlap, both can return the same session, and the later commit overwrites the
   * time and reason of the earlier: in this reachable run the committed revocation changes from a logout
   * at time 0 to a logout-all at time 1.
   */
  lemma LaterRevocationOverwrites(cfg: SessionConfig) returns (run: seq<Machine>, i: nat)
    requires cfg.Valid()
    ensures Reachable(cfg, run) && i < |run| - 1 && 0 in run[i].sessions && 0 in run[|run| - 1].sessions
    ensures run[i].sessions[0].revokedAt == Some(0) && run[i].sessions[0].reason == Some(LOGOUT)
    ensures run[|run| - 1].sessions[0].revokedAt == Some(1) && run[|run| - 1].sessions[0].reason == Some(LOGOUT_ALL)
    ensures 1 in run[|run| - 1].done && 2 in run[|run| - 1].done
    ensures run[|run| - 1].done[1].ids == {0} && run[|run| - 1].done[2].ids == {0}
  {
    OpeningIsChained(cfg);
    OverlapMoves(cfg);
    var first := First(cfg, Revoking(2, {0}), 1);
    FirstIsChained(cfg, Revoking(2, {0}), 1);
    SecondIsChained(cfg);
    var a := Opening(cfg) + Overlap(cfg)[1..];
    Join(cfg, Opening(cfg), Overlap(cfg));
    Join(cfg, a, first);
    Join(cfg, a + first[1..], Second(cfg));
    run, i := WholeRun(cfg), 16;
    assert run[16] == Between(cfg, Revoking(2, {0}), 1);
  }
}
