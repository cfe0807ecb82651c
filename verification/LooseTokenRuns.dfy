/**
 * The two ways to an unrevoked token of a revoked session: a rotation that consumes after the
 * revocation committed, and a password change that reissues after it.
 */
module LooseTokenRuns {
  import opened AuthModel
  import opened ReadCommitted
  import opened Evolution
  import opened Safety
  import opened OverlappingRevocations
  import opened LooseTokens

  const MINTING := Choice(true, 0, 1, 0, [])

  function UsedToken(cfg: SessionConfig): RefreshToken {
    RetiredToken(cfg).(usedAt := Some(0))
  }

  function Child(cfg: SessionConfig): RefreshToken {
    NewRefreshToken(0, TheSession(cfg).expiresAt, 0, cfg)
  }

  // ----- a rotation checks the session, and consumes when its revocation has committed -----

  function Rotating(pc: Pc): Tx {
    Tx(Rotate(0), 0, pc, {}, {})
  }

  function Checked(cfg: SessionConfig): Tx {
    Rotating(Consume(TheToken(cfg), TheSession(cfg)))
  }

  /** The rotation reads its rows; then the revocation begins and finds the session. */
  function RotationOpens(cfg: SessionConfig): seq<Machine> {
    var m := SignedIn(cfg).(begun := {0, 2});
    var both := m.(txs := map[1 := Start(1), 2 := Checked(cfg)], begun := {0, 1, 2});
    [SignedIn(cfg), m.(txs := map[2 := Rotating(ReadToken)]), m.(txs := map[2 := Rotating(ReadSession(TheToken(cfg)))]),
     m.(txs := map[2 := Checked(cfg)]), both, Middle(cfg, Checked(cfg), 0)]
  }

  lemma RotationBegins(cfg: SessionConfig)
    requires cfg.Valid()
    ensures Next(cfg, RotationOpens(cfg)[0], RotationOpens(cfg)[1])
    ensures Next(cfg, RotationOpens(cfg)[1], RotationOpens(cfg)[2])
  {
    var run := RotationOpens(cfg);
    assert Moves(cfg, run[0], Begin(2, Rotate(0)), run[1]);
    assert Moves(cfg, run[1], Execute(2, CHOICE), run[2]);
  }

  lemma RotationChecks(cfg: SessionConfig)
    requires cfg.Valid()
    ensures Next(cfg, RotationOpens(cfg)[2], RotationOpens(cfg)[3])
  {
    var run := RotationOpens(cfg);
    assert Decide(cfg, TheToken(cfg), TheSession(cfg), true, 0) == Consume(TheToken(cfg), TheSession(cfg));
    assert Moves(cfg, run[2], Execute(2, CHOICE), run[3]);
  }

  lemma RevocationJoins(cfg: SessionConfig)
    requires cfg.Valid()
    ensures Next(cfg, RotationOpens(cfg)[3], RotationOpens(cfg)[4])
  {
    assert Moves(cfg, RotationOpens(cfg)[3], Begin(1, Revoke(ById(0), LOGOUT)), RotationOpens(cfg)[4]);
  }

  lemma JoinedRevocationFinds(cfg: SessionConfig)
    requires cfg.Valid()
    ensures Next(cfg, RotationOpens(cfg)[4], RotationOpens(cfg)[5])
  {
    var m := RotationOpens(cfg)[4];
    Finds(cfg, m, 1);
    assert Moves(cfg, m, Execute(1, CHOICE), RotationOpens(cfg)[5]);
  }

  /** The rotation goes on: it consumes, mints, touches and commits. */
  function RotationEnds(cfg: SessionConfig): seq<Machine> {
    var m := Between(cfg, Checked(cfg), 0);
    var used := m.(txs := map[2 := Rotating(Mint(TheToken(cfg), TheSession(cfg), false))],
                   dirtyTokens := map[0 := Dirty(2, UsedToken(cfg))]);
    var minted := used.(txs := map[2 := Rotating(Touch(0, 1, false))],
                        dirtyTokens := used.dirtyTokens[1 := Dirty(2, Child(cfg))],
                        born := used.born[1 := Birth(0, [0, 1], 2)]);
    var touched := minted.(txs := map[2 := Rotating(Ready(Rotated(0, 1, false)))],
                           dirtySessions := map[0 := Dirty(2, Marked(cfg, 1).(lastUsedAt := 0))]);
    [m, used, minted, touched, CommitTx(touched, 2)]
  }

  lemma ConsumesARetiredToken(cfg: SessionConfig, m: Machine)
    requires cfg.Valid() && m.tokens == map[0 := RetiredToken(cfg)] && m.dirtyTokens == map[] && m.gone == {}
    requires m.txs == map[2 := Checked(cfg)] && m.born == map[0 := Birth(0, [0], 0)]
    ensures Next(cfg, m, m.(txs := map[2 := Rotating(Mint(TheToken(cfg), TheSession(cfg), false))],
                            dirtyTokens := map[0 := Dirty(2, UsedToken(cfg))]))
  {
    assert SeeToken(m, 2, 0) == Some(RetiredToken(cfg));
    var m' := m.(txs := map[2 := Rotating(Mint(TheToken(cfg), TheSession(cfg), false))],
                 dirtyTokens := map[0 := Dirty(2, UsedToken(cfg))]);
    assert m.txs[2 := Rotating(Mint(TheToken(cfg), TheSession(cfg), false))] == m'.txs;
    Executes(cfg, m, 2, CHOICE, PutToken(0, UsedToken(cfg), Mint(TheToken(cfg), TheSession(cfg), false)), m');
  }

  lemma RotationConsumesLate(cfg: SessionConfig)
    requires cfg.Valid()
    ensures Next(cfg, RotationEnds(cfg)[0], RotationEnds(cfg)[1])
  {
    ConsumesARetiredToken(cfg, RotationEnds(cfg)[0]);
  }

  lemma MintsTheChild(cfg: SessionConfig, m: Machine)
    requires cfg.Valid() && m.txs == map[2 := Rotating(Mint(TheToken(cfg), TheSession(cfg), false))]
    requires m.born == map[0 := Birth(0, [0], 0)]
    ensures Next(cfg, m, m.(
      txs := map[2 := Rotating(Touch(0, 1, false))], dirtyTokens := m.dirtyTokens[1 := Dirty(2, Child(cfg))],
      born := m.born[1 := Birth(0, [0, 1], 2)]))
  {
    assert [0] + [1] == [0, 1];
    MintingStatement(cfg, m);
    assert m.txs[2 := Rotating(Touch(0, 1, false))] == map[2 := Rotating(Touch(0, 1, false))];
    var m' := m.(txs := map[2 := Rotating(Touch(0, 1, false))], dirtyTokens := m.dirtyTokens[1 := Dirty(2, Child(cfg))],
                 born := m.born[1 := Birth(0, [0, 1], 2)]);
    assert Moves(cfg, m, Execute(2, MINTING), m');
  }

  lemma MintingStatement(cfg: SessionConfig, m: Machine)
    requires cfg.Valid() && m.txs == map[2 := Rotating(Mint(TheToken(cfg), TheSession(cfg), false))] && 1 !in m.born
    ensures Statement(cfg, m, 2, m.txs[2], MINTING) == PutToken(1, Child(cfg), Touch(0, 1, false))
  {
  }

  lemma RotationMintsLate(cfg: SessionConfig)
    requires cfg.Valid()
    ensures Next(cfg, RotationEnds(cfg)[1], RotationEnds(cfg)[2])
  {
    MintsTheChild(cfg, RotationEnds(cfg)[1]);
  }

  lemma TouchesTheRevokedSession(cfg: SessionConfig, m: Machine)
    requires cfg.Valid() && m.txs == map[2 := Rotating(Touch(0, 1, false))]
    requires m.sessions == map[0 := Marked(cfg, 1)] && m.dirtySessions == map[] && m.creators == map[0 := 0]
    ensures Next(cfg, m, m.(txs := map[2 := Rotating(Ready(Rotated(0, 1, false)))],
                            dirtySessions := map[0 := Dirty(2, Marked(cfg, 1).(lastUsedAt := 0))]))
  {
    assert m.txs[2 := Rotating(Ready(Rotated(0, 1, false)))] == map[2 := Rotating(Ready(Rotated(0, 1, false)))];
    var m' := m.(txs := map[2 := Rotating(Ready(Rotated(0, 1, false)))],
                 dirtySessions := map[0 := Dirty(2, Marked(cfg, 1).(lastUsedAt := 0))]);
    assert Moves(cfg, m, Execute(2, CHOICE), m');
  }

  lemma RotationTouchesLate(cfg: SessionConfig)
    requires cfg.Valid()
    ensures Next(cfg, RotationEnds(cfg)[2], RotationEnds(cfg)[3])
  {
    TouchesTheRevokedSession(cfg, RotationEnds(cfg)[2]);
  }

  lemma RotationCommitsLate(cfg: SessionConfig)
    requires cfg.Valid()
    ensures Next(cfg, RotationEnds(cfg)[3], RotationEnds(cfg)[4])
    ensures IsRevoked(RotationEnds(cfg)[4], 0) && IsLoose(RotationEnds(cfg)[4], 1, 0)
  {
    assert Moves(cfg, RotationEnds(cfg)[3], Commit(2), RotationEnds(cfg)[4]);
  }

  lemma Four(cfg: SessionConfig, run: seq<Machine>)
    requires cfg.Valid() && |run| == 5 && Next(cfg, run[0], run[1]) && Next(cfg, run[1], run[2])
    requires Next(cfg, run[2], run[3])
    requires Next(cfg, run[3], run[4])
    ensures Chained(cfg, run)
  {
  }

  lemma RotationIsChained(cfg: SessionConfig)
    requires cfg.Valid()
    ensures Chained(cfg, RotationOpens(cfg)) && Chained(cfg, RotationEnds(cfg))
  {
    RotationBegins(cfg);
    RotationChecks(cfg);
    RevocationJoins(cfg);
    JoinedRevocationFinds(cfg);
    Five(cfg, RotationOpens(cfg));
    RotationConsumesLate(cfg);
    RotationMintsLate(cfg);
    RotationTouchesLate(cfg);
    RotationCommitsLate(cfg);
    Four(cfg, RotationEnds(cfg));
  }

  /** A login, the two openings, the revocation's commit, and what the other transaction does afterwards. */
  lemma Compose(cfg: SessionConfig, opens: seq<Machine>, second: Tx, ends: seq<Machine>) returns (run: seq<Machine>)
    requires cfg.Valid() && opens != [] && ends != [] && Chained(cfg, opens) && Chained(cfg, ends)
    requires opens[0] == SignedIn(cfg) && opens[|opens| - 1] == Middle(cfg, second, 0)
    requires ends[0] == Between(cfg, second, 0)
    ensures Reachable(cfg, run) && run[|run| - 1] == ends[|ends| - 1]
  {
    OpeningIsChained(cfg);
    FirstIsChained(cfg, second, 0);
    var first := First(cfg, second, 0);
    var a := Opening(cfg) + opens[1..];
    Join(cfg, Opening(cfg), opens);
    Join(cfg, a, first);
    Join(cfg, a + first[1..], ends);
    run := a + first[1..] + ends[1..];
    assert run[0] == NOTHING;
  }

  /**
   * A rotation that checked the session before its revocation committed, and consumes after it, leaves the
   * revoked session with an unrevoked token: the conditional update re-tests `usedAt` only.
   */
  lemma RotationLeavesALooseToken(cfg: SessionConfig) returns (run: seq<Machine>)
    requires cfg.Valid()
    ensures Reachable(cfg, run) && IsRevoked(run[|run| - 1], 0) && IsLoose(run[|run| - 1], 1, 0)
  {
    RotationIsChained(cfg);
    RotationCommitsLate(cfg);
    run := Compose(cfg, RotationOpens(cfg), Checked(cfg), RotationEnds(cfg));
  }

  // ----- a password change checks its session, and reissues when its revocation has committed -----

  function Changing(pc: Pc): Tx {
    Tx(ChangePassword(0, 0), 0, pc, {}, {})
  }

  function CheckedChange(cfg: SessionConfig): Tx {
    Changing(FindSessions(ByUserExcept(0, 0), PASSWORD_CHANGED, RetireOwn(0, TheSession(cfg).expiresAt)))
  }

  function ChangeOpens(cfg: SessionConfig): seq<Machine> {
    var m := SignedIn(cfg).(begun := {0, 2});
    [SignedIn(cfg), m.(txs := map[2 := Changing(CheckSession)]), m.(txs := map[2 := CheckedChange(cfg)]),
     m.(txs := map[1 := Start(1), 2 := CheckedChange(cfg)], begun := {0, 1, 2}), Middle(cfg, CheckedChange(cfg), 0)]
  }

  lemma ChangeBegins(cfg: SessionConfig)
    requires cfg.Valid()
    ensures Next(cfg, ChangeOpens(cfg)[0], ChangeOpens(cfg)[1]) && Next(cfg, ChangeOpens(cfg)[1], ChangeOpens(cfg)[2])
  {
    var run := ChangeOpens(cfg);
    assert Moves(cfg, run[0], Begin(2, ChangePassword(0, 0)), run[1]);
    assert Moves(cfg, run[1], Execute(2, CHOICE), run[2]);
  }

  lemma RevocationJoinsChange(cfg: SessionConfig)
    requires cfg.Valid()
    ensures Next(cfg, ChangeOpens(cfg)[2], ChangeOpens(cfg)[3])
  {
    assert Moves(cfg, ChangeOpens(cfg)[2], Begin(1, Revoke(ById(0), LOGOUT)), ChangeOpens(cfg)[3]);
  }

  lemma RevocationFinds(cfg: SessionConfig)
    requires cfg.Valid()
    ensures Next(cfg, ChangeOpens(cfg)[3], ChangeOpens(cfg)[4])
  {
    var m := ChangeOpens(cfg)[3];
    Finds(cfg, m, 1);
    assert Moves(cfg, m, Execute(1, CHOICE), ChangeOpens(cfg)[4]);
  }

  /** The change goes on: no other session, no live token of its own, a new token, commit. */
  function ChangeEnds(cfg: SessionConfig): seq<Machine> {
    var m := Between(cfg, CheckedChange(cfg), 0);
    var expiresAt := TheSession(cfg).expiresAt;
    var issued := m.(txs := map[2 := Changing(Ready(Reissued(1)))], dirtyTokens := map[1 := Dirty(2, Child(cfg))],
                     born := m.born[1 := Birth(0, [1], 2)]);
    [m, m.(txs := map[2 := Changing(SelectTokens({0}, Reissue(0, expiresAt)))]),
     m.(txs := map[2 := Changing(RetireRows({}, Reissue(0, expiresAt)))]),
     m.(txs := map[2 := Changing(InsertToken(0, expiresAt, false))]), issued, CommitTx(issued, 2)]
  }

  lemma FindsNoOther(cfg: SessionConfig, m: Machine)
    requires cfg.Valid() && m.sessions == map[0 := Marked(cfg, 1)] && m.dirtySessions == map[]
    ensures Statement(cfg, m, 2, CheckedChange(cfg), CHOICE)
              == Select({}, {}, SelectTokens({0}, Reissue(0, TheSession(cfg).expiresAt)))
  {
    assert SessionTable(m, 2) == map[0 := Marked(cfg, 1)];
    var e := Statement(cfg, m, 2, CheckedChange(cfg), CHOICE);
    assert e.Select?;
    assert forall s :: s !in e.targets;
    assert e.targets == {} && e.ids == {};
  }

  lemma SelectsNoOther(cfg: SessionConfig, m: Machine)
    requires cfg.Valid() && m.sessions == map[0 := Marked(cfg, 1)] && m.dirtySessions == map[]
    requires m.txs == map[2 := CheckedChange(cfg)]
    ensures Next(cfg, m, m.(txs := map[2 := Changing(SelectTokens({0}, Reissue(0, TheSession(cfg).expiresAt)))]))
  {
    FindsNoOther(cfg, m);
    var m' := m.(txs := map[2 := Changing(SelectTokens({0}, Reissue(0, TheSession(cfg).expiresAt)))]);
    Executes(cfg, m, 2, CHOICE, Select({}, {}, SelectTokens({0}, Reissue(0, TheSession(cfg).expiresAt))), m');
  }

  lemma ChangeFindsNoOther(cfg: SessionConfig)
    requires cfg.Valid()
    ensures Next(cfg, ChangeEnds(cfg)[0], ChangeEnds(cfg)[1])
  {
    SelectsNoOther(cfg, ChangeEnds(cfg)[0]);
  }

  lemma FindsNoLiveToken(cfg: SessionConfig, m: Machine, expiresAt: Time)
    requires cfg.Valid() && m.txs == map[2 := Changing(SelectTokens({0}, Reissue(0, expiresAt)))]
    requires m.tokens == map[0 := RetiredToken(cfg)] && m.dirtyTokens == map[] && m.gone == {}
    ensures Next(cfg, m, m.(txs := map[2 := Changing(RetireRows({}, Reissue(0, expiresAt)))]))
  {
    assert SeeToken(m, 2, 0) == Some(RetiredToken(cfg));
    assert LiveTokensOf(m, 2, {0}) == {};
    assert Moves(cfg, m, Execute(2, CHOICE), m.(txs := map[2 := Changing(RetireRows({}, Reissue(0, expiresAt)))]));
  }

  lemma RetiresNothing(cfg: SessionConfig, m: Machine, expiresAt: Time)
    requires cfg.Valid() && m.txs == map[2 := Changing(RetireRows({}, Reissue(0, expiresAt)))]
    ensures Next(cfg, m, m.(txs := map[2 := Changing(InsertToken(0, expiresAt, false))]))
  {
    assert Moves(cfg, m, Execute(2, CHOICE), m.(txs := map[2 := Changing(InsertToken(0, expiresAt, false))]));
  }

  lemma ChangeRetiresNothing(cfg: SessionConfig)
    requires cfg.Valid()
    ensures Next(cfg, ChangeEnds(cfg)[1], ChangeEnds(cfg)[2]) && Next(cfg, ChangeEnds(cfg)[2], ChangeEnds(cfg)[3])
  {
    FindsNoLiveToken(cfg, ChangeEnds(cfg)[1], TheSession(cfg).expiresAt);
    RetiresNothing(cfg, ChangeEnds(cfg)[2], TheSession(cfg).expiresAt);
  }

  lemma IssuesTheToken(cfg: SessionConfig, m: Machine)
    requires cfg.Valid() && m.txs == map[2 := Changing(InsertToken(0, TheSession(cfg).expiresAt, false))]
    requires m.born == map[0 := Birth(0, [0], 0)] && m.dirtyTokens == map[]
    ensures Next(cfg, m, m.(txs := map[2 := Changing(Ready(Reissued(1)))],
                            dirtyTokens := map[1 := Dirty(2, Child(cfg))],
                            born := m.born[1 := Birth(0, [1], 2)]))
  {
    assert [] + [1] == [1];
    assert m.txs[2 := Changing(Ready(Reissued(1)))] == map[2 := Changing(Ready(Reissued(1)))];
    var m' := m.(txs := map[2 := Changing(Ready(Reissued(1)))], dirtyTokens := map[1 := Dirty(2, Child(cfg))],
                 born := m.born[1 := Birth(0, [1], 2)]);
    assert Moves(cfg, m, Execute(2, MINTING), m');
  }

  lemma ChangeReissues(cfg: SessionConfig)
    requires cfg.Valid()
    ensures Next(cfg, ChangeEnds(cfg)[3], ChangeEnds(cfg)[4])
  {
    IssuesTheToken(cfg, ChangeEnds(cfg)[3]);
  }

  lemma ChangeCommitsLate(cfg: SessionConfig)
    requires cfg.Valid()
    ensures Next(cfg, ChangeEnds(cfg)[4], ChangeEnds(cfg)[5])
    ensures IsRevoked(ChangeEnds(cfg)[5], 0) && IsLoose(ChangeEnds(cfg)[5], 1, 0)
  {
    assert Moves(cfg, ChangeEnds(cfg)[4], Commit(2), ChangeEnds(cfg)[5]);
  }

  lemma ChangeIsChained(cfg: SessionConfig)
    requires cfg.Valid()
    ensures Chained(cfg, ChangeOpens(cfg)) && Chained(cfg, ChangeEnds(cfg))
  {
    ChangeBegins(cfg);
    RevocationJoinsChange(cfg);
    RevocationFinds(cfg);
    Four(cfg, ChangeOpens(cfg));
    ChangeFindsNoOther(cfg);
    ChangeRetiresNothing(cfg);
    ChangeReissues(cfg);
    ChangeCommitsLate(cfg);
    Five(cfg, ChangeEnds(cfg));
  }

  /**
   * A password change that checked its session before the session's revocation committed, and reissues
   * after it, leaves the revoked session with an unrevoked token: the check is outside the transaction.
   */
  lemma PasswordChangeLeavesALooseToken(cfg: SessionConfig) returns (run: seq<Machine>)
    requires cfg.Valid()
    ensures Reachable(cfg, run) && IsRevoked(run[|run| - 1], 0) && IsLoose(run[|run| - 1], 1, 0)
  {
    ChangeIsChained(cfg);
    ChangeCommitsLate(cfg);
    run := Compose(cfg, ChangeOpens(cfg), CheckedChange(cfg), ChangeEnds(cfg));
  }
}
