/** What refresh rotation and revocation guarantee over every interleaving of every run. */
module Guarantees {
  import opened AuthModel
  import opened ReadCommitted
  import opened Evolution
  import opened Assertions
  import opened Rows
  import opened OwnSteps
  import opened Safety

  /** `t` committed a rotation that presented `token`, with `result`. */
  predicate CommittedRotation(m: Machine, t: TxId, token: TokenId, result: Result) {
    t in m.done && m.done[t].job == Rotate(token) && m.done[t].pc == Ready(result)
  }

  /**
   * TOKEN_REUSE is exact. Among the rotations that came past the liveness checks, as long as
   * the presented row is not deleted, the verdict is TOKEN_REUSE exactly when the committed
   * usedAt lies beyond the grace window of the request's clock, and it always reports that
   * usedAt: the branch "lost the race, but the winner has no usedAt" is never taken.
   */
  lemma ReuseIsExact(cfg: SessionConfig, run: seq<Machine>, i: nat, t: TxId, token: TokenId, result: Result)
    requires cfg.Valid() && Reachable(cfg, run) && i < |run|
    requires CommittedRotation(run[i], t, token, result) && (result.Rotated? || result.Reused?)
    requires token !in run[i].gone
    ensures token in run[i].tokens && run[i].tokens[token].usedAt.Some?
    ensures result.Reused? <==>
              !IsWithinGrace(run[i].tokens[token].usedAt.value, run[i].done[t].now, cfg.graceSeconds)
    ensures result.Reused? ==> result.usedAt == run[i].tokens[token].usedAt
  {
    RunIsSafe(cfg, run, i);
    assert DoneOk(cfg, run[i], t, run[i].done[t]);
  }

  /**
   * Absolute and idle lifetime. A rotation is accepted only before its session's login time
   * plus absoluteTtl and before the presented token's mint time plus refreshTtl.
   */
  lemma RotationRespectsLifetimes(
      cfg: SessionConfig, run: seq<Machine>, i: nat, t: TxId, token: TokenId, sid: SessionId, child: TokenId, g: bool)
    requires cfg.Valid() && Reachable(cfg, run) && i < |run|
    requires CommittedRotation(run[i], t, token, Rotated(sid, child, g))
    ensures var m := run[i]; var now := m.done[t].now;
      && token in m.tokens && m.tokens[token].sessionId == sid && sid in m.sessions
      && now < m.sessions[sid].createdAt + cfg.absoluteTtlSeconds * MS_PER_SECOND
      && now < m.tokens[token].createdAt + cfg.refreshTtlSeconds * MS_PER_SECOND
  {
    RunIsSafe(cfg, run, i);
    assert DoneOk(cfg, run[i], t, run[i].done[t]);
    assert CommittedTokenOk(cfg, run[i], token);
  }

  /** Every committed token was unexpired when minted and expires no later than its session. */
  lemma TokensDieWithTheirSession(cfg: SessionConfig, run: seq<Machine>, i: nat, k: TokenId)
    requires cfg.Valid() && Reachable(cfg, run) && i < |run| && k in run[i].tokens
    ensures var m := run[i]; var row := m.tokens[k];
      && row.createdAt < row.expiresAt
      && row.sessionId in m.sessions && row.expiresAt <= m.sessions[row.sessionId].expiresAt
      && m.sessions[row.sessionId].expiresAt
           == m.sessions[row.sessionId].createdAt + cfg.absoluteTtlSeconds * MS_PER_SECOND
  {
    RunIsSafe(cfg, run, i);
    assert CommittedTokenOk(cfg, run[i], k);
  }

  /** `t` has not read anything yet: it has not begun, or its first read is still to come. */
  predicate FirstReadAhead(m: Machine, t: TxId) {
    t !in m.done && (t in m.txs ==> m.txs[t].pc.ReadToken?)
  }

  /** Nothing that `t` has read so far lets it accept a token of session `s`. */
  predicate PcShuns(pc: Pc, s: SessionId) {
    match pc
    case Consume(tok, _) => tok.sessionId != s
    case ReadWinner(tok, _) => tok.sessionId != s
    case Mint(tok, _, _) => tok.sessionId != s
    case Touch(sid, _, _) => sid != s
    case Ready(Rotated(sid, _, _)) => sid != s
    case _ => true
  }

  predicate Shuns(m: Machine, t: TxId, s: SessionId) {
    && (t in m.txs ==> PcShuns(m.txs[t].pc, s))
    && (t in m.done ==> PcShuns(m.done[t].pc, s))
  }

  lemma StatementShuns(cfg: SessionConfig, m: Machine, t: TxId, ch: Choice, e: Effect, m': Machine, s: SessionId)
    requires cfg.Valid() && Ran(cfg, m, t, ch, e, m') && IsRevoked(m, s) && PcShuns(m.txs[t].pc, s)
    ensures t in m'.txs && PcShuns(m'.txs[t].pc, s)
  {
    if m.txs[t].pc.ReadSession? {
      assert OwnSession(m, t, m.txs[t].pc.tok.sessionId).None?;
    }
  }

  lemma OtherStepsShun(cfg: SessionConfig, m: Machine, l: Label, m': Machine, t: TxId, s: SessionId)
    requires cfg.Valid() && Struct(m) && Moves(cfg, m, l, m') && Shuns(m, t, s)
    requires !(l.Execute? && l.t == t)
    ensures Shuns(m', t, s)
  {
    StepFrame(cfg, m, l, m');
    if t in m.txs && !(l.Commit? && l.t == t) && !(l.Abort? && l.t == t) {
      StepLeavesOthers(cfg, m, l, t);
    }
  }

  lemma OwnStepShuns(cfg: SessionConfig, m: Machine, t: TxId, ch: Choice, e: Effect, m': Machine, s: SessionId)
    requires cfg.Valid() && Ran(cfg, m, t, ch, e, m') && IsRevoked(m, s) && Shuns(m, t, s)
    ensures Shuns(m', t, s)
  {
    StatementShuns(cfg, m, t, ch, e, m', s);
    ExecuteFrame(m, t, m.txs[t], e);
  }

  lemma NextShuns(cfg: SessionConfig, m: Machine, m': Machine, t: TxId, s: SessionId)
    requires cfg.Valid() && Safe(cfg, m) && Next(cfg, m, m') && IsRevoked(m, s) && Shuns(m, t, s)
    ensures Shuns(m', t, s) && IsRevoked(m', s)
  {
    var l :| Moves(cfg, m, l, m');
    StepKeepsStruct(cfg, m, l);
    if l.Execute? && l.t == t {
      assert PcOk(cfg, m, t, m.txs[t]);
      OwnStepShuns(cfg, m, t, l.choice, Statement(cfg, m, t, m.txs[t], l.choice), m', s);
    } else {
      OtherStepsShun(cfg, m, l, m', t, s);
    }
  }

  lemma RunStepShuns(cfg: SessionConfig, run: seq<Machine>, i: nat, t: TxId, s: SessionId)
    requires cfg.Valid() && Reachable(cfg, run) && i < |run| - 1
    requires IsRevoked(run[i], s) && Shuns(run[i], t, s)
    ensures Shuns(run[i + 1], t, s) && IsRevoked(run[i + 1], s)
  {
    RunIsSafe(cfg, run, i);
    NextShuns(cfg, run[i], run[i + 1], t, s);
  }

  lemma {:induction false} RunShuns(cfg: SessionConfig, run: seq<Machine>, i: nat, j: nat, t: TxId, s: SessionId)
    requires cfg.Valid() && Reachable(cfg, run) && i <= j < |run|
    requires IsRevoked(run[i], s) && Shuns(run[i], t, s)
    ensures Shuns(run[j], t, s) && IsRevoked(run[j], s)
    decreases j - i
  {
    if i < j {
      RunStepShuns(cfg, run, i, t, s);
      RunShuns(cfg, run, i + 1, j, t, s);
    }
  }

  /** A rotation whose first read follows a committed revocation of the session is never accepted. */
  lemma RevokedSessionsNeverRotate(
      cfg: SessionConfig, run: seq<Machine>, i: nat, j: nat, t: TxId, token: TokenId, result: Result, s: SessionId)
    requires cfg.Valid() && Reachable(cfg, run) && i <= j < |run|
    requires IsRevoked(run[i], s) && FirstReadAhead(run[i], t)
    requires CommittedRotation(run[j], t, token, result)
    requires token in run[j].born && run[j].born[token].session == s
    ensures !result.Rotated?
  {
    RunShuns(cfg, run, i, j, t, s);
    RunIsSafe(cfg, run, j);
    assert DoneOk(cfg, run[j], t, run[j].done[t]);
  }

  /**
   * Theft kills the whole lineage. Once a rotation has committed TOKEN_REUSE on session `s`, a
   * rotation that starts reading later is refused whenever any ancestor of the token it presents
   * (the token itself included) belongs to `s`, whatever runs in between or alongside.
   */
  lemma TheftKillsTheLineage(
      cfg: SessionConfig, run: seq<Machine>, i: nat, thief: TxId, stolen: TokenId, s: SessionId, usedAt: Option<Time>,
      j: nat, t: TxId, token: TokenId, result: Result, ancestor: TokenId)
    requires cfg.Valid() && Reachable(cfg, run) && i <= j < |run|
    requires CommittedRotation(run[i], thief, stolen, Reused(s, usedAt))
    requires FirstReadAhead(run[i], t) && CommittedRotation(run[j], t, token, result)
    requires token in run[j].born && ancestor in run[j].born[token].lineage
    requires ancestor in run[j].born && run[j].born[ancestor].session == s
    ensures !result.Rotated?
  {
    RunIsSafe(cfg, run, i);
    assert DoneOk(cfg, run[i], thief, run[i].done[thief]);
    RunIsSafe(cfg, run, j);
    assert LineageOk(run[j].born, token);
    RevokedSessionsNeverRotate(cfg, run, i, j, t, token, result, s);
  }

  /** A row whose dirty version revokes it is queued by the transaction that owns it. */
  ghost predicate DirtyAccounted(m: Machine) {
    forall s :: s in m.dirtySessions && m.dirtySessions[s].row.revokedAt.Some? && !IsRevoked(m, s)
      ==> m.dirtySessions[s].owner in m.txs && s in m.txs[m.dirtySessions[s].owner].ids
  }

  /** A committed revocation was queued by a committed transaction. */
  ghost predicate Accounted(m: Machine) {
    forall s :: IsRevoked(m, s) ==> exists t :: t in m.done && s in m.done[t].ids
  }

  /** A statement leaves a row revoked only if it was, or if the row is in the list being revoked. */
  lemma StatementRevokes(cfg: SessionConfig, m: Machine, t: TxId, ch: Choice, e: Effect, m': Machine)
    requires cfg.Valid() && Ran(cfg, m, t, ch, e, m') && Struct(m) && e.PutSession? && e.session.revokedAt.Some?
    ensures IsRevoked(m, e.sid) || e.sid in m.txs[t].ids
  {
    if m.txs[t].pc.Touch? {
      assert OwnSession(m, t, e.sid).None?;
    }
  }

  lemma OtherEffectsAreAccounted(m: Machine, t: TxId, e: Effect, m': Machine)
    requires t in m.txs && !e.Wait? && !e.PutSession? && m' == ApplyEffect(m, t, m.txs[t], e) && DirtyAccounted(m)
    requires e.Select? ==> NoOwnSessions(m, t)
    ensures DirtyAccounted(m')
  {
    if e.Select? {
      forall s | s in m.dirtySessions ensures m.dirtySessions[s].owner != t {
        assert OwnSession(m, t, s).None?;
      }
    }
  }

  lemma PutSessionIsAccounted(m: Machine, t: TxId, e: Effect, m': Machine)
    requires t in m.txs && e.PutSession? && m' == ApplyEffect(m, t, m.txs[t], e) && DirtyAccounted(m)
    requires e.session.revokedAt.Some? ==> IsRevoked(m, e.sid) || e.sid in m.txs[t].ids
    ensures DirtyAccounted(m')
  {
  }

  lemma OnlyTheSearchSelects(cfg: SessionConfig, m: Machine, t: TxId, ch: Choice, e: Effect, m': Machine)
    requires cfg.Valid() && Ran(cfg, m, t, ch, e, m') && e.Select?
    ensures NoOwnSessions(m, t)
  {
  }

  lemma StatementIsAccounted(cfg: SessionConfig, m: Machine, t: TxId, ch: Choice, e: Effect, m': Machine)
    requires cfg.Valid() && Ran(cfg, m, t, ch, e, m') && Struct(m) && DirtyAccounted(m)
    ensures DirtyAccounted(m')
  {
    if e.PutSession? {
      if e.session.revokedAt.Some? {
        StatementRevokes(cfg, m, t, ch, e, m');
      }
      PutSessionIsAccounted(m, t, e, m');
    } else {
      if e.Select? {
        OnlyTheSearchSelects(cfg, m, t, ch, e, m');
      }
      OtherEffectsAreAccounted(m, t, e, m');
    }
  }

  lemma CommitIsAccounted(m: Machine, t: TxId)
    requires Struct(m) && t in m.txs && t !in m.done && DirtyAccounted(m) && Accounted(m)
    ensures DirtyAccounted(CommitTx(m, t)) && Accounted(CommitTx(m, t))
  {
    var m' := CommitTx(m, t);
    CommitEvolves(m, t);
    forall s | IsRevoked(m', s) ensures exists o :: o in m'.done && s in m'.done[o].ids {
      if IsRevoked(m, s) {
        var o :| o in m.done && s in m.done[o].ids;
        assert o in m'.done && s in m'.done[o].ids;
      } else {
        assert t in m'.done && s in m'.done[t].ids;
      }
    }
  }

  lemma OtherStepsAreAccounted(m: Machine, m': Machine)
    requires Struct(m) && DirtyAccounted(m) && Accounted(m)
    requires m'.sessions == m.sessions && m'.done == m.done
    requires forall s :: s in m'.dirtySessions ==>
      && s in m.dirtySessions && m'.dirtySessions[s] == m.dirtySessions[s]
      && m.dirtySessions[s].owner in m'.txs && m'.txs[m.dirtySessions[s].owner] == m.txs[m.dirtySessions[s].owner]
    ensures DirtyAccounted(m') && Accounted(m')
  {
    forall s | IsRevoked(m', s) ensures exists o :: o in m'.done && s in m'.done[o].ids {
      assert IsRevoked(m, s);
    }
  }

  lemma ExecuteIsAccounted(cfg: SessionConfig, m: Machine, t: TxId, ch: Choice, e: Effect, m': Machine)
    requires cfg.Valid() && Ran(cfg, m, t, ch, e, m') && Struct(m) && DirtyAccounted(m) && Accounted(m)
    ensures DirtyAccounted(m') && Accounted(m')
  {
    StatementIsAccounted(cfg, m, t, ch, e, m');
    assert m'.sessions == m.sessions && m'.done == m.done;
    forall s | IsRevoked(m', s) ensures exists o :: o in m'.done && s in m'.done[o].ids {
      assert IsRevoked(m, s);
    }
  }

  lemma QuietStepIsAccounted(cfg: SessionConfig, m: Machine, l: Label, m': Machine)
    requires cfg.Valid() && Struct(m) && DirtyAccounted(m) && Accounted(m)
    requires Moves(cfg, m, l, m') && !l.Execute? && !l.Commit?
    ensures DirtyAccounted(m') && Accounted(m')
  {
    assert forall s :: s in m.dirtySessions ==> DirtySessionOk(m, s);
    OtherStepsAreAccounted(m, m');
  }

  lemma NextIsAccounted(cfg: SessionConfig, m: Machine, m': Machine)
    requires cfg.Valid() && Safe(cfg, m) && Next(cfg, m, m') && DirtyAccounted(m) && Accounted(m)
    ensures DirtyAccounted(m') && Accounted(m')
  {
    var l :| Moves(cfg, m, l, m');
    if l.Execute? {
      assert PcOk(cfg, m, l.t, m.txs[l.t]);
      StepKeepsStruct(cfg, m, l);
      ExecuteIsAccounted(cfg, m, l.t, l.choice, Statement(cfg, m, l.t, m.txs[l.t], l.choice), m');
    } else if l.Commit? {
      CommitIsAccounted(m, l.t);
    } else {
      QuietStepIsAccounted(cfg, m, l, m');
    }
  }

  lemma StartIsAccounted(m: Machine)
    requires Init(m)
    ensures DirtyAccounted(m) && Accounted(m)
  {
  }

  lemma RunStepIsAccounted(cfg: SessionConfig, run: seq<Machine>, i: nat)
    requires cfg.Valid() && Reachable(cfg, run) && i < |run| - 1 && DirtyAccounted(run[i]) && Accounted(run[i])
    ensures DirtyAccounted(run[i + 1]) && Accounted(run[i + 1])
  {
    RunIsSafe(cfg, run, i);
    NextIsAccounted(cfg, run[i], run[i + 1]);
  }

  lemma {:induction false} RunIsAccounted(cfg: SessionConfig, run: seq<Machine>, i: nat)
    requires cfg.Valid() && Reachable(cfg, run) && i < |run|
    ensures DirtyAccounted(run[i]) && Accounted(run[i])
  {
    if i == 0 {
      StartIsAccounted(run[0]);
    } else {
      RunIsAccounted(cfg, run, i - 1);
      RunStepIsAccounted(cfg, run, i - 1);
    }
  }

  /**
   * The denylist agrees with the database, aborts included. A denylisted session's revocation
   * has committed; a returned unit of work has denylisted every session it revoked; and when
   * every committed unit has returned, the denylist is exactly the set of revoked sessions.
   */
  lemma DenylistAgrees(cfg: SessionConfig, run: seq<Machine>, i: nat)
    requires cfg.Valid() && Reachable(cfg, run) && i < |run|
    ensures forall s :: s in run[i].denylist ==> IsRevoked(run[i], s)
    ensures forall t :: t in run[i].notified ==> t in run[i].done && run[i].done[t].ids <= run[i].denylist
    ensures run[i].done.Keys <= run[i].notified ==> forall s :: s in run[i].denylist <==> IsRevoked(run[i], s)
  {
    RunIsSafe(cfg, run, i);
    RunIsAccounted(cfg, run, i);
  }
}
