/** Each statement establishes the assertion of the statement that follows it. */
module OwnSteps {
  import opened AuthModel
  import opened ReadCommitted
  import opened Evolution
  import opened Assertions
  import opened Rows

  /** `e` is what the next statement of `t` does, and `m'` the state it leads to. */
  ghost predicate Ran(cfg: SessionConfig, m: Machine, t: TxId, ch: Choice, e: Effect, m': Machine)
    requires cfg.Valid()
  {
    && t in m.txs && PcOk(cfg, m, t, m.txs[t])
    && e == Statement(cfg, m, t, m.txs[t], ch) && !e.Wait?
    && m' == ApplyEffect(m, t, m.txs[t], e) && Evolves(m, m')
  }

  lemma RotationReads(cfg: SessionConfig, m: Machine, t: TxId, ch: Choice, e: Effect, m': Machine)
    requires cfg.Valid() && Ran(cfg, m, t, ch, e, m') && m.txs[t].pc.ReadToken?
    ensures t in m'.txs && PcOk(cfg, m', t, m'.txs[t])
  {
    assert OwnToken(m, t, m.txs[t].job.token).None?;
    assert SameOwn(m, m', t);
  }

  lemma DecisionHolds(cfg: SessionConfig, m: Machine, t: TxId, tx: Tx, tok: RefreshToken, ses: Session, active: bool)
    requires TokenRead(m, tx, tok) && Untouched(tx) && NoOwnSessions(m, t) && NoOwnTokens(m, t)
    requires tok.sessionId in m.sessions && ses == m.sessions[tok.sessionId]
    requires tx.pc == Decide(cfg, tok, ses, active, tx.now)
    ensures PcOk(cfg, m, t, tx)
  {
  }

  lemma DecisionShape(cfg: SessionConfig, m: Machine, t: TxId, ch: Choice, e: Effect, m': Machine)
    requires cfg.Valid() && Ran(cfg, m, t, ch, e, m') && m.txs[t].pc.ReadSession?
    ensures var tok := m.txs[t].pc.tok;
      && tok.sessionId in m.sessions && SameOwn(m, m', t) && m'.sessions == m.sessions && m'.tokens == m.tokens
      && t in m'.txs
      && m'.txs[t] == m.txs[t].(pc := Decide(cfg, tok, m.sessions[tok.sessionId], ch.active, m.txs[t].now))
  {
    assert OwnSession(m, t, m.txs[t].pc.tok.sessionId).None?;
  }

  lemma RotationDecides(cfg: SessionConfig, m: Machine, t: TxId, ch: Choice, e: Effect, m': Machine)
    requires cfg.Valid() && Ran(cfg, m, t, ch, e, m') && m.txs[t].pc.ReadSession?
    ensures t in m'.txs && PcOk(cfg, m', t, m'.txs[t])
  {
    var tok := m.txs[t].pc.tok;
    DecisionShape(cfg, m, t, ch, e, m');
    DecisionHolds(cfg, m', t, m'.txs[t], tok, m.sessions[tok.sessionId], ch.active);
  }

  lemma RotationConsumes(cfg: SessionConfig, m: Machine, t: TxId, ch: Choice, e: Effect, m': Machine)
    requires cfg.Valid() && Ran(cfg, m, t, ch, e, m') && m.txs[t].pc.Consume?
    ensures t in m'.txs && PcOk(cfg, m', t, m'.txs[t])
  {
    assert OwnToken(m, t, m.txs[t].job.token).None?;
    forall s ensures OwnSession(m', t, s).None? {
      assert OwnSession(m, t, s).None?;
    }
    if e.Go? {
      assert SameOwn(m, m', t);
    }
  }

  lemma RotationLoses(cfg: SessionConfig, m: Machine, t: TxId, ch: Choice, e: Effect, m': Machine)
    requires cfg.Valid() && Ran(cfg, m, t, ch, e, m') && m.txs[t].pc.ReadWinner?
    ensures t in m'.txs && PcOk(cfg, m', t, m'.txs[t])
  {
    assert OwnToken(m, t, m.txs[t].job.token).None?;
    assert SameOwn(m, m', t);
  }

  lemma MintShape(cfg: SessionConfig, m: Machine, t: TxId, ch: Choice, e: Effect, m': Machine)
    requires cfg.Valid() && Ran(cfg, m, t, ch, e, m') && BirthsOk(m) && m.txs[t].pc.Mint?
    ensures var tx := m.txs[t]; var sid := tx.pc.tok.sessionId;
      && tx.job.token in m.born && ch.tid !in m.born && t in m'.txs
      && m'.txs[t] == tx.(pc := Touch(sid, ch.tid, tx.pc.graceReplay))
      && OwnToken(m', t, ch.tid) == Some(NewRefreshToken(sid, tx.pc.ses.expiresAt, tx.now, cfg))
      && OwnToken(m', t, tx.job.token) == OwnToken(m, t, tx.job.token)
      && m'.born == m.born[ch.tid := Birth(sid, m.born[tx.job.token].lineage + [ch.tid], t)]
      && m'.sessions == m.sessions && m'.tokens == m.tokens && m'.dirtySessions == m.dirtySessions
  {
    assert m.txs[t].job.token in m.born;
  }

  lemma RotationMints(cfg: SessionConfig, m: Machine, t: TxId, ch: Choice, e: Effect, m': Machine)
    requires cfg.Valid() && Ran(cfg, m, t, ch, e, m') && BirthsOk(m)
    requires m.txs[t].pc.Mint?
    ensures t in m'.txs && PcOk(cfg, m', t, m'.txs[t])
  {
    MintShape(cfg, m, t, ch, e, m');
    MintedHolds(cfg, m, t, ch.tid, m');
  }

  /** The presented row is live, used, and now has a child. */
  lemma MintedHolds(cfg: SessionConfig, m: Machine, t: TxId, child: TokenId, m': Machine)
    requires t in m.txs && m.txs[t].pc.Mint? && PcOk(cfg, m, t, m.txs[t]) && t in m'.txs
    requires m'.sessions == m.sessions && m'.tokens == m.tokens && m'.dirtySessions == m.dirtySessions
    requires m.txs[t].job.token in m.born && child !in m.born
    requires var tx := m.txs[t]; var sid := tx.pc.tok.sessionId;
      && m'.txs[t] == tx.(pc := Touch(sid, child, tx.pc.graceReplay))
      && OwnToken(m', t, child) == Some(NewRefreshToken(sid, tx.pc.ses.expiresAt, tx.now, cfg))
      && OwnToken(m', t, tx.job.token) == OwnToken(m, t, tx.job.token)
      && m'.born == m.born[child := Birth(sid, m.born[tx.job.token].lineage + [child], t)]
    ensures PcOk(cfg, m', t, m'.txs[t])
  {
    forall s ensures OwnSession(m', t, s).None? {
      assert OwnSession(m, t, s).None?;
    }
  }

  lemma RotationTouches(cfg: SessionConfig, m: Machine, t: TxId, ch: Choice, e: Effect, m': Machine)
    requires cfg.Valid() && Ran(cfg, m, t, ch, e, m')
    requires m.txs[t].pc.Touch?
    ensures t in m'.txs && PcOk(cfg, m', t, m'.txs[t])
  {
    forall k ensures OwnToken(m', t, k) == OwnToken(m, t, k) {}
  }

  lemma ContinuationOk(cfg: SessionConfig, m: Machine, t: TxId, tx: Tx, follow: Then)
    requires Handled(m, t, tx, {}) && FollowOk(cfg, m, tx, follow) && Condemned(tx, follow)
    requires tx.pc == After(follow)
    requires forall s :: s in m.sessions && OwnSession(m, t, s).Some? ==>
               OwnSession(m, t, s).value.expiresAt == m.sessions[s].expiresAt
    ensures PcOk(cfg, m, t, tx)
  {
  }

  lemma RevocationSelects(cfg: SessionConfig, m: Machine, t: TxId, ch: Choice, e: Effect, m': Machine)
    requires cfg.Valid() && Ran(cfg, m, t, ch, e, m')
    requires m.txs[t].pc.FindSessions?
    ensures t in m'.txs && PcOk(cfg, m', t, m'.txs[t])
  {
    var tx := m.txs[t];
    var tx' := m'.txs[t];
    assert SameOwn(m, m', t);
    forall s | s in tx'.targets && s !in tx'.ids ensures SeesRevoked(m', t, s) {
      assert OwnSession(m, t, s).None?;
    }
    var follow := tx.pc.follow;
    assert Condemned(tx', follow) by {
      if follow.Finish? && follow.result.Reused? {
        assert OwnSession(m, t, follow.result.session).None?;
      }
    }
    if tx'.ids == {} {
      forall s ensures OwnSession(m', t, s).None? {
        assert OwnSession(m, t, s).None?;
      }
      ContinuationOk(cfg, m', t, tx', follow);
    }
  }

  /** Writing one session row leaves the others as `t` sees them. */
  lemma PutKeepsSeen(m: Machine, m': Machine, t: TxId, sid: SessionId, row: Session, s: SessionId)
    requires m'.sessions == m.sessions && m'.dirtySessions == m.dirtySessions[sid := Dirty(t, row)]
    ensures SeeSession(m', t, s) == if s == sid then Some(row) else SeeSession(m, t, s)
  {
  }

  lemma RevokeShape(cfg: SessionConfig, m: Machine, t: TxId, ch: Choice, e: Effect, m': Machine)
    requires cfg.Valid() && Ran(cfg, m, t, ch, e, m') && m.txs[t].pc.RevokeRows? && e.PutSession?
    ensures var pc := m.txs[t].pc;
      && e.sid in pc.rows && e.session.revokedAt.Some? && t in m'.txs
      && m'.txs[t] == m.txs[t].(pc := RevokeRows(pc.rows - {e.sid}, pc.reason, pc.follow))
      && m'.sessions == m.sessions && m'.tokens == m.tokens && m'.gone == m.gone
      && m'.dirtySessions == m.dirtySessions[e.sid := Dirty(t, e.session)]
  {
  }

  lemma RevocationRevokesOne(cfg: SessionConfig, m: Machine, t: TxId, ch: Choice, e: Effect, m': Machine)
    requires cfg.Valid() && Ran(cfg, m, t, ch, e, m') && m.txs[t].pc.RevokeRows? && e.PutSession?
    ensures t in m'.txs && PcOk(cfg, m', t, m'.txs[t])
  {
    RevokeShape(cfg, m, t, ch, e, m');
    FollowIsStable(cfg, m, m', m.txs[t], m.txs[t].pc.follow);
    forall s | s in m.txs[t].targets && s !in m'.txs[t].pc.rows ensures SeesRevoked(m', t, s) {
      PutKeepsSeen(m, m', t, e.sid, e.session, s);
      assert s != e.sid ==> SeesRevoked(m, t, s);
    }
  }

  lemma RevocationRevokes(cfg: SessionConfig, m: Machine, t: TxId, ch: Choice, e: Effect, m': Machine)
    requires cfg.Valid() && Ran(cfg, m, t, ch, e, m')
    requires m.txs[t].pc.RevokeRows?
    ensures t in m'.txs && PcOk(cfg, m', t, m'.txs[t])
  {
    if e.PutSession? {
      RevocationRevokesOne(cfg, m, t, ch, e, m');
    } else {
      assert SameOwn(m, m', t);
      HandledIsStable(m, m', t, m.txs[t], {});
    }
  }

  lemma RevocationSelectsTokens(cfg: SessionConfig, m: Machine, t: TxId, ch: Choice, e: Effect, m': Machine)
    requires cfg.Valid() && Ran(cfg, m, t, ch, e, m')
    requires m.txs[t].pc.SelectTokens?
    ensures t in m'.txs && PcOk(cfg, m', t, m'.txs[t])
  {
    assert SameOwn(m, m', t);
    forall s | s in m.txs[t].targets ensures SeesRevoked(m', t, s) {
      assert SeesRevoked(m, t, s);
    }
  }

  lemma RevocationRetiresOne(cfg: SessionConfig, m: Machine, t: TxId, ch: Choice, e: Effect, m': Machine)
    requires cfg.Valid() && Ran(cfg, m, t, ch, e, m')
    requires m.txs[t].pc.RetireRows? && m.txs[t].pc.todo != {}
    ensures t in m'.txs && PcOk(cfg, m', t, m'.txs[t])
  {
    forall s ensures OwnSession(m', t, s) == OwnSession(m, t, s) {}
    forall s | s in m.txs[t].targets ensures SeesRevoked(m', t, s) {
      assert SeesRevoked(m, t, s);
    }
  }

  lemma RevocationRetires(cfg: SessionConfig, m: Machine, t: TxId, ch: Choice, e: Effect, m': Machine)
    requires cfg.Valid() && Ran(cfg, m, t, ch, e, m') && Struct(m)
    requires m.txs[t].pc.RetireRows? && m.txs[t].pc.todo == {}
    ensures t in m'.txs && PcOk(cfg, m', t, m'.txs[t])
  {
    var tx := m.txs[t];
    forall s ensures OwnSession(m', t, s) == OwnSession(m, t, s) {}
    forall s | s in tx.targets ensures SeesRevoked(m', t, s) {
      assert SeesRevoked(m, t, s);
    }
    assert forall s :: s in m.dirtySessions ==> DirtySessionOk(m, s);
    ContinuationOk(cfg, m', t, m'.txs[t], tx.pc.follow);
  }

  lemma PasswordChangeChecks(cfg: SessionConfig, m: Machine, t: TxId, ch: Choice, e: Effect, m': Machine)
    requires cfg.Valid() && Ran(cfg, m, t, ch, e, m')
    requires m.txs[t].pc.CheckSession?
    ensures t in m'.txs && PcOk(cfg, m', t, m'.txs[t])
  {
    assert SameOwn(m, m', t);
    assert m.txs[t].job.ChangePassword? ==> OwnSession(m, t, m.txs[t].job.session).None?;
  }

  lemma LoginReads(cfg: SessionConfig, m: Machine, t: TxId, ch: Choice, e: Effect, m': Machine)
    requires cfg.Valid() && Ran(cfg, m, t, ch, e, m')
    requires m.txs[t].pc.ReadActive?
    ensures t in m'.txs && PcOk(cfg, m', t, m'.txs[t])
  {
    assert SameOwn(m, m', t);
  }

  lemma InsertShape(cfg: SessionConfig, m: Machine, t: TxId, ch: Choice, e: Effect, m': Machine)
    requires cfg.Valid() && Ran(cfg, m, t, ch, e, m') && m.txs[t].pc.InsertSession?
    ensures e.PutSession? && e.sid !in m.creators && m.txs[t].now < e.session.expiresAt && t in m'.txs
    ensures m'.txs[t] == m.txs[t].(pc := InsertToken(e.sid, e.session.expiresAt, true))
    ensures m'.sessions == m.sessions && m'.dirtySessions == m.dirtySessions[e.sid := Dirty(t, e.session)]
  {
  }

  lemma LoginInserts(cfg: SessionConfig, m: Machine, t: TxId, ch: Choice, e: Effect, m': Machine)
    requires cfg.Valid() && Ran(cfg, m, t, ch, e, m') && Struct(m)
    requires m.txs[t].pc.InsertSession?
    ensures t in m'.txs && PcOk(cfg, m', t, m'.txs[t])
  {
    InsertShape(cfg, m, t, ch, e, m');
    PutKeepsSeen(m, m', t, e.sid, e.session, e.sid);
    forall s | s in m.txs[t].targets ensures SeesRevoked(m', t, s) {
      assert SeesRevoked(m, t, s);
      assert s in m.dirtySessions ==> DirtySessionOk(m, s);
      PutKeepsSeen(m, m', t, e.sid, e.session, s);
    }
  }

  lemma TokenInserts(cfg: SessionConfig, m: Machine, t: TxId, ch: Choice, e: Effect, m': Machine)
    requires cfg.Valid() && Ran(cfg, m, t, ch, e, m')
    requires m.txs[t].pc.InsertToken?
    ensures t in m'.txs && PcOk(cfg, m', t, m'.txs[t])
  {
    var tx := m.txs[t];
    forall s ensures OwnSession(m', t, s) == OwnSession(m, t, s) {}
    forall s | s in tx.targets ensures SeesRevoked(m', t, s) {
      assert SeesRevoked(m, t, s);
    }
  }

  lemma OwnStepsKeepAssertions(cfg: SessionConfig, m: Machine, t: TxId, ch: Choice, e: Effect, m': Machine)
    requires cfg.Valid() && Ran(cfg, m, t, ch, e, m') && Struct(m) && BirthsOk(m)
    ensures t in m'.txs && PcOk(cfg, m', t, m'.txs[t])
  {
    match m.txs[t].pc
    case ReadToken => RotationReads(cfg, m, t, ch, e, m');
    case ReadSession(_) => RotationDecides(cfg, m, t, ch, e, m');
    case Consume(_, _) => RotationConsumes(cfg, m, t, ch, e, m');
    case ReadWinner(_, _) => RotationLoses(cfg, m, t, ch, e, m');
    case Mint(_, _, _) => RotationMints(cfg, m, t, ch, e, m');
    case Touch(_, _, _) => RotationTouches(cfg, m, t, ch, e, m');
    case CheckSession => PasswordChangeChecks(cfg, m, t, ch, e, m');
    case ReadActive => LoginReads(cfg, m, t, ch, e, m');
    case FindSessions(_, _, _) => RevocationSelects(cfg, m, t, ch, e, m');
    case RevokeRows(_, _, _) => RevocationRevokes(cfg, m, t, ch, e, m');
    case SelectTokens(_, _) => RevocationSelectsTokens(cfg, m, t, ch, e, m');
    case RetireRows(todo, _) =>
      if todo == {} {
        RevocationRetires(cfg, m, t, ch, e, m');
      } else {
        RevocationRetiresOne(cfg, m, t, ch, e, m');
      }
    case InsertSession => LoginInserts(cfg, m, t, ch, e, m');
    case InsertToken(_, _, _) => TokenInserts(cfg, m, t, ch, e, m');
    case Ready(_) =>
  }
}
