/**
 * What each transaction knows at each of its statements, whatever the others do meanwhile.
 * The assertion of a statement only mentions facts that Evolution keeps, so another
 * transaction cannot falsify it.
 */
module Assertions {
  import opened AuthModel
  import opened ReadCommitted
  import opened Evolution

  ghost predicate NoOwnSessions(m: Machine, t: TxId) {
    forall s :: OwnSession(m, t, s).None?
  }

  ghost predicate NoOwnTokens(m: Machine, t: TxId) {
    forall k :: OwnToken(m, t, k).None?
  }

  ghost predicate SameOwn(m: Machine, m': Machine, t: TxId) {
    && (forall s :: OwnSession(m', t, s) == OwnSession(m, t, s))
    && (forall k :: OwnToken(m', t, k) == OwnToken(m, t, k))
  }

  ghost predicate SeesRevoked(m: Machine, t: TxId, s: SessionId) {
    SeeSession(m, t, s).Some? && SeeSession(m, t, s).value.revokedAt.Some?
  }

  /** Of the sessions its revocation matched, all but `rest` are revoked in what `t` sees. */
  ghost predicate Handled(m: Machine, t: TxId, tx: Tx, rest: set<SessionId>) {
    && tx.ids <= tx.targets
    && forall s :: s in tx.targets && s !in rest ==> SeesRevoked(m, t, s)
  }

  predicate Untouched(tx: Tx) {
    tx.targets == {} && tx.ids == {}
  }

  predicate TokenRead(m: Machine, tx: Tx, tok: RefreshToken) {
    && tx.job.Rotate?
    && tx.job.token in m.tokens
    && TokenLater(tok, m.tokens[tx.job.token])
  }

  /** A rotation past its checks: the rows it read were live at its own clock. */
  predicate Accepting(m: Machine, tx: Tx, tok: RefreshToken, ses: Session) {
    && TokenRead(m, tx, tok)
    && tok.sessionId in m.sessions
    && SessionLater(ses, m.sessions[tok.sessionId])
    && tx.now < ses.expiresAt
    && tx.now < tok.expiresAt
  }

  /** The presented token is used: by an earlier rotation within the grace, or by this one. */
  predicate Used(cfg: SessionConfig, m: Machine, t: TxId, tx: Tx, graceReplay: bool)
    requires tx.job.Rotate? && tx.job.token in m.tokens
  {
    if graceReplay
    then m.tokens[tx.job.token].usedAt.Some?
         && IsWithinGrace(m.tokens[tx.job.token].usedAt.value, tx.now, cfg.graceSeconds)
    else OwnToken(m, t, tx.job.token).Some? && OwnToken(m, t, tx.job.token).value.usedAt == Some(tx.now)
  }

  /** The child is minted: a fresh unused row of the same session, one step down the lineage. */
  predicate Minted(m: Machine, t: TxId, tx: Tx, sid: SessionId, child: TokenId) {
    && tx.job.Rotate?
    && OwnToken(m, t, child).Some?
    && OwnToken(m, t, child).value.sessionId == sid
    && OwnToken(m, t, child).value.usedAt.None? && OwnToken(m, t, child).value.revokedAt.None?
    && child in m.born && tx.job.token in m.born
    && m.born[child] == Birth(sid, m.born[tx.job.token].lineage + [child], t)
  }

  predicate RotationLive(m: Machine, tx: Tx, sid: SessionId) {
    && tx.job.Rotate?
    && tx.job.token in m.tokens && m.tokens[tx.job.token].sessionId == sid
    && sid in m.sessions
    && tx.now < m.tokens[tx.job.token].expiresAt
    && tx.now < m.sessions[sid].expiresAt
  }

  /** A reuse verdict rests on a committed usedAt beyond the grace, or on a row deleted since it was unexpired. */
  predicate ReuseFacts(cfg: SessionConfig, m: Machine, tx: Tx, sid: SessionId, usedAt: Option<Time>) {
    && tx.job.Rotate?
    && tx.job.token in m.tokens && m.tokens[tx.job.token].sessionId == sid && tx.now < m.tokens[tx.job.token].expiresAt
    && sid in m.sessions
    && (if usedAt.Some?
        then m.tokens[tx.job.token].usedAt == usedAt && !IsWithinGrace(usedAt.value, tx.now, cfg.graceSeconds)
        else tx.job.token in m.gone)
  }

  predicate FollowOk(cfg: SessionConfig, m: Machine, tx: Tx, follow: Then) {
    match follow
    case Finish(Reused(sid, usedAt)) => ReuseFacts(cfg, m, tx, sid, usedAt)
    case Finish(result) => result.Rejected? || result.SessionsRevoked?
    case InsertTheSession => tx.job.Login?
    case RetireOwn(sid, expiresAt) => LivesUntil(m, tx, sid, expiresAt)
    case Reissue(sid, expiresAt) => LivesUntil(m, tx, sid, expiresAt)
  }

  predicate LivesUntil(m: Machine, tx: Tx, sid: SessionId, expiresAt: Time) {
    sid in m.sessions && m.sessions[sid].expiresAt == expiresAt && tx.now < expiresAt
  }

  /** The session that a reuse verdict condemns is among the revoked ones. */
  predicate Condemned(tx: Tx, follow: Then) {
    match follow
    case Finish(Reused(sid, _)) => sid in tx.targets
    case _ => true
  }

  ghost predicate ResultOk(cfg: SessionConfig, m: Machine, t: TxId, tx: Tx, result: Result) {
    match result
    case Rotated(sid, child, graceReplay) =>
      RotationLive(m, tx, sid) && Used(cfg, m, t, tx, graceReplay) && Minted(m, t, tx, sid, child)
    case Reused(sid, usedAt) => sid in tx.targets && ReuseFacts(cfg, m, tx, sid, usedAt)
    case _ => true
  }

  ghost predicate PcOk(cfg: SessionConfig, m: Machine, t: TxId, tx: Tx) {
    match tx.pc
    case ReadToken => tx.job.Rotate? && Untouched(tx) && NoOwnSessions(m, t) && NoOwnTokens(m, t)
    case ReadSession(tok) => TokenRead(m, tx, tok) && Untouched(tx) && NoOwnSessions(m, t) && NoOwnTokens(m, t)
    case Consume(tok, ses) => Accepting(m, tx, tok, ses) && Untouched(tx) && NoOwnSessions(m, t) && NoOwnTokens(m, t)
    case ReadWinner(tok, ses) =>
      Accepting(m, tx, tok, ses) && Untouched(tx) && NoOwnSessions(m, t) && NoOwnTokens(m, t)
      && (tx.job.token in m.gone || m.tokens[tx.job.token].usedAt.Some?)
    case Mint(tok, ses, graceReplay) =>
      Accepting(m, tx, tok, ses) && Untouched(tx) && NoOwnSessions(m, t) && Used(cfg, m, t, tx, graceReplay)
    case Touch(sid, child, graceReplay) =>
      Untouched(tx) && NoOwnSessions(m, t) && ResultOk(cfg, m, t, tx, Rotated(sid, child, graceReplay))
    case CheckSession => Untouched(tx) && NoOwnSessions(m, t) && NoOwnTokens(m, t)
    case ReadActive => tx.job.Login? && Untouched(tx) && NoOwnSessions(m, t) && NoOwnTokens(m, t)
    case FindSessions(where, _, follow) =>
      && Untouched(tx) && NoOwnSessions(m, t) && NoOwnTokens(m, t) && FollowOk(cfg, m, tx, follow)
      && (follow.Finish? && follow.result.Reused? ==>
            Matches(where, follow.result.session, m.sessions[follow.result.session]))
    case RevokeRows(rows, _, follow) =>
      rows <= tx.ids && Handled(m, t, tx, rows) && FollowOk(cfg, m, tx, follow) && Condemned(tx, follow)
    case SelectTokens(_, follow) => Handled(m, t, tx, {}) && FollowOk(cfg, m, tx, follow) && Condemned(tx, follow)
    case RetireRows(_, follow) => Handled(m, t, tx, {}) && FollowOk(cfg, m, tx, follow) && Condemned(tx, follow)
    case InsertSession => tx.job.Login? && Handled(m, t, tx, {})
    case InsertToken(sid, expiresAt, _) =>
      && Handled(m, t, tx, {}) && tx.now < expiresAt
      && SeeSession(m, t, sid).Some? && SeeSession(m, t, sid).value.expiresAt == expiresAt
    case Ready(result) => Handled(m, t, tx, {}) && ResultOk(cfg, m, t, tx, result)
  }

  predicate IsReading(pc: Pc) {
    pc.ReadToken? || pc.ReadSession? || pc.Consume? || pc.ReadWinner? || pc.CheckSession? || pc.ReadActive?
      || pc.FindSessions?
  }

  predicate IsRotating(pc: Pc) {
    pc.Mint? || pc.Touch?
  }

  /** What is seen stays seen, and stays revoked. */
  lemma SeenStaysRevoked(m: Machine, m': Machine, t: TxId, s: SessionId)
    requires Evolves(m, m') && SameOwn(m, m', t) && SeesRevoked(m, t, s)
    ensures SeesRevoked(m', t, s)
  {
  }

  lemma HandledIsStable(m: Machine, m': Machine, t: TxId, tx: Tx, rest: set<SessionId>)
    requires Evolves(m, m') && SameOwn(m, m', t) && Handled(m, t, tx, rest)
    ensures Handled(m', t, tx, rest)
  {
    forall s | s in tx.targets && s !in rest ensures SeesRevoked(m', t, s) {
      SeenStaysRevoked(m, m', t, s);
    }
  }

  lemma FollowIsStable(cfg: SessionConfig, m: Machine, m': Machine, tx: Tx, follow: Then)
    requires Evolves(m, m') && FollowOk(cfg, m, tx, follow)
    ensures FollowOk(cfg, m', tx, follow)
  {
  }

  lemma ResultIsStable(cfg: SessionConfig, m: Machine, m': Machine, t: TxId, tx: Tx, result: Result)
    requires Evolves(m, m') && SameOwn(m, m', t) && ResultOk(cfg, m, t, tx, result)
    ensures ResultOk(cfg, m', t, tx, result)
  {
  }

  lemma ReadingIsStable(cfg: SessionConfig, m: Machine, m': Machine, t: TxId, tx: Tx)
    requires Evolves(m, m') && SameOwn(m, m', t) && PcOk(cfg, m, t, tx) && IsReading(tx.pc)
    ensures PcOk(cfg, m', t, tx)
  {
    if tx.pc.FindSessions? {
      FollowIsStable(cfg, m, m', tx, tx.pc.follow);
    }
  }

  lemma RotatingIsStable(cfg: SessionConfig, m: Machine, m': Machine, t: TxId, tx: Tx)
    requires Evolves(m, m') && SameOwn(m, m', t) && PcOk(cfg, m, t, tx) && IsRotating(tx.pc)
    ensures PcOk(cfg, m', t, tx)
  {
    if tx.pc.Touch? {
      ResultIsStable(cfg, m, m', t, tx, Rotated(tx.pc.session, tx.pc.child, tx.pc.graceReplay));
    }
  }

  lemma RevokingIsStable(cfg: SessionConfig, m: Machine, m': Machine, t: TxId, tx: Tx)
    requires Evolves(m, m') && SameOwn(m, m', t) && PcOk(cfg, m, t, tx)
    requires tx.pc.RevokeRows? || tx.pc.SelectTokens? || tx.pc.RetireRows?
    ensures PcOk(cfg, m', t, tx)
  {
    HandledIsStable(m, m', t, tx, if tx.pc.RevokeRows? then tx.pc.rows else {});
    FollowIsStable(cfg, m, m', tx, tx.pc.follow);
  }

  lemma FinishingIsStable(cfg: SessionConfig, m: Machine, m': Machine, t: TxId, tx: Tx)
    requires Evolves(m, m') && SameOwn(m, m', t) && PcOk(cfg, m, t, tx)
    requires tx.pc.InsertSession? || tx.pc.InsertToken? || tx.pc.Ready?
    ensures PcOk(cfg, m', t, tx)
  {
    HandledIsStable(m, m', t, tx, {});
    if tx.pc.Ready? {
      ResultIsStable(cfg, m, m', t, tx, tx.pc.result);
    }
  }

  /** No step of another transaction falsifies an assertion. */
  lemma AssertionsAreStable(cfg: SessionConfig, m: Machine, m': Machine, t: TxId, tx: Tx)
    requires Evolves(m, m') && SameOwn(m, m', t) && PcOk(cfg, m, t, tx)
    ensures PcOk(cfg, m', t, tx)
  {
    if IsReading(tx.pc) {
      ReadingIsStable(cfg, m, m', t, tx);
    } else if IsRotating(tx.pc) {
      RotatingIsStable(cfg, m, m', t, tx);
    } else if tx.pc.RevokeRows? || tx.pc.SelectTokens? || tx.pc.RetireRows? {
      RevokingIsStable(cfg, m, m', t, tx);
    } else {
      FinishingIsStable(cfg, m, m', t, tx);
    }
  }

  lemma EffectLeavesOthers(m: Machine, o: TxId, e: Effect, t: TxId)
    requires Struct(m) && o in m.txs && t in m.txs && o != t && !e.Wait? && EffectOk(m, o, m.txs[o], e)
    ensures var m' := ApplyEffect(m, o, m.txs[o], e); t in m'.txs && m'.txs[t] == m.txs[t] && SameOwn(m, m', t)
  {
    var m' := ApplyEffect(m, o, m.txs[o], e);
    forall s ensures OwnSession(m', t, s) == OwnSession(m, t, s) {
      assert s in m.dirtySessions ==> DirtySessionOk(m, s);
    }
    forall k ensures OwnToken(m', t, k) == OwnToken(m, t, k) {
      assert k in m.dirtyTokens ==> DirtyTokenOk(m, k);
    }
  }

  lemma EndLeavesOthers(m: Machine, o: TxId, t: TxId)
    requires t in m.txs && o != t
    ensures var m' := Release(m, o); t in m'.txs && m'.txs[t] == m.txs[t] && SameOwn(m, m', t)
  {
  }

  lemma StepLeavesOthers(cfg: SessionConfig, m: Machine, l: Label, t: TxId)
    requires cfg.Valid() && Struct(m) && Enabled(cfg, m, l) && t in m.txs
    requires !(l.Execute? && l.t == t) && !(l.Commit? && l.t == t) && !(l.Abort? && l.t == t)
    ensures var m' := Step(cfg, m, l); t in m'.txs && m'.txs[t] == m.txs[t] && SameOwn(m, m', t)
  {
    match l
    case Execute(o, ch) =>
      StatementEffect(cfg, m, o, ch);
      EffectLeavesOthers(m, o, Statement(cfg, m, o, m.txs[o], ch), t);
    case Commit(o) =>
      EndLeavesOthers(m, o, t);
      assert SameOwn(Release(m, o), CommitTx(m, o), t);
    case Abort(o) => EndLeavesOthers(m, o, t);
    case _ =>
  }
}
