/**
 * The two models of the session service agree: a transaction of ReadCommitted whose statements run with
 * no other transaction in flight commits exactly what AuthDb says the whole transaction does.
 */
module RunningAlone {
  import opened AuthModel
  import opened ReadCommitted
  import Whole = AuthDb

  /** The choices the environment makes along one transaction. */
  datatype Plan = Plan(active: bool, sid: SessionId, tid: TokenId, family: FamilyId, order: seq<SessionId>)

  /** What a transaction leaves: the tables as it sees them, and its result. */
  datatype End = End(sessions: map<SessionId, Session>, tokens: map<TokenId, RefreshToken>, result: Result)

  /** The tokens table as `t` sees it. */
  function TokenTable(m: Machine, t: TxId): map<TokenId, RefreshToken> {
    map k | k in m.tokens.Keys + m.dirtyTokens.Keys && SeeToken(m, t, k).Some? :: SeeToken(m, t, k).value
  }

  // ----- what remains to be done, as a function of the tables -----

  function RetireThese(tokens: map<TokenId, RefreshToken>, todo: set<TokenId>, now: Time): map<TokenId, RefreshToken> {
    map k | k in tokens ::
      if k in todo && tokens[k].revokedAt.None? then tokens[k].(revokedAt := Some(now)) else tokens[k]
  }

  function Issue(cfg: SessionConfig, plan: Plan, now: Time, e: End, sid: SessionId, expiresAt: Time): End {
    e.(tokens := e.tokens[plan.tid := NewRefreshToken(sid, expiresAt, now, cfg)])
  }

  function Insert(cfg: SessionConfig, plan: Plan, tx: Tx, e: End): End {
    if !tx.job.Login? then e
    else
      var s := NewSession(tx.job.user, plan.family, tx.now, cfg);
      Issue(cfg, plan, tx.now, e.(sessions := e.sessions[plan.sid := s], result := LoggedIn(plan.sid, plan.tid)),
            plan.sid, s.expiresAt)
  }

  function Follow(cfg: SessionConfig, plan: Plan, tx: Tx, e: End, follow: Then): End {
    match follow
    case Finish(result) => e.(result := result)
    case InsertTheSession => Insert(cfg, plan, tx, e)
    case RetireOwn(sid, expiresAt) =>
      Issue(cfg, plan, tx.now, e.(tokens := Whole.Retire(e.tokens, {sid}, tx.now), result := Reissued(plan.tid)), sid,
            expiresAt)
    case Reissue(sid, expiresAt) => Issue(cfg, plan, tx.now, e.(result := Reissued(plan.tid)), sid, expiresAt)
  }

  function Revoked(e: End, where: Where, reason: RevocationReason, now: Time): End {
    var ids := Whole.Selected(e.sessions, where);
    e.(sessions := Whole.MarkRevoked(e.sessions, ids, reason, now), tokens := Whole.Retire(e.tokens, ids, now))
  }

  function Touched(e: End, sid: SessionId, now: Time): End {
    if sid !in e.sessions then e else e.(sessions := e.sessions[sid := e.sessions[sid].(lastUsedAt := now)])
  }

  function Minted(
      cfg: SessionConfig, plan: Plan, tx: Tx, e: End, tok: RefreshToken, ses: Session, graceReplay: bool): End {
    Touched(Issue(cfg, plan, tx.now, e, tok.sessionId, ses.expiresAt), tok.sessionId, tx.now)
      .(result := Rotated(tok.sessionId, plan.tid, graceReplay))
  }

  function Used(e: End, tx: Tx): End {
    if tx.job.Rotate? && tx.job.token in e.tokens
    then e.(tokens := e.tokens[tx.job.token := e.tokens[tx.job.token].(usedAt := Some(tx.now))]) else e
  }

  /** The rest of a transaction that has finished its first reads. */
  function Rest(cfg: SessionConfig, plan: Plan, tx: Tx, e: End, pc: Pc): End {
    match pc
    case Consume(tok, ses) => Minted(cfg, plan, tx, Used(e, tx), tok, ses, false)
    case Mint(tok, ses, graceReplay) => Minted(cfg, plan, tx, e, tok, ses, graceReplay)
    case Touch(sid, child, graceReplay) => Touched(e, sid, tx.now).(result := Rotated(sid, child, graceReplay))
    case FindSessions(where, reason, follow) => Follow(cfg, plan, tx, Revoked(e, where, reason, tx.now), follow)
    case RevokeRows(rows, reason, follow) =>
      Follow(cfg, plan, tx, e.(sessions := Whole.MarkRevoked(e.sessions, rows, reason, tx.now),
                               tokens := Whole.Retire(e.tokens, tx.ids, tx.now)), follow)
    case SelectTokens(of, follow) => Follow(cfg, plan, tx, e.(tokens := Whole.Retire(e.tokens, of, tx.now)), follow)
    case RetireRows(todo, follow) => Follow(cfg, plan, tx, e.(tokens := RetireThese(e.tokens, todo, tx.now)), follow)
    case InsertSession => Insert(cfg, plan, tx, e)
    case InsertToken(sid, expiresAt, login) =>
      Issue(cfg, plan, tx.now, e, sid, expiresAt).(result := if login then LoggedIn(sid, plan.tid)
                                                   else Reissued(plan.tid))
    case Ready(result) => e.(result := result)
    case _ => e
  }

  function RestOfSession(cfg: SessionConfig, plan: Plan, tx: Tx, e: End, tok: RefreshToken): End {
    if tok.sessionId !in e.sessions then e
    else Rest(cfg, plan, tx, e, Decide(cfg, tok, e.sessions[tok.sessionId], plan.active, tx.now))
  }

  /** Everything that a transaction at its next statement still does. */
  function Future(cfg: SessionConfig, plan: Plan, tx: Tx, e: End): End
    requires cfg.Valid()
  {
    match tx.pc
    case ReadToken =>
      if !tx.job.Rotate? then e
      else if tx.job.token !in e.tokens then e.(result := Rejected(TokenNotFound))
      else RestOfSession(cfg, plan, tx, e, e.tokens[tx.job.token])
    case ReadSession(tok) => RestOfSession(cfg, plan, tx, e, tok)
    case CheckSession =>
      if !tx.job.ChangePassword? then e
      else
        var row := if tx.job.session in e.sessions then Some(e.sessions[tx.job.session]) else None;
        Rest(cfg, plan, tx, e, CheckPasswordChange(tx.job.user, tx.job.session, row, plan.active, tx.now))
    case ReadActive =>
      Rest(cfg, plan, tx, e,
           if EvictCount(|plan.order|, cfg) > 0
           then FindSessions(Among(Evicted(plan.order, cfg)), SESSION_LIMIT, InsertTheSession) else InsertSession)
    case _ => Rest(cfg, plan, tx, e, tx.pc)
  }

  // ----- running alone -----

  /** Only `t` has written anything, and what it read is still there. */
  ghost predicate Alone(plan: Plan, m: Machine, t: TxId) {
    && t in m.txs && plan.tid !in m.gone
    && (forall s :: s in m.dirtySessions ==> m.dirtySessions[s].owner == t)
    && (forall k :: k in m.dirtyTokens ==> m.dirtyTokens[k].owner == t)
    && ReadsHold(m, t, m.txs[t])
  }

  ghost predicate ReadsHold(m: Machine, t: TxId, tx: Tx) {
    match tx.pc
    case ReadSession(tok) => tx.job.Rotate? && SeeToken(m, t, tx.job.token) == Some(tok)
    case Consume(tok, _) => tx.job.Rotate? && SeeToken(m, t, tx.job.token) == Some(tok) && tok.usedAt.None?
    case ReadWinner(_, _) => false
    case RevokeRows(rows, _, _) => rows <= SessionTable(m, t).Keys
    case _ => true
  }

  predicate FollowsPlan(plan: Plan, pc: Pc, ch: Choice) {
    && ch.active == plan.active
    && (pc.ReadActive? ==> ch.order == plan.order)
    && (pc.InsertSession? ==> ch.sid == plan.sid && ch.family == plan.family)
    && (pc.Mint? || pc.InsertToken? ==> ch.tid == plan.tid)
  }

  /** What `t` would leave behind if it stopped here. */
  function SoFar(m: Machine, t: TxId): End {
    End(SessionTable(m, t), TokenTable(m, t), SessionsRevoked)
  }

  ghost predicate StepsAlone(cfg: SessionConfig, plan: Plan, m: Machine, t: TxId, ch: Choice, m': Machine)
    requires cfg.Valid()
  {
    && Alone(plan, m, t) && FollowsPlan(plan, m.txs[t].pc, ch)
    && !Statement(cfg, m, t, m.txs[t], ch).Wait?
    && m' == ApplyEffect(m, t, m.txs[t], Statement(cfg, m, t, m.txs[t], ch))
  }

  lemma SameTokensSeen(m: Machine, m': Machine, t: TxId)
    requires m'.tokens == m.tokens && m'.dirtyTokens == m.dirtyTokens && m'.gone == m.gone
    ensures TokenTable(m', t) == TokenTable(m, t)
  {
    assert forall k :: SeeToken(m', t, k) == SeeToken(m, t, k);
  }

  lemma SameSessionsSeen(m: Machine, m': Machine, t: TxId)
    requires m'.sessions == m.sessions && m'.dirtySessions == m.dirtySessions
    ensures SessionTable(m', t) == SessionTable(m, t)
  {
    assert forall s :: SeeSession(m', t, s) == SeeSession(m, t, s);
  }

  lemma PutSessionShows(m: Machine, m': Machine, t: TxId, sid: SessionId, row: Session)
    requires m'.sessions == m.sessions && m'.dirtySessions == m.dirtySessions[sid := ReadCommitted.Dirty(t, row)]
    ensures SessionTable(m', t) == SessionTable(m, t)[sid := row]
  {
    assert forall s :: s != sid ==> SeeSession(m', t, s) == SeeSession(m, t, s);
    assert SeeSession(m', t, sid) == Some(row);
  }

  lemma PutTokenShows(m: Machine, m': Machine, t: TxId, k: TokenId, row: RefreshToken)
    requires k !in m.gone && m'.gone == m.gone
    requires m'.tokens == m.tokens && m'.dirtyTokens == m.dirtyTokens[k := ReadCommitted.Dirty(t, row)]
    ensures TokenTable(m', t) == TokenTable(m, t)[k := row]
  {
    assert forall o :: o != k ==> SeeToken(m', t, o) == SeeToken(m, t, o);
    assert SeeToken(m', t, k) == Some(row);
  }

  lemma MarkOne(
      sessions: map<SessionId, Session>, rows: set<SessionId>, sid: SessionId, reason: RevocationReason, now: Time)
    requires sid in rows && sid in sessions
    ensures Whole.MarkRevoked(sessions[sid := sessions[sid].(revokedAt := Some(now), reason := Some(reason))],
                              rows - {sid}, reason, now)
              == Whole.MarkRevoked(sessions, rows, reason, now)
  {
  }

  lemma RetireOne(tokens: map<TokenId, RefreshToken>, todo: set<TokenId>, k: TokenId, now: Time)
    requires k in todo
    ensures RetireThese(tokens, todo - {k}, now) == RetireThese(tokens, todo, now)
              || (k in tokens && tokens[k].revokedAt.None?)
    ensures k in tokens && tokens[k].revokedAt.None? ==>
      RetireThese(tokens[k := tokens[k].(revokedAt := Some(now))], todo - {k}, now) == RetireThese(tokens, todo, now)
  {
  }

  lemma AfterIsFollow(cfg: SessionConfig, plan: Plan, tx: Tx, e: End, follow: Then)
    ensures Rest(cfg, plan, tx, e, After(follow)) == Follow(cfg, plan, tx, e, follow)
  {
  }

  // ----- every statement leaves the future as it was -----

  ghost predicate SameFuture(cfg: SessionConfig, plan: Plan, m: Machine, t: TxId, m': Machine)
    requires cfg.Valid()
  {
    && t in m.txs && t in m'.txs
    && Future(cfg, plan, m'.txs[t], SoFar(m', t)) == Future(cfg, plan, m.txs[t], SoFar(m, t))
    && Alone(plan, m', t)
  }

  /** A statement that writes no row changes nothing that `t` would leave behind. */
  lemma LocalStepShows(plan: Plan, m: Machine, m': Machine, t: TxId)
    requires Alone(plan, m, t) && t in m'.txs && ReadsHold(m', t, m'.txs[t])
    requires m'.sessions == m.sessions && m'.tokens == m.tokens && m'.gone == m.gone
    requires m'.dirtySessions == m.dirtySessions && m'.dirtyTokens == m.dirtyTokens
    ensures SoFar(m', t) == SoFar(m, t) && Alone(plan, m', t)
  {
    SameTokensSeen(m, m', t);
    SameSessionsSeen(m, m', t);
  }

  /** A statement that writes a session row shows in the sessions table, and nowhere else. */
  lemma SessionStepShows(plan: Plan, m: Machine, m': Machine, t: TxId, sid: SessionId, row: Session)
    requires Alone(plan, m, t) && t in m'.txs
    requires m'.txs[t].pc.Ready? || m'.txs[t].pc.InsertToken? ||
             (m'.txs[t].pc.RevokeRows? && m'.txs[t].pc.rows <= SessionTable(m, t).Keys)
    requires m'.sessions == m.sessions && m'.tokens == m.tokens && m'.gone == m.gone
    requires m'.dirtySessions == m.dirtySessions[sid := ReadCommitted.Dirty(t, row)] && m'.dirtyTokens == m.dirtyTokens
    ensures SoFar(m', t) == SoFar(m, t).(sessions := SessionTable(m, t)[sid := row]) && Alone(plan, m', t)
  {
    SameTokensSeen(m, m', t);
    PutSessionShows(m, m', t, sid, row);
  }

  /** A statement that writes a token row shows in the tokens table, and nowhere else. */
  lemma TokenStepShows(plan: Plan, m: Machine, m': Machine, t: TxId, k: TokenId, row: RefreshToken)
    requires Alone(plan, m, t) && t in m'.txs && k !in m.gone
    requires m'.txs[t].pc.Mint? || m'.txs[t].pc.Touch? || m'.txs[t].pc.RetireRows? || m'.txs[t].pc.Ready?
    requires m'.sessions == m.sessions && m'.tokens == m.tokens && m'.gone == m.gone
    requires m'.dirtySessions == m.dirtySessions && m'.dirtyTokens == m.dirtyTokens[k := ReadCommitted.Dirty(t, row)]
    ensures SoFar(m', t) == SoFar(m, t).(tokens := TokenTable(m, t)[k := row]) && Alone(plan, m', t)
  {
    SameSessionsSeen(m, m', t);
    PutTokenShows(m, m', t, k, row);
  }

  /** A statement that only moves on, to where the future is the same. */
  lemma GoesAlone(cfg: SessionConfig, plan: Plan, m: Machine, t: TxId, pc: Pc, m': Machine)
    requires cfg.Valid() && Alone(plan, m, t) && m' == m.(txs := m.txs[t := m.txs[t].(pc := pc)])
    requires ReadsHold(m, t, m.txs[t].(pc := pc))
    requires Future(cfg, plan, m.txs[t].(pc := pc), SoFar(m, t)) == Future(cfg, plan, m.txs[t], SoFar(m, t))
    ensures SameFuture(cfg, plan, m, t, m')
  {
    SameTokensSeen(m, m', t);
    SameSessionsSeen(m, m', t);
    assert ReadsHold(m', t, m'.txs[t]) by { SameReads(m, m', t, m'.txs[t]); }
  }

  lemma SameReads(m: Machine, m': Machine, t: TxId, tx: Tx)
    requires ReadsHold(m, t, tx) && SessionTable(m', t) == SessionTable(m, t)
    requires m'.tokens == m.tokens && m'.dirtyTokens == m.dirtyTokens && m'.gone == m.gone
    ensures ReadsHold(m', t, tx)
  {
  }

  lemma TableSees(m: Machine, t: TxId, k: TokenId)
    ensures SeeToken(m, t, k) == if k in TokenTable(m, t) then Some(TokenTable(m, t)[k]) else None
  {
  }

  /** Where the first read leads. */
  function AfterRead(tx: Tx, row: Option<RefreshToken>): Pc {
    if row.Some? then ReadSession(row.value) else Ready(Rejected(TokenNotFound))
  }

  lemma ReadFuture(cfg: SessionConfig, plan: Plan, tx: Tx, e: End)
    requires cfg.Valid() && tx.pc.ReadToken? && tx.job.Rotate?
    ensures var row := if tx.job.token in e.tokens then Some(e.tokens[tx.job.token]) else None;
      Future(cfg, plan, tx.(pc := AfterRead(tx, row)), e) == Future(cfg, plan, tx, e)
  {
  }

  lemma ReadStep(cfg: SessionConfig, plan: Plan, m: Machine, t: TxId, ch: Choice, m': Machine)
    requires cfg.Valid() && StepsAlone(cfg, plan, m, t, ch, m') && m.txs[t].pc.ReadToken?
    ensures m.txs[t].job.Rotate?
    ensures m' == m.(txs := m.txs[t := m.txs[t].(pc := AfterRead(m.txs[t], SeeToken(m, t, m.txs[t].job.token)))])
  {
  }

  lemma ReadsAlone(cfg: SessionConfig, plan: Plan, m: Machine, t: TxId, ch: Choice, m': Machine)
    requires cfg.Valid() && StepsAlone(cfg, plan, m, t, ch, m') && m.txs[t].pc.ReadToken?
    ensures SameFuture(cfg, plan, m, t, m')
  {
    ReadStep(cfg, plan, m, t, ch, m');
    TableSees(m, t, m.txs[t].job.token);
    ReadFuture(cfg, plan, m.txs[t], SoFar(m, t));
    GoesAlone(cfg, plan, m, t, AfterRead(m.txs[t], SeeToken(m, t, m.txs[t].job.token)), m');
  }

  lemma ChecksAlone(cfg: SessionConfig, plan: Plan, m: Machine, t: TxId, ch: Choice, m': Machine)
    requires cfg.Valid() && StepsAlone(cfg, plan, m, t, ch, m') && m.txs[t].pc.CheckSession?
    ensures SameFuture(cfg, plan, m, t, m')
  {
    LocalStepShows(plan, m, m', t);
  }

  lemma ListsAlone(cfg: SessionConfig, plan: Plan, m: Machine, t: TxId, ch: Choice, m': Machine)
    requires cfg.Valid() && StepsAlone(cfg, plan, m, t, ch, m') && m.txs[t].pc.ReadActive?
    ensures SameFuture(cfg, plan, m, t, m')
  {
    LocalStepShows(plan, m, m', t);
  }

  lemma DecisionShape(cfg: SessionConfig, tok: RefreshToken, ses: Session, userActive: bool, now: Time)
    ensures var pc := Decide(cfg, tok, ses, userActive, now);
      || pc.Ready? || pc.FindSessions? || pc.Mint?
      || (pc == Consume(tok, ses) && tok.usedAt.None?)
  {
  }

  lemma DecisionStep(cfg: SessionConfig, plan: Plan, m: Machine, t: TxId, ch: Choice, m': Machine)
    requires cfg.Valid() && StepsAlone(cfg, plan, m, t, ch, m') && m.txs[t].pc.ReadSession?
    ensures var tok := m.txs[t].pc.tok; var seen := SeeSession(m, t, tok.sessionId);
      && seen.Some?
      && m' == m.(txs := m.txs[t := m.txs[t].(pc := Decide(cfg, tok, seen.value, plan.active, m.txs[t].now))])
  {
  }

  /** The decision is the one that the whole rotation would take on what it sees. */
  lemma DecidedFuture(cfg: SessionConfig, plan: Plan, tx: Tx, tok: RefreshToken, e: End)
    requires cfg.Valid() && tx.pc == ReadSession(tok) && tok.sessionId in e.sessions
    ensures var pc := Decide(cfg, tok, e.sessions[tok.sessionId], plan.active, tx.now);
      Future(cfg, plan, tx.(pc := pc), e) == Future(cfg, plan, tx, e)
  {
    DecisionShape(cfg, tok, e.sessions[tok.sessionId], plan.active, tx.now);
  }

  lemma DecidesAlone(cfg: SessionConfig, plan: Plan, m: Machine, t: TxId, ch: Choice, m': Machine)
    requires cfg.Valid() && StepsAlone(cfg, plan, m, t, ch, m') && m.txs[t].pc.ReadSession?
    ensures SameFuture(cfg, plan, m, t, m')
  {
    DecisionStep(cfg, plan, m, t, ch, m');
    var tok := m.txs[t].pc.tok;
    var ses := SeeSession(m, t, tok.sessionId).value;
    assert SoFar(m, t).sessions[tok.sessionId] == ses;
    DecidedFuture(cfg, plan, m.txs[t], tok, SoFar(m, t));
    DecisionShape(cfg, tok, ses, plan.active, m.txs[t].now);
    GoesAlone(cfg, plan, m, t, Decide(cfg, tok, ses, plan.active, m.txs[t].now), m');
  }

  lemma ConsumesAlone(cfg: SessionConfig, plan: Plan, m: Machine, t: TxId, ch: Choice, m': Machine)
    requires cfg.Valid() && StepsAlone(cfg, plan, m, t, ch, m') && m.txs[t].pc.Consume?
    ensures SameFuture(cfg, plan, m, t, m')
  {
    var k := m.txs[t].job.token;
    TokenStepShows(plan, m, m', t, k, SeeToken(m, t, k).value.(usedAt := Some(m.txs[t].now)));
  }

  lemma MintsAlone(cfg: SessionConfig, plan: Plan, m: Machine, t: TxId, ch: Choice, m': Machine)
    requires cfg.Valid() && StepsAlone(cfg, plan, m, t, ch, m') && m.txs[t].pc.Mint?
    ensures SameFuture(cfg, plan, m, t, m')
  {
    var tx := m.txs[t];
    TokenStepShows(plan, m, m', t, plan.tid, NewRefreshToken(tx.pc.tok.sessionId, tx.pc.ses.expiresAt, tx.now, cfg));
  }

  /** What a statement that puts a token writes. */
  lemma TokenIsPut(m: Machine, t: TxId, e: Effect, m': Machine)
    requires t in m.txs && e.PutToken? && m' == ApplyEffect(m, t, m.txs[t], e)
    ensures t in m'.txs && m'.txs[t] == m.txs[t].(pc := e.next)
    ensures m'.sessions == m.sessions && m'.tokens == m.tokens && m'.gone == m.gone
    ensures m'.dirtySessions == m.dirtySessions
    ensures m'.dirtyTokens == m.dirtyTokens[e.tid := ReadCommitted.Dirty(t, e.token)]
  {
  }

  lemma IssueStep(cfg: SessionConfig, plan: Plan, m: Machine, t: TxId, ch: Choice, m': Machine)
    requires cfg.Valid() && StepsAlone(cfg, plan, m, t, ch, m') && m.txs[t].pc.InsertToken?
    ensures var tx := m.txs[t];
      Statement(cfg, m, t, tx, ch)
        == PutToken(plan.tid, NewRefreshToken(tx.pc.session, tx.pc.expiresAt, tx.now, cfg),
                    Ready(if tx.pc.login then LoggedIn(tx.pc.session, plan.tid) else Reissued(plan.tid)))
  {
  }

  lemma IssuesAlone(cfg: SessionConfig, plan: Plan, m: Machine, t: TxId, ch: Choice, m': Machine)
    requires cfg.Valid() && StepsAlone(cfg, plan, m, t, ch, m') && m.txs[t].pc.InsertToken?
    ensures SameFuture(cfg, plan, m, t, m')
  {
    var tx := m.txs[t];
    IssueStep(cfg, plan, m, t, ch, m');
    TokenIsPut(m, t, Statement(cfg, m, t, tx, ch), m');
    TokenStepShows(plan, m, m', t, plan.tid, NewRefreshToken(tx.pc.session, tx.pc.expiresAt, tx.now, cfg));
  }

  lemma TouchesAlone(cfg: SessionConfig, plan: Plan, m: Machine, t: TxId, ch: Choice, m': Machine)
    requires cfg.Valid() && StepsAlone(cfg, plan, m, t, ch, m') && m.txs[t].pc.Touch?
    ensures SameFuture(cfg, plan, m, t, m')
  {
    var sid := m.txs[t].pc.session;
    SessionStepShows(plan, m, m', t, sid, SeeSession(m, t, sid).value.(lastUsedAt := m.txs[t].now));
  }

  lemma InsertsAlone(cfg: SessionConfig, plan: Plan, m: Machine, t: TxId, ch: Choice, m': Machine)
    requires cfg.Valid() && StepsAlone(cfg, plan, m, t, ch, m') && m.txs[t].pc.InsertSession?
    ensures SameFuture(cfg, plan, m, t, m')
  {
    var tx := m.txs[t];
    SessionStepShows(plan, m, m', t, plan.sid, NewSession(tx.job.user, plan.family, tx.now, cfg));
  }

  /** Where the search leads: it writes nothing, and selects what the whole revocation would. */
  lemma SelectionStep(cfg: SessionConfig, plan: Plan, m: Machine, t: TxId, ch: Choice, m': Machine)
    requires cfg.Valid() && StepsAlone(cfg, plan, m, t, ch, m') && m.txs[t].pc.FindSessions?
    ensures m'.sessions == m.sessions && m'.tokens == m.tokens && m'.gone == m.gone
    ensures m'.dirtySessions == m.dirtySessions && m'.dirtyTokens == m.dirtyTokens
    ensures var tx := m.txs[t]; var ids := Whole.Selected(SessionTable(m, t), tx.pc.where);
      && t in m'.txs && m'.txs[t].ids == ids && m'.txs[t].job == tx.job && m'.txs[t].now == tx.now
      && m'.txs[t].pc == (if ids == {} then After(tx.pc.follow) else RevokeRows(ids, tx.pc.reason, tx.pc.follow))
  {
    SelectionStatement(cfg, m, t, ch);
  }

  /** The search in two steps, matching and then leaving out what is over, is the selection in one. */
  lemma SelectionInTwo(table: map<SessionId, Session>, where: Where)
    ensures var targets := set s | s in table && Matches(where, s, table[s]);
      (set s | s in targets && table[s].revokedAt.None?) == Whole.Selected(table, where)
  {
  }

  lemma SelectionStatement(cfg: SessionConfig, m: Machine, t: TxId, ch: Choice)
    requires cfg.Valid() && t in m.txs && m.txs[t].pc.FindSessions?
    ensures var pc := m.txs[t].pc; var ids := Whole.Selected(SessionTable(m, t), pc.where);
      var e := Statement(cfg, m, t, m.txs[t], ch);
      e.Select? && e.ids == ids && e.next == if ids == {} then After(pc.follow)
                                             else RevokeRows(ids, pc.reason, pc.follow)
  {
    SelectionInTwo(SessionTable(m, t), m.txs[t].pc.where);
  }

  /** Revoking the selection, and going on, is the whole revocation. */
  lemma SelectionFuture(cfg: SessionConfig, plan: Plan, tx: Tx, tx': Tx, e: End)
    requires cfg.Valid() && tx.pc.FindSessions? && tx'.job == tx.job && tx'.now == tx.now
    requires tx'.ids == Whole.Selected(e.sessions, tx.pc.where)
    requires tx'.pc == if tx'.ids == {} then After(tx.pc.follow)
                       else RevokeRows(tx'.ids, tx.pc.reason, tx.pc.follow)
    ensures Future(cfg, plan, tx', e) == Future(cfg, plan, tx, e)
  {
    if tx'.ids == {} {
      NothingToRevoke(e, tx.pc.where, tx.pc.reason, tx.now);
      AfterIsFollow(cfg, plan, tx', e, tx.pc.follow);
    }
  }

  lemma SelectsAlone(cfg: SessionConfig, plan: Plan, m: Machine, t: TxId, ch: Choice, m': Machine)
    requires cfg.Valid() && StepsAlone(cfg, plan, m, t, ch, m') && m.txs[t].pc.FindSessions?
    ensures SameFuture(cfg, plan, m, t, m')
  {
    SelectionStep(cfg, plan, m, t, ch, m');
    LocalStepShows(plan, m, m', t);
    SelectionFuture(cfg, plan, m.txs[t], m'.txs[t], SoFar(m, t));
  }

  lemma NothingToRevoke(e: End, where: Where, reason: RevocationReason, now: Time)
    requires Whole.Selected(e.sessions, where) == {}
    ensures Revoked(e, where, reason, now) == e
  {
    assert Whole.MarkRevoked(e.sessions, {}, reason, now) == e.sessions;
    assert Whole.Retire(e.tokens, {}, now) == e.tokens;
  }

  lemma RevokesAlone(cfg: SessionConfig, plan: Plan, m: Machine, t: TxId, ch: Choice, m': Machine)
    requires cfg.Valid() && StepsAlone(cfg, plan, m, t, ch, m') && m.txs[t].pc.RevokeRows? && m.txs[t].pc.rows != {}
    ensures SameFuture(cfg, plan, m, t, m')
  {
    var tx := m.txs[t];
    var row := SeeSession(m, t, ch.sid).value;
    SessionStepShows(plan, m, m', t, ch.sid, row.(revokedAt := Some(tx.now), reason := Some(tx.pc.reason)));
    MarkOne(SessionTable(m, t), tx.pc.rows, ch.sid, tx.pc.reason, tx.now);
  }

  lemma FinishesRevoking(cfg: SessionConfig, plan: Plan, m: Machine, t: TxId, ch: Choice, m': Machine)
    requires cfg.Valid() && StepsAlone(cfg, plan, m, t, ch, m') && m.txs[t].pc.RevokeRows? && m.txs[t].pc.rows == {}
    ensures SameFuture(cfg, plan, m, t, m')
  {
    LocalStepShows(plan, m, m', t);
    assert Whole.MarkRevoked(SessionTable(m, t), {}, m.txs[t].pc.reason, m.txs[t].now) == SessionTable(m, t);
  }

  lemma SelectsTokensAlone(cfg: SessionConfig, plan: Plan, m: Machine, t: TxId, ch: Choice, m': Machine)
    requires cfg.Valid() && StepsAlone(cfg, plan, m, t, ch, m') && m.txs[t].pc.SelectTokens?
    ensures SameFuture(cfg, plan, m, t, m')
  {
    var tx := m.txs[t];
    LocalStepShows(plan, m, m', t);
    assert RetireThese(TokenTable(m, t), LiveTokensOf(m, t, tx.pc.of), tx.now)
      == Whole.Retire(TokenTable(m, t), tx.pc.of, tx.now);
  }

  lemma FinishesRetiring(cfg: SessionConfig, plan: Plan, m: Machine, t: TxId, ch: Choice, m': Machine)
    requires cfg.Valid() && StepsAlone(cfg, plan, m, t, ch, m') && m.txs[t].pc.RetireRows? && m.txs[t].pc.todo == {}
    ensures SameFuture(cfg, plan, m, t, m')
  {
    LocalStepShows(plan, m, m', t);
    assert RetireThese(TokenTable(m, t), {}, m.txs[t].now) == TokenTable(m, t);
    AfterIsFollow(cfg, plan, m'.txs[t], SoFar(m, t), m.txs[t].pc.follow);
  }

  lemma SkipsRetired(cfg: SessionConfig, plan: Plan, m: Machine, t: TxId, ch: Choice, m': Machine)
    requires cfg.Valid() && StepsAlone(cfg, plan, m, t, ch, m') && m.txs[t].pc.RetireRows? && m.txs[t].pc.todo != {}
    requires SeeToken(m, t, ch.tid).None? || SeeToken(m, t, ch.tid).value.revokedAt.Some?
    ensures SameFuture(cfg, plan, m, t, m')
  {
    LocalStepShows(plan, m, m', t);
    RetireOne(TokenTable(m, t), m.txs[t].pc.todo, ch.tid, m.txs[t].now);
  }

  /** `m` with the token row that `t` retires, and the rest of the rows still to visit. */
  function RetiredRow(m: Machine, t: TxId, k: TokenId, row: RefreshToken): Machine
    requires t in m.txs && m.txs[t].pc.RetireRows?
  {
    var tx := m.txs[t];
    m.(txs := m.txs[t := tx.(pc := RetireRows(tx.pc.todo - {k}, tx.pc.follow))],
       dirtyTokens := m.dirtyTokens[k := ReadCommitted.Dirty(t, row)])
  }

  lemma RetiringStep(cfg: SessionConfig, plan: Plan, m: Machine, t: TxId, ch: Choice, m': Machine)
    requires cfg.Valid() && StepsAlone(cfg, plan, m, t, ch, m') && m.txs[t].pc.RetireRows? && m.txs[t].pc.todo != {}
    requires SeeToken(m, t, ch.tid).Some? && SeeToken(m, t, ch.tid).value.revokedAt.None?
    ensures ch.tid in m.txs[t].pc.todo && m'.sessions == m.sessions && m'.tokens == m.tokens && m'.gone == m.gone
    ensures var m1 := RetiredRow(m, t, ch.tid, SeeToken(m, t, ch.tid).value.(revokedAt := Some(m.txs[t].now)));
      m'.txs == m1.txs && m'.dirtyTokens == m1.dirtyTokens && m'.dirtySessions == m1.dirtySessions
  {
    RetiringStatement(cfg, plan, m, t, ch, m');
  }

  lemma RetiringStatement(cfg: SessionConfig, plan: Plan, m: Machine, t: TxId, ch: Choice, m': Machine)
    requires cfg.Valid() && StepsAlone(cfg, plan, m, t, ch, m') && m.txs[t].pc.RetireRows? && m.txs[t].pc.todo != {}
    requires SeeToken(m, t, ch.tid).Some? && SeeToken(m, t, ch.tid).value.revokedAt.None?
    ensures ch.tid in m.txs[t].pc.todo
    ensures var tx := m.txs[t];
      Statement(cfg, m, t, tx, ch) == PutToken(ch.tid, SeeToken(m, t, ch.tid).value.(revokedAt := Some(tx.now)),
                                               RetireRows(tx.pc.todo - {ch.tid}, tx.pc.follow))
  {
  }

  /** Retiring one row, and the rest later, is retiring them all. */
  lemma RetiredFuture(cfg: SessionConfig, plan: Plan, tx: Tx, e: End, k: TokenId)
    requires cfg.Valid() && tx.pc.RetireRows? && k in tx.pc.todo && k in e.tokens && e.tokens[k].revokedAt.None?
    ensures var rest := tx.(pc := RetireRows(tx.pc.todo - {k}, tx.pc.follow));
      Future(cfg, plan, rest, e.(tokens := e.tokens[k := e.tokens[k].(revokedAt := Some(tx.now))]))
        == Future(cfg, plan, tx, e)
  {
    RetireOne(e.tokens, tx.pc.todo, k, tx.now);
  }

  lemma RetiresAlone(cfg: SessionConfig, plan: Plan, m: Machine, t: TxId, ch: Choice, m': Machine)
    requires cfg.Valid() && StepsAlone(cfg, plan, m, t, ch, m') && m.txs[t].pc.RetireRows? && m.txs[t].pc.todo != {}
    requires SeeToken(m, t, ch.tid).Some? && SeeToken(m, t, ch.tid).value.revokedAt.None?
    ensures SameFuture(cfg, plan, m, t, m')
  {
    RetiringStep(cfg, plan, m, t, ch, m');
    TokenStepShows(plan, m, m', t, ch.tid, SeeToken(m, t, ch.tid).value.(revokedAt := Some(m.txs[t].now)));
    TableSees(m, t, ch.tid);
    RetiredFuture(cfg, plan, m.txs[t], SoFar(m, t), ch.tid);
  }

  lemma StepAlone(cfg: SessionConfig, plan: Plan, m: Machine, t: TxId, ch: Choice, m': Machine)
    requires cfg.Valid() && StepsAlone(cfg, plan, m, t, ch, m')
    ensures SameFuture(cfg, plan, m, t, m')
  {
    match m.txs[t].pc
    case ReadToken => ReadsAlone(cfg, plan, m, t, ch, m');
    case ReadSession(_) => DecidesAlone(cfg, plan, m, t, ch, m');
    case Consume(_, _) => ConsumesAlone(cfg, plan, m, t, ch, m');
    case ReadWinner(_, _) =>
    case Mint(_, _, _) => MintsAlone(cfg, plan, m, t, ch, m');
    case Touch(_, _, _) => TouchesAlone(cfg, plan, m, t, ch, m');
    case CheckSession => ChecksAlone(cfg, plan, m, t, ch, m');
    case ReadActive => ListsAlone(cfg, plan, m, t, ch, m');
    case FindSessions(_, _, _) => SelectsAlone(cfg, plan, m, t, ch, m');
    case RevokeRows(rows, _, _) =>
      if rows == {} {
        FinishesRevoking(cfg, plan, m, t, ch, m');
      } else {
        RevokesAlone(cfg, plan, m, t, ch, m');
      }
    case SelectTokens(_, _) => SelectsTokensAlone(cfg, plan, m, t, ch, m');
    case RetireRows(todo, _) => RetireStepAlone(cfg, plan, m, t, ch, m');
    case InsertSession => InsertsAlone(cfg, plan, m, t, ch, m');
    case InsertToken(_, _, _) => IssuesAlone(cfg, plan, m, t, ch, m');
    case Ready(_) =>
  }

  lemma RetireStepAlone(cfg: SessionConfig, plan: Plan, m: Machine, t: TxId, ch: Choice, m': Machine)
    requires cfg.Valid() && StepsAlone(cfg, plan, m, t, ch, m') && m.txs[t].pc.RetireRows?
    ensures SameFuture(cfg, plan, m, t, m')
  {
    if m.txs[t].pc.todo == {} {
      FinishesRetiring(cfg, plan, m, t, ch, m');
    } else if SeeToken(m, t, ch.tid).Some? && SeeToken(m, t, ch.tid).value.revokedAt.None? {
      RetiresAlone(cfg, plan, m, t, ch, m');
    } else {
      SkipsRetired(cfg, plan, m, t, ch, m');
    }
  }

  // ----- whole transactions -----

  ghost predicate Proceeds(cfg: SessionConfig, plan: Plan, m: Machine, t: TxId, m': Machine)
    requires cfg.Valid()
  {
    exists ch :: StepsAlone(cfg, plan, m, t, ch, m')
  }

  /** `t` begins on tables that are as `db` has them, runs alone along `plan`, and is ready to commit. */
  ghost predicate RunsAlone(cfg: SessionConfig, plan: Plan, t: TxId, db: Whole.Db, run: seq<Machine>)
    requires cfg.Valid()
  {
    && |run| > 0
    && Alone(plan, run[0], t) && run[0].dirtySessions == map[] && run[0].dirtyTokens == map[]
    && db.sessions == run[0].sessions && db.tokens == run[0].tokens - run[0].gone
    && run[0].txs[t].pc == FirstPc(run[0].txs[t].job)
    && (forall i :: 0 <= i < |run| - 1 ==> Proceeds(cfg, plan, run[i], t, run[i + 1]))
    && t in run[|run| - 1].txs && run[|run| - 1].txs[t].pc.Ready?
  }

  lemma {:induction false} FutureIsFixed(cfg: SessionConfig, plan: Plan, t: TxId, run: seq<Machine>, i: nat)
    requires cfg.Valid() && i < |run| && Alone(plan, run[0], t)
    requires forall i :: 0 <= i < |run| - 1 ==> Proceeds(cfg, plan, run[i], t, run[i + 1])
    ensures t in run[i].txs && Alone(plan, run[i], t)
    ensures Future(cfg, plan, run[i].txs[t], SoFar(run[i], t)) == Future(cfg, plan, run[0].txs[t], SoFar(run[0], t))
  {
    if i > 0 {
      FutureIsFixed(cfg, plan, t, run, i - 1);
      assert Proceeds(cfg, plan, run[i - 1], t, run[i - 1 + 1]);
      var ch :| StepsAlone(cfg, plan, run[i - 1], t, ch, run[i]);
      StepAlone(cfg, plan, run[i - 1], t, ch, run[i]);
    }
  }

  /** The tables that the commit leaves are those that the transaction saw. */
  lemma CommitShows(m: Machine, t: TxId)
    requires t in m.txs
    ensures var m' := CommitTx(m, t); m'.sessions == SessionTable(m, t) && m'.tokens - m'.gone == TokenTable(m, t)
  {
  }

  lemma OpeningShows(m: Machine, t: TxId)
    requires m.dirtySessions == map[] && m.dirtyTokens == map[]
    ensures SessionTable(m, t) == m.sessions && TokenTable(m, t) == m.tokens - m.gone
  {
  }

  /** At the commit nothing is left to do. */
  lemma CommitIsFuture(cfg: SessionConfig, plan: Plan, m: Machine, t: TxId)
    requires cfg.Valid() && t in m.txs && m.txs[t].pc.Ready?
    ensures var m' := CommitTx(m, t);
      End(m'.sessions, m'.tokens - m'.gone, m.txs[t].pc.result) == Future(cfg, plan, m.txs[t], SoFar(m, t))
  {
    CommitShows(m, t);
  }

  lemma FutureToTheEnd(cfg: SessionConfig, plan: Plan, t: TxId, db: Whole.Db, run: seq<Machine>)
    requires cfg.Valid() && RunsAlone(cfg, plan, t, db, run)
    ensures var last := run[|run| - 1];
      Future(cfg, plan, last.txs[t], SoFar(last, t))
        == Future(cfg, plan, run[0].txs[t], End(db.sessions, db.tokens, SessionsRevoked))
  {
    FutureIsFixed(cfg, plan, t, run, |run| - 1);
    OpeningShows(run[0], t);
  }

  /** What a lone transaction commits, and its result, are its future as it began. */
  lemma CommitsItsFuture(cfg: SessionConfig, plan: Plan, t: TxId, db: Whole.Db, run: seq<Machine>)
    requires cfg.Valid() && RunsAlone(cfg, plan, t, db, run)
    ensures var last := run[|run| - 1]; var m' := CommitTx(last, t);
      End(m'.sessions, m'.tokens - m'.gone, last.txs[t].pc.result)
        == Future(cfg, plan, run[0].txs[t], End(db.sessions, db.tokens, SessionsRevoked))
  {
    FutureToTheEnd(cfg, plan, t, db, run);
    CommitIsFuture(cfg, plan, run[|run| - 1], t);
  }

  /** The verdict of a whole rotation, as the statement-level result. */
  predicate SameVerdict(result: Result, verdict: Whole.Verdict) {
    match result
    case Rotated(sid, child, graceReplay) => verdict == Whole.Rotated(sid, child, graceReplay)
    case Rejected(why) => verdict == Whole.Rejected(why)
    case Reused(_, _) => verdict == Whole.Rejected(TokenReuse)
    case _ => false
  }

  /** Foreign keys: a token has its session, and a session its user. */
  predicate KeysHold(db: Whole.Db) {
    && (forall k :: k in db.tokens ==> db.tokens[k].sessionId in db.sessions)
    && (forall s :: s in db.sessions ==> db.sessions[s].userId in db.users)
  }

  ghost predicate EndsAs(f: End, w: (Whole.Db, Whole.Verdict)) {
    f.sessions == w.0.sessions && f.tokens == w.0.tokens && SameVerdict(f.result, w.1)
  }

  lemma DecisionFuture(cfg: SessionConfig, plan: Plan, tx: Tx, db: Whole.Db, tok: RefreshToken, ses: Session)
    requires tx.job.Rotate? && tx.job.token in db.tokens && db.tokens[tx.job.token] == tok
    requires tok.sessionId in db.sessions && db.sessions[tok.sessionId] == ses && ses.userId in db.users
    requires plan.active == (db.users[ses.userId].status == Whole.ACTIVE)
    ensures EndsAs(Rest(cfg, plan, tx, End(db.sessions, db.tokens, SessionsRevoked),
                        Decide(cfg, tok, ses, plan.active, tx.now)),
                   Whole.Rotate(cfg, db, tx.job.token, plan.tid, tx.now))
  {
    match Decide(cfg, tok, ses, plan.active, tx.now)
    case Ready(_) =>
    case FindSessions(_, _, _) =>
    case Consume(_, _) =>
    case Mint(_, _, _) =>
    case _ =>
  }

  lemma RotationFuture(cfg: SessionConfig, plan: Plan, tx: Tx, db: Whole.Db)
    requires cfg.Valid() && tx.job.Rotate? && tx.pc.ReadToken? && KeysHold(db)
    requires tx.job.token in db.tokens ==>
      plan.active == (db.users[db.sessions[db.tokens[tx.job.token].sessionId].userId].status == Whole.ACTIVE)
    ensures EndsAs(Future(cfg, plan, tx, End(db.sessions, db.tokens, SessionsRevoked)),
                   Whole.Rotate(cfg, db, tx.job.token, plan.tid, tx.now))
  {
    if tx.job.token in db.tokens {
      var tok := db.tokens[tx.job.token];
      DecisionFuture(cfg, plan, tx, db, tok, db.sessions[tok.sessionId]);
    }
  }

  /** A rotation whose statements run alone commits what the whole rotation does, with the same verdict. */
  lemma LoneRotationIsWhole(cfg: SessionConfig, plan: Plan, t: TxId, db: Whole.Db, run: seq<Machine>)
    requires cfg.Valid() && RunsAlone(cfg, plan, t, db, run) && run[0].txs[t].job.Rotate? && KeysHold(db)
    requires var k := run[0].txs[t].job.token; k in db.tokens ==>
      plan.active == (db.users[db.sessions[db.tokens[k].sessionId].userId].status == Whole.ACTIVE)
    ensures var tx := run[0].txs[t]; var last := run[|run| - 1]; var m' := CommitTx(last, t);
      var w := Whole.Rotate(cfg, db, tx.job.token, plan.tid, tx.now);
      m'.sessions == w.0.sessions && m'.tokens - m'.gone == w.0.tokens && SameVerdict(last.txs[t].pc.result, w.1)
  {
    CommitsItsFuture(cfg, plan, t, db, run);
    RotationFuture(cfg, plan, run[0].txs[t], db);
  }

  lemma EvictionFuture(cfg: SessionConfig, plan: Plan, user: UserId, db: Whole.Db, now: Time)
    requires cfg.Valid()
    ensures var w := Whole.Evict(cfg, db, user, plan.order, now);
      var e := End(db.sessions, db.tokens, SessionsRevoked);
      && Revoked(e, Among(Evicted(plan.order, cfg)), SESSION_LIMIT, now) == End(w.sessions, w.tokens, SessionsRevoked)
      && (EvictCount(|plan.order|, cfg) == 0 ==> w == db)
  {
    var evicted := Evicted(plan.order, cfg);
    assert EvictCount(|plan.order|, cfg) == 0 ==> evicted == {};
    if Whole.Selected(db.sessions, Among(evicted)) == {} {
      NothingToRevoke(End(db.sessions, db.tokens, SessionsRevoked), Among(evicted), SESSION_LIMIT, now);
    }
  }

  lemma LoginFuture(cfg: SessionConfig, plan: Plan, tx: Tx, db: Whole.Db)
    requires cfg.Valid() && tx.job.Login? && tx.pc.ReadActive?
    ensures var f := Future(cfg, plan, tx, End(db.sessions, db.tokens, SessionsRevoked));
      var w := Whole.CreateSession(cfg, db, tx.job.user, plan.order, plan.sid, plan.family, plan.tid, tx.now);
      f.sessions == w.sessions && f.tokens == w.tokens && f.result == LoggedIn(plan.sid, plan.tid)
  {
    EvictionFuture(cfg, plan, tx.job.user, db, tx.now);
  }

  /** A login whose statements run alone commits what the whole login does. */
  lemma LoneLoginIsWhole(cfg: SessionConfig, plan: Plan, t: TxId, db: Whole.Db, run: seq<Machine>)
    requires cfg.Valid() && RunsAlone(cfg, plan, t, db, run) && run[0].txs[t].job.Login?
    ensures var tx := run[0].txs[t]; var last := run[|run| - 1]; var m' := CommitTx(last, t);
      var w := Whole.CreateSession(cfg, db, tx.job.user, plan.order, plan.sid, plan.family, plan.tid, tx.now);
      && m'.sessions == w.sessions && m'.tokens - m'.gone == w.tokens
      && last.txs[t].pc.result == LoggedIn(plan.sid, plan.tid)
  {
    CommitsItsFuture(cfg, plan, t, db, run);
    LoginFuture(cfg, plan, run[0].txs[t], db);
  }

  /** A revocation whose statements run alone commits what the whole revocation does. */
  lemma LoneRevocationIsWhole(cfg: SessionConfig, plan: Plan, t: TxId, db: Whole.Db, run: seq<Machine>)
    requires cfg.Valid() && RunsAlone(cfg, plan, t, db, run) && run[0].txs[t].job.Revoke?
    ensures var tx := run[0].txs[t]; var m' := CommitTx(run[|run| - 1], t);
      var w := Whole.RevokeSessions(db, tx.job.where, tx.job.reason, tx.now);
      m'.sessions == w.sessions && m'.tokens - m'.gone == w.tokens
  {
    CommitsItsFuture(cfg, plan, t, db, run);
  }

  /** What a password change checks of the user, apart from the session. */
  predicate ChecksPass(u: Whole.User, proof: Whole.PasswordProof) {
    Whole.IsUsable(u) && u.passwordHash.Some? && proof.currentMatches && !proof.sameAsCurrent
  }

  lemma PasswordChangeFuture(cfg: SessionConfig, plan: Plan, tx: Tx, db: Whole.Db, proof: Whole.PasswordProof)
    requires cfg.Valid() && tx.job.ChangePassword? && tx.pc.CheckSession? && KeysHold(db)
    requires tx.job.user in db.users ==> plan.active == ChecksPass(db.users[tx.job.user], proof)
    ensures var f := Future(cfg, plan, tx, End(db.sessions, db.tokens, SessionsRevoked));
      var w := Whole.ChangePassword(cfg, db, tx.job.user, tx.job.session, proof, plan.tid, tx.now);
      && f.sessions == w.0.sessions && f.tokens == w.0.tokens
      && f.result == if w.1.PasswordChanged? then Reissued(plan.tid) else Refused
  {
  }

  /** A password change whose statements run alone commits what the whole change does, or refuses with it. */
  lemma LonePasswordChangeIsWhole(
      cfg: SessionConfig, plan: Plan, t: TxId, db: Whole.Db, run: seq<Machine>, proof: Whole.PasswordProof)
    requires cfg.Valid() && RunsAlone(cfg, plan, t, db, run) && run[0].txs[t].job.ChangePassword? && KeysHold(db)
    requires var user := run[0].txs[t].job.user; user in db.users ==> plan.active == ChecksPass(db.users[user], proof)
    ensures var tx := run[0].txs[t]; var last := run[|run| - 1]; var m' := CommitTx(last, t);
      var w := Whole.ChangePassword(cfg, db, tx.job.user, tx.job.session, proof, plan.tid, tx.now);
      && m'.sessions == w.0.sessions && m'.tokens - m'.gone == w.0.tokens
      && last.txs[t].pc.result == if w.1.PasswordChanged? then Reissued(plan.tid) else Refused
  {
    CommitsItsFuture(cfg, plan, t, db, run);
    PasswordChangeFuture(cfg, plan, run[0].txs[t], db, proof);
  }
}
