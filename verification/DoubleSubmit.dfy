/**
 * Concurrent double-submit: any number of rotations present one fresh token of a live session
 * within the grace window, and nothing else runs.
 */
module DoubleSubmit {
  import opened AuthModel
  import opened ReadCommitted
  import opened Evolution
  import opened Assertions
  import opened OwnSteps
  import opened Safety
  import opened SetCounting

  /** The presented token, the session it belongs to, and the window of the request clocks. */
  datatype Scene = Scene(token: TokenId, session: SessionId, from: Time, until: Time)

  /** At the start nothing is in flight, the token is fresh, and it and its session outlive the window. */
  predicate Opens(cfg: SessionConfig, sc: Scene, m: Machine) {
    && m.txs == map[]
    && m.clock == sc.from
    && sc.until - sc.from <= cfg.graceSeconds * MS_PER_SECOND
    && sc.token in m.tokens && sc.token !in m.gone
    && m.tokens[sc.token].sessionId == sc.session && sc.session in m.sessions
    && m.tokens[sc.token].usedAt.None? && m.tokens[sc.token].revokedAt.None?
    && m.sessions[sc.session].revokedAt.None?
    && sc.until < m.tokens[sc.token].expiresAt
    && sc.until < m.sessions[sc.session].expiresAt
  }

  /** The steps of the scene: rotations of the token, for an active user; aborts may happen. */
  predicate Allowed(sc: Scene, l: Label) {
    match l
    case Begin(_, job) => job == Rotate(sc.token)
    case Execute(_, ch) => ch.active
    case Tick(to) => to <= sc.until
    case Cleanup(_, _) => false
    case _ => true
  }

  ghost predicate SceneNext(cfg: SessionConfig, sc: Scene, m: Machine, m': Machine)
    requires cfg.Valid()
  {
    exists l :: Moves(cfg, m, l, m') && Allowed(sc, l)
  }

  ghost predicate SceneRun(cfg: SessionConfig, sc: Scene, run: seq<Machine>)
    requires cfg.Valid()
  {
    && |run| > 0 && sc.from <= sc.until && Opens(cfg, sc, run[0])
    && forall i :: 0 <= i < |run| - 1 ==> SceneNext(cfg, sc, run[i], run[i + 1])
  }

  predicate InWindow(sc: Scene, usedAt: Option<Time>) {
    usedAt.Some? ==> sc.from <= usedAt.value <= sc.until
  }

  /** This pc belongs to the rotation that consumed the token, as opposed to a grace replay. */
  predicate Consumed(pc: Pc) {
    match pc
    case Mint(_, _, g) => !g
    case Touch(_, _, g) => !g
    case Ready(Rotated(_, _, g)) => !g
    case _ => false
  }

  predicate ScenePc(pc: Pc) {
    pc.ReadToken? || pc.ReadSession? || pc.Consume? || pc.ReadWinner? || pc.Mint? || pc.Touch?
    || (pc.Ready? && pc.result.Rotated?)
  }

  predicate SceneTx(sc: Scene, m: Machine, t: TxId, tx: Tx) {
    && tx.job == Rotate(sc.token) && sc.from <= tx.now <= sc.until && ScenePc(tx.pc)
    && (Consumed(tx.pc) <==> sc.token in m.dirtyTokens && m.dirtyTokens[sc.token].owner == t)
  }

  /** The session is live, the presented token is unrevoked and used, if at all, within the window. */
  predicate PresentedOk(cfg: SessionConfig, sc: Scene, m: Machine) {
    && sc.until - sc.from <= cfg.graceSeconds * MS_PER_SECOND
    && sc.token in m.tokens && sc.token !in m.gone && m.tokens[sc.token].sessionId == sc.session
    && sc.until < m.tokens[sc.token].expiresAt
    && m.tokens[sc.token].revokedAt.None? && InWindow(sc, m.tokens[sc.token].usedAt)
    && (sc.token in m.dirtyTokens ==>
          && m.tokens[sc.token].usedAt.None?
          && m.dirtyTokens[sc.token].row.revokedAt.None?
          && InWindow(sc, m.dirtyTokens[sc.token].row.usedAt) && m.dirtyTokens[sc.token].row.usedAt.Some?)
    && sc.session in m.sessions && m.sessions[sc.session].revokedAt.None?
    && sc.until < m.sessions[sc.session].expiresAt
    && (sc.session in m.dirtySessions ==> m.dirtySessions[sc.session].row.revokedAt.None?)
  }

  /** Nothing is revoked: old rows keep their revokedAt, new tokens are neither revoked nor used. */
  ghost predicate NothingRevoked(sc: Scene, m0: Machine, m: Machine) {
    && m.gone == m0.gone
    && SessionsKept(m0, m)
    && TokensKept(sc, m0, m)
  }

  ghost predicate SessionsKept(m0: Machine, m: Machine) {
    && m.sessions.Keys == m0.sessions.Keys
    && (forall s :: s in m.sessions && s in m0.sessions ==> m.sessions[s].revokedAt == m0.sessions[s].revokedAt)
  }

  ghost predicate TokensKept(sc: Scene, m0: Machine, m: Machine) {
    && m0.tokens.Keys <= m.tokens.Keys
    && (forall k :: k in m0.tokens && k in m.tokens && k != sc.token ==> m.tokens[k] == m0.tokens[k])
    && (forall k :: k in m.tokens && k !in m0.tokens ==> m.tokens[k].revokedAt.None? && m.tokens[k].usedAt.None?)
  }

  /** The dirty rows are the session, the presented token and new children, none of them revoked. */
  ghost predicate DirtyRowsClean(sc: Scene, m0: Machine, m: Machine) {
    && (forall s :: s in m.dirtySessions ==> s == sc.session && m.dirtySessions[s].row.revokedAt.None?)
    && (forall k :: k in m.dirtyTokens && k != sc.token ==>
          k !in m0.born && m.dirtyTokens[k].row.revokedAt.None? && m.dirtyTokens[k].row.usedAt.None?)
  }

  predicate NewDone(m0: Machine, done: map<TxId, Tx>, t: TxId) {
    t in done && t !in m0.done
  }

  function ChildOf(pc: Pc): Option<TokenId> {
    if pc.Ready? && pc.result.Rotated? then Some(pc.result.child) else None
  }

  /** A rotation of the scene that was accepted, with a child minted during the scene. */
  predicate AcceptedInScene(sc: Scene, m0: Machine, tx: Tx) {
    tx.job == Rotate(sc.token) && ChildOf(tx.pc).Some? && ChildOf(tx.pc).value !in m0.born
  }

  /** Every rotation committed so far was accepted, and the token is used by exactly one of them. */
  ghost predicate SceneDone(sc: Scene, m0: Machine, done: map<TxId, Tx>, usedAt: Option<Time>) {
    && (forall t :: NewDone(m0, done, t) ==> AcceptedInScene(sc, m0, done[t]))
    && (forall t :: NewDone(m0, done, t) && Consumed(done[t].pc) ==> usedAt.Some?)
    && (forall t, o :: NewDone(m0, done, t) && NewDone(m0, done, o) ==>
          Consumed(done[t].pc) && Consumed(done[o].pc) ==> t == o)
    && (usedAt.Some? ==> exists t :: NewDone(m0, done, t) && Consumed(done[t].pc))
  }

  ghost predicate SceneInv(cfg: SessionConfig, sc: Scene, m0: Machine, m: Machine) {
    && sc.from <= m.clock <= sc.until
    && Extends(m0.born, m.born)
    && PresentedOk(cfg, sc, m)
    && NothingRevoked(sc, m0, m) && DirtyRowsClean(sc, m0, m)
    && (forall t :: t in m.txs ==> SceneTx(sc, m, t, m.txs[t]))
    && SceneDone(sc, m0, m.done, m.tokens[sc.token].usedAt)
  }

  lemma OpeningHolds(cfg: SessionConfig, sc: Scene, m: Machine)
    requires Safe(cfg, m) && Opens(cfg, sc, m) && sc.from <= sc.until
    ensures SceneInv(cfg, sc, m, m)
  {
    QuietMachineIsClean(m);
  }

  lemma QuietMachineIsClean(m: Machine)
    requires Struct(m) && m.txs == map[]
    ensures forall s :: s !in m.dirtySessions
    ensures forall k :: k !in m.dirtyTokens
  {
  }

  /** What a statement of the scene may do. */
  ghost predicate SceneEffect(sc: Scene, m: Machine, t: TxId, tx: Tx, e: Effect)
    requires sc.token in m.tokens
  {
    match e
    case Go(next) => ScenePc(next) && !Consumed(next) && !Consumed(tx.pc)
    case PutSession(s, row, next) =>
      && s == sc.session && s in m.creators && row.revokedAt.None?
      && ScenePc(next) && (Consumed(next) <==> Consumed(tx.pc))
    case PutToken(k, row, next) =>
      && ScenePc(next) && row.revokedAt.None?
      && (if k == sc.token
          then m.tokens[k].usedAt.None? && row.usedAt.Some? && InWindow(sc, row.usedAt) && Consumed(next)
               && k in m.born && !TokenLocked(m, t, k)
          else k !in m.born && row.usedAt.None? && (Consumed(next) <==> Consumed(tx.pc)))
    case _ => false
  }

  lemma SceneReads(cfg: SessionConfig, sc: Scene, m: Machine, t: TxId, ch: Choice, e: Effect, m': Machine)
    requires cfg.Valid() && Ran(cfg, m, t, ch, e, m') && ch.active
    requires PresentedOk(cfg, sc, m) && SceneTx(sc, m, t, m.txs[t])
    requires m.txs[t].pc.ReadToken? || m.txs[t].pc.ReadSession?
    ensures SceneEffect(sc, m, t, m.txs[t], e)
  {
    assert OwnToken(m, t, sc.token).None? && OwnSession(m, t, sc.session).None?;
  }

  lemma SceneConsumes(cfg: SessionConfig, sc: Scene, m: Machine, t: TxId, ch: Choice, e: Effect, m': Machine)
    requires cfg.Valid() && Ran(cfg, m, t, ch, e, m') && Struct(m)
    requires PresentedOk(cfg, sc, m) && SceneTx(sc, m, t, m.txs[t])
    requires m.txs[t].pc.Consume? || m.txs[t].pc.ReadWinner?
    ensures SceneEffect(sc, m, t, m.txs[t], e)
  {
    assert OwnToken(m, t, sc.token).None?;
  }

  lemma SceneMints(cfg: SessionConfig, sc: Scene, m: Machine, t: TxId, ch: Choice, e: Effect, m': Machine)
    requires cfg.Valid() && Ran(cfg, m, t, ch, e, m') && Struct(m)
    requires PresentedOk(cfg, sc, m) && SceneTx(sc, m, t, m.txs[t]) && m.txs[t].pc.Mint?
    ensures SceneEffect(sc, m, t, m.txs[t], e)
  {
    assert ch.tid !in m.born && sc.token in m.born;
  }

  lemma SceneTouches(cfg: SessionConfig, sc: Scene, m: Machine, t: TxId, ch: Choice, e: Effect, m': Machine)
    requires cfg.Valid() && Ran(cfg, m, t, ch, e, m') && Struct(m)
    requires PresentedOk(cfg, sc, m) && SceneTx(sc, m, t, m.txs[t]) && m.txs[t].pc.Touch?
    ensures SceneEffect(sc, m, t, m.txs[t], e)
  {
    TouchedSessionIsTheScenes(cfg, sc, m, t);
    assert OwnSession(m, t, sc.session).None?;
  }

  lemma TouchedSessionIsTheScenes(cfg: SessionConfig, sc: Scene, m: Machine, t: TxId)
    requires t in m.txs && PcOk(cfg, m, t, m.txs[t]) && PresentedOk(cfg, sc, m) && SceneTx(sc, m, t, m.txs[t])
    requires m.txs[t].pc.Touch?
    ensures m.txs[t].pc.session == sc.session
  {
  }

  lemma StatementsOfTheScene(cfg: SessionConfig, sc: Scene, m: Machine, t: TxId, ch: Choice, e: Effect, m': Machine)
    requires cfg.Valid() && Ran(cfg, m, t, ch, e, m') && Struct(m) && ch.active
    requires PresentedOk(cfg, sc, m) && SceneTx(sc, m, t, m.txs[t])
    ensures SceneEffect(sc, m, t, m.txs[t], e)
  {
    match m.txs[t].pc
    case ReadToken => SceneReads(cfg, sc, m, t, ch, e, m');
    case ReadSession(_) => SceneReads(cfg, sc, m, t, ch, e, m');
    case Consume(_, _) => SceneConsumes(cfg, sc, m, t, ch, e, m');
    case ReadWinner(_, _) => SceneConsumes(cfg, sc, m, t, ch, e, m');
    case Mint(_, _, _) => SceneMints(cfg, sc, m, t, ch, e, m');
    case Touch(_, _, _) => SceneTouches(cfg, sc, m, t, ch, e, m');
    case _ =>
  }

  // ----- effects keep the invariant -----

  lemma EffectKeepsPresented(cfg: SessionConfig, sc: Scene, m: Machine, t: TxId, e: Effect, m': Machine)
    requires Struct(m) && t in m.txs && !e.Wait? && m' == ApplyEffect(m, t, m.txs[t], e)
    requires PresentedOk(cfg, sc, m) && SceneTx(sc, m, t, m.txs[t]) && SceneEffect(sc, m, t, m.txs[t], e)
    ensures PresentedOk(cfg, sc, m')
  {
  }

  lemma EffectKeepsSceneTx(cfg: SessionConfig, sc: Scene, m: Machine, t: TxId, e: Effect, m': Machine, o: TxId)
    requires Struct(m) && t in m.txs && !e.Wait? && m' == ApplyEffect(m, t, m.txs[t], e)
    requires PresentedOk(cfg, sc, m) && SceneTx(sc, m, t, m.txs[t]) && SceneEffect(sc, m, t, m.txs[t], e)
    requires o in m.txs && SceneTx(sc, m, o, m.txs[o])
    ensures o in m'.txs && SceneTx(sc, m', o, m'.txs[o])
  {
  }

  lemma EffectKeepsDirtyRows(cfg: SessionConfig, sc: Scene, m0: Machine, m: Machine, t: TxId, e: Effect, m': Machine)
    requires Struct(m) && t in m.txs && !e.Wait? && m' == ApplyEffect(m, t, m.txs[t], e)
    requires PresentedOk(cfg, sc, m) && SceneEffect(sc, m, t, m.txs[t], e)
    requires Extends(m0.born, m.born) && DirtyRowsClean(sc, m0, m)
    ensures DirtyRowsClean(sc, m0, m')
  {
  }

  lemma StatementTouchesNoCommittedRow(m: Machine, t: TxId, tx: Tx, e: Effect)
    requires !e.Wait?
    ensures var m' := ApplyEffect(m, t, tx, e);
      && m'.sessions == m.sessions && m'.tokens == m.tokens && m'.gone == m.gone && m'.done == m.done
      && m'.clock == m.clock && m'.txs.Keys == m.txs.Keys + {t}
  {
  }

  lemma SceneFrame(sc: Scene, m0: Machine, m: Machine, m': Machine)
    requires NothingRevoked(sc, m0, m)
    requires m'.sessions == m.sessions && m'.tokens == m.tokens && m'.gone == m.gone
    ensures NothingRevoked(sc, m0, m')
  {
  }

  lemma ExecuteKeepsScene(
      cfg: SessionConfig, sc: Scene, m0: Machine, m: Machine, t: TxId, ch: Choice, e: Effect, m': Machine)
    requires cfg.Valid() && Ran(cfg, m, t, ch, e, m') && Struct(m) && ch.active && SceneInv(cfg, sc, m0, m)
    ensures SceneInv(cfg, sc, m0, m')
  {
    assert SceneTx(sc, m, t, m.txs[t]);
    StatementsOfTheScene(cfg, sc, m, t, ch, e, m');
    EffectKeepsPresented(cfg, sc, m, t, e, m');
    EffectKeepsDirtyRows(cfg, sc, m0, m, t, e, m');
    StatementTouchesNoCommittedRow(m, t, m.txs[t], e);
    SceneFrame(sc, m0, m, m');
    forall o | o in m'.txs ensures SceneTx(sc, m', o, m'.txs[o]) {
      assert SceneTx(sc, m, o, m.txs[o]);
      EffectKeepsSceneTx(cfg, sc, m, t, e, m', o);
    }
  }

  lemma CommitKeepsPresented(cfg: SessionConfig, sc: Scene, m: Machine, t: TxId)
    requires Struct(m) && t in m.txs && PresentedOk(cfg, sc, m)
    ensures PresentedOk(cfg, sc, CommitTx(m, t))
  {
    assert sc.token in m.dirtyTokens ==> DirtyTokenOk(m, sc.token);
    assert sc.session in m.dirtySessions ==> DirtySessionOk(m, sc.session);
  }

  lemma CommitKeepsSessions(sc: Scene, m0: Machine, m: Machine, t: TxId)
    requires t in m.txs && sc.session in m.sessions && m.sessions[sc.session].revokedAt.None?
    requires SessionsKept(m0, m) && DirtyRowsClean(sc, m0, m)
    ensures SessionsKept(m0, CommitTx(m, t))
  {
  }

  lemma CommitKeepsTokens(sc: Scene, m0: Machine, m: Machine, t: TxId)
    requires t in m.txs && sc.token in m0.tokens && m0.tokens.Keys <= m0.born.Keys
    requires TokensKept(sc, m0, m) && DirtyRowsClean(sc, m0, m)
    ensures TokensKept(sc, m0, CommitTx(m, t))
  {
  }

  lemma ReleaseKeepsDirtyRows(sc: Scene, m0: Machine, m: Machine, t: TxId)
    requires DirtyRowsClean(sc, m0, m)
    ensures DirtyRowsClean(sc, m0, Release(m, t))
  {
  }

  lemma ChildIsNew(cfg: SessionConfig, sc: Scene, m0: Machine, m: Machine, t: TxId)
    requires t in m.txs && m.txs[t].pc.Ready? && PcOk(cfg, m, t, m.txs[t])
    requires PresentedOk(cfg, sc, m) && SceneTx(sc, m, t, m.txs[t]) && DirtyRowsClean(sc, m0, m)
    ensures AcceptedInScene(sc, m0, m.txs[t])
  {
    assert Minted(m, t, m.txs[t], m.txs[t].pc.result.session, m.txs[t].pc.result.child);
  }

  /** The consumer commits: the token becomes used, and no other rotation has consumed it. */
  lemma ConsumerCommits(sc: Scene, m0: Machine, done: map<TxId, Tx>, t: TxId, tx: Tx, usedAt: Option<Time>)
    requires SceneDone(sc, m0, done, None) && t !in done && m0.done.Keys <= done.Keys
    requires AcceptedInScene(sc, m0, tx) && Consumed(tx.pc) && usedAt.Some?
    ensures SceneDone(sc, m0, done[t := tx], usedAt)
  {
    assert NewDone(m0, done[t := tx], t);
    assert forall o :: NewDone(m0, done[t := tx], o) && o != t ==> NewDone(m0, done, o);
  }

  lemma ReplayCommits(sc: Scene, m0: Machine, done: map<TxId, Tx>, t: TxId, tx: Tx, usedAt: Option<Time>)
    requires SceneDone(sc, m0, done, usedAt) && t !in done && m0.done.Keys <= done.Keys
    requires AcceptedInScene(sc, m0, tx) && !Consumed(tx.pc)
    ensures SceneDone(sc, m0, done[t := tx], usedAt)
  {
    var done' := done[t := tx];
    assert forall o :: NewDone(m0, done', o) && o != t ==> NewDone(m0, done, o);
    if usedAt.Some? {
      var o :| NewDone(m0, done, o) && Consumed(done[o].pc);
      assert NewDone(m0, done', o) && Consumed(done'[o].pc);
    }
  }

  lemma CommitKeepsSceneDone(cfg: SessionConfig, sc: Scene, m0: Machine, m: Machine, t: TxId)
    requires Struct(m) && t in m.txs && m.txs[t].pc.Ready? && PcOk(cfg, m, t, m.txs[t])
    requires PresentedOk(cfg, sc, m) && SceneTx(sc, m, t, m.txs[t]) && DirtyRowsClean(sc, m0, m)
    requires SceneDone(sc, m0, m.done, m.tokens[sc.token].usedAt) && m0.done.Keys <= m.done.Keys
    ensures var m' := CommitTx(m, t); sc.token in m'.tokens && SceneDone(sc, m0, m'.done, m'.tokens[sc.token].usedAt)
  {
    var m' := CommitTx(m, t);
    ChildIsNew(cfg, sc, m0, m, t);
    if Consumed(m.txs[t].pc) {
      ConsumerCommits(sc, m0, m.done, t, m.txs[t], m'.tokens[sc.token].usedAt);
    } else {
      ReplayCommits(sc, m0, m.done, t, m.txs[t], m.tokens[sc.token].usedAt);
    }
  }

  lemma OthersStayInScene(sc: Scene, m: Machine, t: TxId, m': Machine)
    requires Struct(m) && forall o :: o in m.txs ==> SceneTx(sc, m, o, m.txs[o])
    requires m'.txs == m.txs - {t}
    requires m'.dirtyTokens == Release(m, t).dirtyTokens
    ensures forall o :: o in m'.txs ==> SceneTx(sc, m', o, m'.txs[o])
  {
    forall o | o in m'.txs ensures SceneTx(sc, m', o, m'.txs[o]) {
      assert SceneTx(sc, m, o, m.txs[o]);
    }
  }

  lemma CommitKeepsScene(cfg: SessionConfig, sc: Scene, m0: Machine, m: Machine, t: TxId)
    requires Struct(m) && Struct(m0) && t in m.txs && m.txs[t].pc.Ready? && SceneInv(cfg, sc, m0, m)
    requires PcOk(cfg, m, t, m.txs[t])
    requires sc.token in m0.tokens && m0.done.Keys <= m.done.Keys
    ensures SceneInv(cfg, sc, m0, CommitTx(m, t))
  {
    assert SceneTx(sc, m, t, m.txs[t]);
    CommitKeepsPresented(cfg, sc, m, t);
    CommitKeepsSessions(sc, m0, m, t);
    CommitKeepsTokens(sc, m0, m, t);
    CommitKeepsSceneDone(cfg, sc, m0, m, t);
    ReleaseKeepsDirtyRows(sc, m0, m, t);
    OthersStayInScene(sc, m, t, CommitTx(m, t));
  }

  lemma AbortKeepsScene(cfg: SessionConfig, sc: Scene, m0: Machine, m: Machine, t: TxId)
    requires Struct(m) && SceneInv(cfg, sc, m0, m)
    ensures SceneInv(cfg, sc, m0, Release(m, t))
  {
    var m' := Release(m, t);
    ReleaseKeepsDirtyRows(sc, m0, m, t);
    OthersStayInScene(sc, m, t, m');
    SceneFrame(sc, m0, m, m');
  }

  lemma BeginKeepsScene(cfg: SessionConfig, sc: Scene, m0: Machine, m: Machine, l: Label, m': Machine)
    requires cfg.Valid() && Struct(m) && SceneInv(cfg, sc, m0, m) && Moves(cfg, m, l, m') && Allowed(sc, l)
    requires l.Begin?
    ensures SceneInv(cfg, sc, m0, m')
  {
    SceneFrame(sc, m0, m, m');
    assert sc.token in m.dirtyTokens ==> DirtyTokenOk(m, sc.token);
    forall o | o in m'.txs ensures SceneTx(sc, m', o, m'.txs[o]) {
      assert o in m.txs ==> SceneTx(sc, m, o, m.txs[o]);
    }
  }

  /** A step that touches neither rows nor transactions. */
  lemma StillScene(cfg: SessionConfig, sc: Scene, m0: Machine, m: Machine, m': Machine)
    requires SceneInv(cfg, sc, m0, m) && m.clock <= m'.clock <= sc.until
    requires m'.sessions == m.sessions && m'.tokens == m.tokens && m'.gone == m.gone && m'.born == m.born
    requires m'.dirtySessions == m.dirtySessions && m'.dirtyTokens == m.dirtyTokens && m'.txs == m.txs
    requires m'.done == m.done
    ensures SceneInv(cfg, sc, m0, m')
  {
    SceneFrame(sc, m0, m, m');
    forall o | o in m'.txs ensures SceneTx(sc, m', o, m'.txs[o]) {
      assert SceneTx(sc, m, o, m.txs[o]);
    }
  }

  lemma PassiveKeepsScene(cfg: SessionConfig, sc: Scene, m0: Machine, m: Machine, l: Label, m': Machine)
    requires cfg.Valid() && Struct(m) && SceneInv(cfg, sc, m0, m) && Moves(cfg, m, l, m') && Allowed(sc, l)
    requires l.Notify? || l.Tick?
    ensures SceneInv(cfg, sc, m0, m')
  {
    StillScene(cfg, sc, m0, m, m');
  }

  lemma MoveKeepsScene(cfg: SessionConfig, sc: Scene, m0: Machine, m: Machine, l: Label, m': Machine)
    requires cfg.Valid() && Struct(m) && AllAssertions(cfg, m) && Struct(m0) && Evolves(m, m')
    requires sc.token in m0.tokens && m0.done.Keys <= m.done.Keys
    requires SceneInv(cfg, sc, m0, m) && Moves(cfg, m, l, m') && Allowed(sc, l)
    ensures SceneInv(cfg, sc, m0, m')
  {
    if l.Execute? {
      ExecutesInScene(cfg, sc, m0, m, l.t, l.choice, m');
    } else if l.Commit? {
      CommitsInScene(cfg, sc, m0, m, l.t);
    } else {
      OthersKeepScene(cfg, sc, m0, m, l, m');
    }
  }

  lemma CommitsInScene(cfg: SessionConfig, sc: Scene, m0: Machine, m: Machine, t: TxId)
    requires cfg.Valid() && Struct(m) && AllAssertions(cfg, m) && Struct(m0)
    requires sc.token in m0.tokens && m0.done.Keys <= m.done.Keys
    requires SceneInv(cfg, sc, m0, m) && t in m.txs && m.txs[t].pc.Ready?
    ensures SceneInv(cfg, sc, m0, CommitTx(m, t))
  {
    assert PcOk(cfg, m, t, m.txs[t]);
    CommitKeepsScene(cfg, sc, m0, m, t);
  }

  lemma OthersKeepScene(cfg: SessionConfig, sc: Scene, m0: Machine, m: Machine, l: Label, m': Machine)
    requires cfg.Valid() && Struct(m) && SceneInv(cfg, sc, m0, m) && Moves(cfg, m, l, m') && Allowed(sc, l)
    requires !l.Execute? && !l.Commit?
    ensures SceneInv(cfg, sc, m0, m')
  {
    if l.Abort? {
      AbortKeepsScene(cfg, sc, m0, m, l.t);
    } else if l.Begin? {
      BeginKeepsScene(cfg, sc, m0, m, l, m');
    } else {
      PassiveKeepsScene(cfg, sc, m0, m, l, m');
    }
  }

  lemma ExecutesInScene(cfg: SessionConfig, sc: Scene, m0: Machine, m: Machine, t: TxId, ch: Choice, m': Machine)
    requires cfg.Valid() && Struct(m) && AllAssertions(cfg, m) && Evolves(m, m') && SceneInv(cfg, sc, m0, m)
    requires Moves(cfg, m, Execute(t, ch), m') && ch.active
    ensures SceneInv(cfg, sc, m0, m')
  {
    assert PcOk(cfg, m, t, m.txs[t]);
    ExecuteKeepsScene(cfg, sc, m0, m, t, ch, Statement(cfg, m, t, m.txs[t], ch), m');
  }

  lemma DoneGrows(m: Machine, m': Machine)
    requires Evolves(m, m')
    ensures m.done.Keys <= m'.done.Keys
  {
  }

  lemma NextKeepsScene(cfg: SessionConfig, sc: Scene, m0: Machine, m: Machine, m': Machine)
    requires cfg.Valid() && Safe(cfg, m) && Struct(m0) && sc.token in m0.tokens && m0.done.Keys <= m.done.Keys
    requires SceneInv(cfg, sc, m0, m) && SceneNext(cfg, sc, m, m')
    ensures SceneInv(cfg, sc, m0, m') && Safe(cfg, m') && m0.done.Keys <= m'.done.Keys
  {
    var l :| Moves(cfg, m, l, m') && Allowed(sc, l);
    StepKeepsSafe(cfg, m, l, m');
    DoneGrows(m, m');
    MoveKeepsScene(cfg, sc, m0, m, l, m');
  }

  lemma {:induction false} SceneRunHolds(cfg: SessionConfig, sc: Scene, run: seq<Machine>, i: nat)
    requires cfg.Valid() && SceneRun(cfg, sc, run) && Safe(cfg, run[0]) && i < |run|
    ensures SceneInv(cfg, sc, run[0], run[i]) && Safe(cfg, run[i]) && run[0].done.Keys <= run[i].done.Keys
  {
    if i == 0 {
      OpeningHolds(cfg, sc, run[0]);
    } else {
      SceneRunHolds(cfg, sc, run, i - 1);
      assert SceneNext(cfg, sc, run[i - 1], run[i - 1 + 1]);
      NextKeepsScene(cfg, sc, run[0], run[i - 1], run[i]);
    }
  }

  predicate AcceptedChild(sc: Scene, m0: Machine, m: Machine, t: TxId)
    requires t in m.done
  {
    && m.done[t].job == Rotate(sc.token)
    && m.done[t].pc.Ready? && m.done[t].pc.result.Rotated? && m.done[t].pc.result.session == sc.session
    && m.done[t].pc.result.child in m.tokens && m.done[t].pc.result.child !in m0.tokens
    && m.tokens[m.done[t].pc.result.child].sessionId == sc.session
    && m.tokens[m.done[t].pc.result.child].revokedAt.None?
    && m.tokens[m.done[t].pc.result.child].usedAt.None?
  }

  lemma SceneChild(cfg: SessionConfig, sc: Scene, m0: Machine, m: Machine, t: TxId)
    requires SceneInv(cfg, sc, m0, m) && Struct(m0) && t in m.done && DoneOk(cfg, m, t, m.done[t])
    requires NewDone(m0, m.done, t)
    ensures AcceptedChild(sc, m0, m, t) && m.tokens[sc.token].usedAt.Some?
    ensures m.done[t].pc.result.child in m.born && m.born[m.done[t].pc.result.child].minter == t
  {
  }

  lemma SceneChildren(cfg: SessionConfig, sc: Scene, m0: Machine, m: Machine)
    requires SceneInv(cfg, sc, m0, m) && Struct(m0) && AllDone(cfg, m)
    ensures forall t :: NewDone(m0, m.done, t) ==> AcceptedChild(sc, m0, m, t) && m.tokens[sc.token].usedAt.Some?
    ensures forall t :: NewDone(m0, m.done, t) ==>
      m.done[t].pc.result.child in m.born && m.born[m.done[t].pc.result.child].minter == t
  {
    forall t | NewDone(m0, m.done, t)
      ensures AcceptedChild(sc, m0, m, t) && m.tokens[sc.token].usedAt.Some?
      ensures m.done[t].pc.result.child in m.born && m.born[m.done[t].pc.result.child].minter == t
    {
      assert DoneOk(cfg, m, t, m.done[t]);
      SceneChild(cfg, sc, m0, m, t);
    }
  }

  lemma SceneIsBenign(cfg: SessionConfig, sc: Scene, m0: Machine, m: Machine)
    requires SceneInv(cfg, sc, m0, m) && Struct(m0) && AllDone(cfg, m)
    ensures forall t :: NewDone(m0, m.done, t) ==> AcceptedChild(sc, m0, m, t)
    ensures forall t, o :: NewDone(m0, m.done, t) && NewDone(m0, m.done, o) && t != o ==>
              ChildOf(m.done[t].pc) != ChildOf(m.done[o].pc)
    ensures (exists t :: NewDone(m0, m.done, t)) ==> exists t :: NewDone(m0, m.done, t) && Consumed(m.done[t].pc)
    ensures forall t, o :: NewDone(m0, m.done, t) && NewDone(m0, m.done, o) ==>
              Consumed(m.done[t].pc) && Consumed(m.done[o].pc) ==> t == o
  {
    SceneChildren(cfg, sc, m0, m);
  }

  lemma SceneRevokesNothing(cfg: SessionConfig, sc: Scene, m0: Machine, m: Machine)
    requires SceneInv(cfg, sc, m0, m) && sc.token in m0.tokens && m0.tokens[sc.token].revokedAt.None?
    ensures SessionsKept(m0, m)
    ensures forall k :: k in m0.tokens ==> k in m.tokens && m.tokens[k].revokedAt == m0.tokens[k].revokedAt
  {
  }

  /**
   * Concurrent double-submit is benign, for any number of rotations and any interleaving with
   * aborts. Every rotation that commits is accepted, with a live child of its own; no two share a
   * child; as soon as one has committed, exactly one of them is the consumer that set usedAt;
   * no session and no token is revoked.
   */
  lemma DoubleSubmitIsBenign(
      cfg: SessionConfig, before: seq<Machine>, sc: Scene, run: seq<Machine>, i: nat)
    requires cfg.Valid() && Reachable(cfg, before) && SceneRun(cfg, sc, run) && run[0] == before[|before| - 1]
    requires i < |run|
    ensures forall t :: NewDone(run[0], run[i].done, t) ==> AcceptedChild(sc, run[0], run[i], t)
    ensures forall t, o :: NewDone(run[0], run[i].done, t) && NewDone(run[0], run[i].done, o) && t != o ==>
              ChildOf(run[i].done[t].pc) != ChildOf(run[i].done[o].pc)
    ensures (exists t :: NewDone(run[0], run[i].done, t)) ==>
              exists t :: NewDone(run[0], run[i].done, t) && Consumed(run[i].done[t].pc)
    ensures forall t, o :: NewDone(run[0], run[i].done, t) && NewDone(run[0], run[i].done, o) ==>
              Consumed(run[i].done[t].pc) && Consumed(run[i].done[o].pc) ==> t == o
    ensures SessionsKept(run[0], run[i])
    ensures forall k :: k in run[0].tokens ==>
      k in run[i].tokens && run[i].tokens[k].revokedAt == run[0].tokens[k].revokedAt
  {
    RunIsSafe(cfg, before, |before| - 1);
    SceneRunHolds(cfg, sc, run, i);
    SceneIsBenign(cfg, sc, run[0], run[i]);
    SceneRevokesNothing(cfg, sc, run[0], run[i]);
  }

  // ----- every rotation gets to its end -----

  /** The statements a rotation still has ahead of it, at most. */
  function Remaining(pc: Pc): nat {
    match pc
    case ReadToken => 6
    case ReadSession(_) => 5
    case Consume(_, _) => 4
    case ReadWinner(_, _) => 3
    case Mint(_, _, _) => 2
    case Touch(_, _, _) => 1
    case _ => 0
  }

  /** Each statement of the scene brings its rotation closer to its commit. */
  lemma StatementsDescend(cfg: SessionConfig, sc: Scene, m: Machine, t: TxId, ch: Choice, e: Effect, m': Machine)
    requires cfg.Valid() && Ran(cfg, m, t, ch, e, m') && Struct(m) && ch.active
    requires PresentedOk(cfg, sc, m) && SceneTx(sc, m, t, m.txs[t])
    ensures t in m'.txs && Remaining(m'.txs[t].pc) < Remaining(m.txs[t].pc)
  {
    StatementsOfTheScene(cfg, sc, m, t, ch, e, m');
  }

  predicate FreshChoice(m: Machine, ch: Choice) {
    ch.active && ch.tid !in m.born
  }

  /** A rotation of the scene waits only for the holder of the token row or of the session row. */
  lemma WaitingMeansLocked(cfg: SessionConfig, sc: Scene, m: Machine, t: TxId, ch: Choice)
    requires cfg.Valid() && t in m.txs && PcOk(cfg, m, t, m.txs[t]) && FreshChoice(m, ch)
    requires PresentedOk(cfg, sc, m) && SceneTx(sc, m, t, m.txs[t]) && !m.txs[t].pc.Ready?
    requires Statement(cfg, m, t, m.txs[t], ch).Wait?
    ensures (m.txs[t].pc.Consume? && TokenLocked(m, t, sc.token))
      || (m.txs[t].pc.Touch? && SessionLocked(m, t, sc.session))
  {
  }

  lemma SessionHolderIsReady(cfg: SessionConfig, sc: Scene, m: Machine)
    requires Struct(m) && AllAssertions(cfg, m) && sc.session in m.dirtySessions
    requires forall o :: o in m.txs ==> SceneTx(sc, m, o, m.txs[o])
    ensures m.dirtySessions[sc.session].owner in m.txs && m.txs[m.dirtySessions[sc.session].owner].pc.Ready?
  {
    assert DirtySessionOk(m, sc.session);
    var o := m.dirtySessions[sc.session].owner;
    assert PcOk(cfg, m, o, m.txs[o]) && SceneTx(sc, m, o, m.txs[o]);
    assert OwnSession(m, o, sc.session).Some?;
  }

  /** Some rotation in flight can take its next step: the scene never deadlocks. */
  lemma SceneNeverStalls(
      cfg: SessionConfig, before: seq<Machine>, sc: Scene, run: seq<Machine>, i: nat) returns (l: Label)
    requires cfg.Valid() && Reachable(cfg, before) && SceneRun(cfg, sc, run) && run[0] == before[|before| - 1]
    requires i < |run|
    requires run[i].txs != map[]
    ensures Enabled(cfg, run[i], l) && Allowed(sc, l) && (l.Execute? || l.Commit?)
  {
    RunIsSafe(cfg, before, |before| - 1);
    SceneRunHolds(cfg, sc, run, i);
    var unused := FreshExists(run[i].born.Keys);
    var t :| t in run[i].txs;
    l := StepFor(cfg, sc, run[0], run[i], t, Choice(true, 0, unused, 0, []));
  }

  lemma StepFor(cfg: SessionConfig, sc: Scene, m0: Machine, m: Machine, t: TxId, ch: Choice) returns (l: Label)
    requires cfg.Valid() && Struct(m) && AllAssertions(cfg, m) && SceneInv(cfg, sc, m0, m) && t in m.txs
    requires FreshChoice(m, ch)
    ensures Enabled(cfg, m, l) && Allowed(sc, l) && (l.Execute? || l.Commit?)
  {
    var o := t;
    if m.txs[o].pc.Consume? && TokenLocked(m, o, sc.token) {
      assert DirtyTokenOk(m, sc.token);
      o := m.dirtyTokens[sc.token].owner;
      assert SceneTx(sc, m, o, m.txs[o]);
    }
    if m.txs[o].pc.Touch? && SessionLocked(m, o, sc.session) {
      SessionHolderIsReady(cfg, sc, m);
      o := m.dirtySessions[sc.session].owner;
    }
    l := StepOf(cfg, sc, m0, m, o, ch);
  }

  lemma StepOf(cfg: SessionConfig, sc: Scene, m0: Machine, m: Machine, o: TxId, ch: Choice) returns (l: Label)
    requires cfg.Valid() && AllAssertions(cfg, m) && SceneInv(cfg, sc, m0, m) && o in m.txs && FreshChoice(m, ch)
    requires m.txs[o].pc.Consume? ==> !TokenLocked(m, o, sc.token)
    requires m.txs[o].pc.Touch? ==> !SessionLocked(m, o, sc.session)
    ensures Enabled(cfg, m, l) && Allowed(sc, l) && (l.Execute? || l.Commit?)
  {
    if m.txs[o].pc.Ready? {
      l := Commit(o);
    } else {
      l := Execute(o, ch);
      assert PcOk(cfg, m, o, m.txs[o]) && SceneTx(sc, m, o, m.txs[o]);
      if Statement(cfg, m, o, m.txs[o], ch).Wait? {
        WaitingMeansLocked(cfg, sc, m, o, ch);
      }
    }
  }
}
