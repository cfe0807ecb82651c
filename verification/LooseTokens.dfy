/**
 * Unrevoked tokens of revoked sessions. They exist, but only as the work of a transaction that was in
 * flight together with the revocation.
 */
module LooseTokens {
  import opened AuthModel
  import opened ReadCommitted
  import opened Evolution
  import opened Assertions
  import opened OwnSteps
  import opened Safety
  import opened Guarantees

  /** A committed, undeleted and unrevoked token of session `s`. */
  predicate IsLoose(m: Machine, k: TokenId, s: SessionId) {
    k in m.tokens && k !in m.gone && m.tokens[k].sessionId == s && m.tokens[k].revokedAt.None?
  }

  // ----- who minted what -----

  predicate MinterOk(m: Machine, k: TokenId)
    requires k in m.dirtyTokens
  {
    k !in m.tokens ==> k in m.born && m.born[k].minter == m.dirtyTokens[k].owner
  }

  ghost predicate MintersOk(m: Machine) {
    && (forall k :: k in m.tokens ==> k in m.born && m.born[k].minter in m.done)
    && (forall k :: k in m.dirtyTokens ==> MinterOk(m, k))
  }

  lemma PutTokenKeepsMinters(m: Machine, t: TxId, e: Effect)
    requires Struct(m) && MintersOk(m) && t in m.txs && e.PutToken? && EffectOk(m, t, m.txs[t], e)
    ensures MintersOk(ApplyEffect(m, t, m.txs[t], e))
  {
    var m' := ApplyEffect(m, t, m.txs[t], e);
    forall k | k in m'.dirtyTokens ensures MinterOk(m', k) {
      assert k in m.dirtyTokens ==> MinterOk(m, k) && DirtyTokenOk(m, k);
    }
  }

  lemma OtherEffectsKeepMinters(m: Machine, t: TxId, e: Effect)
    requires MintersOk(m) && t in m.txs && !e.Wait? && !e.PutToken?
    ensures MintersOk(ApplyEffect(m, t, m.txs[t], e))
  {
    forall k | k in ApplyEffect(m, t, m.txs[t], e).dirtyTokens ensures MinterOk(ApplyEffect(m, t, m.txs[t], e), k) {
      assert MinterOk(m, k);
    }
  }

  lemma CommitKeepsMinters(m: Machine, t: TxId)
    requires Struct(m) && MintersOk(m) && t in m.txs
    ensures MintersOk(CommitTx(m, t))
  {
    var m' := CommitTx(m, t);
    forall k | k in m'.tokens ensures k in m'.born && m'.born[k].minter in m'.done {
      assert k in m.dirtyTokens ==> MinterOk(m, k);
    }
    forall k | k in m'.dirtyTokens ensures MinterOk(m', k) {
      assert MinterOk(m, k) && DirtyTokenOk(m, k);
    }
  }

  lemma PassiveKeepsMinters(cfg: SessionConfig, m: Machine, l: Label, m': Machine)
    requires cfg.Valid() && MintersOk(m) && Moves(cfg, m, l, m') && !l.Execute? && !l.Commit?
    ensures MintersOk(m')
  {
    assert forall k :: k in m.dirtyTokens ==> MinterOk(m, k);
    assert forall k :: k in m'.dirtyTokens ==> k in m.dirtyTokens && m'.dirtyTokens[k] == m.dirtyTokens[k];
    assert m'.born == m.born && m'.tokens == m.tokens && m'.done == m.done;
  }

  lemma StepKeepsMinters(cfg: SessionConfig, m: Machine, l: Label, m': Machine)
    requires cfg.Valid() && Struct(m) && MintersOk(m) && Moves(cfg, m, l, m')
    ensures MintersOk(m')
  {
    if l.Execute? {
      var e := Statement(cfg, m, l.t, m.txs[l.t], l.choice);
      StatementEffect(cfg, m, l.t, l.choice);
      if e.PutToken? {
        PutTokenKeepsMinters(m, l.t, e);
      } else {
        OtherEffectsKeepMinters(m, l.t, e);
      }
    } else if l.Commit? {
      CommitKeepsMinters(m, l.t);
    } else {
      PassiveKeepsMinters(cfg, m, l, m');
    }
  }

  // ----- transactions that mint no token in a session -----

  predicate FollowAvoids(follow: Then, s: SessionId) {
    match follow
    case RetireOwn(sid, _) => sid != s
    case Reissue(sid, _) => sid != s
    case _ => true
  }

  /** Nothing the transaction has read so far lets it mint a token in `s`. */
  predicate PcAvoids(pc: Pc, s: SessionId) {
    match pc
    case Consume(tok, _) => tok.sessionId != s
    case ReadWinner(tok, _) => tok.sessionId != s
    case Mint(tok, _, _) => tok.sessionId != s
    case FindSessions(_, _, follow) => FollowAvoids(follow, s)
    case RevokeRows(_, _, follow) => FollowAvoids(follow, s)
    case SelectTokens(_, follow) => FollowAvoids(follow, s)
    case RetireRows(_, follow) => FollowAvoids(follow, s)
    case InsertToken(sid, _, _) => sid != s
    case _ => true
  }

  /** `t` has minted none either. */
  ghost predicate Avoids(m: Machine, t: TxId, s: SessionId) {
    && (t in m.txs ==> PcAvoids(m.txs[t].pc, s))
    && forall k :: k in m.dirtyTokens && m.dirtyTokens[k].owner == t && k !in m.tokens ==>
      m.dirtyTokens[k].row.sessionId != s
  }

  /** A transaction that reads after the revocation of `s` committed goes nowhere with `s`. */
  lemma ReadAvoids(cfg: SessionConfig, m: Machine, t: TxId, ch: Choice, e: Effect, m': Machine, s: SessionId)
    requires cfg.Valid() && Ran(cfg, m, t, ch, e, m') && IsRevoked(m, s)
    requires m.txs[t].pc.ReadSession? || m.txs[t].pc.CheckSession?
    ensures t in m'.txs && PcAvoids(m'.txs[t].pc, s)
  {
    assert OwnSession(m, t, s).None?;
  }

  /** A session that `t` inserts is a new one. */
  lemma InsertAvoids(cfg: SessionConfig, m: Machine, t: TxId, ch: Choice, e: Effect, m': Machine, s: SessionId)
    requires cfg.Valid() && Ran(cfg, m, t, ch, e, m') && m.txs[t].pc.InsertSession? && s in m.creators
    ensures t in m'.txs && PcAvoids(m'.txs[t].pc, s)
  {
  }

  lemma RotationAvoids(cfg: SessionConfig, m: Machine, t: TxId, ch: Choice, e: Effect, m': Machine, s: SessionId)
    requires cfg.Valid() && Ran(cfg, m, t, ch, e, m') && PcAvoids(m.txs[t].pc, s)
    requires m.txs[t].pc.ReadToken? || m.txs[t].pc.Consume? || m.txs[t].pc.ReadWinner? || m.txs[t].pc.Mint?
      || m.txs[t].pc.Touch?
    ensures t in m'.txs && PcAvoids(m'.txs[t].pc, s)
  {
  }

  lemma RevocationAvoids(cfg: SessionConfig, m: Machine, t: TxId, ch: Choice, e: Effect, m': Machine, s: SessionId)
    requires cfg.Valid() && Ran(cfg, m, t, ch, e, m') && PcAvoids(m.txs[t].pc, s)
    requires m.txs[t].pc.FindSessions? || m.txs[t].pc.RevokeRows? || m.txs[t].pc.SelectTokens?
      || m.txs[t].pc.RetireRows?
    ensures t in m'.txs && PcAvoids(m'.txs[t].pc, s)
  {
  }

  lemma StatementAvoids(cfg: SessionConfig, m: Machine, t: TxId, ch: Choice, e: Effect, m': Machine, s: SessionId)
    requires cfg.Valid() && Ran(cfg, m, t, ch, e, m') && PcAvoids(m.txs[t].pc, s)
    requires !m.txs[t].pc.ReadSession? && !m.txs[t].pc.CheckSession? && !m.txs[t].pc.InsertSession?
    ensures t in m'.txs && PcAvoids(m'.txs[t].pc, s)
  {
    match m.txs[t].pc
    case ReadActive =>
    case InsertToken(_, _, _) =>
    case FindSessions(_, _, _) => RevocationAvoids(cfg, m, t, ch, e, m', s);
    case RevokeRows(_, _, _) => RevocationAvoids(cfg, m, t, ch, e, m', s);
    case SelectTokens(_, _) => RevocationAvoids(cfg, m, t, ch, e, m', s);
    case RetireRows(_, _) => RevocationAvoids(cfg, m, t, ch, e, m', s);
    case _ => RotationAvoids(cfg, m, t, ch, e, m', s);
  }

  /** The token that an avoiding statement writes is not a new one of `s`. */
  lemma WriteAvoids(cfg: SessionConfig, m: Machine, t: TxId, ch: Choice, e: Effect, m': Machine, s: SessionId)
    requires cfg.Valid() && Ran(cfg, m, t, ch, e, m') && PcAvoids(m.txs[t].pc, s) && e.PutToken?
    requires e.token.sessionId == s
    ensures SeeToken(m, t, e.tid).Some? && SeeToken(m, t, e.tid).value.sessionId == s
  {
  }

  lemma OwnStepAvoids(cfg: SessionConfig, m: Machine, t: TxId, ch: Choice, e: Effect, m': Machine, s: SessionId)
    requires cfg.Valid() && Ran(cfg, m, t, ch, e, m') && Avoids(m, t, s) && t in m'.txs && PcAvoids(m'.txs[t].pc, s)
    ensures Avoids(m', t, s)
  {
    if e.PutToken? && e.token.sessionId == s {
      WriteAvoids(cfg, m, t, ch, e, m', s);
    }
  }

  lemma LaterStepAvoids(cfg: SessionConfig, m: Machine, t: TxId, ch: Choice, e: Effect, m': Machine, s: SessionId)
    requires cfg.Valid() && Ran(cfg, m, t, ch, e, m') && Struct(m) && IsRevoked(m, s) && Avoids(m, t, s)
    ensures Avoids(m', t, s)
  {
    if m.txs[t].pc.ReadSession? || m.txs[t].pc.CheckSession? {
      ReadAvoids(cfg, m, t, ch, e, m', s);
    } else if m.txs[t].pc.InsertSession? {
      InsertAvoids(cfg, m, t, ch, e, m', s);
    } else {
      StatementAvoids(cfg, m, t, ch, e, m', s);
    }
    OwnStepAvoids(cfg, m, t, ch, e, m', s);
  }

  lemma OtherStepsAvoid(cfg: SessionConfig, m: Machine, l: Label, m': Machine, t: TxId, s: SessionId)
    requires cfg.Valid() && Struct(m) && Moves(cfg, m, l, m') && t in m.txs && t in m'.txs && !(l.Execute? && l.t == t)
    requires Avoids(m, t, s) && TokensLater(m.tokens, m'.tokens)
    ensures Avoids(m', t, s)
  {
    StepFrame(cfg, m, l, m');
    StepLeavesOthers(cfg, m, l, t);
    forall k | k in m'.dirtyTokens && m'.dirtyTokens[k].owner == t && k !in m'.tokens
      ensures m'.dirtyTokens[k].row.sessionId != s {
      assert OwnToken(m', t, k) == OwnToken(m, t, k);
    }
  }

  lemma NewcomersAvoid(cfg: SessionConfig, m: Machine, l: Label, m': Machine, s: SessionId)
    requires cfg.Valid() && Struct(m) && Moves(cfg, m, l, m') && l.Begin?
    ensures Avoids(m', l.t, s)
  {
    assert forall k :: k in m.dirtyTokens ==> DirtyTokenOk(m, k);
  }

  lemma StepAvoids(cfg: SessionConfig, m: Machine, l: Label, m': Machine, t: TxId, s: SessionId)
    requires cfg.Valid() && Safe(cfg, m) && Moves(cfg, m, l, m') && t in m'.txs && IsRevoked(m, s)
    requires t in m.txs ==> Avoids(m, t, s)
    ensures Avoids(m', t, s)
  {
    StepFrame(cfg, m, l, m');
    StepKeepsStruct(cfg, m, l);
    if l.Execute? && l.t == t {
      assert PcOk(cfg, m, t, m.txs[t]);
      LaterStepAvoids(cfg, m, t, l.choice, Statement(cfg, m, t, m.txs[t], l.choice), m', s);
    } else if t in m.txs {
      OtherStepsAvoid(cfg, m, l, m', t, s);
    } else {
      NewcomersAvoid(cfg, m, l, m', s);
    }
  }

  // ----- a revocation mints nothing in what it revokes -----

  /** A password change revokes every session but the one it reissues for. */
  predicate SparesItsOwn(pc: Pc) {
    match pc
    case FindSessions(where, _, follow) =>
      (follow.RetireOwn? ==> where.ByUserExcept? && where.kept == follow.session) && !follow.Reissue?
    case _ => true
  }

  ghost predicate AvoidsItsIds(m: Machine, t: TxId)
    requires t in m.txs
  {
    SparesItsOwn(m.txs[t].pc) && forall s :: s in m.txs[t].ids ==> Avoids(m, t, s)
  }

  lemma SelectionAvoids(cfg: SessionConfig, m: Machine, t: TxId, ch: Choice, e: Effect, m': Machine, s: SessionId)
    requires cfg.Valid() && Ran(cfg, m, t, ch, e, m') && m.txs[t].pc.FindSessions? && SparesItsOwn(m.txs[t].pc)
    requires t in m'.txs && s in m'.txs[t].ids
    ensures Avoids(m', t, s)
  {
    assert forall k :: OwnToken(m, t, k).None?;
    assert forall k :: k in m'.dirtyTokens && m'.dirtyTokens[k].owner == t ==> OwnToken(m, t, k).Some?;
  }

  lemma SpareStep(cfg: SessionConfig, m: Machine, t: TxId, ch: Choice, e: Effect, m': Machine)
    requires cfg.Valid() && Ran(cfg, m, t, ch, e, m') && SparesItsOwn(m.txs[t].pc)
    ensures t in m'.txs && SparesItsOwn(m'.txs[t].pc)
  {
    match m.txs[t].pc
    case ReadSession(_) =>
    case ReadWinner(_, _) =>
    case CheckSession =>
    case ReadActive =>
    case _ =>
  }

  lemma HeldSessionExists(cfg: SessionConfig, m: Machine, t: TxId, s: SessionId)
    requires Struct(m) && t in m.txs && PcOk(cfg, m, t, m.txs[t]) && m.txs[t].pc.InsertSession? && s in m.txs[t].ids
    ensures s in m.creators
  {
    assert SeesRevoked(m, t, s);
    assert s in m.dirtySessions ==> DirtySessionOk(m, s);
  }

  lemma OwnStepAvoidsIds(cfg: SessionConfig, m: Machine, t: TxId, ch: Choice, e: Effect, m': Machine, s: SessionId)
    requires cfg.Valid() && Ran(cfg, m, t, ch, e, m') && Struct(m) && AvoidsItsIds(m, t)
    requires t in m'.txs && s in m'.txs[t].ids
    ensures Avoids(m', t, s)
  {
    if m.txs[t].pc.FindSessions? {
      SelectionAvoids(cfg, m, t, ch, e, m', s);
    } else {
      assert s in m.txs[t].ids && Avoids(m, t, s);
      if m.txs[t].pc.InsertSession? {
        HeldSessionExists(cfg, m, t, s);
        InsertAvoids(cfg, m, t, ch, e, m', s);
      } else {
        StatementAvoids(cfg, m, t, ch, e, m', s);
      }
      OwnStepAvoids(cfg, m, t, ch, e, m', s);
    }
  }

  lemma StepAvoidsIds(cfg: SessionConfig, m: Machine, l: Label, m': Machine, t: TxId)
    requires cfg.Valid() && Safe(cfg, m) && Moves(cfg, m, l, m') && t in m'.txs
    requires t in m.txs ==> AvoidsItsIds(m, t)
    ensures AvoidsItsIds(m', t)
  {
    StepFrame(cfg, m, l, m');
    StepKeepsStruct(cfg, m, l);
    if l.Execute? && l.t == t {
      var e := Statement(cfg, m, t, m.txs[t], l.choice);
      assert PcOk(cfg, m, t, m.txs[t]);
      SpareStep(cfg, m, t, l.choice, e, m');
      forall s | s in m'.txs[t].ids ensures Avoids(m', t, s) {
        OwnStepAvoidsIds(cfg, m, t, l.choice, e, m', s);
      }
    } else if t in m.txs {
      StepLeavesOthers(cfg, m, l, t);
      forall s | s in m'.txs[t].ids ensures Avoids(m', t, s) {
        OtherStepsAvoid(cfg, m, l, m', t, s);
      }
    }
  }

  // ----- what a revocation has still to retire -----

  predicate OwnRevoked(m: Machine, r: TxId, k: TokenId) {
    OwnToken(m, r, k).Some? && OwnToken(m, r, k).value.revokedAt.Some?
  }

  /** The revocation has not yet passed token `k` of session `s`. */
  predicate Pending(pc: Pc, k: TokenId, s: SessionId) {
    match pc
    case RevokeRows(_, _, _) => true
    case SelectTokens(of, _) => s in of
    case RetireRows(todo, _) => k in todo
    case _ => false
  }

  /** A loose token that the revocation in flight has passed was minted by one of `met`. */
  predicate Passed(m: Machine, r: TxId, met: set<TxId>, k: TokenId, s: SessionId)
    requires r in m.txs && k in m.born
  {
    OwnRevoked(m, r, k) || Pending(m.txs[r].pc, k, s) || m.born[k].minter in met
  }

  lemma VisitingPasses(
      cfg: SessionConfig, m: Machine, r: TxId, ch: Choice, e: Effect, m': Machine, met: set<TxId>, k: TokenId,
      s: SessionId)
    requires cfg.Valid() && Ran(cfg, m, r, ch, e, m') && s in m.txs[r].ids && k in m.born && m.txs[r].pc.RevokeRows?
    ensures r in m'.txs && k in m'.born && Passed(m', r, met, k, s)
  {
  }

  lemma SelectingFinds(m: Machine, r: TxId, of: set<SessionId>, k: TokenId, s: SessionId)
    requires Struct(m) && IsLoose(m, k, s) && s in of && !OwnRevoked(m, r, k)
    ensures k in LiveTokensOf(m, r, of)
  {
    assert k in m.dirtyTokens ==> DirtyTokenOk(m, k);
  }

  lemma SelectingShape(cfg: SessionConfig, m: Machine, r: TxId, ch: Choice, e: Effect, m': Machine)
    requires cfg.Valid() && Ran(cfg, m, r, ch, e, m') && m.txs[r].pc.SelectTokens?
    ensures r in m'.txs && m'.born == m.born
    ensures m'.txs[r].pc == RetireRows(LiveTokensOf(m, r, m.txs[r].pc.of), m.txs[r].pc.follow)
  {
  }

  lemma SelectingPasses(
      cfg: SessionConfig, m: Machine, r: TxId, ch: Choice, e: Effect, m': Machine, met: set<TxId>, k: TokenId,
      s: SessionId)
    requires cfg.Valid() && Ran(cfg, m, r, ch, e, m') && Struct(m) && IsLoose(m, k, s) && k in m.born
    requires m.txs[r].pc.SelectTokens? && s in m.txs[r].pc.of && !OwnRevoked(m, r, k)
    ensures r in m'.txs && k in m'.born && Passed(m', r, met, k, s)
  {
    SelectingShape(cfg, m, r, ch, e, m');
    SelectingFinds(m, r, m.txs[r].pc.of, k, s);
  }

  lemma RetiringPasses(
      cfg: SessionConfig, m: Machine, r: TxId, ch: Choice, e: Effect, m': Machine, met: set<TxId>, k: TokenId,
      s: SessionId)
    requires cfg.Valid() && Ran(cfg, m, r, ch, e, m') && IsLoose(m, k, s) && k in m.born && Passed(m, r, met, k, s)
    requires m.txs[r].pc.RetireRows? && k in m.txs[r].pc.todo
    ensures r in m'.txs && k in m'.born && Passed(m', r, met, k, s)
  {
  }

  lemma RestPasses(
      cfg: SessionConfig, m: Machine, r: TxId, ch: Choice, e: Effect, m': Machine, met: set<TxId>, k: TokenId,
      s: SessionId)
    requires cfg.Valid() && Ran(cfg, m, r, ch, e, m') && k in m.born && (OwnRevoked(m, r, k) || m.born[k].minter in met)
    requires Struct(m) && k in m.tokens
    ensures r in m'.txs && k in m'.born && (OwnRevoked(m', r, k) || m'.born[k].minter in met)
  {
    if e.PutToken? && e.tid == k && OwnRevoked(m, r, k) {
      RevokedStaysRevoked(cfg, m, r, ch, e);
    }
  }

  lemma RevokedStaysRevoked(cfg: SessionConfig, m: Machine, r: TxId, ch: Choice, e: Effect)
    requires cfg.Valid() && Struct(m) && r in m.txs && e == Statement(cfg, m, r, m.txs[r], ch) && e.PutToken?
    requires OwnRevoked(m, r, e.tid)
    ensures e.token.revokedAt.Some?
  {
    StatementEffect(cfg, m, r, ch);
    assert DirtyTokenOk(m, e.tid);
  }

  lemma RevokerPasses(
      cfg: SessionConfig, m: Machine, r: TxId, ch: Choice, e: Effect, m': Machine, met: set<TxId>, k: TokenId,
      s: SessionId)
    requires cfg.Valid() && Ran(cfg, m, r, ch, e, m') && Struct(m) && IsLoose(m, k, s) && s in m.txs[r].ids
    requires k in m.born && Passed(m, r, met, k, s)
    ensures r in m'.txs && k in m'.born && Passed(m', r, met, k, s)
  {
    if OwnRevoked(m, r, k) || m.born[k].minter in met {
      RestPasses(cfg, m, r, ch, e, m', met, k, s);
    } else if m.txs[r].pc.RetireRows? {
      RetiringPasses(cfg, m, r, ch, e, m', met, k, s);
    } else if m.txs[r].pc.RevokeRows? {
      VisitingPasses(cfg, m, r, ch, e, m', met, k, s);
    } else {
      SelectingPasses(cfg, m, r, ch, e, m', met, k, s);
    }
  }

  // ----- the whole invariant, for one revocation and one session -----

  ghost predicate BeforeCommit(m: Machine, met: set<TxId>, r: TxId, s: SessionId)
    requires r in m.txs
  {
    forall k :: IsLoose(m, k, s) ==> k in m.born && Passed(m, r, met, k, s)
  }

  ghost predicate AfterCommit(m: Machine, met: set<TxId>, r: TxId, s: SessionId) {
    && (forall k :: IsLoose(m, k, s) ==> k in m.born && m.born[k].minter in met && m.born[k].minter != r)
    && (forall t :: t in m.txs && t !in met ==> Avoids(m, t, s))
  }

  /** `met` are the transactions that have been in flight together with `r`. */
  ghost predicate LooseOk(m: Machine, met: set<TxId>, r: TxId, s: SessionId) {
    && (r in m.txs ==> m.txs.Keys <= met)
    && (r in m.txs && s in m.txs[r].ids ==> BeforeCommit(m, met, r, s))
    && (r in m.done && s in m.done[r].ids ==> AfterCommit(m, met, r, s))
  }

  /** A loose token of the new state was loose already, or a commit just brought it. */
  lemma LooseBefore(cfg: SessionConfig, m: Machine, l: Label, m': Machine, k: TokenId, s: SessionId)
    requires cfg.Valid() && Struct(m) && Moves(cfg, m, l, m') && IsLoose(m', k, s)
    ensures IsLoose(m, k, s) || (l.Commit? && k !in m.tokens && OwnToken(m, l.t, k).Some?
                                 && OwnToken(m, l.t, k).value.sessionId == s)
    ensures IsLoose(m, k, s) && l.Commit? ==> !OwnRevoked(m, l.t, k)
  {
    if l.Execute? {
      ExecuteCommitsNoToken(m, l.t, m.txs[l.t], Statement(cfg, m, l.t, m.txs[l.t], l.choice));
    } else if l.Commit? {
      assert k in m.dirtyTokens ==> DirtyTokenOk(m, k);
    }
  }

  lemma ExecuteCommitsNoToken(m: Machine, t: TxId, tx: Tx, e: Effect)
    requires !e.Wait?
    ensures ApplyEffect(m, t, tx, e).tokens == m.tokens && ApplyEffect(m, t, tx, e).gone == m.gone
  {
  }

  lemma BornStays(cfg: SessionConfig, m: Machine, l: Label, m': Machine, k: TokenId)
    requires cfg.Valid() && Struct(m) && Moves(cfg, m, l, m') && k in m.born
    ensures k in m'.born && m'.born[k] == m.born[k]
  {
    StepKeepsStruct(cfg, m, l);
  }

  lemma OthersPass(
      cfg: SessionConfig, m: Machine, l: Label, m': Machine, r: TxId, met: set<TxId>, k: TokenId, s: SessionId)
    requires cfg.Valid() && Struct(m) && Moves(cfg, m, l, m') && r in m.txs && r in m'.txs && !(l.Execute? && l.t == r)
    requires k in m.born && Passed(m, r, met, k, s)
    ensures k in m'.born && Passed(m', r, met, k, s)
  {
    StepFrame(cfg, m, l, m');
    StepLeavesOthers(cfg, m, l, r);
    BornStays(cfg, m, l, m', k);
  }

  /** A token that another transaction commits while `r` is in flight. */
  lemma CommittedBeside(
      cfg: SessionConfig, m: Machine, t: TxId, m': Machine, r: TxId, met: set<TxId>, k: TokenId, s: SessionId)
    requires cfg.Valid() && Struct(m) && MintersOk(m) && Moves(cfg, m, Commit(t), m') && r in m'.txs
    requires k !in m.tokens && OwnToken(m, t, k).Some? && t in met
    ensures k in m'.born && Passed(m', r, met, k, s)
  {
    assert MinterOk(m, k);
    BornStays(cfg, m, Commit(t), m', k);
  }

  lemma StepBeforeCommit(
      cfg: SessionConfig, m: Machine, l: Label, m': Machine, met: set<TxId>, r: TxId, s: SessionId, k: TokenId)
    requires cfg.Valid() && Safe(cfg, m) && MintersOk(m) && Moves(cfg, m, l, m')
    requires r in m'.txs && s in m'.txs[r].ids && IsLoose(m', k, s)
    requires r in m.txs && m.txs.Keys <= met && (s in m.txs[r].ids ==> BeforeCommit(m, met, r, s))
    ensures k in m'.born && Passed(m', r, met, k, s)
  {
    LooseBefore(cfg, m, l, m', k, s);
    if l.Execute? && l.t == r {
      var e := Statement(cfg, m, r, m.txs[r], l.choice);
      StepKeepsStruct(cfg, m, l);
      assert PcOk(cfg, m, r, m.txs[r]);
      BornStays(cfg, m, l, m', k);
      RevokerSteps(cfg, m, r, l.choice, e, m', met, k, s);
    } else {
      StepLeavesOthers(cfg, m, l, r);
      if IsLoose(m, k, s) {
        OthersPass(cfg, m, l, m', r, met, k, s);
      } else {
        CommittedBeside(cfg, m, l.t, m', r, met, k, s);
      }
    }
  }

  lemma RevokerSteps(
      cfg: SessionConfig, m: Machine, r: TxId, ch: Choice, e: Effect, m': Machine, met: set<TxId>, k: TokenId,
      s: SessionId)
    requires cfg.Valid() && Ran(cfg, m, r, ch, e, m') && Struct(m) && IsLoose(m, k, s)
    requires r in m'.txs && s in m'.txs[r].ids && k in m'.born
    requires s in m.txs[r].ids ==> BeforeCommit(m, met, r, s)
    ensures Passed(m', r, met, k, s)
  {
    if s in m.txs[r].ids {
      RevokerPasses(cfg, m, r, ch, e, m', met, k, s);
    } else {
      SelectedNow(cfg, m, r, ch, e, m', s);
    }
  }

  lemma SelectedNow(cfg: SessionConfig, m: Machine, r: TxId, ch: Choice, e: Effect, m': Machine, s: SessionId)
    requires cfg.Valid() && Ran(cfg, m, r, ch, e, m') && r in m'.txs && s in m'.txs[r].ids && s !in m.txs[r].ids
    ensures m'.txs[r].pc.RevokeRows?
  {
  }

  lemma RevokerCommits(cfg: SessionConfig, m: Machine, m': Machine, met: set<TxId>, r: TxId, s: SessionId)
    requires cfg.Valid() && Struct(m) && MintersOk(m) && r in m.txs && Moves(cfg, m, Commit(r), m')
    requires AvoidsItsIds(m, r)
    requires s in m.txs[r].ids && BeforeCommit(m, met, r, s) && m.txs.Keys <= met
    ensures AfterCommit(m', met, r, s)
  {
    forall k | IsLoose(m', k, s) ensures k in m'.born && m'.born[k].minter in met && m'.born[k].minter != r {
      LooseBefore(cfg, m, Commit(r), m', k, s);
      assert Avoids(m, r, s);
      assert IsLoose(m, k, s) && Passed(m, r, met, k, s);
      BornStays(cfg, m, Commit(r), m', k);
    }
    StepFrame(cfg, m, Commit(r), m');
  }

  lemma LooseAfter(
      cfg: SessionConfig, m: Machine, l: Label, m': Machine, met: set<TxId>, r: TxId, s: SessionId, k: TokenId)
    requires cfg.Valid() && Struct(m) && MintersOk(m) && Moves(cfg, m, l, m') && r in m.done
    requires AfterCommit(m, met, r, s)
    requires IsLoose(m', k, s)
    ensures k in m'.born && m'.born[k].minter in met && m'.born[k].minter != r
  {
    LooseBefore(cfg, m, l, m', k, s);
    if !IsLoose(m, k, s) {
      assert MinterOk(m, k);
      assert l.t !in met ==> Avoids(m, l.t, s);
    }
    BornStays(cfg, m, l, m', k);
  }

  lemma StepAfterCommit(cfg: SessionConfig, m: Machine, l: Label, m': Machine, met: set<TxId>, r: TxId, s: SessionId)
    requires cfg.Valid() && Safe(cfg, m) && MintersOk(m) && Moves(cfg, m, l, m') && AfterCommit(m, met, r, s)
    requires r in m.done && s in m.done[r].ids
    ensures AfterCommit(m', met, r, s)
  {
    forall k | IsLoose(m', k, s) ensures k in m'.born && m'.born[k].minter in met && m'.born[k].minter != r {
      LooseAfter(cfg, m, l, m', met, r, s, k);
    }
    assert DoneOk(cfg, m, r, m.done[r]);
    forall t | t in m'.txs && t !in met ensures Avoids(m', t, s) {
      StepAvoids(cfg, m, l, m', t, s);
    }
  }

  lemma AfterWithMore(m: Machine, met: set<TxId>, more: set<TxId>, r: TxId, s: SessionId)
    requires AfterCommit(m, met, r, s) && met <= more
    ensures AfterCommit(m, more, r, s)
  {
  }

  function NowMet(m: Machine, r: TxId): set<TxId> {
    if r in m.txs then m.txs.Keys else {}
  }

  /** `done` changes at commits only, and keeps what it has. */
  lemma DoneStep(cfg: SessionConfig, m: Machine, l: Label, m': Machine, r: TxId)
    requires cfg.Valid() && Struct(m) && Moves(cfg, m, l, m')
    ensures r in m.done ==> r in m'.done && m'.done[r] == m.done[r]
    ensures r in m'.done && r !in m.done ==>
      l == Commit(r) && r in m.txs && m'.done[r] == m.txs[r] && m.txs[r].pc.Ready?
  {
    StepFrame(cfg, m, l, m');
    StepKeepsStruct(cfg, m, l);
  }

  lemma StepKeepsAfter(cfg: SessionConfig, m: Machine, l: Label, m': Machine, met: set<TxId>, r: TxId, s: SessionId)
    requires cfg.Valid() && Safe(cfg, m) && MintersOk(m) && Moves(cfg, m, l, m') && LooseOk(m, met, r, s)
    requires r in m.txs ==> AvoidsItsIds(m, r)
    requires r in m'.done && s in m'.done[r].ids
    ensures AfterCommit(m', met + NowMet(m', r), r, s)
  {
    DoneStep(cfg, m, l, m', r);
    if r in m.done {
      StepAfterCommit(cfg, m, l, m', met, r, s);
    } else {
      RevokerCommits(cfg, m, m', met, r, s);
    }
    AfterWithMore(m', met, met + NowMet(m', r), r, s);
  }

  lemma StepKeepsBefore(cfg: SessionConfig, m: Machine, l: Label, m': Machine, met: set<TxId>, r: TxId, s: SessionId)
    requires cfg.Valid() && Safe(cfg, m) && MintersOk(m) && Moves(cfg, m, l, m') && LooseOk(m, met, r, s)
    requires r in m'.txs && s in m'.txs[r].ids
    ensures BeforeCommit(m', met + NowMet(m', r), r, s)
  {
    HolderWasThere(cfg, m, l, m', r, s);
    forall k | IsLoose(m', k, s) ensures k in m'.born && Passed(m', r, met + NowMet(m', r), k, s) {
      StepBeforeCommit(cfg, m, l, m', met, r, s, k);
    }
  }

  lemma HolderWasThere(cfg: SessionConfig, m: Machine, l: Label, m': Machine, r: TxId, s: SessionId)
    requires cfg.Valid() && Moves(cfg, m, l, m') && r in m'.txs && s in m'.txs[r].ids
    ensures r in m.txs
  {
    StepFrame(cfg, m, l, m');
  }

  lemma StepKeepsLoose(cfg: SessionConfig, m: Machine, l: Label, m': Machine, met: set<TxId>, r: TxId, s: SessionId)
    requires cfg.Valid() && Safe(cfg, m) && MintersOk(m) && Moves(cfg, m, l, m') && LooseOk(m, met, r, s)
    requires r in m.txs ==> AvoidsItsIds(m, r)
    ensures LooseOk(m', met + NowMet(m', r), r, s)
  {
    if r in m'.txs && s in m'.txs[r].ids {
      StepKeepsBefore(cfg, m, l, m', met, r, s);
    }
    if r in m'.done && s in m'.done[r].ids {
      StepKeepsAfter(cfg, m, l, m', met, r, s);
    }
  }

  // ----- whole runs -----

  /** The transactions that have been in flight together with `r` up to moment `i`. */
  function Met(run: seq<Machine>, i: nat, r: TxId): set<TxId>
    requires i < |run|
  {
    (if i == 0 then {} else Met(run, i - 1, r)) + NowMet(run[i], r)
  }

  lemma {:induction false} MetMeans(run: seq<Machine>, i: nat, r: TxId, t: TxId) returns (j: nat)
    requires i < |run| && t in Met(run, i, r)
    ensures j <= i && t in run[j].txs && r in run[j].txs
  {
    if t in NowMet(run[i], r) {
      j := i;
    } else {
      j := MetMeans(run, i - 1, r, t);
    }
  }

  ghost predicate RunInv(m: Machine, met: set<TxId>, r: TxId, s: SessionId) {
    && MintersOk(m) && LooseOk(m, met, r, s)
    && (forall t :: t in m.txs ==> AvoidsItsIds(m, t))
  }

  lemma StartIsFine(m: Machine, r: TxId, s: SessionId)
    requires Init(m)
    ensures RunInv(m, {} + NowMet(m, r), r, s)
  {
  }

  lemma StepKeepsRunInv(cfg: SessionConfig, m: Machine, l: Label, m': Machine, met: set<TxId>, r: TxId, s: SessionId)
    requires cfg.Valid() && Safe(cfg, m) && Moves(cfg, m, l, m') && RunInv(m, met, r, s)
    ensures RunInv(m', met + NowMet(m', r), r, s)
  {
    StepKeepsMinters(cfg, m, l, m');
    StepKeepsLoose(cfg, m, l, m', met, r, s);
    forall t | t in m'.txs ensures AvoidsItsIds(m', t) {
      StepAvoidsIds(cfg, m, l, m', t);
    }
  }

  lemma RunStepKeeps(cfg: SessionConfig, run: seq<Machine>, i: nat, met: set<TxId>, r: TxId, s: SessionId)
    requires cfg.Valid() && Reachable(cfg, run) && i < |run| - 1 && RunInv(run[i], met, r, s)
    ensures RunInv(run[i + 1], met + NowMet(run[i + 1], r), r, s)
  {
    RunIsSafe(cfg, run, i);
    NextKeepsRunInv(cfg, run[i], run[i + 1], met, r, s);
  }

  lemma NextKeepsRunInv(cfg: SessionConfig, m: Machine, m': Machine, met: set<TxId>, r: TxId, s: SessionId)
    requires cfg.Valid() && Safe(cfg, m) && Next(cfg, m, m') && RunInv(m, met, r, s)
    ensures RunInv(m', met + NowMet(m', r), r, s)
  {
    var l :| Moves(cfg, m, l, m');
    StepKeepsRunInv(cfg, m, l, m', met, r, s);
  }

  lemma {:induction false} RunKeepsRunInv(cfg: SessionConfig, run: seq<Machine>, i: nat, n: nat, r: TxId, s: SessionId)
    requires cfg.Valid() && Reachable(cfg, run) && i <= n < |run| && RunInv(run[i], Met(run, i, r), r, s)
    ensures RunInv(run[n], Met(run, n, r), r, s)
    decreases n - i
  {
    if i < n {
      RunStepKeeps(cfg, run, i, Met(run, i, r), r, s);
      RunKeepsRunInv(cfg, run, i + 1, n, r, s);
    }
  }

  /**
   * A revoked session holds an unrevoked token only if the transaction that minted it, another one, was
   * in flight together with every transaction that committed a revocation of the session; and there is
   * at least one of those.
   */
  lemma LooseTokensOverlapTheRevocation(cfg: SessionConfig, run: seq<Machine>, n: nat, k: TokenId, s: SessionId)
    requires cfg.Valid() && Reachable(cfg, run) && n < |run| && IsRevoked(run[n], s) && IsLoose(run[n], k, s)
    ensures k in run[n].born
    ensures exists r :: r in run[n].done && s in run[n].done[r].ids
    ensures forall r :: r in run[n].done && s in run[n].done[r].ids ==>
      && run[n].born[k].minter != r
      && exists j :: 0 <= j <= n && run[n].born[k].minter in run[j].txs && r in run[j].txs
  {
    RunIsAccounted(cfg, run, n);
    RunIsSafe(cfg, run, n);
    forall r | r in run[n].done && s in run[n].done[r].ids
      ensures run[n].born[k].minter != r
      ensures exists j :: 0 <= j <= n && run[n].born[k].minter in run[j].txs && r in run[j].txs
    {
      StartIsFine(run[0], r, s);
      RunKeepsRunInv(cfg, run, 0, n, r, s);
      var j := MetMeans(run, n, r, run[n].born[k].minter);
    }
  }
}
