/**
 * Which tokens a run revokes: exactly those that a transaction which goes on to commit finds committed
 * when it selects the live tokens of their session.
 */
module Retirement {
  import opened AuthModel
  import opened ReadCommitted
  import opened Evolution
  import opened Assertions
  import opened OwnSteps
  import opened Safety
  import opened Guarantees
  import opened Overlaps

  // ----- what has been selected so far -----

  /** From `m` to `m'`, transaction `t` selects the live tokens of session `s`. */
  predicate Selects(m: Machine, m': Machine, t: TxId, s: SessionId) {
    && t in m.txs && m.txs[t].pc.SelectTokens? && s in m.txs[t].pc.of
    && t in m'.txs && m'.txs[t].pc.RetireRows?
  }

  /** It finds the row of `k` committed. */
  predicate Finds(m: Machine, m': Machine, t: TxId, k: TokenId) {
    k in m.tokens && k !in m.gone && Selects(m, m', t, m.tokens[k].sessionId)
  }

  function NowFound(m: Machine, m': Machine): set<(TxId, TokenId)> {
    set t, k | t in m.txs && k in m.tokens && Finds(m, m', t, k) :: (t, k)
  }

  /** Who has found which token up to moment `i`. */
  function Found(run: seq<Machine>, i: nat): set<(TxId, TokenId)>
    requires i < |run|
  {
    if i == 0 then {} else Found(run, i - 1) + NowFound(run[i - 1], run[i])
  }

  lemma {:induction false} FoundMeans(run: seq<Machine>, n: nat, t: TxId, k: TokenId)
    requires n < |run|
    ensures (t, k) in Found(run, n) <==> exists j :: 0 <= j < n && Finds(run[j], run[j + 1], t, k)
  {
    if n > 0 {
      FoundMeans(run, n - 1, t, k);
      assert (t, k) in NowFound(run[n - 1], run[n]) <==> Finds(run[n - 1], run[n - 1 + 1], t, k);
    }
  }

  // ----- the invariant -----

  predicate IsRetired(m: Machine, k: TokenId) {
    k in m.tokens && m.tokens[k].revokedAt.Some?
  }

  predicate OwnRetired(m: Machine, t: TxId, k: TokenId) {
    OwnToken(m, t, k).Some? && OwnToken(m, t, k).value.revokedAt.Some?
  }

  predicate IsDue(m: Machine, t: TxId, k: TokenId) {
    t in m.txs && m.txs[t].pc.RetireRows? && k in m.txs[t].pc.todo
  }

  predicate IsRevoking(pc: Pc) {
    pc.FindSessions? || pc.RevokeRows? || pc.SelectTokens? || pc.RetireRows?
  }

  /** While it revokes, a transaction has not minted anything yet. */
  ghost predicate MintsLast(m: Machine, t: TxId)
    requires t in m.txs
  {
    IsRevoking(m.txs[t].pc) ==> forall k :: OwnToken(m, t, k).Some? ==> k in m.tokens
  }

  /** A revoked row, committed or not, was found by whoever revoked it. */
  ghost predicate RetiredWasFound(m: Machine, found: set<(TxId, TokenId)>) {
    && (forall k: TokenId :: IsRetired(m, k) ==> CommittedFinder(m, found, k))
    && (forall t: TxId, k: TokenId :: OwnRetired(m, t, k) ==> IsRetired(m, k) || (t, k) in found)
    && (forall t: TxId, k: TokenId :: IsDue(m, t, k) ==> (t, k) in found)
  }

  ghost predicate CommittedFinder(m: Machine, found: set<(TxId, TokenId)>, k: TokenId) {
    exists t: TxId :: t in m.done && (t, k) in found
  }

  /** What `t` has found it has revoked, or will; unless it was rolled back. */
  predicate Settled(m: Machine, t: TxId, k: TokenId) {
    && t in m.begun && k in m.tokens
    && (t in m.txs ==> k in m.gone || IsRetired(m, k) || OwnRetired(m, t, k) || IsDue(m, t, k))
    && (t in m.done ==> k in m.gone || IsRetired(m, k))
  }

  ghost predicate FoundIsSettled(m: Machine, found: set<(TxId, TokenId)>) {
    forall t: TxId, k: TokenId :: (t, k) in found ==> Settled(m, t, k)
  }

  ghost predicate RetirementOk(m: Machine, found: set<(TxId, TokenId)>) {
    && RetiredWasFound(m, found) && FoundIsSettled(m, found)
    && (forall t :: t in m.txs ==> MintsLast(m, t))
  }

  // ----- nothing is minted before the revocation is over -----

  lemma RevokingMintsNothing(cfg: SessionConfig, m: Machine, t: TxId, ch: Choice, e: Effect, m': Machine)
    requires cfg.Valid() && Ran(cfg, m, t, ch, e, m') && IsRevoking(m.txs[t].pc) && MintsLast(m, t)
    ensures t in m'.txs && MintsLast(m', t)
  {
    forall k | OwnToken(m', t, k).Some? && IsRevoking(m'.txs[t].pc) ensures k in m'.tokens {
      assert OwnToken(m, t, k).Some? ==> k in m.tokens;
    }
  }

  lemma BeforeRevoking(cfg: SessionConfig, m: Machine, t: TxId, ch: Choice, e: Effect, m': Machine)
    requires cfg.Valid() && Ran(cfg, m, t, ch, e, m') && !IsRevoking(m.txs[t].pc)
    ensures t in m'.txs && (IsRevoking(m'.txs[t].pc) ==> NoOwnTokens(m', t))
  {
    if NoOwnTokens(m, t) && e.Go? {
      forall k ensures OwnToken(m', t, k).None? {
        assert OwnToken(m, t, k).None?;
      }
    }
    if e.TakeSnapshot? {
      forall k ensures OwnToken(m', t, k).None? {
        assert OwnToken(m, t, k).None?;
      }
    }
  }

  lemma OwnStepMintsLast(cfg: SessionConfig, m: Machine, t: TxId, ch: Choice, e: Effect, m': Machine)
    requires cfg.Valid() && Ran(cfg, m, t, ch, e, m') && MintsLast(m, t)
    ensures t in m'.txs && MintsLast(m', t)
  {
    if IsRevoking(m.txs[t].pc) {
      RevokingMintsNothing(cfg, m, t, ch, e, m');
    } else {
      BeforeRevoking(cfg, m, t, ch, e, m');
      assert NoOwnTokens(m', t) ==> forall k :: OwnToken(m', t, k).None?;
    }
  }

  // ----- what is revoked was found -----

  lemma OthersOwnTheSame(
      cfg: SessionConfig, m: Machine, t: TxId, ch: Choice, e: Effect, m': Machine, o: TxId, k: TokenId)
    requires cfg.Valid() && Ran(cfg, m, t, ch, e, m') && Struct(m) && o != t
    ensures OwnToken(m', o, k) == OwnToken(m, o, k)
    ensures o in m'.txs <==> o in m.txs
    ensures o in m.txs ==> m'.txs[o] == m.txs[o]
  {
    if e.PutToken? {
      StatementEffect(cfg, m, t, ch);
      assert k in m.dirtyTokens ==> DirtyTokenOk(m, k);
    }
  }

  lemma WritesWhatItFound(cfg: SessionConfig, m: Machine, t: TxId, ch: Choice, e: Effect, m': Machine)
    requires cfg.Valid() && Ran(cfg, m, t, ch, e, m') && e.PutToken? && e.token.revokedAt.Some?
    ensures IsRetired(m, e.tid) || IsDue(m, t, e.tid)
  {
    assert NoOwnTokens(m, t) ==> OwnToken(m, t, e.tid).None?;
  }

  lemma OwnRetiredWasFound(
      cfg: SessionConfig, m: Machine, t: TxId, ch: Choice, e: Effect, m': Machine, found: set<(TxId, TokenId)>,
      k: TokenId)
    requires cfg.Valid() && Ran(cfg, m, t, ch, e, m') && RetiredWasFound(m, found) && OwnRetired(m', t, k)
    ensures IsRetired(m, k) || (t, k) in found
  {
    if e.PutToken? && e.tid == k {
      WritesWhatItFound(cfg, m, t, ch, e, m');
    } else {
      assert OwnRetired(m, t, k);
    }
  }

  /** What it selects it has found. */
  lemma DueWasFound(cfg: SessionConfig, m: Machine, t: TxId, ch: Choice, e: Effect, m': Machine, k: TokenId)
    requires cfg.Valid() && Ran(cfg, m, t, ch, e, m') && Struct(m) && MintsLast(m, t) && IsDue(m', t, k)
    ensures IsDue(m, t, k) || Finds(m, m', t, k)
  {
    if m.txs[t].pc.SelectTokens? {
      assert k in LiveTokensOf(m, t, m.txs[t].pc.of);
      assert OwnToken(m, t, k).Some? ==> k in m.tokens;
      assert k in m.dirtyTokens ==> DirtyTokenOk(m, k);
    } else {
      DueWasDue(cfg, m, t, ch, e, m', k);
    }
  }

  lemma DueWasDue(cfg: SessionConfig, m: Machine, t: TxId, ch: Choice, e: Effect, m': Machine, k: TokenId)
    requires cfg.Valid() && Ran(cfg, m, t, ch, e, m') && !m.txs[t].pc.SelectTokens? && IsDue(m', t, k)
    ensures IsDue(m, t, k)
  {
    match m.txs[t].pc
    case ReadSession(_) =>
    case ReadWinner(_, _) =>
    case CheckSession =>
    case FindSessions(_, _, _) =>
    case RetireRows(_, _) =>
    case _ =>
  }

  lemma ExecuteKeepsFinders(
      cfg: SessionConfig, m: Machine, t: TxId, ch: Choice, e: Effect, m': Machine, found: set<(TxId, TokenId)>)
    requires cfg.Valid() && Ran(cfg, m, t, ch, e, m') && Struct(m) && RetiredWasFound(m, found) && MintsLast(m, t)
    ensures RetiredWasFound(m', found + NowFound(m, m'))
  {
    assert m'.tokens == m.tokens && m'.done == m.done;
    forall k: TokenId | IsRetired(m', k) ensures CommittedFinder(m', found + NowFound(m, m'), k) {
      assert IsRetired(m, k) && CommittedFinder(m, found, k);
    }
    forall o: TxId, k: TokenId | OwnRetired(m', o, k) ensures IsRetired(m', k) || (o, k) in found {
      if o == t {
        OwnRetiredWasFound(cfg, m, t, ch, e, m', found, k);
      } else {
        OthersOwnTheSame(cfg, m, t, ch, e, m', o, k);
      }
    }
    forall o: TxId, k: TokenId | IsDue(m', o, k) ensures (o, k) in found + NowFound(m, m') {
      if o == t {
        DueWasFound(cfg, m, t, ch, e, m', k);
      } else {
        OthersOwnTheSame(cfg, m, t, ch, e, m', o, k);
      }
    }
  }

  lemma CommitKeepsFinders(m: Machine, t: TxId, found: set<(TxId, TokenId)>, more: set<(TxId, TokenId)>)
    requires Struct(m) && t in m.txs && RetiredWasFound(m, found)
    ensures RetiredWasFound(CommitTx(m, t), found + more)
  {
    var m' := CommitTx(m, t);
    forall k: TokenId | IsRetired(m', k) ensures CommittedFinder(m', found + more, k) {
      if IsRetired(m, k) {
        assert CommittedFinder(m, found, k);
      } else {
        assert OwnRetired(m, t, k) && t in m'.done;
      }
    }
    CommitEvolves(m, t);
    forall o: TxId, k: TokenId | OwnRetired(m', o, k) ensures IsRetired(m', k) || (o, k) in found {
      assert OwnRetired(m, o, k);
    }
    forall o: TxId, k: TokenId | IsDue(m', o, k) ensures (o, k) in found {
      assert IsDue(m, o, k);
    }
  }

  lemma PassiveKeepsFinders(
      cfg: SessionConfig, m: Machine, l: Label, m': Machine, found: set<(TxId, TokenId)>, more: set<(TxId, TokenId)>)
    requires cfg.Valid() && Moves(cfg, m, l, m') && RetiredWasFound(m, found) && !l.Execute? && !l.Commit?
    ensures RetiredWasFound(m', found + more)
  {
    assert m'.tokens == m.tokens && m'.done == m.done;
    forall k: TokenId | IsRetired(m', k) ensures CommittedFinder(m', found + more, k) {
      assert IsRetired(m, k) && CommittedFinder(m, found, k);
    }
    forall o: TxId, k: TokenId | OwnRetired(m', o, k) ensures IsRetired(m', k) || (o, k) in found {
      assert OwnRetired(m, o, k);
    }
    forall o: TxId, k: TokenId | IsDue(m', o, k) ensures (o, k) in found {
      assert IsDue(m, o, k);
    }
  }

  // ----- what was found is revoked -----

  lemma OwnRetiredStays(cfg: SessionConfig, m: Machine, t: TxId, ch: Choice, e: Effect, m': Machine, k: TokenId)
    requires cfg.Valid() && Ran(cfg, m, t, ch, e, m') && Struct(m) && OwnRetired(m, t, k)
    ensures OwnRetired(m', t, k)
  {
    StatementEffect(cfg, m, t, ch);
    assert DirtyTokenOk(m, k);
  }

  lemma DueIsSettled(cfg: SessionConfig, m: Machine, t: TxId, ch: Choice, e: Effect, m': Machine, k: TokenId)
    requires cfg.Valid() && Ran(cfg, m, t, ch, e, m') && IsDue(m, t, k) && k in m.tokens
    ensures k in m'.gone || IsRetired(m', k) || OwnRetired(m', t, k) || IsDue(m', t, k)
  {
  }

  lemma FoundNowIsSettled(cfg: SessionConfig, m: Machine, t: TxId, ch: Choice, e: Effect, m': Machine, k: TokenId)
    requires cfg.Valid() && Ran(cfg, m, t, ch, e, m') && Struct(m) && Finds(m, m', t, k)
    ensures IsRetired(m', k) || OwnRetired(m', t, k) || IsDue(m', t, k)
  {
    assert k in m.dirtyTokens ==> DirtyTokenOk(m, k);
    if SeeToken(m, t, k).value.revokedAt.None? {
      assert k in LiveTokensOf(m, t, m.txs[t].pc.of);
    }
  }

  lemma ExecuteSettlesOwn(cfg: SessionConfig, m: Machine, t: TxId, ch: Choice, e: Effect, m': Machine, k: TokenId)
    requires cfg.Valid() && Ran(cfg, m, t, ch, e, m') && Struct(m) && SpansOk(m)
    requires Settled(m, t, k) || Finds(m, m', t, k)
    ensures Settled(m', t, k)
  {
    if Finds(m, m', t, k) {
      FoundNowIsSettled(cfg, m, t, ch, e, m', k);
    } else if IsDue(m, t, k) {
      DueIsSettled(cfg, m, t, ch, e, m', k);
    } else if OwnRetired(m, t, k) {
      OwnRetiredStays(cfg, m, t, ch, e, m', k);
    }
    ExecuteKeepsBegun(m, t, m.txs[t], e);
    ExecuteFrame(m, t, m.txs[t], e);
  }

  lemma ExecuteKeepsSettled(
      cfg: SessionConfig, m: Machine, t: TxId, ch: Choice, e: Effect, m': Machine, found: set<(TxId, TokenId)>)
    requires cfg.Valid() && Ran(cfg, m, t, ch, e, m') && Struct(m) && SpansOk(m) && FoundIsSettled(m, found)
    ensures FoundIsSettled(m', found + NowFound(m, m'))
  {
    ExecuteKeepsBegun(m, t, m.txs[t], e);
    ExecuteFrame(m, t, m.txs[t], e);
    forall o: TxId, k: TokenId | (o, k) in found + NowFound(m, m') ensures Settled(m', o, k) {
      if o == t {
        ExecuteSettlesOwn(cfg, m, t, ch, e, m', k);
      } else {
        OthersOwnTheSame(cfg, m, t, ch, e, m', o, k);
        assert !Finds(m, m', o, k);
        assert Settled(m, o, k);
      }
    }
  }

  /** Only a statement finds anything. */
  lemma OtherStepsFindNothing(cfg: SessionConfig, m: Machine, l: Label, m': Machine, t: TxId, k: TokenId)
    requires cfg.Valid() && Struct(m) && Moves(cfg, m, l, m') && !l.Execute?
    ensures !Finds(m, m', t, k)
  {
    StepFrame(cfg, m, l, m');
    if t in m.txs && !((l.Commit? || l.Abort?) && l.t == t) {
      StepLeavesOthers(cfg, m, l, t);
    }
  }

  lemma CommitSettles(cfg: SessionConfig, m: Machine, t: TxId, m': Machine, o: TxId, k: TokenId)
    requires cfg.Valid() && Struct(m) && SpansOk(m) && Moves(cfg, m, Commit(t), m') && Settled(m, o, k)
    ensures Settled(m', o, k)
  {
    CommitEvolves(m, t);
    if o != t && o in m.txs {
      StepLeavesOthers(cfg, m, Commit(t), o);
    }
  }

  lemma PassiveSettles(cfg: SessionConfig, m: Machine, l: Label, m': Machine, o: TxId, k: TokenId)
    requires cfg.Valid() && Struct(m) && SpansOk(m) && Moves(cfg, m, l, m') && Settled(m, o, k)
    requires !l.Execute? && !l.Commit?
    ensures Settled(m', o, k)
  {
    assert m'.tokens == m.tokens && m'.done == m.done && m.gone <= m'.gone;
    if o in m.txs && !(l.Abort? && l.t == o) {
      StepLeavesOthers(cfg, m, l, o);
    }
  }

  lemma OtherStepsKeepSettled(cfg: SessionConfig, m: Machine, l: Label, m': Machine, found: set<(TxId, TokenId)>)
    requires cfg.Valid() && Struct(m) && SpansOk(m) && Moves(cfg, m, l, m') && FoundIsSettled(m, found) && !l.Execute?
    ensures FoundIsSettled(m', found + NowFound(m, m'))
  {
    forall o: TxId, k: TokenId | (o, k) in found + NowFound(m, m') ensures Settled(m', o, k) {
      OtherStepsFindNothing(cfg, m, l, m', o, k);
      assert Settled(m, o, k);
      if l.Commit? {
        CommitSettles(cfg, m, l.t, m', o, k);
      } else {
        PassiveSettles(cfg, m, l, m', o, k);
      }
    }
  }

  // ----- whole runs -----

  lemma OthersMintLast(cfg: SessionConfig, m: Machine, l: Label, m': Machine, t: TxId)
    requires cfg.Valid() && Struct(m) && Moves(cfg, m, l, m') && t in m.txs && t in m'.txs && MintsLast(m, t)
    requires !(l.Execute? && l.t == t) && Evolves(m, m')
    ensures MintsLast(m', t)
  {
    StepFrame(cfg, m, l, m');
    StepLeavesOthers(cfg, m, l, t);
    forall k | OwnToken(m', t, k).Some? && IsRevoking(m'.txs[t].pc) ensures k in m'.tokens {
      assert OwnToken(m, t, k).Some?;
    }
  }

  lemma NewcomersMintLast(cfg: SessionConfig, m: Machine, l: Label, m': Machine)
    requires cfg.Valid() && Struct(m) && Moves(cfg, m, l, m') && l.Begin?
    ensures l.t in m'.txs && MintsLast(m', l.t)
  {
    assert forall k :: k in m.dirtyTokens ==> DirtyTokenOk(m, k);
  }

  lemma StepMintsLast(cfg: SessionConfig, m: Machine, l: Label, m': Machine, t: TxId)
    requires cfg.Valid() && Safe(cfg, m) && Moves(cfg, m, l, m') && t in m'.txs && (t in m.txs ==> MintsLast(m, t))
    ensures MintsLast(m', t)
  {
    StepKeepsStruct(cfg, m, l);
    if l.Execute? && l.t == t {
      assert PcOk(cfg, m, t, m.txs[t]);
      OwnStepMintsLast(cfg, m, t, l.choice, Statement(cfg, m, t, m.txs[t], l.choice), m');
    } else if t in m.txs {
      OthersMintLast(cfg, m, l, m', t);
    } else {
      StepFrame(cfg, m, l, m');
      NewcomersMintLast(cfg, m, l, m');
    }
  }

  lemma StepKeepsFound(cfg: SessionConfig, m: Machine, l: Label, m': Machine, found: set<(TxId, TokenId)>)
    requires cfg.Valid() && Safe(cfg, m) && SpansOk(m) && Moves(cfg, m, l, m') && RetirementOk(m, found)
    ensures RetiredWasFound(m', found + NowFound(m, m')) && FoundIsSettled(m', found + NowFound(m, m'))
  {
    StepKeepsStruct(cfg, m, l);
    if l.Execute? {
      assert PcOk(cfg, m, l.t, m.txs[l.t]) && MintsLast(m, l.t);
      var e := Statement(cfg, m, l.t, m.txs[l.t], l.choice);
      ExecuteKeepsFinders(cfg, m, l.t, l.choice, e, m', found);
      ExecuteKeepsSettled(cfg, m, l.t, l.choice, e, m', found);
    } else {
      OtherStepsKeepSettled(cfg, m, l, m', found);
      if l.Commit? {
        CommitKeepsFinders(m, l.t, found, NowFound(m, m'));
      } else {
        PassiveKeepsFinders(cfg, m, l, m', found, NowFound(m, m'));
      }
    }
  }

  lemma RunStepKeepsRetirement(cfg: SessionConfig, run: seq<Machine>, i: nat)
    requires cfg.Valid() && Reachable(cfg, run) && i < |run| - 1 && RetirementOk(run[i], Found(run, i))
    ensures RetirementOk(run[i + 1], Found(run, i + 1))
  {
    RunIsSafe(cfg, run, i);
    RunSpans(cfg, run, i);
    var l :| Moves(cfg, run[i], l, run[i + 1]);
    var next := run[i + 1];
    StepKeepsFound(cfg, run[i], l, next, Found(run, i));
    forall t | t in next.txs ensures MintsLast(next, t) {
      StepMintsLast(cfg, run[i], l, next, t);
    }
  }

  lemma {:induction false} RunKeepsRetirement(cfg: SessionConfig, run: seq<Machine>, i: nat, n: nat)
    requires cfg.Valid() && Reachable(cfg, run) && i <= n < |run| && RetirementOk(run[i], Found(run, i))
    ensures RetirementOk(run[n], Found(run, n))
    decreases n - i
  {
    if i < n {
      RunStepKeepsRetirement(cfg, run, i);
      RunKeepsRetirement(cfg, run, i + 1, n);
    }
  }

  lemma RunRetirement(cfg: SessionConfig, run: seq<Machine>, n: nat)
    requires cfg.Valid() && Reachable(cfg, run) && n < |run|
    ensures RetirementOk(run[n], Found(run, n))
  {
    RunKeepsRetirement(cfg, run, 0, n);
  }

  /** By moment `n`, a transaction that committed had found `k` committed when it selected the session's live tokens. */
  ghost predicate FoundByACommit(run: seq<Machine>, n: nat, k: TokenId)
    requires n < |run|
  {
    exists t, j :: t in run[n].done && 0 <= j < n && Finds(run[j], run[j + 1], t, k)
  }

  /**
   * Over every run, a committed token that has not been deleted is revoked if and only if some committed
   * transaction found its row committed when it selected the live tokens of its session.
   */
  lemma RetiredExactlyWhenFound(cfg: SessionConfig, run: seq<Machine>, n: nat, k: TokenId)
    requires cfg.Valid() && Reachable(cfg, run) && n < |run| && k in run[n].tokens && k !in run[n].gone
    ensures run[n].tokens[k].revokedAt.Some? <==> FoundByACommit(run, n, k)
  {
    RunRetirement(cfg, run, n);
    if IsRetired(run[n], k) {
      assert CommittedFinder(run[n], Found(run, n), k);
      var t: TxId :| t in run[n].done && (t, k) in Found(run, n);
      FoundMeans(run, n, t, k);
    }
    if FoundByACommit(run, n, k) {
      var t, j :| t in run[n].done && 0 <= j < n && Finds(run[j], run[j + 1], t, k);
      FoundMeans(run, n, t, k);
      assert Settled(run[n], t, k);
    }
  }

  // ----- every revocation selects the tokens of what it revokes -----

  predicate ToSelect(m: Machine, r: TxId, s: SessionId) {
    r in m.txs && (m.txs[r].pc.RevokeRows? || (m.txs[r].pc.SelectTokens? && s in m.txs[r].pc.of))
  }

  ghost predicate HasSelected(run: seq<Machine>, n: nat, r: TxId, s: SessionId)
    requires n < |run|
  {
    exists j :: 0 <= j < n && Selects(run[j], run[j + 1], r, s)
  }

  lemma StatementSelectsNext(cfg: SessionConfig, m: Machine, r: TxId, ch: Choice, e: Effect, m': Machine, s: SessionId)
    requires cfg.Valid() && Ran(cfg, m, r, ch, e, m') && r in m'.txs && s in m'.txs[r].ids
    requires s in m.txs[r].ids ==> ToSelect(m, r, s)
    ensures ToSelect(m', r, s) || Selects(m, m', r, s)
  {
  }

  lemma StepSelects(cfg: SessionConfig, m: Machine, l: Label, m': Machine, r: TxId, s: SessionId)
    requires cfg.Valid() && Safe(cfg, m) && Moves(cfg, m, l, m') && Holds(m', r, s)
    requires Holds(m, r, s) ==> ToSelect(m, r, s)
    ensures ToSelect(m', r, s) || Selects(m, m', r, s)
  {
    if l.Execute? && l.t == r {
      StepKeepsStruct(cfg, m, l);
      assert PcOk(cfg, m, r, m.txs[r]);
      ExecuteFrame(m, r, m.txs[r], Statement(cfg, m, r, m.txs[r], l.choice));
      StatementSelectsNext(cfg, m, r, l.choice, Statement(cfg, m, r, m.txs[r], l.choice), m', s);
    } else {
      OtherStepsHold(cfg, m, l, m', r, s);
      StepFrame(cfg, m, l, m');
      if r in m.txs && !(l.Commit? && l.t == r) && !(l.Abort? && l.t == r) {
        StepLeavesOthers(cfg, m, l, r);
      }
    }
  }

  ghost predicate SelectsInTime(run: seq<Machine>, i: nat, r: TxId, s: SessionId)
    requires i < |run|
  {
    Holds(run[i], r, s) ==> ToSelect(run[i], r, s) || HasSelected(run, i, r, s)
  }

  lemma RunStepSelects(cfg: SessionConfig, run: seq<Machine>, i: nat, r: TxId, s: SessionId)
    requires cfg.Valid() && Reachable(cfg, run) && i < |run| - 1 && SelectsInTime(run, i, r, s)
    ensures SelectsInTime(run, i + 1, r, s)
  {
    if HasSelected(run, i, r, s) {
      var j :| 0 <= j < i && Selects(run[j], run[j + 1], r, s);
      assert HasSelected(run, i + 1, r, s);
    } else if Holds(run[i + 1], r, s) {
      RunIsSafe(cfg, run, i);
      var l :| Moves(cfg, run[i], l, run[i + 1]);
      StepSelects(cfg, run[i], l, run[i + 1], r, s);
    }
  }

  lemma {:induction false} HoldersSelect(cfg: SessionConfig, run: seq<Machine>, i: nat, n: nat, r: TxId, s: SessionId)
    requires cfg.Valid() && Reachable(cfg, run) && i <= n < |run| && SelectsInTime(run, i, r, s)
    ensures SelectsInTime(run, n, r, s)
    decreases n - i
  {
    if i < n {
      RunStepSelects(cfg, run, i, r, s);
      HoldersSelect(cfg, run, i + 1, n, r, s);
    }
  }

  lemma RevokersSelect(cfg: SessionConfig, run: seq<Machine>, n: nat, r: TxId, s: SessionId)
    requires cfg.Valid() && Reachable(cfg, run) && n < |run| && r in run[n].done && s in run[n].done[r].ids
    ensures HasSelected(run, n, r, s)
  {
    RunIsSafe(cfg, run, n);
    HoldersSelect(cfg, run, 0, n, r, s);
  }

  /** Whenever a transaction that has committed by `n` selected the tokens of `s`, the row of `k` was not committed. */
  ghost predicate AlwaysTooEarly(run: seq<Machine>, n: nat, k: TokenId, s: SessionId)
    requires n < |run|
  {
    forall t, j :: t in run[n].done && 0 <= j < n && Selects(run[j], run[j + 1], t, s) ==> k !in run[j].tokens
  }

  lemma FoundMeansSelected(cfg: SessionConfig, run: seq<Machine>, n: nat, k: TokenId, j: nat, t: TxId)
    requires cfg.Valid() && Reachable(cfg, run) && j < n < |run| && k in run[n].tokens && k !in run[n].gone
    ensures var s := run[n].tokens[k].sessionId;
      Finds(run[j], run[j + 1], t, k) <==> k in run[j].tokens && Selects(run[j], run[j + 1], t, s)
  {
    CommittedRowsAreMonotone(cfg, run, j, n);
  }

  lemma FoundWasInTime(cfg: SessionConfig, run: seq<Machine>, n: nat, k: TokenId)
    requires cfg.Valid() && Reachable(cfg, run) && n < |run| && k in run[n].tokens && k !in run[n].gone
    requires FoundByACommit(run, n, k)
    ensures !AlwaysTooEarly(run, n, k, run[n].tokens[k].sessionId)
  {
    var t, j :| t in run[n].done && 0 <= j < n && Finds(run[j], run[j + 1], t, k);
    FoundMeansSelected(cfg, run, n, k, j, t);
  }

  lemma InTimeWasFound(cfg: SessionConfig, run: seq<Machine>, n: nat, k: TokenId)
    requires cfg.Valid() && Reachable(cfg, run) && n < |run| && k in run[n].tokens && k !in run[n].gone
    requires !AlwaysTooEarly(run, n, k, run[n].tokens[k].sessionId)
    ensures FoundByACommit(run, n, k)
  {
    var s := run[n].tokens[k].sessionId;
    var t, j :| t in run[n].done && 0 <= j < n && Selects(run[j], run[j + 1], t, s) && k in run[j].tokens;
    FoundMeansSelected(cfg, run, n, k, j, t);
  }

  /**
   * Over every run, a committed token of a revoked session is unrevoked if and only if its row was still
   * uncommitted each time a committed transaction selected the live tokens of the session. There were
   * such times: every transaction that committed a revocation of the session made the selection.
   */
  lemma LooseExactlyWhenTooLate(cfg: SessionConfig, run: seq<Machine>, n: nat, k: TokenId, s: SessionId)
    requires cfg.Valid() && Reachable(cfg, run) && n < |run| && IsRevoked(run[n], s)
    requires k in run[n].tokens && k !in run[n].gone && run[n].tokens[k].sessionId == s
    ensures run[n].tokens[k].revokedAt.None? <==> AlwaysTooEarly(run, n, k, s)
    ensures exists r :: r in run[n].done && s in run[n].done[r].ids
    ensures forall r :: r in run[n].done && s in run[n].done[r].ids ==> HasSelected(run, n, r, s)
  {
    RetiredExactlyWhenFound(cfg, run, n, k);
    if FoundByACommit(run, n, k) {
      FoundWasInTime(cfg, run, n, k);
    }
    if !AlwaysTooEarly(run, n, k, s) {
      InTimeWasFound(cfg, run, n, k);
    }
    RunIsAccounted(cfg, run, n);
    forall r | r in run[n].done && s in run[n].done[r].ids ensures HasSelected(run, n, r, s) {
      RevokersSelect(cfg, run, n, r, s);
    }
  }
}
