/** The invariant of every interleaving of the session transactions, and its preservation. */
module Safety {
  import opened AuthModel
  import opened ReadCommitted
  import opened Evolution
  import opened Assertions
  import opened Rows
  import opened OwnSteps

  predicate IsRevoked(m: Machine, s: SessionId) {
    s in m.sessions && m.sessions[s].revokedAt.Some?
  }

  /** An accepted rotation: live rows, a used token, and a child one step down the lineage. */
  predicate RotationOk(
      cfg: SessionConfig, m: Machine, t: TxId, tx: Tx, sid: SessionId, child: TokenId, graceReplay: bool) {
    && RotationLive(m, tx, sid)
    && m.tokens[tx.job.token].usedAt.Some?
    && (if graceReplay
        then IsWithinGrace(m.tokens[tx.job.token].usedAt.value, tx.now, cfg.graceSeconds)
        else m.tokens[tx.job.token].usedAt == Some(tx.now))
    && child in m.tokens && m.tokens[child].sessionId == sid
    && child in m.born && tx.job.token in m.born
    && m.born[child] == Birth(sid, m.born[tx.job.token].lineage + [child], t)
  }

  /** What holds of a transaction ever after its commit. */
  ghost predicate DoneOk(cfg: SessionConfig, m: Machine, t: TxId, tx: Tx) {
    && tx.pc.Ready?
    && tx.ids <= tx.targets
    && (forall s :: s in tx.targets ==> IsRevoked(m, s))
    && (match tx.pc.result
        case Rotated(sid, child, graceReplay) => RotationOk(cfg, m, t, tx, sid, child, graceReplay)
        case Reused(sid, usedAt) => sid in tx.targets && ReuseFacts(cfg, m, tx, sid, usedAt)
        case _ => true)
  }

  /** Only sessions whose revocation committed are denylisted, and no returned unit is missing. */
  ghost predicate DenylistOk(m: Machine) {
    && (forall s :: s in m.denylist ==> IsRevoked(m, s))
    && (forall t :: t in m.notified ==> t in m.done && m.done[t].ids <= m.denylist)
  }

  ghost predicate AllAssertions(cfg: SessionConfig, m: Machine) {
    forall t :: t in m.txs ==> PcOk(cfg, m, t, m.txs[t])
  }

  ghost predicate AllDone(cfg: SessionConfig, m: Machine) {
    forall t :: t in m.done ==> DoneOk(cfg, m, t, m.done[t])
  }

  ghost predicate Safe(cfg: SessionConfig, m: Machine) {
    Struct(m) && BirthsOk(m) && RowsOk(cfg, m) && AllAssertions(cfg, m) && AllDone(cfg, m) && DenylistOk(m)
  }

  lemma CommitMakesDone(cfg: SessionConfig, m: Machine, t: TxId)
    requires Struct(m) && t in m.txs && m.txs[t].pc.Ready? && PcOk(cfg, m, t, m.txs[t])
    ensures DoneOk(cfg, CommitTx(m, t), t, m.txs[t])
  {
    CommitEvolves(m, t);
    var m' := CommitTx(m, t);
    forall s | s in m.txs[t].targets ensures IsRevoked(m', s) {
      assert SeesRevoked(m, t, s);
    }
    if m.txs[t].job.Rotate? {
      assert OwnToken(m, t, m.txs[t].job.token).Some? ==>
        m'.tokens[m.txs[t].job.token] == OwnToken(m, t, m.txs[t].job.token).value;
    }
  }

  lemma DoneIsStable(cfg: SessionConfig, m: Machine, m': Machine, t: TxId, tx: Tx)
    requires Evolves(m, m') && DoneOk(cfg, m, t, tx)
    ensures DoneOk(cfg, m', t, tx)
  {
    forall s | s in tx.targets ensures IsRevoked(m', s) {
      assert IsRevoked(m, s);
    }
  }

  lemma FirstAssertion(cfg: SessionConfig, m: Machine, t: TxId, job: Job)
    requires cfg.Valid() && Struct(m) && Enabled(cfg, m, Begin(t, job))
    ensures var m' := Step(cfg, m, Begin(t, job)); PcOk(cfg, m', t, m'.txs[t])
  {
    var m' := Step(cfg, m, Begin(t, job));
    forall s ensures OwnSession(m', t, s).None? {
      assert s in m.dirtySessions ==> DirtySessionOk(m, s);
    }
    forall k ensures OwnToken(m', t, k).None? {
      assert k in m.dirtyTokens ==> DirtyTokenOk(m, k);
    }
  }

  /** A statement commits nothing and notifies nobody. */
  lemma ExecuteFrame(m: Machine, t: TxId, tx: Tx, e: Effect)
    requires !e.Wait?
    ensures var m' := ApplyEffect(m, t, tx, e);
      m'.done == m.done && m'.denylist == m.denylist && m'.notified == m.notified && m'.txs.Keys == m.txs.Keys + {t}
  {
  }

  /** Where the transactions of a state come from. */
  lemma StepFrame(cfg: SessionConfig, m: Machine, l: Label, m': Machine)
    requires cfg.Valid() && Moves(cfg, m, l, m')
    ensures forall t :: t in m'.txs ==> t in m.txs || (l.Begin? && l.t == t)
    ensures l.Commit? || m'.done == m.done
    ensures l.Notify? || (m'.denylist == m.denylist && m'.notified == m.notified)
    ensures (l.Commit? || l.Abort?) ==> l.t !in m'.txs
  {
    if l.Execute? {
      ExecuteFrame(m, l.t, m.txs[l.t], Statement(cfg, m, l.t, m.txs[l.t], l.choice));
    }
  }

  lemma StepKeepsAssertions(cfg: SessionConfig, m: Machine, l: Label, m': Machine)
    requires cfg.Valid() && Safe(cfg, m) && Moves(cfg, m, l, m') && Evolves(m, m')
    ensures AllAssertions(cfg, m')
  {
    StepFrame(cfg, m, l, m');
    forall t | t in m'.txs ensures PcOk(cfg, m', t, m'.txs[t]) {
      StepKeepsAssertion(cfg, m, l, m', t);
    }
  }

  lemma StepKeepsAssertion(cfg: SessionConfig, m: Machine, l: Label, m': Machine, t: TxId)
    requires cfg.Valid() && Safe(cfg, m) && Moves(cfg, m, l, m') && Evolves(m, m') && t in m'.txs
    requires t in m.txs || (l.Begin? && l.t == t)
    requires (l.Commit? || l.Abort?) ==> l.t != t
    ensures PcOk(cfg, m', t, m'.txs[t])
  {
    if l.Execute? && l.t == t {
      var e := Statement(cfg, m, t, m.txs[t], l.choice);
      assert Ran(cfg, m, t, l.choice, e, m');
      OwnStepsKeepAssertions(cfg, m, t, l.choice, e, m');
    } else if l.Begin? && l.t == t {
      FirstAssertion(cfg, m, t, l.job);
    } else {
      assert PcOk(cfg, m, t, m.txs[t]);
      StepLeavesOthers(cfg, m, l, t);
      AssertionsAreStable(cfg, m, m', t, m.txs[t]);
    }
  }

  lemma CommitKeepsDone(cfg: SessionConfig, m: Machine, u: TxId)
    requires cfg.Valid() && Struct(m) && AllAssertions(cfg, m) && AllDone(cfg, m)
    requires u in m.txs && m.txs[u].pc.Ready?
    ensures AllDone(cfg, CommitTx(m, u))
  {
    var m' := CommitTx(m, u);
    CommitEvolves(m, u);
    forall t | t in m'.done ensures DoneOk(cfg, m', t, m'.done[t]) {
      if t == u {
        assert PcOk(cfg, m, u, m.txs[u]);
        CommitMakesDone(cfg, m, u);
      } else {
        assert DoneOk(cfg, m, t, m.done[t]);
        DoneIsStable(cfg, m, m', t, m.done[t]);
      }
    }
  }

  lemma OtherStepsKeepDone(cfg: SessionConfig, m: Machine, m': Machine)
    requires AllDone(cfg, m) && Evolves(m, m') && m'.done == m.done
    ensures AllDone(cfg, m')
  {
    forall t | t in m'.done ensures DoneOk(cfg, m', t, m'.done[t]) {
      assert DoneOk(cfg, m, t, m.done[t]);
      DoneIsStable(cfg, m, m', t, m.done[t]);
    }
  }

  lemma StepKeepsDone(cfg: SessionConfig, m: Machine, l: Label, m': Machine)
    requires cfg.Valid() && Safe(cfg, m) && Moves(cfg, m, l, m') && Evolves(m, m')
    ensures AllDone(cfg, m')
  {
    if l.Commit? {
      CommitKeepsDone(cfg, m, l.t);
    } else {
      StepFrame(cfg, m, l, m');
      OtherStepsKeepDone(cfg, m, m');
    }
  }

  lemma NotifyKeepsDenylist(cfg: SessionConfig, m: Machine, t: TxId, m': Machine)
    requires AllDone(cfg, m) && DenylistOk(m) && t in m.done && Evolves(m, m') && m'.done == m.done
    requires m'.denylist == m.denylist + m.done[t].ids && m'.notified == m.notified + {t}
    ensures DenylistOk(m')
  {
    assert DoneOk(cfg, m, t, m.done[t]);
    forall s | s in m'.denylist ensures IsRevoked(m', s) {
      assert IsRevoked(m, s);
    }
  }

  lemma OtherStepsKeepDenylist(m: Machine, m': Machine)
    requires DenylistOk(m) && Evolves(m, m') && m'.denylist == m.denylist && m'.notified == m.notified
    ensures DenylistOk(m')
  {
    forall s | s in m'.denylist ensures IsRevoked(m', s) {
      assert IsRevoked(m, s);
    }
  }

  lemma StepKeepsDenylist(cfg: SessionConfig, m: Machine, l: Label, m': Machine)
    requires cfg.Valid() && Safe(cfg, m) && Moves(cfg, m, l, m') && Evolves(m, m')
    ensures DenylistOk(m')
  {
    if l.Notify? {
      NotifyKeepsDenylist(cfg, m, l.t, m');
    } else {
      StepFrame(cfg, m, l, m');
      OtherStepsKeepDenylist(m, m');
    }
  }

  lemma ExecuteKeepsRows(cfg: SessionConfig, m: Machine, t: TxId, e: Effect)
    requires Struct(m) && BirthsOk(m) && RowsOk(cfg, m) && t in m.txs && !e.Wait?
    requires EffectOk(m, t, m.txs[t], e) && RowEffectOk(cfg, m, t, m.txs[t], e)
    ensures RowsOk(cfg, ApplyEffect(m, t, m.txs[t], e)) && BirthsOk(ApplyEffect(m, t, m.txs[t], e))
  {
    if e.PutSession? {
      PutSessionKeepsRows(cfg, m, t, m.txs[t], e);
    } else if e.PutToken? {
      PutTokenKeepsRows(cfg, m, t, m.txs[t], e);
      if e.tid in m.born {
        UpdatedTokenKeepsBirths(m, t, m.txs[t], e);
      } else {
        NewTokenKeepsBirths(cfg, m, t, m.txs[t], e);
      }
    } else {
      QuietStepKeepsRows(cfg, m, ApplyEffect(m, t, m.txs[t], e));
    }
  }

  /** Steps that change no row keep the row invariants. */
  lemma QuietStepKeepsRows(cfg: SessionConfig, m: Machine, m': Machine)
    requires BirthsOk(m) && RowsOk(cfg, m)
    requires m'.sessions == m.sessions && m'.tokens == m.tokens && m'.born == m.born
    requires m'.dirtySessions == m.dirtySessions && m'.dirtyTokens == m.dirtyTokens
    ensures RowsOk(cfg, m') && BirthsOk(m')
  {
    forall k | k in m'.tokens ensures CommittedTokenOk(cfg, m', k) {
      assert CommittedTokenOk(cfg, m, k);
    }
    forall k | k in m'.dirtyTokens ensures DirtyTokenRowOk(cfg, m', m'.dirtyTokens[k].owner, m'.dirtyTokens[k].row) {
      assert DirtyTokenRowOk(cfg, m, m.dirtyTokens[k].owner, m.dirtyTokens[k].row);
    }
  }

  lemma AbortKeepsRows(cfg: SessionConfig, m: Machine, t: TxId)
    requires BirthsOk(m) && RowsOk(cfg, m)
    ensures RowsOk(cfg, Release(m, t)) && BirthsOk(Release(m, t))
  {
    var m' := Release(m, t);
    forall k | k in m'.tokens ensures CommittedTokenOk(cfg, m', k) {
      assert CommittedTokenOk(cfg, m, k);
    }
    forall k | k in m'.dirtyTokens ensures DirtyTokenRowOk(cfg, m', m'.dirtyTokens[k].owner, m'.dirtyTokens[k].row) {
      assert DirtyTokenRowOk(cfg, m, m.dirtyTokens[k].owner, m.dirtyTokens[k].row);
    }
  }

  lemma StepKeepsRows(cfg: SessionConfig, m: Machine, l: Label, m': Machine)
    requires cfg.Valid() && Safe(cfg, m) && Moves(cfg, m, l, m')
    ensures RowsOk(cfg, m') && BirthsOk(m')
  {
    match l
    case Execute(t, ch) =>
      StatementEffect(cfg, m, t, ch);
      StatementRows(cfg, m, t, ch);
      ExecuteKeepsRows(cfg, m, t, Statement(cfg, m, t, m.txs[t], ch));
    case Commit(t) =>
      CommitKeepsRows(cfg, m, t);
      CommitKeepsBirths(m, t);
    case Abort(t) => AbortKeepsRows(cfg, m, t);
    case _ => QuietStepKeepsRows(cfg, m, m');
  }

  lemma StepKeepsSafe(cfg: SessionConfig, m: Machine, l: Label, m': Machine)
    requires cfg.Valid() && Safe(cfg, m) && Moves(cfg, m, l, m')
    ensures Safe(cfg, m') && Evolves(m, m')
  {
    StepKeepsStruct(cfg, m, l);
    StepKeepsRows(cfg, m, l, m');
    StepKeepsAssertions(cfg, m, l, m');
    StepKeepsDone(cfg, m, l, m');
    StepKeepsDenylist(cfg, m, l, m');
  }

  lemma {:induction false} RunIsSafe(cfg: SessionConfig, run: seq<Machine>, i: nat)
    requires cfg.Valid() && Reachable(cfg, run) && i < |run|
    ensures Safe(cfg, run[i])
  {
    if i > 0 {
      RunIsSafe(cfg, run, i - 1);
      var l :| Moves(cfg, run[i - 1], l, run[i - 1 + 1]);
      StepKeepsSafe(cfg, run[i - 1], l, run[i]);
    }
  }
}
