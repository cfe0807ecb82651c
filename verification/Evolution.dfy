/** What every statement of every interleaving keeps: committed rows only ever move forward. */
module Evolution {
  import opened AuthModel
  import opened ReadCommitted

  ghost predicate SessionsLater(a: map<SessionId, Session>, b: map<SessionId, Session>) {
    forall s :: s in a ==> s in b && SessionLater(a[s], b[s])
  }

  ghost predicate TokensLater(a: map<TokenId, RefreshToken>, b: map<TokenId, RefreshToken>) {
    forall k :: k in a ==> k in b && TokenLater(a[k], b[k])
  }

  ghost predicate Extends<K(!new), V(!new)>(a: map<K, V>, b: map<K, V>) {
    forall k :: k in a ==> k in b && b[k] == a[k]
  }

  ghost predicate Evolves(m: Machine, m': Machine) {
    && m.clock <= m'.clock
    && SessionsLater(m.sessions, m'.sessions)
    && TokensLater(m.tokens, m'.tokens)
    && m.gone <= m'.gone
    && Extends(m.done, m'.done)
    && m.denylist <= m'.denylist
    && Extends(m.born, m'.born)
    && Extends(m.creators, m'.creators)
    && Extends(m.snaps, m'.snaps)
  }

  /** A dirty session row is fresh, or a later version of the committed one. */
  ghost predicate DirtySessionOk(m: Machine, s: SessionId)
    requires s in m.dirtySessions
  {
    && s in m.creators
    && m.dirtySessions[s].owner in m.txs
    && (s in m.sessions ==> SessionLater(m.sessions[s], m.dirtySessions[s].row))
  }

  ghost predicate DirtyTokenOk(m: Machine, k: TokenId)
    requires k in m.dirtyTokens
  {
    && k in m.born && k !in m.gone
    && m.dirtyTokens[k].owner in m.txs
    && (k in m.tokens ==> TokenLater(m.tokens[k], m.dirtyTokens[k].row))
  }

  ghost predicate Struct(m: Machine) {
    && m.sessions.Keys <= m.creators.Keys
    && m.tokens.Keys <= m.born.Keys
    && m.gone <= m.tokens.Keys
    && (forall s :: s in m.dirtySessions ==> DirtySessionOk(m, s))
    && (forall k :: k in m.dirtyTokens ==> DirtyTokenOk(m, k))
    && (forall t :: t in m.txs ==> t !in m.done && m.txs[t].now <= m.clock)
    && (forall t :: t in m.done ==> m.done[t].now <= m.clock)
    && (forall t :: t in m.txs && m.txs[t].pc.ReadActive? ==> t !in m.snaps)  // one snapshot per login
  }

  /** A statement writes one row: a fresh one, or a later version of an unlocked one it can see. */
  ghost predicate EffectOk(m: Machine, t: TxId, tx: Tx, e: Effect) {
    match e
    case PutSession(s, row, next) =>
      && !next.ReadActive?
      && (if s in m.creators
          then !SessionLocked(m, t, s) && SeeSession(m, t, s).Some? && SessionLater(SeeSession(m, t, s).value, row)
          else tx.pc.InsertSession?)
    case PutToken(k, row, next) =>
      && !next.ReadActive?
      && (if k in m.born
          then !TokenLocked(m, t, k) && SeeToken(m, t, k).Some? && TokenLater(SeeToken(m, t, k).value, row)
          else tx.pc.Mint? || tx.pc.InsertToken?)
    case TakeSnapshot(_, next) => !next.ReadActive? && t !in m.snaps
    case Go(next) => !next.ReadActive?
    case Select(_, _, next) => !next.ReadActive?
    case Wait => true
  }

  lemma StatementEffect(cfg: SessionConfig, m: Machine, t: TxId, ch: Choice)
    requires cfg.Valid() && Struct(m) && t in m.txs
    ensures EffectOk(m, t, m.txs[t], Statement(cfg, m, t, m.txs[t], ch))
  {
  }

  lemma PutSessionKeepsStruct(m: Machine, t: TxId, e: Effect)
    requires Struct(m) && t in m.txs && e.PutSession? && EffectOk(m, t, m.txs[t], e)
    ensures var m' := ApplyEffect(m, t, m.txs[t], e); Struct(m') && Evolves(m, m')
  {
    var m' := ApplyEffect(m, t, m.txs[t], e);
    forall s | s in m'.dirtySessions ensures DirtySessionOk(m', s) {
      assert s != e.sid ==> DirtySessionOk(m, s);
    }
    forall k | k in m'.dirtyTokens ensures DirtyTokenOk(m', k) {
      assert DirtyTokenOk(m, k);
    }
  }

  lemma PutTokenKeepsStruct(m: Machine, t: TxId, e: Effect)
    requires Struct(m) && t in m.txs && e.PutToken? && EffectOk(m, t, m.txs[t], e)
    ensures var m' := ApplyEffect(m, t, m.txs[t], e); Struct(m') && Evolves(m, m')
  {
    var m' := ApplyEffect(m, t, m.txs[t], e);
    forall s | s in m'.dirtySessions ensures DirtySessionOk(m', s) {
      assert DirtySessionOk(m, s);
    }
    forall k | k in m'.dirtyTokens ensures DirtyTokenOk(m', k) {
      assert k != e.tid ==> DirtyTokenOk(m, k);
    }
  }

  lemma LocalKeepsStruct(m: Machine, t: TxId, e: Effect)
    requires Struct(m) && t in m.txs && (e.Go? || e.Select?) && EffectOk(m, t, m.txs[t], e)
    ensures var m' := ApplyEffect(m, t, m.txs[t], e); Struct(m') && Evolves(m, m')
  {
    var m' := ApplyEffect(m, t, m.txs[t], e);
    assert m'.txs.Keys == m.txs.Keys;
    forall s | s in m'.dirtySessions ensures DirtySessionOk(m', s) {
      assert DirtySessionOk(m, s);
    }
    forall k | k in m'.dirtyTokens ensures DirtyTokenOk(m', k) {
      assert DirtyTokenOk(m, k);
    }
  }

  lemma SnapshotKeepsStruct(m: Machine, t: TxId, e: Effect)
    requires Struct(m) && t in m.txs && e.TakeSnapshot? && EffectOk(m, t, m.txs[t], e)
    ensures var m' := ApplyEffect(m, t, m.txs[t], e); Struct(m') && Evolves(m, m')
  {
    var m' := ApplyEffect(m, t, m.txs[t], e);
    assert m'.txs.Keys == m.txs.Keys;
    forall s | s in m'.dirtySessions ensures DirtySessionOk(m', s) {
      assert DirtySessionOk(m, s);
    }
    forall k | k in m'.dirtyTokens ensures DirtyTokenOk(m', k) {
      assert DirtyTokenOk(m, k);
    }
  }

  lemma ApplyKeepsStruct(m: Machine, t: TxId, e: Effect)
    requires Struct(m) && t in m.txs && !e.Wait? && EffectOk(m, t, m.txs[t], e)
    ensures var m' := ApplyEffect(m, t, m.txs[t], e); Struct(m') && Evolves(m, m')
  {
    if e.PutSession? {
      PutSessionKeepsStruct(m, t, e);
    } else if e.PutToken? {
      PutTokenKeepsStruct(m, t, e);
    } else if e.TakeSnapshot? {
      SnapshotKeepsStruct(m, t, e);
    } else {
      LocalKeepsStruct(m, t, e);
    }
  }

  lemma ReleaseKeepsStruct(m: Machine, t: TxId)
    requires Struct(m)
    ensures Struct(Release(m, t)) && Evolves(m, Release(m, t))
  {
    var m' := Release(m, t);
    forall s | s in m'.dirtySessions ensures DirtySessionOk(m', s) {
      assert DirtySessionOk(m, s);
    }
    forall k | k in m'.dirtyTokens ensures DirtyTokenOk(m', k) {
      assert DirtyTokenOk(m, k);
    }
  }

  lemma CommitEvolves(m: Machine, t: TxId)
    requires Struct(m) && t in m.txs
    ensures Evolves(m, CommitTx(m, t))
  {
    var m' := CommitTx(m, t);
    assert SessionsLater(m.sessions, m'.sessions) by {
      forall s | s in m.sessions ensures s in m'.sessions && SessionLater(m.sessions[s], m'.sessions[s]) {
        assert s in m.dirtySessions ==> DirtySessionOk(m, s);
      }
    }
    assert TokensLater(m.tokens, m'.tokens) by {
      forall k | k in m.tokens ensures k in m'.tokens && TokenLater(m.tokens[k], m'.tokens[k]) {
        assert k in m.dirtyTokens ==> DirtyTokenOk(m, k);
      }
    }
  }

  lemma CommitKeepsStruct(m: Machine, t: TxId)
    requires Struct(m) && t in m.txs
    ensures Struct(CommitTx(m, t))
  {
    var m' := CommitTx(m, t);
    forall s | s in m'.dirtySessions ensures DirtySessionOk(m', s) {
      assert DirtySessionOk(m, s);
    }
    forall k | k in m'.dirtyTokens ensures DirtyTokenOk(m', k) {
      assert DirtyTokenOk(m, k);
    }
    forall s | s in m'.sessions ensures s in m'.creators {
      assert s in m.dirtySessions ==> DirtySessionOk(m, s);
    }
    forall k | k in m'.tokens ensures k in m'.born {
      assert k in m.dirtyTokens ==> DirtyTokenOk(m, k);
    }
  }

  /** The steps that touch no row. */
  /** A step that leaves rows and history alone, deletes only rows nobody has written, and begins at most. */
  lemma CalmKeepsStruct(m: Machine, m': Machine)
    requires Struct(m) && m.clock <= m'.clock && m.gone <= m'.gone && m.denylist <= m'.denylist
    requires m'.sessions == m.sessions && m'.tokens == m.tokens && m'.done == m.done && m'.snaps == m.snaps
    requires m'.dirtySessions == m.dirtySessions && m'.dirtyTokens == m.dirtyTokens
    requires m'.born == m.born && m'.creators == m.creators
    requires forall k :: k in m'.gone && k !in m.gone ==> k in m.tokens && k !in m.dirtyTokens
    requires forall t :: t in m.txs ==> t in m'.txs && m'.txs[t] == m.txs[t]
    requires forall t :: t in m'.txs && t !in m.txs ==> t !in m.done && t !in m.snaps && m'.txs[t].now == m'.clock
    ensures Struct(m') && Evolves(m, m')
  {
    forall s | s in m'.dirtySessions ensures DirtySessionOk(m', s) {
      assert DirtySessionOk(m, s);
    }
    forall k | k in m'.dirtyTokens ensures DirtyTokenOk(m', k) {
      assert DirtyTokenOk(m, k);
    }
  }

  lemma PassiveKeepsStruct(cfg: SessionConfig, m: Machine, l: Label)
    requires cfg.Valid() && Struct(m) && Enabled(cfg, m, l)
    requires l.Begin? || l.Notify? || l.Tick? || l.Cleanup?
    ensures var m' := Step(cfg, m, l); Struct(m') && Evolves(m, m')
  {
    CalmKeepsStruct(m, Step(cfg, m, l));
  }

  lemma StepKeepsStruct(cfg: SessionConfig, m: Machine, l: Label)
    requires cfg.Valid() && Struct(m) && Enabled(cfg, m, l)
    ensures var m' := Step(cfg, m, l); Struct(m') && Evolves(m, m')
  {
    match l
    case Execute(t, ch) =>
      StatementEffect(cfg, m, t, ch);
      ApplyKeepsStruct(m, t, Statement(cfg, m, t, m.txs[t], ch));
    case Commit(t) =>
      CommitEvolves(m, t);
      CommitKeepsStruct(m, t);
    case Abort(t) => ReleaseKeepsStruct(m, t);
    case _ => PassiveKeepsStruct(cfg, m, l);
  }

  lemma EvolvesTransitive(a: Machine, b: Machine, c: Machine)
    requires Evolves(a, b) && Evolves(b, c)
    ensures Evolves(a, c)
  {
  }

  ghost predicate Reachable(cfg: SessionConfig, run: seq<Machine>)
    requires cfg.Valid()
  {
    IsRun(cfg, run) && Init(run[0])
  }

  lemma {:induction false} RunStruct(cfg: SessionConfig, run: seq<Machine>, i: nat)
    requires cfg.Valid() && Reachable(cfg, run) && i < |run|
    ensures Struct(run[i])
  {
    if i > 0 {
      RunStruct(cfg, run, i - 1);
      var l :| Moves(cfg, run[i - 1], l, run[i - 1 + 1]);
      StepKeepsStruct(cfg, run[i - 1], l);
    }
  }

  /**
   * Committed rows are monotone over every interleaving: a token's usedAt and revokedAt
   * go from null to a value once and keep it, and a session's revokedAt never returns to null.
   */
  lemma {:induction false} CommittedRowsAreMonotone(cfg: SessionConfig, run: seq<Machine>, i: nat, j: nat)
    requires cfg.Valid() && Reachable(cfg, run) && i <= j < |run|
    ensures Evolves(run[i], run[j])
    decreases j - i
  {
    if i < j {
      CommittedRowsAreMonotone(cfg, run, i, j - 1);
      RunStruct(cfg, run, j - 1);
      var l :| Moves(cfg, run[j - 1], l, run[j - 1 + 1]);
      StepKeepsStruct(cfg, run[j - 1], l);
      EvolvesTransitive(run[i], run[j - 1], run[j]);
    }
  }
}
