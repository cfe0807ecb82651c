/** Lifetimes and lineages: what every session and token row satisfies, committed or not. */
module Rows {
  import opened AuthModel
  import opened ReadCommitted
  import opened Evolution
  import opened Assertions

  /** A committed or dirty token row belongs to the session recorded at its birth. */
  ghost predicate BirthsOk(m: Machine) {
    && (forall k :: k in m.tokens ==> k in m.born && m.tokens[k].sessionId == m.born[k].session)
    && (forall k :: k in m.dirtyTokens ==> k in m.born && m.dirtyTokens[k].row.sessionId == m.born[k].session)
    && Lineages(m.born)
  }

  ghost predicate Lineages(born: map<TokenId, Birth>) {
    forall k :: k in born ==> LineageOk(born, k)
  }

  /** A lineage ends in its token and stays within one session. */
  ghost predicate LineageOk(born: map<TokenId, Birth>, k: TokenId)
    requires k in born
  {
    var l := born[k].lineage;
    && |l| > 0 && l[|l| - 1] == k
    && forall i :: 0 <= i < |l| ==> l[i] in born && born[l[i]].session == born[k].session
  }

  predicate SessionRowOk(cfg: SessionConfig, s: Session) {
    s.expiresAt == s.createdAt + cfg.absoluteTtlSeconds * MS_PER_SECOND
  }

  /** A token is unexpired when it is minted and idles out at most refreshTtl later. */
  predicate TokenRowOk(cfg: SessionConfig, k: RefreshToken) {
    k.createdAt < k.expiresAt <= k.createdAt + cfg.refreshTtlSeconds * MS_PER_SECOND
  }

  /** No token outlives its session. */
  predicate CommittedTokenOk(cfg: SessionConfig, m: Machine, k: TokenId)
    requires k in m.tokens
  {
    && TokenRowOk(cfg, m.tokens[k])
    && m.tokens[k].sessionId in m.sessions
    && m.tokens[k].expiresAt <= m.sessions[m.tokens[k].sessionId].expiresAt
  }

  predicate DirtyTokenRowOk(cfg: SessionConfig, m: Machine, t: TxId, row: RefreshToken) {
    && TokenRowOk(cfg, row)
    && SeeSession(m, t, row.sessionId).Some?
    && row.expiresAt <= SeeSession(m, t, row.sessionId).value.expiresAt
  }

  ghost predicate RowsOk(cfg: SessionConfig, m: Machine) {
    && (forall s :: s in m.sessions ==> SessionRowOk(cfg, m.sessions[s]))
    && (forall s :: s in m.dirtySessions ==> SessionRowOk(cfg, m.dirtySessions[s].row))
    && (forall k :: k in m.tokens ==> CommittedTokenOk(cfg, m, k))
    && (forall k :: k in m.dirtyTokens ==> DirtyTokenRowOk(cfg, m, m.dirtyTokens[k].owner, m.dirtyTokens[k].row))
  }

  /** What a statement must respect so that the rows stay in order. */
  ghost predicate RowEffectOk(cfg: SessionConfig, m: Machine, t: TxId, tx: Tx, e: Effect) {
    match e
    case PutSession(s, row, _) => s in m.creators || SessionRowOk(cfg, row)
    case PutToken(k, row, _) =>
      k in m.born || (
        && DirtyTokenRowOk(cfg, m, t, row)
        && (tx.pc.Mint? ==> tx.job.Rotate? && tx.job.token in m.born && m.born[tx.job.token].session == row.sessionId))
    case _ => true
  }

  lemma StatementRows(cfg: SessionConfig, m: Machine, t: TxId, ch: Choice)
    requires cfg.Valid() && Struct(m) && t in m.txs && PcOk(cfg, m, t, m.txs[t]) && BirthsOk(m)
    ensures RowEffectOk(cfg, m, t, m.txs[t], Statement(cfg, m, t, m.txs[t], ch))
  {
    assert forall s :: s in m.dirtySessions ==> DirtySessionOk(m, s);
    assert forall k :: k in m.dirtyTokens ==> DirtyTokenOk(m, k);
  }

  /** What `o` sees of the sessions after `t` has written one of them. */
  lemma PutSessionKeepsOneRow(cfg: SessionConfig, m: Machine, t: TxId, tx: Tx, e: Effect, o: TxId, row: RefreshToken)
    requires Struct(m) && e.PutSession? && EffectOk(m, t, tx, e) && RowEffectOk(cfg, m, t, tx, e)
    requires DirtyTokenRowOk(cfg, m, o, row)
    ensures DirtyTokenRowOk(cfg, ApplyEffect(m, t, tx, e), o, row)
  {
    assert e.sid in m.dirtySessions ==> DirtySessionOk(m, e.sid);
  }

  lemma PutSessionKeepsRows(cfg: SessionConfig, m: Machine, t: TxId, tx: Tx, e: Effect)
    requires Struct(m) && RowsOk(cfg, m) && e.PutSession? && EffectOk(m, t, tx, e) && RowEffectOk(cfg, m, t, tx, e)
    ensures RowsOk(cfg, ApplyEffect(m, t, tx, e))
  {
    var m' := ApplyEffect(m, t, tx, e);
    forall k | k in m'.dirtyTokens
      ensures DirtyTokenRowOk(cfg, m', m'.dirtyTokens[k].owner, m'.dirtyTokens[k].row)
    {
      PutSessionKeepsOneRow(cfg, m, t, tx, e, m.dirtyTokens[k].owner, m.dirtyTokens[k].row);
    }
    forall k | k in m'.tokens ensures CommittedTokenOk(cfg, m', k) {
      assert CommittedTokenOk(cfg, m, k);
    }
  }

  lemma PutTokenKeepsOtherRow(cfg: SessionConfig, m: Machine, t: TxId, tx: Tx, e: Effect, k: TokenId)
    requires Struct(m) && RowsOk(cfg, m) && e.PutToken? && EffectOk(m, t, tx, e) && k != e.tid && k in m.dirtyTokens
    ensures var m' := ApplyEffect(m, t, tx, e);
      k in m'.dirtyTokens && DirtyTokenRowOk(cfg, m', m'.dirtyTokens[k].owner, m'.dirtyTokens[k].row)
  {
    assert DirtyTokenRowOk(cfg, m, m.dirtyTokens[k].owner, m.dirtyTokens[k].row);
  }

  lemma PutTokenWritesSoundRow(cfg: SessionConfig, m: Machine, t: TxId, tx: Tx, e: Effect)
    requires Struct(m) && RowsOk(cfg, m) && e.PutToken? && EffectOk(m, t, tx, e) && RowEffectOk(cfg, m, t, tx, e)
    ensures DirtyTokenRowOk(cfg, ApplyEffect(m, t, tx, e), t, e.token)
  {
    if e.tid in m.born && OwnToken(m, t, e.tid).None? {
      assert CommittedTokenOk(cfg, m, e.tid);
      assert m.tokens[e.tid].sessionId in m.dirtySessions ==> DirtySessionOk(m, m.tokens[e.tid].sessionId);
    } else if e.tid in m.born {
      assert DirtyTokenRowOk(cfg, m, t, m.dirtyTokens[e.tid].row);
    }
  }

  lemma PutTokenKeepsRows(cfg: SessionConfig, m: Machine, t: TxId, tx: Tx, e: Effect)
    requires Struct(m) && RowsOk(cfg, m) && e.PutToken? && EffectOk(m, t, tx, e) && RowEffectOk(cfg, m, t, tx, e)
    ensures RowsOk(cfg, ApplyEffect(m, t, tx, e))
  {
    var m' := ApplyEffect(m, t, tx, e);
    forall k | k in m'.tokens ensures CommittedTokenOk(cfg, m', k) {
      assert CommittedTokenOk(cfg, m, k);
    }
    forall k | k in m'.dirtyTokens
      ensures DirtyTokenRowOk(cfg, m', m'.dirtyTokens[k].owner, m'.dirtyTokens[k].row)
    {
      if k == e.tid {
        PutTokenWritesSoundRow(cfg, m, t, tx, e);
      } else {
        PutTokenKeepsOtherRow(cfg, m, t, tx, e, k);
      }
    }
  }

  lemma NewRootKeepsLineages(born: map<TokenId, Birth>, k: TokenId, sid: SessionId, t: TxId)
    requires Lineages(born) && k !in born
    ensures Lineages(born[k := Birth(sid, [k], t)])
  {
    var born' := born[k := Birth(sid, [k], t)];
    forall x | x in born' ensures LineageOk(born', x) {
      assert x != k ==> LineageOk(born, x);
    }
  }

  lemma NewChildKeepsLineages(born: map<TokenId, Birth>, k: TokenId, parent: TokenId, t: TxId)
    requires Lineages(born) && k !in born && parent in born
    ensures Lineages(born[k := Birth(born[parent].session, born[parent].lineage + [k], t)])
  {
    var born' := born[k := Birth(born[parent].session, born[parent].lineage + [k], t)];
    forall x | x in born' ensures LineageOk(born', x) {
      assert LineageOk(born, if x == k then parent else x);
    }
  }

  lemma UpdatedTokenKeepsBirths(m: Machine, t: TxId, tx: Tx, e: Effect)
    requires Struct(m) && BirthsOk(m) && e.PutToken? && e.tid in m.born && EffectOk(m, t, tx, e)
    ensures BirthsOk(ApplyEffect(m, t, tx, e))
  {
    assert ApplyEffect(m, t, tx, e).born == m.born;
  }

  lemma NewTokenKeepsBirths(cfg: SessionConfig, m: Machine, t: TxId, tx: Tx, e: Effect)
    requires BirthsOk(m) && e.PutToken? && e.tid !in m.born && RowEffectOk(cfg, m, t, tx, e)
    ensures BirthsOk(ApplyEffect(m, t, tx, e))
  {
    var m' := ApplyEffect(m, t, tx, e);
    assert Lineages(m'.born) by {
      if tx.pc.Mint? {
        NewChildKeepsLineages(m.born, e.tid, tx.job.token, t);
      } else {
        NewRootKeepsLineages(m.born, e.tid, e.token.sessionId, t);
        assert Ancestors(m, tx) + [e.tid] == [e.tid];
      }
    }
  }

  lemma CommittedRowsStayOk(cfg: SessionConfig, m: Machine, t: TxId, k: TokenId)
    requires Struct(m) && RowsOk(cfg, m) && t in m.txs && k in CommitTx(m, t).tokens
    ensures CommittedTokenOk(cfg, CommitTx(m, t), k)
  {
    if OwnToken(m, t, k).Some? {
      assert DirtyTokenRowOk(cfg, m, m.dirtyTokens[k].owner, m.dirtyTokens[k].row);
    } else {
      assert CommittedTokenOk(cfg, m, k);
      assert m.tokens[k].sessionId in m.dirtySessions ==> DirtySessionOk(m, m.tokens[k].sessionId);
    }
  }

  /** What another transaction sees of a session after `t` commits: its own row, or a later committed one. */
  lemma CommitKeepsSeenExpiry(m: Machine, t: TxId, o: TxId, s: SessionId)
    requires Struct(m) && t in m.txs && o != t && SeeSession(m, o, s).Some?
    ensures SeeSession(CommitTx(m, t), o, s).Some?
    ensures SeeSession(CommitTx(m, t), o, s).value.expiresAt == SeeSession(m, o, s).value.expiresAt
  {
    assert s in m.dirtySessions ==> DirtySessionOk(m, s);
  }

  lemma DirtyRowsStayOk(cfg: SessionConfig, m: Machine, t: TxId, k: TokenId)
    requires Struct(m) && RowsOk(cfg, m) && t in m.txs && k in m.dirtyTokens && m.dirtyTokens[k].owner != t
    ensures DirtyTokenRowOk(cfg, CommitTx(m, t), m.dirtyTokens[k].owner, m.dirtyTokens[k].row)
  {
    assert DirtyTokenRowOk(cfg, m, m.dirtyTokens[k].owner, m.dirtyTokens[k].row);
    CommitKeepsSeenExpiry(m, t, m.dirtyTokens[k].owner, m.dirtyTokens[k].row.sessionId);
  }

  lemma CommitKeepsRows(cfg: SessionConfig, m: Machine, t: TxId)
    requires Struct(m) && RowsOk(cfg, m) && t in m.txs
    ensures RowsOk(cfg, CommitTx(m, t))
  {
    var m' := CommitTx(m, t);
    forall k | k in m'.tokens ensures CommittedTokenOk(cfg, m', k) {
      CommittedRowsStayOk(cfg, m, t, k);
    }
    forall k | k in m'.dirtyTokens
      ensures DirtyTokenRowOk(cfg, m', m'.dirtyTokens[k].owner, m'.dirtyTokens[k].row)
    {
      DirtyRowsStayOk(cfg, m, t, k);
    }
  }

  lemma CommitKeepsBirths(m: Machine, t: TxId)
    requires BirthsOk(m) && t in m.txs
    ensures BirthsOk(CommitTx(m, t))
  {
  }
}
