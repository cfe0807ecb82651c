/** Which sessions detected theft takes, over every interleaving: the family of the presented token, and no other. */
module Families {
  import opened AuthModel
  import opened ReadCommitted
  import opened Evolution
  import opened Assertions
  import opened OwnSteps
  import opened Safety
  import opened Guarantees

  predicate SameFamily(m: Machine, s: SessionId, o: SessionId) {
    && s in m.sessions && o in m.sessions
    && m.sessions[s].userId == m.sessions[o].userId && m.sessions[s].familyId == m.sessions[o].familyId
  }

  /** The session that a revocation condemns for reuse, if it is one of those. */
  function Condemns(follow: Then): Option<SessionId> {
    match follow
    case Finish(Reused(s, _)) => Some(s)
    case _ => None
  }

  function CondemnedBy(pc: Pc): Option<SessionId> {
    match pc
    case FindSessions(_, _, follow) => Condemns(follow)
    case RevokeRows(_, _, follow) => Condemns(follow)
    case SelectTokens(_, follow) => Condemns(follow)
    case RetireRows(_, follow) => Condemns(follow)
    case Ready(Reused(s, _)) => Some(s)
    case _ => None
  }

  /** A transaction that has detected reuse looks for the family of the session, and has matched nothing else. */
  ghost predicate StaysInFamily(m: Machine, tx: Tx) {
    CondemnedBy(tx.pc).Some? ==>
      var s := CondemnedBy(tx.pc).value;
      && s in m.sessions
      && (tx.pc.FindSessions? ==> tx.pc.where == ByFamily(m.sessions[s].userId, m.sessions[s].familyId))
      && (forall o :: o in tx.targets ==> SameFamily(m, o, s))
  }

  /** If it has looked already, it has matched `known`, unless that is of another family. */
  ghost predicate HasTaken(m: Machine, tx: Tx, known: SessionId) {
    CondemnedBy(tx.pc).Some? && !tx.pc.FindSessions? && SameFamily(m, known, CondemnedBy(tx.pc).value) ==>
      known in tx.targets
  }

  lemma StayingIsStable(m: Machine, m': Machine, tx: Tx)
    requires Evolves(m, m') && StaysInFamily(m, tx)
    ensures StaysInFamily(m', tx)
  {
  }

  lemma TakingIsStable(m: Machine, m': Machine, tx: Tx, known: SessionId)
    requires Evolves(m, m') && StaysInFamily(m, tx) && known in m.sessions && HasTaken(m, tx, known)
    ensures HasTaken(m', tx, known)
  {
  }

  /** The reads that detect reuse: what they go on to look for is the family of the presented token's session. */
  lemma DetectionCondemns(cfg: SessionConfig, m: Machine, t: TxId, ch: Choice, e: Effect, m': Machine)
    requires cfg.Valid() && Ran(cfg, m, t, ch, e, m') && (m.txs[t].pc.ReadSession? || m.txs[t].pc.ReadWinner?)
    ensures t in m'.txs && StaysInFamily(m', m'.txs[t])
    ensures CondemnedBy(m'.txs[t].pc).Some? ==> m'.txs[t].pc.FindSessions?
  {
    if m.txs[t].pc.ReadSession? {
      DecisionShape(cfg, m, t, ch, e, m');
    }
  }

  /** The search matches what it is told to, in the committed rows. */
  lemma SearchMatches(cfg: SessionConfig, m: Machine, t: TxId, ch: Choice, e: Effect, m': Machine, o: SessionId)
    requires cfg.Valid() && Ran(cfg, m, t, ch, e, m') && m.txs[t].pc.FindSessions?
    ensures t in m'.txs && m'.sessions == m.sessions && CondemnedBy(m'.txs[t].pc) == CondemnedBy(m.txs[t].pc)
    ensures !m'.txs[t].pc.FindSessions?
    ensures o in m'.txs[t].targets <==> o in m.sessions && Matches(m.txs[t].pc.where, o, m.sessions[o])
  {
    assert OwnSession(m, t, o).None?;
  }

  lemma SearchTakesTheFamily(
      cfg: SessionConfig, m: Machine, t: TxId, ch: Choice, e: Effect, m': Machine, known: SessionId)
    requires cfg.Valid() && Ran(cfg, m, t, ch, e, m') && m.txs[t].pc.FindSessions? && StaysInFamily(m, m.txs[t])
    ensures t in m'.txs && StaysInFamily(m', m'.txs[t]) && HasTaken(m', m'.txs[t], known)
  {
    SearchMatches(cfg, m, t, ch, e, m', known);
    forall o | o in m'.txs[t].targets && CondemnedBy(m'.txs[t].pc).Some?
      ensures SameFamily(m', o, CondemnedBy(m'.txs[t].pc).value)
    {
      SearchMatches(cfg, m, t, ch, e, m', o);
    }
  }

  /** Everything after the search keeps what it matched, and what it is for. */
  lemma RevocationKeepsTargets(cfg: SessionConfig, m: Machine, t: TxId, ch: Choice, e: Effect, m': Machine)
    requires cfg.Valid() && Ran(cfg, m, t, ch, e, m')
    requires m.txs[t].pc.RevokeRows? || m.txs[t].pc.SelectTokens? || m.txs[t].pc.RetireRows?
    ensures t in m'.txs && m'.txs[t].targets == m.txs[t].targets && m'.sessions == m.sessions
    ensures CondemnedBy(m'.txs[t].pc) == CondemnedBy(m.txs[t].pc) && !m'.txs[t].pc.FindSessions?
  {
  }

  lemma OthersCondemnNobody(cfg: SessionConfig, m: Machine, t: TxId, ch: Choice, e: Effect, m': Machine)
    requires cfg.Valid() && Ran(cfg, m, t, ch, e, m')
    requires m.txs[t].pc.ReadToken? || m.txs[t].pc.Consume? || IsRotating(m.txs[t].pc) || m.txs[t].pc.CheckSession?
             || m.txs[t].pc.ReadActive? || m.txs[t].pc.InsertSession? || m.txs[t].pc.InsertToken?
    ensures t in m'.txs && CondemnedBy(m'.txs[t].pc).None?
  {
  }

  lemma StatementStaysInFamily(
      cfg: SessionConfig, m: Machine, t: TxId, ch: Choice, e: Effect, m': Machine, known: SessionId)
    requires cfg.Valid() && Ran(cfg, m, t, ch, e, m') && StaysInFamily(m, m.txs[t])
    ensures t in m'.txs && StaysInFamily(m', m'.txs[t])
    ensures HasTaken(m, m.txs[t], known) ==> HasTaken(m', m'.txs[t], known)
  {
    match m.txs[t].pc
    case ReadSession(_) => DetectionCondemns(cfg, m, t, ch, e, m');
    case ReadWinner(_, _) => DetectionCondemns(cfg, m, t, ch, e, m');
    case FindSessions(_, _, _) => SearchTakesTheFamily(cfg, m, t, ch, e, m', known);
    case RevokeRows(_, _, _) => RevocationKeepsTargets(cfg, m, t, ch, e, m');
    case SelectTokens(_, _) => RevocationKeepsTargets(cfg, m, t, ch, e, m');
    case RetireRows(_, _) => RevocationKeepsTargets(cfg, m, t, ch, e, m');
    case Ready(_) =>
    case _ => OthersCondemnNobody(cfg, m, t, ch, e, m');
  }

  // ----- whole runs -----

  ghost predicate AllStay(m: Machine) {
    && (forall t :: t in m.txs ==> StaysInFamily(m, m.txs[t]))
    && (forall t :: t in m.done ==> StaysInFamily(m, m.done[t]))
  }

  /** What a step leaves of one transaction: as it was, just begun, or one statement further. */
  lemma StepKeepsOne(cfg: SessionConfig, m: Machine, l: Label, m': Machine, t: TxId)
    requires cfg.Valid() && Safe(cfg, m) && Moves(cfg, m, l, m') && Evolves(m, m') && AllStay(m) && t in m'.txs
    ensures StaysInFamily(m', m'.txs[t])
  {
    StepFrame(cfg, m, l, m');
    if l.Execute? && l.t == t {
      assert PcOk(cfg, m, t, m.txs[t]);
      StatementStaysInFamily(cfg, m, t, l.choice, Statement(cfg, m, t, m.txs[t], l.choice), m', 0);
    } else if t in m.txs {
      StepLeavesOthers(cfg, m, l, t);
      StayingIsStable(m, m', m.txs[t]);
    }
  }

  lemma StepKeepsDoneInFamily(cfg: SessionConfig, m: Machine, l: Label, m': Machine, t: TxId)
    requires cfg.Valid() && Moves(cfg, m, l, m') && Evolves(m, m') && AllStay(m) && t in m'.done
    ensures StaysInFamily(m', m'.done[t])
  {
    StepFrame(cfg, m, l, m');
    StayingIsStable(m, m', m'.done[t]);
  }

  lemma NextStays(cfg: SessionConfig, m: Machine, m': Machine)
    requires cfg.Valid() && Safe(cfg, m) && Next(cfg, m, m') && AllStay(m)
    ensures AllStay(m')
  {
    var l :| Moves(cfg, m, l, m');
    StepKeepsSafe(cfg, m, l, m');
    forall t | t in m'.txs ensures StaysInFamily(m', m'.txs[t]) {
      StepKeepsOne(cfg, m, l, m', t);
    }
    forall t | t in m'.done ensures StaysInFamily(m', m'.done[t]) {
      StepKeepsDoneInFamily(cfg, m, l, m', t);
    }
  }

  lemma RunStepStays(cfg: SessionConfig, run: seq<Machine>, i: nat)
    requires cfg.Valid() && Reachable(cfg, run) && i < |run| - 1 && AllStay(run[i])
    ensures AllStay(run[i + 1])
  {
    RunIsSafe(cfg, run, i);
    NextStays(cfg, run[i], run[i + 1]);
  }

  lemma {:induction false} RunStays(cfg: SessionConfig, run: seq<Machine>, i: nat)
    requires cfg.Valid() && Reachable(cfg, run) && i < |run|
    ensures AllStay(run[i])
  {
    if i == 0 {
      NobodyStarted(run[0]);
    } else {
      RunStays(cfg, run, i - 1);
      RunStepStays(cfg, run, i - 1);
    }
  }

  lemma NobodyStarted(m: Machine)
    requires Init(m)
    ensures AllStay(m)
  {
  }

  lemma CommittedReuseStays(
      cfg: SessionConfig, m: Machine, t: TxId, token: TokenId, sid: SessionId, usedAt: Option<Time>, o: SessionId)
    requires AllDone(cfg, m) && AllStay(m) && CommittedRotation(m, t, token, Reused(sid, usedAt)) && o in m.done[t].ids
    ensures SameFamily(m, o, sid) && token in m.tokens && m.tokens[token].sessionId == sid
  {
    assert StaysInFamily(m, m.done[t]) && DoneOk(cfg, m, t, m.done[t]);
  }

  /**
   * Detected theft takes no session of another user or another family: every session that a committed
   * TOKEN_REUSE revoked has the user and the family of the session whose token was presented.
   */
  lemma ReuseStaysInTheFamily(
      cfg: SessionConfig, run: seq<Machine>, i: nat, t: TxId, token: TokenId, sid: SessionId, usedAt: Option<Time>,
      o: SessionId)
    requires cfg.Valid() && Reachable(cfg, run) && i < |run|
    requires CommittedRotation(run[i], t, token, Reused(sid, usedAt)) && o in run[i].done[t].ids
    ensures SameFamily(run[i], o, sid) && token in run[i].tokens && run[i].tokens[token].sessionId == sid
  {
    RunStays(cfg, run, i);
    RunIsSafe(cfg, run, i);
    CommittedReuseStays(cfg, run[i], t, token, sid, usedAt, o);
  }

  /** Whatever `t` has matched by now for reuse, it has matched `known`. */
  ghost predicate Takes(m: Machine, t: TxId, known: SessionId) {
    && known in m.sessions
    && (t in m.txs ==> HasTaken(m, m.txs[t], known)) && (t in m.done ==> HasTaken(m, m.done[t], known))
  }

  lemma OwnStepTakes(cfg: SessionConfig, m: Machine, t: TxId, ch: Choice, e: Effect, m': Machine, known: SessionId)
    requires cfg.Valid() && Ran(cfg, m, t, ch, e, m') && t !in m.done && AllStay(m) && Takes(m, t, known)
    ensures Takes(m', t, known)
  {
    StatementStaysInFamily(cfg, m, t, ch, e, m', known);
    ExecuteFrame(m, t, m.txs[t], e);
  }

  lemma OtherStepTakes(cfg: SessionConfig, m: Machine, l: Label, m': Machine, t: TxId, known: SessionId)
    requires cfg.Valid() && Safe(cfg, m) && Moves(cfg, m, l, m') && Evolves(m, m') && AllStay(m) && Takes(m, t, known)
    requires !(l.Execute? && l.t == t)
    ensures Takes(m', t, known)
  {
    TakenStaysTaken(m, m', t, known);
    StepFrame(cfg, m, l, m');
    if t in m.txs && !((l.Commit? || l.Abort?) && l.t == t) {
      StepLeavesOthers(cfg, m, l, t);
    }
  }

  lemma TakenStaysTaken(m: Machine, m': Machine, t: TxId, known: SessionId)
    requires Evolves(m, m') && AllStay(m) && Takes(m, t, known)
    ensures known in m'.sessions
    ensures t in m.txs ==> HasTaken(m', m.txs[t], known)
    ensures t in m.done ==> HasTaken(m', m.done[t], known)
  {
    if t in m.txs {
      TakingIsStable(m, m', m.txs[t], known);
    }
    if t in m.done {
      TakingIsStable(m, m', m.done[t], known);
    }
  }

  lemma NextTakes(cfg: SessionConfig, m: Machine, m': Machine, t: TxId, known: SessionId)
    requires cfg.Valid() && Safe(cfg, m) && Next(cfg, m, m') && AllStay(m) && Takes(m, t, known)
    ensures Takes(m', t, known)
  {
    var l :| Moves(cfg, m, l, m');
    StepKeepsSafe(cfg, m, l, m');
    if l.Execute? && l.t == t {
      assert PcOk(cfg, m, t, m.txs[t]);
      OwnStepTakes(cfg, m, t, l.choice, Statement(cfg, m, t, m.txs[t], l.choice), m', known);
    } else {
      OtherStepTakes(cfg, m, l, m', t, known);
    }
  }

  lemma RunStepTakes(cfg: SessionConfig, run: seq<Machine>, i: nat, t: TxId, known: SessionId)
    requires cfg.Valid() && Reachable(cfg, run) && i < |run| - 1 && Takes(run[i], t, known)
    ensures Takes(run[i + 1], t, known)
  {
    RunIsSafe(cfg, run, i);
    RunStays(cfg, run, i);
    NextTakes(cfg, run[i], run[i + 1], t, known);
  }

  lemma {:induction false} RunTakes(cfg: SessionConfig, run: seq<Machine>, i: nat, j: nat, t: TxId, known: SessionId)
    requires cfg.Valid() && Reachable(cfg, run) && i <= j < |run| && Takes(run[i], t, known)
    ensures Takes(run[j], t, known)
    decreases j - i
  {
    if i < j {
      RunStepTakes(cfg, run, i, t, known);
      RunTakes(cfg, run, i + 1, j, t, known);
    }
  }

  /**
   * Detected theft leaves out no session of the family: whichever was there before the rotation read anything is
   * revoked once the rotation has committed TOKEN_REUSE, whatever ran in between or alongside.
   */
  lemma ReuseTakesTheFamily(
      cfg: SessionConfig, run: seq<Machine>, i: nat, j: nat, t: TxId, token: TokenId, sid: SessionId,
      usedAt: Option<Time>, known: SessionId)
    requires cfg.Valid() && Reachable(cfg, run) && i <= j < |run|
    requires FirstReadAhead(run[i], t) && known in run[i].sessions
    requires CommittedRotation(run[j], t, token, Reused(sid, usedAt)) && SameFamily(run[j], known, sid)
    ensures known in run[j].done[t].targets && IsRevoked(run[j], known)
  {
    RunTakes(cfg, run, i, j, t, known);
    RunIsSafe(cfg, run, j);
    assert DoneOk(cfg, run[j], t, run[j].done[t]);
  }
}
