/**
 * When revocations share a session, and whose record of it stands: over every run, exactly as far as the
 * transactions overlapped.
 */
module Overlaps {
  import opened AuthModel
  import opened ReadCommitted
  import opened Evolution
  import opened Assertions
  import opened OwnSteps
  import opened Safety
  import opened Guarantees

  predicate InFlight(m: Machine, t: TxId) {
    t in m.txs
  }

  predicate Present(m: Machine, t: TxId) {
    t in m.txs || t in m.done
  }

  /** `t` revokes session `s`: it is among the ids that its revocation selected and will return. */
  predicate Holds(m: Machine, t: TxId, s: SessionId) {
    (t in m.txs && s in m.txs[t].ids) || (t in m.done && s in m.done[t].ids)
  }

  // ----- transactions begin once -----

  ghost predicate SpansOk(m: Machine) {
    m.txs.Keys <= m.begun && m.done.Keys <= m.begun
  }

  lemma StepSpans(cfg: SessionConfig, m: Machine, l: Label, m': Machine)
    requires cfg.Valid() && SpansOk(m) && Moves(cfg, m, l, m')
    ensures SpansOk(m') && m.begun <= m'.begun && m.done.Keys <= m'.done.Keys
    ensures forall t :: t in m.begun && Present(m', t) ==> Present(m, t)
    ensures forall t :: t in m.txs && t !in m'.txs ==> (l.Commit? || l.Abort?) && l.t == t
  {
    StepFrame(cfg, m, l, m');
    if l.Execute? {
      ExecuteFrame(m, l.t, m.txs[l.t], Statement(cfg, m, l.t, m.txs[l.t], l.choice));
      ExecuteKeepsBegun(m, l.t, m.txs[l.t], Statement(cfg, m, l.t, m.txs[l.t], l.choice));
    }
  }

  lemma ExecuteKeepsBegun(m: Machine, t: TxId, tx: Tx, e: Effect)
    requires !e.Wait?
    ensures ApplyEffect(m, t, tx, e).begun == m.begun && ApplyEffect(m, t, tx, e).sessions == m.sessions
  {
  }

  lemma NextSpans(cfg: SessionConfig, m: Machine, m': Machine)
    requires cfg.Valid() && SpansOk(m) && Next(cfg, m, m')
    ensures SpansOk(m') && m.begun <= m'.begun && m.done.Keys <= m'.done.Keys
    ensures forall t :: t in m.begun && Present(m', t) ==> Present(m, t)
  {
    var l :| Moves(cfg, m, l, m');
    StepSpans(cfg, m, l, m');
  }

  lemma {:induction false} RunSpans(cfg: SessionConfig, run: seq<Machine>, i: nat)
    requires cfg.Valid() && Reachable(cfg, run) && i < |run|
    ensures SpansOk(run[i])
  {
    if i > 0 {
      RunSpans(cfg, run, i - 1);
      assert Next(cfg, run[i - 1], run[i - 1 + 1]);
      NextSpans(cfg, run[i - 1], run[i]);
    }
  }

  /** A transaction that was in flight and is present later was never rolled back in between. */
  lemma {:induction false} PresentBetween(cfg: SessionConfig, run: seq<Machine>, i: nat, j: nat, n: nat, t: TxId)
    requires cfg.Valid() && Reachable(cfg, run) && i <= j <= n < |run|
    requires t in run[i].begun && Present(run[n], t)
    ensures Present(run[j], t) && t in run[j].begun
    decreases n - i
  {
    RunSpans(cfg, run, i);
    if i < j {
      assert Next(cfg, run[i], run[i + 1]);
      NextSpans(cfg, run[i], run[i + 1]);
      PresentBetween(cfg, run, i + 1, j, n, t);
    } else if i < n {
      assert Next(cfg, run[i], run[i + 1]);
      NextSpans(cfg, run[i], run[i + 1]);
      PresentBetween(cfg, run, i + 1, i + 1, n, t);
    }
  }

  // ----- what a step does to the sessions that a transaction holds -----

  /** A revocation selects sessions once, and never a session whose revocation has committed. */
  lemma StatementSelects(cfg: SessionConfig, m: Machine, t: TxId, ch: Choice, e: Effect, m': Machine, s: SessionId)
    requires cfg.Valid() && Ran(cfg, m, t, ch, e, m')
    ensures t in m'.txs && m.txs[t].ids <= m'.txs[t].ids
    ensures IsRevoked(m, s) && s in m'.txs[t].ids ==> s in m.txs[t].ids
  {
    if e.Select? {
      assert OwnSession(m, t, s).None?;
    }
  }

  lemma OtherStepsHold(cfg: SessionConfig, m: Machine, l: Label, m': Machine, t: TxId, s: SessionId)
    requires cfg.Valid() && Struct(m) && Moves(cfg, m, l, m') && !(l.Execute? && l.t == t)
    ensures Holds(m', t, s) ==> Holds(m, t, s)
    ensures Holds(m, t, s) && Present(m', t) ==> Holds(m', t, s)
  {
    StepFrame(cfg, m, l, m');
    if t in m.txs && !(l.Commit? && l.t == t) && !(l.Abort? && l.t == t) {
      StepLeavesOthers(cfg, m, l, t);
    }
  }

  lemma StepHolds(cfg: SessionConfig, m: Machine, l: Label, m': Machine, t: TxId, s: SessionId)
    requires cfg.Valid() && Safe(cfg, m) && Moves(cfg, m, l, m')
    ensures Holds(m, t, s) && Present(m', t) ==> Holds(m', t, s)
    ensures IsRevoked(m, s) && Holds(m', t, s) ==> Holds(m, t, s)
  {
    if l.Execute? && l.t == t {
      var e := Statement(cfg, m, t, m.txs[t], l.choice);
      StepKeepsStruct(cfg, m, l);
      assert PcOk(cfg, m, t, m.txs[t]);
      StatementSelects(cfg, m, t, l.choice, e, m', s);
      ExecuteFrame(m, t, m.txs[t], e);
    } else {
      OtherStepsHold(cfg, m, l, m', t, s);
    }
  }

  lemma RunStepHolds(cfg: SessionConfig, run: seq<Machine>, i: nat, t: TxId, s: SessionId)
    requires cfg.Valid() && Reachable(cfg, run) && i < |run| - 1
    ensures Holds(run[i], t, s) && Present(run[i + 1], t) ==> Holds(run[i + 1], t, s)
    ensures IsRevoked(run[i], s) && Holds(run[i + 1], t, s) ==> Holds(run[i], t, s)
    ensures IsRevoked(run[i], s) ==> IsRevoked(run[i + 1], s)
  {
    RunIsSafe(cfg, run, i);
    assert Next(cfg, run[i], run[i + 1]);
    NextHolds(cfg, run[i], run[i + 1], t, s);
  }

  lemma NextHolds(cfg: SessionConfig, m: Machine, m': Machine, t: TxId, s: SessionId)
    requires cfg.Valid() && Safe(cfg, m) && Next(cfg, m, m')
    ensures Holds(m, t, s) && Present(m', t) ==> Holds(m', t, s)
    ensures IsRevoked(m, s) && Holds(m', t, s) ==> Holds(m, t, s)
    ensures IsRevoked(m, s) ==> IsRevoked(m', s)
  {
    var l :| Moves(cfg, m, l, m');
    StepKeepsStruct(cfg, m, l);
    StepHolds(cfg, m, l, m', t, s);
  }

  lemma NotReturnedNext(cfg: SessionConfig, run: seq<Machine>, i: nat, t: TxId, s: SessionId)
    requires cfg.Valid() && Reachable(cfg, run) && i < |run| - 1 && IsRevoked(run[i], s) && !Holds(run[i], t, s)
    ensures !Holds(run[i + 1], t, s) && IsRevoked(run[i + 1], s)
  {
    RunStepHolds(cfg, run, i, t, s);
  }

  /**
   * A revocation that has not selected a session by the time its revocation has committed never returns
   * it: whatever a later FindSessions matches, an already revoked session is not among its ids.
   */
  lemma {:induction false} RevokedSessionsAreNotReturned(
      cfg: SessionConfig, run: seq<Machine>, i: nat, j: nat, t: TxId, s: SessionId)
    requires cfg.Valid() && Reachable(cfg, run) && i <= j < |run|
    requires IsRevoked(run[i], s) && !Holds(run[i], t, s)
    ensures !Holds(run[j], t, s) && IsRevoked(run[j], s)
    decreases j - i
  {
    if i < j {
      NotReturnedNext(cfg, run, i, t, s);
      RevokedSessionsAreNotReturned(cfg, run, i + 1, j, t, s);
    }
  }

  /** A transaction that was not rolled back still holds what it held. */
  lemma {:induction false} HeldUntilTheEnd(cfg: SessionConfig, run: seq<Machine>, i: nat, n: nat, t: TxId, s: SessionId)
    requires cfg.Valid() && Reachable(cfg, run) && i <= n < |run|
    requires Holds(run[i], t, s) && Present(run[n], t)
    ensures Holds(run[n], t, s)
    decreases n - i
  {
    RunSpans(cfg, run, i);
    if i < n {
      PresentBetween(cfg, run, i, i + 1, n, t);
      RunStepHolds(cfg, run, i, t, s);
      HeldUntilTheEnd(cfg, run, i + 1, n, t, s);
    }
  }

  // ----- two revocations return one session exactly when they overlapped on it -----

  ghost predicate OverlappedOn(run: seq<Machine>, i: nat, t: TxId, o: TxId, s: SessionId)
    requires i < |run|
  {
    && InFlight(run[i], t) && InFlight(run[i], o)
    && s in run[i].txs[t].ids && s in run[i].txs[o].ids
  }

  /** The last moment before a committed transaction committed. */
  lemma {:induction false} CommitMoment(cfg: SessionConfig, run: seq<Machine>, n: nat, t: TxId) returns (i: nat)
    requires cfg.Valid() && Reachable(cfg, run) && n < |run| && t in run[n].done
    ensures i < n && InFlight(run[i], t) && t in run[i + 1].done && Moves(cfg, run[i], Commit(t), run[i + 1])
    ensures run[i + 1].done[t] == run[i].txs[t] && run[n].done[t] == run[i].txs[t]
  {
    if t in run[n - 1].done {
      i := CommitMoment(cfg, run, n - 1, t);
      CommittedRowsAreMonotone(cfg, run, n - 1, n);
    } else {
      i := n - 1;
      assert Next(cfg, run[i], run[i + 1]);
      var l :| Moves(cfg, run[i], l, run[i + 1]);
      StepFrame(cfg, run[i], l, run[i + 1]);
    }
  }

  lemma HeldAtCommit(cfg: SessionConfig, run: seq<Machine>, i: nat, n: nat, t: TxId, o: TxId, s: SessionId)
    requires cfg.Valid() && Reachable(cfg, run) && i < n < |run| && t != o
    requires Moves(cfg, run[i], Commit(t), run[i + 1]) && s in run[i].txs[t].ids
    requires o in run[n].done && s in run[n].done[o].ids && o !in run[i].done
    ensures OverlappedOn(run, i, t, o, s)
  {
    RunIsSafe(cfg, run, i + 1);
    assert DoneOk(cfg, run[i + 1], t, run[i + 1].done[t]);
    if !Holds(run[i + 1], o, s) {
      RevokedSessionsAreNotReturned(cfg, run, i + 1, n, o, s);
    }
    RunIsSafe(cfg, run, i);
    OtherStepsHold(cfg, run[i], Commit(t), run[i + 1], o, s);
  }

  /**
   * Two committed transactions both return session `s` if and only if, at some moment, both were in
   * flight with `s` selected: each found it active before the other had committed.
   */
  lemma SharedRevocationsOverlapped(cfg: SessionConfig, run: seq<Machine>, n: nat, t: TxId, o: TxId, s: SessionId)
    requires cfg.Valid() && Reachable(cfg, run) && n < |run| && t != o
    requires t in run[n].done && o in run[n].done
    ensures s in run[n].done[t].ids && s in run[n].done[o].ids <==>
      exists i :: 0 <= i < n && OverlappedOn(run, i, t, o, s)
  {
    if s in run[n].done[t].ids && s in run[n].done[o].ids {
      var a := CommitMoment(cfg, run, n, t);
      var b := CommitMoment(cfg, run, n, o);
      if o !in run[a].done {
        HeldAtCommit(cfg, run, a, n, t, o, s);
      } else {
        RunIsSafe(cfg, run, b);
        CommitsDiffer(cfg, run, a, b, t, o);
        HeldAtCommit(cfg, run, b, n, o, t, s);
        assert OverlappedOn(run, b, t, o, s);
      }
    }
    if i :| 0 <= i < n && OverlappedOn(run, i, t, o, s) {
      RunIsSafe(cfg, run, n);
      HeldUntilTheEnd(cfg, run, i, n, t, s);
      HeldUntilTheEnd(cfg, run, i, n, o, s);
    }
  }

  /** If `o` had committed when `t` did, then `t` had not when `o` did. */
  lemma CommitsDiffer(cfg: SessionConfig, run: seq<Machine>, a: nat, b: nat, t: TxId, o: TxId)
    requires cfg.Valid() && Reachable(cfg, run) && a < |run| - 1 && b < |run| - 1
    requires InFlight(run[a], t) && o in run[a].done && InFlight(run[b], o)
    ensures t !in run[b].done
  {
    RunIsSafe(cfg, run, a);
    RunIsSafe(cfg, run, b);
    if t in run[b].done {
      if a <= b {
        CommittedRowsAreMonotone(cfg, run, a, b);
      } else {
        CommittedRowsAreMonotone(cfg, run, b, a);
      }
    }
  }

  // ----- whose record of a revocation stands -----

  /** What `t` selected it has stamped with its own clock, but for the rows still to be visited. */
  ghost predicate Stamped(m: Machine, t: TxId)
    requires t in m.txs
  {
    forall s :: s in m.txs[t].ids ==>
      || (m.txs[t].pc.RevokeRows? && s in m.txs[t].pc.rows)
      || (OwnSession(m, t, s).Some? && OwnSession(m, t, s).value.revokedAt == Some(m.txs[t].now))
  }

  predicate SameStamp(a: Session, b: Session) {
    b.revokedAt == a.revokedAt && b.reason == a.reason
  }

  /** A dirty version of a session that its writer does not revoke keeps the committed record. */
  predicate KeepsRecord(m: Machine, s: SessionId)
    requires s in m.dirtySessions
  {
    var o := m.dirtySessions[s].owner;
    o in m.txs && s !in m.txs[o].ids && s in m.sessions ==> SameStamp(m.sessions[s], m.dirtySessions[s].row)
  }

  ghost predicate RecordsOk(m: Machine) {
    (forall t :: t in m.txs ==> Stamped(m, t)) && (forall s :: s in m.dirtySessions ==> KeepsRecord(m, s))
  }

  lemma RevokingStamps(cfg: SessionConfig, m: Machine, t: TxId, ch: Choice, e: Effect, m': Machine)
    requires cfg.Valid() && Ran(cfg, m, t, ch, e, m') && Stamped(m, t) && m.txs[t].pc.RevokeRows?
    ensures t in m'.txs && Stamped(m', t)
  {
  }

  /** A session that `t` already wrote exists, so `t` inserts another. */
  lemma InsertionStamps(cfg: SessionConfig, m: Machine, t: TxId, ch: Choice, e: Effect, m': Machine)
    requires cfg.Valid() && Ran(cfg, m, t, ch, e, m') && Struct(m) && Stamped(m, t) && m.txs[t].pc.InsertSession?
    ensures t in m'.txs && Stamped(m', t)
  {
    assert forall s :: s in m.dirtySessions ==> DirtySessionOk(m, s);
  }

  lemma StatementStamps(cfg: SessionConfig, m: Machine, t: TxId, ch: Choice, e: Effect, m': Machine)
    requires cfg.Valid() && Ran(cfg, m, t, ch, e, m') && Struct(m) && Stamped(m, t)
    ensures t in m'.txs && Stamped(m', t)
  {
    if m.txs[t].pc.RevokeRows? {
      RevokingStamps(cfg, m, t, ch, e, m');
    } else if m.txs[t].pc.InsertSession? {
      InsertionStamps(cfg, m, t, ch, e, m');
    } else {
      OtherStatementsStamp(cfg, m, t, ch, e, m');
    }
  }

  lemma OtherStatementsStamp(cfg: SessionConfig, m: Machine, t: TxId, ch: Choice, e: Effect, m': Machine)
    requires cfg.Valid() && Ran(cfg, m, t, ch, e, m') && Stamped(m, t)
    requires !m.txs[t].pc.RevokeRows? && !m.txs[t].pc.InsertSession?
    ensures t in m'.txs && Stamped(m', t)
  {
    if e.PutSession? {
      assert m.txs[t].pc.Touch? && m.txs[t].ids == {};
    }
  }

  lemma StatementKeepsRecord(cfg: SessionConfig, m: Machine, t: TxId, ch: Choice, e: Effect, m': Machine, s: SessionId)
    requires cfg.Valid() && Ran(cfg, m, t, ch, e, m') && Struct(m) && s in m'.dirtySessions
    requires s in m.dirtySessions ==> KeepsRecord(m, s)
    ensures KeepsRecord(m', s)
  {
    if e.PutSession? && e.sid == s {
      WrittenRecord(cfg, m, t, ch, e, m');
    } else {
      StatementSelects(cfg, m, t, ch, e, m', s);
    }
  }

  lemma WrittenRecord(cfg: SessionConfig, m: Machine, t: TxId, ch: Choice, e: Effect, m': Machine)
    requires cfg.Valid() && Ran(cfg, m, t, ch, e, m') && Struct(m) && e.PutSession?
    ensures e.sid in m.txs[t].ids || (e.sid in m.sessions ==> SameStamp(m.sessions[e.sid], e.session))
  {
    if m.txs[t].pc.Touch? {
      assert OwnSession(m, t, e.sid).None?;
    }
  }

  lemma OtherStepsKeepRecord(cfg: SessionConfig, m: Machine, l: Label, m': Machine, s: SessionId)
    requires cfg.Valid() && Struct(m) && Moves(cfg, m, l, m') && !l.Execute?
    requires s in m'.dirtySessions
    ensures s in m.dirtySessions && m'.dirtySessions[s] == m.dirtySessions[s]
    ensures s in m.sessions <==> s in m'.sessions
    ensures s in m.sessions ==> m'.sessions[s] == m.sessions[s]
    ensures var o := m.dirtySessions[s].owner; o in m.txs && o in m'.txs && m'.txs[o] == m.txs[o]
  {
    assert forall d :: d in m.dirtySessions ==> DirtySessionOk(m, d);
    if l.Commit? {
      assert SeeSession(m, l.t, s) == if s in m.sessions then Some(m.sessions[s]) else None;
    }
  }

  lemma ExecuteKeepsRecords(cfg: SessionConfig, m: Machine, t: TxId, ch: Choice, e: Effect, m': Machine)
    requires cfg.Valid() && Ran(cfg, m, t, ch, e, m') && Struct(m) && RecordsOk(m)
    ensures forall s :: s in m'.dirtySessions ==> KeepsRecord(m', s)
  {
    forall s | s in m'.dirtySessions ensures KeepsRecord(m', s) {
      StatementKeepsRecord(cfg, m, t, ch, e, m', s);
    }
  }

  lemma QuietStepKeepsRecords(cfg: SessionConfig, m: Machine, l: Label, m': Machine)
    requires cfg.Valid() && Struct(m) && Moves(cfg, m, l, m') && !l.Execute? && RecordsOk(m)
    ensures forall s :: s in m'.dirtySessions ==> KeepsRecord(m', s)
  {
    forall s | s in m'.dirtySessions ensures KeepsRecord(m', s) {
      OtherStepsKeepRecord(cfg, m, l, m', s);
      assert KeepsRecord(m, s);
    }
  }

  lemma StepKeepsStamps(cfg: SessionConfig, m: Machine, l: Label, m': Machine, t: TxId)
    requires cfg.Valid() && Safe(cfg, m) && Moves(cfg, m, l, m') && RecordsOk(m) && t in m'.txs
    ensures Stamped(m', t)
  {
    StepFrame(cfg, m, l, m');
    if l.Execute? && l.t == t {
      StepKeepsStruct(cfg, m, l);
      assert PcOk(cfg, m, t, m.txs[t]);
      StatementStamps(cfg, m, t, l.choice, Statement(cfg, m, t, m.txs[t], l.choice), m');
    } else if t in m.txs {
      assert Stamped(m, t);
      StepLeavesOthers(cfg, m, l, t);
    }
  }

  lemma StepKeepsRecords(cfg: SessionConfig, m: Machine, l: Label, m': Machine)
    requires cfg.Valid() && Safe(cfg, m) && Moves(cfg, m, l, m') && RecordsOk(m)
    ensures RecordsOk(m')
  {
    forall t | t in m'.txs ensures Stamped(m', t) {
      StepKeepsStamps(cfg, m, l, m', t);
    }
    if l.Execute? {
      StepKeepsStruct(cfg, m, l);
      assert PcOk(cfg, m, l.t, m.txs[l.t]);
      ExecuteKeepsRecords(cfg, m, l.t, l.choice, Statement(cfg, m, l.t, m.txs[l.t], l.choice), m');
    } else {
      QuietStepKeepsRecords(cfg, m, l, m');
    }
  }

  lemma RunStepKeepsRecords(cfg: SessionConfig, run: seq<Machine>, i: nat)
    requires cfg.Valid() && Reachable(cfg, run) && i < |run| - 1 && RecordsOk(run[i])
    ensures RecordsOk(run[i + 1])
  {
    RunIsSafe(cfg, run, i);
    NextKeepsRecords(cfg, run[i], run[i + 1]);
  }

  lemma NextKeepsRecords(cfg: SessionConfig, m: Machine, m': Machine)
    requires cfg.Valid() && Safe(cfg, m) && RecordsOk(m) && Next(cfg, m, m')
    ensures RecordsOk(m')
  {
    var l :| Moves(cfg, m, l, m');
    StepKeepsRecords(cfg, m, l, m');
  }

  lemma {:induction false} RunKeepsRecords(cfg: SessionConfig, run: seq<Machine>, i: nat)
    requires cfg.Valid() && Reachable(cfg, run) && i < |run|
    ensures RecordsOk(run[i])
  {
    if i == 0 {
      StartHasNoRecords(run[0]);
    } else {
      RunKeepsRecords(cfg, run, i - 1);
      RunStepKeepsRecords(cfg, run, i - 1);
    }
  }

  lemma StartHasNoRecords(m: Machine)
    requires Init(m)
    ensures RecordsOk(m)
  {
  }

  /** A commit stamps what it revokes with its own clock, and leaves every other record as it was. */
  lemma CommitWritesItsRecord(cfg: SessionConfig, m: Machine, t: TxId, s: SessionId)
    requires cfg.Valid() && Safe(cfg, m) && RecordsOk(m) && t in m.txs && m.txs[t].pc.Ready? && s in m.sessions
    ensures s in CommitTx(m, t).sessions
    ensures if s in m.txs[t].ids then CommitTx(m, t).sessions[s].revokedAt == Some(m.txs[t].now)
            else SameStamp(m.sessions[s], CommitTx(m, t).sessions[s])
  {
    assert Stamped(m, t);
    assert s in m.dirtySessions ==> KeepsRecord(m, s);
  }

  /** Only a commit that revokes the session writes its record. */
  lemma RecordStep(cfg: SessionConfig, run: seq<Machine>, i: nat, s: SessionId) returns (l: Label)
    requires cfg.Valid() && Reachable(cfg, run) && i < |run| - 1 && s in run[i].sessions
    ensures s in run[i + 1].sessions
    ensures l.Commit? ==> InFlight(run[i], l.t) && l.t in run[i + 1].done && run[i + 1].done[l.t] == run[i].txs[l.t]
    ensures if l.Commit? && s in run[i].txs[l.t].ids then run[i + 1].sessions[s].revokedAt == Some(run[i].txs[l.t].now)
            else SameStamp(run[i].sessions[s], run[i + 1].sessions[s])
  {
    RunIsSafe(cfg, run, i);
    RunKeepsRecords(cfg, run, i);
    assert Next(cfg, run[i], run[i + 1]);
    l :| Moves(cfg, run[i], l, run[i + 1]);
    if l.Commit? {
      CommitWritesItsRecord(cfg, run[i], l.t, s);
    } else {
      CommittedOnlyByCommits(cfg, run[i], l, run[i + 1]);
    }
  }

  lemma CommittedOnlyByCommits(cfg: SessionConfig, m: Machine, l: Label, m': Machine)
    requires cfg.Valid() && Moves(cfg, m, l, m') && !l.Commit?
    ensures m'.sessions == m.sessions
  {
    if l.Execute? {
      ExecuteKeepsBegun(m, l.t, m.txs[l.t], Statement(cfg, m, l.t, m.txs[l.t], l.choice));
    } else {
      QuietStepsCommitNothing(cfg, m, l, m');
    }
  }

  lemma QuietStepsCommitNothing(cfg: SessionConfig, m: Machine, l: Label, m': Machine)
    requires cfg.Valid() && Moves(cfg, m, l, m') && !l.Commit? && !l.Execute?
    ensures m'.sessions == m.sessions
  {
    match l
    case Begin(_, _) =>
    case Abort(_) =>
    case Notify(_) =>
    case Tick(_) =>
    case Cleanup(_, _) =>
  }

  /** Committed by `n`, `t` held session `s` while in flight at `i`. */
  predicate Overtakes(run: seq<Machine>, i: nat, n: nat, t: TxId, s: SessionId)
    requires i <= n < |run|
  {
    InFlight(run[i], t) && s in run[i].txs[t].ids && t in run[n].done
  }

  /** Every transaction that overtakes reads the clock that the record already has. */
  ghost predicate OvertakersAgree(run: seq<Machine>, i: nat, n: nat, s: SessionId)
    requires i <= n < |run| && s in run[i].sessions
  {
    forall t :: Overtakes(run, i, n, t, s) ==> run[i].sessions[s].revokedAt == Some(run[n].done[t].now)
  }

  /** The record of `s` is the same in both states. */
  predicate SameRecord(a: Machine, b: Machine, s: SessionId) {
    s in a.sessions && s in b.sessions && b.sessions[s].revokedAt == a.sessions[s].revokedAt
  }

  ghost predicate RecordStands(run: seq<Machine>, i: nat, n: nat, s: SessionId)
    requires i <= n < |run| && s in run[i].sessions
  {
    forall j :: i <= j <= n ==> SameRecord(run[i], run[j], s)
  }

  lemma CommittedStays(cfg: SessionConfig, run: seq<Machine>, j: nat, n: nat, t: TxId)
    requires cfg.Valid() && Reachable(cfg, run) && j <= n < |run| && t in run[j].done
    ensures t in run[n].done && run[n].done[t] == run[j].done[t] && !InFlight(run[n], t)
  {
    CommittedRowsAreMonotone(cfg, run, j, n);
    RunIsSafe(cfg, run, n);
  }

  lemma HolderWasInFlight(cfg: SessionConfig, run: seq<Machine>, i: nat, j: nat, t: TxId, s: SessionId)
    requires cfg.Valid() && Reachable(cfg, run) && i <= j < |run| && IsRevoked(run[i], s)
    requires InFlight(run[j], t) && s in run[j].txs[t].ids
    ensures InFlight(run[i], t) && s in run[i].txs[t].ids
  {
    if !Holds(run[i], t, s) {
      RevokedSessionsAreNotReturned(cfg, run, i, j, t, s);
    }
    if t in run[i].done {
      CommittedStays(cfg, run, i, j, t);
    }
  }

  lemma RecordStandsOneMore(cfg: SessionConfig, run: seq<Machine>, i: nat, j: nat, n: nat, s: SessionId)
    requires cfg.Valid() && Reachable(cfg, run) && i <= j < n < |run| && IsRevoked(run[i], s)
    requires OvertakersAgree(run, i, n, s)
    requires SameRecord(run[i], run[j], s)
    ensures SameRecord(run[i], run[j + 1], s)
  {
    var l := RecordStep(cfg, run, j, s);
    if l.Commit? && s in run[j].txs[l.t].ids {
      HolderWasInFlight(cfg, run, i, j, l.t, s);
      CommittedStays(cfg, run, j + 1, n, l.t);
      assert Overtakes(run, i, n, l.t, s);
    }
  }

  lemma {:induction false} RecordStandsFrom(
      cfg: SessionConfig, run: seq<Machine>, i: nat, k: nat, j: nat, n: nat, s: SessionId)
    requires cfg.Valid() && Reachable(cfg, run) && i <= k <= j <= n < |run| && IsRevoked(run[i], s)
    requires OvertakersAgree(run, i, n, s) && SameRecord(run[i], run[k], s)
    ensures SameRecord(run[i], run[j], s)
    decreases j - k
  {
    if k < j {
      RecordStandsOneMore(cfg, run, i, k, n, s);
      RecordStandsFrom(cfg, run, i, k + 1, j, n, s);
    }
  }

  /** The transaction is in flight and holds the session, which is committed. */
  predicate IsHolder(m: Machine, t: TxId, s: SessionId) {
    InFlight(m, t) && s in m.txs[t].ids && s in m.sessions
  }

  /** The transaction has committed, and its clock is the recorded time. */
  predicate HasStamped(m: Machine, t: TxId, s: SessionId) {
    t in m.done && s in m.sessions && m.sessions[s].revokedAt == Some(m.done[t].now)
  }

  /** A holder goes on holding, or its commit stamps the session, or it is rolled back. */
  lemma HolderStep(cfg: SessionConfig, m: Machine, l: Label, m': Machine, t: TxId, s: SessionId)
    requires cfg.Valid() && Safe(cfg, m) && RecordsOk(m) && Moves(cfg, m, l, m') && Evolves(m, m') && IsHolder(m, t, s)
    ensures IsHolder(m', t, s) || HasStamped(m', t, s) || !Present(m', t)
  {
    if l == Commit(t) {
      CommitWritesItsRecord(cfg, m, t, s);
    } else {
      StepFrame(cfg, m, l, m');
      StepHolds(cfg, m, l, m', t, s);
    }
  }

  lemma NextHolder(cfg: SessionConfig, m: Machine, m': Machine, t: TxId, s: SessionId)
    requires cfg.Valid() && Safe(cfg, m) && RecordsOk(m) && Next(cfg, m, m') && IsHolder(m, t, s)
    ensures IsHolder(m', t, s) || HasStamped(m', t, s) || !Present(m', t)
  {
    var l :| Moves(cfg, m, l, m');
    StepKeepsStruct(cfg, m, l);
    HolderStep(cfg, m, l, m', t, s);
  }

  lemma RunStepHolder(cfg: SessionConfig, run: seq<Machine>, i: nat, n: nat, t: TxId, s: SessionId)
    requires cfg.Valid() && Reachable(cfg, run) && i < n < |run| && IsHolder(run[i], t, s) && Present(run[n], t)
    ensures IsHolder(run[i + 1], t, s) || HasStamped(run[i + 1], t, s)
  {
    RunIsSafe(cfg, run, i);
    RunKeepsRecords(cfg, run, i);
    assert Next(cfg, run[i], run[i + 1]);
    NextHolder(cfg, run[i], run[i + 1], t, s);
    RunSpans(cfg, run, i);
    PresentBetween(cfg, run, i, i + 1, n, t);
  }

  lemma {:induction false} OvertakerStamps(
      cfg: SessionConfig, run: seq<Machine>, i: nat, n: nat, t: TxId, s: SessionId) returns (j: nat)
    requires cfg.Valid() && Reachable(cfg, run) && i <= n < |run| && IsHolder(run[i], t, s) && t in run[n].done
    ensures i <= j <= n && HasStamped(run[j], t, s)
    decreases n - i
  {
    if i == n {
      RunIsSafe(cfg, run, n);
    } else {
      RunStepHolder(cfg, run, i, n, t, s);
      if HasStamped(run[i + 1], t, s) {
        j := i + 1;
      } else {
        j := OvertakerStamps(cfg, run, i + 1, n, t, s);
      }
    }
  }

  /**
   * From a moment at which session `s` is revoked, the recorded time stands if and only if no transaction
   * that had already selected `s` and was still in flight then commits with another clock reading. In
   * particular it stands for good when nobody in flight holds `s`.
   */
  lemma RecordStandsUnlessOvertaken(cfg: SessionConfig, run: seq<Machine>, i: nat, n: nat, s: SessionId)
    requires cfg.Valid() && Reachable(cfg, run) && i <= n < |run| && IsRevoked(run[i], s)
    ensures RecordStands(run, i, n, s) <==> OvertakersAgree(run, i, n, s)
  {
    if OvertakersAgree(run, i, n, s) {
      forall j | i <= j <= n ensures SameRecord(run[i], run[j], s) {
        RecordStandsFrom(cfg, run, i, i, j, n, s);
      }
    }
    if RecordStands(run, i, n, s) {
      forall t | Overtakes(run, i, n, t, s) ensures run[i].sessions[s].revokedAt == Some(run[n].done[t].now) {
        var j := OvertakerStamps(cfg, run, i, n, t, s);
        CommittedStays(cfg, run, j, n, t);
        assert SameRecord(run[i], run[j], s);
      }
    }
  }

  ghost predicate Unheld(m: Machine, s: SessionId) {
    forall t :: t in m.txs ==> s !in m.txs[t].ids
  }

  lemma UnheldStays(cfg: SessionConfig, run: seq<Machine>, i: nat, s: SessionId)
    requires cfg.Valid() && Reachable(cfg, run) && i < |run| - 1 && IsRevoked(run[i], s)
    requires Unheld(run[i], s)
    ensures IsRevoked(run[i + 1], s) && SameStamp(run[i].sessions[s], run[i + 1].sessions[s])
    ensures Unheld(run[i + 1], s)
  {
    var l := RecordStep(cfg, run, i, s);
    CommittedRowsAreMonotone(cfg, run, i, i + 1);
    var next := run[i + 1];
    forall t | t in next.txs ensures s !in next.txs[t].ids {
      if s in next.txs[t].ids {
        HolderWasInFlight(cfg, run, i, i + 1, t, s);
      }
    }
  }

  /** Once a session is revoked and no transaction in flight has it selected, its time and reason are final. */
  lemma {:induction false} UnheldRecordIsFinal(cfg: SessionConfig, run: seq<Machine>, i: nat, j: nat, s: SessionId)
    requires cfg.Valid() && Reachable(cfg, run) && i <= j < |run| && IsRevoked(run[i], s)
    requires Unheld(run[i], s)
    ensures IsRevoked(run[j], s) && SameStamp(run[i].sessions[s], run[j].sessions[s])
    decreases j - i
  {
    if i < j {
      UnheldStays(cfg, run, i, s);
      UnheldRecordIsFinal(cfg, run, i + 1, j, s);
    }
  }

  /** No two transactions in flight ever have `s` selected at the same moment. */
  ghost predicate NeverShared(run: seq<Machine>, s: SessionId) {
    forall i, t, o :: 0 <= i < |run| && t != o ==> !OverlappedOn(run, i, t, o, s)
  }

  lemma SoleHolderLeavesItUnheld(cfg: SessionConfig, run: seq<Machine>, a: nat, r: TxId, s: SessionId)
    requires cfg.Valid() && Reachable(cfg, run) && a < |run| - 1 && NeverShared(run, s)
    requires Moves(cfg, run[a], Commit(r), run[a + 1]) && s in run[a].txs[r].ids
    ensures Unheld(run[a + 1], s)
  {
    RunIsSafe(cfg, run, a);
    var next := run[a + 1];
    forall t | t in next.txs ensures s !in next.txs[t].ids {
      OtherStepsHold(cfg, run[a], Commit(r), next, t, s);
      StepFrame(cfg, run[a], Commit(r), next);
      assert t != r ==> !OverlappedOn(run, a, r, t, s);
    }
  }

  /** Without overlaps on a session its first revocation is its only one: time and reason never change. */
  lemma SoleRevocationsAreFinal(cfg: SessionConfig, run: seq<Machine>, i: nat, j: nat, s: SessionId)
    requires cfg.Valid() && Reachable(cfg, run) && NeverShared(run, s) && i <= j < |run| && IsRevoked(run[i], s)
    ensures IsRevoked(run[j], s) && SameStamp(run[i].sessions[s], run[j].sessions[s])
  {
    RunIsAccounted(cfg, run, i);
    var r :| r in run[i].done && s in run[i].done[r].ids;
    var a := CommitMoment(cfg, run, i, r);
    SoleHolderLeavesItUnheld(cfg, run, a, r, s);
    RunIsSafe(cfg, run, a + 1);
    assert DoneOk(cfg, run[a + 1], r, run[a + 1].done[r]);
    UnheldRecordIsFinal(cfg, run, a + 1, i, s);
    UnheldRecordIsFinal(cfg, run, a + 1, j, s);
  }
}
