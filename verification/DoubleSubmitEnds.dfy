/** The double-submit scene comes to its end: every rotation in flight gets to commit. */
module DoubleSubmitEnds {
  import opened AuthModel
  import opened ReadCommitted
  import opened Evolution
  import opened OwnSteps
  import opened Safety
  import opened DoubleSubmit

  /** The steps that the rotations in flight still have to take, their commits included. */
  ghost function Work(txs: map<TxId, Tx>): nat {
    if txs == map[] then 0
    else
      var t :| t in txs;
      Remaining(txs[t].pc) + 1 + Work(txs - {t})
  }

  lemma {:induction false} WorkSplits(txs: map<TxId, Tx>, t: TxId)
    requires t in txs
    ensures Work(txs) == Remaining(txs[t].pc) + 1 + Work(txs - {t})
  {
    var o :| o in txs && Work(txs) == Remaining(txs[o].pc) + 1 + Work(txs - {o});
    if o != t {
      WorkSplits(txs - {o}, t);
      WorkSplits(txs - {t}, o);
      assert txs - {o} - {t} == txs - {t} - {o};
    }
  }

  /** A rotation takes a statement, or commits. */
  predicate IsProgress(l: Label) {
    l.Execute? || l.Commit?
  }

  ghost predicate BusyNext(cfg: SessionConfig, sc: Scene, m: Machine, m': Machine)
    requires cfg.Valid()
  {
    exists l :: Moves(cfg, m, l, m') && Allowed(sc, l) && IsProgress(l)
  }

  /** Nobody who was in flight, or had committed, is lost on the way. */
  predicate KeepsAll(m: Machine, m': Machine) {
    m.txs.Keys + m.done.Keys <= m'.txs.Keys + m'.done.Keys && m.done.Keys <= m'.done.Keys
  }

  lemma CloserIsLess(txs: map<TxId, Tx>, t: TxId, tx: Tx)
    requires t in txs && Remaining(tx.pc) < Remaining(txs[t].pc)
    ensures Work(txs[t := tx]) < Work(txs)
  {
    WorkSplits(txs, t);
    WorkSplits(txs[t := tx], t);
    assert txs[t := tx] - {t} == txs - {t};
  }

  lemma StatementMovesOne(cfg: SessionConfig, m: Machine, t: TxId, ch: Choice, e: Effect, m': Machine)
    requires cfg.Valid() && Ran(cfg, m, t, ch, e, m')
    ensures t in m'.txs && m'.txs == m.txs[t := m'.txs[t]] && m'.done == m.done
  {
  }

  lemma StatementWorks(
      cfg: SessionConfig, sc: Scene, m0: Machine, m: Machine, t: TxId, ch: Choice, e: Effect, m': Machine)
    requires cfg.Valid() && Struct(m) && SceneInv(cfg, sc, m0, m) && Ran(cfg, m, t, ch, e, m') && ch.active
    ensures Work(m'.txs) < Work(m.txs) && KeepsAll(m, m')
  {
    assert SceneTx(sc, m, t, m.txs[t]);
    StatementsDescend(cfg, sc, m, t, ch, e, m');
    StatementMovesOne(cfg, m, t, ch, e, m');
    CloserIsLess(m.txs, t, m'.txs[t]);
  }

  lemma CommitWorks(m: Machine, t: TxId)
    requires t in m.txs
    ensures Work(CommitTx(m, t).txs) < Work(m.txs) && KeepsAll(m, CommitTx(m, t))
  {
    WorkSplits(m.txs, t);
  }

  /** Each step of progress leaves less to do. */
  lemma ProgressWorks(cfg: SessionConfig, sc: Scene, m0: Machine, m: Machine, m': Machine)
    requires cfg.Valid() && Safe(cfg, m) && SceneInv(cfg, sc, m0, m) && BusyNext(cfg, sc, m, m')
    ensures Work(m'.txs) < Work(m.txs) && KeepsAll(m, m') && SceneNext(cfg, sc, m, m')
  {
    var l :| Moves(cfg, m, l, m') && Allowed(sc, l) && IsProgress(l);
    if l.Execute? {
      StepKeepsSafe(cfg, m, l, m');
      StatementWorks(cfg, sc, m0, m, l.t, l.choice, Statement(cfg, m, l.t, m.txs[l.t], l.choice), m');
    } else {
      CommitWorks(m, l.t);
    }
  }

  ghost predicate BusyFrom(cfg: SessionConfig, sc: Scene, run: seq<Machine>, i: nat, j: nat)
    requires cfg.Valid()
  {
    forall k :: i <= k < j && k + 1 < |run| ==> BusyNext(cfg, sc, run[k], run[k + 1])
  }

  /**
   * However the rotations are scheduled, they are done after at most `Work` steps of theirs: a stretch of
   * a run in which only they move is no longer than the work it started with.
   */
  lemma {:induction false} SchedulesAreFinite(
      cfg: SessionConfig, before: seq<Machine>, sc: Scene, run: seq<Machine>, i: nat, j: nat)
    requires cfg.Valid() && Reachable(cfg, before) && SceneRun(cfg, sc, run) && run[0] == before[|before| - 1]
    requires i <= j < |run| && BusyFrom(cfg, sc, run, i, j)
    ensures j - i + Work(run[j].txs) <= Work(run[i].txs) && KeepsAll(run[i], run[j])
    decreases j - i
  {
    if i < j {
      RunIsSafe(cfg, before, |before| - 1);
      SceneRunHolds(cfg, sc, run, i);
      assert BusyNext(cfg, sc, run[i], run[i + 1]);
      ProgressWorks(cfg, sc, run[0], run[i], run[i + 1]);
      SchedulesAreFinite(cfg, before, sc, run, i + 1, j);
    }
  }

  lemma Extended(cfg: SessionConfig, sc: Scene, run: seq<Machine>, m': Machine)
    requires cfg.Valid() && SceneRun(cfg, sc, run) && BusyNext(cfg, sc, run[|run| - 1], m')
    ensures SceneRun(cfg, sc, run + [m'])
  {
    var longer := run + [m'];
    var l :| Moves(cfg, run[|run| - 1], l, m') && Allowed(sc, l) && IsProgress(l);
    forall i | 0 <= i < |longer| - 1 ensures SceneNext(cfg, sc, longer[i], longer[i + 1]) {
      assert i < |run| - 1 ==> SceneNext(cfg, sc, run[i], run[i + 1]);
    }
  }

  /** While a rotation is in flight, one of them can move on. */
  lemma OneStepMore(cfg: SessionConfig, before: seq<Machine>, sc: Scene, run: seq<Machine>) returns (m': Machine)
    requires cfg.Valid() && Reachable(cfg, before) && SceneRun(cfg, sc, run) && run[0] == before[|before| - 1]
    requires run[|run| - 1].txs != map[]
    ensures SceneRun(cfg, sc, run + [m']) && Work(m'.txs) < Work(run[|run| - 1].txs) && KeepsAll(run[|run| - 1], m')
  {
    var m := run[|run| - 1];
    RunIsSafe(cfg, before, |before| - 1);
    SceneRunHolds(cfg, sc, run, |run| - 1);
    var l := SceneNeverStalls(cfg, before, sc, run, |run| - 1);
    m' := Step(cfg, m, l);
    assert Moves(cfg, m, l, m');
    ProgressWorks(cfg, sc, run[0], m, m');
    Extended(cfg, sc, run, m');
  }

  lemma OneStateLonger(cfg: SessionConfig, before: seq<Machine>, sc: Scene, run: seq<Machine>)
    returns (next: seq<Machine>)
    requires cfg.Valid() && Reachable(cfg, before) && SceneRun(cfg, sc, run) && run[0] == before[|before| - 1]
    requires run[|run| - 1].txs != map[]
    ensures SceneRun(cfg, sc, next) && run <= next && next[0] == run[0]
    ensures Work(next[|next| - 1].txs) < Work(run[|run| - 1].txs) && KeepsAll(run[|run| - 1], next[|next| - 1])
  {
    var m' := OneStepMore(cfg, before, sc, run);
    next := run + [m'];
  }

  lemma KeepsAllOn(a: Machine, b: Machine, c: Machine)
    requires KeepsAll(a, b) && KeepsAll(b, c)
    ensures KeepsAll(a, c)
  {
  }

  /** From any state of the scene: rotations only, until none is in flight. */
  lemma {:induction false} RunsOut(cfg: SessionConfig, before: seq<Machine>, sc: Scene, run: seq<Machine>)
    returns (longer: seq<Machine>)
    requires cfg.Valid() && Reachable(cfg, before) && SceneRun(cfg, sc, run) && run[0] == before[|before| - 1]
    ensures SceneRun(cfg, sc, longer) && run <= longer
    ensures longer[|longer| - 1].txs == map[] && KeepsAll(run[|run| - 1], longer[|longer| - 1])
    decreases Work(run[|run| - 1].txs)
  {
    if run[|run| - 1].txs == map[] {
      longer := run;
    } else {
      var next := OneStateLonger(cfg, before, sc, run);
      longer := RunsOut(cfg, before, sc, next);
      LongerKeepsAll(run, next, longer);
    }
  }

  lemma LongerKeepsAll(run: seq<Machine>, next: seq<Machine>, longer: seq<Machine>)
    requires |run| > 0 && run <= next <= longer
    requires KeepsAll(run[|run| - 1], next[|next| - 1]) && KeepsAll(next[|next| - 1], longer[|longer| - 1])
    ensures run <= longer && KeepsAll(run[|run| - 1], longer[|longer| - 1])
  {
    KeepsAllOn(run[|run| - 1], next[|next| - 1], longer[|longer| - 1]);
  }

  lemma InFlightIsNew(cfg: SessionConfig, before: seq<Machine>, sc: Scene, run: seq<Machine>, t: TxId)
    requires cfg.Valid() && Reachable(cfg, before) && SceneRun(cfg, sc, run) && run[0] == before[|before| - 1]
    requires t in run[|run| - 1].txs
    ensures t !in run[0].done
  {
    RunIsSafe(cfg, before, |before| - 1);
    SceneRunHolds(cfg, sc, run, |run| - 1);
  }

  /** Every rotation that was in flight in `m` has committed by `end`, accepted with a live child. */
  ghost predicate AllAccepted(sc: Scene, m0: Machine, m: Machine, end: Machine) {
    forall t :: t in m.txs ==> t in end.done && AcceptedChild(sc, m0, end, t)
  }

  /**
   * Whatever has happened in the scene so far, and however many rotations of the token are in flight, the
   * run has a continuation in which every one of them commits, accepted, with a live child of its own.
   */
  lemma EveryRotationCanCommit(cfg: SessionConfig, before: seq<Machine>, sc: Scene, run: seq<Machine>)
    returns (longer: seq<Machine>)
    requires cfg.Valid() && Reachable(cfg, before) && SceneRun(cfg, sc, run) && run[0] == before[|before| - 1]
    ensures SceneRun(cfg, sc, longer) && run <= longer && longer[|longer| - 1].txs == map[]
    ensures AllAccepted(sc, run[0], run[|run| - 1], longer[|longer| - 1])
  {
    longer := RunsOut(cfg, before, sc, run);
    var end := longer[|longer| - 1];
    DoubleSubmitIsBenign(cfg, before, sc, longer, |longer| - 1);
    forall t | t in run[|run| - 1].txs ensures t in end.done && AcceptedChild(sc, run[0], end, t) {
      InFlightIsNew(cfg, before, sc, run, t);
      assert NewDone(longer[0], end.done, t);
    }
  }
}
