/**
 * The soft cap on active sessions. Two logins may overlap and miss each other's session, so
 * the cap can be exceeded; it is exceeded by at most the number of logins that overlap.
 */
module SessionCap {
  import opened AuthModel
  import opened ReadCommitted
  import opened Evolution
  import opened Assertions
  import opened OwnSteps
  import opened Safety
  import opened SetCounting

  /** The committed sessions of `user` that are unrevoked and unexpired now. */
  function LiveSessions(m: Machine, user: UserId): set<SessionId> {
    ActiveSessions(m.sessions, user, m.clock)
  }

  /** The eviction that `p` chose at its snapshot is still ahead of it, or among its targets. */
  predicate EvictionKept(m: Machine, tx: Tx, snap: Snapshot) {
    if tx.pc.FindSessions?
    then tx.pc.where == Among(snap.evict) && snap.evict <= m.sessions.Keys
    else snap.evict <= tx.targets
  }

  predicate LoginResult(pc: Pc, s: SessionId) {
    (pc.InsertToken? && pc.login && pc.session == s) || (pc.Ready? && pc.result.LoggedIn? && pc.result.session == s)
  }

  predicate LoginOk(m: Machine, t: TxId, tx: Tx) {
    && (tx.job.Login? && !tx.pc.ReadActive? ==> t in m.snaps && m.snaps[t].user == tx.job.user)
    && (t in m.snaps ==> tx.job.Login? && EvictionKept(m, tx, m.snaps[t]))
    && (tx.pc.InsertToken? && tx.pc.login ==> tx.job.Login?)
    && (tx.pc.Ready? && tx.pc.result.LoggedIn? ==> tx.job.Login?)
  }

  ghost predicate LoginsOk(m: Machine) {
    && (forall t :: t in m.txs ==> LoginOk(m, t, m.txs[t]))
    && (forall t :: t in m.done ==> LoginOk(m, t, m.done[t]))
  }

  /** A session that is not committed yet was inserted by the login that owns its row. */
  predicate NewSessionOk(m: Machine, s: SessionId)
    requires s in m.dirtySessions
  {
    var o := m.dirtySessions[s].owner;
    && o in m.txs && s in m.creators && m.creators[s] == o
    && LoginResult(m.txs[o].pc, s)
    && m.txs[o].job == Login(m.dirtySessions[s].row.userId)
  }

  predicate CommittedSessionOk(m: Machine, s: SessionId)
    requires s in m.sessions
  {
    && s in m.creators && m.creators[s] in m.done
    && LoginResult(m.done[m.creators[s]].pc, s)
    && m.done[m.creators[s]].job == Login(m.sessions[s].userId)
  }

  ghost predicate CreatorsOk(m: Machine) {
    && (forall s :: s in m.dirtySessions && s !in m.sessions ==> NewSessionOk(m, s))
    && (forall s :: s in m.sessions ==> CommittedSessionOk(m, s))
  }

  predicate Precedes(m: Machine, t: TxId, p: TxId)
    requires t in m.snaps && p in m.snaps
  {
    m.snaps[t].user == m.snaps[p].user && m.snaps[t].index < m.snaps[p].index
  }

  /** Of two snapshots of one user, a login in flight is in the window of every later one. */
  ghost predicate WindowsOk(cfg: SessionConfig, m: Machine, k: nat, user: UserId)
    requires cfg.Valid()
  {
    && (forall p :: p in m.snaps ==> m.snaps[p].index < m.taken)
    && (forall p, q :: p in m.snaps && q in m.snaps && m.snaps[p].index == m.snaps[q].index ==> p == q)
    && (forall p :: p in m.snaps && m.snaps[p].user == user ==>
          p in m.snaps[p].window && |m.snaps[p].window| <= k
          && |m.snaps[p].seen - m.snaps[p].evict| <= cfg.maxActivePerUser - 1)
    && (forall t, p :: t in m.txs && t in m.snaps && p in m.snaps && Precedes(m, t, p) ==> t in m.snaps[p].window)
  }

  /** Every live session was seen by `p`, or its login overlapped `p`, or it came later. */
  predicate Covers(m: Machine, p: TxId, s: SessionId)
    requires p in m.snaps && s in m.creators
  {
    var c := m.creators[s];
    s in m.snaps[p].seen || c in m.snaps[p].window || (c in m.snaps && m.snaps[c].index > m.snaps[p].index)
  }

  ghost predicate Coverage(m: Machine, user: UserId) {
    forall p, s :: p in m.snaps && m.snaps[p].user == user && s in LiveSessions(m, user) && s in m.creators
      ==> Covers(m, p, s)
  }

  ghost predicate CapInv(cfg: SessionConfig, m: Machine, user: UserId, k: nat)
    requires cfg.Valid()
  {
    LoginsOk(m) && CreatorsOk(m) && WindowsOk(cfg, m, k, user) && Coverage(m, user)
  }

  /** Evicting the head of the listing leaves room for one more session under the cap. */
  lemma EvictionLeavesRoom(
      cfg: SessionConfig, sessions: map<SessionId, Session>, seen: set<SessionId>, order: seq<SessionId>)
    requires cfg.Valid() && IsLruListing(sessions, seen, order)
    ensures Evicted(order, cfg) <= seen && |seen - Evicted(order, cfg)| <= cfg.maxActivePerUser - 1
  {
    var c := EvictCount(|order|, cfg);
    RestIsKept(cfg, sessions, seen, order);
    SubsetSize(seen - Evicted(order, cfg), set s | s in order[c..]);
    ElementsSize(order[c..]);
  }

  lemma RestIsKept(cfg: SessionConfig, sessions: map<SessionId, Session>, seen: set<SessionId>, order: seq<SessionId>)
    requires cfg.Valid() && IsLruListing(sessions, seen, order)
    ensures EvictCount(|order|, cfg) <= |order|
    ensures seen - Evicted(order, cfg) <= set s | s in order[EvictCount(|order|, cfg)..]
  {
    var c := EvictCount(|order|, cfg);
    var rest := order[c..];
    forall s | s in seen && s !in Evicted(order, cfg) ensures s in rest {
      var i :| 0 <= i < |order| && order[i] == s;
      assert i >= c;
      assert rest[i - c] == s;
    }
  }

  /** The logins that inserted the live sessions of `user`, with the index of their snapshots. */
  function SnapshotIndex(m: Machine, user: UserId): map<TxId, nat> {
    map t | t in m.done && t in m.snaps && m.snaps[t].user == user :: m.snaps[t].index
  }

  lemma LiveSessionHasLogin(m: Machine, user: UserId, s: SessionId)
    requires LoginsOk(m) && CreatorsOk(m) && s in LiveSessions(m, user)
    ensures s in m.creators && m.creators[s] in SnapshotIndex(m, user)
  {
    assert CommittedSessionOk(m, s);
    assert LoginOk(m, m.creators[s], m.done[m.creators[s]]);
  }

  lemma EvictedAreDead(cfg: SessionConfig, m: Machine, user: UserId, p: TxId, s: SessionId)
    requires LoginsOk(m) && AllDone(cfg, m) && p in m.done && p in m.snaps && s in m.snaps[p].evict
    ensures s !in LiveSessions(m, user)
  {
    assert LoginOk(m, p, m.done[p]);
    assert DoneOk(cfg, m, p, m.done[p]);
    assert IsRevoked(m, s);
  }

  lemma LatestLoginCovers(cfg: SessionConfig, m: Machine, user: UserId, k: nat, last: TxId, s: SessionId)
    requires cfg.Valid() && AllDone(cfg, m) && CapInv(cfg, m, user, k)
    requires last in SnapshotIndex(m, user) && s in LiveSessions(m, user)
    requires forall t :: t in SnapshotIndex(m, user) ==> SnapshotIndex(m, user)[t] <= SnapshotIndex(m, user)[last]
    requires s !in m.snaps[last].seen - m.snaps[last].evict
    ensures s in m.creators && m.creators[s] in m.snaps[last].window
  {
    LiveSessionHasLogin(m, user, s);
    assert Covers(m, last, s);
    if s in m.snaps[last].evict {
      EvictedAreDead(cfg, m, user, last, s);
    }
    assert SnapshotIndex(m, user)[m.creators[s]] <= SnapshotIndex(m, user)[last];
  }

  /** The bound, read off the committed login with the latest snapshot. */
  lemma CapFromInvariant(cfg: SessionConfig, m: Machine, user: UserId, k: nat)
    requires cfg.Valid() && AllDone(cfg, m) && CapInv(cfg, m, user, k)
    ensures |LiveSessions(m, user)| <= cfg.maxActivePerUser - 1 + k
  {
    var live := LiveSessions(m, user);
    if live != {} {
      var s0 :| s0 in live;
      LiveSessionHasLogin(m, user, s0);
      var last := GreatestExists(SnapshotIndex(m, user).Keys, SnapshotIndex(m, user));
      forall s | s in live ensures s in m.creators
        && (s in m.snaps[last].seen - m.snaps[last].evict || m.creators[s] in m.snaps[last].window) {
        LiveSessionHasLogin(m, user, s);
        if s !in m.snaps[last].seen - m.snaps[last].evict {
          LatestLoginCovers(cfg, m, user, k, last, s);
        }
      }
      OneSessionPerLogin(m, live);
      CoverSize(live, m.snaps[last].seen - m.snaps[last].evict, m.creators, m.snaps[last].window);
    }
  }

  lemma OneSessionPerLogin(m: Machine, live: set<SessionId>)
    requires CreatorsOk(m) && live <= m.sessions.Keys
    ensures forall s :: s in live ==> s in m.creators
    ensures forall s, r :: s in live && r in live && m.creators[s] == m.creators[r] ==> s == r
  {
    assert forall s :: s in live ==> CommittedSessionOk(m, s);
  }

  // ----- the invariant is kept by every step -----

  lemma UntouchedTable(m: Machine, t: TxId)
    requires NoOwnSessions(m, t)
    ensures SessionTable(m, t) == m.sessions
  {
    assert forall s :: OwnSession(m, t, s).None?;
  }

  lemma SnapshotShape(cfg: SessionConfig, m: Machine, t: TxId, ch: Choice, e: Effect, m': Machine)
    requires cfg.Valid() && Ran(cfg, m, t, ch, e, m') && e.TakeSnapshot?
    ensures m.txs[t].job == Login(e.snap.user) && NoOwnSessions(m, t)
    ensures e.snap == Snapshot(e.snap.user, m.taken, ActiveSessions(SessionTable(m, t), e.snap.user, m.txs[t].now),
                               Evicted(ch.order, cfg), InFlightLogins(m, e.snap.user) + {t})
    ensures IsLruListing(SessionTable(m, t), e.snap.seen, ch.order)
  {
  }

  lemma SnapshotSees(cfg: SessionConfig, m: Machine, t: TxId, ch: Choice, e: Effect, m': Machine)
    requires cfg.Valid() && Ran(cfg, m, t, ch, e, m') && e.TakeSnapshot? && Struct(m)
    ensures e.snap.index == m.taken && e.snap.window == InFlightLogins(m, e.snap.user) + {t}
    ensures m.txs[t].job == Login(e.snap.user)
    ensures LiveSessions(m, e.snap.user) <= e.snap.seen <= m.sessions.Keys
    ensures e.snap.evict <= e.snap.seen && |e.snap.seen - e.snap.evict| <= cfg.maxActivePerUser - 1
  {
    SnapshotShape(cfg, m, t, ch, e, m');
    UntouchedTable(m, t);
    EvictionLeavesRoom(cfg, m.sessions, e.snap.seen, ch.order);
  }

  lemma SnapshotKeepsLoginOk(cfg: SessionConfig, m: Machine, t: TxId, ch: Choice, e: Effect, m': Machine)
    requires cfg.Valid() && Ran(cfg, m, t, ch, e, m') && Struct(m)
    requires m.txs[t].pc.ReadActive?
    ensures t in m'.txs && LoginOk(m', t, m'.txs[t])
  {
    SnapshotSees(cfg, m, t, ch, e, m');
    if EvictCount(|ch.order|, cfg) == 0 {
      assert Evicted(ch.order, cfg) == {};
    }
  }

  lemma SelectionKeepsLoginOk(cfg: SessionConfig, m: Machine, t: TxId, ch: Choice, e: Effect, m': Machine)
    requires cfg.Valid() && Ran(cfg, m, t, ch, e, m')
    requires m.txs[t].pc.FindSessions? && LoginOk(m, t, m.txs[t])
    ensures t in m'.txs && LoginOk(m', t, m'.txs[t])
  {
    UntouchedTable(m, t);
  }

  lemma RotationKeepsLoginOk(cfg: SessionConfig, m: Machine, t: TxId, ch: Choice, e: Effect, m': Machine)
    requires cfg.Valid() && Ran(cfg, m, t, ch, e, m')
    requires m.txs[t].job.Rotate? && !m.txs[t].pc.FindSessions? && LoginOk(m, t, m.txs[t])
    ensures t in m'.txs && LoginOk(m', t, m'.txs[t])
  {
  }

  lemma StatementKeepsLoginOk(cfg: SessionConfig, m: Machine, t: TxId, ch: Choice, e: Effect, m': Machine)
    requires cfg.Valid() && Ran(cfg, m, t, ch, e, m')
    requires !m.txs[t].job.Rotate? && !m.txs[t].pc.ReadActive? && !m.txs[t].pc.FindSessions?
    requires LoginOk(m, t, m.txs[t])
    ensures t in m'.txs && LoginOk(m', t, m'.txs[t])
  {
  }

  lemma StatementKeepsLogins(cfg: SessionConfig, m: Machine, t: TxId, ch: Choice, e: Effect, m': Machine)
    requires cfg.Valid() && Ran(cfg, m, t, ch, e, m') && Struct(m) && LoginsOk(m)
    ensures LoginsOk(m')
  {
    if m.txs[t].pc.ReadActive? {
      SnapshotKeepsLoginOk(cfg, m, t, ch, e, m');
    } else if m.txs[t].pc.FindSessions? {
      SelectionKeepsLoginOk(cfg, m, t, ch, e, m');
    } else if m.txs[t].job.Rotate? {
      RotationKeepsLoginOk(cfg, m, t, ch, e, m');
    } else {
      StatementKeepsLoginOk(cfg, m, t, ch, e, m');
    }
    OtherLoginsKept(m, t, e, m');
  }

  lemma OtherLoginsKept(m: Machine, t: TxId, e: Effect, m': Machine)
    requires t in m.txs && t !in m.done && !e.Wait? && m' == ApplyEffect(m, t, m.txs[t], e) && LoginsOk(m)
    requires SessionsLater(m.sessions, m'.sessions)
    ensures forall o :: o in m'.txs && o != t ==> LoginOk(m', o, m'.txs[o])
    ensures forall o :: o in m'.done ==> LoginOk(m', o, m'.done[o])
  {
    forall o | o in m'.txs && o != t ensures LoginOk(m', o, m'.txs[o]) {
      assert LoginOk(m, o, m.txs[o]);
    }
    forall o | o in m'.done ensures LoginOk(m', o, m'.done[o]) {
      assert LoginOk(m, o, m.done[o]);
    }
  }

  /** A session row written by a statement is the login's own new session, or a committed one. */
  lemma InsertWrites(cfg: SessionConfig, m: Machine, t: TxId, ch: Choice, e: Effect, m': Machine)
    requires cfg.Valid() && Ran(cfg, m, t, ch, e, m') && Struct(m) && e.PutSession? && m.txs[t].pc.InsertSession?
    ensures e.sid !in m.creators && m.txs[t].job == Login(e.session.userId) && LoginResult(e.next, e.sid)
  {
  }

  /** A transaction that is not at the end of a login sees no session that is not committed. */
  lemma SeenIsCommitted(m: Machine, t: TxId, s: SessionId)
    requires Struct(m) && CreatorsOk(m) && t in m.txs && !LoginResult(m.txs[t].pc, s) && SeeSession(m, t, s).Some?
    ensures s in m.creators && s in m.sessions && SeeSession(m, t, s).value.userId == m.sessions[s].userId
  {
    if s in m.dirtySessions {
      assert DirtySessionOk(m, s);
      assert s !in m.sessions ==> NewSessionOk(m, s);
    }
  }

  lemma UpdateShape(cfg: SessionConfig, m: Machine, t: TxId, ch: Choice, e: Effect, m': Machine)
    requires cfg.Valid() && Ran(cfg, m, t, ch, e, m') && e.PutSession?
    requires (m.txs[t].pc.Touch? || m.txs[t].pc.RevokeRows?)
    ensures SeeSession(m, t, e.sid).Some? && e.session.userId == SeeSession(m, t, e.sid).value.userId
    ensures !LoginResult(m.txs[t].pc, e.sid)
  {
  }

  lemma UpdateWrites(cfg: SessionConfig, m: Machine, t: TxId, ch: Choice, e: Effect, m': Machine)
    requires cfg.Valid() && Ran(cfg, m, t, ch, e, m') && Struct(m) && CreatorsOk(m) && e.PutSession?
    requires m.txs[t].pc.Touch? || m.txs[t].pc.RevokeRows?
    ensures e.sid in m.creators && e.sid in m.sessions && e.session.userId == m.sessions[e.sid].userId
  {
    UpdateShape(cfg, m, t, ch, e, m');
    SeenIsCommitted(m, t, e.sid);
  }

  lemma StatementKeepsLoginResult(cfg: SessionConfig, m: Machine, t: TxId, ch: Choice, e: Effect, m': Machine)
    requires cfg.Valid() && Ran(cfg, m, t, ch, e, m')
    ensures forall s :: LoginResult(m.txs[t].pc, s) ==> LoginResult(m'.txs[t].pc, s) && m'.txs[t].job == m.txs[t].job
  {
  }

  lemma StatementWrites(cfg: SessionConfig, m: Machine, t: TxId, ch: Choice, e: Effect, m': Machine)
    requires cfg.Valid() && Ran(cfg, m, t, ch, e, m') && Struct(m) && CreatorsOk(m)
    ensures e.PutSession? ==>
      (e.sid in m.creators && e.sid in m.sessions && e.session.userId == m.sessions[e.sid].userId)
      || (e.sid !in m.creators && m.txs[t].job == Login(e.session.userId) && LoginResult(e.next, e.sid))
    ensures forall s :: LoginResult(m.txs[t].pc, s) ==> LoginResult(m'.txs[t].pc, s) && m'.txs[t].job == m.txs[t].job
  {
    StatementKeepsLoginResult(cfg, m, t, ch, e, m');
    if e.PutSession? {
      if m.txs[t].pc.InsertSession? {
        InsertWrites(cfg, m, t, ch, e, m');
      } else {
        UpdateWrites(cfg, m, t, ch, e, m');
      }
    }
  }

  lemma StatementKeepsCreators(cfg: SessionConfig, m: Machine, t: TxId, ch: Choice, e: Effect, m': Machine)
    requires cfg.Valid() && Ran(cfg, m, t, ch, e, m') && Struct(m) && CreatorsOk(m)
    ensures CreatorsOk(m')
  {
    StatementWrites(cfg, m, t, ch, e, m');
    EffectKeepsCreators(m, t, e, m');
  }

  lemma EffectKeepsCommitted(m: Machine, t: TxId, e: Effect, m': Machine)
    requires Struct(m) && CreatorsOk(m) && t in m.txs && !e.Wait? && m' == ApplyEffect(m, t, m.txs[t], e)
    ensures m'.sessions == m.sessions && m'.done == m.done
    ensures forall s :: s in m'.sessions ==> CommittedSessionOk(m', s)
  {
    forall s | s in m'.sessions ensures CommittedSessionOk(m', s) {
      assert CommittedSessionOk(m, s);
    }
  }

  lemma EffectKeepsNew(m: Machine, t: TxId, e: Effect, m': Machine, s: SessionId)
    requires t in m.txs && !e.Wait? && m' == ApplyEffect(m, t, m.txs[t], e)
    requires s in m.dirtySessions && NewSessionOk(m, s) && !(e.PutSession? && e.sid == s)
    requires LoginResult(m.txs[t].pc, s) ==> LoginResult(m'.txs[t].pc, s)
    ensures s in m'.dirtySessions && NewSessionOk(m', s)
  {
  }

  lemma InsertMakesNew(m: Machine, t: TxId, e: Effect, m': Machine)
    requires t in m.txs && e.PutSession? && m' == ApplyEffect(m, t, m.txs[t], e)
    requires e.sid !in m.creators && m.txs[t].job == Login(e.session.userId) && LoginResult(e.next, e.sid)
    ensures e.sid in m'.dirtySessions && NewSessionOk(m', e.sid)
  {
  }

  lemma EffectKeepsCreators(m: Machine, t: TxId, e: Effect, m': Machine)
    requires Struct(m) && CreatorsOk(m) && t in m.txs && !e.Wait? && m' == ApplyEffect(m, t, m.txs[t], e)
    requires e.PutSession? ==>
      (e.sid in m.creators && e.sid in m.sessions)
      || (e.sid !in m.creators && m.txs[t].job == Login(e.session.userId) && LoginResult(e.next, e.sid))
    requires forall s :: LoginResult(m.txs[t].pc, s) ==> LoginResult(m'.txs[t].pc, s)
    ensures CreatorsOk(m')
  {
    EffectKeepsCommitted(m, t, e, m');
    forall s | s in m'.dirtySessions && s !in m'.sessions ensures NewSessionOk(m', s) {
      if e.PutSession? && e.sid == s {
        InsertMakesNew(m, t, e, m');
      } else {
        assert NewSessionOk(m, s);
        EffectKeepsNew(m, t, e, m', s);
      }
    }
  }

  lemma CommittedSessionsStay(m: Machine, t: TxId, s: SessionId)
    requires Struct(m) && CreatorsOk(m) && t in m.txs && s in CommitTx(m, t).sessions
    ensures CommittedSessionOk(CommitTx(m, t), s)
  {
    if s in m.sessions {
      assert CommittedSessionOk(m, s);
      assert s in m.dirtySessions ==> DirtySessionOk(m, s);
    } else {
      assert NewSessionOk(m, s);
    }
  }

  lemma CommitKeepsCreators(m: Machine, t: TxId)
    requires Struct(m) && CreatorsOk(m) && t in m.txs
    ensures CreatorsOk(CommitTx(m, t))
  {
    var m' := CommitTx(m, t);
    forall s | s in m'.dirtySessions && s !in m'.sessions ensures NewSessionOk(m', s) {
      assert NewSessionOk(m, s);
    }
    forall s | s in m'.sessions ensures CommittedSessionOk(m', s) {
      CommittedSessionsStay(m, t, s);
    }
  }

  lemma NewSnapshotKeepsWindows(
      cfg: SessionConfig, m: Machine, t: TxId, snap: Snapshot, m': Machine, user: UserId, k: nat)
    requires cfg.Valid() && WindowsOk(cfg, m, k, user) && t !in m.snaps
    requires m'.snaps == m.snaps[t := snap] && m'.taken == m.taken + 1 && m'.txs.Keys == m.txs.Keys
    requires snap.index == m.taken && snap.window == InFlightLogins(m, snap.user) + {t}
    requires snap.user == user ==> |snap.window| <= k && |snap.seen - snap.evict| <= cfg.maxActivePerUser - 1
    ensures WindowsOk(cfg, m', k, user)
  {
    forall o, p | o in m'.txs && o in m'.snaps && p in m'.snaps && Precedes(m', o, p) ensures o in m'.snaps[p].window {
      if p != t && o != t {
        assert Precedes(m, o, p);
      }
    }
  }

  lemma SnapshotApplies(m: Machine, t: TxId, e: Effect, m': Machine)
    requires t in m.txs && e.TakeSnapshot? && m' == ApplyEffect(m, t, m.txs[t], e)
    ensures m'.snaps == m.snaps[t := e.snap] && m'.txs.Keys == m.txs.Keys && m'.taken == m.taken + 1
    ensures InFlightLogins(m', e.snap.user) == InFlightLogins(m, e.snap.user) + {t}
  {
  }

  lemma SnapshotKeepsWindows(
      cfg: SessionConfig, m: Machine, t: TxId, ch: Choice, e: Effect, m': Machine, user: UserId, k: nat)
    requires cfg.Valid() && Ran(cfg, m, t, ch, e, m') && Struct(m) && e.TakeSnapshot? && t !in m.snaps
    requires WindowsOk(cfg, m, k, user) && |InFlightLogins(m', user)| <= k
    ensures WindowsOk(cfg, m', k, user)
  {
    SnapshotSees(cfg, m, t, ch, e, m');
    SnapshotApplies(m, t, e, m');
    NewSnapshotKeepsWindows(cfg, m, t, e.snap, m', user, k);
  }

  lemma OtherStatementsKeepWindows(
      cfg: SessionConfig, m: Machine, t: TxId, e: Effect, m': Machine, user: UserId, k: nat)
    requires cfg.Valid() && t in m.txs && !e.Wait? && !e.TakeSnapshot? && m' == ApplyEffect(m, t, m.txs[t], e)
    requires WindowsOk(cfg, m, k, user)
    ensures WindowsOk(cfg, m', k, user)
  {
    assert m'.snaps == m.snaps && m'.taken == m.taken && m'.txs.Keys == m.txs.Keys;
    WindowsFrame(cfg, m, m', user, k);
  }

  lemma WindowsFrame(cfg: SessionConfig, m: Machine, m': Machine, user: UserId, k: nat)
    requires cfg.Valid() && WindowsOk(cfg, m, k, user)
    requires m'.snaps == m.snaps && m'.taken == m.taken
    requires forall t :: t in m'.txs && t in m'.snaps ==> t in m.txs
    ensures WindowsOk(cfg, m', k, user)
  {
    forall o, p | o in m'.txs && o in m'.snaps && p in m'.snaps && Precedes(m', o, p) ensures o in m'.snaps[p].window {
      assert Precedes(m, o, p);
    }
  }

  /** As long as no session is added, what covered the live sessions still does. */
  lemma CoverageFrame(m: Machine, m': Machine, user: UserId)
    requires Coverage(m, user) && m'.snaps == m.snaps && m.clock <= m'.clock
    requires m'.sessions == m.sessions && m.sessions.Keys <= m.creators.Keys && Extends(m.creators, m'.creators)
    ensures Coverage(m', user)
  {
    forall p, s | p in m'.snaps && m'.snaps[p].user == user && s in LiveSessions(m', user) && s in m'.creators
      ensures Covers(m', p, s)
    {
      assert s in LiveSessions(m, user);
      assert Covers(m, p, s);
    }
  }

  lemma SnapshotKeepsCoverage(cfg: SessionConfig, m: Machine, t: TxId, ch: Choice, e: Effect, m': Machine, user: UserId)
    requires cfg.Valid() && Ran(cfg, m, t, ch, e, m') && Struct(m) && e.TakeSnapshot? && t !in m.snaps
    requires Coverage(m, user) && CreatorsOk(m)
    ensures Coverage(m', user)
  {
    SnapshotSees(cfg, m, t, ch, e, m');
    forall p, s | p in m'.snaps && m'.snaps[p].user == user && s in LiveSessions(m', user) && s in m'.creators
      ensures Covers(m', p, s)
    {
      assert s in LiveSessions(m, user);
      if p != t {
        assert Covers(m, p, s);
        assert CommittedSessionOk(m, s);
      }
    }
  }

  /** After a commit a live session of the user was live before, or the transaction brings it. */
  lemma CommitBrings(m: Machine, t: TxId, user: UserId, s: SessionId)
    requires Struct(m) && t in m.txs && s in LiveSessions(CommitTx(m, t), user)
    ensures s in LiveSessions(m, user)
      || (s !in m.sessions && s in m.dirtySessions && m.dirtySessions[s].owner == t
          && m.dirtySessions[s].row.userId == user)
  {
    assert s in m.dirtySessions ==> DirtySessionOk(m, s);
  }

  lemma CommitKeepsHistory(m: Machine, t: TxId)
    requires t in m.txs
    ensures CommitTx(m, t).snaps == m.snaps && CommitTx(m, t).creators == m.creators
  {
  }

  lemma CommitKeepsCoverage(cfg: SessionConfig, m: Machine, t: TxId, user: UserId, k: nat)
    requires cfg.Valid() && Struct(m) && t in m.txs && CapInv(cfg, m, user, k)
    ensures Coverage(CommitTx(m, t), user)
  {
    var m' := CommitTx(m, t);
    CommitKeepsHistory(m, t);
    forall p, s | p in m'.snaps && m'.snaps[p].user == user && s in LiveSessions(m', user) && s in m'.creators
      ensures Covers(m', p, s)
    {
      CommitBrings(m, t, user, s);
      if s in LiveSessions(m, user) {
        assert Covers(m, p, s);
      } else {
        NewSessionIsCovered(cfg, m, t, user, k, p, s);
      }
    }
  }

  lemma NewSessionIsCovered(cfg: SessionConfig, m: Machine, t: TxId, user: UserId, k: nat, p: TxId, s: SessionId)
    requires cfg.Valid() && t in m.txs && CapInv(cfg, m, user, k) && p in m.snaps && m.snaps[p].user == user
    requires s !in m.sessions && s in m.dirtySessions && m.dirtySessions[s].owner == t
    requires m.dirtySessions[s].row.userId == user
    ensures s in m.creators && Covers(m, p, s)
  {
    assert NewSessionOk(m, s);
    assert LoginOk(m, t, m.txs[t]);
    if t != p && m.snaps[t].index < m.snaps[p].index {
      assert Precedes(m, t, p);
    }
  }

  lemma ExecuteKeepsCap(
      cfg: SessionConfig, m: Machine, t: TxId, ch: Choice, e: Effect, m': Machine, user: UserId, k: nat)
    requires cfg.Valid() && Ran(cfg, m, t, ch, e, m') && Struct(m) && CapInv(cfg, m, user, k)
    requires |InFlightLogins(m', user)| <= k
    ensures CapInv(cfg, m', user, k)
  {
    StatementKeepsLogins(cfg, m, t, ch, e, m');
    StatementKeepsCreators(cfg, m, t, ch, e, m');
    StatementEffect(cfg, m, t, ch);
    if e.TakeSnapshot? {
      SnapshotKeepsWindows(cfg, m, t, ch, e, m', user, k);
      SnapshotKeepsCoverage(cfg, m, t, ch, e, m', user);
    } else {
      OtherStatementsKeepWindows(cfg, m, t, e, m', user, k);
      StatementCommitsNoSession(m, t, e, m');
      CoverageFrame(m, m', user);
    }
  }

  lemma StatementCommitsNoSession(m: Machine, t: TxId, e: Effect, m': Machine)
    requires t in m.txs && !e.Wait? && !e.TakeSnapshot? && m' == ApplyEffect(m, t, m.txs[t], e)
    ensures m'.sessions == m.sessions && m'.snaps == m.snaps
  {
  }

  lemma CommitKeepsCap(cfg: SessionConfig, m: Machine, t: TxId, user: UserId, k: nat)
    requires cfg.Valid() && Struct(m) && t in m.txs && CapInv(cfg, m, user, k)
    ensures CapInv(cfg, CommitTx(m, t), user, k)
  {
    var m' := CommitTx(m, t);
    CommitEvolves(m, t);
    CommitKeepsCreators(m, t);
    WindowsFrame(cfg, m, m', user, k);
    CommitKeepsCoverage(cfg, m, t, user, k);
    assert LoginsOk(m') by {
      forall o | o in m'.txs ensures LoginOk(m', o, m'.txs[o]) { assert LoginOk(m, o, m.txs[o]); }
      forall o | o in m'.done ensures LoginOk(m', o, m'.done[o]) {
        assert if o == t then LoginOk(m, o, m.txs[o]) else LoginOk(m, o, m.done[o]);
      }
    }
  }

  /** Steps that commit nothing and take no snapshot. */
  lemma QuietStepKeepsCap(cfg: SessionConfig, m: Machine, m': Machine, user: UserId, k: nat)
    requires cfg.Valid() && Struct(m) && CapInv(cfg, m, user, k) && m.clock <= m'.clock
    requires m'.sessions == m.sessions && m'.done == m.done && m'.creators == m.creators
    requires m'.snaps == m.snaps && m'.taken == m.taken
    requires forall t :: t in m'.txs ==>
      (t in m.txs && m'.txs[t] == m.txs[t]) || (t !in m.snaps && LoginOk(m', t, m'.txs[t]))
    requires forall s :: s in m'.dirtySessions ==>
      && s in m.dirtySessions && m'.dirtySessions[s] == m.dirtySessions[s]
      && m.dirtySessions[s].owner in m'.txs && m'.txs[m.dirtySessions[s].owner] == m.txs[m.dirtySessions[s].owner]
    ensures CapInv(cfg, m', user, k)
  {
    WindowsFrame(cfg, m, m', user, k);
    CoverageFrame(m, m', user);
    assert LoginsOk(m') by {
      forall o | o in m'.txs ensures LoginOk(m', o, m'.txs[o]) { assert o in m.txs ==> LoginOk(m, o, m.txs[o]); }
      forall o | o in m'.done ensures LoginOk(m', o, m'.done[o]) { assert LoginOk(m, o, m.done[o]); }
    }
    assert CreatorsOk(m') by {
      forall s | s in m'.dirtySessions && s !in m'.sessions ensures NewSessionOk(m', s) { assert NewSessionOk(m, s); }
      forall s | s in m'.sessions ensures CommittedSessionOk(m', s) { assert CommittedSessionOk(m, s); }
    }
  }

  lemma ReleaseFrame(m: Machine, t: TxId)
    requires Struct(m)
    ensures var m' := Release(m, t);
      && (forall o :: o in m'.txs ==> o in m.txs && m'.txs[o] == m.txs[o])
      && (forall s :: s in m'.dirtySessions ==>
            && s in m.dirtySessions && m'.dirtySessions[s] == m.dirtySessions[s]
            && m.dirtySessions[s].owner in m'.txs
              && m'.txs[m.dirtySessions[s].owner] == m.txs[m.dirtySessions[s].owner])
  {
    assert forall s :: s in m.dirtySessions ==> DirtySessionOk(m, s);
  }

  lemma AbortKeepsCap(cfg: SessionConfig, m: Machine, t: TxId, user: UserId, k: nat)
    requires cfg.Valid() && Struct(m) && CapInv(cfg, m, user, k)
    ensures CapInv(cfg, Release(m, t), user, k)
  {
    ReleaseFrame(m, t);
    QuietStepKeepsCap(cfg, m, Release(m, t), user, k);
  }

  lemma BeginKeepsCap(cfg: SessionConfig, m: Machine, l: Label, m': Machine, user: UserId, k: nat)
    requires cfg.Valid() && Struct(m) && CapInv(cfg, m, user, k)
    requires Moves(cfg, m, l, m') && l.Begin?
    ensures CapInv(cfg, m', user, k)
  {
    assert forall s :: s in m.dirtySessions ==> DirtySessionOk(m, s);
    QuietStepKeepsCap(cfg, m, m', user, k);
  }

  lemma PassiveFrame(cfg: SessionConfig, m: Machine, l: Label, m': Machine)
    requires cfg.Valid() && Moves(cfg, m, l, m') && (l.Notify? || l.Tick? || l.Cleanup?)
    ensures m'.sessions == m.sessions && m'.dirtySessions == m.dirtySessions && m'.creators == m.creators
    ensures m'.txs == m.txs && m'.done == m.done && m'.snaps == m.snaps && m'.taken == m.taken && m.clock <= m'.clock
  {
  }

  lemma OwnersAreInFlight(m: Machine)
    requires Struct(m)
    ensures forall s :: s in m.dirtySessions ==> m.dirtySessions[s].owner in m.txs
  {
    assert forall s :: s in m.dirtySessions ==> DirtySessionOk(m, s);
  }

  lemma PassiveKeepsCap(cfg: SessionConfig, m: Machine, l: Label, m': Machine, user: UserId, k: nat)
    requires cfg.Valid() && Struct(m) && CapInv(cfg, m, user, k)
    requires Moves(cfg, m, l, m') && (l.Notify? || l.Tick? || l.Cleanup?)
    ensures CapInv(cfg, m', user, k)
  {
    PassiveFrame(cfg, m, l, m');
    OwnersAreInFlight(m);
    QuietStepKeepsCap(cfg, m, m', user, k);
  }

  lemma NextKeepsCap(cfg: SessionConfig, m: Machine, m': Machine, user: UserId, k: nat)
    requires cfg.Valid() && Safe(cfg, m) && Next(cfg, m, m') && CapInv(cfg, m, user, k)
    requires |InFlightLogins(m', user)| <= k
    ensures CapInv(cfg, m', user, k)
  {
    var l :| Moves(cfg, m, l, m');
    if l.Execute? {
      assert PcOk(cfg, m, l.t, m.txs[l.t]);
      StepKeepsStruct(cfg, m, l);
      ExecuteKeepsCap(cfg, m, l.t, l.choice, Statement(cfg, m, l.t, m.txs[l.t], l.choice), m', user, k);
    } else if l.Commit? {
      CommitKeepsCap(cfg, m, l.t, user, k);
    } else if l.Abort? {
      AbortKeepsCap(cfg, m, l.t, user, k);
    } else if l.Begin? {
      BeginKeepsCap(cfg, m, l, m', user, k);
    } else {
      PassiveKeepsCap(cfg, m, l, m', user, k);
    }
  }

  lemma RunStepKeepsCap(cfg: SessionConfig, run: seq<Machine>, i: nat, user: UserId, k: nat)
    requires cfg.Valid() && Reachable(cfg, run) && i < |run| - 1
    requires CapInv(cfg, run[i], user, k) && |InFlightLogins(run[i + 1], user)| <= k
    ensures CapInv(cfg, run[i + 1], user, k)
  {
    RunIsSafe(cfg, run, i);
    NextKeepsCap(cfg, run[i], run[i + 1], user, k);
  }

  lemma StartKeepsCap(cfg: SessionConfig, m: Machine, user: UserId, k: nat)
    requires cfg.Valid() && Init(m)
    ensures CapInv(cfg, m, user, k)
  {
  }

  lemma {:induction false} RunKeepsCap(cfg: SessionConfig, run: seq<Machine>, i: nat, user: UserId, k: nat)
    requires cfg.Valid() && Reachable(cfg, run) && i < |run|
    requires forall j :: 0 <= j <= i ==> |InFlightLogins(run[j], user)| <= k
    ensures CapInv(cfg, run[i], user, k)
  {
    if i == 0 {
      StartKeepsCap(cfg, run[0], user, k);
    } else {
      RunKeepsCap(cfg, run, i - 1, user, k);
      RunStepKeepsCap(cfg, run, i - 1, user, k);
    }
  }

  /**
   * The soft cap. If at most k logins of one user are ever between their first read and their
   * commit at the same time, the user never has more than maxActivePerUser - 1 + k unrevoked,
   * unexpired sessions, under any interleaving with any other transactions. With k = 1 the cap
   * is exact.
   */
  lemma SoftCapIsBounded(cfg: SessionConfig, run: seq<Machine>, i: nat, user: UserId, k: nat)
    requires cfg.Valid() && Reachable(cfg, run) && i < |run|
    requires forall j :: 0 <= j <= i ==> |InFlightLogins(run[j], user)| <= k
    ensures |LiveSessions(run[i], user)| <= cfg.maxActivePerUser - 1 + k
  {
    RunIsSafe(cfg, run, i);
    RunKeepsCap(cfg, run, i, user, k);
    CapFromInvariant(cfg, run[i], user, k);
  }
}
