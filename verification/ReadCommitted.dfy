/**
 * The session transactions, cut into their SQL statements and interleaved under
 * Read Committed.
 *
 * A row has its committed version and at most one dirty version, owned by the
 * transaction that wrote it; that transaction holds the row's lock until it commits or
 * aborts. A statement sees committed rows plus its own dirty ones. An UPDATE of a row
 * that another transaction has locked waits, and re-tests its WHERE against what that
 * transaction committed. A multi-row UPDATE fixes the rows it will visit when it starts
 * and then takes them one at a time.
 *
 * Fields marked "history" do not exist in the program; they only record what happened.
 */
module ReadCommitted {
  import opened AuthModel

  type TxId = nat

  datatype Job =
    | Rotate(token: TokenId)
    | Login(user: UserId)
    | Revoke(where: Where, reason: RevocationReason)
    | ChangePassword(user: UserId, session: SessionId)

  datatype Result =
    | Rotated(session: SessionId, child: TokenId, graceReplay: bool)
    | Rejected(failure: RefreshFailure)
    | Reused(session: SessionId, usedAt: Option<Time>)
    | LoggedIn(session: SessionId, token: TokenId)
    | Reissued(token: TokenId)
    | SessionsRevoked
    | Refused

  /** What a transaction goes on to do when its revocation is finished. */
  datatype Then =
    | Finish(result: Result)
    | InsertTheSession
    | RetireOwn(session: SessionId, expiresAt: Time)
    | Reissue(session: SessionId, expiresAt: Time)

  /** The next statement of a transaction, with the local variables it needs. */
  datatype Pc =
    | ReadToken
    | ReadSession(tok: RefreshToken)
    | Consume(tok: RefreshToken, ses: Session)
    | ReadWinner(tok: RefreshToken, ses: Session)
    | Mint(tok: RefreshToken, ses: Session, graceReplay: bool)
    | Touch(session: SessionId, child: TokenId, graceReplay: bool)
    | CheckSession
    | ReadActive
    | FindSessions(where: Where, reason: RevocationReason, follow: Then)
    | RevokeRows(rows: set<SessionId>, reason: RevocationReason, follow: Then)
    | SelectTokens(of: set<SessionId>, follow: Then)
    | RetireRows(todo: set<TokenId>, follow: Then)
    | InsertSession
    | InsertToken(session: SessionId, expiresAt: Time, login: bool)
    | Ready(result: Result)

  datatype Tx = Tx(
    job: Job,
    now: Time,
    pc: Pc,
    targets: set<SessionId>,  // history: the sessions its revocation matched, revoked already or not
    ids: set<SessionId>)      // the sessions its revocation revokes, queued for the denylist

  /** An uncommitted row version. */
  datatype Dirty<T> = Dirty(owner: TxId, row: T)

  /** History of one minted token: its session, its ancestors ending in itself, who minted it. */
  datatype Birth = Birth(session: SessionId, lineage: seq<TokenId>, minter: TxId)

  /** History of a login's first read. */
  datatype Snapshot = Snapshot(
    user: UserId, index: nat, seen: set<SessionId>, evict: set<SessionId>, window: set<TxId>)

  datatype Machine = Machine(
    clock: Time,
    sessions: map<SessionId, Session>,              // committed rows
    tokens: map<TokenId, RefreshToken>,             // committed rows, deleted ones included
    gone: set<TokenId>,                             // the token rows that cleanup has deleted
    dirtySessions: map<SessionId, Dirty<Session>>,
    dirtyTokens: map<TokenId, Dirty<RefreshToken>>,
    txs: map<TxId, Tx>,               // in flight
    done: map<TxId, Tx>,              // committed, as they were at commit
    denylist: set<SessionId>,
    notified: set<TxId>,              // committed, and its queued effects have run
    born: map<TokenId, Birth>,        // history
    creators: map<SessionId, TxId>,   // history: who inserted each session
    snaps: map<TxId, Snapshot>,       // history
    taken: nat,                       // history: snapshots taken so far
    begun: set<TxId>)                 // history: every transaction so far, aborted ones included

  /** What the environment decides while a statement runs. */
  datatype Choice = Choice(
    active: bool,             // the user checks (status, and for a password change the password) pass
    sid: SessionId,           // a fresh session id, or the session row visited next
    tid: TokenId,             // a fresh token id, or the token row visited next
    family: FamilyId,
    order: seq<SessionId>)    // the active sessions as ORDER BY lastUsedAt returned them

  datatype Effect =
    | Wait
    | Go(next: Pc)
    | Select(targets: set<SessionId>, ids: set<SessionId>, next: Pc)
    | TakeSnapshot(snap: Snapshot, next: Pc)
    | PutSession(sid: SessionId, session: Session, next: Pc)
    | PutToken(tid: TokenId, token: RefreshToken, next: Pc)

  function OwnSession(m: Machine, t: TxId, s: SessionId): Option<Session> {
    if s in m.dirtySessions && m.dirtySessions[s].owner == t then Some(m.dirtySessions[s].row) else None
  }

  function OwnToken(m: Machine, t: TxId, k: TokenId): Option<RefreshToken> {
    if k in m.dirtyTokens && m.dirtyTokens[k].owner == t then Some(m.dirtyTokens[k].row) else None
  }

  /** The version of a session row that `t` sees. */
  function SeeSession(m: Machine, t: TxId, s: SessionId): Option<Session> {
    if OwnSession(m, t, s).Some? then OwnSession(m, t, s)
    else if s in m.sessions then Some(m.sessions[s])
    else None
  }

  /** The version of a token row that `t` sees; a deleted row is not seen. */
  function SeeToken(m: Machine, t: TxId, k: TokenId): Option<RefreshToken> {
    if k in m.gone then None
    else if OwnToken(m, t, k).Some? then OwnToken(m, t, k)
    else if k in m.tokens then Some(m.tokens[k])
    else None
  }

  /** The sessions table as `t` sees it. */
  function SessionTable(m: Machine, t: TxId): map<SessionId, Session> {
    map s | s in m.sessions.Keys + m.dirtySessions.Keys && SeeSession(m, t, s).Some? :: SeeSession(m, t, s).value
  }

  predicate SessionLocked(m: Machine, t: TxId, s: SessionId) {
    s in m.dirtySessions && m.dirtySessions[s].owner != t
  }

  predicate TokenLocked(m: Machine, t: TxId, k: TokenId) {
    k in m.dirtyTokens && m.dirtyTokens[k].owner != t
  }

  function After(follow: Then): Pc {
    match follow
    case Finish(result) => Ready(result)
    case InsertTheSession => InsertSession
    case RetireOwn(sid, expiresAt) => SelectTokens({sid}, Reissue(sid, expiresAt))
    case Reissue(sid, expiresAt) => InsertToken(sid, expiresAt, false)
  }

  function RevokeFamily(tok: RefreshToken, ses: Session, usedAt: Option<Time>): Pc {
    FindSessions(ByFamily(ses.userId, ses.familyId), TOKEN_REUSE, Finish(Reused(tok.sessionId, usedAt)))
  }

  /** The decisions a rotation takes between its reads and its first write. */
  function Decide(cfg: SessionConfig, tok: RefreshToken, ses: Session, userActive: bool, now: Time): Pc {
    if ses.revokedAt.Some? then Ready(Rejected(SessionRevoked))
    else if ses.expiresAt <= now then FindSessions(ById(tok.sessionId), EXPIRED, Finish(Rejected(SessionExpired)))
    else if !userActive then Ready(Rejected(UserNotActive))
    else if tok.revokedAt.Some? then Ready(Rejected(TokenRevoked))
    else if tok.expiresAt <= now then Ready(Rejected(TokenExpired))
    else if tok.usedAt.None? then Consume(tok, ses)
    else if IsWithinGrace(tok.usedAt.value, now, cfg.graceSeconds) then Mint(tok, ses, true)
    else RevokeFamily(tok, ses, tok.usedAt)
  }

  /** The check that a password change makes before it opens its transaction. */
  function CheckPasswordChange(user: UserId, sid: SessionId, row: Option<Session>, checksPass: bool, now: Time): Pc {
    if row.None? || row.value.userId != user || row.value.revokedAt.Some? || row.value.expiresAt <= now || !checksPass
    then Ready(Refused)
    else FindSessions(ByUserExcept(user, sid), PASSWORD_CHANGED, RetireOwn(sid, row.value.expiresAt))
  }

  /** The unrevoked tokens of the sessions `of` that `t` sees. */
  function LiveTokensOf(m: Machine, t: TxId, of: set<SessionId>): set<TokenId> {
    set k | k in m.tokens.Keys + m.dirtyTokens.Keys && SeeToken(m, t, k).Some?
            && SeeToken(m, t, k).value.sessionId in of && SeeToken(m, t, k).value.revokedAt.None?
  }

  /** The logins of `user` that have read the active sessions and are still in flight. */
  function InFlightLogins(m: Machine, user: UserId): set<TxId> {
    set t | t in m.txs && t in m.snaps && m.snaps[t].user == user
  }

  /** What the next statement of `tx` does when it runs in `m`. */
  ghost function Statement(cfg: SessionConfig, m: Machine, t: TxId, tx: Tx, ch: Choice): Effect
    requires cfg.Valid()
  {
    match tx.pc
    case ReadToken =>
      if !tx.job.Rotate? then Wait
      else if SeeToken(m, t, tx.job.token).Some? then Go(ReadSession(SeeToken(m, t, tx.job.token).value))
      else Go(Ready(Rejected(TokenNotFound)))
    case ReadSession(tok) =>
      if SeeSession(m, t, tok.sessionId).None? then Wait
      else Go(Decide(cfg, tok, SeeSession(m, t, tok.sessionId).value, ch.active, tx.now))
    case Consume(tok, ses) =>
      if !tx.job.Rotate? then Wait
      else
        var row := SeeToken(m, t, tx.job.token);
        if row.None? || row.value.usedAt.Some? then Go(ReadWinner(tok, ses))
        else if TokenLocked(m, t, tx.job.token) then Wait
        else PutToken(tx.job.token, row.value.(usedAt := Some(tx.now)), Mint(tok, ses, false))
    case ReadWinner(tok, ses) =>
      if !tx.job.Rotate? then Wait
      else
        var row := SeeToken(m, t, tx.job.token);
        var usedAt := if row.Some? then row.value.usedAt else None;
        if usedAt.None? || !IsWithinGrace(usedAt.value, tx.now, cfg.graceSeconds)
        then Go(RevokeFamily(tok, ses, usedAt))
        else Go(Mint(tok, ses, true))
    case Mint(tok, ses, graceReplay) =>
      if ch.tid in m.born then Wait
      else PutToken(ch.tid, NewRefreshToken(tok.sessionId, ses.expiresAt, tx.now, cfg),
                    Touch(tok.sessionId, ch.tid, graceReplay))
    case Touch(sid, child, graceReplay) =>
      var row := SeeSession(m, t, sid);
      if row.None? || SessionLocked(m, t, sid) then Wait
      else PutSession(sid, row.value.(lastUsedAt := tx.now), Ready(Rotated(sid, child, graceReplay)))
    case CheckSession =>
      if !tx.job.ChangePassword? then Wait
      else Go(CheckPasswordChange(tx.job.user, tx.job.session, SeeSession(m, t, tx.job.session), ch.active, tx.now))
    case ReadActive =>
      if !tx.job.Login? then Wait
      else
        var seen := ActiveSessions(SessionTable(m, t), tx.job.user, tx.now);
        if !IsLruListing(SessionTable(m, t), seen, ch.order) then Wait
        else
          var evict := Evicted(ch.order, cfg);
          TakeSnapshot(Snapshot(tx.job.user, m.taken, seen, evict, InFlightLogins(m, tx.job.user) + {t}),
                       if EvictCount(|ch.order|, cfg) > 0
                       then FindSessions(Among(evict), SESSION_LIMIT, InsertTheSession)
                       else InsertSession)
    case FindSessions(where, reason, follow) =>
      var table := SessionTable(m, t);
      var targets := set s | s in table && Matches(where, s, table[s]);
      var ids := set s | s in targets && table[s].revokedAt.None?;
      Select(targets, ids, if ids == {} then After(follow) else RevokeRows(ids, reason, follow))
    case RevokeRows(rows, reason, follow) =>
      var row := SeeSession(m, t, ch.sid);
      if rows == {} then Go(SelectTokens(tx.ids, follow))
      else if ch.sid !in rows || row.None? || SessionLocked(m, t, ch.sid) then Wait
      else PutSession(ch.sid, row.value.(revokedAt := Some(tx.now), reason := Some(reason)),
                      RevokeRows(rows - {ch.sid}, reason, follow))
    case SelectTokens(of, follow) =>
      Go(RetireRows(LiveTokensOf(m, t, of), follow))
    case RetireRows(todo, follow) =>
      var row := SeeToken(m, t, ch.tid);
      if todo == {} then Go(After(follow))
      else if ch.tid !in todo then Wait
      else if row.None? || row.value.revokedAt.Some? then Go(RetireRows(todo - {ch.tid}, follow))
      else if TokenLocked(m, t, ch.tid) then Wait
      else PutToken(ch.tid, row.value.(revokedAt := Some(tx.now)), RetireRows(todo - {ch.tid}, follow))
    case InsertSession =>
      if !tx.job.Login? || ch.sid in m.creators then Wait
      else
        var s := NewSession(tx.job.user, ch.family, tx.now, cfg);
        PutSession(ch.sid, s, InsertToken(ch.sid, s.expiresAt, true))
    case InsertToken(sid, expiresAt, login) =>
      if ch.tid in m.born then Wait
      else PutToken(ch.tid, NewRefreshToken(sid, expiresAt, tx.now, cfg),
                    Ready(if login then LoggedIn(sid, ch.tid) else Reissued(ch.tid)))
    case Ready(_) => Wait
  }

  /** The ancestors that a token minted by `tx` inherits. */
  function Ancestors(m: Machine, tx: Tx): seq<TokenId> {
    if tx.pc.Mint? && tx.job.Rotate? && tx.job.token in m.born then m.born[tx.job.token].lineage else []
  }

  function ApplyEffect(m: Machine, t: TxId, tx: Tx, e: Effect): Machine
    requires !e.Wait?
  {
    match e
    case Go(next) => m.(txs := m.txs[t := tx.(pc := next)])
    case Select(targets, ids, next) => m.(txs := m.txs[t := tx.(pc := next, targets := targets, ids := ids)])
    case TakeSnapshot(snap, next) =>
      m.(txs := m.txs[t := tx.(pc := next)], snaps := m.snaps[t := snap], taken := m.taken + 1)
    case PutSession(sid, row, next) =>
      m.(txs := m.txs[t := tx.(pc := next)],
         dirtySessions := m.dirtySessions[sid := Dirty(t, row)],
         creators := if sid in m.creators then m.creators else m.creators[sid := t])
    case PutToken(tid, row, next) =>
      m.(txs := m.txs[t := tx.(pc := next)],
         dirtyTokens := m.dirtyTokens[tid := Dirty(t, row)],
         born := if tid in m.born then m.born
                 else m.born[tid := Birth(row.sessionId, Ancestors(m, tx) + [tid], t)])
  }

  datatype Label =
    | Begin(t: TxId, job: Job)
    | Execute(t: TxId, choice: Choice)
    | Commit(t: TxId)
    | Abort(t: TxId)
    | Notify(t: TxId)
    | Tick(to: Time)
    | Cleanup(rows: set<TokenId>, cutoff: Time)

  function FirstPc(job: Job): Pc {
    match job
    case Rotate(_) => ReadToken
    case Login(_) => ReadActive
    case Revoke(where, reason) => FindSessions(where, reason, Finish(SessionsRevoked))
    case ChangePassword(_, _) => CheckSession
  }

  ghost predicate Enabled(cfg: SessionConfig, m: Machine, l: Label)
    requires cfg.Valid()
  {
    match l
    case Begin(t, job) => t !in m.txs && t !in m.done && t !in m.snaps && t !in m.begun
    case Execute(t, ch) => t in m.txs && !Statement(cfg, m, t, m.txs[t], ch).Wait?
    case Commit(t) => t in m.txs && m.txs[t].pc.Ready?
    case Abort(t) => t in m.txs
    case Notify(t) => t in m.done
    case Tick(to) => m.clock <= to
    case Cleanup(rows, cutoff) =>
      && cutoff <= m.clock
      && (forall k :: k in rows ==> k in m.tokens && k !in m.dirtyTokens && m.tokens[k].expiresAt < cutoff)
  }

  /** `m` without the dirty rows of `t`, which ends its locks. */
  function Release(m: Machine, t: TxId): Machine {
    m.(dirtySessions := m.dirtySessions - (set s | s in m.dirtySessions && m.dirtySessions[s].owner == t),
       dirtyTokens := m.dirtyTokens - (set k | k in m.dirtyTokens && m.dirtyTokens[k].owner == t),
       txs := m.txs - {t})
  }

  /** The committed tables become what `t` sees. */
  function CommitTx(m: Machine, t: TxId): Machine
    requires t in m.txs
  {
    Release(m, t).(
      sessions := SessionTable(m, t),
      tokens := map k | k in m.tokens.Keys + m.dirtyTokens.Keys && (k in m.tokens || m.dirtyTokens[k].owner == t)
                  :: if k in m.dirtyTokens && m.dirtyTokens[k].owner == t then m.dirtyTokens[k].row else m.tokens[k],
      done := m.done[t := m.txs[t]])
  }

  ghost function Step(cfg: SessionConfig, m: Machine, l: Label): Machine
    requires cfg.Valid() && Enabled(cfg, m, l)
  {
    match l
    case Begin(t, job) => m.(txs := m.txs[t := Tx(job, m.clock, FirstPc(job), {}, {})], begun := m.begun + {t})
    case Execute(t, ch) => ApplyEffect(m, t, m.txs[t], Statement(cfg, m, t, m.txs[t], ch))
    case Commit(t) => CommitTx(m, t)
    case Abort(t) => Release(m, t)
    case Notify(t) => m.(denylist := m.denylist + m.done[t].ids, notified := m.notified + {t})
    case Tick(to) => m.(clock := to)
    case Cleanup(rows, _) => m.(gone := m.gone + rows)
  }

  ghost predicate Moves(cfg: SessionConfig, m: Machine, l: Label, m': Machine)
    requires cfg.Valid()
  {
    Enabled(cfg, m, l) && m' == Step(cfg, m, l)
  }

  ghost predicate Next(cfg: SessionConfig, m: Machine, m': Machine)
    requires cfg.Valid()
  {
    exists l :: Moves(cfg, m, l, m')
  }

  ghost predicate Init(m: Machine) {
    && m.sessions == map[] && m.tokens == map[] && m.gone == {}
    && m.dirtySessions == map[] && m.dirtyTokens == map[] && m.txs == map[] && m.done == map[]
    && m.denylist == {} && m.notified == {} && m.born == map[] && m.creators == map[] && m.snaps == map[]
    && m.taken == 0 && m.begun == {}
  }

  /** Consecutive states of one interleaved execution. */
  ghost predicate IsRun(cfg: SessionConfig, run: seq<Machine>)
    requires cfg.Valid()
  {
    && |run| > 0
    && forall i :: 0 <= i < |run| - 1 ==> Next(cfg, run[i], run[i + 1])
  }
}
