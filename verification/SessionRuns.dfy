/** Sessions over whole runs: what a login and a refresh open, and what a logout ends for good. */
module SessionRuns {
  import opened AuthModel
  import opened AuthDb
  import opened SessionLaws
  import opened SessionRows
  import opened Runs
  import opened Forward

  /** The operation asks for the end of session `s`: by its id, by one of its tokens, or with all of its user. */
  predicate LogsOut(db: Db, op: Op, s: SessionId) {
    match op
    case EndSession(sid) => sid == s
    case EndByToken(k) => k in db.tokens && db.tokens[k].sessionId == s
    case EndAllSessions(user, _) => s in db.sessions && db.sessions[s].userId == user
    case _ => false
  }

  lemma LogoutEnds(settings: Settings, w: World, op: Op, s: SessionId)
    requires settings.Valid() && s in w.db.sessions && LogsOut(w.db, op, s)
    ensures var db' := Do(settings, w, op).db;
      && s in db'.sessions && db'.sessions[s].revokedAt.Some?
      && (w.db.sessions[s].revokedAt.None? ==> db'.sessions[s].revokedAt == Some(w.clock))
  {
    match op
    case EndSession(_) => LogoutRows(w.db, s, w.clock);
    case EndByToken(_) => LogoutRows(w.db, s, w.clock);
    case EndAllSessions(user, initiating) => LogoutAllEnds(w.db, user, initiating, w.clock, s);
  }

  lemma LogoutAllEnds(db: Db, user: UserId, initiating: Option<SessionId>, now: Time, s: SessionId)
    requires s in db.sessions && db.sessions[s].userId == user
    ensures var db' := LogoutAll(db, user, initiating, now);
      && s in db'.sessions && db'.sessions[s].revokedAt.Some?
      && (db.sessions[s].revokedAt.None? ==> db'.sessions[s].revokedAt == Some(now))
  {
    LogoutAllRows(db, user, initiating, now);
    assert db.sessions[s].revokedAt.None? ==> s in SessionsOf(db, user);
  }

  /** Whatever token of the session is presented, it is refused, and as no theft. */
  ghost predicate RefusesAll(cfg: SessionConfig, db: Db, s: SessionId, now: Time) {
    forall k, child :: k in db.tokens && db.tokens[k].sessionId == s ==>
      var v := Rotate(cfg, db, k, child, now).1;
      v == Rejected(SessionRevoked) || v == Rejected(TokenNotFound)
  }

  lemma OverSessionsRefuse(cfg: SessionConfig, db: Db, s: SessionId, now: Time)
    requires s in db.sessions && db.sessions[s].revokedAt.Some?
    ensures RefusesAll(cfg, db, s, now)
  {
    forall k, child | k in db.tokens && db.tokens[k].sessionId == s
      ensures Rotate(cfg, db, k, child, now).1 in {Rejected(SessionRevoked), Rejected(TokenNotFound)}
    {
      RotationVerdicts(cfg, db, k, child, now);
      if IsKnown(db, k) {
        RotationAnswers(cfg, db, k, child, now);
      }
    }
  }

  /**
   * A logout, whether of one session, by cookie or of all, is for good: at every later moment of every run the
   * session is over, at the time at which it first was, and every token of it is refused.
   */
  lemma LogoutIsForGood(settings: Settings, w: World, op: Op, ops: seq<Op>, s: SessionId)
    requires settings.Valid() && WorldOk(w) && IsRun(settings, w, [op] + ops)
    requires s in w.db.sessions && LogsOut(w.db, op, s)
    ensures var end := DoAll(settings, w, [op] + ops);
      && s in end.db.sessions && end.db.sessions[s].revokedAt
           == (if w.db.sessions[s].revokedAt.Some? then w.db.sessions[s].revokedAt else Some(w.clock))
      && RefusesAll(settings.session, end.db, s, end.clock)
  {
    assert ([op] + ops)[1..] == ops;
    var next := Do(settings, w, op);
    LogoutEnds(settings, w, op, s);
    DoKeepsWorldOk(settings, w, op);
    RunIsForward(settings, next, ops);
    var end := DoAll(settings, next, ops);
    OverSessionsRefuse(settings.session, end.db, s, end.clock);
  }

  /** A login gives its user a token that can be used at once, and so does a refresh, in the session it had. */
  lemma MintedTokensAreUsable(settings: Settings, w: World, op: Op)
    requires settings.Valid() && WorldOk(w) && Admissible(settings, w, op) && (op.Login? || op.Refresh?)
    ensures var db' := Do(settings, w, op).db;
      if op.Login? then
        && IsUsableToken(db', op.tid, w.clock) && db'.tokens[op.tid].sessionId == op.sid
        && db'.sessions[op.sid].userId == op.user && db'.tokens[op.tid].usedAt.None?
      else if Rotate(settings.session, w.db, op.token, op.child, w.clock).1.Rotated? then
        && IsUsableToken(db', op.child, w.clock) && db'.tokens[op.child].usedAt.None?
        && op.token in w.db.tokens && db'.tokens[op.child].sessionId == w.db.tokens[op.token].sessionId
        && op.token in db'.tokens && db'.tokens[op.token].usedAt.Some?
      else op.child !in db'.tokens
  {
    match op
    case Login(user, order, sid, family, tid) =>
      assert tid in MintedBy(op);
      LoginIssuesOneSession(settings.session, w.db, user, order, sid, family, tid, w.clock, w.clock);
    case Refresh(token, child) =>
      assert child in MintedBy(op);
      if Rotate(settings.session, w.db, token, child, w.clock).1.Rotated? {
        RotationConsumesOnce(settings.session, w.db, token, child, w.clock);
      } else {
        RefusalWritesOnlyTheSweep(settings.session, w.db, token, child, w.clock);
      }
  }
}
