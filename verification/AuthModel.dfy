/**
 * Rows, settings and verdicts shared by every part of the model.
 *
 * A row is identified with the unique key that the schema puts on it: a refresh
 * token or user token with the hash of its raw value, an email with its address.
 * Hashing is taken to be injective, so a raw token and its hash name the same row.
 */
module AuthModel {

  datatype Option<+T> = None | Some(value: T)

  /** Milliseconds on one monotone clock. */
  type Time = int

  type UserId = nat
  type SessionId = nat
  type FamilyId = nat
  type TokenId = nat

  const MS_PER_SECOND := 1000

  datatype RevocationReason =
    | LOGOUT | LOGOUT_ALL | PASSWORD_CHANGED | TOKEN_REUSE | EXPIRED | SECURITY | SESSION_LIMIT

  datatype RefreshFailure =
    | TokenNotFound | TokenRevoked | TokenExpired
    | SessionRevoked | SessionExpired | UserNotActive | TokenReuse

  datatype Session = Session(
    userId: UserId,
    familyId: FamilyId,
    createdAt: Time,
    lastUsedAt: Time,
    expiresAt: Time,
    revokedAt: Option<Time>,
    reason: Option<RevocationReason>)

  datatype RefreshToken = RefreshToken(
    sessionId: SessionId,
    createdAt: Time,
    expiresAt: Time,
    usedAt: Option<Time>,
    revokedAt: Option<Time>)

  /** The session settings, in the units the configuration uses. */
  datatype SessionConfig = SessionConfig(
    maxActivePerUser: nat,
    absoluteTtlSeconds: nat,
    refreshTtlSeconds: nat,
    graceSeconds: nat)
  {
    /** What the environment schema enforces: everything positive, the grace window possibly zero. */
    predicate Valid() {
      maxActivePerUser > 0 && absoluteTtlSeconds > 0 && refreshTtlSeconds > 0
    }
  }

  predicate IsWithinGrace(usedAt: Time, now: Time, graceSeconds: nat) {
    now - usedAt <= graceSeconds * MS_PER_SECOND
  }

  /** A refresh token's expiry: its own lifetime, clamped to the session it belongs to. */
  function RefreshExpiry(now: Time, sessionExpiresAt: Time, cfg: SessionConfig): Time {
    var own := now + cfg.refreshTtlSeconds * MS_PER_SECOND;
    if own <= sessionExpiresAt then own else sessionExpiresAt
  }

  function NewRefreshToken(sid: SessionId, sessionExpiresAt: Time, now: Time, cfg: SessionConfig): RefreshToken {
    RefreshToken(sid, now, RefreshExpiry(now, sessionExpiresAt, cfg), None, None)
  }

  function NewSession(user: UserId, family: FamilyId, now: Time, cfg: SessionConfig): Session {
    Session(user, family, now, now, now + cfg.absoluteTtlSeconds * MS_PER_SECOND, None, None)
  }

  /** The `where` clauses that the service passes to revokeSessions. */
  datatype Where =
    | ById(id: SessionId)
    | ByUser(user: UserId)
    | ByUserExcept(user: UserId, kept: SessionId)
    | ByFamily(user: UserId, family: FamilyId)
    | Among(ids: set<SessionId>)

  predicate Matches(w: Where, id: SessionId, s: Session) {
    match w
    case ById(i) => id == i
    case ByUser(u) => s.userId == u
    case ByUserExcept(u, kept) => s.userId == u && id != kept
    case ByFamily(u, f) => s.userId == u && s.familyId == f
    case Among(ids) => id in ids
  }

  /** `b` is a later version of the session row `a`: revokedAt never returns to null. */
  predicate SessionLater(a: Session, b: Session) {
    && b.userId == a.userId && b.familyId == a.familyId
    && b.createdAt == a.createdAt && b.expiresAt == a.expiresAt
    && (a.revokedAt.Some? ==> b.revokedAt.Some?)
  }

  /** `b` is a later version of the token row `a`: usedAt and revokedAt are set once and kept. */
  predicate TokenLater(a: RefreshToken, b: RefreshToken) {
    && b.sessionId == a.sessionId && b.createdAt == a.createdAt && b.expiresAt == a.expiresAt
    && (a.usedAt.Some? ==> b.usedAt == a.usedAt)
    && (a.revokedAt.Some? ==> b.revokedAt == a.revokedAt)
  }

  predicate IsActive(s: Session, user: UserId, now: Time) {
    s.userId == user && s.revokedAt.None? && s.expiresAt > now
  }

  /** The user's sessions that count toward the cap at `now`. */
  function ActiveSessions(sessions: map<SessionId, Session>, user: UserId, now: Time): set<SessionId> {
    set s | s in sessions && IsActive(sessions[s], user, now)
  }

  /** `order` lists exactly `ids`, once each, least recently used first. */
  ghost predicate IsLruListing(sessions: map<SessionId, Session>, ids: set<SessionId>, order: seq<SessionId>) {
    && (forall i :: 0 <= i < |order| ==> order[i] in ids)
    && (forall s :: s in ids ==> s in order)
    && (forall i, j :: 0 <= i < j < |order| ==> order[i] != order[j])
    && (forall i :: 0 <= i < |order| ==> order[i] in sessions)
    && (forall i, j :: 0 <= i < j < |order| ==> sessions[order[i]].lastUsedAt <= sessions[order[j]].lastUsedAt)
  }

  /** How many sessions a login evicts when it sees `active` of them. */
  function EvictCount(active: nat, cfg: SessionConfig): nat
    requires cfg.Valid()
  {
    if active >= cfg.maxActivePerUser then active - cfg.maxActivePerUser + 1 else 0
  }

  function Evicted(order: seq<SessionId>, cfg: SessionConfig): set<SessionId>
    requires cfg.Valid()
  {
    set i | 0 <= i < EvictCount(|order|, cfg) :: order[i]
  }
}
