/** The access-token guard, and how long a revoked session's token can still get past it. */
module JwtAuthGuard {
  import opened AuthModel
  import opened UnitOfWork

  const CLOCK_TOLERANCE := 5

  /** An access token as the verifier sees it: `wellFormed` is the signature, issuer and audience check. */
  datatype AccessToken = AccessToken(sid: SessionId, iat: int, exp: int, wellFormed: bool)

  datatype Access =
    | Public | MissingToken | InvalidToken | AccessTokenExpired | SessionIsRevoked | Granted(sid: SessionId)

  /** JWT times are whole seconds, rounded down. */
  function Seconds(at: Time): int {
    at / MS_PER_SECOND
  }

  function GenerateAccessToken(sid: SessionId, ttlSeconds: nat, now: Time): AccessToken {
    AccessToken(sid, Seconds(now), Seconds(now) + ttlSeconds, true)
  }

  /** Section 4.1.4 of RFC 7519, with its leeway: the token is over at `exp` plus the tolerance. */
  predicate IsExpired(token: AccessToken, now: Time) {
    Seconds(now) >= token.exp + CLOCK_TOLERANCE
  }

  /** The answer of a reachable denylist. */
  predicate IsListed(entries: map<SessionId, Time>, sid: SessionId, now: Time) {
    sid in entries && now < entries[sid]
  }

  /** Verification first, so that only a valid token's session is looked up, in a denylist that may not answer. */
  function Decide(
      isPublic: bool, bearer: Option<AccessToken>, answers: bool, entries: map<SessionId, Time>, now: Time): Access {
    if isPublic then Public
    else if bearer.None? then MissingToken
    else if !bearer.value.wellFormed then InvalidToken
    else if IsExpired(bearer.value, now) then AccessTokenExpired
    else if answers && IsListed(entries, bearer.value.sid, now) then SessionIsRevoked
    else Granted(bearer.value.sid)
  }

  class JwtAuthGuard {
    const denylist: SessionDenylist

    constructor (denylist: SessionDenylist)
      ensures this.denylist == denylist
    {
      this.denylist := denylist;
    }

    method CanActivate(isPublic: bool, bearer: Option<AccessToken>, reachable: bool, now: Time) returns (access: Access)
      ensures access == Decide(isPublic, bearer, denylist.enabled && reachable, denylist.entries, now)
      ensures access.Public? <==> isPublic
      ensures access.Granted? <==>
        && !isPublic && bearer.Some? && bearer.value.wellFormed && Seconds(now) < bearer.value.exp + 5
        && (denylist.enabled && reachable && bearer.value.sid in denylist.entries ==>
            denylist.entries[bearer.value.sid] <= now)
      ensures access.Granted? ==> access.sid == bearer.value.sid
      ensures access.MissingToken? <==> !isPublic && bearer.None?
      ensures access.InvalidToken? <==> !isPublic && bearer.Some? && !bearer.value.wellFormed
      ensures access.AccessTokenExpired? <==>
        !isPublic && bearer.Some? && bearer.value.wellFormed && bearer.value.exp + 5 <= Seconds(now)
      ensures access.SessionIsRevoked? <==>
        && !isPublic && bearer.Some? && bearer.value.wellFormed && Seconds(now) < bearer.value.exp + 5
        && denylist.enabled && reachable && bearer.value.sid in denylist.entries
        && now < denylist.entries[bearer.value.sid]
    {
      if isPublic {
        return Public;
      }
      if bearer.None? {
        return MissingToken;
      }
      var claims := bearer.value;
      if !claims.wellFormed {
        return InvalidToken;
      }
      if IsExpired(claims, now) {
        return AccessTokenExpired;
      }
      var revoked := denylist.IsRevoked(claims.sid, reachable, now);
      return if revoked then SessionIsRevoked else Granted(claims.sid);
    }
  }

  /** The guard lets `token` through at `at`, given what an answering denylist holds. */
  predicate Admits(entries: map<SessionId, Time>, token: AccessToken, at: Time) {
    Decide(false, Some(token), true, entries, at).Granted?
  }

  /**
   * A token minted no later than its session's denylist entry, which lives for the token lifetime from
   * `written`, gets through again only when the entry has lapsed before the leeway has.
   */
  lemma RevokedTokenWindow(
      entries: map<SessionId, Time>, sid: SessionId, ttlSeconds: nat, minted: Time, written: Time, at: Time)
    requires minted <= written <= at
    ensures var token := GenerateAccessToken(sid, ttlSeconds, minted);
      var lapse := written + ttlSeconds * MS_PER_SECOND;
      Admits(Written(entries, {sid}, lapse), token, at) <==>
        lapse <= at && at / 1000 < minted / 1000 + ttlSeconds + CLOCK_TOLERANCE
  {
  }

  lemma ShiftBySeconds(at: Time, seconds: nat)
    ensures Seconds(at + seconds * MS_PER_SECOND) == Seconds(at) + seconds
  {
  }

  /**
   * The denylist closes the revocation gap exactly when the entry is written at least the tolerance
   * after the token's issue second. A token younger than that can be used again for a moment at the end.
   */
  lemma GapIsClosedExactlyAfterTolerance(
      entries: map<SessionId, Time>, sid: SessionId, ttlSeconds: nat, minted: Time, written: Time)
    requires minted <= written
    ensures var token := GenerateAccessToken(sid, ttlSeconds, minted);
      var listed := Written(entries, {sid}, written + ttlSeconds * MS_PER_SECOND);
      (forall at :: written <= at ==> !Admits(listed, token, at)) <==>
        written >= (minted / 1000 + CLOCK_TOLERANCE) * 1000
  {
    var token := GenerateAccessToken(sid, ttlSeconds, minted);
    var lapse := written + ttlSeconds * MS_PER_SECOND;
    var listed := Written(entries, {sid}, lapse);
    ShiftBySeconds(written, ttlSeconds);
    RevokedTokenWindow(entries, sid, ttlSeconds, minted, written, lapse);
    if written >= (token.iat + CLOCK_TOLERANCE) * MS_PER_SECOND {
      forall at | written <= at ensures !Admits(listed, token, at) {
        RevokedTokenWindow(entries, sid, ttlSeconds, minted, written, at);
        assert lapse <= at ==> Seconds(lapse) <= Seconds(at);
      }
    } else {
      assert Admits(listed, token, lapse);
    }
  }
}
