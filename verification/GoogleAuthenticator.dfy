/** Google sign-in in the order the service takes it: verify the token, spend the nonce, resolve the identity. */
module GoogleAuthenticator {
  import opened AuthModel
  import opened AuthDb
  import opened UnitOfWork
  import opened IdentityService
  import opened GoogleNonce
  import opened AccountRows

  datatype SignIn =
    | NotEnabled
    | InvalidToken
    | NonceInvalid
    | NonceMissing
    | Unresolved
    | Outcome(outcome: IdentityOutcome)

  /** What the Google verifier makes of the ID token. */
  datatype Claims = Claims(profile: Profile, nonce: Option<NonceId>)

  class GoogleAuthenticator {
    const enabled: bool
    const nonceRequired: bool
    const nonces: GoogleNonceService
    const identities: IdentityService

    constructor (enabled: bool, nonceRequired: bool, nonces: GoogleNonceService, identities: IdentityService)
      ensures this.enabled == enabled && this.nonceRequired == nonceRequired
      ensures this.nonces == nonces && this.identities == identities
    {
      this.enabled, this.nonceRequired, this.nonces, this.identities := enabled, nonceRequired, nonces, identities;
    }

    /** Which answer goes with which claims and which nonce row. */
    predicate AnswersTheClaims(rows: map<NonceId, NonceRow>, claims: Option<Claims>, now: Time, result: SignIn) {
      var nonce := if claims.Some? then claims.value.nonce else None;
      var isFresh := nonce.Some? && nonce.value in rows && rows[nonce.value].usedAt.None?
                   && now < rows[nonce.value].expiresAt;
      && (result.NotEnabled? <==> !enabled)
      && (result.InvalidToken? <==> enabled && claims.None?)
      && (result.NonceInvalid? <==> enabled && nonce.Some? && !isFresh)
      && (result.NonceMissing? <==> enabled && claims.Some? && nonce.None? && nonceRequired)
      && (result.Outcome? || result.Unresolved? <==>
            enabled && claims.Some? && (isFresh || (nonce.None? && !nonceRequired)))
    }

    /** Why a sign-in with these claims stops before the identity is looked at, if it does. */
    function Barred(claims: Option<Claims>, now: Time): (why: Option<SignIn>)
      reads nonces
    {
      if !enabled then Some(NotEnabled)
      else if claims.None? then Some(InvalidToken)
      else if claims.value.nonce.Some? then
        if IsConsumable(nonces.rows, claims.value.nonce.value, now) then None else Some(NonceInvalid)
      else if nonceRequired then Some(NonceMissing)
      else None
    }

    /**
     * A barred sign-in changes nothing at all. One that is let through has spent its nonce, whatever
     * the identity then turns out to be, and the identity is resolved exactly as on its own.
     */
    method Authenticate(claims: Option<Claims>, newUser: UserId, now: Time, fate: Fate) returns (result: SignIn)
      requires identities.Valid() && newUser !in identities.database.state.users
      modifies nonces, identities.database, identities.sessions.denylist
      ensures var why := old(Barred(claims, now));
        if why.Some? then
          && result == why.value && nonces.rows == old(nonces.rows)
          && identities.database.state == old(identities.database.state)
          && identities.sessions.denylist.entries == old(identities.sessions.denylist.entries)
        else
          && nonces.rows == (if claims.value.nonce.Some? then Consumed(old(nonces.rows), claims.value.nonce.value, now)
                             else old(nonces.rows))
          && (claims.value.nonce.Some? ==> !IsConsumable(nonces.rows, claims.value.nonce.value, now))
          && Ended(identities.database, identities.sessions.denylist,
                   ResolveIdentity(old(identities.database.state), claims.value.profile, newUser, now).0, fate)
          && (fate.commits ==>
                result == Outcome(ResolveIdentity(old(identities.database.state), claims.value.profile, newUser,
                                                  now).1))
      ensures AnswersTheClaims(old(nonces.rows), claims, now, result)
      ensures result.Unresolved? ==> !fate.commits
      ensures result.Outcome? ==>
        AnswersTheSignIn(old(identities.database.state), claims.value.profile, newUser, result.outcome)
    {
      if !enabled {
        return NotEnabled;
      }
      if claims.None? {
        return InvalidToken;
      }
      var refusal := EnforceNonce(claims.value.nonce, now);
      if refusal.Some? {
        return refusal.value;
      }
      var outcome := identities.ResolveExternalIdentity(claims.value.profile, newUser, now, fate);
      result := if outcome.Some? then Outcome(outcome.value) else Unresolved;
    }

    /** A nonce that is present is always checked, whatever the setting says. */
    method EnforceNonce(nonce: Option<NonceId>, now: Time) returns (refusal: Option<SignIn>)
      modifies nonces
      ensures nonces.rows == if nonce.Some? then Consumed(old(nonces.rows), nonce.value, now) else old(nonces.rows)
      ensures refusal ==
        if nonce.Some? then if IsConsumable(old(nonces.rows), nonce.value, now) then None else Some(NonceInvalid)
        else if nonceRequired then Some(NonceMissing) else None
    {
      if nonce.Some? {
        var ok := nonces.Consume(nonce.value, now);
        return if ok then None else Some(NonceInvalid);
      }
      return if nonceRequired then Some(NonceMissing) else None;
    }
  }
}
