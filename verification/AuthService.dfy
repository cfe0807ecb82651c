/** Registration and email verification, when nothing else runs in between their statements. */
module AuthService {
  import opened AuthModel
  import opened AuthDb
  import opened UnitOfWork
  import opened AccountRows

  /** withSerializableRetry's default. */
  const MAX_RETRIES := 3

  datatype Failure = SerializationConflict | OtherFailure

  /** One run of a serializable transaction: its clock, its fresh token, and how the database ends it. */
  datatype Attempt = Attempt(now: Time, mail: UserTokenId, failure: Option<Failure>)

  datatype Registration = Registered(user: UserId) | AlreadyRegistered

  datatype Confirmation = Verified | InvalidToken | AlreadyUsed | TokenIsExpired | NoSuchEmail

  /** Which answer goes with which rows. */
  predicate AnswersTheLink(db: Db, mail: UserTokenId, now: Time, answer: Confirmation) {
    var isLink := mail in db.userTokens && db.userTokens[mail].kind == EMAIL_VERIFICATION;
    var isLive := isLink && db.userTokens[mail].usedAt.None? && now < db.userTokens[mail].expiresAt;
    && (answer.Verified? <==> MayConfirm(db, mail, now))
    && (answer.AlreadyUsed? <==> isLink && db.userTokens[mail].usedAt.Some?)
    && (answer.TokenIsExpired? <==>
          isLink && db.userTokens[mail].usedAt.None? && db.userTokens[mail].expiresAt <= now)
    && (answer.InvalidToken? <==> !isLink || (isLive && db.userTokens[mail].email.None?))
    && (answer.NoSuchEmail? <==>
          isLive && db.userTokens[mail].email.Some? && db.userTokens[mail].email.value !in db.emails)
  }

  class AuthService {
    const vcfg: VerificationConfig
    const database: Database

    constructor (vcfg: VerificationConfig, database: Database)
      ensures this.vcfg == vcfg && this.database == database
    {
      this.vcfg, this.database := vcfg, database;
    }

    /**
     * An address that is taken by an unusable account trips the unique constraint, with the same answer.
     * None stands for the error that is thrown when the transaction fails for another reason.
     */
    method Register(email: Address, newUser: UserId, hash: PasswordHash, mail: UserTokenId, now: Time, commits: bool)
      returns (outcome: Option<Registration>)
      modifies database
      ensures database.state ==
                if commits then AuthDb.Register(vcfg, old(database.state), email, newUser, hash, mail, now)
                else old(database.state)
      ensures outcome == if email in old(database.state).emails then Some(AlreadyRegistered)
                         else if commits then Some(Registered(newUser)) else None
      ensures if outcome == Some(Registered(newUser))
              then RegistrationWrites(vcfg, old(database.state), database.state, email, newUser, hash, mail, now)
              else database.state == old(database.state)
    {
      var saved := database.state;
      RegistrationRows(vcfg, saved, email, newUser, hash, mail, now);
      if email in saved.emails && saved.emails[email].userId in saved.users
        && IsUsable(saved.users[saved.emails[email].userId]) {
        return Some(AlreadyRegistered);
      }
      database.state := database.state.(users := database.state.users[newUser := NewUser(Some(hash), now)]);
      if email in database.state.emails {
        database.state := saved;
        return Some(AlreadyRegistered);
      }
      database.state := database.state.(
        emails := database.state.emails[email := UserEmail(newUser, true, false, None)]);
      CreateNewToken(newUser, email, mail, now);
      if !commits {
        database.state := saved;
        return None;
      }
      return Some(Registered(newUser));
    }

    method CreateNewToken(user: UserId, email: Address, mail: UserTokenId, now: Time)
      modifies database
      ensures database.state == old(database.state).(
        userTokens := old(database.state).userTokens[mail := NewVerificationToken(vcfg, user, email, now)])
      ensures email in database.state.emails ==>
        forall at :: Confirms(database.state, mail, at) <==> at < now + vcfg.tokenTtlHours * MS_PER_HOUR
      ensures forall at :: at < now + vcfg.cooldownSeconds * MS_PER_SECOND ==>
        IsCooldownActive(vcfg, database.state.userTokens, user, email, at)
      ensures forall o, at :: o != mail ==> (Confirms(database.state, o, at) <==> Confirms(old(database.state), o, at))
    {
      database.state := database.state.(
        userTokens := database.state.userTokens[mail := NewVerificationToken(vcfg, user, email, now)]);
    }

    /** `attempts` are the runs the retry loop would make; only conflicts before the last one are retried. */
    method ResendVerifyEmail(email: Address, attempts: seq<Attempt>) returns (made: nat, sent: bool)
      requires |attempts| >= MAX_RETRIES
      modifies database
      ensures made <= 3
      ensures made == 0 <==> !(email in old(database.state).emails) || old(database.state).emails[email].isVerified
      ensures made > 0 ==>
        && (forall i :: 0 <= i < made - 1 ==> attempts[i].failure == Some(SerializationConflict))
        && (made < MAX_RETRIES ==> attempts[made - 1].failure != Some(SerializationConflict))
      ensures database.state ==
                if made > 0 && attempts[made - 1].failure.None?
                then Resend(vcfg, old(database.state), email, attempts[made - 1].mail, attempts[made - 1].now)
                else old(database.state)
      ensures sent <==>
        made > 0 && attempts[made - 1].failure.None?
        && MayResend(vcfg, old(database.state), email, attempts[made - 1].now)
      ensures if sent
              then ResendWrites(vcfg, old(database.state), database.state, email, attempts[made - 1].mail,
                                attempts[made - 1].now)
              else database.state == old(database.state)
    {
      var saved := database.state;
      made, sent := 0, false;
      if email !in saved.emails || saved.emails[email].isVerified {
        return;
      }
      while made < MAX_RETRIES
        invariant made <= MAX_RETRIES && !sent && database.state == saved
        invariant forall i :: 0 <= i < made ==> attempts[i].failure == Some(SerializationConflict)
      {
        var attempt := attempts[made];
        ResendRows(vcfg, saved, email, attempt.mail, attempt.now);
        CooldownIsRest(vcfg, saved, email, attempt.now);
        sent := ReplaceToken(saved.emails[email].userId, email, attempt.mail, attempt.now);
        made := made + 1;
        if attempt.failure.None? {
          return;
        }
        database.state, sent := saved, false;
        if attempt.failure.value.OtherFailure? {
          return;
        }
      }
    }

    /** The body of the serializable transaction. */
    method ReplaceToken(user: UserId, email: Address, mail: UserTokenId, now: Time) returns (allowed: bool)
      modifies database
      ensures allowed == !IsCooldownActive(vcfg, old(database.state).userTokens, user, email, now)
      ensures database.state ==
                if !allowed then old(database.state)
                else old(database.state).(userTokens :=
                  ExpireAll(old(database.state).userTokens, user, email, now)
                    [mail := NewVerificationToken(vcfg, user, email, now)])
    {
      var rows := database.state.userTokens;
      allowed := !IsCooldownActive(vcfg, rows, user, email, now);
      if !allowed {
        return;
      }
      database.state := database.state.(userTokens := ExpireAll(rows, user, email, now));
      CreateNewToken(user, email, mail, now);
    }

    /**
     * Consuming the link and verifying the address commit together, or not at all and the call fails. A link
     * that does not confirm writes nothing, and is told why.
     */
    method VerifyEmail(mail: UserTokenId, now: Time, commits: bool) returns (outcome: Option<Confirmation>)
      modifies database
      ensures database.state == if commits then AuthDb.VerifyEmail(old(database.state), mail, now)
        else old(database.state)
      ensures outcome == Some(Verified) <==> Confirms(old(database.state), mail, now) && commits
      ensures outcome.None? <==> Confirms(old(database.state), mail, now) && !commits
      ensures outcome.None? <==> MayConfirm(old(database.state), mail, now) && !commits
      ensures outcome.Some? ==> AnswersTheLink(old(database.state), mail, now, outcome.value)
      ensures if MayConfirm(old(database.state), mail, now) && commits
              then ConfirmationWrites(old(database.state), database.state, mail, now)
              else database.state == old(database.state)
    {
      var saved := database.state;
      ConfirmationRows(saved, mail, now);
      if mail !in saved.userTokens || saved.userTokens[mail].kind != EMAIL_VERIFICATION {
        return Some(InvalidToken);
      }
      var row := saved.userTokens[mail];
      if row.usedAt.Some? {
        return Some(AlreadyUsed);
      }
      if row.expiresAt <= now {
        return Some(TokenIsExpired);
      }
      if row.email.None? {
        return Some(InvalidToken);
      }
      database.state := saved.(userTokens := saved.userTokens[mail := row.(usedAt := Some(now))]);
      if row.email.value !in saved.emails {
        database.state := saved;
        return Some(NoSuchEmail);
      }
      var email := saved.emails[row.email.value];
      database.state := database.state.(
        emails := database.state.emails[row.email.value := email.(isVerified := true, verifiedAt := Some(now))]);
      database.state := Log(database.state, EMAIL_VERIFIED, row.userId, None);
      if !commits {
        database.state := saved;
        return None;
      }
      return Some(Verified);
    }
  }
}
