/**
 * A sign-in of IdentityRace whose statements run with nothing else in flight commits exactly what AuthDb
 * says of the whole transaction.
 */
module SignInAlone {
  import opened AuthModel
  import opened AuthDb
  import opened Accounts
  import R = IdentityRace

  /** The tables as IdentityRace sees them, with one call and no uncommitted row. */
  function View(db: Db, c: R.CallId, call: R.Call): R.Machine {
    R.Machine((map e | e in db.emails :: db.emails[e].userId), db.identities, map[], map[],
              (set u | u in db.users && !IsUsable(db.users[u])), db.users.Keys, map[c := call])
  }

  function RequestOf(p: Profile): R.Request {
    R.SignIn(R.Profile(p.identity, p.email, p.emailVerified))
  }

  function OutcomeOf(o: IdentityOutcome): R.Outcome {
    match o
    case Resolved(user, _) => R.Resolved(user)
    case EmailUnverified => R.EmailUnverified
    case AccountUnavailable => R.AccountUnavailable
  }

  function Opening(db: Db, p: Profile, c: R.CallId, pc: R.Pc): R.Machine {
    View(db, c, R.Call(RequestOf(p), pc))
  }

  /** The user that the transaction links to, when it gets that far. */
  function Target(db: Db, p: Profile, newUser: UserId): UserId {
    if p.email in db.emails then db.emails[p.email].userId else newUser
  }

  /** The rows the transaction holds once it has its user, and once it has inserted the identity too. */
  function Holding(db: Db, p: Profile, newUser: UserId, c: R.CallId, linked: bool): R.Machine {
    var u := Target(db, p, newUser);
    var m := Opening(db, p, c, if linked then R.Ready(u) else R.InsertIdentity(u));
    m.(dirtyEmails := if p.email in db.emails then map[] else map[p.email := R.Dirty(c, newUser)],
       users := if p.email in db.emails then m.users else m.users + {newUser},
       dirtyIdentities := if linked then map[p.identity := R.Dirty(c, u)] else map[])
  }

  /** The identity is new and its email good for linking or for a new account. */
  predicate WillLink(db: Db, p: Profile) {
    && p.identity !in db.identities && p.emailVerified
    && (p.email in db.emails ==> db.emails[p.email].userId in db.users && IsUsable(db.users[db.emails[p.email].userId]))
  }

  /** Where a sign-in that runs alone can be, and what then holds. */
  ghost predicate Here(db: Db, p: Profile, newUser: UserId, now: Time, c: R.CallId, m: R.Machine) {
    && c in m.calls
    && match m.calls[c].pc
       case Lookup => m == Opening(db, p, c, R.Lookup)
       case ReadEmail => m == Opening(db, p, c, R.ReadEmail) && p.identity !in db.identities && p.emailVerified
       case InsertEmail => m == Opening(db, p, c, R.InsertEmail) && WillLink(db, p) && p.email !in db.emails
       case InsertIdentity(_) => m == Holding(db, p, newUser, c, false) && WillLink(db, p)
       case Ready(_) => m == Holding(db, p, newUser, c, true) && WillLink(db, p)
       case LookupAgain => false
       case Finished(outcome) =>
         var (db', whole) := ResolveIdentity(db, p, newUser, now);
         outcome == OutcomeOf(whole) && m == Opening(db', p, c, R.Finished(outcome))
  }

  /** Statements left at most. */
  function Distance(pc: R.Pc): nat {
    match pc
    case Lookup => 5
    case ReadEmail => 4
    case InsertEmail => 3
    case InsertIdentity(_) => 2
    case Ready(_) => 1
    case LookupAgain => 1
    case Finished(_) => 0
  }

  /** The next statement does not wait, and brings the call closer to its end. */
  ghost predicate Leads(db: Db, p: Profile, newUser: UserId, now: Time, c: R.CallId, m: R.Machine)
    requires c in m.calls
  {
    var next := R.Execute(m, c, newUser);
    next.Some? && Here(db, p, newUser, now, c, next.value) && Distance(next.value.calls[c].pc) < Distance(m.calls[c].pc)
  }

  lemma LookupMisses(db: Db, p: Profile, newUser: UserId, now: Time, c: R.CallId)
    requires p.identity !in db.identities
    ensures Leads(db, p, newUser, now, c, Opening(db, p, c, R.Lookup))
  {
  }

  lemma LookupFinds(db: Db, p: Profile, newUser: UserId, now: Time, c: R.CallId)
    requires AccountsOk(db) && p.identity in db.identities
    ensures Leads(db, p, newUser, now, c, Opening(db, p, c, R.Lookup))
  {
  }

  lemma LookupLeads(db: Db, p: Profile, newUser: UserId, now: Time, c: R.CallId)
    requires AccountsOk(db)
    ensures Leads(db, p, newUser, now, c, Opening(db, p, c, R.Lookup))
  {
    if p.identity in db.identities {
      LookupFinds(db, p, newUser, now, c);
    } else {
      LookupMisses(db, p, newUser, now, c);
    }
  }

  /** Owners, and which users are usable. */
  ghost predicate SameAccess(a: Db, b: Db) {
    && b.users.Keys == a.users.Keys && (forall u :: u in a.users ==> (IsUsable(b.users[u]) <==> IsUsable(a.users[u])))
    && b.emails.Keys == a.emails.Keys && (forall e :: e in a.emails ==> b.emails[e].userId == a.emails[e].userId)
  }

  lemma RevocationKeepsAccess(db: Db, w: Where, reason: RevocationReason, now: Time)
    ensures var db' := RevokeSessions(db, w, reason, now);
      db'.users == db.users && db'.emails == db.emails && db'.identities == db.identities
  {
  }

  lemma TakeOverKeepsAccess(db: Db, email: Address, now: Time)
    requires email in db.emails && db.emails[email].userId in db.users
    ensures TakeOver(db, email, now).identities == db.identities && SameAccess(db, TakeOver(db, email, now))
  {
    var user := db.emails[email].userId;
    var verified := db.(
      emails := db.emails[email := db.emails[email].(isVerified := true, verifiedAt := Some(now))],
      userTokens := ExpireUnused(db.userTokens, user, now));
    var stripped := if db.users[user].passwordHash.Some? then SetCredential(verified, user, None, now) else verified;
    RevocationKeepsAccess(stripped, ByUser(user), SECURITY, now);
  }

  lemma LinkKeepsAccess(db: Db, p: Profile, now: Time)
    requires p.email in db.emails && db.emails[p.email].userId in db.users
    ensures var db' := LinkToExistingUser(db, p, now);
      db'.identities == db.identities[p.identity := db.emails[p.email].userId] && SameAccess(db, db')
  {
    TakeOverKeepsAccess(db.(identities := db.identities[p.identity := db.emails[p.email].userId]), p.email, now);
  }

  /** Linking leaves the owner's account, and so the view of it, as usable as it was. */
  lemma LinkedView(db: Db, p: Profile, now: Time, c: R.CallId, call: R.Call)
    requires p.email in db.emails && db.emails[p.email].userId in db.users
    ensures View(LinkToExistingUser(db, p, now), c, call)
              == View(db, c, call).(identities := db.identities[p.identity := db.emails[p.email].userId])
  {
    LinkKeepsAccess(db, p, now);
    var a, b := View(LinkToExistingUser(db, p, now), c, call), View(db, c, call);
    assert a.emails == b.emails;
    assert a.unusable == b.unusable;
    assert a.users == b.users;
  }

  lemma CreatedView(db: Db, p: Profile, newUser: UserId, now: Time, c: R.CallId, call: R.Call)
    requires newUser !in db.users
    ensures View(CreateExternalUser(db, p, newUser, now), c, call)
              == View(db, c, call).(emails := View(db, c, call).emails[p.email := newUser],
                                    identities := db.identities[p.identity := newUser],
                                      users := db.users.Keys + {newUser})
  {
    var a, b := View(CreateExternalUser(db, p, newUser, now), c, call), View(db, c, call);
    assert a.emails == b.emails[p.email := newUser];
    assert a.unusable == b.unusable;
    assert a.users == b.users + {newUser};
  }

  /** The email has no account yet, or its account is out of use. */
  lemma ReadEnds(db: Db, p: Profile, newUser: UserId, now: Time, c: R.CallId)
    requires AccountsOk(db) && p.identity !in db.identities && p.emailVerified
    requires (p.email !in db.emails || !WillLink(db, p))
    ensures Leads(db, p, newUser, now, c, Opening(db, p, c, R.ReadEmail))
  {
  }

  lemma ReadLinks(db: Db, p: Profile, newUser: UserId, c: R.CallId)
    requires AccountsOk(db) && WillLink(db, p) && p.email in db.emails
    ensures var next := R.Execute(Opening(db, p, c, R.ReadEmail), c, newUser);
      next.Some? && next.value == Holding(db, p, newUser, c, false)
  {
  }

  lemma InsertEmailLeads(db: Db, p: Profile, newUser: UserId, now: Time, c: R.CallId)
    requires AccountsOk(db) && newUser !in db.users && WillLink(db, p) && p.email !in db.emails
    ensures Leads(db, p, newUser, now, c, Opening(db, p, c, R.InsertEmail))
  {
  }

  lemma InsertIdentityStep(db: Db, p: Profile, newUser: UserId, c: R.CallId)
    requires WillLink(db, p)
    ensures R.Execute(Holding(db, p, newUser, c, false), c, newUser) == Some(Holding(db, p, newUser, c, true))
  {
    var m, m' := Holding(db, p, newUser, c, false), Holding(db, p, newUser, c, true);
    assert m.calls[c := R.Call(RequestOf(p), R.Ready(Target(db, p, newUser)))] == m'.calls;
  }

  lemma InsertIdentityLeads(db: Db, p: Profile, newUser: UserId, now: Time, c: R.CallId)
    requires AccountsOk(db) && newUser !in db.users && WillLink(db, p)
    ensures Leads(db, p, newUser, now, c, Holding(db, p, newUser, c, false))
  {
    InsertIdentityStep(db, p, newUser, c);
  }

  /** What the commit does to the rows held. */
  lemma CommitOf(db: Db, p: Profile, newUser: UserId, c: R.CallId)
    requires WillLink(db, p)
    ensures var m := Holding(db, p, newUser, c, true); var u := Target(db, p, newUser); var done := R.CommitRows(m, c);
      && done.emails == (if p.email in db.emails then m.emails else m.emails[p.email := newUser])
      && done.identities == m.identities[p.identity := u]
      && done.dirtyEmails == map[] && done.dirtyIdentities == map[]
  {
    var m := Holding(db, p, newUser, c, true);
    CommitEmails(db, p, newUser, c);
    assert R.CommitRows(m, c).identities == m.identities[p.identity := Target(db, p, newUser)];
    assert R.CommitRows(m, c).dirtyIdentities == map[];
  }

  lemma CommitEmails(db: Db, p: Profile, newUser: UserId, c: R.CallId)
    requires WillLink(db, p)
    ensures var m := Holding(db, p, newUser, c, true); var done := R.CommitRows(m, c);
      && done.emails == (if p.email in db.emails then m.emails else m.emails[p.email := newUser])
      && done.dirtyEmails == map[]
  {
  }

  lemma CommitLinks(db: Db, p: Profile, newUser: UserId, now: Time, c: R.CallId)
    requires AccountsOk(db) && WillLink(db, p) && p.email in db.emails
    ensures R.Execute(Holding(db, p, newUser, c, true), c, newUser)
              == Some(Opening(LinkToExistingUser(db, p, now), p, c, R.Finished(R.Resolved(db.emails[p.email].userId))))
  {
    var call := R.Call(RequestOf(p), R.Finished(R.Resolved(db.emails[p.email].userId)));
    CommitOf(db, p, newUser, c);
    LinkedView(db, p, now, c, call);
    var e := R.Execute(Holding(db, p, newUser, c, true), c, newUser).value;
    assert e.calls == map[c := call];
  }

  lemma CommitCreates(db: Db, p: Profile, newUser: UserId, now: Time, c: R.CallId)
    requires newUser !in db.users && WillLink(db, p) && p.email !in db.emails
    ensures R.Execute(Holding(db, p, newUser, c, true), c, newUser)
              == Some(Opening(CreateExternalUser(db, p, newUser, now), p, c, R.Finished(R.Resolved(newUser))))
  {
    var call := R.Call(RequestOf(p), R.Finished(R.Resolved(newUser)));
    CommitOf(db, p, newUser, c);
    CreatedView(db, p, newUser, now, c, call);
    var e := R.Execute(Holding(db, p, newUser, c, true), c, newUser).value;
    assert e.calls == map[c := call];
  }

  lemma CommitLeads(db: Db, p: Profile, newUser: UserId, now: Time, c: R.CallId)
    requires AccountsOk(db) && newUser !in db.users && WillLink(db, p)
    ensures Leads(db, p, newUser, now, c, Holding(db, p, newUser, c, true))
  {
    if p.email in db.emails {
      CommitLinks(db, p, newUser, now, c);
    } else {
      CommitCreates(db, p, newUser, now, c);
    }
  }

  /** Running alone, a sign-in never waits, and each statement brings it closer to its end. */
  lemma StatementLeads(db: Db, p: Profile, newUser: UserId, now: Time, c: R.CallId, m: R.Machine)
    requires AccountsOk(db) && newUser !in db.users && Here(db, p, newUser, now, c, m) && !m.calls[c].pc.Finished?
    ensures Leads(db, p, newUser, now, c, m)
  {
    match m.calls[c].pc
    case Lookup => LookupLeads(db, p, newUser, now, c);
    case ReadEmail =>
      if WillLink(db, p) && p.email in db.emails {
        ReadLinks(db, p, newUser, c);
      } else {
        ReadEnds(db, p, newUser, now, c);
      }
    case InsertEmail => InsertEmailLeads(db, p, newUser, now, c);
    case InsertIdentity(_) => InsertIdentityLeads(db, p, newUser, now, c);
    case Ready(_) => CommitLeads(db, p, newUser, now, c);
  }

  /** The call at its end, when its statements run one after the other. */
  function RunAlone(m: R.Machine, c: R.CallId, newUser: UserId, most: nat): R.Machine
    requires c in m.calls
    decreases most
  {
    var next := R.Execute(m, c, newUser);
    if most == 0 || next.None? || c !in next.value.calls then m else RunAlone(next.value, c, newUser, most - 1)
  }

  lemma {:induction false} AloneToTheEnd(
      db: Db, p: Profile, newUser: UserId, now: Time, c: R.CallId, m: R.Machine, most: nat)
    requires AccountsOk(db) && newUser !in db.users && Here(db, p, newUser, now, c, m)
    requires Distance(m.calls[c].pc) <= most
    ensures var (db', whole) := ResolveIdentity(db, p, newUser, now);
      RunAlone(m, c, newUser, most) == Opening(db', p, c, R.Finished(OutcomeOf(whole)))
    decreases most
  {
    if !m.calls[c].pc.Finished? {
      StatementLeads(db, p, newUser, now, c, m);
      AloneToTheEnd(db, p, newUser, now, c, R.Execute(m, c, newUser).value, most - 1);
    }
  }

  /** Alone, at most five statements commit the tables and return the outcome of the whole transaction. */
  lemma LoneSignInIsWhole(db: Db, p: Profile, newUser: UserId, now: Time, c: R.CallId)
    requires AccountsOk(db) && newUser !in db.users
    ensures var (db', whole) := ResolveIdentity(db, p, newUser, now);
      RunAlone(Opening(db, p, c, R.Lookup), c, newUser, 5) == Opening(db', p, c, R.Finished(OutcomeOf(whole)))
  {
    AloneToTheEnd(db, p, newUser, now, c, Opening(db, p, c, R.Lookup), 5);
  }
}
