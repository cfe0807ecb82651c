/**
 * resolveExternalIdentity under Read Committed: the lookup, the link-or-create transaction with
 * its two unique indexes, and the second lookup after a lost race.
 *
 * An insert of a unique key that another transaction holds uncommitted waits for it; when that
 * transaction commits, or the key was committed already, the insert fails, its transaction rolls
 * back, and the call looks the identity up again.
 */
module IdentityRace {
  import opened AuthModel

  type CallId = nat
  type ExternalId = nat   // a (provider, providerUserId) pair
  type Address = nat      // a normalised email address

  datatype Profile = Profile(identity: ExternalId, email: Address, emailVerified: bool)

  datatype Request =
    | SignIn(profile: Profile)
    | Register(email: Address)   // another writer of the same unique email index

  datatype Outcome =
    | Resolved(user: UserId)
    | Registered
    | EmailUnverified
    | AccountUnavailable
    | UniqueViolation
    | Failed                     // the transaction was rolled back for any other reason

  datatype Pc =
    | Lookup
    | ReadEmail
    | InsertEmail
    | InsertIdentity(user: UserId)
    | Ready(user: UserId)
    | LookupAgain
    | Finished(outcome: Outcome)

  datatype Call = Call(request: Request, pc: Pc)

  datatype Dirty = Dirty(owner: CallId, user: UserId)

  datatype Machine = Machine(
    emails: map<Address, UserId>,           // committed
    identities: map<ExternalId, UserId>,    // committed
    dirtyEmails: map<Address, Dirty>,
    dirtyIdentities: map<ExternalId, Dirty>,
    unusable: set<UserId>,                  // suspended, deactivated or deleted accounts
    users: set<UserId>,                     // ids taken so far
    calls: map<CallId, Call>)

  function FindLinkedUser(m: Machine, id: ExternalId, otherwise: Pc): Pc {
    if id !in m.identities then otherwise
    else if m.identities[id] in m.unusable then Finished(AccountUnavailable)
    else Finished(Resolved(m.identities[id]))
  }

  function Put(m: Machine, c: CallId, pc: Pc): Machine
    requires c in m.calls
  {
    m.(calls := m.calls[c := m.calls[c].(pc := pc)])
  }

  function Release(m: Machine, c: CallId): Machine {
    m.(dirtyEmails := m.dirtyEmails - (set e | e in m.dirtyEmails && m.dirtyEmails[e].owner == c),
       dirtyIdentities := m.dirtyIdentities - (set i | i in m.dirtyIdentities && m.dirtyIdentities[i].owner == c))
  }

  function CommitRows(m: Machine, c: CallId): Machine {
    Release(m, c).(
      emails := m.emails + map e | e in m.dirtyEmails && m.dirtyEmails[e].owner == c :: m.dirtyEmails[e].user,
      identities := m.identities
                      + map i | i in m.dirtyIdentities && m.dirtyIdentities[i].owner == c :: m.dirtyIdentities[i].user)
  }

  predicate EmailLocked(m: Machine, c: CallId, e: Address) {
    e in m.dirtyEmails && m.dirtyEmails[e].owner != c
  }

  predicate IdentityLocked(m: Machine, c: CallId, i: ExternalId) {
    i in m.dirtyIdentities && m.dirtyIdentities[i].owner != c
  }

  function EmailOf(r: Request): Address {
    match r
    case SignIn(profile) => profile.email
    case Register(email) => email
  }

  /** After a unique violation the transaction is gone: a sign-in looks again, a registration gives up. */
  function LoseRace(m: Machine, c: CallId): Machine
    requires c in m.calls
  {
    Put(Release(m, c), c, if m.calls[c].request.SignIn? then LookupAgain else Finished(UniqueViolation))
  }

  /** The next statement of call `c`, or None when it has to wait. `newUser` is the id of a new user. */
  function Execute(m: Machine, c: CallId, newUser: UserId): Option<Machine>
    requires c in m.calls
  {
    var r := m.calls[c].request;
    match m.calls[c].pc
    case Lookup =>
      if r.Register? then Some(Put(m, c, InsertEmail))
      else Some(Put(m, c, FindLinkedUser(m, r.profile.identity,
                                         if r.profile.emailVerified then ReadEmail else Finished(EmailUnverified))))
    case ReadEmail =>
      if EmailOf(r) !in m.emails then Some(Put(m, c, InsertEmail))
      else if m.emails[EmailOf(r)] in m.unusable then Some(Put(m, c, Finished(AccountUnavailable)))
      else Some(Put(m, c, InsertIdentity(m.emails[EmailOf(r)])))
    case InsertEmail =>
      if EmailOf(r) in m.emails then Some(LoseRace(m, c))
      else if EmailLocked(m, c, EmailOf(r)) || newUser in m.users then None
      else Some(Put(m, c, if r.SignIn? then InsertIdentity(newUser) else Ready(newUser)).(
                  dirtyEmails := m.dirtyEmails[EmailOf(r) := Dirty(c, newUser)], users := m.users + {newUser}))
    case InsertIdentity(u) =>
      if r.Register? then None
      else if r.profile.identity in m.identities then Some(LoseRace(m, c))
      else if IdentityLocked(m, c, r.profile.identity) then None
      else Some(Put(m, c, Ready(u)).(dirtyIdentities := m.dirtyIdentities[r.profile.identity := Dirty(c, u)]))
    case Ready(u) => Some(Put(CommitRows(m, c), c, Finished(if r.SignIn? then Resolved(u) else Registered)))
    case LookupAgain =>
      if r.Register? then None
      else Some(Put(m, c, FindLinkedUser(m, r.profile.identity, Finished(UniqueViolation))))
    case Finished(_) => None
  }

  datatype Label =
    | Arrive(c: CallId, request: Request)
    | Run(c: CallId, newUser: UserId)
    | Fail(c: CallId)
    | SetUnusable(users: set<UserId>)

  ghost predicate Moves(m: Machine, l: Label, m': Machine) {
    match l
    case Arrive(c, r) => c !in m.calls && m' == m.(calls := m.calls[c := Call(r, Lookup)])
    case Run(c, newUser) => c in m.calls && Execute(m, c, newUser) == Some(m')
    case Fail(c) => c in m.calls && !m.calls[c].pc.Finished? && m' == Put(Release(m, c), c, Finished(Failed))
    case SetUnusable(users) => m' == m.(unusable := users)
  }

  ghost predicate Next(m: Machine, m': Machine) {
    exists l :: Moves(m, l, m')
  }

  ghost predicate Quiet(m: Machine) {
    m.calls == map[] && m.dirtyEmails == map[] && m.dirtyIdentities == map[]
  }

  ghost predicate IsRun(run: seq<Machine>) {
    |run| > 0 && Quiet(run[0]) && forall i :: 0 <= i < |run| - 1 ==> Next(run[i], run[i + 1])
  }

  // ----- identity resolution is a stable function -----

  predicate CallOk(m: Machine, c: CallId, call: Call) {
    match call.pc
    case Finished(Resolved(u)) =>
      call.request.SignIn? && call.request.profile.identity in m.identities
      && m.identities[call.request.profile.identity] == u
    case Ready(u) =>
      call.request.SignIn? ==>
        var i := call.request.profile.identity;
        i in m.dirtyIdentities && m.dirtyIdentities[i] == Dirty(c, u)
    case _ => true
  }

  /** A dirty identity belongs to a call that is about to commit, and its key is not taken. */
  predicate DirtyIdentityOk(m: Machine, i: ExternalId)
    requires i in m.dirtyIdentities
  {
    var c := m.dirtyIdentities[i].owner;
    i !in m.identities && c in m.calls && m.calls[c].pc.Ready? && m.calls[c].request.SignIn?
    && m.calls[c].request.profile.identity == i
  }

  ghost predicate Inv(m: Machine) {
    && (forall c :: c in m.calls ==> CallOk(m, c, m.calls[c]))
    && (forall i :: i in m.dirtyIdentities ==> DirtyIdentityOk(m, i))
  }

  /** Committed identities never change. */
  ghost predicate Keeps(m: Machine, m': Machine) {
    forall i :: i in m.identities ==> i in m'.identities && m'.identities[i] == m.identities[i]
  }

  lemma CommitKeepsInv(m: Machine, c: CallId, m': Machine)
    requires Inv(m) && c in m.calls && m.calls[c].pc.Ready? && Execute(m, c, 0) == Some(m')
    ensures Inv(m') && Keeps(m, m')
  {
    forall o | o in m'.calls ensures CallOk(m', o, m'.calls[o]) {
      assert CallOk(m, o, m.calls[o]) && CallOk(m, c, m.calls[c]);
    }
    forall i | i in m'.dirtyIdentities ensures DirtyIdentityOk(m', i) {
      assert DirtyIdentityOk(m, i);
    }
  }

  lemma InsertIdentityKeepsInv(m: Machine, c: CallId, m': Machine)
    requires Inv(m) && c in m.calls && m.calls[c].pc.InsertIdentity? && Execute(m, c, 0) == Some(m')
    requires m.calls[c].request.SignIn? && m.calls[c].request.profile.identity !in m.identities
    ensures Inv(m') && m'.identities == m.identities
  {
    forall i | i in m'.dirtyIdentities ensures DirtyIdentityOk(m', i) {
      assert i in m.dirtyIdentities ==> DirtyIdentityOk(m, i);
    }
    forall o | o in m'.calls ensures CallOk(m', o, m'.calls[o]) {
      assert CallOk(m, o, m.calls[o]);
    }
  }

  /** Rolling `c` back, to whatever it does next, touches no other call. */
  lemma ReleaseKeepsInv(m: Machine, c: CallId, pc: Pc)
    requires Inv(m) && c in m.calls && !pc.Ready? && !(pc.Finished? && pc.outcome.Resolved?)
    ensures Inv(Put(Release(m, c), c, pc))
  {
    var m' := Put(Release(m, c), c, pc);
    forall i | i in m'.dirtyIdentities ensures DirtyIdentityOk(m', i) {
      assert DirtyIdentityOk(m, i);
    }
    forall o | o in m'.calls ensures CallOk(m', o, m'.calls[o]) {
      assert CallOk(m, o, m.calls[o]);
    }
  }

  /** A statement that leaves the identity rows alone. */
  lemma LocalKeepsInv(m: Machine, c: CallId, pc: Pc, m': Machine)
    requires Inv(m) && c in m.calls && !m.calls[c].pc.Ready?
    requires m'.calls == m.calls[c := m.calls[c].(pc := pc)]
    requires m'.identities == m.identities && m'.dirtyIdentities == m.dirtyIdentities
    requires CallOk(m, c, m'.calls[c])
    ensures Inv(m')
  {
    forall i | i in m'.dirtyIdentities ensures DirtyIdentityOk(m', i) {
      assert DirtyIdentityOk(m, i);
    }
    forall o | o in m'.calls ensures CallOk(m', o, m'.calls[o]) {
      assert CallOk(m, o, m.calls[o]);
    }
  }

  lemma ReadKeepsInv(m: Machine, c: CallId, newUser: UserId, m': Machine)
    requires Inv(m) && c in m.calls && Execute(m, c, newUser) == Some(m')
    requires m.calls[c].pc.Lookup? || m.calls[c].pc.ReadEmail? || m.calls[c].pc.LookupAgain?
    ensures Inv(m') && m'.identities == m.identities
  {
    if m.calls[c].pc.ReadEmail? {
      ReadEmailFinds(m, c, newUser, m');
    } else {
      LookupFinds(m, c, newUser, m');
    }
    LocalKeepsInv(m, c, m'.calls[c].pc, m');
  }

  lemma LookupFinds(m: Machine, c: CallId, newUser: UserId, m': Machine)
    requires c in m.calls && Execute(m, c, newUser) == Some(m')
    requires m.calls[c].pc.Lookup? || m.calls[c].pc.LookupAgain?
    ensures c in m'.calls && m' == Put(m, c, m'.calls[c].pc) && CallOk(m, c, m'.calls[c])
  {
  }

  lemma ReadEmailFinds(m: Machine, c: CallId, newUser: UserId, m': Machine)
    requires c in m.calls && Execute(m, c, newUser) == Some(m') && m.calls[c].pc.ReadEmail?
    ensures c in m'.calls && m' == Put(m, c, m'.calls[c].pc) && CallOk(m, c, m'.calls[c])
  {
  }

  lemma InsertEmailKeepsInv(m: Machine, c: CallId, newUser: UserId, m': Machine)
    requires Inv(m) && c in m.calls && Execute(m, c, newUser) == Some(m') && m.calls[c].pc.InsertEmail?
    ensures Inv(m') && m'.identities == m.identities
  {
    if EmailOf(m.calls[c].request) in m.emails {
      ReleaseKeepsInv(m, c, m'.calls[c].pc);
    } else {
      LocalKeepsInv(m, c, m'.calls[c].pc, m');
    }
  }

  lemma StatementKeepsInv(m: Machine, c: CallId, newUser: UserId, m': Machine)
    requires Inv(m) && c in m.calls && !m.calls[c].pc.Ready? && Execute(m, c, newUser) == Some(m')
    ensures Inv(m') && m'.identities == m.identities
  {
    match m.calls[c].pc
    case InsertEmail => InsertEmailKeepsInv(m, c, newUser, m');
    case InsertIdentity(_) =>
      if m.calls[c].request.profile.identity in m.identities {
        ReleaseKeepsInv(m, c, m'.calls[c].pc);
      } else {
        InsertIdentityKeepsInv(m, c, m');
      }
    case _ => ReadKeepsInv(m, c, newUser, m');
  }

  lemma EnvironmentKeepsInv(m: Machine, l: Label, m': Machine)
    requires Inv(m) && Moves(m, l, m') && (l.Arrive? || l.SetUnusable?)
    ensures Inv(m') && Keeps(m, m')
  {
    assert forall i :: i in m.dirtyIdentities ==> DirtyIdentityOk(m, i);
    assert forall c :: c in m.calls ==> CallOk(m, c, m.calls[c]);
  }

  lemma NextKeepsInv(m: Machine, m': Machine)
    requires Inv(m) && Next(m, m')
    ensures Inv(m') && Keeps(m, m')
  {
    var l :| Moves(m, l, m');
    match l
    case Run(c, newUser) =>
      if m.calls[c].pc.Ready? {
        CommitKeepsInv(m, c, m');
      } else {
        StatementKeepsInv(m, c, newUser, m');
      }
    case Fail(c) => ReleaseKeepsInv(m, c, Finished(Failed));
    case _ => EnvironmentKeepsInv(m, l, m');
  }

  lemma {:induction false} RunKeepsInv(run: seq<Machine>, i: nat)
    requires IsRun(run) && i < |run|
    ensures Inv(run[i])
  {
    if i > 0 {
      RunKeepsInv(run, i - 1);
      assert Next(run[i - 1], run[i - 1 + 1]);
      NextKeepsInv(run[i - 1], run[i]);
    }
  }

  lemma {:induction false} IdentitiesAreKept(run: seq<Machine>, i: nat, j: nat)
    requires IsRun(run) && i <= j < |run|
    ensures Keeps(run[i], run[j])
    decreases j
  {
    if i < j {
      IdentitiesAreKept(run, i, j - 1);
      RunKeepsInv(run, j - 1);
      assert Next(run[j - 1], run[j - 1 + 1]);
      NextKeepsInv(run[j - 1], run[j]);
    }
  }

  predicate ReturnedFor(m: Machine, c: CallId, id: ExternalId, user: UserId) {
    c in m.calls && m.calls[c].request.SignIn? && m.calls[c].request.profile.identity == id
    && m.calls[c].pc == Finished(Resolved(user))
  }

  /**
   * Identity resolution is a stable function: whatever else runs, and whatever emails the calls
   * carry, all calls that return for one (provider, providerUserId) return the same user, at
   * whatever times they return.
   */
  lemma ResolutionIsAFunction(
      run: seq<Machine>, i: nat, j: nat, c: CallId, d: CallId, id: ExternalId, u: UserId, v: UserId)
    requires IsRun(run) && i < |run| && j < |run|
    requires ReturnedFor(run[i], c, id, u) && ReturnedFor(run[j], d, id, v)
    ensures u == v
  {
    RunKeepsInv(run, i);
    RunKeepsInv(run, j);
    assert CallOk(run[i], c, run[i].calls[c]) && CallOk(run[j], d, run[j].calls[d]);
    if i <= j {
      IdentitiesAreKept(run, i, j);
    } else {
      IdentitiesAreKept(run, j, i);
    }
  }

  // ----- first sign-ins of one identity never surface a unique violation -----

  /** The steps of the race: sign-ins with one profile, nobody else writing; calls may fail. */
  predicate RaceLabel(p: Profile, l: Label) {
    match l
    case Arrive(_, request) => request == SignIn(p)
    case SetUnusable(_) => false
    case _ => true
  }

  ghost predicate RaceNext(p: Profile, m: Machine, m': Machine) {
    exists l :: Moves(m, l, m') && RaceLabel(p, l)
  }

  /** The email is the provider's word, and the account that holds it, if any, is usable. */
  ghost predicate RaceStart(p: Profile, m: Machine) {
    && Quiet(m) && p.emailVerified && m.unusable <= m.users && p.identity !in m.identities
    && (p.email in m.emails ==> m.emails[p.email] !in m.unusable)
  }

  ghost predicate RaceRun(p: Profile, run: seq<Machine>) {
    |run| > 0 && RaceStart(p, run[0]) && forall i :: 0 <= i < |run| - 1 ==> RaceNext(p, run[i], run[i + 1])
  }

  predicate Usable(m: Machine, u: UserId) {
    u !in m.unusable
  }

  predicate RaceCall(p: Profile, m0: Machine, m: Machine, call: Call) {
    && call.request == SignIn(p)
    && match call.pc
       case InsertEmail => p.email !in m0.emails
       case InsertIdentity(u) => Usable(m, u)
       case Ready(u) => Usable(m, u)
       case LookupAgain => p.identity in m.identities
       case Finished(outcome) => outcome.Resolved? || outcome.Failed?
       case _ => true
  }

  /** A dirty email belongs to a sign-in whose transaction is still open. */
  predicate DirtyEmailOk(p: Profile, m: Machine, e: Address)
    requires e in m.dirtyEmails
  {
    var c := m.dirtyEmails[e].owner;
    e == p.email && c in m.calls && (m.calls[c].pc.InsertIdentity? || m.calls[c].pc.Ready?)
    && Usable(m, m.dirtyEmails[e].user)
  }

  ghost predicate RaceTables(p: Profile, m0: Machine, m: Machine) {
    && m.unusable == m0.unusable && m0.unusable <= m0.users <= m.users
    && (p.email in m.emails ==> Usable(m, m.emails[p.email]))
    && (p.email in m.emails && p.email !in m0.emails ==> p.identity in m.identities)
    && (p.identity in m.identities ==> Usable(m, m.identities[p.identity]))
  }

  ghost predicate RaceInv(p: Profile, m0: Machine, m: Machine) {
    && RaceTables(p, m0, m)
    && (forall c :: c in m.calls ==> RaceCall(p, m0, m, m.calls[c]))
    && (forall e :: e in m.dirtyEmails ==> DirtyEmailOk(p, m, e))
  }

  lemma RaceCommit(p: Profile, m0: Machine, m: Machine, c: CallId, m': Machine)
    requires Inv(m) && RaceInv(p, m0, m) && c in m.calls && m.calls[c].pc.Ready? && Execute(m, c, 0) == Some(m')
    ensures RaceInv(p, m0, m')
  {
    assert CallOk(m, c, m.calls[c]) && RaceCall(p, m0, m, m.calls[c]);
    assert p.email in m.dirtyEmails ==> DirtyEmailOk(p, m, p.email);
    forall o | o in m'.calls ensures RaceCall(p, m0, m', m'.calls[o]) {
      assert RaceCall(p, m0, m, m.calls[o]);
    }
    forall e | e in m'.dirtyEmails ensures DirtyEmailOk(p, m', e) {
      assert DirtyEmailOk(p, m, e);
    }
  }

  lemma RaceRollback(p: Profile, m0: Machine, m: Machine, c: CallId, pc: Pc)
    requires RaceInv(p, m0, m) && c in m.calls
    requires pc == Finished(Failed) || (pc == LookupAgain && p.identity in m.identities)
    ensures RaceInv(p, m0, Put(Release(m, c), c, pc))
  {
    var m' := Put(Release(m, c), c, pc);
    forall o | o in m'.calls ensures RaceCall(p, m0, m', m'.calls[o]) {
      assert RaceCall(p, m0, m, m.calls[o]);
    }
    forall e | e in m'.dirtyEmails ensures DirtyEmailOk(p, m', e) {
      assert DirtyEmailOk(p, m, e);
    }
  }

  /** A statement of `c` that writes at most the email of the profile, for a new user. */
  lemma RaceLocal(p: Profile, m0: Machine, m: Machine, c: CallId, pc: Pc, m': Machine)
    requires RaceInv(p, m0, m) && c in m.calls
    requires m.calls[c].pc.InsertIdentity? ==> pc.Ready?
    requires !m.calls[c].pc.Ready?
    requires m'.calls == m.calls[c := m.calls[c].(pc := pc)]
    requires m'.emails == m.emails && m'.identities == m.identities && m'.unusable == m.unusable && m.users <= m'.users
    requires m'.dirtyEmails == m.dirtyEmails
      || (pc.InsertIdentity? && Usable(m, pc.user) && m'.dirtyEmails == m.dirtyEmails[p.email := Dirty(c, pc.user)])
    requires RaceCall(p, m0, m', m'.calls[c])
    ensures RaceInv(p, m0, m')
  {
    forall o | o in m'.calls ensures RaceCall(p, m0, m', m'.calls[o]) {
      assert RaceCall(p, m0, m, m.calls[o]);
    }
    forall e | e in m'.dirtyEmails ensures DirtyEmailOk(p, m', e) {
      assert e in m.dirtyEmails ==> DirtyEmailOk(p, m, e);
    }
  }

  lemma RaceReads(p: Profile, m0: Machine, m: Machine, c: CallId, newUser: UserId, m': Machine)
    requires RaceInv(p, m0, m) && p.emailVerified && c in m.calls && Execute(m, c, newUser) == Some(m')
    requires m.calls[c].pc.Lookup? || m.calls[c].pc.ReadEmail? || m.calls[c].pc.LookupAgain?
    requires forall e :: e in m0.emails ==> e in m.emails
    ensures RaceInv(p, m0, m')
  {
    assert RaceCall(p, m0, m, m.calls[c]);
    RaceLocal(p, m0, m, c, m'.calls[c].pc, m');
  }

  lemma RaceInserts(p: Profile, m0: Machine, m: Machine, c: CallId, newUser: UserId, m': Machine)
    requires RaceInv(p, m0, m) && c in m.calls && Execute(m, c, newUser) == Some(m')
    requires m.calls[c].pc.InsertEmail? || m.calls[c].pc.InsertIdentity?
    ensures RaceInv(p, m0, m')
  {
    assert RaceCall(p, m0, m, m.calls[c]);
    if m'.calls[c].pc.LookupAgain? {
      RaceRollback(p, m0, m, c, LookupAgain);
    } else {
      RaceLocal(p, m0, m, c, m'.calls[c].pc, m');
    }
  }

  lemma RaceStep(p: Profile, m0: Machine, m: Machine, m': Machine)
    requires Inv(m) && RaceInv(p, m0, m) && p.emailVerified && RaceNext(p, m, m')
    requires forall e :: e in m0.emails ==> e in m.emails
    ensures RaceInv(p, m0, m') && Inv(m') && forall e :: e in m0.emails ==> e in m'.emails
  {
    assert Next(m, m');
    NextKeepsInv(m, m');
    EmailsAreKept(m, m');
    var l :| Moves(m, l, m') && RaceLabel(p, l);
    match l
    case Run(c, newUser) =>
      match m.calls[c].pc {
        case Ready(_) => RaceCommit(p, m0, m, c, m');
        case InsertEmail => RaceInserts(p, m0, m, c, newUser, m');
        case InsertIdentity(_) => RaceInserts(p, m0, m, c, newUser, m');
        case _ => RaceReads(p, m0, m, c, newUser, m');
      }
    case Fail(c) => RaceRollback(p, m0, m, c, Finished(Failed));
    case Arrive(c, _) => RaceArrival(p, m0, m, l, m');
  }

  lemma RaceArrival(p: Profile, m0: Machine, m: Machine, l: Label, m': Machine)
    requires RaceInv(p, m0, m) && Moves(m, l, m') && l.Arrive? && l.request == SignIn(p)
    ensures RaceInv(p, m0, m')
  {
    forall o | o in m'.calls ensures RaceCall(p, m0, m', m'.calls[o]) {
      assert o in m.calls ==> RaceCall(p, m0, m, m.calls[o]);
    }
    forall e | e in m'.dirtyEmails ensures DirtyEmailOk(p, m', e) {
      assert DirtyEmailOk(p, m, e);
    }
  }

  lemma StatementKeepsEmails(m: Machine, c: CallId, newUser: UserId, m': Machine)
    requires c in m.calls && Execute(m, c, newUser) == Some(m')
    ensures forall e :: e in m.emails ==> e in m'.emails
  {
  }

  lemma EmailsAreKept(m: Machine, m': Machine)
    requires Next(m, m')
    ensures forall e :: e in m.emails ==> e in m'.emails
  {
    var l :| Moves(m, l, m');
    if l.Run? {
      StatementKeepsEmails(m, l.c, l.newUser, m');
    }
  }

  lemma {:induction false} RaceRunHolds(p: Profile, run: seq<Machine>, i: nat)
    requires RaceRun(p, run) && i < |run|
    ensures RaceInv(p, run[0], run[i]) && Inv(run[i]) && forall e :: e in run[0].emails ==> e in run[i].emails
  {
    if i > 0 {
      RaceRunHolds(p, run, i - 1);
      assert RaceNext(p, run[i - 1], run[i - 1 + 1]);
      RaceStep(p, run[0], run[i - 1], run[i]);
    }
  }

  /**
   * Concurrent first sign-ins that share one identity and one verified email, on an absent or a
   * usable account and with no other writer, all resolve, to the same user; none surfaces a
   * unique violation.
   */
  lemma FirstSignInsNeverCollide(p: Profile, run: seq<Machine>, i: nat, c: CallId)
    requires RaceRun(p, run) && i < |run| && c in run[i].calls && run[i].calls[c].pc.Finished?
    requires run[i].calls[c].pc.outcome != Failed
    ensures p.identity in run[i].identities
    ensures run[i].calls[c].pc.outcome == Resolved(run[i].identities[p.identity])
  {
    RaceRunHolds(p, run, i);
    assert RaceCall(p, run[0], run[i], run[i].calls[c]) && CallOk(run[i], c, run[i].calls[c]);
  }

  // ----- nobody resolves to an account that is not usable -----

  /** A lookup resolves to the linked user exactly if that user is usable, and says which refusal it is otherwise. */
  lemma LookupAnswers(m: Machine, c: CallId, newUser: UserId, m': Machine, u: UserId)
    requires c in m.calls && m.calls[c].request.SignIn? && Execute(m, c, newUser) == Some(m')
    requires m.calls[c].pc.Lookup? || m.calls[c].pc.LookupAgain?
    ensures c in m'.calls
    ensures var p := m.calls[c].request.profile; var pc' := m'.calls[c].pc;
      && (pc' == Finished(Resolved(u)) <==>
            p.identity in m.identities && m.identities[p.identity] == u && u !in m.unusable)
      && (pc' == Finished(AccountUnavailable) <==>
            p.identity in m.identities && m.identities[p.identity] in m.unusable)
      && (pc' == Finished(EmailUnverified) <==>
            p.identity !in m.identities && m.calls[c].pc.Lookup? && !p.emailVerified)
  {
  }

  /** The call is on its way to this user, or has returned it. */
  predicate Concerns(call: Call, u: UserId) {
    call.request.SignIn? && (call.pc == InsertIdentity(u) || call.pc == Ready(u) || call.pc == Finished(Resolved(u)))
  }

  /** In flight, the call finds that the user may be signed in, or is still to be created. */
  predicate Vets(m: Machine, c: CallId, u: UserId) {
    c in m.calls && !m.calls[c].pc.Finished? && (u !in m.unusable || u !in m.users)
  }

  lemma ReadsVet(m: Machine, c: CallId, newUser: UserId, m': Machine, u: UserId)
    requires c in m.calls && Execute(m, c, newUser) == Some(m')
    requires m.calls[c].pc.Lookup? || m.calls[c].pc.ReadEmail? || m.calls[c].pc.LookupAgain?
    ensures c in m'.calls && (Concerns(m'.calls[c], u) ==> Vets(m, c, u))
  {
  }

  lemma StatementVets(m: Machine, c: CallId, newUser: UserId, m': Machine, u: UserId)
    requires c in m.calls && Execute(m, c, newUser) == Some(m')
    ensures c in m'.calls && (Concerns(m'.calls[c], u) ==> Concerns(m.calls[c], u) || Vets(m, c, u))
  {
    match m.calls[c].pc
    case InsertEmail =>
    case InsertIdentity(_) =>
    case Ready(_) =>
    case _ => ReadsVet(m, c, newUser, m', u);
  }

  lemma NextVets(m: Machine, m': Machine, c: CallId, u: UserId)
    requires Next(m, m') && c in m'.calls && Concerns(m'.calls[c], u)
    ensures Vets(m, c, u) || (c in m.calls && Concerns(m.calls[c], u))
  {
    var l :| Moves(m, l, m');
    if l.Run? {
      StatementVets(m, l.c, l.newUser, m', u);
      StatementIsLocal(m, l.c, l.newUser, m');
    }
  }

  /** At a moment before `j`. */
  ghost predicate WasVetted(run: seq<Machine>, j: nat, c: CallId, u: UserId)
    requires j <= |run|
  {
    exists i :: 0 <= i < j && Vets(run[i], c, u)
  }

  lemma VettedBefore(run: seq<Machine>, i: nat, j: nat, c: CallId, u: UserId)
    requires i < j <= |run| && Vets(run[i], c, u)
    ensures WasVetted(run, j, c, u)
  {
  }

  lemma RunStepVets(run: seq<Machine>, j: nat, c: CallId, u: UserId)
    requires IsRun(run) && 0 < j < |run| && c in run[j].calls && Concerns(run[j].calls[c], u)
    ensures Vets(run[j - 1], c, u) || (c in run[j - 1].calls && Concerns(run[j - 1].calls[c], u))
  {
    assert Next(run[j - 1], run[j - 1 + 1]);
    NextVets(run[j - 1], run[j], c, u);
  }

  /**
   * Whoever is signed in was let in: a call that resolved to a user found that user usable, or created
   * them, at a moment of the run at which it was in flight itself.
   */
  lemma {:induction false} ResolvedWereVetted(run: seq<Machine>, j: nat, c: CallId, u: UserId)
    requires IsRun(run) && j < |run| && c in run[j].calls && Concerns(run[j].calls[c], u)
    ensures WasVetted(run, j, c, u)
  {
    if j > 0 {
      RunStepVets(run, j, c, u);
      if Vets(run[j - 1], c, u) {
        VettedBefore(run, j - 1, j, c, u);
      } else {
        ResolvedWereVetted(run, j - 1, c, u);
        var i :| 0 <= i < j - 1 && Vets(run[i], c, u);
        VettedBefore(run, i, j, c, u);
      }
    }
  }

  // ----- what a surfaced unique violation means -----

  /** A lost race leaves the email or the identity taken; a surfaced violation means the email is. */
  predicate LossOk(m: Machine, call: Call) {
    match call.pc
    case LookupAgain =>
      call.request.SignIn? && (call.request.profile.email in m.emails || call.request.profile.identity in m.identities)
    case Finished(UniqueViolation) => EmailOf(call.request) in m.emails
    case _ => true
  }

  ghost predicate LossesOk(m: Machine) {
    forall c :: c in m.calls ==> LossOk(m, m.calls[c])
  }

  lemma SecondLookupKeepsLoss(m: Machine, c: CallId, newUser: UserId, m': Machine)
    requires c in m.calls && Execute(m, c, newUser) == Some(m') && LossOk(m, m.calls[c])
    requires m.calls[c].pc.LookupAgain?
    ensures c in m'.calls && LossOk(m', m'.calls[c])
  {
  }

  lemma InsertKeepsLoss(m: Machine, c: CallId, newUser: UserId, m': Machine)
    requires c in m.calls && Execute(m, c, newUser) == Some(m')
    requires m.calls[c].pc.InsertEmail? || m.calls[c].pc.InsertIdentity?
    ensures c in m'.calls && LossOk(m', m'.calls[c])
  {
  }

  lemma OtherStatementsKeepLoss(m: Machine, c: CallId, newUser: UserId, m': Machine)
    requires c in m.calls && Execute(m, c, newUser) == Some(m')
    requires m.calls[c].pc.Lookup? || m.calls[c].pc.ReadEmail? || m.calls[c].pc.Ready?
    ensures c in m'.calls && LossOk(m', m'.calls[c])
  {
    match m.calls[c].pc
    case Lookup =>
    case ReadEmail =>
    case Ready(_) =>
  }

  lemma StatementKeepsLoss(m: Machine, c: CallId, newUser: UserId, m': Machine)
    requires c in m.calls && Execute(m, c, newUser) == Some(m') && LossOk(m, m.calls[c])
    ensures c in m'.calls && LossOk(m', m'.calls[c])
  {
    match m.calls[c].pc
    case LookupAgain => SecondLookupKeepsLoss(m, c, newUser, m');
    case InsertEmail => InsertKeepsLoss(m, c, newUser, m');
    case InsertIdentity(_) => InsertKeepsLoss(m, c, newUser, m');
    case _ => OtherStatementsKeepLoss(m, c, newUser, m');
  }

  lemma StatementIsLocal(m: Machine, c: CallId, newUser: UserId, m': Machine)
    requires c in m.calls && Execute(m, c, newUser) == Some(m')
    ensures forall o :: o in m'.calls && o != c ==> o in m.calls && m'.calls[o] == m.calls[o]
  {
    match m.calls[c].pc
    case InsertEmail =>
    case InsertIdentity(_) =>
    case Ready(_) =>
    case _ =>
  }

  lemma NextKeepsLosses(m: Machine, m': Machine)
    requires Inv(m) && Next(m, m') && LossesOk(m)
    ensures LossesOk(m')
  {
    NextKeepsInv(m, m');
    EmailsAreKept(m, m');
    var l :| Moves(m, l, m');
    if l.Run? {
      StatementKeepsLoss(m, l.c, l.newUser, m');
      StatementIsLocal(m, l.c, l.newUser, m');
    }
    forall o | o in m'.calls ensures LossOk(m', m'.calls[o]) {
      assert o in m.calls ==> LossOk(m, m.calls[o]);
    }
  }

  lemma {:induction false} RunKeepsLosses(run: seq<Machine>, i: nat)
    requires IsRun(run) && i < |run|
    ensures LossesOk(run[i])
  {
    if i > 0 {
      RunKeepsLosses(run, i - 1);
      RunKeepsInv(run, i - 1);
      assert Next(run[i - 1], run[i - 1 + 1]);
      NextKeepsLosses(run[i - 1], run[i]);
    }
  }

  /**
   * The statement that surfaces a violation: for a sign-in the second lookup of an identity that is
   * still not linked, for a registration the insert of a taken email. Either way the email is taken.
   */
  lemma ViolationSurfacesWhen(run: seq<Machine>, i: nat, c: CallId, newUser: UserId, m': Machine)
    requires IsRun(run) && i < |run| && c in run[i].calls && Execute(run[i], c, newUser) == Some(m')
    ensures c in m'.calls
    ensures m'.calls[c].pc == Finished(UniqueViolation) <==> Loses(run[i], run[i].calls[c])
    ensures Loses(run[i], run[i].calls[c]) ==> EmailOf(run[i].calls[c].request) in run[i].emails
  {
    RunKeepsLosses(run, i);
    assert LossOk(run[i], run[i].calls[c]);
    StatementSurfaces(run[i], c, newUser, m');
  }

  predicate Loses(m: Machine, call: Call) {
    match call.request
    case SignIn(profile) => call.pc.LookupAgain? && profile.identity !in m.identities
    case Register(email) => call.pc.InsertEmail? && email in m.emails
  }

  lemma StatementSurfaces(m: Machine, c: CallId, newUser: UserId, m': Machine)
    requires c in m.calls && Execute(m, c, newUser) == Some(m')
    ensures c in m'.calls && (m'.calls[c].pc == Finished(UniqueViolation) <==> Loses(m, m.calls[c]))
  {
    match m.calls[c].pc
    case InsertEmail =>
    case InsertIdentity(_) =>
    case LookupAgain =>
    case Ready(_) =>
    case _ =>
  }
}
