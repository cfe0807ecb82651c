/**
 * External sign-ins that share one verified email, with no other writer of emails or identities: exactly
 * when a unique violation can surface.
 */
module SharedEmail {
  import opened AuthModel
  import opened IdentityRace
  import opened SetCounting

  /** A sign-in by one of `ids` with the provider's word for `email`. */
  predicate IsSceneRequest(email: Address, ids: set<ExternalId>, r: Request) {
    r.SignIn? && r.profile.email == email && r.profile.emailVerified && r.profile.identity in ids
  }

  /** Sign-ins of the scene; calls may fail, and accounts may be suspended or restored at any time. */
  predicate SceneLabel(email: Address, ids: set<ExternalId>, l: Label) {
    l.Arrive? ==> IsSceneRequest(email, ids, l.request)
  }

  ghost predicate SceneNext(email: Address, ids: set<ExternalId>, m: Machine, m': Machine) {
    exists l :: Moves(m, l, m') && SceneLabel(email, ids, l)
  }

  ghost predicate SceneRun(email: Address, ids: set<ExternalId>, m0: Machine, run: seq<Machine>) {
    && |run| > 0 && run[0] == m0
    && forall i :: 0 <= i < |run| - 1 ==> SceneNext(email, ids, run[i], run[i + 1])
  }

  ghost predicate Surfaces(m: Machine) {
    exists c :: c in m.calls && m.calls[c].pc == Finished(UniqueViolation)
  }

  /** The email has its account already, or the requests that are not linked yet are all for one identity. */
  ghost predicate CannotCollide(email: Address, ids: set<ExternalId>, m: Machine) {
    email in m.emails || forall i, j :: i in ids && j in ids && i !in m.identities && j !in m.identities ==> i == j
  }

  // ----- sufficient: no violation surfaces -----

  predicate SceneCallOk(email: Address, ids: set<ExternalId>, m0: Machine, m: Machine, call: Call) {
    && IsSceneRequest(email, ids, call.request)
    && var id := call.request.profile.identity;
       match call.pc
       case Lookup => true
       case ReadEmail => id !in m0.identities
       case InsertEmail => id !in m0.identities && email !in m0.emails
       case InsertIdentity(_) => id !in m0.identities
       case Ready(_) => id !in m0.identities
       case LookupAgain => id in m.identities
       case Finished(outcome) => !outcome.UniqueViolation?
  }

  /** If the scene created the email, whoever could still race for it is linked by now. */
  ghost predicate SceneTables(email: Address, ids: set<ExternalId>, m0: Machine, m: Machine) {
    && m0.emails.Keys <= m.emails.Keys && m0.identities.Keys <= m.identities.Keys
    && (email in m.emails && email !in m0.emails ==> ids <= m.identities.Keys)
  }

  ghost predicate SceneInv(email: Address, ids: set<ExternalId>, m0: Machine, m: Machine) {
    && Inv(m) && SceneTables(email, ids, m0, m)
    && forall c :: c in m.calls ==> SceneCallOk(email, ids, m0, m, m.calls[c])
  }

  lemma TablesGrow(m: Machine, m': Machine)
    requires Inv(m) && Next(m, m')
    ensures m.emails.Keys <= m'.emails.Keys && m.identities.Keys <= m'.identities.Keys && Inv(m')
  {
    NextKeepsInv(m, m');
    EmailsAreKept(m, m');
  }

  lemma CallsCarryOver(email: Address, ids: set<ExternalId>, m0: Machine, m: Machine, m': Machine, call: Call)
    requires SceneCallOk(email, ids, m0, m, call) && m.identities.Keys <= m'.identities.Keys
    ensures SceneCallOk(email, ids, m0, m', call)
  {
  }

  lemma SceneReads(
      email: Address, ids: set<ExternalId>, m0: Machine, m: Machine, c: CallId, newUser: UserId, m': Machine)
    requires SceneInv(email, ids, m0, m) && c in m.calls && Execute(m, c, newUser) == Some(m')
    requires m.calls[c].pc.Lookup? || m.calls[c].pc.ReadEmail? || m.calls[c].pc.LookupAgain?
    ensures c in m'.calls && SceneCallOk(email, ids, m0, m', m'.calls[c]) && m'.emails == m.emails
    ensures m'.identities == m.identities
  {
    assert SceneCallOk(email, ids, m0, m, m.calls[c]);
    match m.calls[c].pc
    case Lookup =>
    case ReadEmail =>
    case LookupAgain =>
  }

  lemma SceneInserts(
      email: Address, ids: set<ExternalId>, m0: Machine, m: Machine, c: CallId, newUser: UserId, m': Machine)
    requires SceneInv(email, ids, m0, m) && c in m.calls && Execute(m, c, newUser) == Some(m')
    requires m.calls[c].pc.InsertEmail? || m.calls[c].pc.InsertIdentity?
    ensures c in m'.calls && SceneCallOk(email, ids, m0, m', m'.calls[c]) && m'.emails == m.emails
    ensures m'.identities == m.identities
  {
    assert SceneCallOk(email, ids, m0, m, m.calls[c]);
    match m.calls[c].pc
    case InsertEmail =>
    case InsertIdentity(_) =>
  }

  /** When the winner commits, it links the one identity that was not linked. */
  lemma SceneCommits(
      email: Address, ids: set<ExternalId>, m0: Machine, m: Machine, c: CallId, newUser: UserId, m': Machine)
    requires SceneInv(email, ids, m0, m) && CannotCollide(email, ids, m0)
    requires c in m.calls && m.calls[c].pc.Ready? && Execute(m, c, newUser) == Some(m')
    ensures c in m'.calls && SceneCallOk(email, ids, m0, m', m'.calls[c])
    ensures m.identities.Keys <= m'.identities.Keys && (email !in m0.emails ==> ids <= m'.identities.Keys)
  {
    assert SceneCallOk(email, ids, m0, m, m.calls[c]) && CallOk(m, c, m.calls[c]);
    var id := m.calls[c].request.profile.identity;
    assert id in m'.identities;
  }

  lemma StatementKeepsScene(
      email: Address, ids: set<ExternalId>, m0: Machine, m: Machine, c: CallId, newUser: UserId, m': Machine)
    requires SceneInv(email, ids, m0, m) && CannotCollide(email, ids, m0) && c in m.calls
    requires Execute(m, c, newUser) == Some(m')
    requires m.emails.Keys <= m'.emails.Keys && m.identities.Keys <= m'.identities.Keys
    ensures c in m'.calls && SceneCallOk(email, ids, m0, m', m'.calls[c]) && SceneTables(email, ids, m0, m')
  {
    match m.calls[c].pc
    case Ready(_) => SceneCommits(email, ids, m0, m, c, newUser, m');
    case InsertEmail => SceneInserts(email, ids, m0, m, c, newUser, m');
    case InsertIdentity(_) => SceneInserts(email, ids, m0, m, c, newUser, m');
    case _ => SceneReads(email, ids, m0, m, c, newUser, m');
  }

  /** What a step that is no statement does to a call: nothing, or it arrives, or it fails. */
  lemma SceneBystander(email: Address, ids: set<ExternalId>, m0: Machine, m: Machine, l: Label, m': Machine, c: CallId)
    requires SceneInv(email, ids, m0, m) && Moves(m, l, m') && SceneLabel(email, ids, l) && !l.Run? && c in m'.calls
    requires m.identities.Keys <= m'.identities.Keys
    ensures SceneCallOk(email, ids, m0, m', m'.calls[c])
  {
    assert c in m.calls ==> SceneCallOk(email, ids, m0, m, m.calls[c]);
  }

  lemma SceneTablesKept(email: Address, ids: set<ExternalId>, m0: Machine, m: Machine, l: Label, m': Machine)
    requires SceneTables(email, ids, m0, m) && Moves(m, l, m') && !l.Run?
    ensures SceneTables(email, ids, m0, m')
  {
  }

  lemma SceneStep(email: Address, ids: set<ExternalId>, m0: Machine, m: Machine, m': Machine)
    requires SceneInv(email, ids, m0, m) && CannotCollide(email, ids, m0) && SceneNext(email, ids, m, m')
    ensures SceneInv(email, ids, m0, m')
  {
    var l :| Moves(m, l, m') && SceneLabel(email, ids, l);
    TablesGrow(m, m');
    if l.Run? {
      StatementKeepsScene(email, ids, m0, m, l.c, l.newUser, m');
      StatementIsLocal(m, l.c, l.newUser, m');
      forall c | c in m'.calls && c != l.c ensures SceneCallOk(email, ids, m0, m', m'.calls[c]) {
        CallsCarryOver(email, ids, m0, m, m', m.calls[c]);
      }
    } else {
      SceneTablesKept(email, ids, m0, m, l, m');
      forall c | c in m'.calls ensures SceneCallOk(email, ids, m0, m', m'.calls[c]) {
        SceneBystander(email, ids, m0, m, l, m', c);
      }
    }
  }

  lemma SceneOpens(email: Address, ids: set<ExternalId>, m0: Machine)
    requires Quiet(m0)
    ensures SceneInv(email, ids, m0, m0)
  {
  }

  lemma {:induction false} SceneHolds(
      email: Address, ids: set<ExternalId>, m0: Machine, run: seq<Machine>, i: nat, j: nat)
    requires SceneRun(email, ids, m0, run) && CannotCollide(email, ids, m0) && i <= j < |run|
    requires SceneInv(email, ids, m0, run[i])
    ensures SceneInv(email, ids, m0, run[j])
    decreases j - i
  {
    if i < j {
      assert SceneNext(email, ids, run[i], run[i + 1]);
      SceneStep(email, ids, m0, run[i], run[i + 1]);
      SceneHolds(email, ids, m0, run, i + 1, j);
    }
  }

  lemma NothingSurfaces(email: Address, ids: set<ExternalId>, m0: Machine, run: seq<Machine>, i: nat)
    requires Quiet(m0) && SceneRun(email, ids, m0, run) && CannotCollide(email, ids, m0) && i < |run|
    ensures !Surfaces(run[i])
  {
    SceneOpens(email, ids, m0);
    SceneHolds(email, ids, m0, run, 0, i);
    forall c | c in run[i].calls ensures run[i].calls[c].pc != Finished(UniqueViolation) {
      assert SceneCallOk(email, ids, m0, run[i], run[i].calls[c]);
    }
  }

  // ----- necessary: two unlinked identities on a free email collide -----

  ghost predicate Reaches(email: Address, ids: set<ExternalId>, m0: Machine, m: Machine) {
    exists run :: SceneRun(email, ids, m0, run) && run[|run| - 1] == m
  }

  lemma Stays(email: Address, ids: set<ExternalId>, m0: Machine)
    ensures Reaches(email, ids, m0, m0)
  {
    assert SceneRun(email, ids, m0, [m0]);
  }

  lemma Proceeds(email: Address, ids: set<ExternalId>, m0: Machine, m: Machine, l: Label, m': Machine)
    requires Reaches(email, ids, m0, m) && Moves(m, l, m') && SceneLabel(email, ids, l)
    ensures Reaches(email, ids, m0, m')
  {
    var run :| SceneRun(email, ids, m0, run) && run[|run| - 1] == m;
    var longer := run + [m'];
    assert SceneNext(email, ids, m, m');
    forall i | 0 <= i < |longer| - 1 ensures SceneNext(email, ids, longer[i], longer[i + 1]) {
      assert i < |run| - 1 ==> SceneNext(email, ids, run[i], run[i + 1]);
    }
    assert SceneRun(email, ids, m0, longer) && longer[|longer| - 1] == m';
  }

  predicate Same(m: Machine, o: Machine) {
    && m.emails == o.emails && m.identities == o.identities && m.dirtyEmails == o.dirtyEmails
    && m.dirtyIdentities == o.dirtyIdentities && m.unusable == o.unusable && m.users == o.users && m.calls == o.calls
  }

  /** One statement of call `c`. */
  lemma Follows(email: Address, ids: set<ExternalId>, m0: Machine, m: Machine, c: CallId, u: UserId, m': Machine)
    requires Reaches(email, ids, m0, m) && c in m.calls && Execute(m, c, u).Some? && Same(Execute(m, c, u).value, m')
    ensures Reaches(email, ids, m0, m')
  {
    assert Execute(m, c, u).value == m';
    Proceeds(email, ids, m0, m, Run(c, u), m');
  }

  function Asks(email: Address, id: ExternalId): Request {
    SignIn(Profile(id, email, true))
  }

  /** `m` with the sign-ins of the identities `i` and `j` at the given statements, and nothing else running. */
  function Two(m: Machine, email: Address, i: ExternalId, j: ExternalId, winner: Pc, loser: Pc): Machine {
    m.(calls := map[0 := Call(Asks(email, i), winner), 1 := Call(Asks(email, j), loser)])
  }

  predicate CanCollide(email: Address, ids: set<ExternalId>, i: ExternalId, j: ExternalId, m: Machine) {
    && m.calls == map[] && m.dirtyEmails == map[] && m.dirtyIdentities == map[] && email !in m.emails
    && i in ids && j in ids && i != j && i !in m.identities && j !in m.identities
  }

  lemma BothArrive(email: Address, ids: set<ExternalId>, i: ExternalId, j: ExternalId, m0: Machine)
    requires CanCollide(email, ids, i, j, m0)
    ensures Reaches(email, ids, m0, Two(m0, email, i, j, Lookup, Lookup))
  {
    Stays(email, ids, m0);
    var one := m0.(calls := map[0 := Call(Asks(email, i), Lookup)]);
    Proceeds(email, ids, m0, m0, Arrive(0, Asks(email, i)), one);
    Proceeds(email, ids, m0, one, Arrive(1, Asks(email, j)), Two(m0, email, i, j, Lookup, Lookup));
  }

  /** A read of the first call, then the same read of the second. */
  lemma BothRead(email: Address, ids: set<ExternalId>, i: ExternalId, j: ExternalId, m0: Machine, pc: Pc, next: Pc)
    requires CanCollide(email, ids, i, j, m0) && Reaches(email, ids, m0, Two(m0, email, i, j, pc, pc))
    requires (pc == Lookup && next == ReadEmail) || (pc == ReadEmail && next == InsertEmail)
    ensures Reaches(email, ids, m0, Two(m0, email, i, j, next, next))
  {
    var m := Two(m0, email, i, j, pc, pc);
    Follows(email, ids, m0, m, 0, 0, Two(m0, email, i, j, next, pc));
    Follows(email, ids, m0, Two(m0, email, i, j, next, pc), 1, 0, Two(m0, email, i, j, next, next));
  }

  /** The tables once the winner has inserted the email for the new user `u`, and its identity if `linked`. */
  function Held(m0: Machine, email: Address, i: ExternalId, u: UserId, linked: bool): Machine {
    m0.(dirtyEmails := map[email := Dirty(0, u)], dirtyIdentities := if linked then map[i := Dirty(0, u)] else map[],
        users := m0.users + {u})
  }

  /** The tables once the winner has committed. */
  function Won(m0: Machine, email: Address, i: ExternalId, u: UserId): Machine {
    m0.(emails := m0.emails[email := u], identities := m0.identities[i := u], users := m0.users + {u})
  }

  lemma WinnerInserts(email: Address, ids: set<ExternalId>, i: ExternalId, j: ExternalId, m0: Machine, u: UserId)
    requires CanCollide(email, ids, i, j, m0) && u !in m0.users
    requires Reaches(email, ids, m0, Two(m0, email, i, j, InsertEmail, InsertEmail))
    ensures Reaches(email, ids, m0, Two(Held(m0, email, i, u, true), email, i, j, Ready(u), InsertEmail))
  {
    var m := Two(m0, email, i, j, InsertEmail, InsertEmail);
    var m1 := Two(Held(m0, email, i, u, false), email, i, j, InsertIdentity(u), InsertEmail);
    Follows(email, ids, m0, m, 0, u, m1);
    var m2 := Two(Held(m0, email, i, u, true), email, i, j, Ready(u), InsertEmail);
    Follows(email, ids, m0, m1, 0, 0, m2);
  }

  /** What a commit does when the call holds one row of each table and nobody else holds any. */
  lemma CommitsBoth(m: Machine, email: Address, i: ExternalId, u: UserId)
    requires m.dirtyEmails == map[email := Dirty(0, u)] && m.dirtyIdentities == map[i := Dirty(0, u)]
    ensures CommitRows(m, 0).emails == m.emails[email := u] && CommitRows(m, 0).identities == m.identities[i := u]
    ensures CommitRows(m, 0).dirtyEmails == map[] && CommitRows(m, 0).dirtyIdentities == map[]
  {
  }

  lemma WinnerCommits(email: Address, ids: set<ExternalId>, i: ExternalId, j: ExternalId, m0: Machine, u: UserId)
    requires CanCollide(email, ids, i, j, m0)
    requires Reaches(email, ids, m0, Two(Held(m0, email, i, u, true), email, i, j, Ready(u), InsertEmail))
    ensures Reaches(email, ids, m0, Two(Won(m0, email, i, u), email, i, j, Finished(Resolved(u)), InsertEmail))
  {
    var m := Two(Held(m0, email, i, u, true), email, i, j, Ready(u), InsertEmail);
    var m' := Two(Won(m0, email, i, u), email, i, j, Finished(Resolved(u)), InsertEmail);
    CommitsBoth(m, email, i, u);
    Follows(email, ids, m0, m, 0, 0, m');
  }

  /** The insert of the loser finds the email taken; its second lookup finds no identity. */
  lemma LoserSurfaces(email: Address, ids: set<ExternalId>, i: ExternalId, j: ExternalId, m0: Machine, u: UserId)
    requires CanCollide(email, ids, i, j, m0)
    requires Reaches(email, ids, m0, Two(Won(m0, email, i, u), email, i, j, Finished(Resolved(u)), InsertEmail))
    ensures exists m :: Reaches(email, ids, m0, m) && Surfaces(m)
  {
    var m := Two(Won(m0, email, i, u), email, i, j, Finished(Resolved(u)), InsertEmail);
    var m1 := Two(Won(m0, email, i, u), email, i, j, Finished(Resolved(u)), LookupAgain);
    assert Release(m, 1) == m;
    Follows(email, ids, m0, m, 1, 0, m1);
    var m2 := Two(Won(m0, email, i, u), email, i, j, Finished(Resolved(u)), Finished(UniqueViolation));
    Follows(email, ids, m0, m1, 1, 0, m2);
    assert 1 in m2.calls && m2.calls[1].pc == Finished(UniqueViolation);
    assert Surfaces(m2);
  }

  /** Any two distinct identities that are not linked, on any email without an account, have a run that surfaces. */
  lemma CollisionsSurface(email: Address, ids: set<ExternalId>, i: ExternalId, j: ExternalId, m0: Machine)
    requires CanCollide(email, ids, i, j, m0)
    ensures exists m :: Reaches(email, ids, m0, m) && Surfaces(m)
  {
    var u := FreshExists(m0.users);
    BothArrive(email, ids, i, j, m0);
    BothRead(email, ids, i, j, m0, Lookup, ReadEmail);
    BothRead(email, ids, i, j, m0, ReadEmail, InsertEmail);
    WinnerInserts(email, ids, i, j, m0, u);
    WinnerCommits(email, ids, i, j, m0, u);
    LoserSurfaces(email, ids, i, j, m0, u);
  }

  /**
   * Sign-ins that share one verified email, from any quiet state: no run surfaces a unique violation
   * exactly when the email has its account at the start or the requested identities that are not
   * linked yet are one and the same.
   */
  lemma ViolationsSurfaceExactly(email: Address, ids: set<ExternalId>, m0: Machine)
    requires Quiet(m0)
    ensures (forall m :: Reaches(email, ids, m0, m) ==> !Surfaces(m)) <==> CannotCollide(email, ids, m0)
  {
    if CannotCollide(email, ids, m0) {
      forall m | Reaches(email, ids, m0, m) ensures !Surfaces(m) {
        var run :| SceneRun(email, ids, m0, run) && run[|run| - 1] == m;
        NothingSurfaces(email, ids, m0, run, |run| - 1);
      }
    } else {
      var i, j :| i in ids && j in ids && i !in m0.identities && j !in m0.identities && i != j;
      CollisionsSurface(email, ids, i, j, m0);
    }
  }
}
