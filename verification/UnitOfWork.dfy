/** The database a transaction writes, the effects that wait for its commit, and the denylist they reach. */
module UnitOfWork {
  import opened AuthModel
  import opened AuthDb
  import opened SessionLaws

  /** The tables. Statements assign `state`; a rollback puts the old value back. */
  class Database {
    var state: Db

    constructor (initial: Db)
      ensures state == initial
    {
      state := initial;
    }
  }

  /** `entries` after each of `ids` is written with the expiry `until`. */
  function Written(entries: map<SessionId, Time>, ids: set<SessionId>, until: Time): map<SessionId, Time> {
    map s | s in entries.Keys + ids :: if s in ids then until else entries[s]
  }

  /** Redis keys that expire; `enabled` is the configuration switch. */
  class SessionDenylist {
    const enabled: bool
    const ttlSeconds: nat
    var entries: map<SessionId, Time>

    constructor (enabled: bool, ttlSeconds: nat)
      ensures this.enabled == enabled && this.ttlSeconds == ttlSeconds && entries == map[]
    {
      this.enabled, this.ttlSeconds, entries := enabled, ttlSeconds, map[];
    }

    /** One SET per id; `reached` are the ids whose command Redis carried out. A failure is only logged. */
    method Revoke(ids: set<SessionId>, reached: set<SessionId>, now: Time)
      modifies this
      ensures entries == if enabled then Written(old(entries), ids * reached, now + ttlSeconds * MS_PER_SECOND)
                         else old(entries)
    {
      if !enabled || ids == {} {
        assert Written(entries, {}, now + ttlSeconds * MS_PER_SECOND) == entries;
        return;
      }
      var todo := ids;
      while todo != {}
        invariant todo <= ids
        invariant entries == Written(old(entries), (ids - todo) * reached, now + ttlSeconds * MS_PER_SECOND)
      {
        var id :| id in todo;
        todo := todo - {id};
        if id in reached {
          entries := entries[id := now + ttlSeconds * MS_PER_SECOND];
        }
      }
    }

    /** A read that cannot reach Redis answers "not revoked". */
    method IsRevoked(id: SessionId, reachable: bool, now: Time) returns (revoked: bool)
      ensures revoked <==> enabled && reachable && id in entries && now < entries[id]
    {
      if !enabled || !reachable {
        return false;
      }
      revoked := id in entries && now < entries[id];
    }
  }

  /** All the ids queued for the denylist. */
  function Queued(effects: seq<set<SessionId>>): set<SessionId> {
    set i, s | 0 <= i < |effects| && s in effects[i] :: s
  }

  /** What happens to a unit of work: whether it commits, and how its effects then fare. */
  datatype Fate = Fate(commits: bool, reached: set<SessionId>, effectsAt: Time)

  /**
   * How a unit of work ends. Committed, the tables are `target` and exactly the sessions it revoked are
   * denylisted, as far as Redis was reached; rolled back, neither the tables nor the denylist changed.
   */
  twostate predicate Ended(database: Database, denylist: SessionDenylist, target: Db, fate: Fate)
    reads database, denylist
  {
    && database.state == (if fate.commits then target else old(database.state))
    && denylist.entries ==
         if fate.commits && denylist.enabled
         then Written(old(denylist.entries), NewlyRevoked(old(database.state), target) * fate.reached,
                      fate.effectsAt + denylist.ttlSeconds * MS_PER_SECOND)
         else old(denylist.entries)
  }

  /** A transaction and the effects queued until it commits. */
  class Work {
    const database: Database
    const denylist: SessionDenylist
    const saved: Db
    var effects: seq<set<SessionId>>

    constructor (database: Database, denylist: SessionDenylist)
      ensures this.database == database && this.denylist == denylist && saved == database.state && effects == []
    {
      this.database, this.denylist := database, denylist;
      saved := database.state;
      effects := [];
    }

    method AfterCommit(ids: set<SessionId>)
      modifies `effects
      ensures effects == old(effects) + [ids]
      ensures Queued(effects) == Queued(old(effects)) + ids
    {
      effects := effects + [ids];
      QueuedGrows(effects, |effects| - 1);
      assert effects[..|effects| - 1] == old(effects) && effects[..|effects| - 1 + 1] == effects;
    }

    /** Commit and run the queued effects in order, or roll back and discard them. */
    method Complete(fate: Fate)
      modifies database, denylist
      ensures database.state == if fate.commits then old(database.state) else saved
      ensures denylist.entries ==
                if fate.commits && denylist.enabled
                then Written(old(denylist.entries), Queued(effects) * fate.reached,
                             fate.effectsAt + denylist.ttlSeconds * MS_PER_SECOND)
                else old(denylist.entries)
    {
      if !fate.commits {
        database.state := saved;
        return;
      }
      var until := fate.effectsAt + denylist.ttlSeconds * MS_PER_SECOND;
      var i := 0;
      assert Written(denylist.entries, Queued([]) * fate.reached, until) == denylist.entries;
      assert effects[..0] == [];
      while i < |effects|
        invariant 0 <= i <= |effects|
        invariant database.state == old(database.state)
        invariant denylist.entries ==
                    if denylist.enabled then Written(old(denylist.entries), Queued(effects[..i]) * fate.reached, until)
                    else old(denylist.entries)
      {
        denylist.Revoke(effects[i], fate.reached, fate.effectsAt);
        assert Queued(effects[..i + 1]) == Queued(effects[..i]) + effects[i] by { QueuedGrows(effects, i); }
        i := i + 1;
      }
      assert effects[..|effects|] == effects;
    }
  }

  lemma QueuedGrows(effects: seq<set<SessionId>>, i: nat)
    requires i < |effects|
    ensures Queued(effects[..i + 1]) == Queued(effects[..i]) + effects[i]
  {
    forall s | s in effects[i] ensures s in Queued(effects[..i + 1]) {
      assert effects[..i + 1][i] == effects[i];
    }
    forall s | s in Queued(effects[..i]) ensures s in Queued(effects[..i + 1]) {
      var j :| 0 <= j < i && s in effects[..i][j];
      assert effects[..i + 1][j] == effects[..i][j];
    }
    forall s | s in Queued(effects[..i + 1]) ensures s in Queued(effects[..i]) + effects[i] {
      var j :| 0 <= j < i + 1 && s in effects[..i + 1][j];
      assert j < i ==> effects[..i][j] == effects[..i + 1][j];
    }
  }
}
