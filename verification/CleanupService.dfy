/** The batched cleanup job. */
module CleanupService {
  import opened AuthModel
  import opened Runs

  const BATCH_SIZE := 1000
  const MAX_BATCHES := 50
  const RUN_LIMIT := BATCH_SIZE * MAX_BATCHES

  function Min(a: nat, b: nat): nat {
    if a <= b then a else b
  }

  /** The rows that expired before the cutoff. */
  function Expired(rows: map<nat, Time>, cutoff: Time): set<nat> {
    set k | k in rows && rows[k] < cutoff
  }

  /** A table of rows that expire. */
  class ExpiringTable {
    var rows: map<nat, Time>

    constructor (rows: map<nat, Time>)
      ensures this.rows == rows
    {
      this.rows := rows;
    }

    /** DELETE with a LIMIT: the database picks which of the matching rows go. */
    method DeleteMany(cutoff: Time, limit: nat) returns (count: nat)
      modifies this
      ensures Expired(rows, cutoff) <= Expired(old(rows), cutoff)
      ensures rows == old(rows) - (Expired(old(rows), cutoff) - Expired(rows, cutoff))
      ensures count == Min(|Expired(old(rows), cutoff)|, limit)
      ensures |Expired(rows, cutoff)| == |Expired(old(rows), cutoff)| - count
    {
      count := 0;
      var left := Expired(rows, cutoff);
      while left != {} && count < limit
        invariant left <= Expired(old(rows), cutoff) && Expired(rows, cutoff) == left
        invariant rows == old(rows) - (Expired(old(rows), cutoff) - left)
        invariant count + |left| == |Expired(old(rows), cutoff)| && count <= limit
      {
        var k :| k in left;
        left := left - {k};
        rows := rows - {k};
        count := count + 1;
        assert rows == old(rows) - (Expired(old(rows), cutoff) - left);
      }
    }
  }

  class CleanupService {
    const refreshTokens: ExpiringTable
    const userTokens: ExpiringTable
    const authNonces: ExpiringTable

    constructor (refreshTokens: ExpiringTable, userTokens: ExpiringTable, authNonces: ExpiringTable)
      ensures this.refreshTokens == refreshTokens && this.userTokens == userTokens && this.authNonces == authNonces
    {
      this.refreshTokens, this.userTokens, this.authNonces := refreshTokens, userTokens, authNonces;
    }

    /** Three tables, each with its own retention; the same rule for all: on expiry, never on use. */
    method Cleanup(now: Time, refreshDays: nat, userDays: nat, nonceDays: nat)
      returns (deletedRefresh: nat, deletedUser: nat, deletedNonces: nat)
      requires refreshTokens != userTokens && userTokens != authNonces && refreshTokens != authNonces
      modifies refreshTokens, userTokens, authNonces
      ensures Drained(old(refreshTokens.rows), refreshTokens.rows, Cutoff(now, refreshDays), deletedRefresh)
      ensures Drained(old(userTokens.rows), userTokens.rows, Cutoff(now, userDays), deletedUser)
      ensures Drained(old(authNonces.rows), authNonces.rows, Cutoff(now, nonceDays), deletedNonces)
    {
      var warned;
      deletedRefresh, warned := DeleteInBatches(refreshTokens, Cutoff(now, refreshDays));
      deletedUser, warned := DeleteInBatches(userTokens, Cutoff(now, userDays));
      deletedNonces, warned := DeleteInBatches(authNonces, Cutoff(now, nonceDays));
    }

    /** `warned` is the log line "remaining rows are left for the next run". */
    method DeleteInBatches(table: ExpiringTable, cutoff: Time) returns (deleted: nat, warned: bool)
      modifies table
      ensures Drained(old(table.rows), table.rows, cutoff, deleted)
      ensures !warned ==> Expired(table.rows, cutoff) == {}
      ensures warned <==> |Expired(old(table.rows), cutoff)| >= 50000
    {
      deleted := 0;
      var batch := 0;
      while batch < MAX_BATCHES
        invariant 0 <= batch <= MAX_BATCHES && deleted == batch * BATCH_SIZE
        invariant Expired(table.rows, cutoff) <= Expired(old(table.rows), cutoff)
        invariant table.rows == old(table.rows) - (Expired(old(table.rows), cutoff) - Expired(table.rows, cutoff))
        invariant |Expired(table.rows, cutoff)| + deleted == |Expired(old(table.rows), cutoff)|
      {
        var count := table.DeleteMany(cutoff, BATCH_SIZE);
        deleted := deleted + count;
        if count < BATCH_SIZE {
          return deleted, false;
        }
        batch := batch + 1;
      }
      return deleted, true;
    }

    /** `times` runs in a row, with nothing inserted in between. */
    method RunRepeatedly(table: ExpiringTable, cutoff: Time, times: nat) returns (deleted: nat)
      modifies table
      ensures deleted == Min(|Expired(old(table.rows), cutoff)|, RUN_LIMIT * times)
      ensures |Expired(table.rows, cutoff)| == |Expired(old(table.rows), cutoff)| - deleted
      ensures Expired(table.rows, cutoff) <= Expired(old(table.rows), cutoff)
      ensures table.rows == old(table.rows) - (Expired(old(table.rows), cutoff) - Expired(table.rows, cutoff))
    {
      deleted := 0;
      for run := 0 to times
        invariant deleted == Min(|Expired(old(table.rows), cutoff)|, RUN_LIMIT * run)
        invariant |Expired(table.rows, cutoff)| == |Expired(old(table.rows), cutoff)| - deleted
        invariant Expired(table.rows, cutoff) <= Expired(old(table.rows), cutoff)
        invariant table.rows == old(table.rows) - (Expired(old(table.rows), cutoff) - Expired(table.rows, cutoff))
      {
        var count, _ := DeleteInBatches(table, cutoff);
        deleted := deleted + count;
      }
    }
  }

  function Cutoff(now: Time, days: nat): Time {
    now - days * MS_PER_DAY
  }

  /** One run: only expired rows went, and as many as there were, up to the limit of one run. */
  ghost predicate Drained(before: map<nat, Time>, after: map<nat, Time>, cutoff: Time, deleted: nat) {
    && Expired(after, cutoff) <= Expired(before, cutoff)
    && after == before - (Expired(before, cutoff) - Expired(after, cutoff))
    && deleted == Min(|Expired(before, cutoff)|, RUN_LIMIT)
    && deleted == |Expired(before, cutoff) - Expired(after, cutoff)|
  }

  /**
   * The warning says that rows remain. A run warns when it deletes a full quota, and then rows do remain
   * unless the backlog was exactly one quota.
   */
  lemma WarningMeansRowsRemain(before: map<nat, Time>, after: map<nat, Time>, cutoff: Time, deleted: nat)
    requires Drained(before, after, cutoff, deleted)
    ensures deleted == RUN_LIMIT ==> (Expired(after, cutoff) != {} <==> |Expired(before, cutoff)| != RUN_LIMIT)
    ensures deleted < RUN_LIMIT ==> Expired(after, cutoff) == {}
  {
    var gone := Expired(before, cutoff) - Expired(after, cutoff);
    assert |Expired(before, cutoff)| == |gone| + |Expired(after, cutoff)|;
  }

  /** A row in use never goes early: what a run deletes expired at least the retention before it. */
  lemma DeletedRowsWereExpired(
      before: map<nat, Time>, after: map<nat, Time>, now: Time, days: nat, deleted: nat, k: nat)
    requires Drained(before, after, Cutoff(now, days), deleted) && k in before
    ensures k !in after ==> before[k] + days * MS_PER_DAY < now
    ensures before[k] + days * MS_PER_DAY >= now ==> k in after && after[k] == before[k]
  {
  }
}
