/** One call of RefreshIfStale as a program over the repository, with its retry loop; nothing else runs
    meanwhile (internal/oauth/coordinator.go). */
module RefreshCall {
  import opened Wrappers
  import opened AccountShape
  import opened AccountStore
  import opened TokenRefresh

  /** The stored row still shows the snapshot's last_refresh. */
  predicate IsCurrent(rows: Rows, acct: Account, quantum: int)
    requires quantum > 0
  {
    acct.id in rows && acct.lastRefresh.Some? && RefreshMatches(rows[acct.id], acct.lastRefresh.value, quantum)
  }

  /** What one attempt leaves in the table. */
  ghost predicate Attempted(before: Rows, after: Rows, acct: Account, r: Result, quantum: int)
    requires quantum > 0
  {
    && (r.Refreshed? ==>
          && IsCurrent(before, acct, quantum) && after.Keys == before.Keys
          && after[acct.id].accessToken == Some(r.access)
          && forall id :: id in before && id != acct.id ==> after[id] == before[id])
    && (r.Rejected? ==>
          && IsCurrent(before, acct, quantum) && before[acct.id].status == ACTIVE
          && after == before[acct.id := before[acct.id].(status := DISABLED)])
    && (!r.Refreshed? && !r.Rejected? ==> after == before)
    && (r.RefreshConflict? ==> acct.id in before && !(before[acct.id].status == ACTIVE && IsCurrent(before, acct, quantum)))
  }

  class Refresher {
    const repo: AccountRepo
    var clock: int
    var calls: nat  // provider calls so far

    constructor (repo: AccountRepo, clock: int)
      ensures this.repo == repo && this.clock == clock && calls == 0
    {
      this.repo, this.clock, calls := repo, clock, 0;
    }

    /** refreshIfStaleOnce for an OAuth account; the provider's answer is given. */
    method RefreshOnce(acct: Account, reply: Reply, elapsed: nat) returns (r: Result)
      requires repo.Valid() && OAuthShape(acct)
      modifies this, repo`rows
      ensures repo.Valid() && Attempted(old(repo.rows), repo.rows, acct, r, repo.quantum)
      ensures old(calls) <= calls <= old(calls) + 1
      ensures r.BadExpiry? <==> acct.accessExpiresAt.value < acct.lastRefresh.value
      ensures r.Token? ==> acct.accessToken == Some(r.access) && calls == old(calls)
      ensures r.Fallback? ==> acct.accessToken == Some(r.access)
      ensures !r.NotActive?
    {
      var lastRefresh, expiresAt := acct.lastRefresh.value, acct.accessExpiresAt.value;
      if expiresAt < lastRefresh { return BadExpiry; }
      if clock <= RefreshAfter(lastRefresh, expiresAt) { return Token(acct.accessToken.value); }
      calls := calls + 1;
      match reply
      case Granted(tokens) =>
        clock := clock + elapsed;
        var patch := Patch(acct, tokens, clock);
        MethodIsOAuth(acct);
        var written := repo.UpdateCredentials(acct.id, patch);
        if written.Ok? { return Refreshed(tokens.access); }
        return if written.error == Conflict then RefreshConflict else StoreFailed;
      case Permanent =>
        var disabled := repo.UpdateStatusIfCurrent(acct.id, DISABLED, lastRefresh);
        if disabled.Ok? { return Rejected; }
        return if disabled.error == Conflict then RefreshConflict else StoreFailed;
      case Transient =>
        return Fallback(acct.accessToken.value);
    }

    lemma MethodIsOAuth(acct: Account)
      requires OAuthShape(acct)
      ensures OAuthMethod(acct.authMethod) && acct.authMethod != API_KEY
    {
      assert acct.authMethod[0] == 'o' && API_KEY[0] == 'a';
    }

    lemma RowIsItself(rows: Rows, id: nat)
      requires repo.quantum > 0 && RowsOk(rows) && Rounded(rows, repo.quantum) && id in rows && OAuthShape(rows[id])
      ensures IsCurrent(rows, rows[id], repo.quantum)
    {
    }

    lemma StillOAuth(row: Account, acct: Account)
      requires ValidShape(row) && row.authMethod == acct.authMethod && OAuthShape(acct)
      ensures OAuthShape(row)
    {
      MethodIsOAuth(acct);
    }

    /** The retry loop: at most two attempts, the second with the row as stored. A snapshot of any age
        makes the call retry at most once, and with nothing interleaved the call never ends in a
        conflict: the second attempt always finds its row current. */
    method RefreshIfStale(acct: Account, replies: nat -> Reply, elapsed: nat) returns (r: Result)
      requires repo.Valid() && OAuthShape(acct)
      requires acct.id in repo.rows && repo.rows[acct.id].authMethod == acct.authMethod
      modifies this, repo`rows
      ensures repo.Valid() && !r.RefreshConflict?
      ensures calls <= old(calls) + 2
      ensures forall id :: id in old(repo.rows) && id != acct.id ==> id in repo.rows && repo.rows[id] == old(repo.rows)[id]
      ensures r.NotActive? ==> repo.rows == old(repo.rows) && repo.rows[acct.id].status != ACTIVE
      ensures r.Rejected? ==>
                repo.rows == old(repo.rows)[acct.id := old(repo.rows)[acct.id].(status := DISABLED)]
    {
      hide ValidShape, OAuthShape, RowsOk;
      var current := acct;
      var attempt := 0;
      while true
        invariant repo.Valid() && OAuthShape(current) && current.id == acct.id && 0 <= attempt <= 1
        invariant repo.rows == old(repo.rows) && calls <= old(calls) + attempt
        invariant attempt == 1 ==> repo.rows[acct.id].status == ACTIVE && IsCurrent(repo.rows, current, repo.quantum)
        decreases 2 - attempt
      {
        r := RefreshOnce(current, replies(attempt), elapsed);
        if !r.RefreshConflict? { return; }
        if attempt > 0 { return; }
        var row := repo.rows[acct.id];
        if row.status != ACTIVE { return NotActive; }
        assert ValidShape(row) && row.id == acct.id by { RowFacts(repo.rows, acct.id); }
        StillOAuth(row, acct);
        RowIsItself(repo.rows, acct.id);
        current := row;
        attempt := attempt + 1;
      }
    }

    lemma RowFacts(rows: Rows, id: nat)
      requires RowsOk(rows) && id in rows
      ensures ValidShape(rows[id]) && rows[id].id == id
    {
    }
  }
}
