/** The statements the account repository runs against the upstream_accounts table, each one atomic
    in the database, and the repository itself when nothing interleaves (internal/store/accounts.go). */
module AccountStore {
  import opened Wrappers
  import opened AccountShape
  import opened Arithmetic
  import opened Text

  type Rows = map<nat, Account>

  /** A timestamp as the column keeps it: whole multiples of quantum (1 s on SQLite). */
  function Trunc(t: int, quantum: int): (r: int)
    requires quantum > 0
    ensures r <= t < r + quantum
  {
    t - t % quantum
  }

  lemma TruncTwice(t: int, quantum: int)
    requires quantum > 0
    ensures Trunc(Trunc(t, quantum), quantum) == Trunc(t, quantum)
  {
    var r := Trunc(t, quantum);
    assert r == quantum * (t / quantum);
    MultipleOf(t / quantum, quantum);
  }

  function Kept(t: Option<int>, quantum: int): Option<int>
    requires quantum > 0
  {
    if t.None? then None else Some(Trunc(t.value, quantum))
  }

  datatype StoreError = Invalid | NotFound | MethodMismatch | Conflict | RowDeleted | NotApiKey | BadPatch | ChangedConcurrently
  datatype Outcome<T> = Ok(value: T) | Err(error: StoreError)

  datatype CredentialPatch = CredentialPatch(
    authMethod: string,
    apiKey: string,
    accessToken: string,
    refreshToken: string,
    idToken: string,
    lastRefresh: Option<int>,
    expectedLastRefresh: Option<int>,
    accessExpiresAt: Option<int>,
    email: Option<string>,
    planType: Option<string>,
    chatGPTAccountID: Option<string>)

  /** None keeps a field; Some(None) clears the base URL. */
  datatype DetailsPatch = DetailsPatch(
    name: Option<string>,
    apiKey: Option<string>,
    baseURL: Option<Option<BaseURL>>,
    capabilities: Option<seq<string>>)

  predicate OAuthMethod(m: string) { m == "oauth_browser" || m == "oauth_device" || m == "oauth_import" }

  /** The check of a patch against itself, before the database is asked. */
  predicate PatchOk(p: CredentialPatch) {
    if p.authMethod == API_KEY then
      && p.apiKey != "" && p.accessToken == "" && p.refreshToken == "" && p.idToken == ""
      && p.lastRefresh.None? && p.accessExpiresAt.None?
    else
      && OAuthMethod(p.authMethod) && p.apiKey == ""
      && p.accessToken != "" && p.refreshToken != "" && p.idToken != ""
      && p.lastRefresh.Some? && p.accessExpiresAt.Some?
  }

  // ---------------------------------------------------------------- statements

  predicate Live(rows: Rows, id: nat) { id in rows && rows[id].status != DELETED }

  /** INSERT: what the row holds afterwards. */
  function Stored(a: Account, id: nat, quantum: int): Account
    requires quantum > 0
  {
    a.(id := id, lastRefresh := Kept(a.lastRefresh, quantum), accessExpiresAt := Kept(a.accessExpiresAt, quantum))
  }

  /** last_refresh = ?, with the argument formatted as the column stores it. */
  predicate RefreshMatches(row: Account, expected: int, quantum: int)
    requires quantum > 0
  {
    row.lastRefresh == Some(Trunc(expected, quantum))
  }

  /** The WHERE clause of a credential update, on the row with the given id. */
  predicate RowTakes(row: Account, p: CredentialPatch, quantum: int)
    requires quantum > 0
  {
    && row.status != DELETED
    && (OAuthMethod(p.authMethod) && p.expectedLastRefresh.Some? ==>
          RefreshMatches(row, p.expectedLastRefresh.value, quantum))
  }

  predicate CredentialsMatch(rows: Rows, id: nat, p: CredentialPatch, quantum: int)
    requires quantum > 0
  {
    id in rows && RowTakes(rows[id], p, quantum)
  }

  /** The columns a credential update writes. */
  function WithCredentials(row: Account, p: CredentialPatch, quantum: int): Account
    requires quantum > 0
  {
    if p.authMethod == API_KEY then row.(apiKey := p.apiKey)
    else
      row.(accessToken := Some(p.accessToken), refreshToken := Some(p.refreshToken), idToken := Some(p.idToken),
           lastRefresh := Kept(p.lastRefresh, quantum), accessExpiresAt := Kept(p.accessExpiresAt, quantum),
           email := p.email, planType := p.planType, chatGPTAccountID := p.chatGPTAccountID)
  }

  /** credentialUpdateMissReason */
  function MissReason(rows: Rows, id: nat, conditional: bool): StoreError {
    if Live(rows, id) && conditional then Conflict else NotFound
  }

  /** The WHERE clause of UpdateStatusIfCurrent, on the row with the given id. */
  predicate RowIsCurrent(row: Account, expected: int, quantum: int)
    requires quantum > 0
  {
    row.status == ACTIVE && RefreshMatches(row, expected, quantum)
  }

  predicate StatusMatches(rows: Rows, id: nat, expected: int, quantum: int)
    requires quantum > 0
  {
    id in rows && RowIsCurrent(rows[id], expected, quantum)
  }

  /** UpdateDetails: the row it would store. */
  function Applied(row: Account, p: DetailsPatch): Account {
    row.(name := if p.name.Some? then p.name.value else row.name,
         apiKey := if p.apiKey.Some? then p.apiKey.value else row.apiKey,
         baseURL := if p.baseURL.Some? then p.baseURL.value else row.baseURL,
         capabilities := if p.capabilities.Some? then Some(p.capabilities.value) else row.capabilities)
  }

  const KEEP_ALL := DetailsPatch(None, None, None, None)

  /** The patch touches a field of the cross-field validation, so the write is conditional. */
  predicate Conditional(p: DetailsPatch) { p.baseURL.Some? || p.capabilities.Some? }

  /** The WHERE clause of the edit of a row that was read as seen. */
  predicate EditMatches(rows: Rows, id: nat, seen: Account, p: DetailsPatch) {
    && id in rows
    && (Conditional(p) ==>
          && rows[id].authMethod == seen.authMethod && rows[id].status == seen.status
          && rows[id].baseURL == seen.baseURL && rows[id].capabilities == seen.capabilities)
  }

  /** After an edit that affected no row: the stored row already is what the edit asked for. */
  predicate AlreadyApplied(row: Account, seen: Account, p: DetailsPatch) {
    && row.authMethod == seen.authMethod && row.status == seen.status
    && (p.name.Some? ==> row.name == p.name.value) && (p.apiKey.Some? ==> row.apiKey == p.apiKey.value)
    && (p.baseURL.Some? ==> row.baseURL == p.baseURL.value)
    && (p.capabilities.Some? ==> Capabilities(row) == p.capabilities.value)
  }

  // ---------------------------------------------------------------- what each statement keeps

  predicate RowsOk(rows: Rows) { forall id :: id in rows ==> rows[id].id == id && ValidShape(rows[id]) }

  lemma StoredOk(a: Account, id: nat, quantum: int)
    requires ValidShape(a) && quantum > 0
    ensures ValidShape(Stored(a, id, quantum))
  {
  }

  lemma CredentialsOk(row: Account, p: CredentialPatch, quantum: int)
    requires ValidShape(row) && PatchOk(p) && p.authMethod == row.authMethod && quantum > 0
    ensures ValidShape(WithCredentials(row, p, quantum))
  {
    hide Blank;
    assert IsOAuth(row) ==> row.authMethod[0] == 'o';
  }

  /** An edit writes only the patched columns. When the write is unconditional the row may have
      changed in any way since it was read, and the result is still a valid row; when it is
      conditional, the columns the validation compared are the ones that were validated. */
  lemma EditOk(rows: Rows, id: nat, seen: Account, p: DetailsPatch)
    requires EditMatches(rows, id, seen, p) && ValidShape(rows[id])
    requires seen.authMethod == API_KEY && rows[id].authMethod == API_KEY
    requires ValidShape(Applied(seen, p))
    ensures ValidShape(Applied(rows[id], p))
  {
    hide Blank;
    assert !IsOAuth(rows[id]) && !IsOAuth(Applied(seen, p)) by { assert API_KEY[0] == 'a'; }
  }

  /** The times in the table have the column's resolution. */
  predicate Rounded(rows: Rows, quantum: int)
    requires quantum > 0
  {
    forall id :: id in rows ==> Kept(rows[id].lastRefresh, quantum) == rows[id].lastRefresh
  }

  lemma KeptTwice(t: Option<int>, quantum: int)
    requires quantum > 0
    ensures Kept(Kept(t, quantum), quantum) == Kept(t, quantum)
  {
    if t.Some? { TruncTwice(t.value, quantum); }
  }

  // ---------------------------------------------------------------- the repository

  class AccountRepo {
    const quantum: int
    var rows: Rows
    var next: nat

    ghost predicate Valid()
      reads this
    {
      quantum > 0 && RowsOk(rows) && Rounded(rows, quantum) && forall id :: id in rows ==> id < next
    }

    constructor (quantum: int)
      requires quantum > 0
      ensures Valid() && rows == map[] && this.quantum == quantum
    {
      this.quantum := quantum;
      rows, next := map[], 0;
    }

    /** An invalid account never reaches the table; a valid one gets a new id. */
    method InsertUpstreamAccount(a: Account) returns (r: Outcome<nat>)
      requires Valid()
      modifies this
      ensures Valid()
      ensures r.Ok? <==> ValidShape(a)
      ensures r.Ok? ==> r.value !in old(rows) && rows == old(rows)[r.value := Stored(a, r.value, quantum)]
      ensures r.Err? ==> r.error == Invalid && rows == old(rows)
    {
      hide ValidShape;
      var err := Validate(a);
      if err.Some? { return Err(Invalid); }
      StoredOk(a, next, quantum);
      KeptTwice(a.lastRefresh, quantum);
      rows := rows[next := Stored(a, next, quantum)];
      next := next + 1;
      return Ok(next - 1);
    }

    /** Inserts an API-key row unless a row of that name exists; either way the answer is the id of
        a row with that name. */
    method CreateIdempotentByName(a: Account) returns (r: Outcome<nat>)
      requires Valid()
      modifies this
      ensures Valid()
      ensures r.Ok? ==> r.value in rows && rows[r.value].name == a.name
      ensures r.Ok? ==> rows == old(rows) || (rows == old(rows)[r.value := Stored(a, r.value, quantum)] && r.value !in old(rows))
      ensures (exists id :: id in old(rows) && old(rows)[id].name == a.name) ==> rows == old(rows)
      ensures r.Ok? <==> a.authMethod == API_KEY && ValidShape(a)
      ensures r.Err? ==> rows == old(rows)
    {
      hide ValidShape;
      if a.authMethod != API_KEY { return Err(NotApiKey); }
      var err := Validate(a);
      if err.Some? { return Err(Invalid); }
      var id := 0;
      while id < next
        invariant id <= next && rows == old(rows)
        invariant forall k :: k in rows && k < id ==> rows[k].name != a.name
      {
        if id in rows && rows[id].name == a.name { return Ok(id); }
        id := id + 1;
      }
      StoredOk(a, next, quantum);
      KeptTwice(a.lastRefresh, quantum);
      rows := rows[next := Stored(a, next, quantum)];
      next := next + 1;
      return Ok(next - 1);
    }

    /** Replaces credentials only of a live row with the patch's auth method and, when the patch
        names one, its last_refresh; every refusal leaves the table as it was. */
    method UpdateCredentials(id: nat, p: CredentialPatch) returns (r: Outcome<()>)
      requires Valid()
      modifies `rows
      ensures Valid()
      ensures r.Ok? <==> PatchOk(p) && CredentialsMatch(old(rows), id, p, quantum) && old(rows)[id].authMethod == p.authMethod
      ensures r.Ok? ==> rows == old(rows)[id := WithCredentials(old(rows)[id], p, quantum)]
      ensures r.Err? ==> rows == old(rows)
      ensures r == Err(Conflict) ==>
                Live(rows, id) && p.expectedLastRefresh.Some?
                && !RefreshMatches(rows[id], p.expectedLastRefresh.value, quantum)
    {
      hide ValidShape;
      if !PatchOk(p) { return Err(BadPatch); }
      if !Live(rows, id) { return Err(NotFound); }
      if rows[id].authMethod != p.authMethod { return Err(MethodMismatch); }
      if !CredentialsMatch(rows, id, p, quantum) {
        return Err(MissReason(rows, id, OAuthMethod(p.authMethod) && p.expectedLastRefresh.Some?));
      }
      CredentialsOk(rows[id], p, quantum);
      KeptTwice(p.lastRefresh, quantum);
      rows := rows[id := WithCredentials(rows[id], p, quantum)];
      return Ok(());
    }

    /** Changes the status only of an active row that still has the expected last_refresh. */
    method UpdateStatusIfCurrent(id: nat, status: string, expected: int) returns (r: Outcome<()>)
      requires Valid()
      modifies `rows
      ensures Valid()
      ensures r.Ok? <==> StatusMatches(old(rows), id, expected, quantum)
      ensures rows == if r.Ok? then old(rows)[id := old(rows)[id].(status := status)] else old(rows)
      ensures r.Err? ==> r.error == if id in rows then Conflict else NotFound
    {
      if !StatusMatches(rows, id, expected, quantum) {
        return Err(if id in rows then Conflict else NotFound);
      }
      rows := rows[id := rows[id].(status := status)];
      return Ok(());
    }

    /** Reads, validates the merged row, and writes the patched columns. With nothing interleaved the
        conditional write always matches, so the only refusals are about the row and the patch. */
    method UpdateDetails(id: nat, p: DetailsPatch) returns (r: Outcome<Account>)
      requires Valid()
      modifies `rows
      ensures Valid()
      ensures r.Ok? <==> Live(old(rows), id) && old(rows)[id].authMethod == API_KEY
                         && (p == KEEP_ALL || ValidShape(Applied(old(rows)[id], p)))
      ensures r.Ok? ==> r.value == Applied(old(rows)[id], p) && rows == old(rows)[id := r.value]
      ensures r.Err? ==> rows == old(rows) && r.error != ChangedConcurrently
    {
      hide ValidShape;
      if id !in rows { return Err(NotFound); }
      var seen := rows[id];
      if seen.status == DELETED { return Err(RowDeleted); }
      if seen.authMethod != API_KEY { return Err(NotApiKey); }
      if p == KEEP_ALL {
        assert rows[id := seen] == rows;
        return Ok(seen);
      }
      var err := Validate(Applied(seen, p));
      if err.Some? { return Err(Invalid); }
      if !EditMatches(rows, id, seen, p) { return Err(ChangedConcurrently); }
      rows := rows[id := Applied(rows[id], p)];
      return Ok(rows[id]);
    }
  }
}
