/** Concurrent refreshes of one OAuth row under optimistic locking on last_refresh
    (internal/oauth/coordinator.go, RefreshIfStale). */
module TokenRefresh {
  import opened Arithmetic
  import opened Wrappers
  import opened AccountShape
  import opened AccountStore

  type Tid = nat

  /** Credentials as a provider issued them, before the store truncates the times. */
  datatype Creds = Creds(access: string, refresh: string, lastRefresh: int, expiresAt: int)

  datatype Result =
    | Token(access: string)            // still fresh
    | Refreshed(access: string)
    | Fallback(access: string)         // a transient failure: the old token
    | Rejected                         // a permanent failure: the account is disabled
    | BadExpiry | StoreFailed | NotActive | RefreshConflict

  datatype Pc =
    | Check | Join | Wait(flight: nat)
    | Ask(flight: nat) | Stamp(flight: nat, tokens: Tokens)
    | CredentialsRead(flight: nat, patch: CredentialPatch)
    | CredentialsWrite(flight: nat, patch: CredentialPatch)
    | CredentialsMiss(flight: nat)
    | Disable(flight: nat) | DisableMiss(flight: nat)
    | Leave(flight: nat, result: Result)
    | Reload
    | Done(result: Result)

  datatype Tokens = Tokens(access: string, refresh: string, id: string, expiresIn: int)

  /** snap: the account the call works on; version: which issued credentials it shows (history). */
  datatype Task = Task(snap: Account, version: nat, attempt: nat, calls: nat, pc: Pc)

  /** flight: the single-flight call in progress and its leader; issued, replaced, disabled: history. */
  datatype Shared = Shared(
    row: Account,
    clock: int,
    flight: Option<(Tid, nat)>,
    flights: nat,
    results: map<nat, Result>,
    issued: seq<Creds>,               // every credential the row has held, the current one last
    replaced: seq<(nat, nat)>,        // snapshot version and stored version of each credential write
    disabled: seq<(nat, nat)>)        // rejected version and stored version of each disable

  datatype Reply = Granted(tokens: Tokens) | Permanent | Transient
  datatype Env = Env(now: int, reply: Reply)
  datatype Step = Stuck | Move(sh: Shared, task: Task)

  function Go(sh: Shared, t: Task, pc: Pc): Step { Move(sh, t.(pc := pc)) }

  /** The instant after which the account counts as stale; Go divides durations toward zero. */
  function RefreshAfter(lastRefresh: int, expiresAt: int): int
    requires lastRefresh <= expiresAt
  {
    lastRefresh + (expiresAt - lastRefresh) / 2
  }

  /** A snapshot with these times is refused, or is stale only in a later unit of the column. */
  predicate Safe(lastRefresh: int, expiresAt: int, quantum: int)
    requires quantum > 0
  {
    expiresAt < lastRefresh || RefreshAfter(lastRefresh, expiresAt) + 1 >= Trunc(lastRefresh, quantum) + quantum
  }

  /** The credentials, as the store keeps them, live long enough for the column's resolution. */
  predicate Durable(c: Creds, quantum: int)
    requires quantum > 0
  {
    Safe(Trunc(c.lastRefresh, quantum), Trunc(c.expiresAt, quantum), quantum)
  }

  function Patch(snap: Account, tokens: Tokens, now: int): CredentialPatch {
    CredentialPatch(snap.authMethod, "", tokens.access, tokens.refresh, tokens.id, Some(now), snap.lastRefresh,
                    Some(now + tokens.expiresIn), None, None, None)
  }

  function Issued(p: CredentialPatch): Creds
    requires p.lastRefresh.Some? && p.accessExpiresAt.Some?
  {
    Creds(p.accessToken, p.refreshToken, p.lastRefresh.value, p.accessExpiresAt.value)
  }

  function Current(sh: Shared): nat
    requires sh.issued != []
  {
    |sh.issued| - 1
  }

  /** What RefreshIfStale does with the answer of one attempt. */
  function Answer(t: Task, r: Result): Pc {
    if r == RefreshConflict && t.attempt == 0 then Reload else Done(r)
  }

  function CheckStep(sh: Shared, t: Task, env: Env): Step
    requires t.snap.lastRefresh.Some? && t.snap.accessExpiresAt.Some? && t.snap.accessToken.Some?
  {
    var lastRefresh, expiresAt := t.snap.lastRefresh.value, t.snap.accessExpiresAt.value;
    if expiresAt < lastRefresh then Go(sh, t, Done(BadExpiry))
    else if env.now < sh.clock then Stuck
    else Go(sh.(clock := env.now), t,
            if env.now <= RefreshAfter(lastRefresh, expiresAt) then Done(Token(t.snap.accessToken.value)) else Join)
  }

  /** The steps of a flight's leader. */
  function LeaderStep(sh: Shared, t: Task, env: Env, quantum: int): Step
    requires quantum > 0 && sh.issued != [] && t.snap.lastRefresh.Some? && t.snap.accessToken.Some?
  {
    match t.pc
    case Ask(n) =>
      var asked := t.(calls := t.calls + 1);
      (match env.reply
       case Granted(tokens) => Go(sh, asked, Stamp(n, tokens))
       case Permanent => Go(sh, asked, Disable(n))
       case Transient => Go(sh, asked, Leave(n, Fallback(t.snap.accessToken.value))))
    case Stamp(n, tokens) =>
      var patch := Patch(t.snap, tokens, env.now);
      if env.now < sh.clock then Stuck
      else Go(sh.(clock := env.now), t, CredentialsRead(n, patch))
    case CredentialsRead(n, patch) =>
      if !PatchOk(patch) || sh.row.status == DELETED || sh.row.authMethod != patch.authMethod
      then Go(sh, t, Leave(n, StoreFailed))
      else Go(sh, t, CredentialsWrite(n, patch))
    case CredentialsWrite(n, patch) =>
      if !RowTakes(sh.row, patch, quantum) || patch.lastRefresh.None? || patch.accessExpiresAt.None?
      then Go(sh, t, CredentialsMiss(n))
      else
        Go(sh.(row := WithCredentials(sh.row, patch, quantum), issued := sh.issued + [Issued(patch)],
               replaced := sh.replaced + [(t.version, Current(sh))]),
           t, Leave(n, Refreshed(patch.accessToken)))
    case CredentialsMiss(n) =>
      Go(sh, t, Leave(n, if sh.row.status == DELETED then StoreFailed else RefreshConflict))
    case Disable(n) =>
      if !RowIsCurrent(sh.row, t.snap.lastRefresh.value, quantum) then Go(sh, t, DisableMiss(n))
      else
        Go(sh.(row := sh.row.(status := DISABLED), disabled := sh.disabled + [(t.version, Current(sh))]),
           t, Leave(n, Rejected))
    case DisableMiss(n) => Go(sh, t, Leave(n, RefreshConflict))  // rows are deleted only by status
    case Leave(n, r) => Go(sh.(flight := None, results := sh.results[n := r]), t, Answer(t, r))
    case _ => Stuck
  }

  function Next(sh: Shared, tid: Tid, t: Task, env: Env, quantum: int): Step
    requires quantum > 0 && sh.issued != []
    requires t.snap.lastRefresh.Some? && t.snap.accessExpiresAt.Some? && t.snap.accessToken.Some?
  {
    match t.pc
    case Check => CheckStep(sh, t, env)
    case Join =>
      if sh.flight.Some? then Go(sh, t, Wait(sh.flight.value.1))
      else Go(sh.(flight := Some((tid, sh.flights)), flights := sh.flights + 1), t, Ask(sh.flights))
    case Wait(n) => if n in sh.results then Go(sh, t, Answer(t, sh.results[n])) else Stuck
    case Reload =>
      if sh.row.status != ACTIVE then Go(sh, t, Done(NotActive))
      else Move(sh, t.(snap := sh.row, version := Current(sh), attempt := t.attempt + 1, pc := Check))
    case Done(_) => Stuck
    case _ => LeaderStep(sh, t, env, quantum)
  }

  // ---------------------------------------------------------------- the invariant

  /** acct shows credentials c, either as issued or as the store keeps them. */
  predicate Shows(acct: Account, c: Creds, quantum: int)
    requires quantum > 0
  {
    && OAuthShape(acct) && acct.accessToken == Some(c.access) && acct.refreshToken == Some(c.refresh)
    && ((acct.lastRefresh == Some(c.lastRefresh) && acct.accessExpiresAt == Some(c.expiresAt)) || Keeps(acct, c, quantum))
  }

  predicate Keeps(acct: Account, c: Creds, quantum: int)
    requires quantum > 0
  {
    acct.lastRefresh == Some(Trunc(c.lastRefresh, quantum)) && acct.accessExpiresAt == Some(Trunc(c.expiresAt, quantum))
  }

  predicate Leading(pc: Pc) {
    pc.Ask? || pc.Stamp? || pc.CredentialsRead? || pc.CredentialsWrite? || pc.CredentialsMiss?
    || pc.Disable? || pc.DisableMiss? || pc.Leave?
  }

  predicate IssuedHere(issued: seq<Creds>, r: Result) {
    r.Token? || r.Refreshed? || r.Fallback? ==> exists v :: 0 <= v < |issued| && issued[v].access == r.access
  }

  predicate Increasing(issued: seq<Creds>, quantum: int)
    requires quantum > 0
  {
    forall i, j :: 0 <= i < j < |issued| ==> Trunc(issued[i].lastRefresh, quantum) < Trunc(issued[j].lastRefresh, quantum)
  }

  predicate AllDurable(issued: seq<Creds>, quantum: int)
    requires quantum > 0
  {
    forall v :: 0 <= v < |issued| ==> Durable(issued[v], quantum)
  }

  /** Two versions have the same last_refresh in the column. */
  predicate SameStamp(issued: seq<Creds>, v: nat, w: nat, quantum: int)
    requires quantum > 0 && v < |issued| && w < |issued|
  {
    Trunc(issued[v].lastRefresh, quantum) == Trunc(issued[w].lastRefresh, quantum)
  }

  /** Each write hit credentials with the same last_refresh as those its snapshot showed. */
  predicate Stamped(pairs: seq<(nat, nat)>, issued: seq<Creds>, quantum: int)
    requires quantum > 0
  {
    forall i :: 0 <= i < |pairs| ==>
      pairs[i].0 < |issued| && pairs[i].1 < |issued| && SameStamp(issued, pairs[i].0, pairs[i].1, quantum)
  }

  /** Each write hit exactly the credentials its snapshot showed. */
  predicate Matched(pairs: seq<(nat, nat)>) { forall i :: 0 <= i < |pairs| ==> pairs[i].0 == pairs[i].1 }

  predicate SharedOk(sh: Shared, quantum: int)
    requires quantum > 0
  {
    && sh.issued != []
    && Shows(sh.row, sh.issued[Current(sh)], quantum) && Keeps(sh.row, sh.issued[Current(sh)], quantum)
    && Stamped(sh.replaced, sh.issued, quantum) && Stamped(sh.disabled, sh.issued, quantum)
    && (AllDurable(sh.issued, quantum) ==>
          Increasing(sh.issued, quantum) && Matched(sh.replaced) && Matched(sh.disabled))
    && (forall n :: n in sh.results ==> IssuedHere(sh.issued, sh.results[n]))
    && (sh.flight.Some? ==> sh.flight.value.1 < sh.flights)
  }

  /** The patch replaces credentials c, by strictly later ones if c is durable. */
  predicate PatchFollows(sh: Shared, snap: Account, c: Creds, p: CredentialPatch, quantum: int)
    requires quantum > 0
  {
    && OAuthMethod(p.authMethod) && p.expectedLastRefresh == snap.lastRefresh
    && p.lastRefresh.Some? && p.accessExpiresAt.Some? && p.lastRefresh.value <= sh.clock
    && (Durable(c, quantum) ==> Trunc(c.lastRefresh, quantum) < Trunc(p.lastRefresh.value, quantum))
  }

  predicate TaskOk(sh: Shared, tid: Tid, t: Task, quantum: int)
    requires quantum > 0
  {
    && t.version < |sh.issued| && Shows(t.snap, sh.issued[t.version], quantum)
    && t.attempt <= 1 && t.calls <= t.attempt + 1
    && (t.pc.Check? || t.pc.Join? || t.pc.Ask? ==> t.calls <= t.attempt)
    && (t.pc.Reload? ==> t.attempt == 0)
    && (Leading(t.pc) ==> sh.flight == Some((tid, t.pc.flight)))
    && (t.pc.Join? || t.pc.Wait? || Leading(t.pc) ==>
          (Durable(sh.issued[t.version], quantum) ==>
             Trunc(sh.issued[t.version].lastRefresh, quantum) < Trunc(sh.clock, quantum)))
    && (t.pc.CredentialsRead? || t.pc.CredentialsWrite? ==>
          PatchFollows(sh, t.snap, sh.issued[t.version], t.pc.patch, quantum))
    && (t.pc.CredentialsWrite? ==> PatchOk(t.pc.patch))
    && (t.pc.Leave? || t.pc.Done? ==> IssuedHere(sh.issued, t.pc.result))
  }

  // ---------------------------------------------------------------- time

  lemma TruncOrder(s: int, t: int, quantum: int)
    requires quantum > 0 && s <= t
    ensures Trunc(s, quantum) <= Trunc(t, quantum)
  {
    var a, b := s / quantum, t / quantum;
    assert Trunc(s, quantum) == quantum * a && Trunc(t, quantum) == quantum * b;
    hide Trunc;
    assert quantum * (b + 1) == quantum * b + quantum;
    MulOrder(quantum, a, b + 1);
    MulOrder(quantum, b, a);
  }

  lemma NextMultiple(base: int, t: int, quantum: int)
    requires quantum > 0 && base % quantum == 0 && t >= base + quantum
    ensures Trunc(t, quantum) > base
  {
    TruncOrder(base + quantum, t, quantum);
    var k := base / quantum;
    assert base == quantum * k && base + quantum == quantum * (k + 1);
    MultipleOf(k + 1, quantum);
  }

  lemma TruncIsMultiple(t: int, quantum: int)
    requires quantum > 0
    ensures Trunc(t, quantum) % quantum == 0
  {
    assert Trunc(t, quantum) == quantum * (t / quantum);
    MultipleOf(t / quantum, quantum);
  }

  /** Exactly when every instant at which a snapshot is stale lies in a later unit of the column than
      its last_refresh, so that a refresh stores a strictly larger one. */
  lemma SafeExactly(lastRefresh: int, expiresAt: int, quantum: int)
    requires quantum > 0 && lastRefresh <= expiresAt
    ensures Safe(lastRefresh, expiresAt, quantum) <==>
            forall now :: now > RefreshAfter(lastRefresh, expiresAt) ==> Trunc(now, quantum) > Trunc(lastRefresh, quantum)
  {
    var base := Trunc(lastRefresh, quantum);
    TruncIsMultiple(lastRefresh, quantum);
    var soon := RefreshAfter(lastRefresh, expiresAt) + 1;
    if Safe(lastRefresh, expiresAt, quantum) {
      forall now | now > RefreshAfter(lastRefresh, expiresAt) ensures Trunc(now, quantum) > base {
        NextMultiple(base, now, quantum);
      }
    } else {
      SameUnit(base, soon, quantum);
      assert !(Trunc(soon, quantum) > base);
    }
  }

  /** Durable credentials are safe as issued, too: a snapshot of either kind is stale only in a later
      unit. */
  lemma StaleIsLater(c: Creds, lastRefresh: int, expiresAt: int, now: int, quantum: int)
    requires quantum > 0 && Durable(c, quantum) && lastRefresh <= expiresAt
    requires (lastRefresh, expiresAt) == (c.lastRefresh, c.expiresAt)
             || (lastRefresh, expiresAt) == (Trunc(c.lastRefresh, quantum), Trunc(c.expiresAt, quantum))
    ensures now > RefreshAfter(lastRefresh, expiresAt) ==> Trunc(now, quantum) > Trunc(c.lastRefresh, quantum)
  {
    var base := Trunc(c.lastRefresh, quantum);
    TruncIsMultiple(c.lastRefresh, quantum);
    TruncTwice(c.lastRefresh, quantum);
    TruncOrder(lastRefresh, expiresAt, quantum);
    TruncTwice(c.expiresAt, quantum);
    if now > RefreshAfter(lastRefresh, expiresAt) {
      assert RefreshAfter(lastRefresh, expiresAt) >= RefreshAfter(base, Trunc(c.expiresAt, quantum));
      NextMultiple(base, now, quantum);
    }
  }

  /** A stored lifetime of two units of the column's resolution is enough. */
  lemma TwoUnitsAreEnough(c: Creds, quantum: int)
    requires quantum > 0 && Trunc(c.expiresAt, quantum) - Trunc(c.lastRefresh, quantum) >= 2 * quantum
    ensures Durable(c, quantum)
  {
    TruncTwice(c.lastRefresh, quantum);
  }

  /** At full resolution every lifetime is enough, a negative one because it is refused. */
  lemma ExactColumnsNeedNothing(c: Creds)
    ensures Durable(c, 1)
  {
  }

  /** A refresh always increases the stored last_refresh exactly when the stored lifetime falls short of
      two units by at most two instants: with exact columns always, with columns coarser than two
      instants, whose lifetimes are whole units, from two units on. */
  lemma StrictlyIncreasesExactly(lastRefresh: int, expiresAt: int, quantum: int)
    requires quantum > 0 && lastRefresh % quantum == 0 && lastRefresh <= expiresAt
    ensures (forall now :: now > RefreshAfter(lastRefresh, expiresAt) ==> Trunc(now, quantum) > lastRefresh)
            <==> expiresAt - lastRefresh >= 2 * quantum - 2
  {
    SafeExactly(lastRefresh, expiresAt, quantum);
  }

  lemma FewMultiples(a: int, b: int, quantum: int)
    requires quantum > 0 && a % quantum == 0 && b % quantum == 0 && a <= b < a + 2 * quantum
    ensures b == a || b == a + quantum
  {
    var i, j := a / quantum, b / quantum;
    assert a == quantum * i && b == quantum * j;
    assert quantum * (i + 2) == a + 2 * quantum && quantum * (i + 1) == a + quantum;
    MulOrder(quantum, j, i);
    MulOrder(quantum, j, i + 2);
  }

  lemma SameUnit(base: int, t: int, quantum: int)
    requires quantum > 0 && base % quantum == 0 && base <= t < base + quantum
    ensures Trunc(t, quantum) == base
  {
    TruncOrder(base, t, quantum);
    TruncIsMultiple(t, quantum);
    FewMultiples(base, Trunc(t, quantum), quantum);
  }
}
