/** What a stale snapshot can do when credentials live for less than the column's resolution needs. */
module RefreshRuns {
  import opened Arithmetic
  import opened Wrappers
  import opened AccountShape
  import opened AccountStore
  import opened TokenRefresh
  import opened RefreshSafety

  ghost predicate Reaches(from: System, s: System, quantum: int)
    requires quantum > 0 && Inv(from, quantum)
  {
    exists moves :: s == Run(from, moves, quantum)
  }

  lemma ReachesSelf(s: System, quantum: int)
    requires quantum > 0 && Inv(s, quantum)
    ensures Reaches(s, s, quantum)
  {
    assert Run(s, [], quantum) == s;
  }

  lemma {:induction false} RunAppend(s: System, moves: seq<Action>, m: Action, quantum: int)
    requires quantum > 0 && Inv(s, quantum)
    ensures Inv(Run(s, moves, quantum), quantum)
    ensures Run(s, moves + [m], quantum) == Apply(Run(s, moves, quantum), m, quantum)
    decreases |moves|
  {
    hide Apply, Inv;
    RunKeeps(s, moves, quantum);
    if moves == [] {
      assert moves + [m] == [m] && [m][1..] == [];
    } else {
      assert (moves + [m])[1..] == moves[1..] + [m];
      MoveKeeps(s, moves[0], quantum);
      RunAppend(Apply(s, moves[0], quantum), moves[1..], m, quantum);
    }
  }

  lemma ReachesNext(from: System, s: System, m: Action, quantum: int)
    requires quantum > 0 && Inv(from, quantum) && Reaches(from, s, quantum)
    ensures Inv(s, quantum) && Reaches(from, Apply(s, m, quantum), quantum)
  {
    hide Inv, Apply, Run;
    var moves :| s == Run(from, moves, quantum);
    RunAppend(from, moves, m, quantum);
  }

  /** Two calls on the row. */
  function Two(sh: Shared, t1: Task, t2: Task): System { System(sh, map[1 := t1, 2 := t2]) }

  /** A call that can take a step. */
  predicate CanStep(sh: Shared, t: Task) {
    sh.issued != [] && t.snap.lastRefresh.Some? && t.snap.accessExpiresAt.Some? && t.snap.accessToken.Some?
  }

  lemma FirstActs(from: System, sh: Shared, t1: Task, t2: Task, env: Env, sh2: Shared, next: Task, quantum: int)
    requires quantum > 0 && Inv(from, quantum) && Reaches(from, Two(sh, t1, t2), quantum)
    requires CanStep(sh, t1) && Next(sh, 1, t1, env, quantum) == Move(sh2, next)
    ensures Reaches(from, Two(sh2, next, t2), quantum)
  {
    hide Inv, Reaches, Next, TaskOk, SharedOk;
    ReachesNext(from, Two(sh, t1, t2), Act(1, env), quantum);
    assert Two(sh, t1, t2).tasks[1 := next] == Two(sh2, next, t2).tasks;
  }

  lemma SecondActs(from: System, sh: Shared, t1: Task, t2: Task, env: Env, sh2: Shared, next: Task, quantum: int)
    requires quantum > 0 && Inv(from, quantum) && Reaches(from, Two(sh, t1, t2), quantum)
    requires CanStep(sh, t2) && Next(sh, 2, t2, env, quantum) == Move(sh2, next)
    ensures Reaches(from, Two(sh2, t1, next), quantum)
  {
    hide Inv, Reaches, Next, TaskOk, SharedOk;
    ReachesNext(from, Two(sh, t1, t2), Act(2, env), quantum);
    assert Two(sh, t1, t2).tasks[2 := next] == Two(sh2, t1, next).tasks;
  }

  const TOKENS := "x"

  function Fresh(life: int): Tokens { Tokens(TOKENS, TOKENS, TOKENS, life) }

  function Start(row: Account, c: Creds, clock: int): Shared { Inserted(row, c, clock).sh }

  /** Both calls find the snapshot stale. */
  lemma BothJoin(row: Account, c: Creds, now: int, quantum: int)
    requires quantum > 0 && InsertOk(row, c, quantum) && row.lastRefresh.Some? && row.accessExpiresAt.Some?
    requires row.lastRefresh.value <= row.accessExpiresAt.value && now > RefreshAfter(row.lastRefresh.value, row.accessExpiresAt.value)
    ensures Inv(Inserted(row, c, now), quantum)
    ensures var snap := row.(status := ACTIVE);
            Reaches(Inserted(row, c, now), Two(Start(snap, c, now), Task(snap, 0, 0, 0, Join), Task(snap, 0, 0, 0, Join)), quantum)
  {
    InsertedOk(row, c, now, quantum);
    hide Inv, Reaches, SharedOk, TaskOk, Keeps;
    var from, snap, env := Inserted(row, c, now), row.(status := ACTIVE), Env(now, Transient);
    var sh := Start(snap, c, now);
    var check, join := Task(snap, 0, 0, 0, Check), Task(snap, 0, 0, 0, Join);
    ReachesSelf(from, quantum);
    ReachesNext(from, from, SetStatus(ACTIVE), quantum);
    ReachesNext(from, System(sh, map[]), Spawn(1, snap, 0), quantum);
    ReachesNext(from, System(sh, map[1 := check]), Spawn(2, snap, 0), quantum);
    assert map[1 := check][2 := check] == map[1 := check, 2 := check];
    FirstActs(from, sh, check, check, env, sh, join, quantum);
    SecondActs(from, sh, join, check, env, sh, join, quantum);
  }

  /** The first call stores fresh credentials and is done. */
  function Stored(snap: Account, c: Creds, now: int, life: int, quantum: int): Shared
    requires quantum > 0
  {
    var patch := Patch(snap, Fresh(life), now);
    Shared(WithCredentials(snap, patch, quantum), now, None, 1, map[0 := Refreshed(TOKENS)], [c, Issued(patch)], [(0, 0)], [])
  }

  lemma FirstStores(from: System, snap: Account, c: Creds, now: int, life: int, t2: Task, quantum: int)
    requires quantum > 0 && Inv(from, quantum) && OAuthShape(snap) && Keeps(snap, c, quantum) && snap.status == ACTIVE
    requires Reaches(from, Two(Start(snap, c, now), Task(snap, 0, 0, 0, Join), t2), quantum)
    ensures Reaches(from, Two(Stored(snap, c, now, life, quantum), Task(snap, 0, 0, 1, Done(Refreshed(TOKENS))), t2), quantum)
  {
    hide Inv, Reaches, WithCredentials, Durable, Trunc;
    TruncTwice(c.lastRefresh, quantum);
    var patch := Patch(snap, Fresh(life), now);
    var env := Env(now, Granted(Fresh(life)));
    var sh := Start(snap, c, now);
    var led := sh.(flight := Some((1, 0)), flights := 1);
    FirstActs(from, sh, Task(snap, 0, 0, 0, Join), t2, env, led, Task(snap, 0, 0, 0, Ask(0)), quantum);
    FirstActs(from, led, Task(snap, 0, 0, 0, Ask(0)), t2, env, led, Task(snap, 0, 0, 1, Stamp(0, Fresh(life))), quantum);
    FirstActs(from, led, Task(snap, 0, 0, 1, Stamp(0, Fresh(life))), t2, env, led, Task(snap, 0, 0, 1, CredentialsRead(0, patch)), quantum);
    assert PatchOk(patch) by { assert API_KEY[0] == 'a'; }
    FirstActs(from, led, Task(snap, 0, 0, 1, CredentialsRead(0, patch)), t2, env, led, Task(snap, 0, 0, 1, CredentialsWrite(0, patch)), quantum);
    var written := led.(row := WithCredentials(snap, patch, quantum), issued := [c, Issued(patch)], replaced := [(0, 0)]);
    assert [c] + [Issued(patch)] == [c, Issued(patch)];
    FirstActs(from, led, Task(snap, 0, 0, 1, CredentialsWrite(0, patch)), t2, env, written, Task(snap, 0, 0, 1, Leave(0, Refreshed(TOKENS))), quantum);
    FirstActs(from, written, Task(snap, 0, 0, 1, Leave(0, Refreshed(TOKENS))), t2, env, Stored(snap, c, now, life, quantum),
              Task(snap, 0, 0, 1, Done(Refreshed(TOKENS))), quantum);
  }

  /** The second call, whose refresh token is by now out of date and is rejected, disables the account
      that holds the fresh credentials. */
  lemma SecondDisables(from: System, snap: Account, c: Creds, now: int, life: int, t1: Task, quantum: int) returns (s: System)
    requires quantum > 0 && Inv(from, quantum) && OAuthShape(snap) && Keeps(snap, c, quantum) && snap.status == ACTIVE
    requires Trunc(now, quantum) == Trunc(c.lastRefresh, quantum)
    requires Reaches(from, Two(Stored(snap, c, now, life, quantum), t1, Task(snap, 0, 0, 0, Join)), quantum)
    ensures Reaches(from, s, quantum)
    ensures s.sh.issued == Stored(snap, c, now, life, quantum).issued && s.sh.disabled == [(0, 1)]
    ensures s.sh.row == Stored(snap, c, now, life, quantum).row.(status := DISABLED)
  {
    hide Inv, Reaches, Durable, Trunc;
    TruncTwice(c.lastRefresh, quantum);
    assert snap.authMethod != API_KEY by { assert API_KEY[0] == 'a'; }
    var env := Env(now, Permanent);
    var sh := Stored(snap, c, now, life, quantum);
    var led := sh.(flight := Some((2, 1)), flights := 2);
    SecondActs(from, sh, t1, Task(snap, 0, 0, 0, Join), env, led, Task(snap, 0, 0, 0, Ask(1)), quantum);
    SecondActs(from, led, t1, Task(snap, 0, 0, 0, Ask(1)), env, led, Task(snap, 0, 0, 1, Disable(1)), quantum);
    var off := led.(row := led.row.(status := DISABLED), disabled := [(0, 1)]);
    SecondActs(from, led, t1, Task(snap, 0, 0, 1, Disable(1)), env, off, Task(snap, 0, 0, 1, Leave(1, Rejected)), quantum);
    s := Two(off, t1, Task(snap, 0, 0, 1, Leave(1, Rejected)));
  }

  /** Everything issued after the inserted credentials is durable. */
  predicate LaterDurable(issued: seq<Creds>, quantum: int)
    requires quantum > 0
  {
    forall v :: 1 <= v < |issued| ==> Durable(issued[v], quantum)
  }

  /** No run of the row in which all later grants are durable replaces or disables newer credentials
      than a snapshot's. */
  ghost predicate Harmless(row: Account, c: Creds, quantum: int)
    requires quantum > 0 && InsertOk(row, c, quantum)
  {
    forall clock: int, s: System ::
      (InsertedOk(row, c, clock, quantum); Reaches(Inserted(row, c, clock), s, quantum)) && LaterDurable(s.sh.issued, quantum)
      ==> Matched(s.sh.replaced) && Matched(s.sh.disabled)
  }

  lemma TruncShift(t: int, k: int, quantum: int)
    requires quantum > 0
    ensures Trunc(t + quantum * k, quantum) == Trunc(t, quantum) + quantum * k
  {
    var q, r := t / quantum, t % quantum;
    assert t == quantum * q + r;
    assert quantum * (q + k) == quantum * q + quantum * k;
    DivUnique(t + quantum * k, quantum, q + k, r);
  }

  /** Credentials that are not durable, and a run in which an account that holds newer, durable ones is
      disabled because the refresh token of the older ones was rejected. */
  lemma StaleDisables(row: Account, c: Creds, quantum: int) returns (now: int, s: System)
    requires quantum > 0 && InsertOk(row, c, quantum) && !Durable(c, quantum)
    ensures Inv(Inserted(row, c, now), quantum) && Reaches(Inserted(row, c, now), s, quantum)
    ensures LaterDurable(s.sh.issued, quantum) && s.sh.disabled == [(0, 1)] && |s.sh.issued| == 2
    ensures s.sh.row.status == DISABLED && s.sh.row.refreshToken == Some(s.sh.issued[1].refresh)
  {
    var base, end := Trunc(c.lastRefresh, quantum), Trunc(c.expiresAt, quantum);
    now := RefreshAfter(base, end) + 1;
    TruncTwice(c.lastRefresh, quantum);
    TruncIsMultiple(c.lastRefresh, quantum);
    SameUnit(base, now, quantum);
    TruncShift(now, 4, quantum);
    hide Trunc, Reaches, Inv;
    var from, snap := Inserted(row, c, now), row.(status := ACTIVE);
    BothJoin(row, c, now, quantum);
    FirstStores(from, snap, c, now, 4 * quantum, Task(snap, 0, 0, 0, Join), quantum);
    s := SecondDisables(from, snap, c, now, 4 * quantum, Task(snap, 0, 0, 1, Done(Refreshed(TOKENS))), quantum);
    TwoUnitsAreEnough(s.sh.issued[1], quantum);
  }

  /** Stale snapshots are harmless in every run exactly when the inserted credentials are durable. */
  lemma SafeRunsExactly(row: Account, c: Creds, quantum: int)
    requires quantum > 0 && InsertOk(row, c, quantum)
    ensures Harmless(row, c, quantum) <==> Durable(c, quantum)
  {
    hide InsertOk, Inv, Reaches, Durable, LaterDurable;
    if Durable(c, quantum) {
      forall clock: int, s: System |
        (InsertedOk(row, c, clock, quantum); Reaches(Inserted(row, c, clock), s, quantum)) && LaterDurable(s.sh.issued, quantum)
        ensures Matched(s.sh.replaced) && Matched(s.sh.disabled)
      {
        ReachedIsSafe(row, c, clock, s, quantum);
      }
    } else {
      var now, s := StaleDisables(row, c, quantum);
      assert s.sh.disabled[0] == (0, 1) && !Matched(s.sh.disabled);
    }
  }

  lemma ReachedIsSafe(row: Account, c: Creds, clock: int, s: System, quantum: int)
    requires quantum > 0 && InsertOk(row, c, quantum) && Durable(c, quantum) && Inv(Inserted(row, c, clock), quantum)
    requires Reaches(Inserted(row, c, clock), s, quantum) && LaterDurable(s.sh.issued, quantum)
    ensures Matched(s.sh.replaced) && Matched(s.sh.disabled)
  {
    hide InsertOk, Inv, Run, Durable, Matched;
    var from := Inserted(row, c, clock);
    var moves :| s == Run(from, moves, quantum);
    RefreshIsSafe(row, c, clock, moves, quantum);
    FirstStays(from, moves, quantum);
  }

  /** The first credentials stay the first. */
  lemma {:induction false} FirstStays(s: System, moves: seq<Action>, quantum: int)
    requires quantum > 0 && Inv(s, quantum)
    ensures s.sh.issued <= Run(s, moves, quantum).sh.issued
    ensures s.sh.issued != []
    decreases |moves|
  {
    hide Trunc, TaskOk, SharedOk, Next, Shows;
    InvHasIssued(s, quantum);
    if moves != [] {
      MoveKeeps(s, moves[0], quantum);
      if moves[0].Act? && moves[0].tid in s.tasks {
        ActionKeeps(s.sh, moves[0].tid, s.tasks[moves[0].tid], moves[0].env, quantum);
      }
      FirstStays(Apply(s, moves[0], quantum), moves[1..], quantum);
    }
  }

  lemma InvHasIssued(s: System, quantum: int)
    requires quantum > 0 && Inv(s, quantum)
    ensures s.sh.issued != []
  {
  }

  // ---------------------------------------------------------------- expiry before last_refresh

  predicate Ordered(acct: Account) {
    acct.lastRefresh.Some? && acct.accessExpiresAt.Some? && acct.lastRefresh.value <= acct.accessExpiresAt.value
  }

  /** A call whose snapshot expires before its last_refresh is at its first test or has failed there. */
  predicate NotPast(t: Task) { !Ordered(t.snap) ==> t.pc == Check || t.pc == Done(BadExpiry) }

  predicate NonePast(s: System) { forall tid :: tid in s.tasks ==> NotPast(s.tasks[tid]) }

  lemma StepNotPast(sh: Shared, tid: Tid, t: Task, env: Env, quantum: int)
    requires quantum > 0 && CanStep(sh, t) && NotPast(t) && Next(sh, tid, t, env, quantum).Move?
    ensures NotPast(Next(sh, tid, t, env, quantum).task)
  {
    hide Trunc, RowTakes, RowIsCurrent, WithCredentials, PatchOk;
  }

  /** The row expires before its last_refresh, and no earlier credentials have the same last_refresh. */
  predicate Broken(s: System, quantum: int)
    requires quantum > 0
  {
    && !Ordered(s.sh.row) && s.sh.issued != []
    && forall v :: 0 <= v < Current(s.sh) ==> !SameStamp(s.sh.issued, v, Current(s.sh), quantum)
  }

  /** The current credentials break every snapshot that shows them. */
  lemma BrokenSnapshot(sh: Shared, snap: Account, quantum: int)
    requires quantum > 0 && SharedOk(sh, quantum) && !Ordered(sh.row)
    requires Shows(snap, sh.issued[Current(sh)], quantum)
    ensures !Ordered(snap)
  {
    hide Trunc, OAuthShape, IssuedHere, AllDurable, Stamped, Increasing, Matched;
    var c := sh.issued[Current(sh)];
    if c.lastRefresh <= c.expiresAt { TruncOrder(c.lastRefresh, c.expiresAt, quantum); }
  }

  /** b has the credentials of a; only the status of the row may differ. */
  predicate SameCredentials(a: Shared, b: Shared) {
    b.issued == a.issued && b.row == a.row.(status := b.row.status)
  }

  lemma BrokenWrite(s: System, tid: Tid, env: Env, quantum: int)
    requires quantum > 0 && Inv(s, quantum) && NonePast(s) && Broken(s, quantum) && tid in s.tasks
    requires s.tasks[tid].pc.CredentialsWrite?
    ensures CanStep(s.sh, s.tasks[tid]) && !RowTakes(s.sh.row, s.tasks[tid].pc.patch, quantum)
  {
    var t := s.tasks[tid];
    CallFacts(s, tid, quantum);
    SnapFacts(s.sh, tid, t, quantum);
    MatchIsStamp(s.sh, tid, t, quantum);
    WriteFacts(s.sh, tid, t, quantum);
    ShowsItsVersion(s.sh, tid, t, quantum);
    if t.version == Current(s.sh) { BrokenSnapshot(s.sh, t.snap, quantum); }
    hide Inv, SharedOk, TaskOk, Shows, RefreshMatches, Current, SameStamp, Ordered;
    assert NotPast(t);
  }

  lemma ShowsItsVersion(sh: Shared, tid: Tid, t: Task, quantum: int)
    requires quantum > 0 && TaskOk(sh, tid, t, quantum)
    ensures t.version < |sh.issued| && Shows(t.snap, sh.issued[t.version], quantum)
  {
    hide Shows, Trunc, Durable, PatchFollows, PatchOk, IssuedHere;
  }

  lemma StepSpares(sh: Shared, tid: Tid, t: Task, env: Env, quantum: int)
    requires quantum > 0 && CanStep(sh, t) && Next(sh, tid, t, env, quantum).Move?
    requires t.pc.CredentialsWrite? ==> !RowTakes(sh.row, t.pc.patch, quantum)
    ensures SameCredentials(sh, Next(sh, tid, t, env, quantum).sh)
  {
    hide Trunc, RowTakes, RowIsCurrent, WithCredentials, PatchOk;
  }

  lemma NonePastMove(s: System, m: Action, quantum: int)
    requires quantum > 0 && Inv(s, quantum) && NonePast(s)
    ensures NonePast(Apply(s, m, quantum))
  {
    if m.Act? && m.tid in s.tasks {
      ActionKeeps(s.sh, m.tid, s.tasks[m.tid], m.env, quantum);
      if Next(s.sh, m.tid, s.tasks[m.tid], m.env, quantum).Move? {
        StepNotPast(s.sh, m.tid, s.tasks[m.tid], m.env, quantum);
      }
    }
    hide SharedOk, TaskOk, Next, Ordered, Shows;
  }

  lemma BrokenMove(s: System, m: Action, quantum: int)
    requires quantum > 0 && Inv(s, quantum) && NonePast(s) && Broken(s, quantum)
    ensures SameCredentials(s.sh, Apply(s, m, quantum).sh) && Broken(Apply(s, m, quantum), quantum)
  {
    if m.Act? && m.tid in s.tasks {
      var t := s.tasks[m.tid];
      ActionKeeps(s.sh, m.tid, t, m.env, quantum);
      if t.pc.CredentialsWrite? { BrokenWrite(s, m.tid, m.env, quantum); }
      if Next(s.sh, m.tid, t, m.env, quantum).Move? { StepSpares(s.sh, m.tid, t, m.env, quantum); }
    }
    hide SharedOk, TaskOk, Next, Shows, SameStamp, NotPast;
  }

  lemma {:induction false} NonePastRun(s: System, moves: seq<Action>, quantum: int)
    requires quantum > 0 && Inv(s, quantum) && NonePast(s)
    ensures NonePast(Run(s, moves, quantum))
    decreases |moves|
  {
    hide Inv, Apply, NonePast;
    if moves != [] {
      MoveKeeps(s, moves[0], quantum);
      NonePastMove(s, moves[0], quantum);
      NonePastRun(Apply(s, moves[0], quantum), moves[1..], quantum);
    }
  }

  lemma {:induction false} BrokenRun(s: System, moves: seq<Action>, quantum: int)
    requires quantum > 0 && Inv(s, quantum) && NonePast(s) && Broken(s, quantum)
    ensures SameCredentials(s.sh, Run(s, moves, quantum).sh) && Broken(Run(s, moves, quantum), quantum)
    decreases |moves|
  {
    hide Inv, Apply, NonePast, Broken;
    if moves != [] {
      MoveKeeps(s, moves[0], quantum);
      NonePastMove(s, moves[0], quantum);
      BrokenMove(s, moves[0], quantum);
      BrokenRun(Apply(s, moves[0], quantum), moves[1..], quantum);
    }
  }

  /** Nothing repairs a row that expires before its last_refresh, unless a call with older credentials of
      the same last_refresh is still under way: whatever follows, the row keeps its credentials, and every
      call with a snapshot of them ends in the error on its expiry without asking the provider. */
  lemma BrokenForGood(row: Account, c: Creds, clock: int, before: seq<Action>, after: seq<Action>, quantum: int)
    requires quantum > 0 && InsertOk(row, c, quantum)
    ensures Inv(Inserted(row, c, clock), quantum) && Inv(Run(Inserted(row, c, clock), before, quantum), quantum)
    ensures var s := Run(Inserted(row, c, clock), before, quantum);
            Broken(s, quantum) ==>
              var e := Run(s, after, quantum);
              && SameCredentials(s.sh, e.sh) && e.sh.issued != []
              && (forall tid :: tid in e.tasks && e.tasks[tid].version == Current(e.sh) ==>
                    e.tasks[tid].pc == Check || e.tasks[tid].pc == Done(BadExpiry))
  {
    hide InsertOk, Inv, Run, Broken, NotPast, Shows;
    InsertedOk(row, c, clock, quantum);
    RunKeeps(Inserted(row, c, clock), before, quantum);
    var s := Run(Inserted(row, c, clock), before, quantum);
    NonePastRun(Inserted(row, c, clock), before, quantum);
    if Broken(s, quantum) {
      BrokenRun(s, after, quantum);
      NonePastRun(s, after, quantum);
      RunKeeps(s, after, quantum);
      var e := Run(s, after, quantum);
      BrokenFacts(e, quantum);
    }
  }

  lemma BrokenFacts(e: System, quantum: int)
    requires quantum > 0 && Inv(e, quantum) && NonePast(e) && Broken(e, quantum)
    ensures e.sh.issued != []
    ensures forall tid :: tid in e.tasks && e.tasks[tid].version == Current(e.sh) ==>
              e.tasks[tid].pc == Check || e.tasks[tid].pc == Done(BadExpiry)
  {
    hide SharedOk, TaskOk, Shows, SameStamp, Ordered;
    forall tid | tid in e.tasks && e.tasks[tid].version == Current(e.sh)
      ensures e.tasks[tid].pc == Check || e.tasks[tid].pc == Done(BadExpiry)
    {
      ShowsItsVersion(e.sh, tid, e.tasks[tid], quantum);
      BrokenSnapshot(e.sh, e.tasks[tid].snap, quantum);
      assert NotPast(e.tasks[tid]);
    }
  }

  // ---------------------------------------------------------------- a lifetime that wraps

  const SECOND := 1_000_000_000

  function Wrap64(x: int): int { (x + 0x8000_0000_0000_0000) % 0x1_0000_0000_0000_0000 - 0x8000_0000_0000_0000 }

  /** The lifetime of a grant in 64-bit nanoseconds. */
  function Lifetime(expiresIn: int): int { Wrap64(expiresIn * SECOND) }

  const TOO_LONG := 9_223_372_037

  /** A grant lives as long as it says exactly if it says less than about 292 years; a second more, and it
      has expired before it was granted. */
  lemma LifetimeWraps(expiresIn: int)
    requires 0 <= expiresIn < 0x8000_0000_0000_0000
    ensures Lifetime(expiresIn) == expiresIn * SECOND <==> expiresIn < TOO_LONG
    ensures Lifetime(TOO_LONG) < -SECOND
  {
  }

  /** A refresh, too, can leave the row beyond repair: the provider grants a lifetime that wraps. */
  lemma RefreshedCanBreak(row: Account, c: Creds, quantum: int) returns (now: int, s: System)
    requires 0 < quantum <= SECOND && InsertOk(row, c, quantum) && Ordered(row)
    ensures Inv(Inserted(row, c, now), quantum) && Reaches(Inserted(row, c, now), s, quantum)
    ensures |s.sh.issued| == 2 && s.sh.issued[1].expiresAt == now + Lifetime(TOO_LONG) && Broken(s, quantum)
  {
    var base, end := Trunc(c.lastRefresh, quantum), Trunc(c.expiresAt, quantum);
    var life := Lifetime(TOO_LONG);
    LifetimeWraps(0);
    now := end + quantum;
    TruncTwice(c.lastRefresh, quantum);
    TruncIsMultiple(c.lastRefresh, quantum);
    NextMultiple(base, now, quantum);
    TruncShift(now, -1, quantum);
    TruncOrder(now + life, now + quantum * -1, quantum);
    hide Trunc, Reaches, Inv, Lifetime;
    var from, snap := Inserted(row, c, now), row.(status := ACTIVE);
    BothJoin(row, c, now, quantum);
    var idle := Task(snap, 0, 0, 0, Join);
    FirstStores(from, snap, c, now, life, idle, quantum);
    s := Two(Stored(snap, c, now, life, quantum), Task(snap, 0, 0, 1, Done(Refreshed(TOKENS))), idle);
    assert snap.authMethod != API_KEY by { assert API_KEY[0] == 'a'; }
  }
}
