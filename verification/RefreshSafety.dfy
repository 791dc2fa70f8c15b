/** What concurrent refreshes of one row keep, over every interleaving and for snapshots of any age. */
module RefreshSafety {
  import opened Wrappers
  import opened AccountShape
  import opened AccountStore
  import opened TokenRefresh

  // ---------------------------------------------------------------- one step

  /** How a step may change what the others rely on. */
  predicate Later(a: Shared, b: Shared, tid: Tid, quantum: int)
    requires quantum > 0
  {
    && a.issued <= b.issued && Trunc(a.clock, quantum) <= Trunc(b.clock, quantum) && a.clock <= b.clock
    && (a.flight != b.flight ==> a.flight == None || a.flight.value.0 == tid)
  }

  predicate StepOk(sh: Shared, tid: Tid, step: Step, quantum: int)
    requires quantum > 0
  {
    step.Move? ==>
      SharedOk(step.sh, quantum) && TaskOk(step.sh, tid, step.task, quantum) && Later(sh, step.sh, tid, quantum)
  }

  lemma SnapFacts(sh: Shared, tid: Tid, t: Task, quantum: int)
    requires quantum > 0 && TaskOk(sh, tid, t, quantum)
    ensures t.snap.lastRefresh.Some? && t.snap.accessExpiresAt.Some? && t.snap.accessToken.Some?
  {
  }

  /** The store finds the snapshot's last_refresh exactly when the snapshot's version and the stored one
      have the same. */
  lemma MatchIsStamp(sh: Shared, tid: Tid, t: Task, quantum: int)
    requires quantum > 0 && SharedOk(sh, quantum) && TaskOk(sh, tid, t, quantum)
    ensures t.snap.lastRefresh.Some?
    ensures RefreshMatches(sh.row, t.snap.lastRefresh.value, quantum) <==> SameStamp(sh.issued, t.version, Current(sh), quantum)
  {
    hide Trunc, OAuthShape, IssuedHere, PatchFollows, PatchOk, AllDurable, Stamped;
    TruncTwice(sh.issued[t.version].lastRefresh, quantum);
  }

  /** Among durable credentials, versions with the same last_refresh are the same. */
  lemma StampIsVersion(issued: seq<Creds>, v: nat, w: nat, quantum: int)
    requires quantum > 0 && Increasing(issued, quantum) && v < |issued| && w < |issued| && SameStamp(issued, v, w, quantum)
    ensures v == w
  {
    hide Trunc;
  }

  lemma CheckOk(sh: Shared, tid: Tid, t: Task, env: Env, quantum: int)
    requires quantum > 0 && SharedOk(sh, quantum) && TaskOk(sh, tid, t, quantum) && t.pc.Check?
    ensures StepOk(sh, tid, CheckStep(sh, t, env), quantum)
  {
    hide Trunc, OAuthShape, PatchFollows, PatchOk, Increasing, Durable, AllDurable, Stamped, Matched;
    var c := sh.issued[t.version];
    var lastRefresh, expiresAt := t.snap.lastRefresh.value, t.snap.accessExpiresAt.value;
    if Durable(c, quantum) && lastRefresh <= expiresAt { StaleIsLater(c, lastRefresh, expiresAt, env.now, quantum); }
    if env.now >= sh.clock { TruncOrder(sh.clock, env.now, quantum); }
    assert IssuedHere(sh.issued, Token(c.access));
  }

  /** Credentials that follow the current ones extend the history. */
  lemma Extends(issued: seq<Creds>, c: Creds, quantum: int)
    requires quantum > 0 && issued != [] && Increasing(issued, quantum)
    requires Trunc(issued[|issued| - 1].lastRefresh, quantum) < Trunc(c.lastRefresh, quantum)
    ensures Increasing(issued + [c], quantum)
  {
    hide Trunc;
  }

  lemma DurablePrefix(issued: seq<Creds>, c: Creds, quantum: int)
    requires quantum > 0
    ensures AllDurable(issued + [c], quantum) ==> AllDurable(issued, quantum)
  {
    hide Durable;
    assert forall v :: 0 <= v < |issued| ==> (issued + [c])[v] == issued[v];
  }

  /** A write that found the snapshot's last_refresh joins the history. */
  lemma StampJoins(pairs: seq<(nat, nat)>, issued: seq<Creds>, more: seq<Creds>, v: nat, w: nat, quantum: int)
    requires quantum > 0 && Stamped(pairs, issued, quantum) && v < |issued| && w < |issued| && SameStamp(issued, v, w, quantum)
    ensures Stamped(pairs + [(v, w)], issued + more, quantum) && Stamped(pairs, issued + more, quantum)
  {
    hide Trunc;
  }

  lemma WrittenRow(row: Account, p: CredentialPatch, quantum: int)
    requires quantum > 0 && OAuthShape(row) && PatchOk(p) && OAuthMethod(p.authMethod)
    requires p.lastRefresh.Some? && p.accessExpiresAt.Some?
    ensures Shows(WithCredentials(row, p, quantum), Issued(p), quantum) && Keeps(WithCredentials(row, p, quantum), Issued(p), quantum)
  {
    assert p.authMethod[0] == 'o' && API_KEY[0] == 'a';
  }

  /** A result issued before stays issued. */
  lemma StillIssued(sh: Shared, after: Shared, r: Result)
    requires IssuedHere(sh.issued, r) && sh.issued <= after.issued
    ensures IssuedHere(after.issued, r)
  {
    if r.Token? || r.Refreshed? || r.Fallback? {
      var v :| 0 <= v < |sh.issued| && sh.issued[v].access == r.access;
      assert after.issued[v].access == r.access;
    }
  }

  lemma WriteOk(sh: Shared, tid: Tid, t: Task, env: Env, quantum: int)
    requires quantum > 0 && SharedOk(sh, quantum) && TaskOk(sh, tid, t, quantum) && t.pc.CredentialsWrite?
    ensures StepOk(sh, tid, LeaderStep(sh, t, env, quantum), quantum)
  {
    SnapFacts(sh, tid, t, quantum);
    MatchIsStamp(sh, tid, t, quantum);
    hide Trunc, OAuthShape, Durable, IssuedHere, PatchOk, WithCredentials, Increasing, Keeps, AllDurable, Stamped, SameStamp;
    var step := LeaderStep(sh, t, env, quantum);
    if RowTakes(sh.row, t.pc.patch, quantum) {
      var c := Issued(t.pc.patch);
      WrittenRow(sh.row, t.pc.patch, quantum);
      DurablePrefix(sh.issued, c, quantum);
      StampJoins(sh.replaced, sh.issued, [c], t.version, Current(sh), quantum);
      DisabledStays(sh, c, quantum);
      if AllDurable(sh.issued, quantum) {
        StampIsVersion(sh.issued, t.version, Current(sh), quantum);
        IsDurable(sh.issued, t.version, quantum);
        Extends(sh.issued, c, quantum);
      }
      forall n | n in sh.results ensures IssuedHere(step.sh.issued, sh.results[n]) { StillIssued(sh, step.sh, sh.results[n]); }
      assert IssuedHere(step.sh.issued, Refreshed(t.pc.patch.accessToken)) by { LastIsIssued(step.sh); }
    }
  }

  lemma IsDurable(issued: seq<Creds>, v: nat, quantum: int)
    requires quantum > 0 && AllDurable(issued, quantum) && v < |issued|
    ensures Durable(issued[v], quantum)
  {
  }

  lemma DisabledStays(sh: Shared, c: Creds, quantum: int)
    requires quantum > 0 && Stamped(sh.disabled, sh.issued, quantum)
    ensures Stamped(sh.disabled, sh.issued + [c], quantum)
  {
    hide Trunc;
  }

  lemma LastIsIssued(sh: Shared)
    requires sh.issued != []
    ensures IssuedHere(sh.issued, Refreshed(sh.issued[Current(sh)].access))
  {
    assert sh.issued[Current(sh)].access == Refreshed(sh.issued[Current(sh)].access).access;
  }

  lemma DisableOk(sh: Shared, tid: Tid, t: Task, env: Env, quantum: int)
    requires quantum > 0 && SharedOk(sh, quantum) && TaskOk(sh, tid, t, quantum) && t.pc.Disable?
    ensures StepOk(sh, tid, LeaderStep(sh, t, env, quantum), quantum)
  {
    SnapFacts(sh, tid, t, quantum);
    MatchIsStamp(sh, tid, t, quantum);
    hide Trunc, Durable, PatchOk, Increasing, PatchFollows, AllDurable, Stamped, SameStamp, IssuedHere;
    if RowIsCurrent(sh.row, t.snap.lastRefresh.value, quantum) {
      StampJoins(sh.disabled, sh.issued, [], t.version, Current(sh), quantum);
      assert sh.issued + [] == sh.issued;
      if AllDurable(sh.issued, quantum) { StampIsVersion(sh.issued, t.version, Current(sh), quantum); }
    }
  }

  lemma StampOk(sh: Shared, tid: Tid, t: Task, env: Env, quantum: int)
    requires quantum > 0 && SharedOk(sh, quantum) && TaskOk(sh, tid, t, quantum) && t.pc.Stamp?
    ensures StepOk(sh, tid, LeaderStep(sh, t, env, quantum), quantum)
  {
    SnapFacts(sh, tid, t, quantum);
    hide Trunc, Durable, PatchOk, Increasing, IssuedHere, Keeps, AllDurable, Stamped, Matched;
    var step := LeaderStep(sh, t, env, quantum);
    if step.Move? {
      TruncOrder(sh.clock, env.now, quantum);
      forall n | n in sh.results ensures IssuedHere(step.sh.issued, sh.results[n]) { StillIssued(sh, step.sh, sh.results[n]); }
    }
  }

  lemma AskOk(sh: Shared, tid: Tid, t: Task, env: Env, quantum: int)
    requires quantum > 0 && SharedOk(sh, quantum) && TaskOk(sh, tid, t, quantum)
    requires t.pc.Ask? || t.pc.CredentialsRead? || t.pc.CredentialsMiss? || t.pc.DisableMiss?
    ensures StepOk(sh, tid, LeaderStep(sh, t, env, quantum), quantum)
  {
    hide Trunc, Durable, PatchOk, Increasing, SharedOk, PatchFollows, Keeps, RowTakes, RowIsCurrent, WithCredentials;
    assert IssuedHere(sh.issued, Fallback(sh.issued[t.version].access));
  }

  /** A step that leaves the row and its history alone. */
  lemma FlightOnly(sh: Shared, after: Shared, quantum: int)
    requires quantum > 0 && SharedOk(sh, quantum)
    requires after == sh.(flight := after.flight, flights := after.flights, results := after.results)
    requires after.flight.Some? ==> after.flight.value.1 < after.flights
    requires forall n :: n in after.results ==> IssuedHere(sh.issued, after.results[n])
    ensures SharedOk(after, quantum)
  {
    hide Trunc, Increasing, IssuedHere, Shows, Keeps, AllDurable, Stamped, Matched;
  }

  /** What a step may use of the shared state without its history. */
  lemma FlightFacts(sh: Shared, quantum: int)
    requires quantum > 0 && SharedOk(sh, quantum)
    ensures sh.issued != [] && (sh.flight.Some? ==> sh.flight.value.1 < sh.flights)
    ensures forall n :: n in sh.results ==> IssuedHere(sh.issued, sh.results[n])
  {
    hide Trunc, Increasing, IssuedHere, Shows, Keeps, AllDurable, Stamped, Matched;
  }

  lemma LeaveOk(sh: Shared, tid: Tid, t: Task, env: Env, quantum: int)
    requires quantum > 0 && SharedOk(sh, quantum) && TaskOk(sh, tid, t, quantum) && t.pc.Leave?
    ensures StepOk(sh, tid, LeaderStep(sh, t, env, quantum), quantum)
  {
    SnapFacts(sh, tid, t, quantum);
    FlightFacts(sh, quantum);
    hide Trunc, Durable, PatchOk, IssuedHere, PatchFollows, Shows, RowTakes, RowIsCurrent, SharedOk;
    FlightOnly(sh, LeaderStep(sh, t, env, quantum).sh, quantum);
  }

  lemma JoinOk(sh: Shared, tid: Tid, t: Task, env: Env, quantum: int)
    requires quantum > 0 && SharedOk(sh, quantum) && TaskOk(sh, tid, t, quantum) && t.pc.Join?
    ensures t.snap.lastRefresh.Some? && t.snap.accessExpiresAt.Some? && t.snap.accessToken.Some? && sh.issued != []
    ensures StepOk(sh, tid, Next(sh, tid, t, env, quantum), quantum)
  {
    SnapFacts(sh, tid, t, quantum);
    FlightFacts(sh, quantum);
    hide Trunc, Durable, PatchOk, IssuedHere, PatchFollows, LeaderStep, CheckStep, Shows, SharedOk;
    FlightOnly(sh, Next(sh, tid, t, env, quantum).sh, quantum);
  }

  lemma WaitOk(sh: Shared, tid: Tid, t: Task, env: Env, quantum: int)
    requires quantum > 0 && SharedOk(sh, quantum) && TaskOk(sh, tid, t, quantum) && t.pc.Wait?
    ensures t.snap.lastRefresh.Some? && t.snap.accessExpiresAt.Some? && t.snap.accessToken.Some? && sh.issued != []
    ensures StepOk(sh, tid, Next(sh, tid, t, env, quantum), quantum)
  {
    SnapFacts(sh, tid, t, quantum);
    hide Trunc, Durable, PatchOk, Increasing, PatchFollows, LeaderStep, CheckStep, Keeps, Shows, AllDurable, Stamped, Matched, IssuedHere;
    var step := Next(sh, tid, t, env, quantum);
    if step.Move? {
      forall n | n in sh.results ensures IssuedHere(step.sh.issued, sh.results[n]) { StillIssued(sh, step.sh, sh.results[n]); }
    }
  }

  lemma ReloadOk(sh: Shared, tid: Tid, t: Task, env: Env, quantum: int)
    requires quantum > 0 && SharedOk(sh, quantum) && TaskOk(sh, tid, t, quantum) && t.pc.Reload?
    ensures t.snap.lastRefresh.Some? && t.snap.accessExpiresAt.Some? && t.snap.accessToken.Some? && sh.issued != []
    ensures StepOk(sh, tid, Next(sh, tid, t, env, quantum), quantum)
  {
    SnapFacts(sh, tid, t, quantum);
    hide Trunc, Durable, PatchOk, Increasing, PatchFollows, LeaderStep, CheckStep, Keeps, Shows, AllDurable, Stamped, Matched;
    var step := Next(sh, tid, t, env, quantum);
    if step.Move? {
      forall n | n in sh.results ensures IssuedHere(step.sh.issued, sh.results[n]) { StillIssued(sh, step.sh, sh.results[n]); }
    }
  }

  lemma ActionKeeps(sh: Shared, tid: Tid, t: Task, env: Env, quantum: int)
    requires quantum > 0 && SharedOk(sh, quantum) && TaskOk(sh, tid, t, quantum)
    ensures t.snap.lastRefresh.Some? && t.snap.accessExpiresAt.Some? && t.snap.accessToken.Some? && sh.issued != []
    ensures StepOk(sh, tid, Next(sh, tid, t, env, quantum), quantum)
  {
    SnapFacts(sh, tid, t, quantum);
    hide TaskOk, StepOk, LeaderStep, CheckStep, Answer;
    if t.pc.Check? { CheckOk(sh, tid, t, env, quantum); }
    else if t.pc.Join? { JoinOk(sh, tid, t, env, quantum); }
    else if t.pc.Wait? { WaitOk(sh, tid, t, env, quantum); }
    else if t.pc.Reload? { ReloadOk(sh, tid, t, env, quantum); }
    else if t.pc.CredentialsWrite? { WriteOk(sh, tid, t, env, quantum); }
    else if t.pc.Disable? { DisableOk(sh, tid, t, env, quantum); }
    else if t.pc.Stamp? { StampOk(sh, tid, t, env, quantum); }
    else if t.pc.Leave? { LeaveOk(sh, tid, t, env, quantum); }
    else if t.pc.Done? { NoStep(sh, tid, quantum); }
    else { AskOk(sh, tid, t, env, quantum); }
  }

  lemma NoStep(sh: Shared, tid: Tid, quantum: int)
    requires quantum > 0
    ensures StepOk(sh, tid, Stuck, quantum)
  {
  }

  lemma Stable(a: Shared, b: Shared, tid: Tid, other: Tid, t: Task, quantum: int)
    requires quantum > 0 && Later(a, b, tid, quantum) && TaskOk(a, other, t, quantum) && tid != other
    ensures TaskOk(b, other, t, quantum)
  {
    hide Trunc, Shows, Durable, PatchOk, IssuedHere;
    if t.pc.Leave? || t.pc.Done? { StillIssued(a, b, t.pc.result); }
  }

  // ---------------------------------------------------------------- every run

  datatype System = System(sh: Shared, tasks: map<Tid, Task>)

  /** Spawn: a call of RefreshIfStale with a snapshot of any credentials the row has ever held.
      SetStatus: an admin enables, disables or deletes the account. */
  datatype Action =
    | Spawn(tid: Tid, snap: Account, version: nat)
    | Act(tid: Tid, env: Env)
    | SetStatus(status: string)

  predicate Inv(s: System, quantum: int)
    requires quantum > 0
  {
    SharedOk(s.sh, quantum) && forall tid :: tid in s.tasks ==> TaskOk(s.sh, tid, s.tasks[tid], quantum)
  }

  ghost function Apply(s: System, m: Action, quantum: int): System
    requires quantum > 0 && Inv(s, quantum)
  {
    match m
    case Spawn(tid, snap, version) =>
      if tid in s.tasks || version >= |s.sh.issued| || !Shows(snap, s.sh.issued[version], quantum) then s
      else s.(tasks := s.tasks[tid := Task(snap, version, 0, 0, Check)])
    case Act(tid, env) =>
      if tid !in s.tasks then s
      else
        ActionKeeps(s.sh, tid, s.tasks[tid], env, quantum);
        (match Next(s.sh, tid, s.tasks[tid], env, quantum)
         case Stuck => s
         case Move(sh, task) => System(sh, s.tasks[tid := task]))
    case SetStatus(status) => s.(sh := s.sh.(row := s.sh.row.(status := status)))
  }

  lemma MoveKeeps(s: System, m: Action, quantum: int)
    requires quantum > 0 && Inv(s, quantum)
    ensures Inv(Apply(s, m, quantum), quantum)
  {
    hide SharedOk, TaskOk, Next, Later, Shows;
    var after := Apply(s, m, quantum);
    match m
    case Spawn(tid, snap, version) => if after != s { SpawnOk(s.sh, tid, after.tasks[tid], quantum); }
    case Act(tid, env) =>
      if tid in s.tasks {
        ActionKeeps(s.sh, tid, s.tasks[tid], env, quantum);
        if Next(s.sh, tid, s.tasks[tid], env, quantum).Move? {
          forall other | other in s.tasks && other != tid ensures TaskOk(after.sh, other, s.tasks[other], quantum) {
            Stable(s.sh, after.sh, tid, other, s.tasks[other], quantum);
          }
        }
      }
    case SetStatus(status) =>
      StatusOk(s.sh, status, quantum);
      forall tid | tid in s.tasks ensures TaskOk(after.sh, tid, s.tasks[tid], quantum) {
        Stable(s.sh, after.sh, tid + 1, tid, s.tasks[tid], quantum);
      }
  }

  lemma SpawnOk(sh: Shared, tid: Tid, t: Task, quantum: int)
    requires quantum > 0 && t.version < |sh.issued| && Shows(t.snap, sh.issued[t.version], quantum)
    requires t == Task(t.snap, t.version, 0, 0, Check)
    ensures TaskOk(sh, tid, t, quantum)
  {
    hide Shows;
  }

  lemma StatusOk(sh: Shared, status: string, quantum: int)
    requires quantum > 0 && SharedOk(sh, quantum)
    ensures SharedOk(sh.(row := sh.row.(status := status)), quantum)
    ensures forall tid :: Later(sh, sh.(row := sh.row.(status := status)), tid, quantum)
  {
    hide Trunc, Durable, Increasing, AllDurable, Stamped, Matched;
    var after := sh.(row := sh.row.(status := status));
    forall n | n in sh.results ensures IssuedHere(after.issued, sh.results[n]) { StillIssued(sh, after, sh.results[n]); }
  }

  ghost function Run(s: System, moves: seq<Action>, quantum: int): System
    requires quantum > 0 && Inv(s, quantum)
    decreases |moves|
  {
    if moves == [] then s
    else
      MoveKeeps(s, moves[0], quantum);
      Run(Apply(s, moves[0], quantum), moves[1..], quantum)
  }

  lemma {:induction false} RunKeeps(s: System, moves: seq<Action>, quantum: int)
    requires quantum > 0 && Inv(s, quantum)
    ensures Inv(Run(s, moves, quantum), quantum)
    decreases |moves|
  {
    hide Inv, Apply;
    if moves != [] {
      MoveKeeps(s, moves[0], quantum);
      RunKeeps(Apply(s, moves[0], quantum), moves[1..], quantum);
    }
  }

  /** A row as inserted, no refresh running. */
  function Inserted(row: Account, c: Creds, clock: int): System {
    System(Shared(row, clock, None, 0, map[], [c], [], []), map[])
  }

  /** The inserted row holds credentials c as the store keeps them. */
  predicate InsertOk(row: Account, c: Creds, quantum: int)
    requires quantum > 0
  {
    Shows(row, c, quantum) && Keeps(row, c, quantum)
  }

  lemma InsertedOk(row: Account, c: Creds, clock: int, quantum: int)
    requires quantum > 0 && InsertOk(row, c, quantum)
    ensures Inv(Inserted(row, c, clock), quantum)
  {
    hide Shows, Keeps, Durable;
  }

  // ---------------------------------------------------------------- theorems

  /** In every run, whatever lifetimes the provider grants: a credential write or a disable of a stale
      snapshot only ever hits credentials with the snapshot's last_refresh, no call asks the provider
      more than twice, and at most one call at a time leads a flight. If every credential issued so far
      is durable, the stored last_refresh strictly increases from one credential to the next, every
      write replaced exactly the credentials its snapshot showed, and every account disabled by a
      refresh held at that moment exactly the credentials whose refresh token was rejected. */
  lemma RefreshIsSafe(row: Account, c: Creds, clock: int, moves: seq<Action>, quantum: int)
    requires quantum > 0 && InsertOk(row, c, quantum)
    ensures Inv(Inserted(row, c, clock), quantum)
    ensures var s := Run(Inserted(row, c, clock), moves, quantum);
            && Stamped(s.sh.replaced, s.sh.issued, quantum) && Stamped(s.sh.disabled, s.sh.issued, quantum)
            && (forall tid :: tid in s.tasks ==> s.tasks[tid].calls <= 2)
            && (forall a, b :: a in s.tasks && b in s.tasks && Leading(s.tasks[a].pc) && Leading(s.tasks[b].pc) ==> a == b)
    ensures var s := Run(Inserted(row, c, clock), moves, quantum);
            AllDurable(s.sh.issued, quantum) ==>
              Increasing(s.sh.issued, quantum) && Matched(s.sh.replaced) && Matched(s.sh.disabled)
  {
    hide Shows, Keeps, Durable, AllDurable, Increasing, Stamped, Matched, IssuedHere, PatchFollows, PatchOk, Run;
    InsertedOk(row, c, clock, quantum);
    RunKeeps(Inserted(row, c, clock), moves, quantum);
  }

  /** What the invariant says of one call in a reached state. */
  lemma CallFacts(s: System, tid: Tid, quantum: int)
    requires quantum > 0 && Inv(s, quantum) && tid in s.tasks
    ensures SharedOk(s.sh, quantum) && TaskOk(s.sh, tid, s.tasks[tid], quantum) && s.sh.issued != []
    ensures s.tasks[tid].snap.lastRefresh.Some? && s.tasks[tid].snap.accessToken.Some?
    ensures s.tasks[tid].version < |s.sh.issued|
  {
    SnapFacts(s.sh, tid, s.tasks[tid], quantum);
  }

  /** The store finds the snapshot's last_refresh exactly when the snapshot's version has the last_refresh
      of the current one, which among durable credentials means that it is the current one. */
  lemma CurrentMatches(sh: Shared, tid: Tid, t: Task, quantum: int)
    requires quantum > 0 && SharedOk(sh, quantum) && TaskOk(sh, tid, t, quantum)
    ensures t.snap.lastRefresh.Some?
    ensures var matches := RefreshMatches(sh.row, t.snap.lastRefresh.value, quantum);
            && (matches <==> SameStamp(sh.issued, t.version, Current(sh), quantum))
            && (AllDurable(sh.issued, quantum) ==> (matches <==> t.version == Current(sh)))
  {
    MatchIsStamp(sh, tid, t, quantum);
    hide Trunc, Increasing, IssuedHere, PatchFollows, PatchOk, AllDurable, Stamped, Matched, OAuthShape, Shows, Keeps, Durable;
    if AllDurable(sh.issued, quantum) && SameStamp(sh.issued, t.version, Current(sh), quantum) {
      StampIsVersion(sh.issued, t.version, Current(sh), quantum);
    }
  }

  /** The current version's refresh token is the stored one. */
  lemma SameToken(sh: Shared, tid: Tid, t: Task, quantum: int)
    requires quantum > 0 && SharedOk(sh, quantum) && TaskOk(sh, tid, t, quantum) && t.version == Current(sh)
    ensures sh.row.refreshToken == t.snap.refreshToken
  {
    hide Trunc, Durable, Increasing, IssuedHere, PatchFollows, PatchOk, AllDurable, Stamped, Matched, OAuthShape;
  }

  /** Whether a write of this call finds its row: its snapshot has the stored last_refresh, which among
      durable credentials means that it shows the stored credentials. */
  predicate Finds(sh: Shared, t: Task, found: bool, quantum: int)
    requires quantum > 0 && sh.issued != [] && t.version < |sh.issued|
  {
    && (found <==> SameStamp(sh.issued, t.version, Current(sh), quantum))
    && (AllDurable(sh.issued, quantum) ==> (found <==> t.version == Current(sh)))
  }

  lemma DisableStep(s: System, tid: Tid, env: Env, quantum: int)
    requires quantum > 0 && Inv(s, quantum) && tid in s.tasks && s.tasks[tid].pc.Disable?
    ensures var t := s.tasks[tid];
            && t.snap.lastRefresh.Some? && t.snap.accessToken.Some? && s.sh.issued != [] && t.version < |s.sh.issued|
            && (var step := LeaderStep(s.sh, t, env, quantum);
                && (s.sh.row.status == ACTIVE ==> Finds(s.sh, t, step.task.pc.Leave?, quantum))
                && (s.sh.row.status != ACTIVE ==> !step.task.pc.Leave?)
                && (step.sh.row != s.sh.row && AllDurable(s.sh.issued, quantum) ==> s.sh.row.refreshToken == t.snap.refreshToken))
  {
    CallFacts(s, tid, quantum);
    CurrentMatches(s.sh, tid, s.tasks[tid], quantum);
    if s.tasks[tid].version == Current(s.sh) { SameToken(s.sh, tid, s.tasks[tid], quantum); }
    hide Inv, SharedOk, TaskOk, Trunc, AllDurable, SameStamp, RefreshMatches, Current;
  }

  lemma ReplaceStep(s: System, tid: Tid, env: Env, quantum: int)
    requires quantum > 0 && Inv(s, quantum) && tid in s.tasks && s.tasks[tid].pc.CredentialsWrite?
    ensures var t := s.tasks[tid];
            && t.snap.lastRefresh.Some? && t.snap.accessToken.Some? && s.sh.issued != [] && t.version < |s.sh.issued|
            && (var step := LeaderStep(s.sh, t, env, quantum);
                && (s.sh.row.status != DELETED ==> Finds(s.sh, t, step.task.pc.Leave?, quantum))
                && (s.sh.row.status == DELETED ==> !step.task.pc.Leave?))
  {
    CallFacts(s, tid, quantum);
    CurrentMatches(s.sh, tid, s.tasks[tid], quantum);
    WriteFacts(s.sh, tid, s.tasks[tid], quantum);
    hide Inv, SharedOk, TaskOk, Trunc, AllDurable, SameStamp, RefreshMatches, Current, WithCredentials;
  }

  lemma WriteFacts(sh: Shared, tid: Tid, t: Task, quantum: int)
    requires quantum > 0 && TaskOk(sh, tid, t, quantum) && t.pc.CredentialsWrite?
    ensures var p := t.pc.patch;
            && OAuthMethod(p.authMethod) && p.expectedLastRefresh == t.snap.lastRefresh
            && p.lastRefresh.Some? && p.accessExpiresAt.Some?
  {
    hide Trunc, Durable, IssuedHere, PatchOk, Shows;
  }

  /** In every run, a rejected refresh token disables the account exactly when the account is active
      and the stored last_refresh is the snapshot's; among durable credentials that means exactly when it
      still holds the credentials of the snapshot, so the stored refresh token is the rejected one. */
  lemma DisablesExactly(row: Account, c: Creds, clock: int, moves: seq<Action>, tid: Tid, env: Env, quantum: int)
    requires quantum > 0 && InsertOk(row, c, quantum)
    ensures Inv(Inserted(row, c, clock), quantum)
    ensures var s := Run(Inserted(row, c, clock), moves, quantum);
            tid in s.tasks && s.tasks[tid].pc.Disable? ==>
              var t := s.tasks[tid];
              && t.snap.lastRefresh.Some? && t.snap.accessToken.Some? && s.sh.issued != [] && t.version < |s.sh.issued|
              && (var step := LeaderStep(s.sh, t, env, quantum);
                  && (s.sh.row.status == ACTIVE ==> Finds(s.sh, t, step.task.pc.Leave?, quantum))
                  && (s.sh.row.status != ACTIVE ==> !step.task.pc.Leave?)
                  && (step.sh.row != s.sh.row && AllDurable(s.sh.issued, quantum) ==> s.sh.row.refreshToken == t.snap.refreshToken))
  {
    hide InsertOk, Inv, Run, LeaderStep, Finds, AllDurable;
    InsertedOk(row, c, clock, quantum);
    RunKeeps(Inserted(row, c, clock), moves, quantum);
    var s := Run(Inserted(row, c, clock), moves, quantum);
    if tid in s.tasks && s.tasks[tid].pc.Disable? { DisableStep(s, tid, env, quantum); }
  }

  /** In every run, new credentials are stored exactly when the row is not deleted and its last_refresh
      is the snapshot's; among durable credentials that means exactly when the row still holds the
      credentials of the snapshot, so no write replaces newer ones. */
  lemma ReplacesExactly(row: Account, c: Creds, clock: int, moves: seq<Action>, tid: Tid, env: Env, quantum: int)
    requires quantum > 0 && InsertOk(row, c, quantum)
    ensures Inv(Inserted(row, c, clock), quantum)
    ensures var s := Run(Inserted(row, c, clock), moves, quantum);
            tid in s.tasks && s.tasks[tid].pc.CredentialsWrite? ==>
              var t := s.tasks[tid];
              && t.snap.lastRefresh.Some? && t.snap.accessToken.Some? && s.sh.issued != [] && t.version < |s.sh.issued|
              && (var step := LeaderStep(s.sh, t, env, quantum);
                  && (s.sh.row.status != DELETED ==> Finds(s.sh, t, step.task.pc.Leave?, quantum))
                  && (s.sh.row.status == DELETED ==> !step.task.pc.Leave?))
  {
    hide InsertOk, Inv, Run, LeaderStep, Finds;
    InsertedOk(row, c, clock, quantum);
    RunKeeps(Inserted(row, c, clock), moves, quantum);
    var s := Run(Inserted(row, c, clock), moves, quantum);
    if tid in s.tasks && s.tasks[tid].pc.CredentialsWrite? { ReplaceStep(s, tid, env, quantum); }
  }

  /** In every run, every token a call returns was issued for this row. */
  lemma TokensAreIssued(row: Account, c: Creds, clock: int, moves: seq<Action>, tid: Tid, quantum: int)
    requires quantum > 0 && InsertOk(row, c, quantum)
    ensures Inv(Inserted(row, c, clock), quantum)
    ensures var s := Run(Inserted(row, c, clock), moves, quantum);
            tid in s.tasks && s.tasks[tid].pc.Done? ==> IssuedHere(s.sh.issued, s.tasks[tid].pc.result)
  {
    hide InsertOk, Inv, Run, SharedOk, IssuedHere;
    InsertedOk(row, c, clock, quantum);
    RunKeeps(Inserted(row, c, clock), moves, quantum);
    var s := Run(Inserted(row, c, clock), moves, quantum);
    if tid in s.tasks { CallFacts(s, tid, quantum); }
  }

  // ---------------------------------------------------------------- expiry before last_refresh

  /** deriveImportLastRefresh: payload is the parsed field, None when absent or unparseable. */
  function ImportLastRefresh(payload: Option<int>, now: int): int {
    if payload.None? || payload.value > now then now else payload.value
  }

  const FIVE_MINUTES := 300_000_000_000

  /** deriveImportAccessExpiresAt: claim is the id token's exp. */
  function ImportExpiresAt(claim: Option<int>, now: int): int {
    if claim.None? then now + FIVE_MINUTES else claim.value
  }

  /** A call with an imported row errors on its expiry, at once and without asking the provider or
      writing anything, exactly when the id token's exp precedes last_refresh in the column's
      resolution. */
  lemma ImportBrokenExactly(sh: Shared, acct: Account, payload: Option<int>, claim: Option<int>, imported: int, env: Env, quantum: int)
    requires quantum > 0 && acct.accessToken.Some? && env.now >= sh.clock
    ensures var snap := acct.(lastRefresh := Some(Trunc(ImportLastRefresh(payload, imported), quantum)),
                              accessExpiresAt := Some(Trunc(ImportExpiresAt(claim, imported), quantum)));
            var t := Task(snap, 0, 0, 0, Check);
            (CheckStep(sh, t, env) == Go(sh, t, Done(BadExpiry)))
            == (claim.Some? && Trunc(claim.value, quantum) < Trunc(ImportLastRefresh(payload, imported), quantum))
  {
    hide Trunc;
    if claim.None? { TruncOrder(ImportLastRefresh(payload, imported), imported + FIVE_MINUTES, quantum); }
  }
}
