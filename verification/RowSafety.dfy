/** Every account row stays valid and keeps its auth method, however the repository's operations
    interleave statement by statement (internal/store/accounts.go, internal/oauth/usage_refresher.go). */
module RowSafety {
  import opened Wrappers
  import opened AccountShape
  import opened Text
  import opened AccountStore

  type Tid = nat

  datatype Op =
    | Insert(account: Account)
    | Credentials(id: nat, creds: CredentialPatch)
    | SetStatus(id: nat, status: string)
    | SetStatusIfCurrent(id: nat, status: string, expected: int)
    | SetProxy(id: nat, on: bool)
    | RefreshUsage(usage: Usage)
    | Edit(id: nat, patch: DetailsPatch)

  datatype Answer =
    | Wrote                    // the statement changed, or matched, a row
    | Unchanged(row: Account)  // an edit that found its own values already stored
    | Refused(error: StoreError)
    | Nothing

  /** The next statement of an operation. */
  datatype Pc =
    | Begin
    | CredentialsWrite | CredentialsMiss
    | StatusMiss
    | UsageWrite(row: nat)
    | EditWrite(seen: Account) | EditRecheck(seen: Account)
    | Done(answer: Answer)

  datatype Task = Task(op: Op, pc: Pc)

  /** What a step leaves open: the new row's id, the account a listing returned, and whether the
      database counts a matching row whose values do not change as affected (MySQL does not). */
  datatype Env = Env(newId: nat, listed: nat, countsMatches: bool)

  datatype Step = Stuck | Move(rows: Rows, task: Task)

  function Go(rows: Rows, t: Task, pc: Pc): Step { Move(rows, t.(pc := pc)) }

  function Start(rows: Rows, t: Task, env: Env, quantum: int): Step
    requires quantum > 0
  {
    match t.op
    case Insert(a) =>
      if !ValidShape(a) then Go(rows, t, Done(Refused(Invalid)))
      else if env.newId in rows then Stuck  // autoincrement does not reuse an id
      else Go(rows[env.newId := Stored(a, env.newId, quantum)], t, Done(Wrote))
    case Credentials(id, p) =>
      if !PatchOk(p) then Go(rows, t, Done(Refused(BadPatch)))
      else if !Live(rows, id) then Go(rows, t, Done(Refused(NotFound)))
      else if rows[id].authMethod != p.authMethod then Go(rows, t, Done(Refused(MethodMismatch)))
      else Go(rows, t, CredentialsWrite)
    case SetStatus(id, status) =>
      if id in rows then Go(rows[id := rows[id].(status := status)], t, Done(Wrote))
      else Go(rows, t, Done(Refused(NotFound)))
    case SetStatusIfCurrent(id, status, expected) =>
      if StatusMatches(rows, id, expected, quantum)
      then Go(rows[id := rows[id].(status := status)], t, Done(Wrote))
      else Go(rows, t, StatusMiss)
    case SetProxy(id, on) =>
      if id in rows then Go(rows[id := rows[id].(useProxy := on)], t, Done(Wrote))
      else Go(rows, t, Done(Refused(NotFound)))
    case RefreshUsage(_) =>
      if env.listed in rows && rows[env.listed].status == ACTIVE && IsOAuth(rows[env.listed])
      then Go(rows, t, UsageWrite(env.listed))
      else Go(rows, t, Done(Nothing))
    case Edit(id, p) =>
      if id !in rows then Go(rows, t, Done(Refused(NotFound)))
      else if rows[id].status == DELETED then Go(rows, t, Done(Refused(RowDeleted)))
      else if rows[id].authMethod != API_KEY then Go(rows, t, Done(Refused(NotApiKey)))
      else if p == KEEP_ALL then Go(rows, t, Done(Unchanged(rows[id])))
      else if !ValidShape(Applied(rows[id], p)) then Go(rows, t, Done(Refused(Invalid)))
      else Go(rows, t, EditWrite(rows[id]))
  }

  function Next(rows: Rows, t: Task, env: Env, quantum: int): Step
    requires quantum > 0
  {
    match t.pc
    case Begin => Start(rows, t, env, quantum)
    case CredentialsWrite =>
      if !t.op.Credentials? then Stuck
      else if CredentialsMatch(rows, t.op.id, t.op.creds, quantum) then
        Go(rows[t.op.id := WithCredentials(rows[t.op.id], t.op.creds, quantum)], t, Done(Wrote))
      else Go(rows, t, CredentialsMiss)
    case CredentialsMiss =>
      if !t.op.Credentials? then Stuck
      else
        var conditional := OAuthMethod(t.op.creds.authMethod) && t.op.creds.expectedLastRefresh.Some?;
        Go(rows, t, Done(Refused(MissReason(rows, t.op.id, conditional))))
    case StatusMiss =>
      if !t.op.SetStatusIfCurrent? then Stuck
      else Go(rows, t, Done(Refused(if t.op.id in rows then Conflict else NotFound)))
    case UsageWrite(id) =>
      if !t.op.RefreshUsage? then Stuck
      else if id in rows then Go(rows[id := rows[id].(usage := t.op.usage)], t, Done(Wrote))
      else Go(rows, t, Done(Nothing))
    case EditWrite(seen) =>
      if !t.op.Edit? then Stuck
      else if EditMatches(rows, t.op.id, seen, t.op.patch) then
        var after := Applied(rows[t.op.id], t.op.patch);
        if env.countsMatches || after != rows[t.op.id] then Go(rows[t.op.id := after], t, Done(Wrote))
        else Go(rows, t, EditRecheck(seen))
      else Go(rows, t, EditRecheck(seen))
    case EditRecheck(seen) =>
      if !t.op.Edit? then Stuck
      else if t.op.id !in rows then Go(rows, t, Done(Refused(NotFound)))
      else if !AlreadyApplied(rows[t.op.id], seen, t.op.patch) then Go(rows, t, Done(Refused(ChangedConcurrently)))
      else if !ValidShape(rows[t.op.id]) then Go(rows, t, Done(Refused(Invalid)))
      else Go(rows, t, Done(Unchanged(rows[t.op.id])))
    case Done(_) => Stuck
  }

  // ---------------------------------------------------------------- the invariant

  /** What an operation between two statements knows about the table. */
  predicate TaskOk(rows: Rows, t: Task) {
    match t.pc
    case CredentialsWrite =>
      t.op.Credentials? && PatchOk(t.op.creds) && t.op.id in rows && rows[t.op.id].authMethod == t.op.creds.authMethod
    case UsageWrite(id) => t.op.RefreshUsage? && id in rows && IsOAuth(rows[id])
    case EditWrite(seen) =>
      t.op.Edit? && t.op.id in rows && seen.authMethod == API_KEY && rows[t.op.id].authMethod == API_KEY
      && ValidShape(Applied(seen, t.op.patch))
    case EditRecheck(seen) => t.op.Edit? && t.op.id in rows && rows[t.op.id].authMethod == API_KEY
    case Done(answer) => answer.Unchanged? ==> ValidShape(answer.row)
    case _ => true
  }

  /** A later table: no row disappears and no row changes its auth method. */
  predicate Later(a: Rows, b: Rows) {
    forall id :: id in a ==> id in b && b[id].authMethod == a[id].authMethod
  }

  /** One statement of one operation. */
  lemma StepKeeps(rows: Rows, t: Task, env: Env, quantum: int)
    requires quantum > 0 && RowsOk(rows) && TaskOk(rows, t)
    ensures var step := Next(rows, t, env, quantum);
            step.Move? ==> RowsOk(step.rows) && TaskOk(step.rows, step.task) && Later(rows, step.rows)
  {
    hide ValidShape, PatchOk, CredentialsMatch, StatusMatches;
    if t.pc.Begin? {
      BeginKeeps(rows, t, env, quantum);
    } else if t.pc.CredentialsWrite? {
      assert CredentialsMatch(rows, t.op.id, t.op.creds, quantum) ==> t.op.id in rows by { MatchIsLive(rows, t.op.id, t.op.creds, quantum); }
      CredentialsOk(rows[t.op.id], t.op.creds, quantum);
    } else if t.pc.UsageWrite? {
      UsageOk(rows[t.pc.row], t.op.usage);
    } else if t.pc.EditWrite? {
      if EditMatches(rows, t.op.id, t.pc.seen, t.op.patch) { EditOk(rows, t.op.id, t.pc.seen, t.op.patch); }
    }
  }

  lemma MatchIsLive(rows: Rows, id: nat, p: CredentialPatch, quantum: int)
    requires quantum > 0
    ensures CredentialsMatch(rows, id, p, quantum) ==> id in rows
  {
  }

  lemma UsageOk(row: Account, usage: Usage)
    requires ValidShape(row) && IsOAuth(row)
    ensures ValidShape(row.(usage := usage)) && IsOAuth(row.(usage := usage))
  {
    assert row.authMethod[0] == 'o' && API_KEY[0] == 'a';
  }

  /** Status and proxy are no part of the shape. */
  lemma FlagsOk(row: Account, status: string, on: bool)
    requires ValidShape(row)
    ensures ValidShape(row.(status := status)) && ValidShape(row.(useProxy := on))
  {
    hide Blank;
  }

  /** The first statement of an operation that begins by reading. */
  lemma ReadKeeps(rows: Rows, t: Task, env: Env, quantum: int)
    requires quantum > 0 && RowsOk(rows) && t.pc.Begin? && (t.op.Credentials? || t.op.RefreshUsage? || t.op.Edit?)
    ensures var step := Start(rows, t, env, quantum);
            step.Move? ==> step.rows == rows && TaskOk(rows, step.task)
  {
    hide ValidShape, PatchOk, IsOAuth;
  }

  lemma BeginKeeps(rows: Rows, t: Task, env: Env, quantum: int)
    requires quantum > 0 && RowsOk(rows) && t.pc.Begin?
    ensures var step := Start(rows, t, env, quantum);
            step.Move? ==> RowsOk(step.rows) && TaskOk(step.rows, step.task) && Later(rows, step.rows)
  {
    hide ValidShape, PatchOk, IsOAuth;
    if t.op.Credentials? || t.op.RefreshUsage? || t.op.Edit? {
      ReadKeeps(rows, t, env, quantum);
      hide Start;
    } else if t.op.Insert? {
      if ValidShape(t.op.account) { StoredOk(t.op.account, env.newId, quantum); }
    } else {
      if t.op.id in rows { FlagsOk(rows[t.op.id], if t.op.SetProxy? then "" else t.op.status, t.op.SetProxy? && t.op.on); }
    }
  }

  lemma TaskStable(a: Rows, b: Rows, t: Task)
    requires Later(a, b) && TaskOk(a, t)
    ensures TaskOk(b, t)
  {
    hide ValidShape, PatchOk;
  }

  // ---------------------------------------------------------------- every run

  datatype System = System(rows: Rows, tasks: map<Tid, Task>)

  datatype Action = Spawn(tid: Tid, op: Op) | Act(tid: Tid, env: Env)

  function Apply(s: System, m: Action, quantum: int): System
    requires quantum > 0
  {
    match m
    case Spawn(tid, op) => if tid in s.tasks then s else s.(tasks := s.tasks[tid := Task(op, Begin)])
    case Act(tid, env) =>
      if tid !in s.tasks then s
      else (match Next(s.rows, s.tasks[tid], env, quantum)
            case Stuck => s
            case Move(rows, task) => System(rows, s.tasks[tid := task]))
  }

  function Run(s: System, moves: seq<Action>, quantum: int): System
    requires quantum > 0
    decreases |moves|
  {
    if moves == [] then s else Run(Apply(s, moves[0], quantum), moves[1..], quantum)
  }

  predicate Inv(s: System) {
    RowsOk(s.rows) && forall tid :: tid in s.tasks ==> TaskOk(s.rows, s.tasks[tid])
  }

  lemma MoveKeeps(s: System, m: Action, quantum: int)
    requires quantum > 0 && Inv(s)
    ensures Inv(Apply(s, m, quantum)) && Later(s.rows, Apply(s, m, quantum).rows)
  {
    hide RowsOk, Next, Later, TaskOk;
    LaterSelf(s.rows);
    match m
    case Spawn(tid, op) => SpawnOk(s.rows, op);
    case Act(tid, env) =>
      if tid in s.tasks && Next(s.rows, s.tasks[tid], env, quantum).Move? {
        StepKeeps(s.rows, s.tasks[tid], env, quantum);
        forall other | other in s.tasks && other != tid
          ensures TaskOk(Apply(s, m, quantum).rows, s.tasks[other])
        {
          TaskStable(s.rows, Apply(s, m, quantum).rows, s.tasks[other]);
        }
      }
  }

  lemma SpawnOk(rows: Rows, op: Op)
    ensures TaskOk(rows, Task(op, Begin))
  {
  }

  lemma LaterSelf(rows: Rows)
    ensures Later(rows, rows)
  {
  }

  lemma LaterChain(a: Rows, b: Rows, c: Rows)
    requires Later(a, b) && Later(b, c)
    ensures Later(a, c)
  {
  }

  /** From a table of valid rows, every interleaving of inserts, credential updates, usage updates,
      status changes and edits leads to a table of valid rows that contains every earlier row under
      its own auth method. */
  lemma {:induction false} RowsStayValid(s: System, moves: seq<Action>, quantum: int)
    requires quantum > 0 && Inv(s)
    ensures Inv(Run(s, moves, quantum)) && RowsOk(Run(s, moves, quantum).rows)
    ensures Later(s.rows, Run(s, moves, quantum).rows)
    decreases |moves|
  {
    hide Later, Apply;
    LaterSelf(s.rows);
    if moves != [] {
      var next := Apply(s, moves[0], quantum);
      MoveKeeps(s, moves[0], quantum);
      RowsStayValid(next, moves[1..], quantum);
      LaterChain(s.rows, next.rows, Run(next, moves[1..], quantum).rows);
    }
  }

  /** So no run produces a row that offers op.systemone without an accepted base URL, although one
      edit may clear the base URL while another, having read the row earlier, adds op.systemone. */
  lemma SystemOneHasBaseURL(moves: seq<Action>, quantum: int, id: nat)
    requires quantum > 0
    ensures var rows := Run(System(map[], map[]), moves, quantum).rows;
            id in rows && SYSTEM_ONE in Capabilities(rows[id]) ==>
              rows[id].authMethod == API_KEY && rows[id].baseURL.Some? && rows[id].baseURL.value.accepted
  {
    hide Blank, Run;
    RowsStayValid(System(map[], map[]), moves, quantum);
  }

  // ---------------------------------------------------------------- edits that race

  /** Of two edits that read the same row, once one has changed the base URL or the capabilities,
      the other, if its write is conditional, changes nothing; its answer is then that its own values
      are already stored, or that the account changed concurrently. */
  lemma SecondEditRefused(rows: Rows, id: nat, seen: Account, first: DetailsPatch, second: Task, env: Env, quantum: int)
    requires quantum > 0 && id in rows && rows[id] == seen
    requires second.pc == EditWrite(seen) && second.op.Edit? && second.op.id == id && Conditional(second.op.patch)
    requires var after := Applied(seen, first); after.baseURL != seen.baseURL || after.capabilities != seen.capabilities
    ensures var changed := rows[id := Applied(seen, first)];
            var step := Next(changed, second, env, quantum);
            && step == Go(changed, second, EditRecheck(seen))
            && (var last := Next(changed, step.task, env, quantum);
                && last.Move? && last.rows == changed
                && (last.task.pc == Done(Refused(ChangedConcurrently))
                    <==> !AlreadyApplied(changed[id], seen, second.op.patch)))
  {
    hide ValidShape;
  }

  /** Exactly when the write of an edit is refused although the row is still there: it is conditional
      and one of the compared fields differs from what was read. */
  lemma EditMissExactly(rows: Rows, t: Task, quantum: int)
    requires quantum > 0 && RowsOk(rows) && TaskOk(rows, t) && t.pc.EditWrite?
    ensures var row := rows[t.op.id];
            Next(rows, t, Env(0, 0, true), quantum).task.pc.EditRecheck? <==>
              && Conditional(t.op.patch)
              && (row.status != t.pc.seen.status || row.baseURL != t.pc.seen.baseURL
                  || row.capabilities != t.pc.seen.capabilities)
  {
    hide ValidShape;
  }
}
