/** Boot, wizard commits, requests and crashes as one state machine: each step is one system call, one
    database transaction, one atomic load or store (internal/setup/commit.go, brownfield.go, gate.go,
    internal/app/app.go, adapters.go). */
module SetupMachine {
  import opened Wrappers
  import opened ConfigWriter

  type Tid = nat

  /** The boot goroutine. Until it publishes a handler it runs alone, which lock records. */
  const BOOT: Tid := 0

  datatype Database = Database(migrated: bool, names: seq<string>)
  datatype Gate = Gate(done: bool, observerDisabled: bool)

  /** A root handler: a gate in front of a mux with or without the steady-state routes. */
  datatype Handler = Handler(gate: Gate, steady: bool)

  datatype Result = AlreadyDone | Failed | ReloadFailed | Committed | Booted

  datatype Pc =
    | BootSweep | BootLoad | BootMigrate(dsn: string) | BootCount(dsn: string) | BootSteady | BootPending
    | Lock | Recheck | Check | Migrate | CreateAccount | Sweep
    | OpenTmp(c: Config) | WriteTmp(c: Config) | SyncTmp(c: Config) | CloseTmp(c: Config)
    | RenameTmp(c: Config) | SyncDir | RemoveTmp
    | Reload | Promote | Unlock(result: Result)
    | LoadHandler | GateFast(h: nat) | GateLocked(h: nat) | Stat(h: nat) | Latch(h: nat)
    | Passed(h: nat) | Held(h: nat)
    | Aborted
    | Done(result: Result)

  datatype Kind = Boot | Commit(dsn: string, account: Option<string>) | Request
  datatype Task = Task(kind: Kind, pc: Pc)

  datatype Process = Process(
    pid: nat,
    lock: Option<Tid>,         // holder of setup.Serialiser
    handlers: seq<Handler>,    // every root handler built
    current: Option<nat>,      // App.handler
    promoted: bool,            // App.promoted
    tasks: map<Tid, Task>,
    commitWrites: nat,         // history: config.json renamed into place by a commit
    promotions: nat,           // history: steady handlers published
    reloadFailed: bool,        // history: a commit's reload or promotion failed
    leftover: bool)            // history: the pid's tmp file was there at the start, or its removal failed

  datatype World = World(disk: Disk, dbs: map<string, Database>, proc: Process)

  /** fails: the call reports an error; late: a failed insert had committed; stuck: tmp files whose
      removal fails or whose pid belongs to a live process; dsn: ROUTER_DB_DRIVER and ROUTER_DB_URL. */
  datatype Env = Env(now: int, fails: bool, late: bool, stuck: set<nat>, dsn: Option<string>)

  datatype Step = Blocked | Move(w: World, task: Task)

  function Go(w: World, t: Task, pc: Pc): Step { Move(w, t.(pc := pc)) }

  function Db(w: World, dsn: string): Database {
    if dsn in w.dbs then w.dbs[dsn] else Database(false, [])
  }

  function Migrated(w: World, dsn: string): World {
    w.(dbs := w.dbs[dsn := Db(w, dsn).(migrated := true)])
  }

  /** CreateIdempotentByName in one transaction. */
  function WithAccount(w: World, dsn: string, name: string): World {
    var db := Db(w, dsn);
    if name in db.names then w else w.(dbs := w.dbs[dsn := db.(names := db.names + [name])])
  }

  function AfterSweep(w: World, stuck: set<nat>): World {
    w.(disk := w.disk.(tmps := map p | p in w.disk.tmps && (p == w.proc.pid || p in stuck) :: w.disk.tmps[p]))
  }

  /** buildHandler: a gate before a pending mux loses its observer before anyone can see it; a gate
      before a steady mux is marked open. */
  function NewHandler(steady: bool): Handler {
    if steady then Handler(Gate(true, false), true) else Handler(Gate(false, true), false)
  }

  function Published(p: Process, steady: bool): Process {
    p.(handlers := p.handlers + [NewHandler(steady)], current := Some(|p.handlers|),
       promoted := p.promoted || steady, promotions := p.promotions + if steady then 1 else 0)
  }

  // ---------------------------------------------------------------- boot

  function BootStep(w: World, t: Task, env: Env): Step {
    match t.pc
    case BootSweep => Go(if env.fails then w else AfterSweep(w, env.stuck), t, BootLoad)
    case BootLoad =>
      if w.disk.config.Some? then Go(w, t, if env.fails then Aborted else BootSteady)
      else Go(w, t, if env.dsn.None? then BootPending else BootMigrate(env.dsn.value))
    case BootMigrate(dsn) => if env.fails then Go(w, t, Aborted) else Go(Migrated(w, dsn), t, BootCount(dsn))
    case BootCount(dsn) =>
      if env.fails then Go(w, t, Aborted)
      else if w.disk.config.Some? || Db(w, dsn).names == [] then Go(w, t, BootPending)
      else Go(w, t, OpenTmp(Stamped(Config(dsn, Brownfield, 0, 0), env.now)))
    case BootPending => Go(w.(proc := Published(w.proc, false).(lock := None)), t, Done(Booted))
    case BootSteady =>
      if env.fails || w.disk.config.None? || w.disk.config.value.content.None? then Go(w, t, Aborted)
      else
        var ready := Migrated(w, w.disk.config.value.content.value.dsn);
        Go(ready.(proc := Published(w.proc, true).(lock := None)), t, Done(Booted))
    case _ => Blocked
  }

  // ---------------------------------------------------------------- commit

  function CommitStep(w: World, tid: Tid, t: Task, env: Env): Step {
    match t.pc
    case Lock => if w.proc.lock.Some? then Blocked else Go(w.(proc := w.proc.(lock := Some(tid))), t, Recheck)
    case Recheck =>
      if env.fails then Go(w, t, Unlock(Failed))
      else Go(w, t, if w.disk.config.Some? then Unlock(AlreadyDone) else Check)
    case Check => Go(w, t, if env.fails then Unlock(Failed) else Migrate)  // validation and probe
    case Migrate =>
      if env.fails || !t.kind.Commit? then Go(w, t, Unlock(Failed))
      else Go(Migrated(w, t.kind.dsn), t, if t.kind.account.Some? then CreateAccount else Sweep)
    case CreateAccount =>
      if !t.kind.Commit? || t.kind.account.None? then Blocked
      else if env.fails && !env.late then Go(w, t, Unlock(Failed))
      else Go(WithAccount(w, t.kind.dsn, t.kind.account.value), t, if env.fails then Unlock(Failed) else Sweep)
    case Sweep =>
      if !t.kind.Commit? then Blocked
      else
        Go(if env.fails then w else AfterSweep(w, env.stuck), t,
           OpenTmp(Stamped(Config(t.kind.dsn, Wizard(t.kind.account), env.now, env.now), env.now)))
    case Reload => if env.fails then Go(ReloadFails(w), t, Unlock(ReloadFailed)) else Go(w, t, Promote)
    case Promote =>
      if w.proc.promoted then Go(w, t, Unlock(Committed))
      else if env.fails then Go(ReloadFails(w), t, Unlock(ReloadFailed))
      else Go(w.(proc := Published(w.proc, true)), t, Unlock(Committed))
    case Unlock(r) => Go(w.(proc := w.proc.(lock := None)), t, Done(r))
    case _ => Blocked
  }

  function ReloadFails(w: World): World { w.(proc := w.proc.(reloadFailed := true)) }

  // ---------------------------------------------------------------- WriteAtomic, call by call

  function AfterFailure(k: Kind): Pc { if k.Boot? then Aborted else Unlock(Failed) }

  function WriteStep(w: World, t: Task, env: Env): Step {
    var pid := w.proc.pid;
    match t.pc
    case OpenTmp(c) =>
      if env.fails || !CanOpen(w.disk, pid) then Go(w, t, AfterFailure(t.kind))
      else Go(w.(disk := Opened(w.disk, pid)), t, WriteTmp(c))
    case WriteTmp(c) =>
      if env.fails then Go(w, t, RemoveTmp) else Go(w.(disk := Written(w.disk, pid, c)), t, SyncTmp(c))
    case SyncTmp(c) =>
      if pid !in w.disk.tmps then Blocked
      else if env.fails then Go(w, t, RemoveTmp)
      else Go(w.(disk := Synced(w.disk, pid)), t, CloseTmp(c))
    case CloseTmp(c) => Go(w, t, if env.fails then RemoveTmp else RenameTmp(c))
    case RenameTmp(c) =>
      if pid !in w.disk.tmps then Blocked
      else if env.fails then Go(w, t, RemoveTmp)
      else
        var writes := w.proc.commitWrites + if t.kind.Commit? then 1 else 0;
        Go(w.(disk := Renamed(w.disk, pid), proc := w.proc.(commitWrites := writes)), t, SyncDir)
    case SyncDir =>
      Go(if env.fails then w else w.(disk := DirSynced(w.disk)), t, if t.kind.Boot? then BootSteady else Reload)
    case RemoveTmp =>
      Go(if env.fails then w.(proc := w.proc.(leftover := true)) else w.(disk := Removed(w.disk, pid)), t,
         AfterFailure(t.kind))
    case _ => Blocked
  }

  // ---------------------------------------------------------------- requests

  function SetDone(p: Process, h: nat): Process
    requires h < |p.handlers|
  {
    p.(handlers := p.handlers[h := p.handlers[h].(gate := p.handlers[h].gate.(done := true))])
  }

  /** App.Handler, then Gate.Wrap and Gate.probe of the handler that was loaded. */
  function RequestStep(w: World, t: Task, env: Env): Step {
    var p := w.proc;
    match t.pc
    case LoadHandler => if p.current.None? then Blocked else Go(w, t, GateFast(p.current.value))
    case GateFast(h) =>
      if h >= |p.handlers| then Blocked
      else Go(w, t, if p.handlers[h].gate.done then Passed(h) else GateLocked(h))
    case GateLocked(h) =>
      if h >= |p.handlers| then Blocked
      else if p.handlers[h].gate.done then Go(w, t, Passed(h))
      else Go(w, t, if p.handlers[h].gate.observerDisabled then Held(h) else Stat(h))
    case Stat(h) => Go(w, t, if !env.fails && w.disk.config.Some? then Latch(h) else Held(h))
    case Latch(h) => if h >= |p.handlers| then Blocked else Go(w.(proc := SetDone(p, h)), t, Passed(h))
    case _ => Blocked
  }

  // ---------------------------------------------------------------- the whole system

  predicate BootPc(pc: Pc) {
    pc.BootSweep? || pc.BootLoad? || pc.BootMigrate? || pc.BootCount? || pc.BootSteady? || pc.BootPending?
  }

  predicate WritePc(pc: Pc) {
    pc.OpenTmp? || pc.WriteTmp? || pc.SyncTmp? || pc.CloseTmp? || pc.RenameTmp? || pc.SyncDir? || pc.RemoveTmp?
  }

  predicate CommitPc(pc: Pc) {
    pc.Lock? || pc.Recheck? || pc.Check? || pc.Migrate? || pc.CreateAccount? || pc.Sweep? || pc.Reload?
    || pc.Promote? || pc.Unlock?
  }

  function Next(w: World, tid: Tid, t: Task, env: Env): Step {
    if BootPc(t.pc) then BootStep(w, t, env)
    else if WritePc(t.pc) then WriteStep(w, t, env)
    else if CommitPc(t.pc) then CommitStep(w, tid, t, env)
    else RequestStep(w, t, env)
  }

  function Started(pid: nat): Process {
    Process(pid, Some(BOOT), [], None, false, map[BOOT := Task(Boot, BootSweep)], 0, 0, false, false)
  }

  datatype Action =
    | Spawn(tid: Tid, kind: Kind)
    | Act(tid: Tid, env: Env)
    | Crash(power: bool, disk: Disk, pid: nat)  // what the crash leaves, and the next process's pid

  /** Commits and requests arrive once a handler is published. A new process has a pid that no tmp
      file on the disk carries. */
  ghost function Apply(w: World, m: Action): World {
    match m
    case Spawn(tid, kind) =>
      if tid in w.proc.tasks || w.proc.current.None? || kind.Boot? then w
      else
        var t := Task(kind, if kind.Commit? then Lock else LoadHandler);
        w.(proc := w.proc.(tasks := w.proc.tasks[tid := t]))
    case Act(tid, env) =>
      if tid !in w.proc.tasks then w
      else (match Next(w, tid, w.proc.tasks[tid], env)
            case Blocked => w
            case Move(after, task) => after.(proc := after.proc.(tasks := after.proc.tasks[tid := task])))
    case Crash(power, disk, pid) =>
      if (if power then PowerLoss(w.disk, disk) else disk == w.disk) && pid !in disk.tmps
      then World(disk, w.dbs, Started(pid))
      else w
  }

  ghost function Run(w: World, moves: seq<Action>): World
    decreases |moves|
  {
    if moves == [] then w else Run(Apply(w, moves[0]), moves[1..])
  }
}
