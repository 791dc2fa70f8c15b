/** Recovery after a crash, and runs that end where only a restart helps. */
module SetupRuns {
  import opened Wrappers
  import opened ConfigWriter
  import opened SetupMachine
  import opened SetupSafety
  import opened SetupTheorems

  ghost predicate Reaches(w: World, after: World) { exists moves :: NoCrash(moves) && after == Run(w, moves) }

  lemma ReachesSelf(w: World)
    ensures Reaches(w, w)
  {
    assert NoCrash([]) && Run(w, []) == w;
  }

  lemma {:induction false} RunAppend(w: World, moves: seq<Action>, m: Action)
    ensures Run(w, moves + [m]) == Apply(Run(w, moves), m)
    decreases |moves|
  {
    hide Apply;
    if moves == [] {
      assert moves + [m] == [m] && [m][1..] == [];
    } else {
      assert (moves + [m])[1..] == moves[1..] + [m];
      RunAppend(Apply(w, moves[0]), moves[1..], m);
    }
  }

  lemma ReachesNext(w: World, mid: World, m: Action)
    requires Reaches(w, mid) && !m.Crash?
    ensures Reaches(w, Apply(mid, m))
  {
    hide Run, Apply;
    var moves :| NoCrash(moves) && mid == Run(w, moves);
    RunAppend(w, moves, m);
    assert NoCrash(moves + [m]);
  }

  /** One step of an activity, whose outcome is known. */
  lemma Acts(from: World, w: World, tid: Tid, env: Env, step: Step) returns (after: World)
    requires Reaches(from, w) && tid in w.proc.tasks && step.Move?
    requires Next(w, tid, w.proc.tasks[tid], env) == step && step.w.proc.tasks == w.proc.tasks
    ensures Reaches(from, after)
    ensures after == step.w.(proc := step.w.proc.(tasks := w.proc.tasks[tid := step.task]))
  {
    hide Next, Reaches;
    after := Apply(w, Act(tid, env));
    ReachesNext(from, w, Act(tid, env));
  }

  /** A process that boots. */
  function Booting(disk: Disk, dbs: map<string, Database>, pid: nat, pc: Pc): World {
    World(disk, dbs, Started(pid).(tasks := map[BOOT := Task(Boot, pc)]))
  }

  /** The boot goroutine reaches pc with nothing else changed. */
  lemma BootsTo(from: World, w: World, env: Env, next: World, pc: Pc)
    requires Reaches(from, w) && BOOT in w.proc.tasks && w == Booting(w.disk, w.dbs, w.proc.pid, w.proc.tasks[BOOT].pc)
    requires next == Booting(next.disk, next.dbs, w.proc.pid, pc)
    requires Next(w, BOOT, w.proc.tasks[BOOT], env) == Move(next.(proc := w.proc), Task(Boot, pc))
    ensures Reaches(from, next)
  {
    hide Next, Reaches;
    var after := Acts(from, w, BOOT, env, Move(next.(proc := w.proc), Task(Boot, pc)));
    assert after == next;
  }

  function Swept(disk: Disk): Disk { disk.(tmps := map[]) }

  lemma BootsToWrite(w: World, dsn: string, env: Env)
    requires w == Booting(w.disk, w.dbs, w.proc.pid, BootSweep) && w.disk.config == None && w.proc.pid !in w.disk.tmps
    requires Db(w, dsn).names != [] && env == Env(env.now, false, false, {}, Some(dsn))
    ensures var c := Stamped(Config(dsn, Brownfield, 0, 0), env.now);
            Reaches(w, Booting(Swept(w.disk), Migrated(w, dsn).dbs, w.proc.pid, OpenTmp(c)))
  {
    hide Reaches, Next;
    var pid := w.proc.pid;
    var disk, dbs := Swept(w.disk), Migrated(w, dsn).dbs;
    ReachesSelf(w);
    BootNext(w, env);
    assert AfterSweep(w, {}).disk.tmps == map[];
    BootsTo(w, w, env, Booting(disk, w.dbs, pid, BootLoad), BootLoad);
    BootNext(Booting(disk, w.dbs, pid, BootLoad), env);
    BootsTo(w, Booting(disk, w.dbs, pid, BootLoad), env, Booting(disk, w.dbs, pid, BootMigrate(dsn)), BootMigrate(dsn));
    BootNext(Booting(disk, w.dbs, pid, BootMigrate(dsn)), env);
    BootsTo(w, Booting(disk, w.dbs, pid, BootMigrate(dsn)), env, Booting(disk, dbs, pid, BootCount(dsn)), BootCount(dsn));
    BootNext(Booting(disk, dbs, pid, BootCount(dsn)), env);
    var c := Stamped(Config(dsn, Brownfield, 0, 0), env.now);
    BootsTo(w, Booting(disk, dbs, pid, BootCount(dsn)), env, Booting(disk, dbs, pid, OpenTmp(c)), OpenTmp(c));
  }

  lemma BootNext(w: World, env: Env)
    requires BOOT in w.proc.tasks && BootPc(w.proc.tasks[BOOT].pc)
    ensures Next(w, BOOT, w.proc.tasks[BOOT], env) == BootStep(w, w.proc.tasks[BOOT], env)
  {
  }

  lemma WriteNext(w: World, env: Env)
    requires BOOT in w.proc.tasks && WritePc(w.proc.tasks[BOOT].pc)
    ensures Next(w, BOOT, w.proc.tasks[BOOT], env) == WriteStep(w, w.proc.tasks[BOOT], env)
  {
  }

  lemma BootsThroughSync(w: World, disk: Disk, dbs: map<string, Database>, pid: nat, c: Config, env: Env)
    requires Reaches(w, Booting(disk, dbs, pid, OpenTmp(c))) && disk.tmps == map[] && !env.fails
    ensures Reaches(w, Booting(disk.(tmps := map[pid := File(Some(c), true)]), dbs, pid, CloseTmp(c)))
  {
    hide Reaches, Next;
    var d1 := Opened(disk, pid);
    var d2 := Written(d1, pid, c);
    WriteNext(Booting(disk, dbs, pid, OpenTmp(c)), env);
    BootsTo(w, Booting(disk, dbs, pid, OpenTmp(c)), env, Booting(d1, dbs, pid, WriteTmp(c)), WriteTmp(c));
    WriteNext(Booting(d1, dbs, pid, WriteTmp(c)), env);
    BootsTo(w, Booting(d1, dbs, pid, WriteTmp(c)), env, Booting(d2, dbs, pid, SyncTmp(c)), SyncTmp(c));
    WriteNext(Booting(d2, dbs, pid, SyncTmp(c)), env);
    BootsTo(w, Booting(d2, dbs, pid, SyncTmp(c)), env, Booting(Synced(d2, pid), dbs, pid, CloseTmp(c)), CloseTmp(c));
    assert Synced(d2, pid) == disk.(tmps := map[pid := File(Some(c), true)]);
  }

  lemma BootsThroughWrite(w: World, disk: Disk, dbs: map<string, Database>, pid: nat, c: Config, env: Env)
    requires Reaches(w, Booting(disk, dbs, pid, CloseTmp(c))) && disk.tmps == map[pid := File(Some(c), true)] && !env.fails
    ensures var file := Some(File(Some(c), true));
            Reaches(w, Booting(Disk(file, file, map[]), dbs, pid, BootSteady))
  {
    hide Reaches, Next;
    var d := Renamed(disk, pid);
    WriteNext(Booting(disk, dbs, pid, CloseTmp(c)), env);
    BootsTo(w, Booting(disk, dbs, pid, CloseTmp(c)), env, Booting(disk, dbs, pid, RenameTmp(c)), RenameTmp(c));
    WriteNext(Booting(disk, dbs, pid, RenameTmp(c)), env);
    BootsTo(w, Booting(disk, dbs, pid, RenameTmp(c)), env, Booting(d, dbs, pid, SyncDir), SyncDir);
    WriteNext(Booting(d, dbs, pid, SyncDir), env);
    assert d.tmps == map[];
    BootsTo(w, Booting(d, dbs, pid, SyncDir), env, Booting(DirSynced(d), dbs, pid, BootSteady), BootSteady);
  }

  /** After a crash between the database commit and the rename, a restart whose environment names that
      database, and in which nothing fails, writes config.json and reaches the steady state without
      the operator. */
  lemma BrownfieldRecovers(w: World, dsn: string, env: Env)
    requires w == World(w.disk, w.dbs, Started(w.proc.pid)) && w.disk.config == None && w.proc.pid !in w.disk.tmps
    requires Db(w, dsn).names != [] && env == Env(env.now, false, false, {}, Some(dsn))
    ensures exists after :: Reaches(w, after) && after.proc.promoted && after.disk.config.Some? && after.disk.config == after.disk.durable
              && after.disk.config.value.content == Some(Stamped(Config(dsn, Brownfield, 0, 0), env.now))
  {
    hide Reaches, Next;
    var c := Stamped(Config(dsn, Brownfield, 0, 0), env.now);
    BootsToWrite(w, dsn, env);
    var dbs := Migrated(w, dsn).dbs;
    BootsThroughSync(w, Swept(w.disk), dbs, w.proc.pid, c, env);
    BootsThroughWrite(w, Swept(w.disk).(tmps := map[w.proc.pid := File(Some(c), true)]), dbs, w.proc.pid, c, env);
    var file := Some(File(Some(c), true));
    var ready := Booting(Disk(file, file, map[]), dbs, w.proc.pid, BootSteady);
    BootNext(ready, env);
    var after := Acts(w, ready, BOOT, env, BootStep(ready, ready.proc.tasks[BOOT], env));
  }

  /** After a crash that config.json has survived, a restart in which nothing fails reaches the steady
      state. */
  lemma SteadyBootRecovers(w: World, env: Env)
    requires w == World(w.disk, w.dbs, Started(w.proc.pid)) && !env.fails
    requires w.disk.config.Some? && w.disk.config.value.content.Some?
    ensures exists after :: Reaches(w, after) && after.proc.promoted && after.disk.config == w.disk.config
  {
    hide Reaches, Next, AfterSweep;
    var swept := AfterSweep(w, env.stuck).disk;
    assert swept.config == w.disk.config by { SweepKeepsConfig(w, env.stuck); }
    ReachesSelf(w);
    BootNext(w, env);
    BootsTo(w, w, env, Booting(swept, w.dbs, w.proc.pid, BootLoad), BootLoad) by { SweepKeepsConfig(w, env.stuck); }
    var loaded := Booting(swept, w.dbs, w.proc.pid, BootLoad);
    BootNext(loaded, env);
    BootsTo(w, loaded, env, Booting(swept, w.dbs, w.proc.pid, BootSteady), BootSteady);
    var ready := Booting(swept, w.dbs, w.proc.pid, BootSteady);
    BootNext(ready, env);
    var after := Acts(w, ready, BOOT, env, BootStep(ready, ready.proc.tasks[BOOT], env));
  }

  lemma SweepKeepsConfig(w: World, stuck: set<nat>)
    ensures AfterSweep(w, stuck) == w.(disk := AfterSweep(w, stuck).disk)
    ensures AfterSweep(w, stuck).disk.config == w.disk.config
  {
  }

  // ---------------------------------------------------------------- one commit after a pending boot

  /** A process that has booted without config.json, with one commit at work. */
  function Held(p: Process, disk: Disk, dbs: map<string, Database>, t: Task): World {
    World(disk, dbs, p.(tasks := map[BOOT := Task(Boot, Done(Booted)), 1 := t]))
  }

  /** The process while the commit holds the lock. */
  function Locked(pid: nat): Process { Published(Started(pid), false).(lock := Some(1)) }

  /** The commit's next step leads to t2 in process p2. */
  lemma CommitTo(from: World, p: Process, disk: Disk, dbs: map<string, Database>, t: Task, env: Env,
                 p2: Process, disk2: Disk, dbs2: map<string, Database>, t2: Task)
    requires Reaches(from, Held(p, disk, dbs, t))
    requires var w := Held(p, disk, dbs, t);
             Next(w, 1, t, env) == Move(World(disk2, dbs2, p2.(tasks := w.proc.tasks)), t2)
    ensures Reaches(from, Held(p2, disk2, dbs2, t2))
  {
    hide Next, Reaches;
    var w := Held(p, disk, dbs, t);
    var after := Acts(from, w, 1, env, Move(World(disk2, dbs2, p2.(tasks := w.proc.tasks)), t2));
    assert after == Held(p2, disk2, dbs2, t2);
  }

  lemma CommitNext(w: World, t: Task, env: Env)
    requires CommitPc(t.pc)
    ensures Next(w, 1, t, env) == CommitStep(w, 1, t, env)
  {
  }

  lemma WritingNext(w: World, t: Task, env: Env)
    requires WritePc(t.pc)
    ensures Next(w, 1, t, env) == WriteStep(w, t, env)
  {
  }

  /** A restart without database settings in its environment, and the arrival of a commit. */
  lemma CommitArrives(w: World, kind: Kind, env: Env)
    requires w == World(w.disk, w.dbs, Started(w.proc.pid)) && w.disk.config == None && w.proc.pid !in w.disk.tmps
    requires env == Env(env.now, false, false, {}, None) && kind.Commit?
    ensures Reaches(w, Held(Published(Started(w.proc.pid), false).(lock := None), Swept(w.disk), w.dbs, Task(kind, Lock)))
  {
    hide Reaches, Next;
    var pid, disk := w.proc.pid, Swept(w.disk);
    ReachesSelf(w);
    BootNext(w, env);
    assert AfterSweep(w, {}).disk.tmps == map[];
    BootsTo(w, w, env, Booting(disk, w.dbs, pid, BootLoad), BootLoad);
    BootNext(Booting(disk, w.dbs, pid, BootLoad), env);
    BootsTo(w, Booting(disk, w.dbs, pid, BootLoad), env, Booting(disk, w.dbs, pid, BootPending), BootPending);
    var ready := Booting(disk, w.dbs, pid, BootPending);
    BootNext(ready, env);
    var up := Acts(w, ready, BOOT, env, BootStep(ready, ready.proc.tasks[BOOT], env));
    ReachesNext(w, up, Spawn(1, kind));
    assert Apply(up, Spawn(1, kind)) == Held(Published(Started(pid), false).(lock := None), disk, w.dbs, Task(kind, Lock));
  }

  /** What the database holds when the commit starts to write the file. */
  function Seeded(w: World, dsn: string, name: string): World { WithAccount(Migrated(w, dsn), dsn, name) }

  function Payload(dsn: string, name: string, now: int): Config {
    Stamped(Config(dsn, Wizard(Some(name)), now, now), now)
  }

  lemma CommitReachesMigrate(w: World, dsn: string, name: string, env: Env)
    requires w == World(w.disk, w.dbs, Started(w.proc.pid)) && w.disk.config == None && w.proc.pid !in w.disk.tmps
    requires env == Env(env.now, false, false, {}, None)
    ensures Reaches(w, Held(Locked(w.proc.pid), Swept(w.disk), w.dbs, Task(Commit(dsn, Some(name)), Migrate)))
  {
    hide Reaches, Next;
    var k, p, disk, dbs := Commit(dsn, Some(name)), Locked(w.proc.pid), Swept(w.disk), w.dbs;
    var free := Published(Started(w.proc.pid), false).(lock := None);
    CommitArrives(w, k, env);
    CommitNext(Held(free, disk, dbs, Task(k, Lock)), Task(k, Lock), env);
    CommitTo(w, free, disk, dbs, Task(k, Lock), env, p, disk, dbs, Task(k, Recheck));
    CommitNext(Held(p, disk, dbs, Task(k, Recheck)), Task(k, Recheck), env);
    CommitTo(w, p, disk, dbs, Task(k, Recheck), env, p, disk, dbs, Task(k, Check));
    CommitNext(Held(p, disk, dbs, Task(k, Check)), Task(k, Check), env);
    CommitTo(w, p, disk, dbs, Task(k, Check), env, p, disk, dbs, Task(k, Migrate));
  }

  lemma CommitReachesOpen(w: World, dsn: string, name: string, env: Env)
    requires w == World(w.disk, w.dbs, Started(w.proc.pid)) && w.disk.config == None && w.proc.pid !in w.disk.tmps
    requires env == Env(env.now, false, false, {}, None)
    ensures Reaches(w, Held(Locked(w.proc.pid), Swept(w.disk), Seeded(w, dsn, name).dbs,
                            Task(Commit(dsn, Some(name)), OpenTmp(Payload(dsn, name, env.now)))))
  {
    hide Reaches, Next;
    var k, p, disk, dbs := Commit(dsn, Some(name)), Locked(w.proc.pid), Swept(w.disk), w.dbs;
    var dbs1, dbs2 := Migrated(w, dsn).dbs, Seeded(w, dsn, name).dbs;
    CommitReachesMigrate(w, dsn, name, env);
    CommitNext(Held(p, disk, dbs, Task(k, Migrate)), Task(k, Migrate), env);
    CommitTo(w, p, disk, dbs, Task(k, Migrate), env, p, disk, dbs1, Task(k, CreateAccount));
    CommitNext(Held(p, disk, dbs1, Task(k, CreateAccount)), Task(k, CreateAccount), env);
    CommitTo(w, p, disk, dbs1, Task(k, CreateAccount), env, p, disk, dbs2, Task(k, Sweep));
    CommitNext(Held(p, disk, dbs2, Task(k, Sweep)), Task(k, Sweep), env);
    assert AfterSweep(Held(p, disk, dbs2, Task(k, Sweep)), {}).disk.tmps == map[];
    CommitTo(w, p, disk, dbs2, Task(k, Sweep), env, p, disk, dbs2, Task(k, OpenTmp(Payload(dsn, name, env.now))));
  }

  /** The commit writes the file and comes to its reload. */
  lemma CommitWrites(w: World, disk: Disk, dbs: map<string, Database>, pid: nat, k: Kind, c: Config, env: Env)
    requires Reaches(w, Held(Locked(pid), disk, dbs, Task(k, OpenTmp(c)))) && disk.tmps == map[] && !env.fails && k.Commit?
    ensures var file := Some(File(Some(c), true));
            Reaches(w, Held(Locked(pid).(commitWrites := 1), Disk(file, file, map[]), dbs, Task(k, Reload)))
  {
    hide Reaches, Next;
    var p := Locked(pid);
    var d1 := Opened(disk, pid);
    var d2 := Written(d1, pid, c);
    var d3 := disk.(tmps := map[pid := File(Some(c), true)]);
    assert Synced(d2, pid) == d3;
    WritingNext(Held(p, disk, dbs, Task(k, OpenTmp(c))), Task(k, OpenTmp(c)), env);
    CommitTo(w, p, disk, dbs, Task(k, OpenTmp(c)), env, p, d1, dbs, Task(k, WriteTmp(c)));
    WritingNext(Held(p, d1, dbs, Task(k, WriteTmp(c))), Task(k, WriteTmp(c)), env);
    CommitTo(w, p, d1, dbs, Task(k, WriteTmp(c)), env, p, d2, dbs, Task(k, SyncTmp(c)));
    WritingNext(Held(p, d2, dbs, Task(k, SyncTmp(c))), Task(k, SyncTmp(c)), env);
    CommitTo(w, p, d2, dbs, Task(k, SyncTmp(c)), env, p, d3, dbs, Task(k, CloseTmp(c)));
    CommitRenames(w, d3, dbs, pid, k, c, env);
  }

  lemma CommitRenames(w: World, disk: Disk, dbs: map<string, Database>, pid: nat, k: Kind, c: Config, env: Env)
    requires Reaches(w, Held(Locked(pid), disk, dbs, Task(k, CloseTmp(c)))) && !env.fails && k.Commit?
    requires disk.tmps == map[pid := File(Some(c), true)]
    ensures var file := Some(File(Some(c), true));
            Reaches(w, Held(Locked(pid).(commitWrites := 1), Disk(file, file, map[]), dbs, Task(k, Reload)))
  {
    hide Reaches, Next;
    var p, p2 := Locked(pid), Locked(pid).(commitWrites := 1);
    var file := Some(File(Some(c), true));
    var d4 := Renamed(disk, pid);
    assert d4.tmps == map[];
    WritingNext(Held(p, disk, dbs, Task(k, CloseTmp(c))), Task(k, CloseTmp(c)), env);
    CommitTo(w, p, disk, dbs, Task(k, CloseTmp(c)), env, p, disk, dbs, Task(k, RenameTmp(c)));
    WritingNext(Held(p, disk, dbs, Task(k, RenameTmp(c))), Task(k, RenameTmp(c)), env);
    CommitTo(w, p, disk, dbs, Task(k, RenameTmp(c)), env, p2, d4, dbs, Task(k, SyncDir));
    WritingNext(Held(p2, d4, dbs, Task(k, SyncDir)), Task(k, SyncDir), env);
    CommitTo(w, p2, d4, dbs, Task(k, SyncDir), env, p2, Disk(file, file, map[]), dbs, Task(k, Reload));
  }

  // ---------------------------------------------------------------- recovery by a retry of the wizard

  /** After any crash that has left no config.json, whatever it has left in the database, a restart and
      a retry of the commit in which nothing fail reach the steady state with config.json written and
      exactly one row of the name. */
  lemma RetryRecovers(first: World, before: seq<Action>, dsn: string, name: string, env: Env)
    requires FirstBoot(first) && env == Env(env.now, false, false, {}, None)
    ensures var w := Run(first, before);
            w == World(w.disk, w.dbs, Started(w.proc.pid)) && w.disk.config == None && w.proc.pid !in w.disk.tmps ==>
              exists after :: Reaches(w, after) && after.proc.promoted
                && 1 in after.proc.tasks && after.proc.tasks[1].pc == Done(Committed)
                && after.disk.config == Some(File(Some(Payload(dsn, name, env.now)), true))
                && name in Db(after, dsn).names && Unique(Db(after, dsn).names)
  {
    hide Reaches, Next, Run, Unique;
    var w := Run(first, before);
    if w == World(w.disk, w.dbs, Started(w.proc.pid)) && w.disk.config == None && w.proc.pid !in w.disk.tmps {
      var c := Payload(dsn, name, env.now);
      var k, dbs := Commit(dsn, Some(name)), Seeded(w, dsn, name).dbs;
      CommitReachesOpen(w, dsn, name, env);
      CommitWrites(w, Swept(w.disk), dbs, w.proc.pid, k, c, env);
      var file := Some(File(Some(c), true));
      var after := CommitPromotes(w, Disk(file, file, map[]), dbs, w.proc.pid, k, env);
      FirstBootOk(first);
      RunKeeps(first, before);
      ReachedFacts(w, after, dsn);
      assert name in Db(after, dsn).names by { SeededHasName(w, dsn, name); SameRows(Seeded(w, dsn, name), after, dsn); }
    }
  }

  lemma SameRows(a: World, b: World, dsn: string)
    requires a.dbs == b.dbs
    ensures Db(a, dsn) == Db(b, dsn)
  {
  }

  lemma SeededHasName(w: World, dsn: string, name: string)
    ensures name in Db(Seeded(w, dsn, name), dsn).names
  {
    var names := Db(Migrated(w, dsn), dsn).names;
    if name !in names { assert (names + [name])[|names|] == name; }
  }

  lemma ReachedFacts(w: World, after: World, dsn: string)
    requires Inv(w) && Reaches(w, after)
    ensures Unique(Db(after, dsn).names)
  {
    hide Inv, Run;
    var moves :| NoCrash(moves) && after == Run(w, moves);
    RunKeeps(w, moves);
    InvFacts(after, dsn);
  }

  lemma CommitPromotes(w: World, disk: Disk, dbs: map<string, Database>, pid: nat, k: Kind, env: Env) returns (after: World)
    requires Reaches(w, Held(Locked(pid).(commitWrites := 1), disk, dbs, Task(k, Reload))) && !env.fails && k.Commit?
    ensures Reaches(w, after) && after.proc.promoted && after.disk == disk && after.dbs == dbs
    ensures 1 in after.proc.tasks && after.proc.tasks[1].pc == Done(Committed)
  {
    hide Reaches, Next;
    var p := Locked(pid).(commitWrites := 1);
    var p2 := Published(p, true);
    CommitNext(Held(p, disk, dbs, Task(k, Reload)), Task(k, Reload), env);
    CommitTo(w, p, disk, dbs, Task(k, Reload), env, p, disk, dbs, Task(k, Promote));
    CommitNext(Held(p, disk, dbs, Task(k, Promote)), Task(k, Promote), env);
    CommitTo(w, p, disk, dbs, Task(k, Promote), env, p2, disk, dbs, Task(k, Unlock(Committed)));
    CommitNext(Held(p2, disk, dbs, Task(k, Unlock(Committed))), Task(k, Unlock(Committed)), env);
    CommitTo(w, p2, disk, dbs, Task(k, Unlock(Committed)), env, p2.(lock := None), disk, dbs, Task(k, Done(Committed)));
    after := Held(p2.(lock := None), disk, dbs, Task(k, Done(Committed)));
  }

  // ---------------------------------------------------------------- runs that need a restart

  const EMPTY_DISK := Disk(None, None, map[])
  const FIRST := World(EMPTY_DISK, map[], Started(7))
  const OK := Env(1, false, false, {}, None)
  const FAILS := Env(1, true, false, {}, None)

  lemma FirstIsFirst()
    ensures FirstBoot(FIRST) && FIRST.proc.pid !in FIRST.disk.tmps
  {
  }

  /** A run from a first boot to a failed reload: config.json is there, the lock is free, and the process
      is not promoted. */
  lemma ReloadCanFail()
    ensures exists w :: Reaches(FIRST, w) && FirstBoot(FIRST) && w.proc.lock.None? && w.disk.config.Some?
              && !w.proc.promoted && 1 in w.proc.tasks && w.proc.tasks[1].pc == Done(ReloadFailed)
  {
    hide Reaches, Next, FirstBoot;
    FirstIsFirst();
    var c := Payload("db", "a", OK.now);
    var k, dbs := Commit("db", Some("a")), Seeded(FIRST, "db", "a").dbs;
    CommitReachesOpen(FIRST, "db", "a", OK);
    CommitWrites(FIRST, Swept(EMPTY_DISK), dbs, 7, k, c, OK);
    var file := Some(File(Some(c), true));
    var disk, p := Disk(file, file, map[]), Locked(7).(commitWrites := 1);
    var p2 := p.(reloadFailed := true);
    CommitNext(Held(p, disk, dbs, Task(k, Reload)), Task(k, Reload), FAILS);
    CommitTo(FIRST, p, disk, dbs, Task(k, Reload), FAILS, p2, disk, dbs, Task(k, Unlock(ReloadFailed)));
    CommitNext(Held(p2, disk, dbs, Task(k, Unlock(ReloadFailed))), Task(k, Unlock(ReloadFailed)), OK);
    CommitTo(FIRST, p2, disk, dbs, Task(k, Unlock(ReloadFailed)), OK, p2.(lock := None), disk, dbs, Task(k, Done(ReloadFailed)));
    assert Held(p2.(lock := None), disk, dbs, Task(k, Done(ReloadFailed))).proc.tasks[1].pc == Done(ReloadFailed);
  }

  /** A run from a first boot to a tmp file that stays: the write fails and so does its removal. */
  lemma TmpCanStay()
    ensures exists w :: Reaches(FIRST, w) && FirstBoot(FIRST) && w.proc.lock.None? && w.proc.leftover
              && w.proc.pid in w.disk.tmps && w.disk.config.None?
  {
    hide Reaches, Next, FirstBoot;
    FirstIsFirst();
    var c := Payload("db", "a", OK.now);
    var k, dbs := Commit("db", Some("a")), Seeded(FIRST, "db", "a").dbs;
    var disk, p := Swept(EMPTY_DISK), Locked(7);
    var d1 := Opened(disk, 7);
    var p2 := p.(leftover := true);
    CommitReachesOpen(FIRST, "db", "a", OK);
    WritingNext(Held(p, disk, dbs, Task(k, OpenTmp(c))), Task(k, OpenTmp(c)), OK);
    CommitTo(FIRST, p, disk, dbs, Task(k, OpenTmp(c)), OK, p, d1, dbs, Task(k, WriteTmp(c)));
    WritingNext(Held(p, d1, dbs, Task(k, WriteTmp(c))), Task(k, WriteTmp(c)), FAILS);
    CommitTo(FIRST, p, d1, dbs, Task(k, WriteTmp(c)), FAILS, p, d1, dbs, Task(k, RemoveTmp));
    WritingNext(Held(p, d1, dbs, Task(k, RemoveTmp)), Task(k, RemoveTmp), FAILS);
    CommitTo(FIRST, p, d1, dbs, Task(k, RemoveTmp), FAILS, p2, d1, dbs, Task(k, Unlock(Failed)));
    CommitNext(Held(p2, d1, dbs, Task(k, Unlock(Failed))), Task(k, Unlock(Failed)), OK);
    CommitTo(FIRST, p2, d1, dbs, Task(k, Unlock(Failed)), OK, p2.(lock := None), d1, dbs, Task(k, Done(Failed)));
    assert Held(p2.(lock := None), d1, dbs, Task(k, Done(Failed))).proc.leftover;
  }
}
