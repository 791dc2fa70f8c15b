/** What every run of boots, commits, requests and crashes keeps. */
module SetupSafety {
  import opened Wrappers
  import opened ConfigWriter
  import opened SetupMachine

  // ---------------------------------------------------------------- the invariant

  /** A configuration's database is migrated and holds what the configuration promises. */
  predicate Backed(w: World, c: Config) {
    && Db(w, c.dsn).migrated
    && match c.origin
       case Wizard(seeded) => seeded.Some? ==> seeded.value in Db(w, c.dsn).names
       case Brownfield => Db(w, c.dsn).names != []
  }

  predicate FileOk(w: World, f: Option<File>) {
    Complete(f) && (f.Some? ==> Backed(w, f.value.content.value))
  }

  predicate DiskOk(w: World) { FileOk(w, w.disk.config) && FileOk(w, w.disk.durable) }

  predicate Unique(names: seq<string>) { forall i, j :: 0 <= i < j < |names| ==> names[i] != names[j] }

  predicate DbsOk(w: World) { forall d :: d in w.dbs ==> Unique(w.dbs[d].names) }

  predicate GateOk(h: Handler) { (h.gate.done ==> h.steady) && (!h.steady ==> h.gate.observerDisabled) }

  predicate ProcOk(w: World) {
    var p := w.proc;
    && (forall i :: 0 <= i < |p.handlers| ==> GateOk(p.handlers[i]))
    && (p.current.Some? ==> p.current.value < |p.handlers|)
    && p.commitWrites <= 1 && (p.commitWrites == 1 ==> w.disk.config.Some?)
    && p.promotions == (if p.promoted then 1 else 0)
    && (p.promoted ==> w.disk.config.Some?)
    && (!p.promoted ==> forall i :: 0 <= i < |p.handlers| ==> !p.handlers[i].steady)
    && (p.reloadFailed ==> w.disk.config.Some? && !p.promoted)
    && (p.leftover ==> p.pid in w.disk.tmps)
    && (p.current.None? ==> p.lock == Some(BOOT) && !p.promoted && p.commitWrites == 0 && !p.reloadFailed)
    && (p.lock.None? ==> Quiet(w))
  }

  /** What holds while nobody boots or commits: a config.json that is there was promoted or its reload
      failed, and a tmp file of this process was left over. */
  predicate Quiet(w: World) {
    && (w.disk.config.Some? ==> w.proc.promoted || w.proc.reloadFailed)
    && (w.proc.pid in w.disk.tmps ==> w.proc.leftover)
  }

  predicate WorldOk(w: World) { DiskOk(w) && DbsOk(w) && ProcOk(w) }

  /** Between taking the lock, or starting to boot, and releasing it. */
  predicate Critical(pc: Pc) { BootPc(pc) || WritePc(pc) || (CommitPc(pc) && !pc.Lock?) }

  /** Past the check that config.json is absent, and not yet past the rename. */
  predicate Writing(pc: Pc) {
    pc.Check? || pc.Migrate? || pc.CreateAccount? || pc.Sweep? || (WritePc(pc) && !pc.SyncDir?)
  }

  /** The process's tmp file is open, or is about to be renamed or removed. */
  predicate TmpInUse(pc: Pc) {
    pc.WriteTmp? || pc.SyncTmp? || pc.CloseTmp? || pc.RenameTmp? || pc.RemoveTmp?
  }

  /** The tmp file of the process at each place of its writer. */
  predicate TmpOk(w: World, pc: Pc) {
    && (if TmpInUse(pc) then w.proc.pid in w.disk.tmps && !w.proc.leftover
        else w.proc.pid in w.disk.tmps ==> w.proc.leftover)
    && (pc.OpenTmp? || pc.WriteTmp? || pc.SyncTmp? || pc.CloseTmp? || pc.RenameTmp? ==> Backed(w, pc.c))
    && (pc.SyncTmp? ==> w.proc.pid in w.disk.tmps && w.disk.tmps[w.proc.pid].content == Some(pc.c))
    && (pc.CloseTmp? || pc.RenameTmp? ==>
          w.proc.pid in w.disk.tmps && w.disk.tmps[w.proc.pid] == File(Some(pc.c), true))
  }

  /** What the activity that holds the lock relies on. */
  predicate CriticalOk(w: World, t: Task) {
    && !t.kind.Request? && (BootPc(t.pc) ==> t.kind.Boot?) && (CommitPc(t.pc) ==> t.kind.Commit?)
    && (Writing(t.pc) ==> w.disk.config.None?)
    && (t.kind.Boot? <==> w.proc.current.None?)
    && (t.pc.CreateAccount? || t.pc.Sweep? ==> Db(w, t.kind.dsn).migrated)
    && (t.pc.Sweep? && t.kind.account.Some? ==> t.kind.account.value in Db(w, t.kind.dsn).names)
    && (t.pc.BootCount? ==> Db(w, t.pc.dsn).migrated)
    && (t.pc.SyncDir? || t.pc.BootSteady? || t.pc.Reload? || t.pc.Promote? ==>
          w.disk.config.Some? && !w.proc.reloadFailed && !w.proc.promoted)
    && (t.pc.BootMigrate? || t.pc.BootCount? || t.pc.BootPending? ==> w.disk.config.None?)
    && (t.pc.Recheck? || t.pc.Unlock? ==> Quiet(w))
    && TmpOk(w, t.pc)
  }

  predicate TaskOk(w: World, tid: Tid, t: Task) {
    && (Critical(t.pc) ==> w.proc.lock == Some(tid) && CriticalOk(w, t))
    && (t.pc.Lock? ==> t.kind.Commit? && w.proc.current.Some?)
    && (t.pc.GateFast? || t.pc.GateLocked? || t.pc.Stat? || t.pc.Latch? || t.pc.Passed? || t.pc.Held? ==>
          t.pc.h < |w.proc.handlers|)
    && (t.pc.Stat? || t.pc.Latch? || t.pc.Passed? ==> w.proc.handlers[t.pc.h].steady)
    && (t.pc == Unlock(Committed) || t.pc == Done(Committed) ==> w.proc.promoted)
    && (Failing(t.pc) ==> w.proc.reloadFailed)
  }

  /** A commit whose reload or promotion failed. */
  predicate Failing(pc: Pc) { pc == Unlock(ReloadFailed) || pc == Done(ReloadFailed) }

  predicate Inv(w: World) {
    && WorldOk(w) && (forall tid :: tid in w.proc.tasks ==> TaskOk(w, tid, w.proc.tasks[tid]))
    && (w.proc.reloadFailed ==> exists tid :: tid in w.proc.tasks && Failing(w.proc.tasks[tid].pc))
  }

  // ---------------------------------------------------------------- what the others may rely on

  /** Handlers are only added; their gates never close and their muxes never change. */
  predicate HandlersLater(a: seq<Handler>, b: seq<Handler>) {
    && |a| <= |b|
    && forall i :: 0 <= i < |a| ==> b[i].steady == a[i].steady && (a[i].gate.done ==> b[i].gate.done)
  }

  predicate SameSetup(a: Process, b: Process) {
    && b.current == a.current && b.promoted == a.promoted && b.reloadFailed == a.reloadFailed
    && b.leftover == a.leftover
  }

  /** Activity tid's step, as another activity sees it: without the lock it changes gates only. */
  predicate Later(a: World, b: World, tid: Tid) {
    && HandlersLater(a.proc.handlers, b.proc.handlers)
    && b.proc.pid == a.proc.pid && (a.proc.current.Some? ==> b.proc.current.Some?)
    && (a.proc.promoted ==> b.proc.promoted) && (a.proc.reloadFailed ==> b.proc.reloadFailed)
    && (a.proc.lock == Some(tid)
        || (b.disk == a.disk && b.dbs == a.dbs && SameSetup(a.proc, b.proc)
            && (b.proc.lock == a.proc.lock || a.proc.lock == None)))
  }

  lemma Stable(a: World, b: World, tid: Tid, other: Tid, t: Task)
    requires Later(a, b, tid) && TaskOk(a, other, t) && tid != other
    ensures TaskOk(b, other, t)
  {
    hide Backed, BootPc, WritePc, CommitPc;
    if Critical(t.pc) { SameDisk(a, b, t); }
  }

  lemma SameDisk(a: World, b: World, t: Task)
    requires b.disk == a.disk && b.dbs == a.dbs && b.proc.pid == a.proc.pid && SameSetup(a.proc, b.proc)
    requires CriticalOk(a, t)
    ensures CriticalOk(b, t)
  {
    hide BootPc, WritePc, CommitPc, Writing;
    assert forall c: Config :: Backed(a, c) == Backed(b, c);
  }

  // ---------------------------------------------------------------- databases only grow

  /** Migrations stay, names stay. */
  ghost predicate DbsLater(a: World, b: World) {
    forall d: string :: (Db(a, d).migrated ==> Db(b, d).migrated) && (forall n :: n in Db(a, d).names ==> n in Db(b, d).names)
  }

  lemma StillBacked(a: World, b: World, c: Config)
    requires DbsLater(a, b) && Backed(a, c)
    ensures Backed(b, c)
  {
    hide Db;
    if c.origin.Brownfield? { assert Db(a, c.dsn).names[0] in Db(b, c.dsn).names; }
  }

  lemma FilesStay(a: World, b: World)
    requires DbsLater(a, b) && DiskOk(a) && b.disk.config == a.disk.config && b.disk.durable == a.disk.durable
    ensures DiskOk(b)
  {
    hide Backed, DbsLater;
    if a.disk.config.Some? { StillBacked(a, b, a.disk.config.value.content.value); }
    if a.disk.durable.Some? { StillBacked(a, b, a.disk.durable.value.content.value); }
  }

  lemma MigratedOk(w: World, dsn: string)
    requires DbsOk(w) && DiskOk(w)
    ensures DbsOk(Migrated(w, dsn)) && DbsLater(w, Migrated(w, dsn)) && Db(Migrated(w, dsn), dsn).migrated
    ensures DiskOk(Migrated(w, dsn))
  {
    FilesStay(w, Migrated(w, dsn));
  }

  lemma WithAccountOk(w: World, dsn: string, name: string)
    requires DbsOk(w) && DiskOk(w)
    ensures var after := WithAccount(w, dsn, name);
            DbsOk(after) && DiskOk(after) && name in Db(after, dsn).names
            && Db(after, dsn).migrated == Db(w, dsn).migrated && DbsLater(w, after)
  {
    hide FileOk;
    var after := WithAccount(w, dsn, name);
    if name !in Db(w, dsn).names {
      assert after.dbs[dsn].names[|Db(w, dsn).names|] == name;
      forall d: string, n | n in Db(w, d).names ensures n in Db(after, d).names {
        if d == dsn { var i :| 0 <= i < |Db(w, d).names| && Db(w, d).names[i] == n; assert after.dbs[dsn].names[i] == n; }
      }
    }
    assert DbsLater(w, after);
    FilesStay(w, after);
  }

  // ---------------------------------------------------------------- each step

  predicate StepOk(w: World, tid: Tid, step: Step) {
    step.Move? ==> WorldOk(step.w) && TaskOk(step.w, tid, step.task) && Later(w, step.w, tid)
  }

  lemma ProcFacts(w: World)
    requires WorldOk(w)
    ensures w.proc.reloadFailed ==> w.disk.config.Some? && !w.proc.promoted && w.proc.current.Some?
    ensures w.proc.leftover ==> w.proc.pid in w.disk.tmps
    ensures w.proc.promoted ==> w.disk.config.Some?
    ensures w.proc.lock.None? ==> Quiet(w)
    ensures w.proc.current.None? ==> !w.proc.promoted
    ensures DiskOk(w) && DbsOk(w)
  {
    hide DiskOk, DbsOk;
  }

  /** A step that changes nothing but its own place. */
  lemma StayOk(w: World, tid: Tid, t: Task)
    requires WorldOk(w) && TaskOk(w, tid, t)
    ensures StepOk(w, tid, Move(w, t))
  {
    hide WorldOk, TaskOk;
  }

  lemma BlockedOk(w: World, tid: Tid)
    ensures StepOk(w, tid, Blocked)
  {
  }

  /** A step of the lock's holder that changes the databases and the disk, and no handler. */
  lemma HolderOk(w: World, tid: Tid, after: World, t: Task)
    requires WorldOk(w) && w.proc.lock == Some(tid)
    requires after.proc == w.proc.(reloadFailed := after.proc.reloadFailed, leftover := after.proc.leftover)
    requires w.proc.reloadFailed ==> after.proc.reloadFailed
    requires after.proc.reloadFailed ==> after.disk.config.Some? && !w.proc.promoted && w.proc.current.Some?
    requires after.proc.leftover ==> w.proc.pid in after.disk.tmps
    requires t.pc == Unlock(Committed) ==> w.proc.promoted
    requires Failing(t.pc) ==> after.proc.reloadFailed
    requires DiskOk(after) && DbsOk(after) && (w.disk.config.Some? ==> after.disk.config.Some?)
    requires Critical(t.pc) && CriticalOk(after, t)
    ensures StepOk(w, tid, Move(after, t))
  {
    hide DiskOk, DbsOk, CriticalOk, GateOk;
  }

  /** The tmp files are no part of what a configuration promises. */
  lemma TmpsOk(w: World, tmps: map<nat, File>)
    requires DiskOk(w)
    ensures DiskOk(w.(disk := w.disk.(tmps := tmps)))
    ensures forall c: Config :: Backed(w.(disk := w.disk.(tmps := tmps)), c) == Backed(w, c)
  {
  }

  lemma OpenTmpOk(w: World, tid: Tid, t: Task, env: Env)
    requires WorldOk(w) && TaskOk(w, tid, t) && (t.pc.OpenTmp? || t.pc.WriteTmp?)
    ensures StepOk(w, tid, WriteStep(w, t, env))
  {
    hide DiskOk, DbsOk, ProcOk, Backed, StepOk;
    ProcFacts(w);
    var step := WriteStep(w, t, env);
    TmpsOk(w, step.w.disk.tmps);
    SameDbs(w, step.w);
    assert step.w == w.(disk := w.disk.(tmps := step.w.disk.tmps));
    if Critical(step.task.pc) { HolderOk(w, tid, step.w, step.task); } else { StayOk(w, tid, step.task); }
  }

  lemma CloseTmpOk(w: World, tid: Tid, t: Task, env: Env)
    requires WorldOk(w) && TaskOk(w, tid, t) && t.pc.CloseTmp?
    ensures StepOk(w, tid, WriteStep(w, t, env))
  {
    hide DiskOk, DbsOk, ProcOk, Backed, StepOk;
    ProcFacts(w);
    SameDbs(w, w);
    HolderOk(w, tid, w, WriteStep(w, t, env).task);
  }

  lemma SyncTmpOk(w: World, tid: Tid, t: Task, env: Env)
    requires WorldOk(w) && TaskOk(w, tid, t) && t.pc.SyncTmp?
    ensures StepOk(w, tid, WriteStep(w, t, env))
  {
    hide DiskOk, DbsOk, ProcOk, Backed, StepOk;
    ProcFacts(w);
    var step := WriteStep(w, t, env);
    if step.Move? {
      TmpsOk(w, step.w.disk.tmps);
      SameDbs(w, step.w);
      assert step.w == w.(disk := w.disk.(tmps := step.w.disk.tmps));
      HolderOk(w, tid, step.w, step.task);
    }
  }

  lemma RemoveTmpOk(w: World, tid: Tid, t: Task, env: Env)
    requires WorldOk(w) && TaskOk(w, tid, t) && t.pc.RemoveTmp?
    ensures StepOk(w, tid, WriteStep(w, t, env))
  {
    hide DiskOk, DbsOk, ProcOk, Backed, StepOk;
    ProcFacts(w);
    var step := WriteStep(w, t, env);
    SameFiles(w.(disk := step.w.disk), step.w);
    TmpsOk(w, step.w.disk.tmps);
    SameDbs(w, step.w);
    assert w.(disk := step.w.disk) == w.(disk := w.disk.(tmps := step.w.disk.tmps));
    if step.task.pc.Aborted? { AbortOk(w, tid, step.w, step.task); } else { HolderOk(w, tid, step.w, step.task); }
  }

  lemma AbortOk(w: World, tid: Tid, after: World, t: Task)
    requires WorldOk(w) && w.proc.lock == Some(tid)
    requires after.proc == w.proc.(leftover := after.proc.leftover)
    requires after.proc.leftover ==> w.proc.pid in after.disk.tmps
    requires DiskOk(after) && DbsOk(after) && (w.disk.config.Some? ==> after.disk.config.Some?) && t.pc.Aborted?
    ensures StepOk(w, tid, Move(after, t))
  {
    hide DiskOk, DbsOk;
  }

  lemma RenameOk(w: World, tid: Tid, t: Task, env: Env)
    requires WorldOk(w) && TaskOk(w, tid, t) && (t.pc.RenameTmp? || t.pc.SyncDir?)
    ensures StepOk(w, tid, WriteStep(w, t, env))
  {
    hide DbsOk, Backed, GateOk;
    var step := WriteStep(w, t, env);
    if step.Move? {
      assert forall c: Config :: Backed(step.w, c) == Backed(w, c) by { SameDbs(w, step.w); }
      assert DbsOk(step.w) by { SameDbs(w, step.w); }
    }
  }

  lemma SameDbs(w: World, after: World)
    requires after.dbs == w.dbs
    ensures forall c: Config :: Backed(after, c) == Backed(w, c)
    ensures DbsOk(after) == DbsOk(w)
  {
  }

  lemma RequestOk(w: World, tid: Tid, t: Task, env: Env)
    requires WorldOk(w) && TaskOk(w, tid, t)
    requires t.pc.LoadHandler? || t.pc.GateFast? || t.pc.GateLocked? || t.pc.Stat? || t.pc.Latch?
    ensures StepOk(w, tid, RequestStep(w, t, env))
  {
    hide DiskOk, DbsOk, CriticalOk;
    var step := RequestStep(w, t, env);
    if step.Move? {
      assert DbsOk(step.w) by { SameDbs(w, step.w); }
      assert DiskOk(step.w) by { SameFiles(w, step.w); }
    }
  }

  lemma SameFiles(w: World, after: World)
    requires after.dbs == w.dbs && after.disk == w.disk
    ensures DiskOk(after) == DiskOk(w)
  {
    hide Complete;
    SameDbs(w, after);
  }

  lemma SwapOk(w: World, tid: Tid, t: Task, after: World, last: Task)
    requires WorldOk(w) && w.proc.lock == Some(tid) && DiskOk(after) && DbsOk(after) && w.disk.config == after.disk.config
    requires after.proc == Published(w.proc, true).(lock := after.proc.lock) && (after.proc.lock == None || after.proc.lock == Some(tid))
    requires !w.proc.promoted && !w.proc.reloadFailed && w.disk.config.Some? && after.disk.tmps == w.disk.tmps
    requires w.proc.pid in w.disk.tmps <==> w.proc.leftover
    requires last.pc == Done(Booted) || (last.pc == Unlock(Committed) && last.kind.Commit? && after.proc.lock == Some(tid))
    ensures StepOk(w, tid, Move(after, last))
  {
    hide DiskOk, DbsOk;
  }

  lemma BootSweepOk(w: World, tid: Tid, t: Task, env: Env)
    requires WorldOk(w) && TaskOk(w, tid, t) && t.pc.BootSweep?
    ensures StepOk(w, tid, BootStep(w, t, env))
  {
    hide DiskOk, DbsOk, ProcOk, Backed, StepOk;
    ProcFacts(w);
    var step := BootStep(w, t, env);
    TmpsOk(w, step.w.disk.tmps);
    SameDbs(w, step.w);
    assert step.w == w.(disk := w.disk.(tmps := step.w.disk.tmps));
    HolderOk(w, tid, step.w, step.task);
  }

  lemma BootLoadOk(w: World, tid: Tid, t: Task, env: Env)
    requires WorldOk(w) && TaskOk(w, tid, t) && t.pc.BootLoad?
    ensures StepOk(w, tid, BootStep(w, t, env))
  {
    hide DiskOk, DbsOk, ProcOk, Backed, StepOk;
    ProcFacts(w);
    var step := BootStep(w, t, env);
    if step.task.pc.Aborted? { StayOk(w, tid, step.task); } else { HolderOk(w, tid, step.w, step.task); }
  }

  lemma BootMigrateOk(w: World, tid: Tid, t: Task, env: Env)
    requires WorldOk(w) && TaskOk(w, tid, t) && t.pc.BootMigrate?
    ensures StepOk(w, tid, BootStep(w, t, env))
  {
    hide DiskOk, DbsOk, ProcOk, Backed, StepOk;
    ProcFacts(w);
    var step := BootStep(w, t, env);
    MigratedOk(w, t.pc.dsn);
    if step.task.pc.Aborted? { StayOk(w, tid, step.task); } else { HolderOk(w, tid, step.w, step.task); }
  }

  lemma BootCountOk(w: World, tid: Tid, t: Task, env: Env)
    requires WorldOk(w) && TaskOk(w, tid, t) && t.pc.BootCount?
    ensures StepOk(w, tid, BootStep(w, t, env))
  {
    hide DiskOk, DbsOk, ProcOk, StepOk;
    ProcFacts(w);
    var step := BootStep(w, t, env);
    if step.task.pc.Aborted? { StayOk(w, tid, step.task); } else { HolderOk(w, tid, step.w, step.task); }
  }

  lemma BootReadyOk(w: World, tid: Tid, t: Task, env: Env)
    requires WorldOk(w) && TaskOk(w, tid, t) && t.pc.BootSteady?
    ensures StepOk(w, tid, BootStep(w, t, env))
  {
    hide DbsOk, Backed, StepOk;
    var step := BootStep(w, t, env);
    if step.task.pc.Aborted? {
      StayOk(w, tid, step.task);
    } else {
      MigratedOk(w, w.disk.config.value.content.value.dsn);
      SameFiles(Migrated(w, w.disk.config.value.content.value.dsn), step.w);
      SameDbs(Migrated(w, w.disk.config.value.content.value.dsn), step.w);
      SwapOk(w, tid, t, step.w, step.task);
    }
  }

  lemma BootPendingOk(w: World, tid: Tid, t: Task, env: Env)
    requires WorldOk(w) && TaskOk(w, tid, t) && t.pc.BootPending?
    ensures StepOk(w, tid, BootStep(w, t, env))
  {
    hide DiskOk, DbsOk;
    var step := BootStep(w, t, env);
    SameFiles(w, step.w);
    SameDbs(w, step.w);
  }

  lemma LockOk(w: World, tid: Tid, t: Task, env: Env)
    requires WorldOk(w) && TaskOk(w, tid, t) && t.pc.Lock?
    ensures StepOk(w, tid, CommitStep(w, tid, t, env))
  {
    hide DiskOk, DbsOk, GateOk;
    var step := CommitStep(w, tid, t, env);
    if step.Move? {
      SameFiles(w, step.w);
      SameDbs(w, step.w);
    }
  }

  lemma UnlockOk(w: World, tid: Tid, t: Task, env: Env)
    requires WorldOk(w) && TaskOk(w, tid, t) && t.pc.Unlock?
    ensures StepOk(w, tid, CommitStep(w, tid, t, env))
  {
    hide DiskOk, DbsOk, GateOk;
    var step := CommitStep(w, tid, t, env);
    if step.Move? {
      SameFiles(w, step.w);
      SameDbs(w, step.w);
    }
  }

  lemma CommitReadOk(w: World, tid: Tid, t: Task, env: Env)
    requires WorldOk(w) && TaskOk(w, tid, t) && (t.pc.Recheck? || t.pc.Check?)
    ensures StepOk(w, tid, CommitStep(w, tid, t, env))
  {
    hide DiskOk, DbsOk, ProcOk, StepOk;
    ProcFacts(w);
    var step := CommitStep(w, tid, t, env);
    HolderOk(w, tid, step.w, step.task);
  }

  lemma MigrateOk(w: World, tid: Tid, t: Task, env: Env)
    requires WorldOk(w) && TaskOk(w, tid, t) && t.pc.Migrate?
    ensures StepOk(w, tid, CommitStep(w, tid, t, env))
  {
    hide DiskOk, DbsOk, ProcOk, StepOk, Backed, Unique;
    ProcFacts(w);
    var step := CommitStep(w, tid, t, env);
    MigratedOk(w, t.kind.dsn);
    HolderOk(w, tid, step.w, step.task);
  }

  lemma CreateAccountOk(w: World, tid: Tid, t: Task, env: Env)
    requires WorldOk(w) && TaskOk(w, tid, t) && t.pc.CreateAccount?
    ensures StepOk(w, tid, CommitStep(w, tid, t, env))
  {
    hide DiskOk, DbsOk, ProcOk, StepOk, Backed, Unique;
    ProcFacts(w);
    var step := CommitStep(w, tid, t, env);
    if step.Move? {
      WithAccountOk(w, t.kind.dsn, t.kind.account.value);
      HolderOk(w, tid, step.w, step.task);
    } else {
      BlockedOk(w, tid);
    }
  }

  lemma ReloadOk(w: World, tid: Tid, t: Task, env: Env)
    requires WorldOk(w) && TaskOk(w, tid, t) && t.pc.Reload?
    ensures StepOk(w, tid, CommitStep(w, tid, t, env))
  {
    hide DiskOk, DbsOk, StepOk;
    var step := CommitStep(w, tid, t, env);
    SameFiles(w, step.w);
    SameDbs(w, step.w);
    ProcFacts(w);
    hide ProcOk;
    HolderOk(w, tid, step.w, step.task);
  }

  lemma SweepOk(w: World, tid: Tid, t: Task, env: Env)
    requires WorldOk(w) && TaskOk(w, tid, t) && t.pc.Sweep?
    ensures StepOk(w, tid, CommitStep(w, tid, t, env))
  {
    hide DiskOk, DbsOk, ProcOk, StepOk;
    ProcFacts(w);
    var step := CommitStep(w, tid, t, env);
    TmpsOk(w, step.w.disk.tmps);
    SameDbs(w, AfterSweep(w, env.stuck));
    HolderOk(w, tid, step.w, step.task);
  }

  lemma PromoteOk(w: World, tid: Tid, t: Task, env: Env)
    requires WorldOk(w) && TaskOk(w, tid, t) && t.pc.Promote?
    ensures StepOk(w, tid, CommitStep(w, tid, t, env))
  {
    hide DiskOk, DbsOk, StepOk, ProcOk;
    ProcFacts(w);
    var step := CommitStep(w, tid, t, env);
    SameFiles(w, step.w);
    SameDbs(w, step.w);
    if env.fails {
      HolderOk(w, tid, step.w, step.task);
    } else {
      SwapOk(w, tid, t, step.w, step.task);
    }
  }

  lemma ActionKeeps(w: World, tid: Tid, t: Task, env: Env)
    requires WorldOk(w) && TaskOk(w, tid, t)
    ensures StepOk(w, tid, Next(w, tid, t, env))
  {
    hide WorldOk, TaskOk, StepOk, BootStep, WriteStep, CommitStep, RequestStep;
    if BootPc(t.pc) {
      if t.pc.BootCount? { BootCountOk(w, tid, t, env); }
      else if t.pc.BootSteady? { BootReadyOk(w, tid, t, env); }
      else if t.pc.BootPending? { BootPendingOk(w, tid, t, env); }
      else if t.pc.BootSweep? { BootSweepOk(w, tid, t, env); }
      else if t.pc.BootLoad? { BootLoadOk(w, tid, t, env); }
      else { BootMigrateOk(w, tid, t, env); }
    } else if WritePc(t.pc) {
      if t.pc.OpenTmp? || t.pc.WriteTmp? { OpenTmpOk(w, tid, t, env); }
      else if t.pc.RenameTmp? || t.pc.SyncDir? { RenameOk(w, tid, t, env); }
      else if t.pc.RemoveTmp? { RemoveTmpOk(w, tid, t, env); }
      else if t.pc.CloseTmp? { CloseTmpOk(w, tid, t, env); }
      else { SyncTmpOk(w, tid, t, env); }
    } else if CommitPc(t.pc) {
      if t.pc.Lock? { LockOk(w, tid, t, env); }
      else if t.pc.Unlock? { UnlockOk(w, tid, t, env); }
      else if t.pc.Migrate? { MigrateOk(w, tid, t, env); }
      else if t.pc.CreateAccount? { CreateAccountOk(w, tid, t, env); }
      else if t.pc.Reload? { ReloadOk(w, tid, t, env); }
      else if t.pc.Sweep? { SweepOk(w, tid, t, env); }
      else if t.pc.Promote? { PromoteOk(w, tid, t, env); }
      else { CommitReadOk(w, tid, t, env); }
    } else if t.pc.LoadHandler? || t.pc.GateFast? || t.pc.GateLocked? || t.pc.Stat? || t.pc.Latch? {
      RequestOk(w, tid, t, env);
    } else {
      NoStep(w, tid, t, env);
    }
  }

  lemma NoStep(w: World, tid: Tid, t: Task, env: Env)
    requires t.pc.Passed? || t.pc.Held? || t.pc.Aborted? || t.pc.Done?
    ensures StepOk(w, tid, RequestStep(w, t, env))
  {
  }

  // ---------------------------------------------------------------- every run

  lemma CrashOk(w: World, power: bool, disk: Disk, pid: nat)
    requires WorldOk(w) && (if power then PowerLoss(w.disk, disk) else disk == w.disk) && pid !in disk.tmps
    ensures Inv(World(disk, w.dbs, Started(pid)))
  {
    hide Backed;
    SameDbs(w, World(disk, w.dbs, Started(pid)));
  }

  lemma SpawnOk(w: World, tid: Tid, t: Task)
    requires w.proc.current.Some? && ((t.kind.Commit? && t.pc.Lock?) || t.pc.LoadHandler?)
    ensures TaskOk(w, tid, t)
  {
  }

  lemma MoveKeeps(w: World, m: Action)
    requires Inv(w)
    ensures Inv(Apply(w, m))
  {
    hide WorldOk, TaskOk, Next, Later, PowerLoss;
    var after := Apply(w, m);
    match m
    case Spawn(tid, kind) =>
      if after != w {
        SameTasks(w, after);
        SpawnOk(w, tid, after.proc.tasks[tid]);
        if w.proc.reloadFailed {
          var k :| k in w.proc.tasks && Failing(w.proc.tasks[k].pc);
          assert Failing(after.proc.tasks[k].pc);
        }
      }
    case Act(tid, env) =>
      if tid in w.proc.tasks {
        ActionKeeps(w, tid, w.proc.tasks[tid], env);
        var step := Next(w, tid, w.proc.tasks[tid], env);
        if step.Move? {
          assert step.w.proc.tasks == w.proc.tasks by { TasksUntouched(w, tid, w.proc.tasks[tid], env); }
          forall other | other in w.proc.tasks && other != tid ensures TaskOk(step.w, other, w.proc.tasks[other]) {
            Stable(w, step.w, tid, other, w.proc.tasks[other]);
          }
          SameTasks(step.w, after);
          FailureWitnessed(w, tid, env);
        }
      }
    case Crash(power, disk, pid) => if after != w { CrashOk(w, power, disk, pid); }
  }

  /** A reload has failed exactly if some task says so. */
  lemma FailureWitnessed(w: World, tid: Tid, env: Env)
    requires Inv(w) && tid in w.proc.tasks && Next(w, tid, w.proc.tasks[tid], env).Move?
    ensures var after := Apply(w, Act(tid, env));
            after.proc.reloadFailed ==> exists k :: k in after.proc.tasks && Failing(after.proc.tasks[k].pc)
  {
    hide WorldOk, TaskOk, Next;
    var t := w.proc.tasks[tid];
    var step := Next(w, tid, t, env);
    var after := Apply(w, Act(tid, env));
    TasksUntouched(w, tid, t, env);
    FailsOnce(w, tid, t, env);
    if after.proc.reloadFailed {
      if Failing(step.task.pc) {
        assert Failing(after.proc.tasks[tid].pc);
      } else {
        var k :| k in w.proc.tasks && Failing(w.proc.tasks[k].pc);
        assert Failing(after.proc.tasks[k].pc);
      }
    }
  }

  lemma FailsOnce(w: World, tid: Tid, t: Task, env: Env)
    ensures var step := Next(w, tid, t, env);
            step.Move? && !Failing(step.task.pc) ==> step.w.proc.reloadFailed == w.proc.reloadFailed && !Failing(t.pc)
  {
    if BootPc(t.pc) { hide WriteStep, CommitStep, RequestStep, Migrated, AfterSweep; }
    else if WritePc(t.pc) { hide BootStep, CommitStep, RequestStep, Opened, Written, Synced, Renamed, Removed, DirSynced; }
    else if CommitPc(t.pc) { hide BootStep, WriteStep, RequestStep, Migrated, AfterSweep; CommitFailsOnce(w, tid, t, env); }
    else { hide BootStep, WriteStep, CommitStep; }
  }

  lemma CommitFailsOnce(w: World, tid: Tid, t: Task, env: Env)
    requires CommitPc(t.pc)
    ensures var step := CommitStep(w, tid, t, env);
            step.Move? && !Failing(step.task.pc) ==> step.w.proc.reloadFailed == w.proc.reloadFailed && !Failing(t.pc)
  {
  }

  predicate SameRecord(w: World, step: Step) { step.Move? ==> step.w.proc.tasks == w.proc.tasks }

  lemma BootUntouched(w: World, t: Task, env: Env)
    ensures SameRecord(w, BootStep(w, t, env))
  {
  }

  lemma WriteUntouched(w: World, t: Task, env: Env)
    ensures SameRecord(w, WriteStep(w, t, env))
  {
  }

  lemma CommitUntouched(w: World, tid: Tid, t: Task, env: Env)
    ensures SameRecord(w, CommitStep(w, tid, t, env))
  {
  }

  lemma RequestUntouched(w: World, t: Task, env: Env)
    ensures SameRecord(w, RequestStep(w, t, env))
  {
  }

  lemma TasksUntouched(w: World, tid: Tid, t: Task, env: Env)
    ensures Next(w, tid, t, env).Move? ==> Next(w, tid, t, env).w.proc.tasks == w.proc.tasks
  {
    hide BootStep, WriteStep, CommitStep, RequestStep;
    BootUntouched(w, t, env);
    WriteUntouched(w, t, env);
    CommitUntouched(w, tid, t, env);
    RequestUntouched(w, t, env);
  }

  /** The record of who does what is no part of what anyone relies on. */
  lemma SameTasks(a: World, b: World)
    requires b == a.(proc := a.proc.(tasks := b.proc.tasks))
    ensures WorldOk(b) == WorldOk(a) && forall tid, t :: TaskOk(b, tid, t) == TaskOk(a, tid, t)
  {
    hide Backed, BootPc, WritePc, CommitPc;
    SameFiles(a, b);
    SameDbs(a, b);
  }

  lemma {:induction false} RunKeeps(w: World, moves: seq<Action>)
    requires Inv(w)
    ensures Inv(Run(w, moves))
    decreases |moves|
  {
    hide Inv, Apply;
    if moves != [] {
      MoveKeeps(w, moves[0]);
      RunKeeps(Apply(w, moves[0]), moves[1..]);
    }
  }
}
