/** Crash safety of the setup commit, safety of the gate, and where recovery needs a restart. */
module SetupTheorems {
  import opened Wrappers
  import opened ConfigWriter
  import opened SetupMachine
  import opened SetupSafety

  /** A first boot: no config.json yet, any leftover tmp files, databases without duplicate names. */
  predicate FirstBoot(w: World) {
    && w.disk.config == None && w.disk.durable == None && DbsOk(w)
    && w.proc == Started(w.proc.pid).(leftover := w.proc.pid in w.disk.tmps)
  }

  lemma FirstBootOk(w: World)
    requires FirstBoot(w)
    ensures Inv(w)
  {
  }

  /** From a crash at any step of any commit or boot, with or without power loss, and after any
      number of restarts: config.json is absent or one complete payload, its presence implies that
      its database is migrated and holds the seeded row (or, for a brownfield start, some row), and
      no name occurs on two rows of a database. */
  lemma CrashSafe(w: World, moves: seq<Action>, dsn: string)
    requires FirstBoot(w)
    ensures var after := Run(w, moves);
            && FileOk(after, after.disk.config) && FileOk(after, after.disk.durable)
            && Unique(Db(after, dsn).names)
  {
    hide Run, TaskOk, FileOk, ProcOk, Unique;
    FirstBootOk(w);
    RunKeeps(w, moves);
    hide Inv;
    InvFacts(Run(w, moves), dsn);
  }

  lemma InvFacts(w: World, dsn: string)
    requires Inv(w)
    ensures FileOk(w, w.disk.config) && FileOk(w, w.disk.durable) && Unique(Db(w, dsn).names)
  {
    hide TaskOk, ProcOk;
  }

  /** A request that has passed an open gate is served by a mux with the steady-state routes, every
      open gate stands before such a mux, and in one process at most one promotion succeeds and at
      most one commit writes config.json. */
  lemma GateSafe(w: World, moves: seq<Action>)
    requires FirstBoot(w)
    ensures var p := Run(w, moves).proc;
            && (forall tid :: tid in p.tasks && p.tasks[tid].pc.Passed? ==>
                  p.tasks[tid].pc.h < |p.handlers| && p.handlers[p.tasks[tid].pc.h].steady)
            && (forall i :: 0 <= i < |p.handlers| && p.handlers[i].gate.done ==> p.handlers[i].steady)
            && p.promotions <= 1 && p.commitWrites <= 1
  {
    hide Run, DiskOk, DbsOk, CriticalOk;
    FirstBootOk(w);
    RunKeeps(w, moves);
  }

  /** The moves of one process. */
  predicate NoCrash(moves: seq<Action>) { forall i :: 0 <= i < |moves| ==> !moves[i].Crash? }

  /** As long as the process lives, an open gate never closes. */
  lemma {:induction false} GatesLatch(w: World, moves: seq<Action>)
    requires Inv(w) && NoCrash(moves)
    ensures HandlersLater(w.proc.handlers, Run(w, moves).proc.handlers)
    decreases |moves|
  {
    hide Apply, Inv;
    if moves != [] {
      MoveKeeps(w, moves[0]);
      OneMove(w, moves[0]);
      GatesLatch(Apply(w, moves[0]), moves[1..]);
    }
  }

  lemma OneMove(w: World, m: Action)
    requires Inv(w) && !m.Crash?
    ensures HandlersLater(w.proc.handlers, Apply(w, m).proc.handlers)
  {
    hide Next, TaskOk, WorldOk;
    if m.Act? && m.tid in w.proc.tasks { ActionKeeps(w, m.tid, w.proc.tasks[m.tid], m.env); }
  }

  // ---------------------------------------------------------------- where only a restart helps

  /** While nobody boots or commits, a process that sees a config.json is promoted if and only if none
      of its commits ended with a failed reload or promotion. */
  lemma PromotedExactly(w: World, moves: seq<Action>)
    requires FirstBoot(w)
    ensures var after := Run(w, moves);
            var tasks := after.proc.tasks;
            after.proc.lock.None? && after.disk.config.Some? ==>
              (after.proc.promoted <==> forall tid :: tid in tasks ==> tasks[tid].pc != Done(ReloadFailed))
  {
    hide Run;
    FirstBootOk(w);
    RunKeeps(w, moves);
    var after := Run(w, moves);
    ProcFacts(after);
    var tasks := after.proc.tasks;
    forall tid | tid in tasks
      ensures Failing(tasks[tid].pc) ==> after.proc.reloadFailed
      ensures after.proc.lock.None? ==> tasks[tid].pc != Unlock(ReloadFailed)
    {
      FailingFacts(after, tid);
    }
  }

  lemma FailingFacts(w: World, tid: Tid)
    requires Inv(w) && tid in w.proc.tasks
    ensures Failing(w.proc.tasks[tid].pc) ==> w.proc.reloadFailed
    ensures w.proc.lock.None? ==> w.proc.tasks[tid].pc != Unlock(ReloadFailed)
  {
    hide WorldOk;
    assert TaskOk(w, tid, w.proc.tasks[tid]);
  }

  /** A failed reload stays on record as long as the process lives. */
  lemma {:induction false} FailureStays(w: World, moves: seq<Action>)
    requires Inv(w) && w.proc.reloadFailed && NoCrash(moves)
    ensures Run(w, moves).proc.reloadFailed
    decreases |moves|
  {
    hide Apply, Inv;
    if moves != [] {
      MoveKeeps(w, moves[0]);
      FailureStaysOnce(w, moves[0]);
      FailureStays(Apply(w, moves[0]), moves[1..]);
    }
  }

  lemma FailureStaysOnce(w: World, m: Action)
    requires Inv(w) && w.proc.reloadFailed && !m.Crash?
    ensures Apply(w, m).proc.reloadFailed
  {
    hide Next, TaskOk, WorldOk;
    if m.Act? && m.tid in w.proc.tasks { ActionKeeps(w, m.tid, w.proc.tasks[m.tid], m.env); }
  }

  /** Once a commit's reload or promotion has failed, the process is never promoted, whatever is tried
      later: no commit succeeds, no mux has the steady-state routes, and no request passes a gate. */
  lemma FailedReloadNeedsRestart(first: World, before: seq<Action>, tid: Tid, moves: seq<Action>)
    requires FirstBoot(first) && NoCrash(moves)
    requires tid in Run(first, before).proc.tasks && Run(first, before).proc.tasks[tid].pc == Done(ReloadFailed)
    ensures var p := Run(Run(first, before), moves).proc;
            && !p.promoted
            && (forall i :: 0 <= i < |p.handlers| ==> !p.handlers[i].steady && !p.handlers[i].gate.done)
            && forall k :: k in p.tasks ==> !p.tasks[k].pc.Passed? && p.tasks[k].pc != Done(Committed)
  {
    hide Run;
    FirstBootOk(first);
    RunKeeps(first, before);
    var w := Run(first, before);
    FailingFacts(w, tid);
    FailureStays(w, moves);
    RunKeeps(w, moves);
    PendingFacts(Run(w, moves));
  }

  lemma PendingFacts(w: World)
    requires Inv(w) && w.proc.reloadFailed
    ensures !w.proc.promoted
    ensures forall i :: 0 <= i < |w.proc.handlers| ==> !w.proc.handlers[i].steady && !w.proc.handlers[i].gate.done
    ensures forall k :: k in w.proc.tasks ==> !w.proc.tasks[k].pc.Passed? && w.proc.tasks[k].pc != Done(Committed)
  {
    hide DiskOk, DbsOk, CriticalOk;
    forall k | k in w.proc.tasks ensures !w.proc.tasks[k].pc.Passed? && w.proc.tasks[k].pc != Done(Committed) {
      assert TaskOk(w, k, w.proc.tasks[k]);
    }
  }

  /** While nobody boots or commits, the tmp file of the process is on the disk if and only if it was
      there at the start or a write failed and its removal failed as well. */
  lemma JammedExactly(w: World, moves: seq<Action>)
    requires FirstBoot(w)
    ensures var after := Run(w, moves);
            after.proc.lock.None? ==> (after.proc.pid in after.disk.tmps <==> after.proc.leftover)
  {
    hide Run, TaskOk;
    FirstBootOk(w);
    RunKeeps(w, moves);
    ProcFacts(Run(w, moves));
  }

  lemma WriterFacts(w: World, tid: Tid)
    requires Inv(w) && w.proc.leftover && tid in w.proc.tasks
    ensures !TmpInUse(w.proc.tasks[tid].pc)
  {
    hide WorldOk, Backed;
    assert TaskOk(w, tid, w.proc.tasks[tid]);
  }

  lemma StepsJammed(w: World, m: Action)
    requires Inv(w) && w.proc.leftover && !m.Crash?
    ensures Apply(w, m).proc.leftover && Apply(w, m).disk.config == w.disk.config
  {
    hide Inv;
    if m.Act? && m.tid in w.proc.tasks {
      var t := w.proc.tasks[m.tid];
      WriterFacts(w, m.tid);
      if WritePc(t.pc) { hide BootStep, CommitStep, RequestStep; }
      else if BootPc(t.pc) { hide WriteStep, CommitStep, RequestStep; }
      else if CommitPc(t.pc) { hide WriteStep, BootStep, RequestStep; }
      else { hide WriteStep, BootStep, CommitStep; }
    }
  }

  /** The sweep spares the process's own pid, so once its tmp file is left over no write of this process
      succeeds: config.json stays what it is until the process ends. */
  lemma {:induction false} OwnTmpJamsWrites(w: World, moves: seq<Action>)
    requires Inv(w) && w.proc.leftover && NoCrash(moves)
    ensures Run(w, moves).disk.config == w.disk.config && Run(w, moves).proc.leftover
    decreases |moves|
  {
    hide Apply, Inv;
    if moves != [] {
      MoveKeeps(w, moves[0]);
      StepsJammed(w, moves[0]);
      OwnTmpJamsWrites(Apply(w, moves[0]), moves[1..]);
    }
  }
}
