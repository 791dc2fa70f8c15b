/** What the coordinator guarantees in every run: over any number of rails, cancels, timers, polls,
    starts and shutdowns, interleaved action by action. */
module FlowTheorems {
  import opened Wrappers
  import opened OAuthFlow
  import opened FlowCoordinator
  import opened FlowRecordSafety
  import opened FlowInvariant

  /** s is the state after some run from the empty coordinator. */
  ghost predicate Reachable(s: System) { exists moves :: s == Run(INITIAL, moves) }

  /** The activity has ended with answer r. */
  predicate Answered(s: System, tid: Tid, r: Result) {
    tid in s.tasks && s.tasks[tid].pc == Done(r)
  }

  lemma ReachableOk(s: System)
    requires Reachable(s)
    ensures Inv(s)
  {
    var moves :| s == Run(INITIAL, moves);
    InitialOk();
    RunKeeps(INITIAL, moves);
  }

  /** The invariant at a reachable state, for one activity and one flow. */
  lemma At(s: System, tid: Tid, k: string)
    requires Reachable(s)
    ensures tid in s.tasks ==> TaskOk(s.sh, tid, s.tasks[tid])
    ensures k in s.sh.flows ==> s.sh.flows[k].id == k && RecordOk(s.sh.flows[k], s.sh.closed)
    ensures SharedOk(s.sh)
  {
    hide SharedOk, TaskOk, RecordOk, Reachable;
    ReachableOk(s);
    if k in s.sh.flows { SharedFlows(s.sh); FlowIn(s.sh, k); }
  }

  // ---------------------------------------------------------------- one winner, one exchange, one account

  /** A flow's code is exchanged at most once; success means exactly one account was inserted for
      it and error means none. */
  lemma OneAccount(s: System, k: string)
    requires Reachable(s) && k in s.sh.flows
    ensures var f := s.sh.flows[k];
            && f.log.exchanges <= 1 && |f.log.inserted| <= 1
            && (f.status == Success ==> f.account.Some? && f.log.inserted == [f.account.value])
            && (f.status == Error ==> f.log.inserted == [])
  {
    hide Reachable, SharedOk, TaskOk;
    At(s, 0, k);
  }

  /** What turned record f into g was the activity that consumed the flow, wherever it exchanged the code,
      inserted an account or wrote the result; each happens once. */
  predicate WrittenBy(f: Flow, g: Flow, tid: Tid) {
    && (g.log.exchanges != f.log.exchanges ==>
          g.log.winner == Some(tid) && g.log.byRail && f.log.exchanges == 0 && g.log.exchanges == 1)
    && (g.log.inserted != f.log.inserted ==>
          g.log.winner == Some(tid) && f.log.inserted == [] && |g.log.inserted| == 1)
    && (g.status != f.status ==>
          && g.log.winner == Some(tid) && f.status == Pending
          && (if g.status == Success then g.account.Some? && g.log.inserted == [g.account.value]
              else g.status == Error && g.error.Some? && g.log.inserted == []))
  }

  /** Only the activity that consumed a flow exchanges its code, inserts an account for it or writes its
      result, and the result is written into a pending flow and agrees with what was inserted. */
  lemma WinnerWrites(s: System, tid: Tid, env: Env, k: string)
    requires Reachable(s) && tid in s.tasks && k in s.sh.flows && Next(s.sh, tid, s.tasks[tid], env).Move?
    ensures var after := Next(s.sh, tid, s.tasks[tid], env).sh;
            k in after.flows && WrittenBy(s.sh.flows[k], after.flows[k], tid)
  {
    hide Reachable, SharedOk, TaskOk, Next;
    At(s, tid, k);
    ActionKeeps(s.sh, tid, s.tasks[tid], env);
    var after := Next(s.sh, tid, s.tasks[tid], env).sh;
    SharedFlows(after);
    FlowIn(after, k);
  }

  /** At most one activity is told that it completed a flow, and it is told the inserted account. */
  lemma OneCompletion(s: System, k: string, t1: Tid, t2: Tid, a1: int, a2: int)
    requires Reachable(s)
    requires Answered(s, t1, Completed(a1)) && s.tasks[t1].fid == k
    requires Answered(s, t2, Completed(a2)) && s.tasks[t2].fid == k
    ensures t1 == t2 && a1 == a2
    ensures k in s.sh.flows && s.sh.flows[k].status == Success && s.sh.flows[k].log.inserted == [a1]
  {
    hide Reachable, SharedOk, RecordOk, PlaceOk;
    At(s, t1, k);
    At(s, t2, k);
  }

  /** Whoever is told that it ended a flow has ended it, and the published error says how: the admin's
      cancel, the user's denial, the expiry, or the failure the caller was given. Only a device poll can
      report a failure without having ended the flow; if it has ended it, its failure is the published
      one. */
  lemma AnswersAgree(s: System, tid: Tid, r: Result)
    requires Reachable(s) && Answered(s, tid, r) && (r.CancelledFlow? || r.Failed?)
    ensures var t := s.tasks[tid];
            && t.fid in s.sh.flows
            && (var f := s.sh.flows[t.fid];
                && (f.log.winner == Some(tid) ==>
                      && f.status == Error && f.log.inserted == []
                      && f.error == Some(if r.Failed? then r.error else if IsRail(t.kind) then AccessDenied() else Cancelled())
                      && (t.kind.Reaper? && r.Failed? ==> f.error == Some(Expired(f.meth))))
                && (f.log.winner != Some(tid) ==> t.kind.DevicePoll? && r.Failed?))
  {
    hide Reachable, SharedOk, PlaceOk;
    At(s, tid, s.tasks[tid].fid);
  }

  /** g is a later version of record f: a result once written, a winner once decided, a reported
      mark once set stay as they are. */
  predicate Settles(f: Flow, g: Flow) {
    && (Terminal(f.status) ==> g.status == f.status && g.account == f.account && g.error == f.error
                               && g.log.inserted == f.log.inserted && g.log.exchanges == f.log.exchanges)
    && (f.consumed ==> g.consumed && g.log.winner == f.log.winner)
    && (f.consumedBy != RailUnknown ==> g.consumedBy == f.consumedBy)
    && (f.terminalClosed ==> g.terminalClosed) && (f.reported ==> g.reported)
  }

  lemma MoveSettles(s: System, m: Action, k: string)
    requires Inv(s) && Apply(s, m).Some? && k in s.sh.flows
    ensures k in Apply(s, m).value.sh.flows && Settles(s.sh.flows[k], Apply(s, m).value.sh.flows[k])
  {
    hide SharedOk, TaskOk, Next, FlowOk, CanSpawn;
    match m
    case Spawn(tid, task) =>
    case Act(tid, env) => ActionKeeps(s.sh, tid, s.tasks[tid], env);
    case ServerDown(fid) => ServerDownOk(s.sh, fid, 0);
  }

  /** The status of a flow leaves pending at most once and then never changes, whatever follows;
      its winner, its account and its error are final. */
  lemma {:induction false} ResultIsFinal(s: System, moves: seq<Action>, k: string)
    requires Inv(s) && k in s.sh.flows
    ensures k in Run(s, moves).sh.flows && Settles(s.sh.flows[k], Run(s, moves).sh.flows[k])
    decreases |moves|
  {
    hide Inv, Apply, Settles;
    if moves == [] {
      SettlesSelf(s.sh.flows[k]);
    } else {
      var next := Apply(s, moves[0]);
      if next.Some? {
        MoveKeeps(s, moves[0]);
        MoveSettles(s, moves[0], k);
        ResultIsFinal(next.value, moves[1..], k);
        SettlesChain(s.sh.flows[k], next.value.sh.flows[k], Run(s, moves).sh.flows[k]);
      } else {
        ResultIsFinal(s, moves[1..], k);
      }
    }
  }

  lemma SettlesSelf(f: Flow)
    ensures Settles(f, f)
  {
  }

  lemma SettlesChain(f: Flow, g: Flow, h: Flow)
    requires Settles(f, g) && Settles(g, h)
    ensures Settles(f, h)
  {
  }

  /** Before Shutdown nothing releases a flow that is not finished: a flow that has left the slot is
      consumed, its result is written and its waiters have been woken. */
  lemma ReleasedIsFinished(s: System, k: string)
    requires Reachable(s) && k in s.sh.flows && s.sh.flows[k].log.left && !s.sh.closed
    ensures var f := s.sh.flows[k]; f.consumed && Terminal(f.status) && f.terminalClosed
  {
    hide Reachable, SharedOk, TaskOk;
    At(s, 0, k);
  }

  // ---------------------------------------------------------------- losing rails and woken waiters

  /** A rail that loses to a rail is never told that the winner is unpublished, and the branches for
      an already published winner are never taken. */
  lemma RailLosesCleanly(s: System, tid: Tid)
    requires Reachable(s) && tid in s.tasks
    ensures var t := s.tasks[tid];
            && (t.pc == Done(WinnerNotPublished) ==> t.fid in s.sh.flows && !s.sh.flows[t.fid].log.byRail)
            && (t.pc == PublishRail ==> t.fid in s.sh.flows && s.sh.flows[t.fid].consumedBy == RailUnknown)
  {
    hide Reachable, SharedOk, RecordOk, PlaceOk;
    At(s, tid, "");
  }

  /** A waiter woken through the terminal channel answers with a terminal status, and every
      snapshot a poll has delivered is valid. */
  lemma WokenIsTerminal(s: System, tid: Tid)
    requires Reachable(s) && tid in s.tasks && s.tasks[tid].pc.Done?
    ensures var r := s.tasks[tid].pc.result;
            (r.Woken? ==> Terminal(r.status)) && (r.Delivered? ==> Complaint(r.snapshot).None?)
  {
    hide Reachable, SharedOk, RecordOk, PcOk, Complaint;
    At(s, tid, "");
  }

  /** When a losing rail gets an internal error instead of "already consumed": it has read an
      unpublished winner twice, so the winner is no rail, and at its last read the winner's error is
      not yet written (or the flow has succeeded on the device path). */
  lemma LoserAnswer(s: System, tid: Tid, env: Env)
    requires Reachable(s) && tid in s.tasks && s.tasks[tid].pc == RejectStatus
    ensures var t := s.tasks[tid];
            && t.fid in s.sh.flows && !s.sh.flows[t.fid].log.byRail && s.sh.flows[t.fid].consumed
            && (Next(s.sh, tid, t, env).Move? ==>
                  (Next(s.sh, tid, t, env).task.pc == Done(WinnerNotPublished)
                   <==> s.sh.flows[t.fid].status != Error))
  {
    hide Reachable, SharedOk, RecordOk, PlaceOk;
    At(s, tid, "");
  }

  // ---------------------------------------------------------------- never lost

  /** Until Shutdown, a lookup and a poll reach the newest flow, unless it has left the slot and the
      cleanup of its own start has removed it from the released map. */
  lemma NewestIsFindable(s: System)
    requires Reachable(s) && s.sh.started != [] && !s.sh.closed
    ensures var k := Newest(s.sh);
            (s.sh.slot == Some(k) || (k in s.sh.released && s.sh.latest == Some(k)))
              <==> (s.sh.slot == Some(k) || k !in s.sh.lost)
  {
    hide Reachable, TaskOk, FlowOk;
    At(s, 0, Newest(s.sh));
    SlotFacts(s.sh, Newest(s.sh));
  }

  /** The cleanup of a start loses the flow just started exactly when that flow has already been
      released and its listener is not bound: the branch of the loop that deletes it. */
  lemma CleanupLoses(s: System, tid: Tid, env: Env)
    requires Reachable(s) && tid in s.tasks && s.tasks[tid].pc == StartCleanup && !s.sh.closed
    ensures var k := s.tasks[tid].fid;
            var after := Next(s.sh, tid, s.tasks[tid], env);
            && s.sh.started != [] && k == Newest(s.sh) && k in s.sh.flows && after.Move?
            && (k in after.sh.lost && k !in s.sh.lost
                <==> k in s.sh.released && !s.sh.flows[k].listenerBound)
  {
    hide Reachable, RecordOk, FlowsOk, PcOk;
    At(s, tid, s.tasks[tid].fid);
    CleanupPlace(s.sh, tid, s.tasks[tid]);
    hide SharedOk, TaskOk;
  }

  lemma CleanupPlace(sh: Shared, tid: Tid, t: Task)
    requires SharedOk(sh) && TaskOk(sh, tid, t) && t.pc == StartCleanup
    ensures t.kind.Start? && sh.started != [] && t.fid == Newest(sh) && t.fid in sh.flows && sh.released <= sh.flows.Keys
  {
    hide FlowsOk, PcOk, NeedsFlow, OpenOk;
    SlotFacts(sh, t.fid);
  }

  /** A lookup by id that began after the flow was started finds it, provided that at its last read
      the flow is still the newest, Shutdown has not begun, and the cleanup has not lost it. */
  lemma LookupFinds(s: System, tid: Tid, env: Env)
    requires Reachable(s) && tid in s.tasks && s.tasks[tid].pc == FindReleased(true)
    requires !s.sh.closed && s.sh.started != [] && s.tasks[tid].want == Newest(s.sh)
    requires Newest(s.sh) !in s.sh.lost
    ensures var step := Next(s.sh, tid, s.tasks[tid], env);
            step.Move? && step.task.pc == CheckConsumed && step.task.fid == s.tasks[tid].want
  {
    hide Reachable, FlowOk, FlowsOk, PcOk;
    At(s, tid, Newest(s.sh));
  }

  // ---------------------------------------------------------------- deliveries without the mark

  /** A poll that delivers a terminal snapshot marks it, unless its first read saw a pending status
      and the flow became terminal before its second read: exactly then the delivery is unmarked. */
  lemma UnmarkedExactly(s: System, tid: Tid, env: Env)
    requires Reachable(s) && tid in s.tasks && PollPc(s.tasks[tid].pc)
    requires var next := Next(s.sh, tid, s.tasks[tid], env);
             next.Move? && next.task.pc.Done? && next.task.pc.result.Delivered?
             && Terminal(next.task.pc.result.snapshot.status)
    ensures var t := s.tasks[tid];
            var next := Next(s.sh, tid, t, env);
            && t.fid in s.sh.flows && t.fid in next.sh.flows && Terminal(s.sh.flows[t.fid].status)
            && (next.sh.flows[t.fid].log.marked == s.sh.flows[t.fid].log.marked <==> t.pc == PollPending)
  {
    hide Reachable, SharedOk, PcOk, PlaceOk, Complaint, FlowOk;
    At(s, tid, s.tasks[tid].fid);
  }
}
