/** How often the result of a flow is handed out: every run, counted over the answers of all polls. */
module FlowDelivery {
  import opened Wrappers
  import opened OAuthFlow
  import opened FlowCoordinator
  import opened FlowRecordSafety
  import opened FlowInvariant
  import opened FlowTheorems

  /** The activity has answered with a terminal snapshot of flow k. */
  predicate Delivers(pc: Pc, k: string) {
    pc.Done? && pc.result.Delivered? && Terminal(pc.result.snapshot.status) && pc.result.snapshot.flowId == k
  }

  /** The polls that have answered with a terminal snapshot of flow k. */
  function Deliverers(s: System, k: string): set<Tid> { set tid | tid in s.tasks && Delivers(s.tasks[tid].pc, k) }

  function Deliveries(sh: Shared, k: string): nat {
    if k in sh.flows then sh.flows[k].log.marked + sh.flows[k].log.raced else 0
  }

  predicate ShowsResult(p: Snapshot, f: Flow) { p.status == f.status && p.account == f.account && p.error == f.error }

  /** The history of flow k counts the polls that delivered its result, and they delivered that result. */
  predicate CountOk(s: System, k: string) {
    && |Deliverers(s, k)| == Deliveries(s.sh, k)
    && (forall tid :: tid in Deliverers(s, k) ==> k in s.sh.flows && ShowsResult(s.tasks[tid].pc.result.snapshot, s.sh.flows[k]))
  }

  // ---------------------------------------------------------------- one step

  /** The step counts the delivery it makes. */
  predicate Counts(f: Flow, step: FlowStep) {
    step.Moved? ==>
      && step.f.id == f.id
      && step.f.log.marked + step.f.log.raced == f.log.marked + f.log.raced + (if Delivers(step.pc, f.id) then 1 else 0)
      && (step.pc.Done? && step.pc.result.Delivered? ==>
            step.pc.result.snapshot.flowId == f.id && ShowsResult(step.pc.result.snapshot, step.f))
  }

  lemma RailCounts(f: Flow, tid: Tid, k: Kind, pc: Pc, env: Env)
    ensures Counts(f, RailStep(f, tid, k, pc, env))
  {
  }

  lemma WinCounts(f: Flow, shut: bool, tid: Tid, k: Kind, pc: Pc, env: Env)
    ensures Counts(f, WinStep(f, shut, tid, k, pc, env))
  {
  }

  lemma DeviceCounts(f: Flow, shut: bool, tid: Tid, pc: Pc, env: Env)
    ensures Counts(f, DeviceStep(f, shut, tid, pc, env))
  {
  }

  lemma WaitCounts(f: Flow, pc: Pc, env: Env)
    ensures Counts(f, WaitStep(f, pc, env))
  {
  }

  lemma PollCounts(f: Flow, pc: Pc)
    ensures Counts(f, PollFlowStep(f, pc))
  {
    hide Complaint;
  }

  lemma FlowCounts(f: Flow, shut: bool, tid: Tid, k: Kind, pc: Pc, env: Env)
    ensures Counts(f, OnFlow(f, shut, tid, k, pc, env))
  {
    hide RailStep, WinStep, DeviceStep, WaitStep, PollFlowStep, Counts;
    RailCounts(f, tid, k, pc, env);
    WinCounts(f, shut, tid, k, pc, env);
    DeviceCounts(f, shut, tid, pc, env);
    WaitCounts(f, pc, env);
    PollCounts(f, pc);
  }

  /** An action that touches no counter and answers no poll with a snapshot. */
  predicate Silent(sh: Shared, step: Step) {
    step.Move? ==>
      && !(step.task.pc.Done? && step.task.pc.result.Delivered?)
      && (forall k :: k in sh.flows ==> k in step.sh.flows && Deliveries(step.sh, k) == Deliveries(sh, k))
      && (forall k :: k in step.sh.flows && k !in sh.flows ==> Deliveries(step.sh, k) == 0)
  }

  /** A step that rewrites one record, its counters apart, and answers no poll. */
  lemma SilentPut(sh: Shared, step: Step, g: Flow)
    requires step.Move? && g.id in sh.flows && step.sh.flows == sh.flows[g.id := g]
    requires g.log.marked == sh.flows[g.id].log.marked && g.log.raced == sh.flows[g.id].log.raced
    requires step.task.pc.Done? ==> !step.task.pc.result.Delivered?
    ensures Silent(sh, step)
  {
  }

  lemma AfterReleaseAnswer(k: Kind, r: Result)
    requires !r.Delivered?
    ensures AfterRelease(k, r).Done? ==> !AfterRelease(k, r).result.Delivered?
  {
  }

  /** No activity hands out a snapshot on its way through ReleaseFlow. */
  lemma ReleaseSilent(sh: Shared, t: Task)
    requires t.fid in sh.flows && sh.flows[t.fid].id == t.fid && ReleasePc(t.pc) && !t.pc.result.Delivered?
    ensures Silent(sh, ReleaseStep(sh, t))
  {
    AfterReleaseAnswer(t.kind, t.pc.result);
    hide AfterRelease, Deliveries, Silent;
    var step := ReleaseStep(sh, t);
    SilentPut(sh, step, step.sh.flows[t.fid]);
  }

  lemma ReleaseAnswer(sh: Shared, tid: Tid, t: Task)
    requires TaskOk(sh, tid, t) && ReleasePc(t.pc)
    ensures t.fid in sh.flows && !t.pc.result.Delivered?
  {
    hide PlaceOk, FlowResultOk, Owns;
  }

  lemma EnterSilent(sh: Shared, tid: Tid, t: Task)
    ensures Silent(sh, EnterStep(sh, tid, t))
  {
  }

  lemma FindSilent(sh: Shared, t: Task)
    ensures Silent(sh, FindStep(sh, t))
  {
  }

  lemma StartSilent(sh: Shared, t: Task)
    requires t.kind.Start? && Fresh(t.kind.flow)
    ensures Silent(sh, StartStep(sh, t))
  {
    hide CleanReleased;
  }

  lemma ShutdownSilent(sh: Shared, t: Task)
    ensures Silent(sh, ShutdownStep(sh, t))
  {
  }

  lemma StartIsFresh(sh: Shared, tid: Tid, t: Task)
    requires TaskOk(sh, tid, t) && t.kind.Start?
    ensures Fresh(t.kind.flow)
  {
    hide PcOk, PlaceOk, NeedsFlow;
  }

  lemma RecordIn(sh: Shared, k: string)
    requires SharedOk(sh) && k in sh.flows
    ensures sh.flows[k].id == k
  {
    FlowIn(sh, k);
    hide RecordOk;
  }

  lemma RestSilent(sh: Shared, tid: Tid, t: Task, env: Env)
    requires SharedOk(sh) && TaskOk(sh, tid, t) && !FlowPc(t.pc)
    ensures Silent(sh, Next(sh, tid, t, env))
  {
    hide SharedOk, TaskOk, EnterStep, StartStep, FindStep, ReleaseStep, ShutdownStep, Deliveries, Fresh;
    if ReleasePc(t.pc) {
      ReleaseAnswer(sh, tid, t);
      RecordIn(sh, t.fid);
      ReleaseSilent(sh, t);
    }
    else if t.pc.Enter? { EnterSilent(sh, tid, t); }
    else if FindPc(t.pc) { FindSilent(sh, t); }
    else if StartPc(t.pc) { if t.kind.Start? { StartIsFresh(sh, tid, t); StartSilent(sh, t); } }
    else { ShutdownSilent(sh, t); }
  }

  /** What the step of an activity at pc adds to the count of flow k. */
  predicate Adds(sh: Shared, t: Task, step: Step, k: string) {
    step.Move? ==>
      && !t.pc.Done?
      && Deliveries(step.sh, k) == Deliveries(sh, k) + (if Delivers(step.task.pc, k) then 1 else 0)
      && (Delivers(step.task.pc, k) ==> k in step.sh.flows && ShowsResult(step.task.pc.result.snapshot, step.sh.flows[k]))
  }

  lemma FlowAdds(sh: Shared, tid: Tid, t: Task, env: Env, k: string)
    requires FlowPc(t.pc) && (t.fid in sh.flows ==> sh.flows[t.fid].id == t.fid)
    ensures Adds(sh, t, Next(sh, tid, t, env), k)
  {
    if t.fid in sh.flows { FlowCounts(sh.flows[t.fid], sh.closed, tid, t.kind, t.pc, env); }
    hide OnFlow;
  }

  lemma RestAdds(sh: Shared, tid: Tid, t: Task, env: Env, k: string)
    requires !FlowPc(t.pc) && Silent(sh, Next(sh, tid, t, env))
    ensures Adds(sh, t, Next(sh, tid, t, env), k)
  {
    hide EnterStep, StartStep, FindStep, ReleaseStep, Deliveries;
    if k !in sh.flows { assert Deliveries(sh, k) == 0 by { NoRecord(sh, k); } }
    NotYetDone(sh, tid, t, env);
    hide Next;
    var step := Next(sh, tid, t, env);
    if step.Move? && k !in step.sh.flows { NoRecord(step.sh, k); }
  }

  lemma NoRecord(sh: Shared, k: string)
    requires k !in sh.flows
    ensures Deliveries(sh, k) == 0
  {
  }

  lemma NotYetDone(sh: Shared, tid: Tid, t: Task, env: Env)
    ensures Next(sh, tid, t, env).Move? ==> !t.pc.Done?
  {
    hide OnFlow, EnterStep, StartStep, FindStep, ReleaseStep;
  }

  lemma StepAdds(sh: Shared, tid: Tid, t: Task, env: Env, k: string)
    requires SharedOk(sh) && TaskOk(sh, tid, t)
    ensures Adds(sh, t, Next(sh, tid, t, env), k)
  {
    hide SharedOk, TaskOk, Adds, Silent, Next;
    if FlowPc(t.pc) {
      if t.fid in sh.flows { RecordIn(sh, t.fid); }
      FlowAdds(sh, tid, t, env, k);
    } else {
      RestSilent(sh, tid, t, env);
      RestAdds(sh, tid, t, env, k);
    }
  }

  // ---------------------------------------------------------------- every run

  /** An activity that had not answered acts: the set gains that activity or stays as it was. */
  lemma ActDeliverers(s: System, tid: Tid, after: System, k: string)
    requires tid in s.tasks && tid in after.tasks && !s.tasks[tid].pc.Done? && after.tasks == s.tasks[tid := after.tasks[tid]]
    ensures Deliverers(after, k) == Deliverers(s, k) + (if Delivers(after.tasks[tid].pc, k) then {tid} else {})
    ensures |Deliverers(after, k)| == |Deliverers(s, k)| + (if Delivers(after.tasks[tid].pc, k) then 1 else 0)
  {
  }

  lemma ActCounts(s: System, tid: Tid, step: Step, k: string)
    requires CountOk(s, k) && tid in s.tasks && step.Move? && Adds(s.sh, s.tasks[tid], step, k)
    requires k in s.sh.flows ==> k in step.sh.flows && Settles(s.sh.flows[k], step.sh.flows[k])
    ensures CountOk(System(step.sh, s.tasks[tid := step.task]), k)
  {
    var after := System(step.sh, s.tasks[tid := step.task]);
    ActDeliverers(s, tid, after, k);
    hide Deliveries;
    forall x | x in Deliverers(after, k)
      ensures k in after.sh.flows && ShowsResult(after.tasks[x].pc.result.snapshot, after.sh.flows[k])
    {
      if x != tid { assert x in Deliverers(s, k); }
    }
  }

  /** A move that leaves the counts and the answers as they are. */
  lemma QuietCounts(s: System, after: System, k: string)
    requires CountOk(s, k) && Deliverers(after, k) == Deliverers(s, k) && Deliveries(after.sh, k) == Deliveries(s.sh, k)
    requires forall tid :: tid in Deliverers(s, k) ==> after.tasks[tid] == s.tasks[tid]
    requires k in s.sh.flows ==> k in after.sh.flows && Settles(s.sh.flows[k], after.sh.flows[k])
    ensures CountOk(after, k)
  {
    hide Deliveries;
  }

  lemma SpawnCounts(s: System, tid: Tid, task: Task, k: string)
    requires CountOk(s, k) && tid !in s.tasks && task.pc == Enter
    ensures CountOk(s.(tasks := s.tasks[tid := task]), k)
  {
    hide CountOk, Deliveries;
    var after := s.(tasks := s.tasks[tid := task]);
    assert Deliverers(after, k) == Deliverers(s, k);
    if k in s.sh.flows { SettlesSelf(s.sh.flows[k]); }
    QuietCounts(s, after, k);
  }

  lemma DownCounts(s: System, fid: string, k: string)
    requires CountOk(s, k) && fid in s.sh.flows && s.sh.flows[fid].id == fid
    ensures CountOk(s.(sh := Put(s.sh, s.sh.flows[fid].(listenerBound := false))), k)
  {
    hide CountOk;
    var after := s.(sh := Put(s.sh, s.sh.flows[fid].(listenerBound := false)));
    assert Deliverers(after, k) == Deliverers(s, k);
    QuietCounts(s, after, k);
  }

  lemma CountKeeps(s: System, m: Action, k: string)
    requires Inv(s) && CountOk(s, k) && Apply(s, m).Some?
    ensures CountOk(Apply(s, m).value, k)
  {
    if k in s.sh.flows { MoveSettles(s, m, k); }
    hide SharedOk, TaskOk, Next, Settles, Adds, CountOk, Put;
    match m
    case Spawn(tid, task) => SpawnCounts(s, tid, task, k);
    case Act(tid, env) =>
      StepAdds(s.sh, tid, s.tasks[tid], env, k);
      ActCounts(s, tid, Next(s.sh, tid, s.tasks[tid], env), k);
    case ServerDown(fid) =>
      RecordIn(s.sh, fid);
      DownCounts(s, fid, k);
  }

  lemma {:induction false} RunCounts(s: System, moves: seq<Action>, k: string)
    requires Inv(s) && CountOk(s, k)
    ensures CountOk(Run(s, moves), k)
    decreases |moves|
  {
    hide Inv, Apply, CountOk;
    if moves != [] {
      var next := Apply(s, moves[0]);
      if next.Some? { MoveKeeps(s, moves[0]); CountKeeps(s, moves[0], k); }
      RunCounts(if next.Some? then next.value else s, moves[1..], k);
    }
  }

  lemma ReachableCounts(s: System, k: string)
    requires Reachable(s)
    ensures CountOk(s, k)
  {
    var moves :| s == Run(INITIAL, moves);
    InitialOk();
    assert Deliverers(INITIAL, k) == {};
    RunCounts(INITIAL, moves, k);
  }

  // ---------------------------------------------------------------- theorems

  /** The polls that have answered with the result of flow k are exactly as many as the deliveries that
      skipped the mark, plus one if the flow is marked; each has answered with the same result. */
  lemma DeliveredExactly(s: System, k: string)
    requires Reachable(s) && k in s.sh.flows
    ensures var f := s.sh.flows[k];
            && |Deliverers(s, k)| == f.log.raced + (if f.reported then 1 else 0)
            && (forall tid :: tid in Deliverers(s, k) ==> ShowsResult(s.tasks[tid].pc.result.snapshot, f))
  {
    hide Reachable, SharedOk, TaskOk, Deliverers;
    At(s, 0, k);
    ReachableCounts(s, k);
  }

  /** Two polls that have both answered with the result of flow k are the same poll, unless some delivery
      skipped the mark. */
  lemma MarkedOnce(s: System, k: string, t1: Tid, t2: Tid)
    requires Reachable(s) && t1 in Deliverers(s, k) && t2 in Deliverers(s, k)
    ensures k in s.sh.flows && (s.sh.flows[k].log.raced == 0 ==> t1 == t2)
  {
    hide Reachable, Delivers;
    ReachableCounts(s, k);
    DeliveredExactly(s, k);
    if t1 != t2 { TwoMembers(Deliverers(s, k), t1, t2); }
  }

  lemma TwoMembers(deliverers: set<Tid>, t1: Tid, t2: Tid)
    requires t1 in deliverers && t2 in deliverers && t1 != t2
    ensures |deliverers| >= 2
  {
    assert |deliverers - {t1}| == |deliverers| - 1 && t2 in deliverers - {t1};
  }

  /** No poll answers idle for a finished flow before some poll has delivered its result: if a poll
      that began while k was the newest flow has answered idle, then some poll has answered with k's
      terminal snapshot, or a later flow has started, or Shutdown has begun, or k was lost. */
  lemma IdleAfterDelivery(s: System, tid: Tid, k: string)
    requires Reachable(s) && Answered(s, tid, IdlePoll(Some(k)))
    ensures || s.sh.closed || k in s.sh.lost
            || (k in s.sh.flows && s.sh.flows[k].log.order + 1 < |s.sh.started|)
            || (exists t :: t in Deliverers(s, k))
  {
    hide Reachable, SharedOk, RecordOk, PcOk, Deliverers;
    At(s, tid, k);
    ReachableCounts(s, k);
    if Deliverers(s, k) != {} { var t :| t in Deliverers(s, k); }
  }
}
