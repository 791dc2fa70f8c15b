/** The inductive invariant of the flow coordinator: every action of every activity keeps it. */
module FlowInvariant {
  import opened Wrappers
  import opened OAuthFlow
  import opened FlowCoordinator
  import opened FlowRecordSafety

  function Newest(sh: Shared): string
    requires sh.started != []
  {
    sh.started[|sh.started| - 1]
  }

  // ---------------------------------------------------------------- the invariant

  /** Every flow record is well formed and stored under its own id. */
  predicate FlowsOk(sh: Shared) {
    forall k :: k in sh.flows ==> sh.flows[k].id == k && RecordOk(sh.flows[k], sh.closed)
  }

  /** Flows are numbered in the order they entered the slot. */
  predicate OrderOk(sh: Shared) {
    && (forall k :: k in sh.flows ==>
          sh.flows[k].log.order < |sh.started| && sh.started[sh.flows[k].log.order] == k)
    && (forall i :: 0 <= i < |sh.started| ==> sh.started[i] in sh.flows && sh.flows[sh.started[i]].log.order == i)
  }

  /** The slot holds the newest flow until that flow leaves it. */
  predicate SlotOk(sh: Shared) {
    && (forall k :: k in sh.flows ==> (sh.slot == Some(k) <==> !sh.flows[k].log.left))
    && (sh.slot.Some? ==> sh.started != [] && sh.slot.value == Newest(sh))
    && sh.released <= sh.flows.Keys
    && (sh.latest.Some? ==> sh.latest.value in sh.released)
  }

  /** The newest flow, once stored, is the latest in the released map, unless it was lost. */
  predicate NewestKept(sh: Shared) {
    sh.started != [] && Newest(sh) in sh.flows && sh.flows[Newest(sh)].log.stored ==>
      || Newest(sh) in sh.lost
      || (Newest(sh) in sh.released && sh.latest == Some(Newest(sh)))
  }

  /** What holds until Shutdown. */
  predicate OpenOk(sh: Shared) {
    && (forall k :: k in sh.released ==> k in sh.flows && sh.flows[k].log.stored)
    && (forall k :: k in sh.lost ==> k in sh.flows && k !in sh.released && sh.flows[k].log.stored)
    && NewestKept(sh)
  }

  predicate SharedOk(sh: Shared) {
    FlowsOk(sh) && OrderOk(sh) && SlotOk(sh) && (!sh.closed ==> OpenOk(sh))
  }

  /** What a poll saw as the newest flow is no longer the newest open flow, or was lost. */
  predicate Outdated(sh: Shared, seen: Option<string>) {
    seen.Some? ==> || sh.closed || seen.value in sh.lost
                   || (seen.value in sh.flows && sh.flows[seen.value].log.order + 1 < |sh.started|)
  }

  predicate Reported(sh: Shared, seen: Option<string>) {
    seen.Some? && seen.value in sh.flows && sh.flows[seen.value].log.marked > 0
  }

  /** What an answer says, apart from the record the activity points to. */
  predicate AnswerOk(sh: Shared, r: Result) {
    match r
    case Woken(status) => Terminal(status)
    case Delivered(snapshot) => Complaint(snapshot).None?
    case IdlePoll(seen) => Outdated(sh, seen) || Reported(sh, seen)
    case _ => true
  }

  predicate AboutFlow(r: Result) {
    r.Completed? || r.AlreadyConsumed? || r.WinnerNotPublished? || r.CancelledFlow? || r.Failed?
  }

  predicate NeedsFlow(k: Kind, pc: Pc) {
    || FlowPc(pc) || ReleasePc(pc) || k.DevicePoll? || k.Reaper? || k.LoserWait?
    || (pc.Done? && AboutFlow(pc.result))
  }

  /** What activity tid may rely on about everything but the record it points to. */
  predicate PlaceOk(sh: Shared, tid: Tid, t: Task) {
    match t.pc
    case Enter => true
    case FindClosed => IsRail(t.kind)
    case FindSlot => IsRail(t.kind)
    case FindReleased(begun) =>
      IsRail(t.kind) && (begun ==> t.want in sh.flows && sh.flows[t.want].log.left)
    case PollStatus(seen) => seen == Some(t.fid)
    case PollMark(seen) => seen == Some(t.fid) || Outdated(sh, seen)
    case PollLatest(seen) =>
      t.kind.Poll? && (seen.Some? ==> seen.value in sh.flows && sh.flows[seen.value].log.left)
    case StartSlot => t.kind.Start? && sh.starter == Some(tid)
    case StartCas => t.kind.Start? && sh.starter == Some(tid)
    case StartCleanup =>
      t.kind.Start? && sh.starter == Some(tid) && sh.started != [] && t.fid == Newest(sh)
    case ShutdownLoad => t.kind.Shutdown? && sh.closed
    case ShutdownClear => t.kind.Shutdown? && sh.closed
    case Done(r) => AnswerOk(sh, r)
    case _ => true
  }

  predicate KindOk(k: Kind) {
    && (IsRail(k) ==> k.rail != RailUnknown)
    && (k.Start? ==> Fresh(k.flow))
  }

  predicate TaskOk(sh: Shared, tid: Tid, t: Task) {
    && KindOk(t.kind)
    && (NeedsFlow(t.kind, t.pc) ==>
          t.fid in sh.flows && PcOk(sh.flows[t.fid], sh.closed, tid, t.kind, t.pc))
    && PlaceOk(sh, tid, t)
  }

  predicate Inv(s: System) {
    && SharedOk(s.sh) && WinnersOk(s)
    && forall tid :: tid in s.tasks ==> TaskOk(s.sh, tid, s.tasks[tid])
  }

  /** Flows are consumed by activities that have begun. */
  predicate WinnersOk(s: System) {
    forall k :: k in s.sh.flows && s.sh.flows[k].log.winner.Some? ==> s.sh.flows[k].log.winner.value in s.tasks
  }

  // ---------------------------------------------------------------- what one activity may do to the others

  predicate FlowsGuarantee(a: Shared, b: Shared, tid: Tid) {
    forall k :: k in a.flows ==> k in b.flows && FlowGuarantee(a.flows[k], b.flows[k], tid, b.closed)
  }

  predicate Guarantee(a: Shared, b: Shared, tid: Tid) {
    && (a.closed ==> b.closed)
    && a.started <= b.started
    && FlowsGuarantee(a, b, tid)
    && a.lost <= b.lost
    && (a.starter.Some? && a.starter != Some(tid) ==> b.starter == a.starter && b.started == a.started)
  }

  lemma AnswerStable(a: Shared, b: Shared, tid: Tid, r: Result)
    requires Guarantee(a, b, tid) && AnswerOk(a, r)
    ensures AnswerOk(b, r)
  {
    hide Complaint;
    if r.IdlePoll? && r.seen.Some? && r.seen.value in a.flows {
      assert FlowGuarantee(a.flows[r.seen.value], b.flows[r.seen.value], tid, b.closed);
    }
  }

  lemma PlaceStable(a: Shared, b: Shared, tid: Tid, other: Tid, t: Task)
    requires Guarantee(a, b, tid) && tid != other && PlaceOk(a, other, t)
    ensures PlaceOk(b, other, t)
  {
    hide AnswerOk;
    match t.pc
    case FindReleased(begun) =>
      if begun { assert FlowGuarantee(a.flows[t.want], b.flows[t.want], tid, b.closed); }
    case PollMark(seen) =>
      if seen.Some? && seen.value in a.flows {
        assert FlowGuarantee(a.flows[seen.value], b.flows[seen.value], tid, b.closed);
      }
    case PollLatest(seen) =>
      if seen.Some? { assert FlowGuarantee(a.flows[seen.value], b.flows[seen.value], tid, b.closed); }
    case Done(r) => AnswerStable(a, b, tid, r);
    case _ =>
  }

  /** Another activity's action keeps what this one relies on. */
  lemma Stable(a: Shared, b: Shared, tid: Tid, other: Tid, t: Task)
    requires FlowsOk(a) && Guarantee(a, b, tid) && tid != other && TaskOk(a, other, t)
    ensures TaskOk(b, other, t)
  {
    hide PcOk, FlowGuarantee, PlaceOk, RecordOk, NeedsFlow;
    PlaceStable(a, b, tid, other, t);
    if NeedsFlow(t.kind, t.pc) {
      PcStable(a.flows[t.fid], b.flows[t.fid], a.closed, b.closed, tid, other, t.kind, t.pc);
    }
  }

  // ---------------------------------------------------------------- actions on one record

  /** What every action of activity tid establishes. */
  predicate StepOk(sh: Shared, tid: Tid, step: Step) {
    step.Move? ==> SharedOk(step.sh) && Guarantee(sh, step.sh, tid) && TaskOk(step.sh, tid, step.task)
  }

  /** g may replace the record of the same flow: slot, order and released map do not notice. */
  predicate Replaces(sh: Shared, g: Flow) {
    && g.id in sh.flows
    && var f := sh.flows[g.id];
       g.log.left == f.log.left && g.log.stored == f.log.stored && g.log.order == f.log.order
  }

  lemma PutOrder(sh: Shared, g: Flow)
    requires OrderOk(sh) && SlotOk(sh) && Replaces(sh, g)
    ensures OrderOk(Put(sh, g)) && SlotOk(Put(sh, g))
  {
    PutSlot(sh, g);
    hide SlotOk;
  }

  lemma PutSlot(sh: Shared, g: Flow)
    requires SlotOk(sh) && Replaces(sh, g)
    ensures SlotOk(Put(sh, g))
  {
  }

  lemma PutOpen(sh: Shared, g: Flow)
    requires OpenOk(sh) && Replaces(sh, g)
    ensures OpenOk(Put(sh, g))
  {
  }

  /** Rewriting one record within the guarantee leaves the other records alone. */
  lemma PutGuarantee(sh: Shared, g: Flow, tid: Tid)
    requires g.id in sh.flows && FlowGuarantee(sh.flows[g.id], g, tid, sh.closed)
    ensures FlowsGuarantee(sh, Put(sh, g), tid)
  {
    hide FlowGuarantee;
    forall k | k in sh.flows
      ensures k in Put(sh, g).flows && FlowGuarantee(sh.flows[k], Put(sh, g).flows[k], tid, sh.closed)
    {
      Unchanged(sh.flows[k], tid, sh.closed);
    }
  }

  lemma PutKeeps(sh: Shared, g: Flow, tid: Tid)
    requires SharedOk(sh) && Replaces(sh, g) && RecordOk(g, sh.closed)
    requires FlowGuarantee(sh.flows[g.id], g, tid, sh.closed)
    ensures SharedOk(Put(sh, g)) && Guarantee(sh, Put(sh, g), tid)
  {
    hide RecordOk, FlowGuarantee, OrderOk, SlotOk, OpenOk;
    PutOrder(sh, g);
    if !sh.closed { PutOpen(sh, g); }
    PutGuarantee(sh, g, tid);
  }

  /** Nothing but the record pointed to matters at pc. */
  predicate Plain(pc: Pc) {
    || (FlowPc(pc) && !PollPc(pc)) || ReleasePc(pc)
    || (pc.Done? && !pc.result.Woken? && !pc.result.Delivered? && !pc.result.IdlePoll?)
  }

  lemma PlainPlace(sh: Shared, tid: Tid, t: Task)
    requires Plain(t.pc)
    ensures PlaceOk(sh, tid, t)
  {
  }

  lemma RailActionOk(f: Flow, shut: bool, tid: Tid, k: Kind, pc: Pc, env: Env)
    requires RecordOk(f, shut) && PcOk(f, shut, tid, k, pc) && RailPc(pc)
    ensures ActionOk(f, shut, tid, k, RailStep(f, tid, k, pc, env))
  {
    hide RecordOk, PcOk, FlowGuarantee, ActionOk, RailStep, WinStep, DeviceStep;
    if pc.CheckConsumed? || pc.CheckOpen? || pc.Classify? { CheckOk(f, shut, tid, k, pc, env); }
    else if pc.LockFlow? || pc.LostUnlock? { LockOk(f, shut, tid, k, pc, env); }
    else if pc.CasUnderLock? { CasOk(f, shut, tid, k, pc, env); }
    else if pc.PublishRail? { PublishOk(f, shut, tid, k, pc, env); }
    else { RejectOk(f, shut, tid, k, pc, env); }
  }

  lemma WinActionOk(f: Flow, shut: bool, tid: Tid, k: Kind, pc: Pc, env: Env)
    requires RecordOk(f, shut) && PcOk(f, shut, tid, k, pc) && WinPc(pc)
    ensures ActionOk(f, shut, tid, k, WinStep(f, shut, tid, k, pc, env))
  {
    hide RecordOk, PcOk, FlowGuarantee, ActionOk, RailStep, WinStep, DeviceStep;
    if pc.CasPlain? { CasPlainOk(f, shut, tid, k, pc, env); }
    else if pc.InsertAccount? { InsertOk(f, shut, tid, k, pc, env); }
    else if pc.SetError? { SetErrorOk(f, shut, tid, k, pc, env); }
    else if pc.SetSuccess? { SetSuccessOk(f, shut, tid, k, pc, env); }
    else if pc.Signal? { SignalOk(f, shut, tid, k, pc, env); }
    else if pc.DeviceFinish? { FinishOk(f, shut, tid, k, pc, env); }
    else { ExchangeOk(f, shut, tid, k, pc, env); }
  }

  lemma DeviceActionOk(f: Flow, shut: bool, tid: Tid, k: Kind, pc: Pc, env: Env)
    requires RecordOk(f, shut) && PcOk(f, shut, tid, k, pc) && DevicePc(pc)
    ensures ActionOk(f, shut, tid, k, DeviceStep(f, shut, tid, pc, env))
  {
    hide RecordOk, PcOk, FlowGuarantee, ActionOk, RailStep, WinStep, DeviceStep;
    if pc.DeviceFailCas? { DeviceCasOk(f, shut, tid, k, pc, env); } else { DeviceOk(f, shut, tid, k, pc, env); }
  }

  lemma RailPlain(f: Flow, shut: bool, tid: Tid, k: Kind, pc: Pc, env: Env)
    requires RailPc(pc)
    ensures RailStep(f, tid, k, pc, env).Moved? ==> Plain(RailStep(f, tid, k, pc, env).pc)
  {
  }

  lemma WinPlain(f: Flow, shut: bool, tid: Tid, k: Kind, pc: Pc, env: Env)
    requires WinPc(pc)
    ensures WinStep(f, shut, tid, k, pc, env).Moved? ==> Plain(WinStep(f, shut, tid, k, pc, env).pc)
  {
  }

  lemma DevicePlain(f: Flow, shut: bool, tid: Tid, k: Kind, pc: Pc, env: Env)
    requires DevicePc(pc)
    ensures DeviceStep(f, shut, tid, pc, env).Moved? ==> Plain(DeviceStep(f, shut, tid, pc, env).pc)
  {
  }

  lemma OnFlowPlain(f: Flow, shut: bool, tid: Tid, k: Kind, pc: Pc, env: Env)
    requires RailPc(pc) || WinPc(pc) || DevicePc(pc)
    ensures var step := OnFlow(f, shut, tid, k, pc, env);
            step.Moved? ==> Plain(step.pc)
  {
    hide RailStep, WinStep, DeviceStep, Plain;
    if RailPc(pc) { RailPlain(f, shut, tid, k, pc, env); }
    else if WinPc(pc) { WinPlain(f, shut, tid, k, pc, env); }
    else { DevicePlain(f, shut, tid, k, pc, env); }
  }

  lemma OnFlowOk(f: Flow, shut: bool, tid: Tid, k: Kind, pc: Pc, env: Env)
    requires RecordOk(f, shut) && PcOk(f, shut, tid, k, pc) && FlowPc(pc)
    ensures ActionOk(f, shut, tid, k, OnFlow(f, shut, tid, k, pc, env))
  {
    hide RecordOk, PcOk, FlowGuarantee, ActionOk, RailStep, WinStep, DeviceStep, WaitStep, PollFlowStep;
    if RailPc(pc) { RailActionOk(f, shut, tid, k, pc, env); }
    else if WinPc(pc) { WinActionOk(f, shut, tid, k, pc, env); }
    else if DevicePc(pc) { DeviceActionOk(f, shut, tid, k, pc, env); }
    else if WaitPc(pc) { WaitOk(f, shut, tid, k, pc, env); }
    else { PollFlowOk(f, shut, tid, k, pc, env); }
  }

  lemma PollFlowOk(f: Flow, shut: bool, tid: Tid, k: Kind, pc: Pc, env: Env)
    requires RecordOk(f, shut) && PcOk(f, shut, tid, k, pc) && PollPc(pc)
    ensures ActionOk(f, shut, tid, k, PollFlowStep(f, pc))
  {
    hide RecordOk, PcOk, FlowGuarantee, Complaint;
    var step := PollFlowStep(f, pc);
    if step.Moved? {
      if step.f == f { PollReadOk(f, shut, tid, k, pc, env); } else { PollWriteOk(f, shut, tid, k, pc, env); }
    }
  }

  /** A waiter woken through the channel, or that read a terminal status, answers with one. */
  lemma WaitAnswer(sh: Shared, tid: Tid, t: Task, env: Env)
    requires t.fid in sh.flows && RecordOk(sh.flows[t.fid], sh.closed) && WaitPc(t.pc)
    requires PcOk(sh.flows[t.fid], sh.closed, tid, t.kind, t.pc)
    ensures var step := OnFlow(sh.flows[t.fid], sh.closed, tid, t.kind, t.pc, env);
            step.Moved? ==> PlaceOk(sh, tid, t.(pc := step.pc))
  {
    hide Complaint;
  }

  /** A poll delivers valid snapshots, and answers idle only for a reported or outdated flow. */
  lemma PollAnswer(sh: Shared, tid: Tid, t: Task, env: Env)
    requires t.fid in sh.flows && RecordOk(sh.flows[t.fid], sh.closed) && PollPc(t.pc)
    requires PlaceOk(sh, tid, t)
    ensures var step := OnFlow(sh.flows[t.fid], sh.closed, tid, t.kind, t.pc, env);
            step.Moved? ==> PlaceOk(sh, tid, t.(pc := step.pc))
  {
    hide Complaint;
  }

  lemma FlowActionOk(sh: Shared, tid: Tid, t: Task, env: Env)
    requires SharedOk(sh) && TaskOk(sh, tid, t) && FlowPc(t.pc)
    ensures StepOk(sh, tid, Next(sh, tid, t, env))
  {
    hide RecordOk, PcOk, PlaceOk, FlowGuarantee, OnFlow, OrderOk, SlotOk, OpenOk, Guarantee;
    var f := sh.flows[t.fid];
    OnFlowOk(f, sh.closed, tid, t.kind, t.pc, env);
    var step := OnFlow(f, sh.closed, tid, t.kind, t.pc, env);
    if step.Moved? {
      GuaranteeFacts(f, step.f, tid, sh.closed);
      PutKeeps(sh, step.f, tid);
      PlaceAfter(sh, tid, t, env);
    }
  }

  lemma GuaranteeFacts(f: Flow, g: Flow, tid: Tid, shut: bool)
    requires FlowGuarantee(f, g, tid, shut)
    ensures g.id == f.id && g.log.order == f.log.order && g.log.marked >= f.log.marked
  {
  }

  lemma PlaceAfter(sh: Shared, tid: Tid, t: Task, env: Env)
    requires SharedOk(sh) && TaskOk(sh, tid, t) && FlowPc(t.pc)
    requires OnFlow(sh.flows[t.fid], sh.closed, tid, t.kind, t.pc, env).Moved?
    ensures var step := OnFlow(sh.flows[t.fid], sh.closed, tid, t.kind, t.pc, env);
            PlaceOk(Put(sh, step.f), tid, t.(pc := step.pc))
  {
    hide RecordOk, PcOk, PlaceOk, FlowGuarantee, OrderOk, SlotOk, OpenOk, Plain, OnFlow;
    var f := sh.flows[t.fid];
    var step := OnFlow(f, sh.closed, tid, t.kind, t.pc, env);
    OnFlowOk(f, sh.closed, tid, t.kind, t.pc, env);
    var after := t.(pc := step.pc);
    if WaitPc(t.pc) { WaitAnswer(sh, tid, t, env); }
    else if PollPc(t.pc) { PollAnswer(sh, tid, t, env); }
    else { OnFlowPlain(f, sh.closed, tid, t.kind, t.pc, env); PlainPlace(sh, tid, after); PlainPlace(Put(sh, step.f), tid, after); }
    GuaranteeFacts(f, step.f, tid, sh.closed);
    PlacePut(sh, step.f, tid, after);
  }

  /** Rewriting one record does not disturb what a task relies on elsewhere. */
  lemma PlacePut(sh: Shared, g: Flow, tid: Tid, t: Task)
    requires PlaceOk(sh, tid, t) && g.id in sh.flows
    requires g.log.order == sh.flows[g.id].log.order && g.log.marked >= sh.flows[g.id].log.marked
    requires g.log.left == sh.flows[g.id].log.left
    ensures PlaceOk(Put(sh, g), tid, t)
  {
    hide Complaint;
  }

  // ---------------------------------------------------------------- releasing a flow

  lemma SharedReadOk(sh: Shared, tid: Tid, t: Task)
    requires SharedOk(sh) && TaskOk(sh, tid, t)
    ensures StepOk(sh, tid, Move(sh, t))
  {
    hide RecordOk, PcOk, PlaceOk, OrderOk, SlotOk, OpenOk, FlowGuarantee;
    forall k | k in sh.flows ensures FlowGuarantee(sh.flows[k], sh.flows[k], tid, sh.closed) {
      Unchanged(sh.flows[k], tid, sh.closed);
    }
  }

  lemma TaskAfter(sh: Shared, tid: Tid, t: Task, pc: Pc)
    requires KindOk(t.kind) && t.fid in sh.flows
    requires PcOk(sh.flows[t.fid], sh.closed, tid, t.kind, pc)
    requires Plain(pc) || (pc.ShutdownClear? && t.kind.Shutdown? && sh.closed)
    ensures TaskOk(sh, tid, t.(pc := pc))
  {
    hide PcOk, NeedsFlow;
    var after := t.(pc := pc);
    if Plain(pc) { PlainPlace(sh, tid, after); }
  }

  lemma AfterReleasePlain(k: Kind, r: Result)
    requires Settled(r)
    ensures Plain(AfterRelease(k, r)) || (k.Shutdown? && AfterRelease(k, r) == ShutdownClear)
  {
  }

  lemma ReleaseReadOk(sh: Shared, tid: Tid, t: Task)
    requires SharedOk(sh) && TaskOk(sh, tid, t) && (t.pc.ReleaseLoad? || t.pc.ReleaseClosed?)
    ensures StepOk(sh, tid, ReleaseStep(sh, t))
  {
    hide RecordOk, PcOk, PlaceOk, OrderOk, OpenOk, StepOk, Plain, AfterRelease, KindOk, FlowsOk;
    var f := sh.flows[t.fid];
    var pc := ReleaseStep(sh, t).task.pc;
    AfterReleaseOk(f, sh.closed, tid, t.kind, t.pc);
    AfterReleasePlain(t.kind, t.pc.result);
    ReleaseTestOk(f, sh.closed, tid, t.kind, t.pc);
    assert Plain(ReleaseClosed(t.pc.result)) && Plain(ReleaseCas(t.pc.result)) && Plain(ReleaseStore(t.pc.result)) by {
      PlainRelease(t.pc.result);
    }
    TaskAfter(sh, tid, t, pc);
    SharedReadOk(sh, tid, t.(pc := pc));
  }

  lemma PlainRelease(r: Result)
    ensures Plain(ReleaseClosed(r)) && Plain(ReleaseCas(r)) && Plain(ReleaseStore(r))
  {
  }

  lemma UnlockStepOk(sh: Shared, tid: Tid, t: Task)
    requires SharedOk(sh) && TaskOk(sh, tid, t) && t.pc.UnlockFlow?
    ensures StepOk(sh, tid, ReleaseStep(sh, t))
  {
    hide RecordOk, PcOk, PlaceOk, OrderOk, SlotOk, OpenOk, FlowGuarantee, Plain, Guarantee;
    var f := sh.flows[t.fid];
    UnlockOk(f, sh.closed, tid, t.kind, t.pc.result);
    PutKeeps(sh, f.(writer := None), tid);
    TaskAfter(Put(sh, f.(writer := None)), tid, t, Done(t.pc.result)) by { PlainDone(t.kind, t.pc.result); }
  }

  lemma PlainDone(k: Kind, r: Result)
    requires HoldsLock(k, r)
    ensures Plain(Done(r))
  {
  }

  /** The stores of ReleaseFlow rewrite the log of one record; g is the new record. */
  lemma LogGuarantee(sh: Shared, after: Shared, g: Flow, tid: Tid)
    requires g.id in sh.flows && FlowGuarantee(sh.flows[g.id], g, tid, sh.closed)
    requires after.flows == sh.flows[g.id := g] && after.closed == sh.closed
    requires after.started == sh.started && after.lost == sh.lost && after.starter == sh.starter
    ensures Guarantee(sh, after, tid)
  {
    hide FlowGuarantee;
    PutGuarantee(sh, g, tid);
  }

  lemma LogFlowsOk(sh: Shared, after: Shared, g: Flow)
    requires FlowsOk(sh) && g.id in sh.flows && RecordOk(g, sh.closed)
    requires after.flows == sh.flows[g.id := g] && after.closed == sh.closed
    ensures FlowsOk(after)
  {
    hide RecordOk;
  }

  lemma ReleaseStoreOk(sh: Shared, tid: Tid, t: Task)
    requires SharedOk(sh) && TaskOk(sh, tid, t) && t.pc.ReleaseStore?
    ensures StepOk(sh, tid, ReleaseStep(sh, t))
  {
    hide RecordOk, PcOk, PlaceOk, FlowGuarantee, Plain, Guarantee, OrderOk, SlotOk, OpenOk, FlowsOk;
    var f := sh.flows[t.fid];
    var g := f.(log := f.log.(stored := true));
    assert f.id == t.fid && RecordOk(f, sh.closed) by { FlowIn(sh, t.fid); }
    StoreOk(f, sh.closed, tid, t.kind, t.pc.result);
    var after := ReleaseStep(sh, t).sh;
    LogGuarantee(sh, after, g, tid);
    LogFlowsOk(sh, after, g);
    StoredShared(sh, t.fid);
    TaskAfter(after, tid, t, ReleaseCas(t.pc.result)) by { PlainRelease(t.pc.result); }
  }

  lemma FlowIn(sh: Shared, k: string)
    requires FlowsOk(sh) && k in sh.flows
    ensures sh.flows[k].id == k && RecordOk(sh.flows[k], sh.closed)
  {
  }

  function Stored(sh: Shared, k: string): Shared
    requires k in sh.flows
  {
    Put(sh.(released := sh.released + {k}, latest := Some(k)),
        sh.flows[k].(log := sh.flows[k].log.(stored := true)))
  }

  lemma StoredShared(sh: Shared, k: string)
    requires k in sh.flows && sh.flows[k].id == k
    requires OrderOk(sh) && SlotOk(sh) && (!sh.closed ==> OpenOk(sh))
    requires !sh.closed ==> !sh.flows[k].log.stored && !sh.flows[k].log.left
    ensures OrderOk(Stored(sh, k)) && SlotOk(Stored(sh, k)) && (!sh.closed ==> OpenOk(Stored(sh, k)))
  {
    var f := sh.flows[k];
    StoredOrder(sh, k);
    if !sh.closed { StoredOpen(sh, k); }
  }

  lemma StoredOrder(sh: Shared, k: string)
    requires k in sh.flows && sh.flows[k].id == k && OrderOk(sh) && SlotOk(sh)
    ensures OrderOk(Stored(sh, k)) && SlotOk(Stored(sh, k))
  {
    StoredSlot(sh, k);
    hide SlotOk;
  }

  lemma StoredSlot(sh: Shared, k: string)
    requires k in sh.flows && sh.flows[k].id == k && SlotOk(sh)
    ensures SlotOk(Stored(sh, k))
  {
  }

  lemma StoredOpen(sh: Shared, k: string)
    requires k in sh.flows && sh.flows[k].id == k && SlotOk(sh) && OpenOk(sh)
    requires !sh.flows[k].log.stored && !sh.flows[k].log.left
    ensures OpenOk(Stored(sh, k))
  {
  }

  /** The compare-and-swap that empties the slot, after the flow was stored or after Shutdown. */
  lemma ReleaseCasOk(sh: Shared, tid: Tid, t: Task)
    requires SharedOk(sh) && TaskOk(sh, tid, t) && t.pc.ReleaseCas? && sh.slot == Some(t.fid)
    ensures StepOk(sh, tid, ReleaseStep(sh, t))
  {
    hide RecordOk, PcOk, PlaceOk, FlowGuarantee, Plain, Guarantee, OrderOk, SlotOk, OpenOk, FlowsOk, AfterRelease;
    var f := sh.flows[t.fid];
    var g := f.(log := f.log.(left := true));
    FlowIn(sh, t.fid);
    LeaveOk(f, sh.closed, tid, t.kind, t.pc.result);
    var after := ReleaseStep(sh, t).sh;
    LogGuarantee(sh, after, g, tid);
    LogFlowsOk(sh, after, g);
    LeftShared(sh, t.fid);
    AfterReleaseOk(f, sh.closed, tid, t.kind, t.pc);
    AfterReleasePlain(t.kind, t.pc.result);
    TaskAfter(after, tid, t, AfterRelease(t.kind, t.pc.result));
  }

  function Left(sh: Shared, k: string): Shared
    requires k in sh.flows
  {
    Put(sh.(slot := None), sh.flows[k].(log := sh.flows[k].log.(left := true)))
  }

  lemma LeftShared(sh: Shared, k: string)
    requires k in sh.flows && sh.flows[k].id == k && sh.slot == Some(k)
    requires OrderOk(sh) && SlotOk(sh) && (!sh.closed ==> OpenOk(sh))
    ensures OrderOk(Left(sh, k)) && SlotOk(Left(sh, k)) && (!sh.closed ==> OpenOk(Left(sh, k)))
  {
    LeftOrder(sh, k);
    if !sh.closed { LeftOpen(sh, k); }
  }

  lemma LeftOrder(sh: Shared, k: string)
    requires k in sh.flows && sh.flows[k].id == k && sh.slot == Some(k) && OrderOk(sh) && SlotOk(sh)
    ensures OrderOk(Left(sh, k)) && SlotOk(Left(sh, k))
  {
  }

  lemma LeftOpen(sh: Shared, k: string)
    requires k in sh.flows && sh.flows[k].id == k && OpenOk(sh)
    ensures OpenOk(Left(sh, k))
  {
  }

  lemma ReleaseMissOk(sh: Shared, tid: Tid, t: Task)
    requires SharedOk(sh) && TaskOk(sh, tid, t) && t.pc.ReleaseCas? && sh.slot != Some(t.fid)
    ensures StepOk(sh, tid, ReleaseStep(sh, t))
  {
    hide RecordOk, PcOk, PlaceOk, OrderOk, SlotOk, OpenOk, StepOk, Plain, AfterRelease, KindOk, FlowsOk;
    var f := sh.flows[t.fid];
    AfterReleaseOk(f, sh.closed, tid, t.kind, t.pc);
    AfterReleasePlain(t.kind, t.pc.result);
    TaskAfter(sh, tid, t, AfterRelease(t.kind, t.pc.result));
    SharedReadOk(sh, tid, t.(pc := AfterRelease(t.kind, t.pc.result)));
  }

  lemma ReleaseActionOk(sh: Shared, tid: Tid, t: Task)
    requires SharedOk(sh) && TaskOk(sh, tid, t) && ReleasePc(t.pc)
    ensures t.fid in sh.flows && StepOk(sh, tid, ReleaseStep(sh, t))
  {
    hide RecordOk, PcOk, PlaceOk, StepOk, SharedOk, KindOk, ReleaseStep;
    if t.pc.ReleaseLoad? || t.pc.ReleaseClosed? { ReleaseReadOk(sh, tid, t); }
    else if t.pc.ReleaseStore? { ReleaseStoreOk(sh, tid, t); }
    else if t.pc.UnlockFlow? { UnlockStepOk(sh, tid, t); }
    else if sh.slot == Some(t.fid) { ReleaseCasOk(sh, tid, t); }
    else { ReleaseMissOk(sh, tid, t); }
  }

  // ---------------------------------------------------------------- entering and finding a flow

  lemma SlotFacts(sh: Shared, k: string)
    requires OrderOk(sh) && SlotOk(sh)
    ensures sh.slot == Some(k) ==> k in sh.flows
    ensures k in sh.flows && sh.slot != Some(k) ==> sh.flows[k].log.left
    ensures k in sh.released ==> k in sh.flows
    ensures sh.started != [] ==> Newest(sh) in sh.flows
    ensures sh.slot.Some? ==> sh.started != [] && sh.slot.value == Newest(sh)
  {
  }

  /** After the newest flow has left the slot, the latest released flow is that flow, unless the
      flow was lost or Shutdown has begun. */
  lemma LatestIsNewest(sh: Shared, seen: Option<string>)
    requires SharedOk(sh)
    requires seen.Some? ==> seen.value in sh.flows && sh.flows[seen.value].log.left
    ensures Outdated(sh, seen) || (sh.latest == seen && seen.value in sh.released)
  {
    hide FlowOk;
    if seen.Some? && !sh.closed {
      FlowIn(sh, seen.value);
    }
  }

  /** The places a rail reaches while it looks its flow up. */
  lemma RailPlace(sh: Shared, tid: Tid, t: Task)
    requires KindOk(t.kind) && IsRail(t.kind)
    requires || t.pc.FindClosed? || t.pc.FindSlot? || (t.pc.Done? && (t.pc.result.FlowNotFound? || t.pc.result.CannotCancel?))
             || (t.pc.FindReleased? && (t.pc.begun ==> t.want in sh.flows && sh.flows[t.want].log.left))
             || (t.pc.CheckConsumed? && t.fid in sh.flows)
    ensures TaskOk(sh, tid, t)
  {
  }

  lemma FindRailOk(sh: Shared, tid: Tid, t: Task)
    requires SharedOk(sh) && TaskOk(sh, tid, t) && FindPc(t.pc) && !t.pc.PollLatest?
    ensures StepOk(sh, tid, FindStep(sh, t))
  {
    hide RecordOk, OrderOk, SlotOk, OpenOk, StepOk, Outdated, FlowsOk, Reported, FlowGuarantee, PcOk, NeedsFlow;
    SlotFacts(sh, t.want);
    RailPlace(sh, tid, FindStep(sh, t).task);
    SharedReadOk(sh, tid, FindStep(sh, t).task);
  }

  /** The places a poll reaches before it reads a record. */
  lemma PollPlace(sh: Shared, tid: Tid, t: Task)
    requires t.kind.Poll?
    requires || (t.pc.PollStatus? && t.fid in sh.flows && t.pc.seen == Some(t.fid))
             || (t.pc.PollMark? && t.fid in sh.flows && (t.pc.seen == Some(t.fid) || Outdated(sh, t.pc.seen)))
             || (t.pc.PollLatest? && (t.pc.seen.Some? ==> t.pc.seen.value in sh.flows && sh.flows[t.pc.seen.value].log.left))
             || (t.pc.Done? && t.pc.result.IdlePoll? && Outdated(sh, t.pc.result.seen))
    ensures TaskOk(sh, tid, t)
  {
    hide Outdated;
  }

  lemma PollLatestOk(sh: Shared, tid: Tid, t: Task)
    requires SharedOk(sh) && TaskOk(sh, tid, t) && t.pc.PollLatest?
    ensures StepOk(sh, tid, FindStep(sh, t))
  {
    hide RecordOk, OrderOk, SlotOk, OpenOk, StepOk, Outdated, FlowsOk, Reported, FlowGuarantee, PcOk, NeedsFlow;
    LatestIsNewest(sh, t.pc.seen);
    NothingSeen(sh, t.pc.seen);
    if sh.latest.Some? { SlotFacts(sh, sh.latest.value); }
    PollPlace(sh, tid, FindStep(sh, t).task);
    SharedReadOk(sh, tid, FindStep(sh, t).task);
  }

  lemma NothingSeen(sh: Shared, seen: Option<string>)
    ensures seen == None ==> Outdated(sh, seen)
  {
  }

  /** The places an activity on one record reaches first. */
  lemma FlowPlace(sh: Shared, tid: Tid, t: Task)
    requires !IsRail(t.kind) && !t.kind.Start? && t.fid in sh.flows
    requires t.kind.DevicePoll? ==> sh.flows[t.fid].meth == Device
    requires || t.pc.CasPlain? || t.pc.WaitStatus? || t.pc == Done(Skipped)
             || (t.pc.DeviceOpen? && t.kind.DevicePoll? && sh.flows[t.fid].log.winner != Some(tid))
    ensures TaskOk(sh, tid, t)
  {
  }

  lemma PointerFacts(sh: Shared, tid: Tid, t: Task)
    requires TaskOk(sh, tid, t)
    ensures t.kind.Reaper? || t.kind.DevicePoll? || t.kind.LoserWait? ==> t.fid in sh.flows
    ensures t.kind.DevicePoll? ==> sh.flows[t.fid].meth == Device
    ensures t.kind.DevicePoll? && t.pc.Enter? ==> sh.flows[t.fid].log.winner != Some(tid)
  {
    hide PlaceOk;
  }

  /** An activity on the record it holds, or a cancel of the flow in the slot, begins. */
  lemma EnterFlowOk(sh: Shared, tid: Tid, t: Task)
    requires SharedOk(sh) && TaskOk(sh, tid, t) && t.pc.Enter?
    requires t.kind.AdminCancel? || t.kind.Reaper? || t.kind.DevicePoll? || t.kind.LoserWait?
    ensures StepOk(sh, tid, EnterStep(sh, tid, t))
  {
    hide RecordOk, OrderOk, SlotOk, OpenOk, StepOk, Outdated, FlowsOk, Reported, FlowGuarantee, PcOk, PlaceOk, NeedsFlow;
    SlotFacts(sh, t.want);
    PointerFacts(sh, tid, t);
    var next := EnterStep(sh, tid, t).task;
    if next.pc == Done(FlowNotFound) { CancelMiss(sh, tid, next); } else { FlowPlace(sh, tid, next); }
    SharedReadOk(sh, tid, next);
  }

  lemma CancelMiss(sh: Shared, tid: Tid, t: Task)
    requires t.kind.AdminCancel? && t.pc == Done(FlowNotFound)
    ensures TaskOk(sh, tid, t)
  {
  }

  lemma EnterRailOk(sh: Shared, tid: Tid, t: Task)
    requires SharedOk(sh) && TaskOk(sh, tid, t) && t.pc.Enter? && IsRail(t.kind)
    ensures StepOk(sh, tid, EnterStep(sh, tid, t))
  {
    hide RecordOk, OrderOk, SlotOk, OpenOk, StepOk, Outdated, FlowsOk, Reported, FlowGuarantee, PcOk, PlaceOk, NeedsFlow;
    RailPlace(sh, tid, EnterStep(sh, tid, t).task);
    SharedReadOk(sh, tid, EnterStep(sh, tid, t).task);
  }

  lemma EnterPollOk(sh: Shared, tid: Tid, t: Task)
    requires SharedOk(sh) && TaskOk(sh, tid, t) && t.pc.Enter? && t.kind.Poll?
    ensures StepOk(sh, tid, EnterStep(sh, tid, t))
  {
    hide RecordOk, OrderOk, SlotOk, OpenOk, StepOk, Outdated, FlowsOk, Reported, FlowGuarantee, PcOk, NeedsFlow, PlaceOk;
    if sh.slot.Some? { SlotFacts(sh, sh.slot.value); }
    if sh.started != [] { SlotFacts(sh, Newest(sh)); }
    PollPlace(sh, tid, EnterStep(sh, tid, t).task);
    SharedReadOk(sh, tid, EnterStep(sh, tid, t).task);
  }

  // ---------------------------------------------------------------- start and shutdown

  /** Changes that touch no record: the start mutex, the closed flag, the released map. */
  lemma SameFlows(sh: Shared, after: Shared, tid: Tid)
    requires FlowsOk(sh) && after.flows == sh.flows && (sh.closed ==> after.closed)
    ensures FlowsOk(after) && FlowsGuarantee(sh, after, tid)
  {
    hide FlowOk;
    forall k | k in sh.flows ensures FlowGuarantee(sh.flows[k], sh.flows[k], tid, after.closed) {
      Unchanged(sh.flows[k], tid, after.closed);
    }
  }

  /** The start mutex and the closed flag. */
  lemma FlagsOk(sh: Shared, closed: bool, starter: Option<Tid>, tid: Tid)
    requires SharedOk(sh) && (sh.closed ==> closed)
    requires sh.starter == starter || sh.starter == None || sh.starter == Some(tid)
    ensures SharedOk(sh.(closed := closed, starter := starter))
    ensures Guarantee(sh, sh.(closed := closed, starter := starter), tid)
  {
    hide FlowsOk, FlowsGuarantee;
    SameFlows(sh, sh.(closed := closed, starter := starter), tid);
  }

  lemma ClearOk(sh: Shared, tid: Tid)
    requires SharedOk(sh) && sh.closed
    ensures SharedOk(sh.(released := {}, latest := None)) && Guarantee(sh, sh.(released := {}, latest := None), tid)
  {
    hide FlowsOk, FlowsGuarantee, OpenOk;
    SameFlows(sh, sh.(released := {}, latest := None), tid);
  }

  /** The places Shutdown and a start reach, apart from the flow a start has put in the slot. */
  lemma ControlPlace(sh: Shared, tid: Tid, t: Task)
    requires KindOk(t.kind) && (t.kind.Shutdown? || t.kind.Start?)
    requires || ((t.pc.StartSlot? || t.pc.StartCas?) && t.kind.Start? && sh.starter == Some(tid))
             || ((t.pc.ShutdownLoad? || t.pc.ShutdownClear?) && t.kind.Shutdown? && sh.closed)
             || (t.pc.StartCleanup? && t.kind.Start? && sh.starter == Some(tid) && sh.started != [] && t.fid == Newest(sh))
             || (t.pc.Done? && !AboutFlow(t.pc.result) && (Settled(t.pc.result) || t.pc.result.InProgress?
                                                           || t.pc.result.CoordinatorClosed? || t.pc.result.Started?))
             || (t.pc == ReleaseLoad(ShutDown) && t.kind.Shutdown? && sh.closed && t.fid in sh.flows)
    ensures TaskOk(sh, tid, t)
  {
  }

  lemma ShutdownEnterOk(sh: Shared, tid: Tid, t: Task)
    requires SharedOk(sh) && TaskOk(sh, tid, t) && t.pc.Enter? && t.kind.Shutdown?
    ensures StepOk(sh, tid, EnterStep(sh, tid, t))
  {
    hide SharedOk, Guarantee, PcOk, PlaceOk, NeedsFlow;
    FlagsOk(sh, true, sh.starter, tid);
    ControlPlace(sh.(closed := true), tid, EnterStep(sh, tid, t).task);
  }

  lemma ShutdownActionOk(sh: Shared, tid: Tid, t: Task)
    requires SharedOk(sh) && TaskOk(sh, tid, t) && (t.pc.ShutdownLoad? || t.pc.ShutdownClear?)
    ensures StepOk(sh, tid, ShutdownStep(sh, t))
  {
    hide FlowsOk, OrderOk, SlotOk, OpenOk, Guarantee, PcOk, NeedsFlow;
    var step := ShutdownStep(sh, t);
    FlagsOk(sh, true, sh.starter, tid);
    ClearOk(sh, tid);
    if sh.slot.Some? { SlotFacts(sh, sh.slot.value); }
    ControlPlace(step.sh, tid, step.task);
  }

  lemma StartEnterOk(sh: Shared, tid: Tid, t: Task)
    requires SharedOk(sh) && TaskOk(sh, tid, t) && t.pc.Enter? && t.kind.Start?
    ensures StepOk(sh, tid, EnterStep(sh, tid, t))
  {
    hide SharedOk, Guarantee, PcOk, PlaceOk, NeedsFlow;
    var step := EnterStep(sh, tid, t);
    if step.Move? {
      FlagsOk(sh, sh.closed, step.sh.starter, tid);
      ControlPlace(step.sh, tid, step.task);
    }
  }

  lemma StartTestOk(sh: Shared, tid: Tid, t: Task)
    requires SharedOk(sh) && TaskOk(sh, tid, t) && t.kind.Start? && (t.pc.StartSlot? || t.pc.StartCas?)
    requires t.pc.StartSlot? || sh.slot.Some?
    ensures StepOk(sh, tid, StartStep(sh, t))
  {
    hide SharedOk, Guarantee, PcOk, NeedsFlow;
    var step := StartStep(sh, t);
    FlagsOk(sh, sh.closed, step.sh.starter, tid);
    ControlPlace(step.sh, tid, step.task);
  }

  /** Puts a fresh flow in the slot. */
  function Begun(sh: Shared, f: Flow): Shared {
    Put(sh.(slot := Some(f.id), started := sh.started + [f.id]), f.(log := f.log.(order := |sh.started|)))
  }

  lemma FreshOk(f: Flow, order: nat, shut: bool)
    requires Fresh(f)
    ensures RecordOk(f.(log := f.log.(order := order)), shut)
  {
  }

  lemma BegunOk(sh: Shared, f: Flow, tid: Tid)
    requires SharedOk(sh) && Fresh(f) && sh.slot == None && f.id !in sh.flows && sh.starter == Some(tid)
    ensures SharedOk(Begun(sh, f)) && Guarantee(sh, Begun(sh, f), tid)
  {
    hide RecordOk, FlowGuarantee, OrderOk, SlotOk;
    FreshOk(f, |sh.started|, sh.closed);
    BegunOrder(sh, f);
    BegunOpen(sh, f);
    hide OpenOk;
    var after := Begun(sh, f);
    forall k | k in sh.flows ensures FlowGuarantee(sh.flows[k], after.flows[k], tid, sh.closed) {
      Unchanged(sh.flows[k], tid, sh.closed);
    }
  }

  lemma BegunOpen(sh: Shared, f: Flow)
    requires OrderOk(sh) && SlotOk(sh) && Fresh(f) && sh.slot == None && (sh.closed || OpenOk(sh)) && f.id !in sh.flows
    ensures sh.closed || OpenOk(Begun(sh, f))
  {
  }

  lemma BegunOrder(sh: Shared, f: Flow)
    requires OrderOk(sh) && SlotOk(sh) && Fresh(f) && sh.slot == None && f.id !in sh.flows
    ensures OrderOk(Begun(sh, f)) && SlotOk(Begun(sh, f))
  {
    hide RecordOk;
    var after := Begun(sh, f);
    forall k | k in after.flows
      ensures after.flows[k].log.order < |after.started| && after.started[after.flows[k].log.order] == k
    {
    }
  }

  lemma StartCasOk(sh: Shared, tid: Tid, t: Task)
    requires SharedOk(sh) && TaskOk(sh, tid, t) && t.kind.Start? && t.pc.StartCas? && sh.slot == None
    ensures StepOk(sh, tid, StartStep(sh, t))
  {
    hide SharedOk, Guarantee, PcOk, NeedsFlow;
    var step := StartStep(sh, t);
    if step.Move? {
      BegunOk(sh, t.kind.flow, tid);
      ControlPlace(step.sh, tid, step.task);
    }
  }

  /** The cleanup may remove the flow that was just started, and then records it as lost. */
  lemma CleanedOpen(sh: Shared, t: Task)
    requires OpenOk(sh) && t.kind.Start? && t.pc.StartCleanup? && sh.started != [] && t.fid == Newest(sh)
    ensures OpenOk(StartStep(sh, t).sh)
  {
    hide RecordOk;
  }

  lemma CleanedSlot(sh: Shared, t: Task)
    requires OrderOk(sh) && SlotOk(sh) && t.kind.Start? && t.pc.StartCleanup?
    ensures OrderOk(StartStep(sh, t).sh) && SlotOk(StartStep(sh, t).sh)
  {
    hide RecordOk;
  }

  lemma CleanedOk(sh: Shared, tid: Tid, t: Task)
    requires SharedOk(sh) && t.kind.Start? && t.pc.StartCleanup? && sh.starter == Some(tid)
    requires sh.started != [] && t.fid == Newest(sh)
    ensures SharedOk(StartStep(sh, t).sh) && Guarantee(sh, StartStep(sh, t).sh, tid)
  {
    hide RecordOk, FlowsOk, FlowsGuarantee, OrderOk, SlotOk, OpenOk, CleanReleased;
    SameFlows(sh, StartStep(sh, t).sh, tid);
    CleanedSlot(sh, t);
    if !sh.closed { CleanedOpen(sh, t); }
  }

  lemma StartCleanupOk(sh: Shared, tid: Tid, t: Task)
    requires SharedOk(sh) && TaskOk(sh, tid, t) && t.kind.Start? && t.pc.StartCleanup?
    ensures StepOk(sh, tid, StartStep(sh, t))
  {
    hide SharedOk, Guarantee, PcOk, NeedsFlow;
    var step := StartStep(sh, t);
    CleanedOk(sh, tid, t);
    ControlPlace(step.sh, tid, step.task);
  }

  // ---------------------------------------------------------------- every action, every run

  lemma EnterActionOk(sh: Shared, tid: Tid, t: Task)
    requires SharedOk(sh) && TaskOk(sh, tid, t) && t.pc.Enter?
    ensures StepOk(sh, tid, EnterStep(sh, tid, t))
  {
    hide SharedOk, TaskOk, StepOk, EnterStep;
    if t.kind.Start? { StartEnterOk(sh, tid, t); }
    else if t.kind.Shutdown? { ShutdownEnterOk(sh, tid, t); }
    else if t.kind.Poll? { EnterPollOk(sh, tid, t); }
    else if IsRail(t.kind) { EnterRailOk(sh, tid, t); }
    else { EnterFlowOk(sh, tid, t); }
  }

  lemma StartActionOk(sh: Shared, tid: Tid, t: Task)
    requires SharedOk(sh) && TaskOk(sh, tid, t) && t.kind.Start? && StartPc(t.pc)
    ensures StepOk(sh, tid, StartStep(sh, t))
  {
    hide SharedOk, TaskOk, StepOk, StartStep;
    if t.pc.StartCleanup? { StartCleanupOk(sh, tid, t); }
    else if t.pc.StartCas? && sh.slot == None { StartCasOk(sh, tid, t); }
    else { StartTestOk(sh, tid, t); }
  }

  /** Whatever one activity does next, the shared state stays sound, the activity may go on relying
      on its own view, and it has stayed within what the others tolerate. */
  lemma ActionKeeps(sh: Shared, tid: Tid, t: Task, env: Env)
    requires SharedOk(sh) && TaskOk(sh, tid, t)
    ensures StepOk(sh, tid, Next(sh, tid, t, env))
  {
    hide SharedOk, TaskOk, EnterStep, StartStep, FindStep, ReleaseStep, OnFlow;
    if FlowPc(t.pc) { FlowActionOk(sh, tid, t, env); }
    else if ReleasePc(t.pc) { ReleaseActionOk(sh, tid, t); }
    else if t.pc.Enter? { EnterActionOk(sh, tid, t); }
    else if t.pc.PollLatest? { PollLatestOk(sh, tid, t); }
    else if FindPc(t.pc) { FindRailOk(sh, tid, t); }
    else if StartPc(t.pc) { if t.kind.Start? { StartActionOk(sh, tid, t); } }
    else if t.pc.ShutdownLoad? || t.pc.ShutdownClear? { ShutdownActionOk(sh, tid, t); }
  }

  lemma SpawnOk(sh: Shared, tid: Tid, t: Task)
    requires CanSpawn(sh, t) && (t.fid in sh.flows ==> sh.flows[t.fid].log.winner != Some(tid))
    ensures TaskOk(sh, tid, t)
  {
  }

  lemma ServerDownOk(sh: Shared, fid: string, tid: Tid)
    requires SharedOk(sh) && fid in sh.flows && sh.flows[fid].log.left
    ensures SharedOk(Put(sh, sh.flows[fid].(listenerBound := false)))
    ensures Guarantee(sh, Put(sh, sh.flows[fid].(listenerBound := false)), tid)
  {
    hide OrderOk, SlotOk, OpenOk;
    PutKeeps(sh, sh.flows[fid].(listenerBound := false), tid);
  }

  lemma NotYetWinner(s: System, tid: Tid, k: string)
    requires WinnersOk(s) && tid !in s.tasks
    ensures k in s.sh.flows ==> s.sh.flows[k].log.winner != Some(tid)
  {
  }

  /** An action consumes flows in its own name only. */
  lemma WinnersAfter(s: System, after: System, tid: Tid)
    requires FlowsOk(s.sh) && WinnersOk(s) && FlowsGuarantee(s.sh, after.sh, tid) && tid in after.tasks && s.tasks.Keys <= after.tasks.Keys
    requires NewUnconsumed(s.sh, after.sh)
    ensures WinnersOk(after)
  {
    forall k | k in after.sh.flows && after.sh.flows[k].log.winner.Some? ensures after.sh.flows[k].log.winner.value in after.tasks {
      if k in s.sh.flows { WinnerStays(s.sh.flows[k], after.sh.flows[k], tid, after.sh.closed); }
    }
  }

  lemma WinnerStays(f: Flow, g: Flow, tid: Tid, shut: bool)
    requires FlowGuarantee(f, g, tid, shut) && (f.consumed <==> f.log.winner.Some?)
    ensures g.log.winner == f.log.winner || g.log.winner == Some(tid)
  {
  }

  /** A flow enters the slot unconsumed. */
  predicate NewUnconsumed(sh: Shared, after: Shared) {
    forall k :: k in after.flows && k !in sh.flows ==> after.flows[k].log.winner == None
  }

  lemma SameKeys(sh: Shared, after: Shared)
    requires after.flows.Keys == sh.flows.Keys
    ensures NewUnconsumed(sh, after)
  {
  }

  lemma ReleaseKeys(sh: Shared, t: Task)
    requires t.fid in sh.flows && sh.flows[t.fid].id == t.fid && ReleaseStep(sh, t).Move?
    ensures NewUnconsumed(sh, ReleaseStep(sh, t).sh)
  {
    hide AfterRelease, NewUnconsumed;
    SameKeys(sh, ReleaseStep(sh, t).sh);
  }

  lemma FlowKeys(sh: Shared, tid: Tid, t: Task, env: Env)
    requires SharedOk(sh) && TaskOk(sh, tid, t) && FlowPc(t.pc) && Next(sh, tid, t, env).Move?
    ensures NewUnconsumed(sh, Next(sh, tid, t, env).sh)
  {
    FlowIn(sh, t.fid);
    OnFlowOk(sh.flows[t.fid], sh.closed, tid, t.kind, t.pc, env);
    hide SharedOk, TaskOk, OnFlow, RecordOk, PcOk, FlowGuarantee, NewUnconsumed;
    GuaranteeFacts(sh.flows[t.fid], OnFlow(sh.flows[t.fid], sh.closed, tid, t.kind, t.pc, env).f, tid, sh.closed);
    SameKeys(sh, Next(sh, tid, t, env).sh);
  }

  lemma StartKeys(sh: Shared, t: Task)
    requires t.kind.Start? && Fresh(t.kind.flow) && StartStep(sh, t).Move?
    ensures NewUnconsumed(sh, StartStep(sh, t).sh)
  {
    hide CleanReleased;
  }

  lemma TaskRecord(sh: Shared, tid: Tid, t: Task)
    requires SharedOk(sh) && TaskOk(sh, tid, t)
    ensures t.fid in sh.flows ==> sh.flows[t.fid].id == t.fid
    ensures t.kind.Start? ==> Fresh(t.kind.flow)
  {
    if t.fid in sh.flows { FlowIn(sh, t.fid); }
    hide RecordOk, PcOk, PlaceOk, NeedsFlow;
  }

  lemma NewFlows(sh: Shared, tid: Tid, t: Task, env: Env)
    requires SharedOk(sh) && TaskOk(sh, tid, t) && Next(sh, tid, t, env).Move?
    ensures NewUnconsumed(sh, Next(sh, tid, t, env).sh)
  {
    TaskRecord(sh, tid, t);
    hide SharedOk, TaskOk, StartStep, ReleaseStep, OnFlow, NewUnconsumed, Fresh, EnterStep, FindStep, ShutdownStep;
    if FlowPc(t.pc) { FlowKeys(sh, tid, t, env); }
    else if ReleasePc(t.pc) { ReleaseKeys(sh, t); }
    else if StartPc(t.pc) { StartKeys(sh, t); }
    else { RestKeys(sh, tid, t, env); }
  }

  lemma RestKeys(sh: Shared, tid: Tid, t: Task, env: Env)
    requires !FlowPc(t.pc) && !ReleasePc(t.pc) && !StartPc(t.pc) && Next(sh, tid, t, env).Move?
    ensures NewUnconsumed(sh, Next(sh, tid, t, env).sh)
  {
    hide OnFlow, ReleaseStep, StartStep, NewUnconsumed;
    SameKeys(sh, Next(sh, tid, t, env).sh);
  }

  lemma WinnersKept(s: System, m: Action)
    requires Inv(s) && Apply(s, m).Some?
    ensures WinnersOk(Apply(s, m).value)
  {
    hide SharedOk, TaskOk, Next, CanSpawn, WinnersOk, FlowsGuarantee, NewUnconsumed;
    var after := Apply(s, m).value;
    SharedFlows(s.sh);
    match m
    case Spawn(tid, task) => MoreTasks(s, after);
    case Act(tid, env) =>
      ActionKeeps(s.sh, tid, s.tasks[tid], env);
      NewFlows(s.sh, tid, s.tasks[tid], env);
      WinnersAfter(s, after, tid);
    case ServerDown(fid) => DownWinners(s, fid);
  }

  lemma MoreTasks(s: System, after: System)
    requires WinnersOk(s) && after.sh == s.sh && s.tasks.Keys <= after.tasks.Keys
    ensures WinnersOk(after)
  {
  }

  lemma DownWinners(s: System, fid: string)
    requires WinnersOk(s) && FlowsOk(s.sh) && fid in s.sh.flows
    ensures WinnersOk(s.(sh := Put(s.sh, s.sh.flows[fid].(listenerBound := false))))
  {
    FlowIn(s.sh, fid);
    hide FlowsOk, RecordOk;
  }

  /** One move of the whole system keeps the invariant. */
  lemma MoveKeeps(s: System, m: Action)
    requires Inv(s) && Apply(s, m).Some?
    ensures Inv(Apply(s, m).value)
  {
    hide SharedOk, TaskOk, Next, Guarantee, CanSpawn, WinnersOk;
    var after := Apply(s, m).value;
    WinnersKept(s, m);
    match m
    case Spawn(tid, task) => NotYetWinner(s, tid, task.fid); SpawnOk(s.sh, tid, task);
    case Act(tid, env) =>
      ActionKeeps(s.sh, tid, s.tasks[tid], env);
      forall other | other in s.tasks && other != tid ensures TaskOk(after.sh, other, s.tasks[other]) {
        assert FlowsOk(s.sh) by { SharedFlows(s.sh); }
        Stable(s.sh, after.sh, tid, other, s.tasks[other]);
      }
    case ServerDown(fid) =>
      forall tid | tid in s.tasks ensures TaskOk(after.sh, tid, s.tasks[tid]) {
        ServerDownOk(s.sh, fid, tid + 1);
        assert FlowsOk(s.sh) by { SharedFlows(s.sh); }
        Stable(s.sh, after.sh, tid + 1, tid, s.tasks[tid]);
      }
      ServerDownOk(s.sh, fid, 0);
  }

  lemma SharedFlows(sh: Shared)
    requires SharedOk(sh)
    ensures FlowsOk(sh)
  {
  }

  /** Every state of every run satisfies the invariant. */
  lemma {:induction false} RunKeeps(s: System, moves: seq<Action>)
    requires Inv(s)
    ensures Inv(Run(s, moves))
    decreases |moves|
  {
    hide Inv, Apply;
    if moves != [] {
      var next := Apply(s, moves[0]);
      if next.Some? { MoveKeeps(s, moves[0]); }
      RunKeeps(if next.Some? then next.value else s, moves[1..]);
    }
  }

  lemma InitialOk()
    ensures Inv(INITIAL)
  {
  }
}
