/** What every action on a single flow record keeps, whoever performs it. */
module FlowRecordSafety {
  import opened Wrappers
  import opened OAuthFlow
  import opened FlowCoordinator

  // ---------------------------------------------------------------- what an activity relies on

  /** Activity tid of kind k consumed the flow. */
  predicate Owns(f: Flow, tid: Tid, k: Kind) {
    f.log.winner == Some(tid) && f.log.byRail == IsRail(k)
  }

  /** The owner, after the winner's rail is published and before a result is written. */
  predicate Working(f: Flow, shut: bool, tid: Tid, k: Kind) {
    && Owns(f, tid, k) && !k.Shutdown? && f.status == Pending && (!shut ==> !f.log.stored)
    && (IsRail(k) ==> f.consumedBy != RailUnknown)
  }

  /** A rail that has won has also published its name. */
  predicate Published(f: Flow) { f.log.byRail ==> f.consumedBy != RailUnknown }

  /** A record in a system where Shutdown has (shut) or has not begun. */
  predicate RecordOk(f: Flow, shut: bool) {
    && FlowOk(f)
    && (!shut ==> (f.log.stored ==> f.terminalClosed) && (f.log.left ==> f.log.stored))
  }

  predicate FlowResultOk(f: Flow, tid: Tid, k: Kind, r: Result) {
    match r
    case Completed(a) => f.log.winner == Some(tid) && f.status == Success && f.log.inserted == [a]
    case AlreadyConsumed => f.consumed
    case WinnerNotPublished => f.consumed && !f.log.byRail
    case CancelledFlow =>
      f.log.winner == Some(tid) && f.status == Error && f.error == Some(if IsRail(k) then AccessDenied() else Cancelled())
    case Failed(e) =>
      && (k.DevicePoll? || f.log.winner == Some(tid))
      && (f.log.winner == Some(tid) ==> f.status == Error && f.error == Some(e) && (k.Reaper? ==> e == Expired(f.meth)))
    case _ => true
  }

  /** The answers an activity that releases a flow can end with. */
  predicate Settled(r: Result) {
    r.Completed? || r.Failed? || r.CancelledFlow? || r.Skipped? || r.ShutDown?
  }

  /** Inside ReleaseFlow: either after Shutdown, or the owner, whose result is published. */
  predicate Releasing(f: Flow, shut: bool, tid: Tid, k: Kind, r: Result) {
    && (HoldsLock(k, r) ==> f.writer == Some(tid) && f.log.winner == Some(tid))
    && (shut || (!k.Shutdown? && Owns(f, tid, k) && f.terminalClosed))
    && FlowResultOk(f, tid, k, r) && Settled(r)
  }

  /** What activity tid may rely on about the record it points to, at its next action pc. */
  predicate PcOk(f: Flow, shut: bool, tid: Tid, k: Kind, pc: Pc) {
    && (IsRail(k) ==> k.rail != RailUnknown)
    && (k.DevicePoll? ==> f.meth == Device)
    && match pc
       case CheckConsumed => IsRail(k)
       case CheckOpen => IsRail(k)
       case LockFlow => IsRail(k)
       case Classify => IsRail(k) && f.consumed
       case RejectRead(again) => IsRail(k) && f.consumed && (again ==> !f.log.byRail)
       case RejectStatus => IsRail(k) && f.consumed && !f.log.byRail
       case CasUnderLock => IsRail(k) && f.writer == Some(tid) && Published(f)
       case LostUnlock => IsRail(k) && f.consumed && f.writer == Some(tid) && Published(f)
       case PublishRail =>
         && IsRail(k) && Owns(f, tid, k) && f.status == Pending && (!shut ==> !f.log.stored)
         && f.writer == Some(tid) && f.consumedBy == RailUnknown
         && f.log.exchanges == 0 && f.log.inserted == []
       case CasPlain => !IsRail(k)
       case ExchangeCode =>
         k.Consume? && Working(f, shut, tid, k) && f.log.exchanges == 0 && f.log.inserted == []
       case DeviceFinish => k.DevicePoll? && Working(f, shut, tid, k) && f.log.inserted == []
       case InsertAccount =>
         && (k.Consume? || k.DevicePoll?) && Working(f, shut, tid, k) && f.log.inserted == []
         && (IsRail(k) ==> f.log.exchanges == 1)
       case SetError(e) =>
         && Working(f, shut, tid, k) && f.log.inserted == []
         && (k.AdminCancel? ==> e == Cancelled()) && (k.Reaper? ==> e == Expired(f.meth))
       case SetSuccess(a) =>
         && (k.Consume? || k.DevicePoll?) && Working(f, shut, tid, k) && f.log.inserted == [a]
         && (IsRail(k) ==> f.log.exchanges == 1)
       case Signal(r) =>
         && Owns(f, tid, k) && Terminal(f.status) && (!shut ==> !f.log.stored) && !k.Shutdown?
         && (HoldsLock(k, r) ==> f.writer == Some(tid))
         && FlowResultOk(f, tid, k, r) && Settled(r)
       case ReleaseLoad(r) => Releasing(f, shut, tid, k, r) && (!shut ==> !f.log.stored)
       case ReleaseClosed(r) => Releasing(f, shut, tid, k, r) && (!shut ==> !f.log.stored && !f.log.left)
       case ReleaseStore(r) => Releasing(f, shut, tid, k, r) && (!shut ==> !f.log.stored && !f.log.left)
       case ReleaseCas(r) => Releasing(f, shut, tid, k, r) && (!shut ==> f.log.stored)
       case UnlockFlow(r) =>
         HoldsLock(k, r) && f.writer == Some(tid) && f.log.winner == Some(tid) && FlowResultOk(f, tid, k, r)
       case WaitRead => f.terminalClosed
       case Enter => f.log.winner != Some(tid)
       case DeviceOpen => k.DevicePoll? && f.log.winner != Some(tid)
       case DeviceReply => k.DevicePoll? && f.log.winner != Some(tid)
       case DeviceFailed(_) => k.DevicePoll? && f.log.winner != Some(tid)
       case DeviceFailCas(_) => k.DevicePoll? && f.log.winner != Some(tid)
       case Done(r) => FlowResultOk(f, tid, k, r)
       case _ => true
  }

  // ---------------------------------------------------------------- what an activity may change

  /** How activity tid may change a flow record from a to b; shut: Shutdown has begun. */
  predicate FlowGuarantee(a: Flow, b: Flow, tid: Tid, shut: bool) {
    && b.id == a.id && b.meth == a.meth && b.state == a.state && b.expiresAt == a.expiresAt && b.log.order == a.log.order
    && (a.consumed ==> b.consumed && b.log.winner == a.log.winner && b.log.byRail == a.log.byRail)
    && (!a.consumed && b.consumed ==> b.log.winner == Some(tid) && (b.log.byRail ==> a.writer == Some(tid)))
    && (!a.consumed && !b.consumed ==> b.log.winner == a.log.winner && b.log.byRail == a.log.byRail)
    && (b.log.winner != Some(tid) ==>
          && b.consumedBy == a.consumedBy && b.status == a.status && b.account == a.account
          && b.error == a.error && b.terminalClosed == a.terminalClosed
          && b.log.exchanges == a.log.exchanges && b.log.inserted == a.log.inserted
          && (shut || (b.log.stored == a.log.stored && b.log.left == a.log.left)))
    && (Terminal(a.status) ==> b.status == a.status && b.account == a.account && b.error == a.error
                               && b.log.inserted == a.log.inserted && b.log.exchanges == a.log.exchanges)
    && (a.consumedBy != RailUnknown ==> b.consumedBy == a.consumedBy)
    && (a.terminalClosed ==> b.terminalClosed) && (a.reported ==> b.reported)
    && a.log.marked <= b.log.marked && a.log.raced <= b.log.raced
    && a.log.exchanges <= b.log.exchanges && a.log.inserted <= b.log.inserted
    && (a.log.stored ==> b.log.stored) && (a.log.left ==> b.log.left)
    && (a.writer == b.writer || ((a.writer == None || a.writer == Some(tid)) && (b.writer == None || b.writer == Some(tid))))
  }

  lemma ResultStable(f: Flow, g: Flow, before: bool, after: bool, tid: Tid, other: Tid, k: Kind, r: Result)
    requires RecordOk(f, before) && FlowGuarantee(f, g, tid, after) && tid != other
    requires FlowResultOk(f, other, k, r)
    ensures FlowResultOk(g, other, k, r)
  {
  }

  /** Another activity's step keeps what this one relies on. */
  lemma PcStable(f: Flow, g: Flow, before: bool, after: bool, tid: Tid, other: Tid, k: Kind, pc: Pc)
    requires RecordOk(f, before) && FlowGuarantee(f, g, tid, after) && tid != other && (before ==> after)
    requires PcOk(f, before, other, k, pc)
    ensures PcOk(g, after, other, k, pc)
  {
    hide FlowResultOk;
    if ReleasePc(pc) { ReleasePcStable(f, g, before, after, tid, other, k, pc); }
    else if pc.Signal? || pc.Done? { ResultPcStable(f, g, before, after, tid, other, k, pc); }
  }

  lemma ReleasePcStable(f: Flow, g: Flow, before: bool, after: bool, tid: Tid, other: Tid, k: Kind, pc: Pc)
    requires RecordOk(f, before) && FlowGuarantee(f, g, tid, after) && tid != other && (before ==> after)
    requires PcOk(f, before, other, k, pc) && (ReleasePc(pc))
    ensures PcOk(g, after, other, k, pc)
  {
    hide FlowResultOk;
    ResultStable(f, g, before, after, tid, other, k, pc.result);
  }

  lemma ResultPcStable(f: Flow, g: Flow, before: bool, after: bool, tid: Tid, other: Tid, k: Kind, pc: Pc)
    requires RecordOk(f, before) && FlowGuarantee(f, g, tid, after) && tid != other && (before ==> after)
    requires PcOk(f, before, other, k, pc) && (pc.Signal? || pc.Done?)
    ensures PcOk(g, after, other, k, pc)
  {
    hide FlowResultOk;
    ResultStable(f, g, before, after, tid, other, k, pc.result);
  }

  lemma Unchanged(f: Flow, tid: Tid, shut: bool)
    ensures FlowGuarantee(f, f, tid, shut)
  {
  }

  // ---------------------------------------------------------------- each action

  /** What every action on a record establishes: the record stays well formed, the others may go on
      relying on what they relied on, and the slot and the released map need not notice. */
  predicate ActionOk(f: Flow, shut: bool, tid: Tid, k: Kind, step: FlowStep) {
    step.Moved? ==>
      && RecordOk(step.f, shut) && FlowGuarantee(f, step.f, tid, shut)
      && PcOk(step.f, shut, tid, k, step.pc)
      && step.f.log.left == f.log.left && step.f.log.stored == f.log.stored
  }

  /** An action that only reads. */
  lemma ReadOk(f: Flow, shut: bool, tid: Tid, k: Kind, pc: Pc)
    requires RecordOk(f, shut) && PcOk(f, shut, tid, k, pc)
    ensures ActionOk(f, shut, tid, k, Moved(f, pc))
  {
    hide PcOk, FlowOk;
  }

  lemma CheckOk(f: Flow, shut: bool, tid: Tid, k: Kind, pc: Pc, env: Env)
    requires RecordOk(f, shut) && PcOk(f, shut, tid, k, pc) && (pc.CheckConsumed? || pc.CheckOpen? || pc.Classify?)
    ensures ActionOk(f, shut, tid, k, RailStep(f, tid, k, pc, env))
  {
    hide RecordOk, FlowGuarantee, Complaint;
    var step := RailStep(f, tid, k, pc, env);
    if step.Moved? { ReadOk(f, shut, tid, k, step.pc); }
  }

  lemma RejectOk(f: Flow, shut: bool, tid: Tid, k: Kind, pc: Pc, env: Env)
    requires RecordOk(f, shut) && PcOk(f, shut, tid, k, pc) && (pc.RejectRead? || pc.RejectStatus?)
    ensures ActionOk(f, shut, tid, k, RailStep(f, tid, k, pc, env))
  {
  }

  lemma LockOk(f: Flow, shut: bool, tid: Tid, k: Kind, pc: Pc, env: Env)
    requires RecordOk(f, shut) && PcOk(f, shut, tid, k, pc) && (pc.LockFlow? || pc.LostUnlock?)
    ensures ActionOk(f, shut, tid, k, RailStep(f, tid, k, pc, env))
  {
  }

  lemma CasOk(f: Flow, shut: bool, tid: Tid, k: Kind, pc: Pc, env: Env)
    requires RecordOk(f, shut) && PcOk(f, shut, tid, k, pc) && (pc.CasUnderLock?)
    ensures ActionOk(f, shut, tid, k, RailStep(f, tid, k, pc, env))
  {
  }

  lemma PublishOk(f: Flow, shut: bool, tid: Tid, k: Kind, pc: Pc, env: Env)
    requires RecordOk(f, shut) && PcOk(f, shut, tid, k, pc) && (pc.PublishRail?)
    ensures ActionOk(f, shut, tid, k, RailStep(f, tid, k, pc, env))
  {
  }

  lemma CasPlainOk(f: Flow, shut: bool, tid: Tid, k: Kind, pc: Pc, env: Env)
    requires RecordOk(f, shut) && PcOk(f, shut, tid, k, pc) && (pc.CasPlain?)
    ensures ActionOk(f, shut, tid, k, WinStep(f, shut, tid, k, pc, env))
  {
    hide Complaint, DeviceError, Expired, Cancelled, AccessDenied;
  }

  lemma ExchangeOk(f: Flow, shut: bool, tid: Tid, k: Kind, pc: Pc, env: Env)
    requires RecordOk(f, shut) && PcOk(f, shut, tid, k, pc) && (pc.ExchangeCode?)
    ensures ActionOk(f, shut, tid, k, WinStep(f, shut, tid, k, pc, env))
  {
    hide Complaint, FlowResultOk;
  }

  lemma FinishOk(f: Flow, shut: bool, tid: Tid, k: Kind, pc: Pc, env: Env)
    requires RecordOk(f, shut) && PcOk(f, shut, tid, k, pc) && (pc.DeviceFinish?)
    ensures ActionOk(f, shut, tid, k, WinStep(f, shut, tid, k, pc, env))
  {
    hide RecordOk, FlowGuarantee, Complaint;
    ReadOk(f, shut, tid, k, WinStep(f, shut, tid, k, pc, env).pc);
  }

  lemma InsertOk(f: Flow, shut: bool, tid: Tid, k: Kind, pc: Pc, env: Env)
    requires RecordOk(f, shut) && PcOk(f, shut, tid, k, pc) && (pc.InsertAccount?)
    ensures ActionOk(f, shut, tid, k, WinStep(f, shut, tid, k, pc, env))
  {
    hide Complaint, FlowResultOk;
  }

  lemma SetErrorOk(f: Flow, shut: bool, tid: Tid, k: Kind, pc: Pc, env: Env)
    requires RecordOk(f, shut) && PcOk(f, shut, tid, k, pc) && (pc.SetError?)
    ensures ActionOk(f, shut, tid, k, WinStep(f, shut, tid, k, pc, env))
  {
    hide Complaint, DeviceError, Expired, Cancelled, AccessDenied;
  }

  lemma SetSuccessOk(f: Flow, shut: bool, tid: Tid, k: Kind, pc: Pc, env: Env)
    requires RecordOk(f, shut) && PcOk(f, shut, tid, k, pc) && (pc.SetSuccess?)
    ensures ActionOk(f, shut, tid, k, WinStep(f, shut, tid, k, pc, env))
  {
  }

  lemma SignalOk(f: Flow, shut: bool, tid: Tid, k: Kind, pc: Pc, env: Env)
    requires RecordOk(f, shut) && PcOk(f, shut, tid, k, pc) && (pc.Signal?)
    ensures ActionOk(f, shut, tid, k, WinStep(f, shut, tid, k, pc, env))
  {
  }

  lemma DeviceOk(f: Flow, shut: bool, tid: Tid, k: Kind, pc: Pc, env: Env)
    requires RecordOk(f, shut) && PcOk(f, shut, tid, k, pc) && (pc.DeviceOpen? || pc.DeviceReply? || pc.DeviceFailed?)
    ensures ActionOk(f, shut, tid, k, DeviceStep(f, shut, tid, pc, env))
  {
    hide RecordOk, FlowGuarantee, Complaint;
    var step := DeviceStep(f, shut, tid, pc, env);
    if step.Moved? { ReadOk(f, shut, tid, k, step.pc); }
  }

  lemma DeviceCasOk(f: Flow, shut: bool, tid: Tid, k: Kind, pc: Pc, env: Env)
    requires RecordOk(f, shut) && PcOk(f, shut, tid, k, pc) && (pc.DeviceFailCas?)
    ensures ActionOk(f, shut, tid, k, DeviceStep(f, shut, tid, pc, env))
  {
  }

  lemma WaitOk(f: Flow, shut: bool, tid: Tid, k: Kind, pc: Pc, env: Env)
    requires RecordOk(f, shut) && PcOk(f, shut, tid, k, pc) && (WaitPc(pc))
    ensures ActionOk(f, shut, tid, k, WaitStep(f, pc, env))
  {
    hide RecordOk, FlowGuarantee, Complaint;
    var step := WaitStep(f, pc, env);
    if step.Moved? { ReadOk(f, shut, tid, k, step.pc); }
  }

  lemma PollReadOk(f: Flow, shut: bool, tid: Tid, k: Kind, pc: Pc, env: Env)
    requires RecordOk(f, shut) && PcOk(f, shut, tid, k, pc) && PollPc(pc)
    requires PollFlowStep(f, pc).Moved? && PollFlowStep(f, pc).f == f
    ensures ActionOk(f, shut, tid, k, PollFlowStep(f, pc))
  {
    hide RecordOk, FlowGuarantee, Complaint;
    ReadOk(f, shut, tid, k, PollFlowStep(f, pc).pc);
  }

  /** A poll writes nothing but the mark, and that only into a terminal flow that has none. */
  lemma PollMarks(f: Flow, pc: Pc)
    requires PollPc(pc) && PollFlowStep(f, pc).Moved?
    ensures var g := PollFlowStep(f, pc).f;
            && g.(reported := f.reported, log := f.log) == f
            && (g.reported != f.reported ==> Terminal(f.status) && !f.reported && pc.PollMark?)
            && (g.reported && !f.reported <==> g.log.marked == f.log.marked + 1)
  {
    hide Complaint;
  }

  lemma PollWriteOk(f: Flow, shut: bool, tid: Tid, k: Kind, pc: Pc, env: Env)
    requires RecordOk(f, shut) && PcOk(f, shut, tid, k, pc) && (pc.PollMark? || pc.PollPending?)
    requires PollFlowStep(f, pc).Moved? && PollFlowStep(f, pc).f != f
    ensures ActionOk(f, shut, tid, k, PollFlowStep(f, pc))
  {
    hide Complaint;
  }

  // ---------------------------------------------------------------- inside ReleaseFlow

  lemma AfterReleaseOk(f: Flow, shut: bool, tid: Tid, k: Kind, pc: Pc)
    requires ReleasePc(pc) && !pc.UnlockFlow? && PcOk(f, shut, tid, k, pc)
    ensures PcOk(f, shut, tid, k, AfterRelease(k, pc.result))
    ensures Settled(pc.result) && (k.Shutdown? ==> shut)
  {
    hide FlowResultOk;
  }

  lemma ReleaseTestOk(f: Flow, shut: bool, tid: Tid, k: Kind, pc: Pc)
    requires PcOk(f, shut, tid, k, pc) && (pc.ReleaseLoad? || pc.ReleaseClosed?)
    ensures pc.ReleaseLoad? && !f.log.left ==> PcOk(f, shut, tid, k, ReleaseClosed(pc.result))
    ensures pc.ReleaseClosed? && shut ==> PcOk(f, shut, tid, k, ReleaseCas(pc.result))
    ensures pc.ReleaseClosed? && !shut ==> PcOk(f, shut, tid, k, ReleaseStore(pc.result))
  {
    hide FlowResultOk, Owns;
  }

  lemma StoreOk(f: Flow, shut: bool, tid: Tid, k: Kind, r: Result)
    requires RecordOk(f, shut) && PcOk(f, shut, tid, k, ReleaseStore(r))
    ensures var g := f.(log := f.log.(stored := true));
            RecordOk(g, shut) && PcOk(g, shut, tid, k, ReleaseCas(r)) && FlowGuarantee(f, g, tid, shut)
    ensures !shut ==> !f.log.stored && !f.log.left
  {
    hide FlowOk, FlowResultOk;
    assert FlowOk(f.(log := f.log.(stored := true))) by { StoredFlowOk(f); }
    LogsAreNoResult(f, tid, k, r);
  }

  lemma LogsAreNoResult(f: Flow, tid: Tid, k: Kind, r: Result)
    ensures FlowResultOk(f.(log := f.log.(stored := true)), tid, k, r) == FlowResultOk(f, tid, k, r)
    ensures FlowResultOk(f.(log := f.log.(left := true)), tid, k, r) == FlowResultOk(f, tid, k, r)
  {
  }

  lemma StoredFlowOk(f: Flow)
    requires FlowOk(f)
    ensures FlowOk(f.(log := f.log.(stored := true))) && FlowOk(f.(log := f.log.(left := true)))
  {
  }

  lemma LeaveOk(f: Flow, shut: bool, tid: Tid, k: Kind, r: Result)
    requires RecordOk(f, shut) && PcOk(f, shut, tid, k, ReleaseCas(r))
    ensures var g := f.(log := f.log.(left := true));
            RecordOk(g, shut) && PcOk(g, shut, tid, k, AfterRelease(k, r)) && FlowGuarantee(f, g, tid, shut)
  {
    hide FlowOk, FlowResultOk;
    assert FlowOk(f.(log := f.log.(left := true))) by { StoredFlowOk(f); }
    LogsAreNoResult(f, tid, k, r);
  }

  lemma UnlockOk(f: Flow, shut: bool, tid: Tid, k: Kind, r: Result)
    requires RecordOk(f, shut) && PcOk(f, shut, tid, k, UnlockFlow(r))
    ensures var g := f.(writer := None);
            RecordOk(g, shut) && PcOk(g, shut, tid, k, Done(r)) && FlowGuarantee(f, g, tid, shut)
    ensures HoldsLock(k, r)
  {
  }
}
