/** The flow coordinator as a state machine whose steps are the program's atomic actions: one atomic
    load, one compare-and-swap, one channel close, or one critical section that no other activity
    can observe half done (internal/oauth/coordinator.go, status.go, flow.go). */
module FlowCoordinator {
  import opened Wrappers
  import opened OAuthFlow

  /** What all activities share. Flow pointers are named by their id. */
  datatype Shared = Shared(
    closed: bool,
    slot: Option<string>,        // Coordinator.flowPtr
    starter: Option<Tid>,        // holder of Coordinator.startMu
    flows: map<string, Flow>,    // every flow ever put in the slot
    released: set<string>,       // keys of Coordinator.releasedFlows
    latest: Option<string>,      // Coordinator.latestReleasedFlowID
    started: seq<string>,        // history: ids in the order they entered the slot
    lost: set<string>)           // history: flows their own start's cleanup removed

  const EMPTY := Shared(false, None, None, map[], {}, None, [], {})

  datatype Kind =
    | Consume(rail: Rail, state: string)
    | ProviderCancel(rail: Rail, providerError: string)
    | AdminCancel(wait: bool)
    | LoserWait
    | Reaper
    | DevicePoll
    | Start(flow: Flow)
    | Shutdown
    | Poll

  datatype Result =
    | Completed(account: int)
    | Failed(error: TerminalError)
    | CancelledFlow
    | FlowNotFound
    | FlowExpired
    | StateMismatch
    | CannotCancel
    | AlreadyConsumed
    | WinnerNotPublished              // the internal error of readWinnerRail
    | Woken(status: FlowStatus)
    | GaveUp
    | InProgress(id: string)
    | CoordinatorClosed
    | Started
    | PollAgain
    | Skipped
    | Delivered(snapshot: Snapshot)
    | InvalidSnapshot
    | IdlePoll(seen: Option<string>)  // seen: the flow that was newest when the poll began
    | ShutDown

  datatype Pc =
    | Enter
    | FindClosed | FindSlot | FindReleased(begun: bool)
    | CheckConsumed | Classify | RejectRead(again: bool) | RejectStatus | CheckOpen
    | LockFlow | CasUnderLock | LostUnlock | PublishRail
    | CasPlain | ExchangeCode | DeviceFinish | InsertAccount
    | SetError(error: TerminalError) | SetSuccess(account: int) | Signal(result: Result)
    | ReleaseLoad(result: Result) | ReleaseClosed(result: Result)
    | ReleaseStore(result: Result) | ReleaseCas(result: Result) | UnlockFlow(result: Result)
    | WaitStatus | WaitSignal | WaitRead
    | DeviceOpen | DeviceReply | DeviceFailed(error: TerminalError) | DeviceFailCas(error: TerminalError)
    | PollStatus(seen: Option<string>) | PollMark(seen: Option<string>) | PollPending
    | PollLatest(seen: Option<string>)
    | StartSlot | StartCas | StartCleanup
    | ShutdownLoad | ShutdownClear
    | Done(result: Result)

  /** want: the id a caller asked for; fid: the flow the activity holds a pointer to. */
  datatype Task = Task(kind: Kind, want: string, fid: string, pc: Pc)

  /** What the environment decides in a step: the clock, and the answer of provider or store. */
  datatype Reply = Yes(account: int) | No(error: TerminalError) | NotYet
  datatype Env = Env(now: int, reply: Reply)

  /** One action on a single flow record. Blocked: the record's lock is held by another activity,
      or the action is not the next one. */
  datatype FlowStep = Blocked | Moved(f: Flow, pc: Pc)

  /** One action on the shared state. */
  datatype Step = Stuck | Move(sh: Shared, task: Task)

  predicate IsRail(k: Kind) { k.Consume? || k.ProviderCancel? }

  function Put(sh: Shared, f: Flow): Shared { sh.(flows := sh.flows[f.id := f]) }

  function Go(sh: Shared, t: Task, pc: Pc): Step { Move(sh, t.(pc := pc)) }

  /** ConsumeCode completes, signals and releases while it still holds the flow's write lock. */
  predicate HoldsLock(k: Kind, r: Result) { k.Consume? && r.Completed? }

  function AfterRelease(k: Kind, r: Result): Pc {
    if k.Shutdown? then ShutdownClear
    else if HoldsLock(k, r) then UnlockFlow(r)
    else Done(r)
  }

  // ---------------------------------------------------------------- a rail, up to the decision

  /** ConsumeCode and cancelFromRail from the found flow to the published winner. */
  function RailStep(f: Flow, tid: Tid, k: Kind, pc: Pc, env: Env): FlowStep {
    match pc
    case CheckConsumed =>
      if !f.consumed then Moved(f, CheckOpen)
      else if k.Consume? && k.state != f.state then Moved(f, Done(StateMismatch))
      else Moved(f, Classify)
    case Classify =>
      if f.writer.Some? then Blocked
      else if f.consumedBy != RailUnknown || f.status == Success || env.now <= f.expiresAt
      then Moved(f, RejectRead(false))
      else Moved(f, Done(FlowExpired))
    case RejectRead(again) =>
      if f.writer.Some? then Blocked
      else if f.consumedBy != RailUnknown then Moved(f, Done(AlreadyConsumed))
      else if again then Moved(f, RejectStatus)
      else Moved(f, RejectRead(true))
    case RejectStatus =>
      if f.writer.Some? then Blocked
      else if f.status == Error then Moved(f, Done(AlreadyConsumed))
      else Moved(f, Done(WinnerNotPublished))
    case CheckOpen =>
      if env.now > f.expiresAt then Moved(f, Done(FlowExpired))
      else if k.Consume? && k.state != f.state then Moved(f, Done(StateMismatch))
      else Moved(f, LockFlow)
    case LockFlow =>
      if f.writer.Some? then Blocked else Moved(f.(writer := Some(tid)), CasUnderLock)
    case CasUnderLock =>
      if f.consumed then Moved(f, LostUnlock) else Moved(Won(f, tid, true), PublishRail)
    case LostUnlock => Moved(f.(writer := None), RejectRead(false))
    case PublishRail =>
      if !IsRail(k) then Blocked
      else if f.consumedBy != RailUnknown then
        Moved(f.(writer := None), SetError(TerminalError("oauth_internal_error", "already published")))
      else if k.Consume? then
        Moved(f.(writer := None, consumedBy := k.rail), ExchangeCode)
      else
        Moved(f.(writer := None, consumedBy := k.rail, status := Error, error := Some(AccessDenied())),
              Signal(CancelledFlow))
    case _ => Blocked
  }

  /** The compare-and-swap on Flow.Consumed, together with who performed it. */
  function Won(f: Flow, tid: Tid, byRail: bool): Flow {
    f.(consumed := true, log := f.log.(winner := Some(tid), byRail := byRail))
  }

  // ---------------------------------------------------------------- the winner, up to the result

  /** From the plain compare-and-swap, or the code exchange, to the closed terminal channel. */
  function WinStep(f: Flow, shut: bool, tid: Tid, k: Kind, pc: Pc, env: Env): FlowStep {
    match pc
    case CasPlain =>
      if f.consumed then
        Moved(f, if k == AdminCancel(true) then WaitStatus else Done(Skipped))
      else
        (match k
         case AdminCancel(_) => Moved(Won(f, tid, false), SetError(Cancelled()))
         case Reaper => Moved(Won(f, tid, false), SetError(Expired(f.meth)))
         case DevicePoll => Moved(Won(f, tid, false), DeviceFinish)
         case _ => Blocked)
    case ExchangeCode =>
      var called := f.(log := f.log.(exchanges := f.log.exchanges + 1));
      (match env.reply
       case Yes(_) => Moved(called, InsertAccount)
       case No(e) => Moved(called, SetError(e))
       case NotYet => Blocked)
    case DeviceFinish => Moved(f, if shut then ReleaseLoad(Skipped) else InsertAccount)
    case InsertAccount =>
      (match env.reply
       case Yes(a) => Moved(f.(log := f.log.(inserted := f.log.inserted + [a])), SetSuccess(a))
       case No(e) => Moved(f, SetError(e))
       case NotYet => Blocked)
    case SetError(e) =>
      if f.writer.Some? then Blocked
      else Moved(f.(status := Error, error := Some(e)),
                 Signal(if k.AdminCancel? then CancelledFlow else Failed(e)))
    case SetSuccess(a) =>
      if f.writer.Some? then Blocked
      else
        var lock := if HoldsLock(k, Completed(a)) then Some(tid) else None;
        Moved(f.(status := Success, account := Some(a), writer := lock), Signal(Completed(a)))
    case Signal(r) => Moved(f.(terminalClosed := true), ReleaseLoad(r))
    case _ => Blocked
  }

  /** Where a flow's error comes from after a device poll fails (finishDeviceFailure). */
  function DeviceError(e: TerminalError): TerminalError {
    if e.code == "access_denied" then AccessDenied()
    else if e.code == "expired_token" then Expired(Device)
    else e
  }

  /** The callback of a scheduled device poll. */
  function DeviceStep(f: Flow, shut: bool, tid: Tid, pc: Pc, env: Env): FlowStep {
    match pc
    case DeviceOpen =>
      Moved(f, if f.consumed || env.now >= f.expiresAt then Done(Skipped) else DeviceReply)
    case DeviceReply =>
      (match env.reply
       case Yes(_) => Moved(f, CasPlain)
       case No(e) => Moved(f, DeviceFailed(e))
       case NotYet => Moved(f, Done(PollAgain)))
    case DeviceFailed(e) => Moved(f, if shut then ReleaseLoad(Failed(e)) else DeviceFailCas(e))
    case DeviceFailCas(e) =>
      if f.consumed then Moved(f, Done(Failed(e)))
      else Moved(Won(f, tid, false), SetError(DeviceError(e)))
    case _ => Blocked
  }

  // ---------------------------------------------------------------- waiting and polling

  /** waitForTerminalStatus. A reply No stands for the end of the caller's context. */
  function WaitStep(f: Flow, pc: Pc, env: Env): FlowStep {
    match pc
    case WaitStatus =>
      if f.writer.Some? then Blocked
      else Moved(f, if Terminal(f.status) then Done(Woken(f.status)) else WaitSignal)
    case WaitSignal =>
      if f.terminalClosed then Moved(f, WaitRead)
      else if env.reply.No? then Moved(f, Done(GaveUp))
      else Blocked
    case WaitRead => if f.writer.Some? then Blocked else Moved(f, Done(Woken(f.status)))
    case _ => Blocked
  }

  function Deliver(f: Flow): Result {
    if Complaint(SnapshotOf(f)).None? then Delivered(SnapshotOf(f)) else InvalidSnapshot
  }

  /** snapshotCurrentFlow reads the status, unlocks, and locks again; PollMark is
      snapshotTerminalFlowForPoll, PollPending is the branch taken after a pending status. */
  function PollFlowStep(f: Flow, pc: Pc): FlowStep {
    if f.writer.Some? then Blocked else
    match pc
    case PollStatus(seen) => Moved(f, if Terminal(f.status) then PollMark(seen) else PollPending)
    case PollMark(seen) =>
      if !Terminal(f.status) then Moved(f, Done(Deliver(f)))
      else if f.reported then Moved(f, Done(IdlePoll(seen)))
      else if Deliver(f).InvalidSnapshot? then Moved(f, Done(InvalidSnapshot))
      else Moved(f.(reported := true, log := f.log.(marked := f.log.marked + 1)), Done(Deliver(f)))
    case PollPending =>
      if Terminal(f.status) && Deliver(f).Delivered?
      then Moved(f.(log := f.log.(raced := f.log.raced + 1)), Done(Deliver(f)))
      else Moved(f, Done(Deliver(f)))
    case _ => Blocked
  }

  // ---------------------------------------------------------------- entering and finding a flow

  function EnterStep(sh: Shared, tid: Tid, t: Task): Step {
    match t.kind
    case Consume(_, _) => Go(sh, t, if sh.closed then Done(FlowNotFound) else FindClosed)
    case ProviderCancel(_, providerError) =>
      Go(sh, t, if providerError != "access_denied" then Done(CannotCancel) else FindClosed)
    case AdminCancel(_) =>
      if sh.slot != Some(t.want) then Go(sh, t, Done(FlowNotFound))
      else Move(sh, t.(fid := t.want, pc := CasPlain))
    case LoserWait => Go(sh, t, WaitStatus)
    case Reaper => Go(sh, t, if sh.closed then Done(Skipped) else CasPlain)
    case DevicePoll => Go(sh, t, if sh.closed then Done(Skipped) else DeviceOpen)
    case Start(_) =>
      if sh.starter.Some? then Stuck
      else if sh.closed then Go(sh, t, Done(CoordinatorClosed))
      else Go(sh.(starter := Some(tid)), t, StartSlot)
    case Shutdown => Go(sh.(closed := true), t, ShutdownLoad)
    case Poll =>
      var seen := if sh.started == [] then None else Some(sh.started[|sh.started| - 1]);
      if sh.slot.Some? then Move(sh, t.(fid := sh.slot.value, pc := PollStatus(seen)))
      else Go(sh, t, PollLatest(seen))
  }

  /** lookupFlow: the closed flag, then the slot, then the released map. latestReleasedFlow. */
  function FindStep(sh: Shared, t: Task): Step {
    match t.pc
    case FindClosed => Go(sh, t, if sh.closed then Done(FlowNotFound) else FindSlot)
    case FindSlot =>
      if sh.slot == Some(t.want) then Move(sh, t.(fid := t.want, pc := CheckConsumed))
      else Go(sh, t, FindReleased(t.want in sh.flows))
    case FindReleased(_) =>
      if t.want in sh.released then Move(sh, t.(fid := t.want, pc := CheckConsumed))
      else Go(sh, t, Done(FlowNotFound))
    case PollLatest(seen) =>
      if sh.latest == None || sh.latest.value !in sh.released then Go(sh, t, Done(IdlePoll(seen)))
      else Move(sh, t.(fid := sh.latest.value, pc := PollMark(seen)))
    case _ => Stuck
  }

  // ---------------------------------------------------------------- ReleaseFlow

  function ReleaseStep(sh: Shared, t: Task): Step
    requires t.fid in sh.flows
  {
    var f := sh.flows[t.fid];
    match t.pc
    case ReleaseLoad(r) =>
      Go(sh, t, if sh.slot != Some(t.fid) then AfterRelease(t.kind, r) else ReleaseClosed(r))
    case ReleaseClosed(r) => Go(sh, t, if sh.closed then ReleaseCas(r) else ReleaseStore(r))
    case ReleaseStore(r) =>
      Go(Put(sh.(released := sh.released + {t.fid}, latest := Some(t.fid)),
             f.(log := f.log.(stored := true))), t, ReleaseCas(r))
    case ReleaseCas(r) =>
      if sh.slot != Some(t.fid) then Go(sh, t, AfterRelease(t.kind, r))
      else Go(Put(sh.(slot := None), f.(log := f.log.(left := true))), t, AfterRelease(t.kind, r))
    case UnlockFlow(r) => Go(Put(sh, f.(writer := None)), t, Done(r))
    case _ => Stuck
  }

  // ---------------------------------------------------------------- start and shutdown

  /** cleanupReleasedFlowsOnStart: what the loop over the released map leaves. */
  function CleanReleased(sh: Shared): set<string> {
    set k | k in sh.released && k in sh.flows && sh.flows[k].listenerBound
  }

  function StartStep(sh: Shared, t: Task): Step
    requires t.kind.Start?
  {
    var f := t.kind.flow;
    match t.pc
    case StartSlot =>
      if sh.slot.Some? then Go(sh.(starter := None), t, Done(InProgress(sh.slot.value)))
      else Go(sh, t, StartCas)
    case StartCas =>
      if sh.slot.Some? then Go(sh.(starter := None), t, Done(InProgress(sh.slot.value)))
      else if f.id in sh.flows then Stuck  // ids carry 128 random bits and do not repeat
      else Move(Put(sh.(slot := Some(f.id), started := sh.started + [f.id]),
                    f.(log := f.log.(order := |sh.started|))),
                t.(fid := f.id, pc := StartCleanup))
    case StartCleanup =>
      var kept := CleanReleased(sh);
      var latest := if sh.latest.Some? && sh.latest.value in sh.released - kept then None else sh.latest;
      var lost := if t.fid in sh.released - kept then sh.lost + {t.fid} else sh.lost;
      Go(sh.(starter := None, released := kept, latest := latest, lost := lost), t, Done(Started))
    case _ => Stuck
  }

  function ShutdownStep(sh: Shared, t: Task): Step {
    match t.pc
    case ShutdownLoad =>
      if sh.slot == None then Go(sh, t, ShutdownClear)
      else Move(sh, t.(fid := sh.slot.value, pc := ReleaseLoad(ShutDown)))
    case ShutdownClear => Go(sh.(released := {}, latest := None), t, Done(ShutDown))
    case _ => Stuck
  }

  // ---------------------------------------------------------------- the whole system

  predicate RailPc(pc: Pc) {
    || pc.CheckConsumed? || pc.Classify? || pc.RejectRead? || pc.RejectStatus? || pc.CheckOpen?
    || pc.LockFlow? || pc.CasUnderLock? || pc.LostUnlock? || pc.PublishRail?
  }

  predicate WinPc(pc: Pc) {
    || pc.CasPlain? || pc.ExchangeCode? || pc.DeviceFinish? || pc.InsertAccount?
    || pc.SetError? || pc.SetSuccess? || pc.Signal?
  }

  predicate DevicePc(pc: Pc) {
    pc.DeviceOpen? || pc.DeviceReply? || pc.DeviceFailed? || pc.DeviceFailCas?
  }

  predicate WaitPc(pc: Pc) { pc.WaitStatus? || pc.WaitSignal? || pc.WaitRead? }

  predicate PollPc(pc: Pc) { pc.PollStatus? || pc.PollMark? || pc.PollPending? }

  predicate ReleasePc(pc: Pc) {
    pc.ReleaseLoad? || pc.ReleaseClosed? || pc.ReleaseStore? || pc.ReleaseCas? || pc.UnlockFlow?
  }

  predicate FindPc(pc: Pc) { pc.FindClosed? || pc.FindSlot? || pc.FindReleased? || pc.PollLatest? }

  predicate StartPc(pc: Pc) { pc.StartSlot? || pc.StartCas? || pc.StartCleanup? }

  /** The actions that touch one flow record and nothing else that is shared. */
  predicate FlowPc(pc: Pc) { RailPc(pc) || WinPc(pc) || DevicePc(pc) || WaitPc(pc) || PollPc(pc) }

  function OnFlow(f: Flow, shut: bool, tid: Tid, k: Kind, pc: Pc, env: Env): FlowStep {
    if RailPc(pc) then RailStep(f, tid, k, pc, env)
    else if WinPc(pc) then WinStep(f, shut, tid, k, pc, env)
    else if DevicePc(pc) then DeviceStep(f, shut, tid, pc, env)
    else if WaitPc(pc) then WaitStep(f, pc, env)
    else PollFlowStep(f, pc)
  }

  /** One atomic action of activity tid. */
  function Next(sh: Shared, tid: Tid, t: Task, env: Env): Step {
    if FlowPc(t.pc) then
      if t.fid !in sh.flows then Stuck
      else (match OnFlow(sh.flows[t.fid], sh.closed, tid, t.kind, t.pc, env)
            case Blocked => Stuck
            case Moved(f, pc) => Go(Put(sh, f), t, pc))
    else if ReleasePc(t.pc) then if t.fid in sh.flows then ReleaseStep(sh, t) else Stuck
    else if t.pc.Enter? then EnterStep(sh, tid, t)
    else if FindPc(t.pc) then FindStep(sh, t)
    else if StartPc(t.pc) then if t.kind.Start? then StartStep(sh, t) else Stuck
    else ShutdownStep(sh, t)
  }

  datatype System = System(sh: Shared, tasks: map<Tid, Task>)

  /** A new activity: requests carry any id; timers and waiters hold a pointer to a started flow. */
  predicate CanSpawn(sh: Shared, t: Task) {
    && t.pc == Enter
    && (IsRail(t.kind) ==> t.kind.rail != RailUnknown)
    && (t.kind.Start? ==> Fresh(t.kind.flow))
    && (t.kind.Reaper? || t.kind.LoserWait? ==> t.fid in sh.flows)
    && (t.kind.DevicePoll? ==> t.fid in sh.flows && sh.flows[t.fid].meth == Device)
  }

  datatype Action =
    | Spawn(tid: Tid, task: Task)
    | Act(tid: Tid, env: Env)
    | ServerDown(fid: string)  // the background listener shutdown that ReleaseFlow starts

  /** The state after a move, when the move is possible. */
  function Apply(s: System, m: Action): Option<System> {
    match m
    case Spawn(tid, task) =>
      if tid !in s.tasks && CanSpawn(s.sh, task) then Some(s.(tasks := s.tasks[tid := task])) else None
    case Act(tid, env) =>
      if tid !in s.tasks then None
      else (match Next(s.sh, tid, s.tasks[tid], env)
            case Stuck => None
            case Move(sh, task) => Some(System(sh, s.tasks[tid := task])))
    case ServerDown(fid) =>
      if fid in s.sh.flows && s.sh.flows[fid].log.left && s.sh.flows[fid].writer.None?
      then Some(s.(sh := Put(s.sh, s.sh.flows[fid].(listenerBound := false))))
      else None
  }

  /** The states a run passes through, one per move; a move that is not possible ends nothing. */
  function Run(s: System, moves: seq<Action>): System
    decreases |moves|
  {
    if moves == [] then s
    else
      var next := Apply(s, moves[0]);
      Run(if next.Some? then next.value else s, moves[1..])
  }

  const INITIAL := System(EMPTY, map[])
}
