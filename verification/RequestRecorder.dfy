/** The asynchronous request recorder: a bounded queue that can be closed, one worker, and a read-write
    lock between Record and Close (internal/core/request_recorder.go). */
module RequestRecorder {
  import opened Wrappers

  /** Names an activity; a call of Record is also the name of its record. */
  type Tid = nat

  const CAPACITY := 1024

  datatype Fate = Enqueued | InsertedSync | Dropped | Closed | TimedOut

  datatype Pc =
    // Record
    | ReadLock | CheckClosed | Select | Unlock(fate: Fate) | UnlockFull | InsertSync
    // Close
    | Once | WriteLock | SetClosed | CloseChannel | WriteUnlock | AwaitWorker
    | Done(fate: Fate)

  datatype Worker = Receiving | Inserting(rec: Tid) | Exited
  datatype OnceState = Unused | Running(owner: Tid) | Finished

  datatype Shared = Shared(
    queue: seq<Tid>,
    closed: bool,
    channelClosed: bool,
    readers: set<Tid>,
    writer: Option<Tid>,
    once: OnceState,
    worker: Worker,
    enqueued: seq<Tid>,     // history: every record sent, in order
    attempted: seq<Tid>,    // history: every insert the worker attempted
    inserted: seq<Tid>,     // history: every synchronous insert
    panicked: bool)         // a send on, or a second close of, a closed channel

  /** NewRequestRecorder and Start. */
  const STARTED := Shared([], false, false, {}, None, Unused, Receiving, [], [], [], false)

  datatype Step = Blocked | Move(sh: Shared, pc: Pc)

  /** expired: the caller's context has ended, and a select that could also go on takes that branch. */
  function Next(sh: Shared, tid: Tid, pc: Pc, expired: bool): Step {
    match pc
    case ReadLock => if sh.writer.Some? then Blocked else Move(sh.(readers := sh.readers + {tid}), CheckClosed)
    case CheckClosed => Move(sh, if sh.closed then Unlock(Dropped) else Select)
    case Select =>
      if sh.channelClosed then Move(sh.(panicked := true), Unlock(Dropped))
      else if |sh.queue| < CAPACITY then
        Move(sh.(queue := sh.queue + [tid], enqueued := sh.enqueued + [tid]), Unlock(Enqueued))
      else Move(sh, UnlockFull)
    case Unlock(fate) => Move(sh.(readers := sh.readers - {tid}), Done(fate))
    case UnlockFull => Move(sh.(readers := sh.readers - {tid}), InsertSync)
    case InsertSync => Move(sh.(inserted := sh.inserted + [tid]), Done(InsertedSync))
    case Once =>
      (match sh.once
       case Unused => Move(sh.(once := Running(tid)), WriteLock)
       case Running(_) => Blocked
       case Finished => Move(sh, AwaitWorker))
    case WriteLock =>
      if sh.writer.Some? || sh.readers != {} then Blocked else Move(sh.(writer := Some(tid)), SetClosed)
    case SetClosed => Move(sh.(closed := true), CloseChannel)
    case CloseChannel => Move(sh.(channelClosed := true, panicked := sh.panicked || sh.channelClosed), WriteUnlock)
    case WriteUnlock => Move(sh.(writer := None, once := Finished), AwaitWorker)
    case AwaitWorker =>
      if expired then Move(sh, Done(TimedOut))
      else if sh.worker.Exited? then Move(sh, Done(Closed))
      else Blocked
    case Done(_) => Blocked
  }

  /** One step of the worker; an insert that fails has been attempted. */
  function Work(sh: Shared): Shared {
    match sh.worker
    case Receiving =>
      if sh.queue != [] then sh.(worker := Inserting(sh.queue[0]), queue := sh.queue[1..])
      else if sh.channelClosed then sh.(worker := Exited)
      else sh
    case Inserting(rec) => sh.(worker := Receiving, attempted := sh.attempted + [rec])
    case Exited => sh
  }

  datatype System = System(sh: Shared, tasks: map<Tid, Pc>)

  datatype Action = CallRecord(tid: Tid) | CallClose(tid: Tid) | Act(tid: Tid, expired: bool) | WorkerStep

  function Apply(s: System, m: Action): System {
    match m
    case CallRecord(tid) => if tid in s.tasks then s else s.(tasks := s.tasks[tid := ReadLock])
    case CallClose(tid) => if tid in s.tasks then s else s.(tasks := s.tasks[tid := Once])
    case Act(tid, expired) =>
      if tid !in s.tasks then s
      else (match Next(s.sh, tid, s.tasks[tid], expired)
            case Blocked => s
            case Move(sh, pc) => System(sh, s.tasks[tid := pc]))
    case WorkerStep => s.(sh := Work(s.sh))
  }

  function Run(s: System, moves: seq<Action>): System
    decreases |moves|
  {
    if moves == [] then s else Run(Apply(s, moves[0]), moves[1..])
  }

  // ---------------------------------------------------------------- the invariant

  predicate Reading(pc: Pc) { pc.CheckClosed? || pc.Select? || pc.Unlock? || pc.UnlockFull? }
  predicate Writing(pc: Pc) { pc.SetClosed? || pc.CloseChannel? || pc.WriteUnlock? }
  predicate Sent(pc: Pc) { pc == Unlock(Enqueued) || pc == Done(Enqueued) }

  /** How often a record occurs. */
  function Copies(records: seq<Tid>, tid: Tid): nat { multiset(records)[tid] }

  lemma CopiesAppend(records: seq<Tid>, rec: Tid, tid: Tid)
    ensures Copies(records + [rec], tid) == Copies(records, tid) + if rec == tid then 1 else 0
  {
    assert multiset(records + [rec]) == multiset(records) + multiset{rec};
  }

  /** What the worker holds and what it still has to take. */
  function InFlight(worker: Worker, queue: seq<Tid>): seq<Tid> {
    (if worker.Inserting? then [worker.rec] else []) + queue
  }

  predicate SharedOk(sh: Shared) {
    && !sh.panicked && |sh.queue| <= CAPACITY
    && sh.enqueued == sh.attempted + InFlight(sh.worker, sh.queue)
    && (sh.channelClosed ==> sh.closed)
    && (sh.writer.Some? ==> sh.readers == {} && sh.once == Running(sh.writer.value))
    && (sh.closed && !sh.channelClosed ==> sh.writer.Some?)
    && (sh.closed ==> !sh.once.Unused?)
    && (sh.once.Finished? ==> sh.channelClosed)
    && (sh.worker.Exited? ==> sh.channelClosed && sh.queue == [])
  }

  predicate TaskOk(sh: Shared, tid: Tid, pc: Pc) {
    && (Reading(pc) <==> tid in sh.readers)
    && (Writing(pc) <==> sh.writer == Some(tid))
    && (pc.WriteLock? || Writing(pc) <==> sh.once == Running(tid))
    && (pc.Select? ==> !sh.closed)
    && (pc.WriteLock? || pc.SetClosed? ==> !sh.closed)
    && (pc.CloseChannel? ==> sh.closed && !sh.channelClosed)
    && (pc.WriteUnlock? ==> sh.channelClosed)
    && Copies(sh.enqueued, tid) == (if Sent(pc) then 1 else 0)
    && Copies(sh.inserted, tid) == (if pc == Done(InsertedSync) then 1 else 0)
    && (pc == Unlock(Dropped) || pc == Done(Dropped) ==> sh.closed)
    && (pc.Unlock? ==> pc.fate.Enqueued? || pc.fate.Dropped?)
    && (pc == Done(Closed) ==> sh.worker.Exited?)
  }

  /** Activities that do not exist hold nothing. */
  predicate Absent(sh: Shared, tid: Tid) {
    tid !in sh.readers && sh.writer != Some(tid) && sh.once != Running(tid) && Copies(sh.enqueued, tid) == 0 && Copies(sh.inserted, tid) == 0
  }

  ghost predicate Inv(s: System) {
    && SharedOk(s.sh)
    && forall tid :: if tid in s.tasks then TaskOk(s.sh, tid, s.tasks[tid]) else Absent(s.sh, tid)
  }

  /** How activity tid may change what the others rely on. */
  ghost predicate Later(a: Shared, b: Shared, tid: Tid) {
    && (b.readers == a.readers || b.readers == a.readers + {tid} || b.readers == a.readers - {tid})
    && (b.writer == a.writer || (a.writer == None && b.writer == Some(tid)) || (a.writer == Some(tid) && b.writer == None))
    && (b.once == a.once || (a.once.Unused? && b.once == Running(tid)) || (a.once == Running(tid) && b.once.Finished?))
    && (b.enqueued == a.enqueued || b.enqueued == a.enqueued + [tid])
    && (b.inserted == a.inserted || b.inserted == a.inserted + [tid])
    && (b.closed == a.closed || (b.closed && a.writer == Some(tid)))
    && (b.channelClosed == a.channelClosed || (b.channelClosed && a.writer == Some(tid)))
    && (a.worker.Exited? ==> b.worker.Exited?)
  }

  lemma Stable(a: Shared, b: Shared, tid: Tid, other: Tid, pc: Pc)
    requires SharedOk(a) && Later(a, b, tid) && tid != other
    ensures TaskOk(a, other, pc) ==> TaskOk(b, other, pc)
    ensures Absent(a, other) ==> Absent(b, other)
  {
    hide SharedOk, Copies;
    CopiesAppend(a.enqueued, tid, other);
    CopiesAppend(a.inserted, tid, other);
    WriterReads(a);
  }

  lemma WriterReads(sh: Shared)
    requires SharedOk(sh)
    ensures sh.writer.Some? ==> sh.readers == {} && sh.once == Running(sh.writer.value)
  {
  }

  ghost predicate StepOk(sh: Shared, tid: Tid, step: Step) {
    step.Move? ==> SharedOk(step.sh) && TaskOk(step.sh, tid, step.pc) && Later(sh, step.sh, tid)
  }

  lemma ReadLockOk(sh: Shared, tid: Tid, pc: Pc, expired: bool)
    requires SharedOk(sh) && TaskOk(sh, tid, pc) && (pc.ReadLock?)
    ensures StepOk(sh, tid, Next(sh, tid, pc, expired))
  {
    hide InFlight, Copies;
  }

  lemma CheckOk(sh: Shared, tid: Tid, pc: Pc, expired: bool)
    requires SharedOk(sh) && TaskOk(sh, tid, pc) && (pc.CheckClosed?)
    ensures StepOk(sh, tid, Next(sh, tid, pc, expired))
  {
    hide InFlight, Copies;
  }

  lemma UnlockOk(sh: Shared, tid: Tid, pc: Pc, expired: bool)
    requires SharedOk(sh) && TaskOk(sh, tid, pc) && (pc.Unlock? || pc.UnlockFull?)
    ensures StepOk(sh, tid, Next(sh, tid, pc, expired))
  {
    hide InFlight, Copies;
  }

  lemma SelectOk(sh: Shared, tid: Tid, pc: Pc, expired: bool)
    requires SharedOk(sh) && TaskOk(sh, tid, pc) && (pc.Select?)
    ensures StepOk(sh, tid, Next(sh, tid, pc, expired))
  {
    hide InFlight, Copies;
    var after := sh.(queue := sh.queue + [tid], enqueued := sh.enqueued + [tid]);
    SentInFlight(sh, after, tid);
    CopiesAppend(sh.enqueued, tid, tid);
  }

  lemma SentInFlight(sh: Shared, after: Shared, tid: Tid)
    requires after == sh.(queue := sh.queue + [tid], enqueued := sh.enqueued + [tid])
    requires sh.enqueued == sh.attempted + InFlight(sh.worker, sh.queue)
    ensures after.enqueued == after.attempted + InFlight(after.worker, after.queue)
  {
    assert InFlight(after.worker, after.queue) == InFlight(sh.worker, sh.queue) + [tid];
  }

  lemma InsertOk(sh: Shared, tid: Tid, pc: Pc, expired: bool)
    requires SharedOk(sh) && TaskOk(sh, tid, pc) && (pc.InsertSync?)
    ensures StepOk(sh, tid, Next(sh, tid, pc, expired))
  {
    hide InFlight, Copies;
    CopiesAppend(sh.inserted, tid, tid);
  }

  lemma OnceOk(sh: Shared, tid: Tid, pc: Pc, expired: bool)
    requires SharedOk(sh) && TaskOk(sh, tid, pc) && (pc.Once?)
    ensures StepOk(sh, tid, Next(sh, tid, pc, expired))
  {
    hide InFlight, Copies;
  }

  lemma WriteLockOk(sh: Shared, tid: Tid, pc: Pc, expired: bool)
    requires SharedOk(sh) && TaskOk(sh, tid, pc) && (pc.WriteLock?)
    ensures StepOk(sh, tid, Next(sh, tid, pc, expired))
  {
    hide InFlight, Copies;
  }

  lemma SetClosedOk(sh: Shared, tid: Tid, pc: Pc, expired: bool)
    requires SharedOk(sh) && TaskOk(sh, tid, pc) && (pc.SetClosed?)
    ensures StepOk(sh, tid, Next(sh, tid, pc, expired))
  {
    hide InFlight, Copies;
  }

  lemma CloseChannelOk(sh: Shared, tid: Tid, pc: Pc, expired: bool)
    requires SharedOk(sh) && TaskOk(sh, tid, pc) && (pc.CloseChannel?)
    ensures StepOk(sh, tid, Next(sh, tid, pc, expired))
  {
    hide InFlight, Copies;
  }

  lemma WriteUnlockOk(sh: Shared, tid: Tid, pc: Pc, expired: bool)
    requires SharedOk(sh) && TaskOk(sh, tid, pc) && (pc.WriteUnlock?)
    ensures StepOk(sh, tid, Next(sh, tid, pc, expired))
  {
    hide InFlight, Copies;
  }

  lemma AwaitOk(sh: Shared, tid: Tid, pc: Pc, expired: bool)
    requires SharedOk(sh) && TaskOk(sh, tid, pc) && (pc.AwaitWorker? || pc.Done?)
    ensures StepOk(sh, tid, Next(sh, tid, pc, expired))
  {
    hide InFlight, Copies;
  }

  lemma ActionKeeps(sh: Shared, tid: Tid, pc: Pc, expired: bool)
    requires SharedOk(sh) && TaskOk(sh, tid, pc)
    ensures StepOk(sh, tid, Next(sh, tid, pc, expired))
  {
    hide SharedOk, TaskOk, StepOk, Next;
    if pc.ReadLock? { ReadLockOk(sh, tid, pc, expired); }
    else if pc.CheckClosed? { CheckOk(sh, tid, pc, expired); }
    else if pc.Select? { SelectOk(sh, tid, pc, expired); }
    else if pc.Unlock? || pc.UnlockFull? { UnlockOk(sh, tid, pc, expired); }
    else if pc.InsertSync? { InsertOk(sh, tid, pc, expired); }
    else if pc.Once? { OnceOk(sh, tid, pc, expired); }
    else if pc.WriteLock? { WriteLockOk(sh, tid, pc, expired); }
    else if pc.SetClosed? { SetClosedOk(sh, tid, pc, expired); }
    else if pc.CloseChannel? { CloseChannelOk(sh, tid, pc, expired); }
    else if pc.WriteUnlock? { WriteUnlockOk(sh, tid, pc, expired); }
    else { AwaitOk(sh, tid, pc, expired); }
  }

  lemma WorkOk(sh: Shared)
    requires SharedOk(sh)
    ensures SharedOk(Work(sh)) && SameForTasks(sh, Work(sh)) && sh.attempted <= Work(sh).attempted
  {
    WorkInFlight(sh);
    hide InFlight;
  }

  lemma WorkInFlight(sh: Shared)
    requires sh.enqueued == sh.attempted + InFlight(sh.worker, sh.queue)
    ensures Work(sh).enqueued == Work(sh).attempted + InFlight(Work(sh).worker, Work(sh).queue)
  {
    if sh.worker.Inserting? {
      assert sh.attempted + ([sh.worker.rec] + sh.queue) == sh.attempted + [sh.worker.rec] + sh.queue;
    } else if sh.worker.Receiving? && sh.queue != [] {
      assert sh.queue == [sh.queue[0]] + sh.queue[1..];
    }
  }

  /** The worker changes nothing that the others rely on. */
  predicate SameForTasks(a: Shared, b: Shared) {
    && b.readers == a.readers && b.writer == a.writer && b.once == a.once && b.closed == a.closed
    && b.channelClosed == a.channelClosed && b.enqueued == a.enqueued && b.inserted == a.inserted
    && (a.worker.Exited? ==> b.worker.Exited?)
  }

  lemma WorkStable(a: Shared, b: Shared, tid: Tid, pc: Pc)
    requires SameForTasks(a, b)
    ensures TaskOk(a, tid, pc) ==> TaskOk(b, tid, pc)
    ensures Absent(a, tid) ==> Absent(b, tid)
  {
    hide Copies;
  }

  lemma MoveKeeps(s: System, m: Action)
    requires Inv(s)
    ensures Inv(Apply(s, m))
  {
    hide SharedOk, Next, Work, Later;
    match m
    case CallRecord(tid) => if tid !in s.tasks { Begins(s.sh, tid); }
    case CallClose(tid) => if tid !in s.tasks { Begins(s.sh, tid); }
    case Act(tid, expired) =>
      hide TaskOk, Absent;
      if tid in s.tasks {
        ActionKeeps(s.sh, tid, s.tasks[tid], expired);
        var step := Next(s.sh, tid, s.tasks[tid], expired);
        if step.Move? {
          forall other | other != tid
            ensures if other in s.tasks then TaskOk(step.sh, other, s.tasks[other]) else Absent(step.sh, other)
          {
            Stable(s.sh, step.sh, tid, other, if other in s.tasks then s.tasks[other] else ReadLock);
          }
        }
      }
    case WorkerStep =>
      hide TaskOk, Absent, SameForTasks;
      WorkOk(s.sh);
      forall tid
        ensures if tid in s.tasks then TaskOk(Work(s.sh), tid, s.tasks[tid]) else Absent(Work(s.sh), tid)
      {
        WorkStable(s.sh, Work(s.sh), tid, if tid in s.tasks then s.tasks[tid] else ReadLock);
      }
  }

  lemma Begins(sh: Shared, tid: Tid)
    requires Absent(sh, tid)
    ensures TaskOk(sh, tid, ReadLock) && TaskOk(sh, tid, Once)
  {
  }

  lemma {:induction false} RunKeeps(s: System, moves: seq<Action>)
    requires Inv(s)
    ensures Inv(Run(s, moves))
    decreases |moves|
  {
    hide Inv, Apply;
    if moves != [] {
      MoveKeeps(s, moves[0]);
      RunKeeps(Apply(s, moves[0]), moves[1..]);
    }
  }

  // ---------------------------------------------------------------- theorems

  function Reached(moves: seq<Action>): System { Run(System(STARTED, map[]), moves) }

  lemma ReachedOk(moves: seq<Action>)
    ensures Inv(Reached(moves))
  {
    RunKeeps(System(STARTED, map[]), moves);
  }

  /** Over every interleaving of Record, the worker and Close: nothing is sent on the closed channel and
      it is closed once, the queue never exceeds its bound, and the records sent are, in order, those
      the worker has attempted, the one it holds, and the queue. */
  lemma QueueIsSafe(moves: seq<Action>)
    ensures var sh := Reached(moves).sh;
            && !sh.panicked && |sh.queue| <= CAPACITY
            && sh.enqueued == sh.attempted + InFlight(sh.worker, sh.queue)
  {
    hide Reached, TaskOk;
    ReachedOk(moves);
  }

  /** Each call of Record that has ended has exactly one fate: its record was sent once and never
      inserted synchronously, or inserted synchronously once and never sent, or dropped after Close
      had begun, and neither sent nor inserted. */
  lemma OneFate(moves: seq<Action>, tid: Tid)
    requires tid in Reached(moves).tasks && Reached(moves).tasks[tid].Done?
    ensures var sh, fate := Reached(moves).sh, Reached(moves).tasks[tid].fate;
            && (fate.Enqueued? <==> tid in sh.enqueued) && Copies(sh.enqueued, tid) <= 1
            && (fate.InsertedSync? <==> tid in sh.inserted) && Copies(sh.inserted, tid) <= 1
            && (fate.Dropped? ==> sh.closed)
  {
    hide Reached, SharedOk;
    ReachedOk(moves);
    var s := Reached(moves);
    assert TaskOk(s.sh, tid, s.tasks[tid]);
    assert tid in s.sh.enqueued <==> Copies(s.sh.enqueued, tid) > 0;
    assert tid in s.sh.inserted <==> Copies(s.sh.inserted, tid) > 0;
  }

  /** When Close has returned nil, every record that was ever sent has been attempted, and no record
      will be sent any more. */
  lemma ClosedMeansDrained(moves: seq<Action>, tid: Tid)
    requires tid in Reached(moves).tasks && Reached(moves).tasks[tid] == Done(Closed)
    ensures Reached(moves).sh.attempted == Reached(moves).sh.enqueued && Reached(moves).sh.channelClosed
  {
    hide Reached;
    ReachedOk(moves);
    assert TaskOk(Reached(moves).sh, tid, Done(Closed));
  }

  // ---------------------------------------------------------------- the recorder, one call at a time

  class Recorder {
    var queue: seq<Tid>
    var closed: bool
    var inserted: seq<Tid>  // rows inserted, or at least attempted, in order

    constructor ()
      ensures queue == [] && !closed && inserted == []
    {
      queue, closed, inserted := [], false, [];
    }

    method InsertBounded(rec: Tid)
      modifies `inserted
      ensures inserted == old(inserted) + [rec]
    {
      inserted := inserted + [rec];
    }

    /** Sends a record, inserts it at once when the queue is full, drops it when the recorder is closed. */
    method Record(rec: Tid) returns (fate: Fate)
      requires |queue| <= CAPACITY
      modifies `queue, `inserted
      ensures |queue| <= CAPACITY
      ensures fate == if closed then Dropped else if |old(queue)| < CAPACITY then Enqueued else InsertedSync
      ensures queue == if fate == Enqueued then old(queue) + [rec] else old(queue)
      ensures inserted == if fate == InsertedSync then old(inserted) + [rec] else old(inserted)
    {
      if closed { return Dropped; }
      if |queue| < CAPACITY {
        queue := queue + [rec];
        return Enqueued;
      }
      InsertBounded(rec);
      return InsertedSync;
    }

    /** The worker's loop over the channel: attempts what is queued, oldest first. */
    method Drain()
      modifies `queue, `inserted
      ensures queue == [] && inserted == old(inserted) + old(queue)
    {
      while queue != []
        invariant inserted + queue == old(inserted) + old(queue)
        decreases |queue|
      {
        var rec := queue[0];
        assert queue == [rec] + queue[1..];
        assert inserted + queue == (inserted + [rec]) + queue[1..];
        queue := queue[1..];
        InsertBounded(rec);
      }
    }

    /** Close with a worker that keeps up: every queued record has been attempted when it returns. */
    method Close()
      modifies this
      ensures closed && queue == [] && inserted == old(inserted) + old(queue)
    {
      closed := true;
      Drain();
    }
  }
}
