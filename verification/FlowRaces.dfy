/** Runs that show where the coordinator does not meet the stronger promise: the exact conditions are
    in FlowTheorems (CleanupLoses, UnmarkedExactly, LoserAnswer). */
module FlowRaces {
  import opened Wrappers
  import opened OAuthFlow
  import opened FlowCoordinator
  import opened FlowInvariant
  import opened FlowTheorems

  const NOW := Env(1, NotYet)

  lemma {:induction false} RunAppend(s: System, moves: seq<Action>, m: Action)
    ensures Run(s, moves + [m]) ==
            (var r := Run(s, moves); if Apply(r, m).Some? then Apply(r, m).value else r)
    decreases |moves|
  {
    hide Apply;
    if moves == [] {
      assert moves + [m] == [m] && [m][1..] == [];
    } else {
      var next := Apply(s, moves[0]);
      assert (moves + [m])[1..] == moves[1..] + [m];
      RunAppend(if next.Some? then next.value else s, moves[1..], m);
    }
  }

  /** One more move of a run. */
  lemma Then(s: System, m: Action) returns (n: System)
    requires Reachable(s) && Apply(s, m).Some?
    ensures n == Apply(s, m).value && Reachable(n)
  {
    n := Apply(s, m).value;
    var moves :| s == Run(INITIAL, moves);
    RunAppend(INITIAL, moves, m);
  }

  /** One more action of activity tid, whose result is known. */
  lemma Do(s: System, tid: Tid, env: Env, step: Step) returns (n: System)
    requires Reachable(s) && tid in s.tasks && Next(s.sh, tid, s.tasks[tid], env) == step && step.Move?
    ensures n == System(step.sh, s.tasks[tid := step.task]) && Reachable(n)
  {
    hide Next, Reachable, Run;
    n := Then(s, Act(tid, env));
  }

  lemma Create(s: System, tid: Tid, t: Task) returns (n: System)
    requires Reachable(s) && tid !in s.tasks && CanSpawn(s.sh, t)
    ensures n == s.(tasks := s.tasks[tid := t]) && Reachable(n)
  {
    hide CanSpawn, Reachable, Run;
    n := Then(s, Spawn(tid, t));
  }

  /** A device flow named a. */
  const FLOW := Flow("a", Device, "", "code", "url", 1, 9, false, false, RailUnknown, Pending, None, None,
                     false, false, None, NO_LOG)

  lemma FlowIsFresh()
    ensures Fresh(FLOW) && FLOW.id == "a"
  {
  }

  lemma StartSteps(t: Task)
    requires t == Task(Start(FLOW), "", "", Enter)
    ensures CanSpawn(EMPTY, t)
    ensures Next(EMPTY, 0, t, NOW) == Move(EMPTY.(starter := Some(0)), t.(pc := StartSlot))
    ensures Next(EMPTY.(starter := Some(0)), 0, t.(pc := StartSlot), NOW)
            == Move(EMPTY.(starter := Some(0)), t.(pc := StartCas))
  {
    FlowIsFresh();
  }

  /** Activity 0 holds the start mutex and has found the slot empty. */
  lemma StartOpens() returns (s: System)
    ensures Reachable(s)
    ensures s.sh == EMPTY.(starter := Some(0))
    ensures s.tasks == map[0 := Task(Start(FLOW), "", "", StartCas)]
  {
    hide Reachable, Fresh, Run, Next, CanSpawn;
    s := INITIAL;
    assert Reachable(s) by { ReachableBy([]); assert Run(INITIAL, []) == INITIAL by { RunNothing(); } }
    var t := Task(Start(FLOW), "", "", Enter);
    StartSteps(t);
    s := Create(s, 0, t);
    s := Do(s, 0, NOW, Move(EMPTY.(starter := Some(0)), t.(pc := StartSlot)));
    s := Do(s, 0, NOW, Move(EMPTY.(starter := Some(0)), t.(pc := StartCas)));
  }

  lemma RunNothing()
    ensures Run(INITIAL, []) == INITIAL
  {
  }

  /** Activity 0 has put the flow in the slot and has not yet run the cleanup. */
  lemma BeforeCleanup() returns (s: System)
    ensures Reachable(s)
    ensures s.sh == Begun(EMPTY.(starter := Some(0)), FLOW)
    ensures s.tasks == map[0 := Task(Start(FLOW), "", "a", StartCleanup)]
  {
    hide Reachable, Fresh;
    s := StartOpens();
    FlowIsFresh();
    s := Do(s, 0, NOW, Move(Begun(s.sh, FLOW), s.tasks[0].(fid := "a", pc := StartCleanup)));
  }

  lemma ReachableBy(moves: seq<Action>)
    ensures Reachable(Run(INITIAL, moves))
  {
  }

  lemma CancelSteps(sh: Shared, t: Task)
    requires t == Task(AdminCancel(false), "a", "", Enter) && sh.slot == Some("a")
    requires "a" in sh.flows && !sh.flows["a"].consumed && sh.flows["a"].id == "a"
    ensures CanSpawn(sh, t)
    ensures Next(sh, 1, t, NOW) == Go(sh, t.(fid := "a"), CasPlain)
    ensures Next(sh, 1, t.(fid := "a", pc := CasPlain), NOW)
            == Go(Put(sh, Won(sh.flows["a"], 1, false)), t.(fid := "a"), SetError(Cancelled()))
  {
    hide Complaint;
  }

  /** Activity 1 wins the flow by an admin cancel. */
  lemma CancelWins(s0: System) returns (s: System)
    requires Reachable(s0) && 1 !in s0.tasks
    requires "a" in s0.sh.flows && s0.sh.flows["a"] == Begun(EMPTY, FLOW).flows["a"] && s0.sh.slot == Some("a")
    ensures Reachable(s)
    ensures s.sh == Put(s0.sh, Won(s0.sh.flows["a"], 1, false))
    ensures s.tasks == s0.tasks[1 := Task(AdminCancel(false), "a", "a", SetError(Cancelled()))]
  {
    hide Reachable, Run, Next, CanSpawn;
    var t := Task(AdminCancel(false), "a", "", Enter);
    CancelSteps(s0.sh, t);
    s := Create(s0, 1, t);
    s := Do(s, 1, NOW, Go(s.sh, t.(fid := "a"), CasPlain));
    var f := s.sh.flows["a"];
    s := Do(s, 1, NOW, Go(Put(s.sh, Won(f, 1, false)), t.(fid := "a"), SetError(Cancelled())));
  }

  /** Activity 1 writes the error. */
  lemma CancelEnds(s0: System) returns (s: System)
    requires Reachable(s0) && 1 in s0.tasks && s0.tasks[1] == Task(AdminCancel(false), "a", "a", SetError(Cancelled()))
    requires "a" in s0.sh.flows && s0.sh.flows["a"] == Won(Begun(EMPTY, FLOW).flows["a"], 1, false)
    ensures Reachable(s)
    ensures s.sh == Put(s0.sh, s0.sh.flows["a"].(status := Error, error := Some(Cancelled())))
    ensures s.tasks == s0.tasks[1 := s0.tasks[1].(pc := Signal(CancelledFlow))]
  {
    hide Reachable, Run;
    var f := s0.sh.flows["a"].(status := Error, error := Some(Cancelled()));
    s := Do(s0, 1, NOW, Go(Put(s0.sh, f), s0.tasks[1], Signal(CancelledFlow)));
  }

  /** Activity 1 closes the terminal channel and releases the flow. */
  lemma CancelReleases(s0: System) returns (s: System)
    requires Reachable(s0) && 1 in s0.tasks && s0.tasks[1] == Task(AdminCancel(false), "a", "a", Signal(CancelledFlow))
    requires "a" in s0.sh.flows && s0.sh.flows["a"].id == "a" && s0.sh.slot == Some("a") && !s0.sh.closed
    ensures Reachable(s)
    ensures var f := s0.sh.flows["a"];
            s.sh == Put(s0.sh.(slot := None, released := s0.sh.released + {"a"}, latest := Some("a")),
                        f.(terminalClosed := true, log := f.log.(stored := true, left := true)))
    ensures s.tasks == s0.tasks[1 := s0.tasks[1].(pc := Done(CancelledFlow))]
  {
    hide Reachable, Run, Next;
    var r := CancelledFlow;
    var t := s0.tasks[1];
    SignalStep(s0.sh, t);
    s := Do(s0, 1, NOW, Go(Put(s0.sh, s0.sh.flows["a"].(terminalClosed := true)), t, ReleaseLoad(r)));
    ReleaseSteps(s.sh, t, r);
    s := Do(s, 1, NOW, Go(s.sh, t, ReleaseClosed(r)));
    s := Do(s, 1, NOW, Go(s.sh, t, ReleaseStore(r)));
    s := Do(s, 1, NOW, Go(Stored(s.sh, "a"), t, ReleaseCas(r)));
    ReleaseSteps(s.sh, t, r);
    s := Do(s, 1, NOW, Go(Left(s.sh, "a"), t, Done(r)));
  }

  lemma SignalStep(sh: Shared, t: Task)
    requires t == Task(AdminCancel(false), "a", "a", Signal(CancelledFlow)) && "a" in sh.flows
    ensures Next(sh, 1, t, NOW) == Go(Put(sh, sh.flows["a"].(terminalClosed := true)), t, ReleaseLoad(CancelledFlow))
  {
  }

  lemma ReleaseSteps(sh: Shared, t: Task, r: Result)
    requires t.kind == AdminCancel(false) && t.fid in sh.flows && sh.slot == Some(t.fid) && !sh.closed
    ensures Next(sh, 1, t.(pc := ReleaseLoad(r)), NOW) == Go(sh, t, ReleaseClosed(r))
    ensures Next(sh, 1, t.(pc := ReleaseClosed(r)), NOW) == Go(sh, t, ReleaseStore(r))
    ensures Next(sh, 1, t.(pc := ReleaseStore(r)), NOW) == Go(Stored(sh, t.fid), t, ReleaseCas(r))
    ensures Next(sh, 1, t.(pc := ReleaseCas(r)), NOW) == Go(Left(sh, t.fid), t, Done(r))
  {
    hide Next;
    assert ReleaseStep(sh, t.(pc := ReleaseLoad(r))) == Go(sh, t, ReleaseClosed(r));
    assert ReleaseStep(sh, t.(pc := ReleaseClosed(r))) == Go(sh, t, ReleaseStore(r));
    assert ReleaseStep(sh, t.(pc := ReleaseStore(r))) == Go(Stored(sh, t.fid), t, ReleaseCas(r));
    assert ReleaseStep(sh, t.(pc := ReleaseCas(r))) == Go(Left(sh, t.fid), t, Done(r));
    hide ReleaseStep;
    ReleaseNext(sh, t.(pc := ReleaseLoad(r)));
    ReleaseNext(sh, t.(pc := ReleaseClosed(r)));
    ReleaseNext(sh, t.(pc := ReleaseStore(r)));
    ReleaseNext(sh, t.(pc := ReleaseCas(r)));
  }

  lemma ReleaseNext(sh: Shared, t: Task)
    requires ReleasePc(t.pc) && t.fid in sh.flows
    ensures Next(sh, 1, t, NOW) == ReleaseStep(sh, t)
  {
    hide ReleaseStep;
  }

  // ---------------------------------------------------------------- the three races

  /** A flow can be lost: an admin cancel that finishes between the start's compare-and-swap and its
      cleanup leaves a finished flow that no poll has delivered and every poll answers idle for. */
  lemma FlowCanBeLost()
    ensures exists s :: Reachable(s) && !s.sh.closed && s.sh.started == ["a"] && "a" in s.sh.flows
              && s.sh.flows["a"].status == Error && s.sh.flows["a"].log.marked == 0
              && Answered(s, 2, IdlePoll(Some("a")))
  {
    hide Reachable, Run, Next;
    var s := BeforeCleanup();
    s := CancelWins(s);
    s := CancelEnds(s);
    s := CancelReleases(s);
    CleanupStep(s.sh, s.tasks[0]);
    s := Do(s, 0, NOW, StartStep(s.sh, s.tasks[0]));
    var t := Task(Poll, "", "", Enter);
    PollSteps(s.sh, t);
    s := Create(s, 2, t);
    s := Do(s, 2, NOW, Go(s.sh, t, PollLatest(Some("a"))));
    s := Do(s, 2, NOW, Go(s.sh, t, Done(IdlePoll(Some("a")))));
    assert Answered(s, 2, IdlePoll(Some("a")));
  }

  lemma CleanupStep(sh: Shared, t: Task)
    requires t == Task(Start(FLOW), "", "a", StartCleanup)
    requires sh.released == {"a"} && sh.latest == Some("a") && "a" in sh.flows && !sh.flows["a"].listenerBound
    ensures Next(sh, 0, t, NOW) == StartStep(sh, t)
    ensures StartStep(sh, t).Move? && StartStep(sh, t).sh == sh.(starter := None, released := {}, latest := None,
                                                             lost := sh.lost + {"a"})
  {
    assert CleanReleased(sh) == {};
  }

  lemma PollSteps(sh: Shared, t: Task)
    requires t == Task(Poll, "", "", Enter) && sh.slot == None && sh.started == ["a"] && sh.latest == None
    ensures CanSpawn(sh, t)
    ensures Next(sh, 2, t, NOW) == Go(sh, t, PollLatest(Some("a")))
    ensures Next(sh, 2, t.(pc := PollLatest(Some("a"))), NOW) == Go(sh, t, Done(IdlePoll(Some("a"))))
  {
  }

  /** Activity 2, a poll, has read a pending status; then activity 1 cancels the flow and writes the
      error; then the poll's second read delivers that error and leaves it unmarked. */
  lemma UnmarkedDelivery() returns (s: System, snapshot: Snapshot)
    ensures Reachable(s) && s.sh.slot == Some("a") && s.sh.started == ["a"] && 3 !in s.tasks
    ensures CancelledUnmarked(s.sh) && snapshot == SnapshotOf(s.sh.flows["a"])
    ensures Answered(s, 2, Delivered(snapshot))
  {
    hide Reachable, Run, Next;
    s := BeforeCleanup();
    var t := Task(Poll, "", "", Enter);
    var p := t.(fid := "a");
    PollCurrent(s.sh, 2, t);
    s := Create(s, 2, t);
    s := Do(s, 2, NOW, Go(s.sh, p, PollStatus(Some("a"))));
    s := Do(s, 2, NOW, Go(s.sh, p, PollPending));
    s := CancelWins(s);
    s := CancelEnds(s);
    var f := s.sh.flows["a"];
    DeliverPending(s.sh, p);
    s := Do(s, 2, NOW, Go(Put(s.sh, f.(log := f.log.(raced := f.log.raced + 1))), p, Done(Delivered(SnapshotOf(f)))));
    snapshot := SnapshotOf(f);
  }

  /** A terminal snapshot can be delivered twice: a poll that read a pending status before the
      cancel, and whose second read comes after it, delivers without marking. */
  lemma CanBeDeliveredTwice()
    ensures exists s, snapshot: Snapshot :: Reachable(s) && snapshot.status == Error && snapshot.flowId == "a"
              && Answered(s, 2, Delivered(snapshot)) && Answered(s, 3, Delivered(snapshot))
  {
    hide Reachable, Run, Next;
    var s, snapshot := UnmarkedDelivery();
    var t := Task(Poll, "", "", Enter);
    var p := t.(fid := "a");
    PollCurrent(s.sh, 3, t);
    s := Create(s, 3, t);
    s := Do(s, 3, NOW, Go(s.sh, p, PollStatus(Some("a"))));
    s := Do(s, 3, NOW, Go(s.sh, p, PollMark(Some("a"))));
    var g := s.sh.flows["a"];
    DeliverMark(s.sh, p);
    s := Do(s, 3, NOW, Go(Put(s.sh, g.(reported := true, log := g.log.(marked := g.log.marked + 1))), p,
                          Done(Delivered(SnapshotOf(g)))));
    assert Answered(s, 2, Delivered(snapshot)) && Answered(s, 3, Delivered(snapshot));
  }

  lemma PollEnters(sh: Shared, tid: Tid, t: Task)
    requires t == Task(Poll, "", "", Enter) && sh.slot == Some("a") && sh.started == ["a"]
    ensures CanSpawn(sh, t)
    ensures Next(sh, tid, t, NOW) == Go(sh, t.(fid := "a"), PollStatus(Some("a")))
  {
  }

  lemma PollCurrent(sh: Shared, tid: Tid, t: Task)
    requires t == Task(Poll, "", "", Enter) && sh.slot == Some("a") && sh.started == ["a"] && "a" in sh.flows
    requires sh.flows["a"].writer == None && sh.flows["a"].id == "a"
    ensures CanSpawn(sh, t)
    ensures Next(sh, tid, t, NOW) == Go(sh, t.(fid := "a"), PollStatus(Some("a")))
    ensures Next(sh, tid, t.(fid := "a", pc := PollStatus(Some("a"))), NOW) ==
            Go(sh, t.(fid := "a"), if Terminal(sh.flows["a"].status) then PollMark(Some("a")) else PollPending)
  {
    PollEnters(sh, tid, t);
    hide EnterStep, CanSpawn, Complaint;
    assert sh.flows["a" := sh.flows["a"]] == sh.flows;
  }

  /** A cancelled flow whose terminal snapshot no poll has marked. */
  predicate CancelledUnmarked(sh: Shared) {
    && "a" in sh.flows && sh.flows["a"].writer == None && sh.flows["a"].id == "a"
    && sh.flows["a"].status == Error && sh.flows["a"].error == Some(Cancelled()) && !sh.flows["a"].reported
  }

  lemma SnapshotIsValid(f: Flow)
    requires f.id == "a" && f.status == Error && f.error == Some(Cancelled())
    ensures Deliver(f) == Delivered(SnapshotOf(f))
  {
    assert |"cancelled"| > 0 && |"Authentication cancelled"| > 0 && |"a"| > 0;
  }

  lemma DeliverPending(sh: Shared, t: Task)
    requires t.fid == "a" && CancelledUnmarked(sh)
    ensures var f := sh.flows["a"];
            Next(sh, 2, t.(pc := PollPending), NOW) ==
              Go(Put(sh, f.(log := f.log.(raced := f.log.raced + 1))), t, Done(Delivered(SnapshotOf(f))))
  {
    hide Complaint, Deliver;
    SnapshotIsValid(sh.flows["a"]);
  }

  lemma DeliverMark(sh: Shared, t: Task)
    requires t.fid == "a" && CancelledUnmarked(sh)
    ensures var f := sh.flows["a"];
            Next(sh, 3, t.(pc := PollMark(Some("a"))), NOW) ==
              Go(Put(sh, f.(reported := true, log := f.log.(marked := f.log.marked + 1))), t,
                 Done(Delivered(SnapshotOf(f))))
  {
    hide Complaint, Deliver;
    SnapshotIsValid(sh.flows["a"]);
  }

  /** A rail can lose to an admin cancel with an internal error: it reads the flow between the
      cancel's compare-and-swap and the cancel's error. */
  lemma LoserCanFail()
    ensures exists s :: Reachable(s) && Answered(s, 2, WinnerNotPublished)
  {
    hide Reachable, Run, Next;
    var s := BeforeCleanup();
    s := CancelWins(s);
    var t := Task(ProviderCancel(RailLoopback, "access_denied"), "a", "", Enter);
    var r := t.(fid := "a");
    LookupSteps(s.sh, t);
    s := Create(s, 2, t);
    s := Do(s, 2, NOW, Go(s.sh, t, FindClosed));
    s := Do(s, 2, NOW, Go(s.sh, t, FindSlot));
    s := Do(s, 2, NOW, Go(s.sh, r, CheckConsumed));
    RejectSteps(s.sh, r);
    s := Do(s, 2, NOW, Go(s.sh, r, Classify));
    s := Do(s, 2, NOW, Go(s.sh, r, RejectRead(false)));
    s := Do(s, 2, NOW, Go(s.sh, r, RejectRead(true)));
    s := Do(s, 2, NOW, Go(s.sh, r, RejectStatus));
    s := Do(s, 2, NOW, Go(s.sh, r, Done(WinnerNotPublished)));
    assert Answered(s, 2, WinnerNotPublished);
  }

  lemma LookupSteps(sh: Shared, t: Task)
    requires t == Task(ProviderCancel(RailLoopback, "access_denied"), "a", "", Enter)
    requires !sh.closed && sh.slot == Some("a")
    ensures CanSpawn(sh, t)
    ensures Next(sh, 2, t, NOW) == Go(sh, t, FindClosed)
    ensures Next(sh, 2, t.(pc := FindClosed), NOW) == Go(sh, t, FindSlot)
    ensures Next(sh, 2, t.(pc := FindSlot), NOW) == Go(sh, t.(fid := "a"), CheckConsumed)
  {
  }

  lemma RejectSteps(sh: Shared, t: Task)
    requires t.kind.ProviderCancel? && t.fid == "a" && "a" in sh.flows && sh.flows["a"].id == "a"
    requires var f := sh.flows["a"];
             f.consumed && f.consumedBy == RailUnknown && f.status == Pending && f.writer == None && f.expiresAt == 9
    ensures Next(sh, 2, t.(pc := CheckConsumed), NOW) == Go(sh, t, Classify)
    ensures Next(sh, 2, t.(pc := Classify), NOW) == Go(sh, t, RejectRead(false))
    ensures Next(sh, 2, t.(pc := RejectRead(false)), NOW) == Go(sh, t, RejectRead(true))
    ensures Next(sh, 2, t.(pc := RejectRead(true)), NOW) == Go(sh, t, RejectStatus)
    ensures Next(sh, 2, t.(pc := RejectStatus), NOW) == Go(sh, t, Done(WinnerNotPublished))
  {
    assert sh.flows["a" := sh.flows["a"]] == sh.flows;
    hide Next;
    RejectNext(sh, t.(pc := CheckConsumed));
    RejectNext(sh, t.(pc := Classify));
    RejectNext(sh, t.(pc := RejectRead(false)));
    RejectNext(sh, t.(pc := RejectRead(true)));
    RejectNext(sh, t.(pc := RejectStatus));
  }

  lemma RejectNext(sh: Shared, t: Task)
    requires RailPc(t.pc) && t.fid in sh.flows
    ensures var step := RailStep(sh.flows[t.fid], 2, t.kind, t.pc, NOW);
            Next(sh, 2, t, NOW) == (if step.Blocked? then Stuck else Go(Put(sh, step.f), t, step.pc))
  {
  }
}
