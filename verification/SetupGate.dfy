/** The setup gate and the promotion as objects, tied to the steps of the state machine
    (internal/setup/gate.go, internal/app/app.go). */
module SetupGate {
  import opened Wrappers
  import M = SetupMachine

  datatype Stat = Present | Absent | Unreadable

  class Gate {
    var done: bool
    var observerDisabled: bool

    ghost function State(): M.Gate
      reads this
    {
      M.Gate(done, observerDisabled)
    }

    constructor ()
      ensures State() == M.Gate(false, false)
    {
      done, observerDisabled := false, false;
    }

    method DisableFilesystemObserver()
      modifies `observerDisabled
      ensures State() == old(State()).(observerDisabled := true)
    {
      observerDisabled := true;
    }

    method MarkOpen()
      modifies `done
      ensures State() == old(State()).(done := true)
    {
      if !done { done := true; }
    }

    /** Reports whether the gate is open. It opens on the sight of config.json unless its observer is
        disabled, it never closes, and an unreadable disk is reported and opens nothing. */
    method Probe(stat: Stat) returns (open: bool, failed: bool)
      modifies `done
      ensures open == done && observerDisabled == old(observerDisabled)
      ensures done <==> old(done) || (!observerDisabled && stat == Present)
      ensures failed <==> !old(done) && !observerDisabled && stat == Unreadable
    {
      if done { return true, false; }
      if observerDisabled { return false, false; }
      if stat == Unreadable { return false, true; }
      if stat == Present { done := true; }
      return stat == Present, false;
    }
  }

  /** The atomic steps of a request through one handler's gate, with nothing interleaved, decide as
      Probe does: the request passes exactly when Probe reports an open gate. */
  lemma ProbeIsAtomic(w: M.World, t: M.Task, h: nat, stat: Stat, env: M.Env)
    requires h < |w.proc.handlers| && t.pc == M.GateFast(h)
    requires !env.fails <==> stat != Unreadable
    requires stat != Unreadable ==> (stat == Present <==> w.disk.config.Some?)
    ensures var gate := w.proc.handlers[h].gate;
            var s1 := M.RequestStep(w, t, env);
            var s2 := if s1.task.pc.Passed? then s1 else M.RequestStep(s1.w, s1.task, env);
            var s3 := if s2.task.pc.Stat? then M.RequestStep(s2.w, s2.task, env) else s2;
            var s4 := if s3.task.pc.Latch? then M.RequestStep(s3.w, s3.task, env) else s3;
            && s1.Move? && s2.Move? && s3.Move? && s4.Move? && h < |s4.w.proc.handlers|
            && (s4.task.pc == M.Passed(h) <==> gate.done || (!gate.observerDisabled && stat == Present))
            && (s4.task.pc == M.Passed(h) || s4.task.pc == M.Held(h))
            && s4.w.proc.handlers[h].gate.done == (s4.task.pc == M.Passed(h))
  {
  }

  class App {
    var proc: M.Process

    constructor (pid: nat)
      ensures proc == M.Started(pid)
    {
      proc := M.Started(pid);
    }

    /** buildHandler's gate: pending muxes lose the observer, steady muxes are marked open. */
    method BuildHandler(steady: bool) returns (h: M.Handler)
      ensures h == M.NewHandler(steady)
      ensures (h.gate.done ==> h.steady) && (h.gate.done || h.gate.observerDisabled)
    {
      var gate := new Gate();
      if !steady { gate.DisableFilesystemObserver(); }
      if steady { gate.MarkOpen(); }
      h := M.Handler(M.Gate(gate.done, gate.observerDisabled), steady);
    }

    /** promoteToSteadyState: does nothing once promoted, swaps nothing when a step fails, and
        otherwise publishes one new steady handler as the current one. */
    method PromoteToSteadyState(fails: bool) returns (ok: bool)
      modifies this
      ensures ok <==> old(proc).promoted || !fails
      ensures proc == if ok && !old(proc).promoted then M.Published(old(proc), true) else old(proc)
    {
      if proc.promoted { return true; }
      if fails { return false; }
      var h := BuildHandler(true);
      proc := proc.(handlers := proc.handlers + [h], current := Some(|proc.handlers|));
      proc := proc.(promoted := true, promotions := proc.promotions + 1);
      return true;
    }
  }
}
