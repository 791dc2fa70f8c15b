/** The coordinator as an object: its critical sections and calls with nothing interleaved, each proved
    to do what the steps of the state machine do one after the other (internal/oauth/coordinator.go). */
module CoordinatorObject {
  import opened Wrappers
  import opened OAuthFlow
  import opened FlowCoordinator
  import opened FlowInvariant

  /** The steps of ReleaseFlow from pc to its end. */
  function Release(sh: Shared, t: Task, fuel: nat): Shared
    decreases fuel
  {
    if fuel == 0 || !ReleasePc(t.pc) || t.fid !in sh.flows then sh
    else
      var step := ReleaseStep(sh, t);
      if step.Stuck? then sh else Release(step.sh, step.task, fuel - 1)
  }

  /** The call of ReleaseFlow that ends an admin cancel of flow id. */
  function Releasing(id: string): Task { Task(AdminCancel(false), id, id, ReleaseLoad(CancelledFlow)) }

  /** What each step of ReleaseFlow does to a flow in the slot. */
  lemma ReleaseTests(sh: Shared, id: string)
    requires id in sh.flows
    ensures var t, r := Releasing(id), CancelledFlow;
            && ReleaseStep(sh, t) == Go(sh, t, if sh.slot != Some(id) then Done(r) else ReleaseClosed(r))
            && ReleaseStep(sh, t.(pc := ReleaseClosed(r))) == Go(sh, t, if sh.closed then ReleaseCas(r) else ReleaseStore(r))
  {
  }

  lemma ReleaseWrites(sh: Shared, id: string)
    requires id in sh.flows && sh.flows[id].id == id && sh.slot == Some(id)
    ensures var t, r := Releasing(id), CancelledFlow;
            && ReleaseStep(sh, t.(pc := ReleaseStore(r))) == Go(Stored(sh, id), t, ReleaseCas(r))
            && ReleaseStep(sh, t.(pc := ReleaseCas(r))) == Go(Left(sh, id), t, Done(r))
  {
  }

  lemma StoredFacts(sh: Shared, id: string)
    requires id in sh.flows && sh.flows[id].id == id && sh.slot == Some(id)
    ensures Stored(sh, id).slot == Some(id) && id in Stored(sh, id).flows && Stored(sh, id).flows[id].id == id
  {
  }

  /** ReleaseFlow does nothing to a flow that is not in the slot; otherwise it stores the flow for later
      lookups, unless the coordinator is closed, and empties the slot. */
  lemma ReleaseResult(sh: Shared, id: string)
    requires id in sh.flows && sh.flows[id].id == id
    ensures Release(sh, Releasing(id), 4) ==
            if sh.slot != Some(id) then sh
            else if sh.closed then Left(sh, id)
            else Left(Stored(sh, id), id)
  {
    var t, r := Releasing(id), CancelledFlow;
    hide ReleaseStep, Stored, Left;
    ReleaseTests(sh, id);
    if sh.slot == Some(id) {
      ReleaseWrites(sh, id);
      StoredFacts(sh, id);
      ReleaseWrites(Stored(sh, id), id);
      assert Release(sh, t, 4) == Release(sh, t.(pc := ReleaseClosed(r)), 3);
      if sh.closed {
        assert Release(sh, t.(pc := ReleaseClosed(r)), 3) == Release(sh, t.(pc := ReleaseCas(r)), 2);
        LastStep(sh, id, 1);
      } else {
        assert Release(sh, t.(pc := ReleaseClosed(r)), 3) == Release(sh, t.(pc := ReleaseStore(r)), 2);
        assert Release(sh, t.(pc := ReleaseStore(r)), 2) == Release(Stored(sh, id), t.(pc := ReleaseCas(r)), 1);
        LastStep(Stored(sh, id), id, 0);
      }
    }
  }

  lemma LastStep(sh: Shared, id: string, fuel: nat)
    requires id in sh.flows && sh.flows[id].id == id && sh.slot == Some(id)
    ensures Release(sh, Releasing(id).(pc := ReleaseCas(CancelledFlow)), fuel + 1) == Left(sh, id)
  {
    ReleaseWrites(sh, id);
    hide ReleaseStep, Left;
  }

  lemma FreshId(f: Flow)
    requires Fresh(f)
    ensures f.id != ""
  {
  }

  /** A start that finds the slot empty takes it and then cleans up. */
  lemma StartSteps(sh: Shared, f: Flow)
    requires sh.slot.None? && f.id !in sh.flows && sh.starter.None?
    ensures var t := Task(Start(f), "", "", StartCas);
            var mid := Begun(sh, f);
            var kept := CleanReleased(mid);
            var gone := mid.released - kept;
            && StartStep(sh, t) == Move(mid, t.(fid := f.id, pc := StartCleanup))
            && StartStep(mid, t.(fid := f.id, pc := StartCleanup)) ==
                 Go(mid.(released := kept,
                         latest := if mid.latest.Some? && mid.latest.value in gone then None else mid.latest,
                         lost := if f.id in gone then mid.lost + {f.id} else mid.lost), t.(fid := f.id), Done(Started))
  {
    hide CleanReleased;
  }

  class Coordinator {
    var closed: bool
    var slot: Option<string>
    var flows: map<string, Flow>
    var released: set<string>
    var latest: Option<string>
    var started: seq<string>  // history
    var lost: set<string>     // history

    ghost function State(): Shared
      reads this
    {
      Shared(closed, slot, None, flows, released, latest, started, lost)
    }

    /** The flow in the slot and the released flows exist, each under its own id. */
    ghost predicate Valid()
      reads this
    {
      && (forall k :: k in flows ==> flows[k].id == k)
      && (slot.Some? ==> slot.value in flows) && released <= flows.Keys
    }

    constructor ()
      ensures Valid() && State() == EMPTY
    {
      closed, slot, flows, released, latest := false, None, map[], {}, None;
      started, lost := [], {};
    }

    /** The loop over the released flows: those whose listener is not bound go, and the latest one is
        forgotten if it goes. */
    method CleanupReleasedFlowsOnStart()
      requires Valid()
      modifies `released, `latest
      ensures Valid()
      ensures released == CleanReleased(old(State()))
      ensures latest == if old(latest).Some? && old(latest).value in old(released) - released then None else old(latest)
    {
      var left := released;
      while left != {}
        invariant left <= released <= old(released)
        invariant forall k :: k in old(released) && k !in left ==> (k in released <==> flows[k].listenerBound)
        invariant latest == if old(latest).Some? && old(latest).value in old(released) - released then None else old(latest)
        decreases |left|
      {
        var id :| id in left;
        left := left - {id};
        if !flows[id].listenerBound {
          released := released - {id};
          if latest == Some(id) { latest := None; }
        }
      }
    }

    method StoreReleasedFlow(id: string)
      requires Valid() && slot == Some(id)
      modifies `released, `latest, `flows
      ensures Valid()
      ensures State() == Stored(old(State()), id)
      ensures State() == ReleaseStep(old(State()), Releasing(id).(pc := ReleaseStore(CancelledFlow))).sh
    {
      ReleaseWrites(State(), id);
      hide ReleaseStep;
      released, latest := released + {id}, Some(id);
      var f := flows[id];
      flows := flows[id := f.(log := f.log.(stored := true))];
    }

    /** ReleaseFlow: stores the flow before it empties the slot. */
    method ReleaseFlow(id: string)
      requires Valid() && id in flows
      modifies `released, `latest, `flows, `slot
      ensures Valid()
      ensures State() == Release(old(State()), Releasing(id), 4)
    {
      ReleaseResult(State(), id);
      hide Release;
      if slot != Some(id) { return; }
      if !closed { StoreReleasedFlow(id); }
      slot := None;
      var f := flows[id];
      flows := flows[id := f.(log := f.log.(left := true))];
    }

    /** TryStartFlow: refuses while a flow is in the slot; otherwise takes the slot, then cleans up. With
        nothing interleaved the cleanup does not lose the flow. */
    method TryStartFlow(f: Flow) returns (r: Result)
      requires Valid() && Fresh(f) && f.id !in flows
      modifies this
      ensures Valid()
      ensures old(slot).Some? ==> r == InProgress(old(slot).value) && State() == old(State())
      ensures old(slot).None? ==>
                var t := Task(Start(f), "", "", StartCas);
                var first := StartStep(old(State()), t);
                && r == Started && first.Move?
                && State() == StartStep(first.sh, first.task).sh && lost == old(lost)
    {
      hide Fresh, CleanReleased;
      FreshId(f);
      if slot.Some? { return InProgress(slot.value); }
      StartSteps(State(), f);
      hide StartStep;
      flows := flows[f.id := f.(log := f.log.(order := |started|))];
      slot, started := Some(f.id), started + [f.id];
      assert State() == Begun(old(State()), f);
      hide Begun, Newest;
      CleanupReleasedFlowsOnStart();
      return Started;
    }

    /** Shutdown: closed first, then the slot and the released flows are emptied. */
    method Shutdown()
      requires Valid()
      modifies this
      ensures Valid() && closed && slot == None && released == {} && latest == None
      ensures var shut := old(State()).(closed := true);
              State() == (if shut.slot.Some? then Release(shut, Releasing(shut.slot.value), 4) else shut)
                           .(released := {}, latest := None)
    {
      closed := true;
      if slot.Some? {
        ReleaseResult(State(), slot.value);
        ReleaseFlow(slot.value);
      }
      released, latest := {}, None;
    }
  }
}
