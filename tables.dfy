/** The three transition tables of the repository: the single-phase
    `ServiceStateMachine` (ginkgo/core.py), the two-phase one
    (gservice/state.py) and the container variant (ginkgo/service.py). */
module Tables {
  import opened Wrappers
  import opened StateMachine

  /** The callbacks every service defines (`pre_start`, `post_start`,
      `pre_stop`, `post_stop`, all no-ops in BasicService); none raises. */
  const LifecycleHooks: Subject := Subject({"pre_start", "post_start", "pre_stop", "post_stop"}, {})

  /** `ServiceStateMachine` of ginkgo/core.py. */
  const SinglePhase: Table := Table("init", ["ready", "stopped"], map[
    "start" := EventDef(["init", "stopped"], "starting", Some("pre_start")),
    "ready" := EventDef(["starting"], "ready", Some("post_start")),
    "stop" := EventDef(["ready", "starting"], "stopping", Some("pre_stop")),
    "stopped" := EventDef(["stopping"], "stopped", Some("post_stop"))])

  /** `ServiceStateMachine` of gservice/state.py: starting and stopping are
      each split into a children phase and a self phase. */
  const TwoPhase: Table := Table("init", ["ready", "stopped"], map[
    "start_services" := EventDef(["init", "stopped"], "starting:services", Some("pre_start")),
    "services_started" := EventDef(["starting:services"], "starting", None),
    "ready" := EventDef(["starting"], "ready", Some("post_start")),
    "stop_services" := EventDef(["ready", "starting:services", "starting"], "stopping:services", Some("pre_stop")),
    "services_stopped" := EventDef(["stopping:services"], "stopping", None),
    "stopped" := EventDef(["stopping", "stopping:services"], "stopped", Some("post_stop"))])

  /** `ContainerStateMachine`: the single-phase table with `started` added,
      `ready` now entered from "starting:services", and "start" (an event
      name, not a state) added to the waitable list. */
  const ContainerTable: Table := Table("init", ["ready", "stopped", "start"], map[
    "start" := EventDef(["init", "stopped"], "starting", Some("pre_start")),
    "started" := EventDef(["starting"], "starting:services", None),
    "ready" := EventDef(["starting:services"], "ready", Some("post_start")),
    "stop" := EventDef(["ready", "starting"], "stopping", Some("pre_stop")),
    "stopped" := EventDef(["stopping"], "stopped", Some("post_stop"))])

  /** The single-phase table allows exactly four moves, each with its callback;
      every other event raises without moving. */
  lemma SinglePhaseMoves(current: State, event: EventName)
    ensures Step(SinglePhase, LifecycleHooks, current, event) ==
      if event == "start" && current in ["init", "stopped"] then Ok(Fired("starting", Some("pre_start")))
      else if event == "ready" && current == "starting" then Ok(Fired("ready", Some("post_start")))
      else if event == "stop" && current in ["ready", "starting"] then Ok(Fired("stopping", Some("pre_stop")))
      else if event == "stopped" && current == "stopping" then Ok(Fired("stopped", Some("post_stop")))
      else if event == "start" then Err(CannotEnter("starting", current))
      else if event == "ready" then Err(CannotEnter("ready", current))
      else if event == "stop" then Err(CannotEnter("stopping", current))
      else if event == "stopped" then Err(CannotEnter("stopped", current))
      else Err(NoSuchEvent(event))
  {
  }

  /** The two-phase table's six moves; `services_started` and
      `services_stopped` run no callback, and `stopped` may skip the
      `stopping` phase. */
  lemma TwoPhaseMoves(current: State, event: EventName)
    ensures Step(TwoPhase, LifecycleHooks, current, event) ==
      if event == "start_services" && current in ["init", "stopped"] then
        Ok(Fired("starting:services", Some("pre_start")))
      else if event == "services_started" && current == "starting:services" then
        Ok(Fired("starting", None))
      else if event == "ready" && current == "starting" then Ok(Fired("ready", Some("post_start")))
      else if event == "stop_services" && current in ["ready", "starting:services", "starting"] then
        Ok(Fired("stopping:services", Some("pre_stop")))
      else if event == "services_stopped" && current == "stopping:services" then
        Ok(Fired("stopping", None))
      else if event == "stopped" && current in ["stopping", "stopping:services"] then
        Ok(Fired("stopped", Some("post_stop")))
      else if event == "start_services" then Err(CannotEnter("starting:services", current))
      else if event == "services_started" then Err(CannotEnter("starting", current))
      else if event == "ready" then Err(CannotEnter("ready", current))
      else if event == "stop_services" then Err(CannotEnter("stopping:services", current))
      else if event == "services_stopped" then Err(CannotEnter("stopping", current))
      else if event == "stopped" then Err(CannotEnter("stopped", current))
      else Err(NoSuchEvent(event))
  {
  }

  /** The container table: `started` moves "starting" to "starting:services"
      without a callback, and `ready` is legal only from there. */
  lemma ContainerMoves(current: State, event: EventName)
    ensures Step(ContainerTable, LifecycleHooks, current, event) ==
      if event == "start" && current in ["init", "stopped"] then Ok(Fired("starting", Some("pre_start")))
      else if event == "started" && current == "starting" then Ok(Fired("starting:services", None))
      else if event == "ready" && current == "starting:services" then Ok(Fired("ready", Some("post_start")))
      else if event == "stop" && current in ["ready", "starting"] then Ok(Fired("stopping", Some("pre_stop")))
      else if event == "stopped" && current == "stopping" then Ok(Fired("stopped", Some("post_stop")))
      else if event == "start" then Err(CannotEnter("starting", current))
      else if event == "started" then Err(CannotEnter("starting:services", current))
      else if event == "ready" then Err(CannotEnter("ready", current))
      else if event == "stop" then Err(CannotEnter("stopping", current))
      else if event == "stopped" then Err(CannotEnter("stopped", current))
      else Err(NoSuchEvent(event))
  {
  }

  /** Only "ready" and "stopped" can be waited for in either service table;
      the container can also wait for "start" but not for "starting:services". */
  lemma Waitables(waited: State)
    ensures WaitStep(SinglePhase, waited).Ok? <==> waited == "ready" || waited == "stopped"
    ensures WaitStep(TwoPhase, waited).Ok? <==> waited == "ready" || waited == "stopped"
    ensures WaitStep(ContainerTable, waited).Ok? <==>
              waited == "ready" || waited == "stopped" || waited == "start"
    ensures WaitStep(ContainerTable, "starting:services") == Err(CannotWait("starting:services"))
  {
  }

  /** The single-phase table keeps a service within five states. */
  lemma SinglePhaseStates()
    ensures StatesOf(SinglePhase) == {"init", "starting", "ready", "stopping", "stopped"}
  {
    var targets := set e | e in SinglePhase.events :: SinglePhase.events[e].target;
    forall e | e in SinglePhase.events
      ensures SinglePhase.events[e].target in {"starting", "ready", "stopping", "stopped"}
    {
    }
    assert SinglePhase.events["start"].target == "starting";
    assert SinglePhase.events["ready"].target == "ready";
    assert SinglePhase.events["stop"].target == "stopping";
    assert SinglePhase.events["stopped"].target == "stopped";
    assert targets == {"starting", "ready", "stopping", "stopped"};
  }

  /** The two-phase table's seven states. */
  lemma TwoPhaseStates()
    ensures StatesOf(TwoPhase) ==
              {"init", "starting:services", "starting", "ready", "stopping:services", "stopping", "stopped"}
  {
    var targets := set e | e in TwoPhase.events :: TwoPhase.events[e].target;
    forall e | e in TwoPhase.events
      ensures TwoPhase.events[e].target in
                {"starting:services", "starting", "ready", "stopping:services", "stopping", "stopped"}
    {
    }
    assert TwoPhase.events["start_services"].target == "starting:services";
    assert TwoPhase.events["services_started"].target == "starting";
    assert TwoPhase.events["ready"].target == "ready";
    assert TwoPhase.events["stop_services"].target == "stopping:services";
    assert TwoPhase.events["services_stopped"].target == "stopping";
    assert TwoPhase.events["stopped"].target == "stopped";
    assert targets == {"starting:services", "starting", "ready", "stopping:services", "stopping", "stopped"};
  }

  /** The container's six states. "start", although waitable, is not one of
      them, so its signal can never be set. */
  lemma ContainerStates()
    ensures StatesOf(ContainerTable) ==
              {"init", "starting", "starting:services", "ready", "stopping", "stopped"}
    ensures "start" in ContainerTable.allowWait && "start" !in StatesOf(ContainerTable)
  {
    var targets := set e | e in ContainerTable.events :: ContainerTable.events[e].target;
    forall e | e in ContainerTable.events
      ensures ContainerTable.events[e].target in
                {"starting", "starting:services", "ready", "stopping", "stopped"}
    {
    }
    assert ContainerTable.events["start"].target == "starting";
    assert ContainerTable.events["started"].target == "starting:services";
    assert ContainerTable.events["ready"].target == "ready";
    assert ContainerTable.events["stop"].target == "stopping";
    assert ContainerTable.events["stopped"].target == "stopped";
    assert targets == {"starting", "starting:services", "ready", "stopping", "stopped"};
  }

  /** In the two-phase table a service can only become ready after its
      children phase has been closed by `services_started`. */
  lemma {:induction false} TwoPhaseReadyAfterServicesStarted(current: State, events: seq<EventName>)
    requires current != "starting" && current != "ready"
    requires Run(TwoPhase, LifecycleHooks, current, events) == Ok("ready")
    ensures "services_started" in events
    decreases |events|
  {
    assert events != [];
    TwoPhaseMoves(current, events[0]);
    var f := Step(TwoPhase, LifecycleHooks, current, events[0]);
    assert f.Ok?;
    if f.value.state != "starting" {
      TwoPhaseReadyAfterServicesStarted(f.value.state, events[1..]);
      assert events == [events[0]] + events[1..];
    }
  }

  /** In the container table a service can only become ready after `started`
      has moved it to "starting:services". */
  lemma {:induction false} ContainerReadyAfterStarted(current: State, events: seq<EventName>)
    requires current != "starting:services" && current != "ready"
    requires Run(ContainerTable, LifecycleHooks, current, events) == Ok("ready")
    ensures "started" in events
    decreases |events|
  {
    assert events != [];
    ContainerMoves(current, events[0]);
    var f := Step(ContainerTable, LifecycleHooks, current, events[0]);
    assert f.Ok?;
    if f.value.state != "starting:services" {
      ContainerReadyAfterStarted(f.value.state, events[1..]);
      assert events == [events[0]] + events[1..];
    }
  }

  /** The single-phase machine is cyclic: start, ready, stop, stopped and
      start, ready again bring a fresh service back to "ready". */
  lemma SinglePhaseRestart()
    ensures Run(SinglePhase, LifecycleHooks, "init",
                ["start", "ready", "stop", "stopped", "start", "ready"]) == Ok("ready")
  {
    var evs := ["start", "ready", "stop", "stopped", "start", "ready"];
    SinglePhaseMoves("init", "start");
    SinglePhaseMoves("starting", "ready");
    SinglePhaseMoves("ready", "stop");
    SinglePhaseMoves("stopping", "stopped");
    SinglePhaseMoves("stopped", "start");
    assert evs[1..] == ["ready", "stop", "stopped", "start", "ready"];
    assert evs[1..][1..] == ["stop", "stopped", "start", "ready"];
    assert evs[1..][1..][1..] == ["stopped", "start", "ready"];
    assert evs[1..][1..][1..][1..] == ["start", "ready"];
    assert evs[1..][1..][1..][1..][1..] == ["ready"];
    assert evs[1..][1..][1..][1..][1..][1..] == [];
  }
}
