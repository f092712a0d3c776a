/** The service tree as a value: what `start`, `stop`, `reload` and
    `serve_forever` of BasicService (ginkgo/core.py), `start` of Container
    (ginkgo/service.py) and the two-phase `start` (gservice/state.py) do to
    a service and its children, and which hooks they run in which order.
    The imperative services of module Services are proved against these
    functions. */
module ServiceTree {
  import opened Wrappers
  import opened StateMachine
  import opened Tables

  /** The three start disciplines of the repository. */
  datatype Kind =
    | SinglePhaseService   // BasicService: children, then itself
    | ContainerService     // Container: itself, then children
    | TwoPhaseService      // the two-phase pseudo-code of gservice/state.py

  /** One hook run: which service ran which of its methods. */
  datatype Entry = Entry(service: string, hook: string)

  /** A service and its subtree. `startBefore` is the `start_before`
      attribute; `deferReady` says whether `do_start` returns a truthy
      value (`NOT_READY`), leaving readiness to the service itself. */
  datatype Tree = Node(name: string, kind: Kind, startBefore: bool, deferReady: bool,
                       state: State, children: seq<Tree>)

  datatype Outcome = Done | Raised(error: Error)

  /** What an operation leaves behind: the new value, the hooks it ran in
      order, and whether it returned or raised. */
  datatype Effect<T> = Effect(value: T, log: seq<Entry>, outcome: Outcome)

  function TableOf(kind: Kind): Table
  {
    match kind
    case SinglePhaseService => SinglePhase
    case ContainerService => ContainerTable
    case TwoPhaseService => TwoPhase
  }

  /** `self.state(event)`: move the service's machine, logging the callback that ran. */
  function FireOn(t: Tree, event: EventName): Effect<Tree>
  {
    match Step(TableOf(t.kind), LifecycleHooks, t.state, event)
    case Ok(f) => Effect(t.(state := f.state),
                         if f.callback.Some? then [Entry(t.name, f.callback.value)] else [], Done)
    case Err(e) => Effect(t, [], Raised(e))
  }

  /** `self.state.wait(state, timeout)`: raises for a state that cannot be
      waited for, otherwise returns with nothing changed. */
  function WaitOn(t: Tree, waited: State): Effect<Tree>
  {
    if WaitStep(TableOf(t.kind), waited).Ok? then Effect(t, [], Done)
    else Effect(t, [], Raised(CannotWait(waited)))
  }

  /** `e` run after hooks `log` that have already run. */
  function After<T>(log: seq<Entry>, e: Effect<T>): Effect<T>
  {
    Effect(e.value, log + e.log, e.outcome)
  }

  /** `start(block_until_ready)`, dispatched on the kind of service. */
  function StartTree(t: Tree, block: bool): Effect<Tree>
    decreases t, 2
  {
    match t.kind
    case SinglePhaseService => StartSinglePhase(t, block)
    case ContainerService => StartContainer(t, block)
    case TwoPhaseService => StartTwoPhase(t, block)
  }

  /** BasicService.start: fire `start`; with `start_before` run `do_start`
      first; start every child not already "ready" or "starting"; then
      either fire `ready` or, when `do_start` answered not-ready, wait for
      it (blocking) or leave it to the service (non-blocking). */
  function StartSinglePhase(t: Tree, block: bool): Effect<Tree>
    requires t.kind == SinglePhaseService
    decreases t, 1
  {
    SinglePhaseAround(t, block, StartKids(t.children, block, SkipOf(t.kind)))
  }

  /** What BasicService.start does besides the loop over the children,
      given what that loop did (`k`); the loop is not entered when firing
      `start` raises. */
  function SinglePhaseAround(t: Tree, block: bool, k: Effect<seq<Tree>>): Effect<Tree>
  {
    var f := FireOn(t, "start");
    if f.outcome.Raised? then f
    else
      var early := if t.startBefore then [Entry(t.name, "do_start")] else [];
      var t2 := f.value.(children := k.value);
      var log := f.log + early + k.log;
      if k.outcome.Raised? then Effect(t2, log, k.outcome)
      else if t.startBefore then After(log, FireOn(t2, "ready"))
      else
        var log' := log + [Entry(t.name, "do_start")];
        if !t.deferReady then After(log', FireOn(t2, "ready"))
        else if block then After(log', WaitOn(t2, "ready"))
        else Effect(t2, log', Done)
  }

  /** Container.start: fire `start` and run `do_start` before any child;
      then fire `started` (or, when `do_start` answered not-ready and the
      caller blocks, wait for "starting:services"); start every child not
      already "ready", "starting" or "starting:services"; fire `ready`. */
  function StartContainer(t: Tree, block: bool): Effect<Tree>
    requires t.kind == ContainerService
    decreases t, 1
  {
    ContainerAround(t, block, StartKids(t.children, block, SkipOf(t.kind)))
  }

  /** What Container.start does besides the loop over the children, given
      what that loop did (`k`). */
  function ContainerAround(t: Tree, block: bool, k: Effect<seq<Tree>>): Effect<Tree>
  {
    var f := FireOn(t, "start");
    if f.outcome.Raised? then f
    else
      var log := f.log + [Entry(t.name, "do_start")];
      var s := if !t.deferReady then FireOn(f.value, "started")
               else if block then WaitOn(f.value, "starting:services")
               else Effect(f.value, [], Done);
      if s.outcome.Raised? then After(log, s)
      else
        var t2 := s.value.(children := k.value);
        var log' := log + s.log + k.log;
        if k.outcome.Raised? then Effect(t2, log', k.outcome)
        else After(log', FireOn(t2, "ready"))
  }

  /** The two-phase start: fire `start_services`; start every child; fire
      `services_started`; run `do_start`; then fire `ready`, wait for it, or
      leave it to the service. */
  function StartTwoPhase(t: Tree, block: bool): Effect<Tree>
    requires t.kind == TwoPhaseService
    decreases t, 1
  {
    TwoPhaseAround(t, block, StartKids(t.children, block, SkipOf(t.kind)))
  }

  /** What the two-phase start does besides the loop over the children,
      given what that loop did (`k`). */
  function TwoPhaseAround(t: Tree, block: bool, k: Effect<seq<Tree>>): Effect<Tree>
  {
    var f := FireOn(t, "start_services");
    if f.outcome.Raised? then f
    else
      var t2 := f.value.(children := k.value);
      if k.outcome.Raised? then Effect(t2, f.log + k.log, k.outcome)
      else
        var g := FireOn(t2, "services_started");
        var log := f.log + k.log + g.log;
        if g.outcome.Raised? then Effect(g.value, log, g.outcome)
        else
          var log' := log + [Entry(t.name, "do_start")];
          if !t.deferReady then After(log', FireOn(g.value, "ready"))
          else if block then After(log', WaitOn(g.value, "ready"))
          else Effect(g.value, log', Done)
  }

  /** The child states in which a starting parent leaves a child alone:
      "ready" and "starting" for BasicService, also "starting:services"
      for Container; the two-phase pseudo-code starts every child. */
  function SkipOf(kind: Kind): seq<State>
  {
    match kind
    case SinglePhaseService => ["ready", "starting"]
    case ContainerService => ["ready", "starting", "starting:services"]
    case TwoPhaseService => []
  }

  /** The loop over the children in add order: a child whose state is in
      `skip` is left alone, the others are started; the first exception
      ends the loop, leaving the later children untouched. */
  function StartKids(kids: seq<Tree>, block: bool, skip: seq<State>): (r: Effect<seq<Tree>>)
    ensures |r.value| == |kids|
    decreases kids, 0
  {
    if kids == [] then Effect([], [], Done)
    else
      var n := |kids| - 1;
      var done := StartKids(kids[..n], block, skip);
      if done.outcome.Raised? then Effect(done.value + [kids[n]], done.log, done.outcome)
      else if kids[n].state in skip then Effect(done.value + [kids[n]], done.log, Done)
      else
        var c := StartTree(kids[n], block);
        Effect(done.value + [c.value], done.log + c.log, c.outcome)
  }

  /** The event that begins and the event that ends a stop, by kind. */
  function StopEvent(kind: Kind): EventName
  {
    if kind == TwoPhaseService then "stop_services" else "stop"
  }

  /** BasicService.stop: nothing in "init" or "stopped"; otherwise note
      whether the service is ready, fire the stop event, stop the children
      last-added first, (two-phase: fire `services_stopped`), run `do_stop`
      only if it was ready, and fire `stopped`. */
  function StopTree(t: Tree): Effect<Tree>
    decreases t, 1
  {
    StopAround(t, StopKids(t.children))
  }

  /** What BasicService.stop does besides the loop over the children,
      given what that loop did (`k`); the loop is not entered when the
      service is idle or firing the stop event raises. */
  function StopAround(t: Tree, k: Effect<seq<Tree>>): Effect<Tree>
  {
    if t.state in ["init", "stopped"] then Effect(t, [], Done)
    else
      var wasReady := t.state == "ready";
      var f := FireOn(t, StopEvent(t.kind));
      if f.outcome.Raised? then f
      else
        var t2 := f.value.(children := k.value);
        if k.outcome.Raised? then Effect(t2, f.log + k.log, k.outcome)
        else
          var m := if t.kind == TwoPhaseService then FireOn(t2, "services_stopped") else Effect(t2, [], Done);
          var log := f.log + k.log + m.log;
          if m.outcome.Raised? then Effect(m.value, log, m.outcome)
          else
            var log' := log + if wasReady then [Entry(t.name, "do_stop")] else [];
            After(log', FireOn(m.value, "stopped"))
  }

  /** The loop over `reversed(children)`: the later children are stopped
      first, and the first exception ends the loop. */
  function StopKids(kids: seq<Tree>): (r: Effect<seq<Tree>>)
    ensures |r.value| == |kids|
    decreases kids, 0
  {
    if kids == [] then Effect([], [], Done)
    else
      var later := StopKids(kids[1..]);
      if later.outcome.Raised? then Effect([kids[0]] + later.value, later.log, later.outcome)
      else
        var c := StopTree(kids[0]);
        Effect([c.value] + later.value, later.log + c.log, c.outcome)
  }

  /** BasicService.reload: `do_reload` of every service, each before its
      children when `start_before` is set and after them otherwise. */
  function ReloadTree(t: Tree): seq<Entry>
    decreases t, 1
  {
    if t.startBefore then [Entry(t.name, "do_reload")] + ReloadKids(t.children)
    else ReloadKids(t.children) + [Entry(t.name, "do_reload")]
  }

  function ReloadKids(kids: seq<Tree>): seq<Entry>
    decreases kids, 0
  {
    if kids == [] then [] else ReloadKids(kids[..|kids| - 1]) + ReloadTree(kids[|kids| - 1])
  }

  /** serve_forever: start, swallowing a RuntimeWarning (such as "already
      started"), then wait for "stopped", which returns at once. */
  function ServeTree(t: Tree): Effect<Tree>
  {
    var s := StartTree(t, true);
    if s.outcome.Raised? && s.outcome.error.IsRuntimeWarning() then Effect(s.value, s.log, Done) else s
  }

  /** require_ready: waiting is attempted and its errors swallowed; the call
      then goes ahead only on a ready service. */
  function RequireReady(t: Tree): (r: Outcome)
    ensures r == Done <==> t.state == "ready"
  {
    if t.state == "ready" then Done else Raised(NotReady)
  }

  // ----- reference traversals and observations -----

  /** The names of the subtree in pre-order (a service before its children). */
  function Preorder(t: Tree): seq<string>
    decreases t, 1
  {
    [t.name] + PreKids(t.children)
  }

  function PreKids(kids: seq<Tree>): seq<string>
    decreases kids, 0
  {
    if kids == [] then [] else PreKids(kids[..|kids| - 1]) + Preorder(kids[|kids| - 1])
  }

  /** The names of the subtree in post-order (a service after its children). */
  function Postorder(t: Tree): seq<string>
    decreases t, 1
  {
    PostKids(t.children) + [t.name]
  }

  function PostKids(kids: seq<Tree>): seq<string>
    decreases kids, 0
  {
    if kids == [] then [] else PostKids(kids[..|kids| - 1]) + Postorder(kids[|kids| - 1])
  }

  /** Whether a service runs its own `do_start` before starting its children. */
  predicate StartsSelfFirst(t: Tree)
  {
    t.kind == ContainerService || (t.kind == SinglePhaseService && t.startBefore)
  }

  /** The order in which `do_start` should run over a subtree: pre-order at
      services that start themselves first, post-order elsewhere. */
  function StartOrder(t: Tree): seq<string>
    decreases t, 1
  {
    if StartsSelfFirst(t) then [t.name] + StartOrderKids(t.children)
    else StartOrderKids(t.children) + [t.name]
  }

  function StartOrderKids(kids: seq<Tree>): seq<string>
    decreases kids, 0
  {
    if kids == [] then [] else StartOrderKids(kids[..|kids| - 1]) + StartOrder(kids[|kids| - 1])
  }

  function Reverse<T>(s: seq<T>): (r: seq<T>)
    ensures |r| == |s|
  {
    if s == [] then [] else Reverse(s[1..]) + [s[0]]
  }

  /** The services, in log order, that ran `hook`. */
  function HookNames(log: seq<Entry>, hook: string): seq<string>
  {
    if log == [] then []
    else (if log[0].hook == hook then [log[0].service] else []) + HookNames(log[1..], hook)
  }

  /** Every service of the subtree is in one of `states`. */
  predicate AllIn(t: Tree, states: set<State>)
    decreases t
  {
    t.state in states && forall i :: 0 <= i < |t.children| ==> AllIn(t.children[i], states)
  }

  /** No `do_start` of the subtree answers not-ready. */
  predicate Eager(t: Tree)
    decreases t
  {
    !t.deferReady && forall i :: 0 <= i < |t.children| ==> Eager(t.children[i])
  }

  /** The names of all services in the subtree. */
  function Names(t: Tree): set<string>
    decreases t, 1
  {
    {t.name} + KidsNames(t.children)
  }

  function KidsNames(kids: seq<Tree>): set<string>
    decreases kids, 0
  {
    if kids == [] then {} else KidsNames(kids[..|kids| - 1]) + Names(kids[|kids| - 1])
  }

  /** Every service of the subtree has its `start_before` set to `flag`. */
  predicate UniformStartBefore(t: Tree, flag: bool)
    decreases t
  {
    t.startBefore == flag && forall i :: 0 <= i < |t.children| ==> UniformStartBefore(t.children[i], flag)
  }
}
