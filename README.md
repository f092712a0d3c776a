# ginkgo service lifecycle, configuration and line reader in Dafny

This project models the core of ginkgo, a Python 2 framework for supervising
trees of long-running services. It covers:

- **The state-machine engine** (`AbstractStateMachine`, ginkgo/util.py).
  - A machine class is a table of events, and each event gives its legal source states, its target state and its callback.
  - Firing an event looks it up, checks the source state, runs the subject's callback and only then moves.
  - Each waitable state has a signal. A transition clears every signal and then sets the signal of the new state.
  - Module `StateMachine` holds a pure `Step` and the imperative `Machine` class. The class keeps the signal invariant.
- **The three transition tables** (module `Tables`):
  - the single-phase `ServiceStateMachine` of ginkgo/core.py;
  - the two-phase table of gservice/state.py;
  - the `ContainerStateMachine` of ginkgo/service.py.
- **The service tree**.
  - What `start`, `stop`, `reload`, `serve_forever`, `add_service`, `remove_service`, `ready` and `require_ready` of `BasicService` do to a service and its children; likewise `Container.start` and the two-phase start of gservice/state.py.
  - Module `ServiceTree` states these operations as functions on a tree of values. Each returns the new tree, the hooks that ran in order, and whether it returned or raised.
  - Module `Services` holds the live `Service` class: a machine, a list of child services and a footprint. Every method is proved to do what those functions say.
  - Module `ServiceProperties` proves what the rules guarantee:
    - start/stop round trips;
    - hook orders (pre-order, post-order, reverse pre-order);
    - `do_stop` only when ready;
    - the error paths.
- **`GlobalContext`** (module `GlobalContexts`): per-class-name stacks of saved singleton values, pushed on `__enter__` and popped on `__exit__`.
- **The configuration stores**:
  - `Config`, `Group` and `_Setting` of ginkgo/config.py (module `GinkgoConfig`);
  - the registries and `Setting`/`Option` descriptors of gservice/config.py and gevent_tools/config.py (module `FlatConfig`);
  - the shared value and input types in module `ConfigTree`.
- **`line_protocol`** of gevent_tools/util.py (module `LineProtocol`): the reads are a sequence, and the yielded lines are a sequence of strings.

Python exceptions are values (`Raised(error)`, `Err(error)`, `Failed(error)`). Whatever an operation changed before it raised stays changed, as in the source. Blocking waits return at once: in a sequential model nothing else can fire an event meanwhile.

Where the code and its documentation disagree, the model follows the code:
- Services that start themselves first run `do_start` before their children. These are Containers, and services with `start_before` set.
- `reload` visits a service before or after its children according to `start_before`.
- `stop` runs `do_stop` after the children have stopped.
- The two-phase start starts every child, whatever its state.

## Model

| member | source | states |
|---|---|---|
| StateMachine.Step | ginkgo/util.py:127-146 | An undefined event raises NoSuchEvent; an event from a state outside its sources raises CannotEnter(target, current); otherwise the event succeeds unless the subject's callback raises, enters the target, and reports the callback exactly when the subject defines it |
| StateMachine.WaitStep | ginkgo/util.py:121-125 | Waiting is legal exactly for the states in `allow_wait`; any other state raises CannotWait |
| StateMachine.RunStaysInStates | ginkgo/util.py:127-153 | Whatever events are fired, the machine stays within the initial state and the tables' targets |
| StateMachine.RunAppend | ginkgo/util.py:127-135 | Firing two batches of events one after the other is firing them together; the first raise ends the run with the state where it found it |
| StateMachine.Machine.constructor | ginkgo/util.py:108-115 | A new machine is in the initial state with one clear signal for each waitable state |
| StateMachine.Machine.Wait | ginkgo/util.py:121-125 | Raises CannotWait outside `allow_wait`; otherwise reports whether the state's signal is set, which is when real events are used, a transition has happened and the machine is in that state |
| StateMachine.Machine.Fire | ginkgo/util.py:127-146 | Does what Step says: on success the machine is in the target state; on any error state and signals are untouched; the signal invariant is kept |
| StateMachine.Machine.Transition | ginkgo/util.py:148-153 | Enters the target and keeps the invariant that a signal is set exactly for the current waitable state |
| StateMachine.SignalsTrackState | ginkgo/util.py:148-153 | At most one signal is set, and after the first transition the signal of a waitable state is set iff it is the current state |
| Tables.SinglePhaseMoves | ginkgo/core.py:67-76 | The single-phase table allows exactly init/stopped -start-> starting (pre_start), starting -ready-> ready (post_start), ready/starting -stop-> stopping (pre_stop), stopping -stopped-> stopped (post_stop); every other firing raises |
| Tables.TwoPhaseMoves | gservice/state.py:96-109 | The six two-phase moves with their callbacks, services_started and services_stopped running none, stopped legal from stopping and stopping:services; every other firing raises |
| Tables.ContainerMoves | ginkgo/service.py:30-37 | The container moves: started takes starting to starting:services with no callback and ready is legal only from starting:services |
| Tables.Waitables | ginkgo/service.py:31 | Only ready and stopped can be waited for in the service tables; the container adds "start" but cannot wait for starting:services |
| Tables.SinglePhaseStates | ginkgo/core.py:67-76 | The single-phase machine has exactly five states |
| Tables.TwoPhaseStates | gservice/state.py:96-109 | The two-phase machine has exactly seven states |
| Tables.ContainerStates | ginkgo/service.py:30-37 | The container machine has six states, and its waitable "start" is not one of them |
| Tables.TwoPhaseReadyAfterServicesStarted | gservice/state.py:98-103 | A two-phase service reaches ready only through services_started |
| Tables.ContainerReadyAfterStarted | ginkgo/service.py:32-37 | A container reaches ready only through started |
| Tables.SinglePhaseRestart | ginkgo/core.py:69-76 | start, ready, stop, stopped, start, ready brings a new service back to ready |
| ServiceTree.RequireReady | ginkgo/core.py:23-34 | The guarded call goes ahead exactly when the service is ready |
| ServiceTree.FireOn | ginkgo/util.py:127-146 | Computes `self.state(event)` on a service value: the state Step gives and the callback it ran, as one log entry, or the raise with nothing changed |
| ServiceTree.WaitOn | ginkgo/util.py:121-125 | Computes `self.state.wait(state)`: CannotWait for a state outside `allow_wait`, otherwise a return with nothing changed |
| ServiceTree.StartTree | ginkgo/core.py:116-131 | Computes `start(block_until_ready)` of a service and its subtree, dispatching on the kind of service: the new tree, the hooks run in order and the outcome |
| ServiceTree.StartSinglePhase | ginkgo/core.py:116-131 | Computes BasicService.start as SinglePhaseAround of the loop over the children |
| ServiceTree.SinglePhaseAround | ginkgo/core.py:118-131 | Computes what BasicService.start does around the children: fire start (a raise ends it), do_start first with start_before, then after the children fire ready; or, when do_start answered not-ready, wait for ready (blocking) or return starting |
| ServiceTree.StartContainer | ginkgo/service.py:42-53 | Computes Container.start as ContainerAround of the loop over the children |
| ServiceTree.ContainerAround | ginkgo/service.py:44-53 | Computes what Container.start does around the children: fire start, run do_start, fire started (or wait for starting:services, or skip it without blocking), then after the children fire ready |
| ServiceTree.StartTwoPhase | gservice/state.py:4-16 | Computes the two-phase start as TwoPhaseAround of the loop over the children |
| ServiceTree.TwoPhaseAround | gservice/state.py:5-16 | Computes what the two-phase start does around the children: fire start_services, then after them fire services_started, run do_start and fire ready, wait for it, or leave it |
| ServiceTree.StartKids | ginkgo/core.py:121-123 | The loop over the children in add order keeps every child in its place, leaves the children whose state is in the skip list alone, starts the others, and ends at the first raise |
| ServiceTree.StopTree | ginkgo/core.py:148-158 | Computes `stop()` of a service and its subtree as StopAround of the loop over the children |
| ServiceTree.StopAround | ginkgo/core.py:150-158 | Computes what stop does around the children: nothing from init or stopped; otherwise fire the stop event, then after the children (two-phase: fire services_stopped) run do_stop only if it was ready and fire stopped |
| ServiceTree.StopKids | ginkgo/core.py:154-155 | The loop over `reversed(children)` keeps every child in its place, stops the last-added first, and ends at the first raise |
| ServiceTree.ReloadTree | ginkgo/core.py:170-180 | Computes the hooks reload runs: do_reload of the service before its children with start_before, after them otherwise |
| ServiceTree.ReloadKids | ginkgo/core.py:171-173 | Computes the reloads of the children, in add order |
| ServiceTree.ServeTree | ginkgo/core.py:186-195 | Computes serve_forever: a blocking start whose RuntimeWarning is swallowed; the wait for stopped returns at once |
| Services.Service.constructor | ginkgo/core.py:88-92 | A new service is in "init" with no children and its own machine |
| Services.Service.Ready | ginkgo/core.py:98-100 | `ready` is true exactly when the state is "ready" |
| Services.Service.FireHook | ginkgo/util.py:127-131 | `self.state(event)` moves the machine and logs the callback exactly as FireOn says |
| Services.Service.Start | ginkgo/core.py:116-131 | Starting does to the service, its subtree and the hook log exactly what StartTree says for its kind |
| Services.Service.BasicStart | ginkgo/core.py:116-131 | BasicService.start: fire start, do_start first when start_before, start the children not ready or starting, then fire ready, wait, or leave readiness to the service |
| Services.Service.ContainerStart | ginkgo/service.py:42-53 | Container.start: fire start, run do_start, fire started (or wait for starting:services, which raises), start the children not ready, starting or starting:services, fire ready |
| Services.Service.TwoPhaseStart | gservice/state.py:4-16 | The two-phase start: start_services, every child, services_started, do_start, then ready, a wait, or nothing |
| Services.Service.StartChildren | ginkgo/core.py:121-123 | The loop over the children in add order does exactly what StartKids says, stopping at the first raise |
| Services.Service.StartTurn | ginkgo/core.py:121-123 | One turn of that loop keeps the loop's progress invariant, or ends it with what StartKids says |
| Services.Service.StartChildAt | ginkgo/core.py:123 | Starting one child changes only that child's subtree, as StartTree says |
| Services.Service.Stop | ginkgo/core.py:148-158 | Stopping does exactly what StopTree says: nothing when idle, otherwise the stop event, the children last-added first, do_stop only if it was ready, then stopped |
| Services.Service.StopChildren | ginkgo/core.py:154-155 | The loop over `reversed(children)` does exactly what StopKids says, stopping at the first raise |
| Services.Service.StopTurn | ginkgo/core.py:154-155 | One turn of that loop keeps the loop's progress invariant, or ends it with what StopKids says |
| Services.Service.StopChildAt | ginkgo/core.py:155 | Stopping one child changes only that child's subtree, as StopTree says |
| Services.Service.Reload | ginkgo/core.py:170-180 | The hooks reload runs are exactly ReloadTree's: do_reload before the children with start_before, after them otherwise; nothing changes |
| Services.Service.ReloadChildren | ginkgo/core.py:171-173 | The children are reloaded in add order |
| Services.Service.ServeForever | ginkgo/core.py:186-195 | serve_forever starts blocking, swallows a RuntimeWarning and waits for stopped, as ServeTree says |
| Services.Service.RequireReady | ginkgo/core.py:23-34 | The guard lets the call through exactly when the service is ready and otherwise raises NotReady |
| Services.Service.AddService | ginkgo/core.py:102-110 | The child is appended to the children and to the model, and its footprint joins the parent's |
| Services.Service.RemoveService | ginkgo/core.py:112-114 | The first occurrence of the child is dropped from the children, the model and the footprint; a service that is not a child raises NotAChild and nothing changes |
| Services.RemovedChildStillRuns | gservice/tests/test_service.py:111-118 | After remove_service and the parent's stop, the removed child is in the state it had, so a ready child stays ready |
| ServiceProperties.StartFromAllDown | ginkgo/core.py:116-131 | Starting a tree whose services are all init or stopped and whose do_start answers ready succeeds and leaves every service ready |
| ServiceProperties.StartKidsFromAllDown | ginkgo/core.py:121-123 | The same for the loop over such children |
| ServiceProperties.StopFromAllReady | ginkgo/core.py:148-158 | Stopping a tree whose services are all ready succeeds and leaves every service stopped |
| ServiceProperties.StopKidsFromAllReady | ginkgo/core.py:154-155 | The same for the loop over such children |
| ServiceProperties.StartStopStart | ginkgo/core.py:69-70 | start, stop, start brings a stopped tree back to ready, because stopped is a source of start |
| ServiceProperties.StartUp | ginkgo/core.py:116-131 | An idle service whose do_start answers ready and whose children start ends ready, running pre_start, do_start and post_start around its children's hooks |
| ServiceProperties.SinglePhaseStartUp | ginkgo/core.py:118-131 | The same for BasicService |
| ServiceProperties.ContainerStartUp | ginkgo/service.py:44-53 | The same for Container, with do_start before the children |
| ServiceProperties.TwoPhaseStartUp | gservice/state.py:5-13 | The same for the two-phase start, with do_start after the children |
| ServiceProperties.PreStartAround | ginkgo/core.py:118-123 | A service runs pre_start before all of its children's hooks |
| ServiceProperties.PostStartAround | ginkgo/core.py:124-131 | A service runs post_start after all of its children's hooks |
| ServiceProperties.DoStartAround | ginkgo/core.py:119-129 | A service runs do_start before its children's hooks when it starts itself first and after them otherwise |
| ServiceProperties.StartPreOrder | ginkgo/core.py:118-123 | Starting an idle, eager tree runs pre_start in pre-order |
| ServiceProperties.StartKidsPreOrder | ginkgo/core.py:121-123 | The same for a list of children |
| ServiceProperties.StartPostOrder | ginkgo/core.py:121-131 | Starting an idle, eager tree runs post_start in post-order: a parent becomes ready after all its children |
| ServiceProperties.StartKidsPostOrder | ginkgo/core.py:121-123 | The same for a list of children |
| ServiceProperties.StartDoStartOrder | ginkgo/core.py:119-129 | do_start runs in pre-order at Containers and start_before services and in post-order elsewhere |
| ServiceProperties.StartKidsDoStartOrder | ginkgo/core.py:121-123 | The same for a list of children |
| ServiceProperties.StopLogShape | ginkgo/core.py:152-158 | A ready service whose children stop runs pre_stop, then the children's hooks, then do_stop and post_stop |
| ServiceProperties.StopDown | ginkgo/core.py:152-158 | Such a service ends stopped with the stopped children |
| ServiceProperties.OnePhaseStopDown | ginkgo/core.py:152-158 | The same for single-phase services and Containers |
| ServiceProperties.TwoPhaseStopDown | gservice/state.py:104-109 | The same for two-phase services, through stopping:services and stopping |
| ServiceProperties.StopHookOrder | ginkgo/core.py:148-158 | Stopping a fully ready tree runs do_stop and post_stop in reverse pre-order: last-added child first, each service after its children |
| ServiceProperties.StopAroundLast | ginkgo/core.py:156-158 | A ready service runs its own do_stop and post_stop after all of its children's |
| ServiceProperties.StopKidsHookOrder | ginkgo/core.py:154-155 | The children are stopped last-added first |
| ServiceProperties.StartWhenBusy | ginkgo/core.py:118 | start on a service that is not init or stopped raises a RuntimeWarning before anything runs and changes nothing |
| ServiceProperties.ServeWhenBusy | ginkgo/core.py:186-195 | serve_forever on a running service does nothing |
| ServiceProperties.StartKidsStopsAtRaise | ginkgo/core.py:121-123 | Once a child raises, the later children are neither started nor changed, and the loop reports that raise |
| ServiceProperties.StopKidsStopsAtRaise | ginkgo/core.py:154-155 | Once a child raises, the earlier children are neither stopped nor changed, and the loop reports that raise |
| ServiceProperties.TwoPhaseStartWithBusyChild | gservice/state.py:5-8 | The two-phase start raises on a first child that is already running and leaves the parent in starting:services |
| ServiceProperties.FirstKidBusy | gservice/state.py:6-7 | The loop of the two-phase start stops at such a child and changes nothing |
| ServiceProperties.TwoPhaseKidsRaised | gservice/state.py:5-8 | When the loop over the children raises, the two-phase start raises the same error in starting:services |
| ServiceProperties.DeferredStaysStarting | ginkgo/core.py:124-127 | A service whose do_start answers not-ready is left starting without post_start |
| ServiceProperties.StartBeforeIgnoresDefer | ginkgo/core.py:119-131 | With start_before the answer of do_start is ignored and the service ends ready |
| ServiceProperties.ContainerDeferredBlockingRaises | ginkgo/service.py:45-47 | A not-ready Container started blocking raises CannotWait(starting:services) after do_start and before any child |
| ServiceProperties.ContainerDeferredNonBlockingRaises | ginkgo/service.py:45-53 | Started without blocking it starts its children and then raises on ready from starting |
| ServiceProperties.StopSettles | ginkgo/core.py:148-158 | A stop that returns leaves the service init or stopped, and stopping again does nothing |
| ServiceProperties.StopLogWithin | ginkgo/core.py:148-158 | Every hook a stop runs belongs to the stopped subtree |
| ServiceProperties.StopKidsLogWithin | ginkgo/core.py:154-155 | The same for the loop over the children |
| ServiceProperties.StopOwnHooks | ginkgo/core.py:152-158 | A stopping service's own hooks are pre_stop, post_stop, and do_stop only if it was ready |
| ServiceProperties.StopAroundHooks | ginkgo/core.py:152-158 | The same, given what the children's loop did |
| ServiceProperties.OnePhaseStopHooks | ginkgo/core.py:152-158 | The same for single-phase services and Containers |
| ServiceProperties.TwoPhaseStopHooks | gservice/state.py:104-109 | The same for two-phase services |
| ServiceProperties.FireOnLog | ginkgo/util.py:144-146 | Firing an event logs at most that event's callback, run by the service itself |
| ServiceProperties.StopReadyRunsDoStop | ginkgo/core.py:152-157 | A ready service whose stop returns has run do_stop |
| ServiceProperties.DoStopOnlyIfReady | ginkgo/core.py:152-157 | A service runs do_stop only if it was ready, and a ready one whose stop returns has run it |
| ServiceProperties.ReloadRunsEveryService | ginkgo/core.py:170-180 | Reload runs only do_reload, once for every service of the tree |
| ServiceProperties.ReloadKidsRunsEveryService | ginkgo/core.py:171-173 | The same for a list of children |
| ServiceProperties.ReloadOrder | ginkgo/core.py:175-180 | With start_before everywhere reload runs in pre-order, without it in post-order |
| ServiceProperties.ReloadKidsOrder | ginkgo/core.py:171-173 | The same for a list of children |
| ServiceProperties.ParentAndChildStart | ginkgo/core.py:116-131 | A fresh parent with one fresh child logs the parent's pre_start, the child's three hooks, then the parent's do_start and post_start |
| ServiceProperties.OnlyChildStart | ginkgo/core.py:116-131 | The same for any names |
| ServiceProperties.FreshLeafStart | ginkgo/core.py:116-131 | A fresh leaf starts with pre_start, do_start, post_start and returns |
| ServiceProperties.ThreeChildrenStop | ginkgo/core.py:154-157 | A ready parent with children A, B, C added in that order runs do_stop for C, B, A, then itself |
| GlobalContexts.StackOf | ginkgo/util.py:216 | Computes `_singleton_stacks.get(name, [])` |
| GlobalContexts.Touch | ginkgo/util.py:204-207 | Computes the stacks once a push has created the class's stack, which it does before it reads the singleton |
| GlobalContexts.Push | ginkgo/util.py:202-209 | A push creates the class's stack if needed, saves the current singleton on it and installs the object; a missing attribute raises AttributeError after the stack was created; an unset singleton_attr does nothing |
| GlobalContexts.Pop | ginkgo/util.py:211-216 | A pop restores the top of the class's stack; an empty or missing stack raises IndexError and changes nothing; an unset singleton_attr does nothing |
| GlobalContexts.PushThenPop | ginkgo/util.py:202-216 | Entering then leaving a context restores the singleton and the stacks |
| GlobalContexts.PushAllState | ginkgo/util.py:202-209 | While contexts are entered, the singleton is the last object entered and the stack holds every replaced singleton in order |
| GlobalContexts.PushesThenPops | tests/test_util.py:28-44 | Nested contexts are left in LIFO order: n pushes then n pops restore singleton and stacks |
| GlobalContexts.PushElsewhere | ginkgo/util.py:202-209 | A push touches only its own class's stack and its own attribute |
| GlobalContexts.PopElsewhere | ginkgo/util.py:211-216 | So does a pop |
| GlobalContexts.IndependentContexts | tests/test_util.py:46-70 | Two classes with different names and attributes do not disturb each other |
| GlobalContexts.SharedNameSharesStack | ginkgo/util.py:205-208 | Two classes with the same `__name__` share one stack, so popping one can hand it the other's saved singleton |
| GlobalContexts.UnsetAttributeDoesNothing | ginkgo/util.py:194-204 | Without singleton_attr, push and pop change nothing |
| GlobalContexts.ContextRegistry.constructor | ginkgo/util.py:189-190 | No stacks exist at first |
| GlobalContexts.ContextRegistry.PushContext | ginkgo/util.py:202-209 | The in-place push does what Push says |
| GlobalContexts.ContextRegistry.PopContext | ginkgo/util.py:211-216 | The in-place pop does what Pop says |
| ConfigTree.Lower | ginkgo/config.py:47 | Lowercasing maps each character to its ASCII lowercase |
| ConfigTree.LowerFacts | ginkgo/config.py:47 | Lowercasing yields a lowercase string, leaves one unchanged and is idempotent |
| ConfigTree.LowerAppend | gservice/config.py:11 | Lowercasing a concatenation lowercases each part |
| ConfigTree.PyEqFacts | ginkgo/config.py:229 | Python 2's `==` on configuration values is an equivalence that equates exactly the same values and each bool with the int 1 or 0, so `True == 1` and `True != 2` |
| GinkgoConfig.StripDots | ginkgo/config.py:47 | lstrip(".") removes exactly the leading dots and keeps the rest |
| GinkgoConfig.NormalizePath | ginkgo/config.py:46-47 | A normalised path is lowercase without a leading dot, and a normal path is its own normal form |
| GinkgoConfig.NormalizeFacts | ginkgo/config.py:46-57 | Normalising is idempotent and ignores case and leading dots, so get and set are case-insensitive |
| GinkgoConfig.Get | ginkgo/config.py:49-51 | get returns the value stored under the normalised path, and the default exactly when nothing is stored there |
| GinkgoConfig.GetIgnoresSpelling | ginkgo/config.py:46-51 | get answers alike for a path, its lowercase form, the path behind a leading dot and its normal form |
| GinkgoConfig.SetValue | ginkgo/config.py:53-59 | set changes no other path and forces the path exactly when force is given |
| GinkgoConfig.SetThenGet | ginkgo/config.py:53-59 | A write that is let through is what get returns under any spelling of the path |
| GinkgoConfig.ForcedSticks | ginkgo/config.py:56 | An unforced write to a forced path changes nothing |
| GinkgoConfig.Writes | ginkgo/config.py:97-108 | Computes the calls `_load` makes to `set`, in order, for a list of items under a prefix |
| GinkgoConfig.ItemWrites | ginkgo/config.py:102-108 | Computes the calls for one item: none for a key starting with "_", one at `prefix.key` for a value, those of its items under `prefix.key` for a namespace |
| GinkgoConfig.SetAll | ginkgo/config.py:103-108 | Computes the store after an unforced `set` of every write in order |
| GinkgoConfig.Loaded | ginkgo/config.py:95-110 | Computes the store after `load(config_dict)` |
| GinkgoConfig.SetAllAppend | ginkgo/config.py:103-108 | Writing two batches in turn is writing them together |
| GinkgoConfig.SetAllSpec | ginkgo/config.py:95-110 | Loading never forces and never touches a forced path; every other path ends with the last value written to it or what it held |
| GinkgoConfig.PrivateKeysSkipped | ginkgo/config.py:102 | Items whose key starts with "_" contribute no write |
| GinkgoConfig.GroupAttr | ginkgo/config.py:144-153 | `Group.__getattr__` returns the setting stored at the exact normalised path; else a Group over that path iff some key lies under it; else None |
| GinkgoConfig.FirstComponent | ginkgo/config.py:165 | `split('.', 1)[0]` is a dot-free prefix that is the whole key or followed by a dot |
| GinkgoConfig.GroupOf | ginkgo/config.py:62-65 | group(path) gives no group exactly when the path is a setting, and otherwise a group over that very path |
| GinkgoConfig.GroupOfLookup | ginkgo/config.py:62-65 | An attribute `name` of group(path) is the setting stored at the normalised `path + "." + name`, else a sub-group over it when some key lies under it, else None |
| GinkgoConfig.GroupDocExample | ginkgo/config.py:130-134 | The class documentation's example: `c.group().foo` is the setting "foo" and `c.group("bar.baz").qux` is the setting "bar.baz.qux" |
| GinkgoConfig.ChildNames | ginkgo/config.py:158-168 | Computes the keys of `Group._dict()`: the first component of every key under the group's prefix, or of every key at the top level |
| GinkgoConfig.SetValueKeepsNormal | ginkgo/config.py:53-59 | set keeps every key of the store normal |
| GinkgoConfig.SetAllKeepsNormal | ginkgo/config.py:103-108 | So does every sequence of unforced sets, and hence load |
| GinkgoConfig.LoadedNamesResolve | ginkgo/config.py:95-110 | In a store filled by load, starting from one with normal keys, every name a group lists resolves to a setting or a sub-group, never to None |
| GinkgoConfig.ChildNamesResolve | ginkgo/config.py:158-168 | Every name a group lists resolves to a value or a sub-group, never to None |
| GinkgoConfig.RootChildResolves | ginkgo/config.py:158-168 | The same at the top level |
| GinkgoConfig.NestedChildResolves | ginkgo/config.py:158-168 | The same inside a named group |
| GinkgoConfig.ChangedAt | ginkgo/config.py:228-229 | Computes one reading of changed: true only after a first access, and only when the value differs from the recorded one by Python's `!=` |
| GinkgoConfig.ChangedTrace | ginkgo/config.py:223-229 | Gives one answer per reading when changed is read once with each value in turn |
| GinkgoConfig.ChangedTraceSpec | ginkgo/config.py:223-229 | changed is false on first access and afterwards true exactly when the value differs, by Python's `!=`, from the one seen before |
| GinkgoConfig.NumbersCompareByValue | ginkgo/config.py:229 | Reading 1, True, 1, 2 reports a change only at 2, because `True == 1` |
| GinkgoConfig.ObserveChanges | ginkgo/config.py:219-229 | A fresh setting whose path is set to each value in turn, with changed read after every write, reports exactly ChangedTrace of those values |
| GinkgoConfig.Config.constructor | ginkgo/config.py:41-43 | A new store has no settings and no forced paths |
| GinkgoConfig.Config.Set | ginkgo/config.py:53-59 | The in-place set does what SetValue says and keeps the keys normal |
| GinkgoConfig.Config.Load | ginkgo/config.py:95-110 | The in-place load writes, through unforced set, every non-private leaf at its dotted path in order, and keeps the keys normal |
| GinkgoConfig.Config.LoadItems | ginkgo/config.py:97-108 | The recursive `_load` does the same under a prefix |
| GinkgoConfig.Setting.constructor | ginkgo/config.py:205-211 | A new descriptor has observed nothing yet |
| GinkgoConfig.Setting.Changed | ginkgo/config.py:223-229 | changed records the current value and is true exactly when a previous value was seen and differs from it by Python's `!=` |
| FlatConfig.Writes | gservice/config.py:6-11 | Computes the registry writes of `load(context, basepath)`, in order |
| FlatConfig.ItemWrites | gservice/config.py:7-11 | Computes the writes for one item: a value under `(basepath + key).lower()`, a namespace loaded with prefix `key.` alone |
| FlatConfig.Apply | gservice/config.py:11 | Computes the registry after storing every write in order |
| FlatConfig.ApplyAppend | gservice/config.py:7-11 | Storing two batches in turn is storing them together |
| FlatConfig.ApplySpec | gservice/config.py:6-11 | Later loads overwrite earlier ones; keys nobody wrote keep their value |
| FlatConfig.WritesLowercase | gservice/config.py:11 | Every key load stores is lowercase |
| FlatConfig.ItemWritesLowercase | gevent_tools/config.py:9 | The same for one item |
| FlatConfig.SampleWrites | gevent_tools/config.py:24-33 | The sample's writes: top-level keys lowercased, section keys prefixed, and the nested key under `subsection.baz` without the outer `section2.` |
| FlatConfig.SampleLoad | gevent_tools/config.py:24-41 | After loading the sample the registry holds exactly five keys, `section1.foo` reading "bar" |
| FlatConfig.ChangedTrace | gservice/config.py:36-41 | Gives one answer per reading when changed is read once with each value in turn, from the recorded None |
| FlatConfig.ChangedTraceSpec | gservice/config.py:37-41 | changed is true exactly when the value differs, by Python's `!=`, from the previous read (None before the first), so an immediate repeat is false |
| FlatConfig.NumbersCompareByValue | gservice/config.py:38 | Reading 1, True, 1, 2 reports a change at the first read and at 2 only, because `True == 1` |
| FlatConfig.LoadOne | gevent_tools/config.py:4-9 | Loading a one-item context stores its value under the lowercased key and changes nothing else |
| FlatConfig.ObserveChanges | gevent_tools/tests/test_config.py:28-36 | An option with no default, read through `changed` after each `load({key: value})`, reports exactly ChangedTrace of the loaded values |
| FlatConfig.Registry.constructor | gservice/config.py:2 | The registry starts empty |
| FlatConfig.Registry.Load | gservice/config.py:6-11 | The in-place load stores each leaf under the lowercased joined key, a namespace with prefix `key.` only |
| FlatConfig.Setting.constructor | gservice/config.py:20-24 | The path is lowercased at construction and nothing is recorded yet |
| FlatConfig.Setting.Value | gservice/config.py:32-34 | The value is the registry entry for the path, or the default |
| FlatConfig.Setting.Changed | gservice/config.py:36-41 | changed is true iff the value differs from the recorded one by Python's `!=`; only a change is recorded, so the recorded value then equals the current one |
| FlatConfig.Setting.Assign | gevent_tools/config.py:20-21 | Assigning through an instance raises AttributeError; that nothing changes is carried by the method having no modifies clause, not by its ensures |
| LineProtocol.Strip | gevent_tools/util.py:27 | Computes `line.strip()`, removing whitespace at both ends |
| LineProtocol.Received | gevent_tools/util.py:24-29 | Computes the value `line` holds after one read: None for None and for an IOError, otherwise the text, stripped when asked |
| LineProtocol.Yields | gevent_tools/util.py:30-33 | Says whether that value is truthy, so that the loop yields it rather than breaking |
| LineProtocol.ReadLines | gevent_tools/util.py:25 | Computes the successive `readline()` results over a byte string: each line with its newline, the last one without if the data does not end in one, then "" |
| LineProtocol.StripLeftFacts | gevent_tools/util.py:27 | Left-stripping removes exactly the leading whitespace |
| LineProtocol.StripRightFacts | gevent_tools/util.py:27 | Right-stripping removes exactly the trailing whitespace |
| LineProtocol.StripFacts | gevent_tools/util.py:27 | A stripped line has no whitespace at either end, and is empty iff the line was all whitespace |
| LineProtocol.Lines | gevent_tools/util.py:23-33 | The generator yields at most one line per read |
| LineProtocol.LinesCons | gevent_tools/util.py:30-31 | One-step unfolding of Lines, used by Collect: a read that gives a non-empty line yields it and the loop goes on |
| LineProtocol.LinesStop | gevent_tools/util.py:32-33 | One-step unfolding of Lines, used by Collect: a read that gives None or an empty line, or fails, ends the stream |
| LineProtocol.StopAt | gevent_tools/util.py:23-33 | Every read before the stopping read yields, and the stopping read does not |
| LineProtocol.LinesSpec | gevent_tools/util.py:23-33 | The lines come out in read order, non-empty, one per read before the first None, empty line or IOError, and nothing after it |
| LineProtocol.Collect | gevent_tools/util.py:23-33 | The `while True` loop collects exactly the lines Lines says |
| LineProtocol.ReadOne | gevent_tools/util.py:24-29 | One read gives the text, stripped when asked, or None for None and for an IOError |
| LineProtocol.BlankLineEnds | gevent_tools/util.py:26-33 | With strip, a whitespace-only line ends the stream |
| LineProtocol.NextBreak | gevent_tools/util.py:25 | readline stops just after the first newline, or at the end of the data |
| LineProtocol.JoinedLinesRoundTrip | ginkgo/tests/test_line_protocol.py:21-51 | N plain lines joined by "\n" or "\r\n" come out as exactly those N lines when stripped |
| LineProtocol.VerbatimLines | ginkgo/tests/test_line_protocol.py:70-86 | Without strip, newline-terminated lines come out verbatim, a lone "\n" included |
| LineProtocol.StripSeparated | gevent_tools/util.py:26-27 | Stripping a plain line with its separator ("\n", "\r\n" or none) leaves the line |
| LineProtocol.StrippedLines | ginkgo/tests/test_line_protocol.py:53-67 | With strip, plain lines each sent with "\n" or "\r\n" come out as exactly those lines, without their separators |
| LineProtocol.LastLine | ginkgo/tests/test_line_protocol.py:6-18 | A single line without a newline comes out as itself |

## Left out

- Async managers, `spawn`/`spawn_later`, greenlets and threads. `Service.pre_init` and its runpy loading are left out too: they are concurrency and module loading. The lifecycle rules do not depend on them.
- Real blocking and timeouts. `wait` returns at once, so `start_timeout` and `ready_timeout` play no part. A service whose `do_start` answers not-ready stays "starting" in the model, because nothing else runs meanwhile to fire `ready`.
- User code inside the hooks. `do_start`, `do_stop`, `do_reload` and the lifecycle callbacks are recorded in the log and never raise, and a not-ready `do_start` answer is the flag `deferReady`. The engine itself (`StateMachine.Step`) does model raising callbacks.
- Services.Service.Start: the `__enter__`/`__exit__` pair of BasicService (ginkgo/core.py:197-202) is `start`/`stop` and is not modelled separately.
- Services.Service.Stop: the repository has no two-phase `stop`. For a two-phase service the model fires `stop_services`, stops the children, fires `services_stopped`, runs `do_stop` if it was ready, then fires `stopped`. This follows the two-phase diagram (gservice/state.py:65-95) and that table.
- Services.Service.TwoPhaseStart: it starts every child whatever its state, as the pseudo-code does (gservice/state.py:6-7). There is no skip list.
- StateMachine.Machine.Fire: gservice/state.py:19 uses an undefined `Event`, and gservice/state.py:45 formats an undefined `state`. The two-phase machine is modelled with the engine of ginkgo/util.py, that is, working signals and a CannotEnter raise that leaves the state unchanged.
- StateMachine.Machine.Wait: the signals are flags, and waiting does not suspend.
- Services.Service.AddService: the new child must share nothing with the tree it joins. So the model cannot add a service twice, add a service that another parent holds, or add an ancestor. Python would append any of these, and would then start and stop such a child once for each place it appears.
- Services.Service.RemoveService: it compares services by identity. Python's `list.remove` compares with `==`, which for services is identity unless a subclass overrides it.
- GinkgoConfig.Config: each object has its own settings and forced paths. In ginkgo/config.py, `_settings`, `_forced_settings` and `_descriptors` are class attributes shared by every `Config`. `load_module`, `load_file`, `reload_file`, `print_help`, `setting()` and the `_descriptors` list are left out: they are file and module loading, and printing.
- GinkgoConfig.Setting: monitored settings and `SettingProxy` are left out. They are attribute forwarding around a value, and the `changed` logic itself is modelled. A setting's value is `Get` of its path.
- GinkgoConfig.GroupAttr: it models `__getattr__` only. `Group` is a `collections.Mapping`, so a name that `Group` or `Mapping` defines (`get`, `keys`, `items`, `values`, the `iter*` methods, `_config`, `_name`, `_dict`) never reaches the store. For example, `group().keys` is the method even when a setting is called `keys`. `Group._dict` is modelled by the set of names it lists (`ChildNames`) and what each name resolves to. Building the dictionary and `__repr__` are left out.
- Nested configuration input is an ordered list of (key, node) items. Python's dict order plays that role, and the `classobj` type-name check becomes the `Group` constructor.
- FlatConfig: gservice's module-level `changed(obj, property)` helper looks descriptors up by reflection and is left out. `Setting.Changed` models the property it reads.
- FlatConfig.Setting.Assign: only the outcome is modelled. The registry does not change, which holds because the method has no effect.
- LineProtocol: the `makefile()` choice and the laziness of the generator are left out. The reads are a finite list, and a read past its end gives None.
- Integer widths play no part: no value in the core is bounded.
- ConfigTree.PyEqFacts: configuration values are None, bools, ints and strings. Tuples, floats, functions and other objects that a configuration file can hold are not modelled, and neither is their comparison (`1.0 == 1`, say). Among the modelled values, `!=` is Python 2's, with `True == 1` and `False == 0`.
