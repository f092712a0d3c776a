/** The live service objects: BasicService (ginkgo/core.py), Container
    (ginkgo/service.py) and the two-phase pseudo-code (gservice/state.py).
    Each service owns a state machine and a list of child services that
    it starts, stops and reloads.  Every operation is proved to do exactly
    what the functions of module ServiceTree say, on the tree of values
    the service stands for (`Model`); the hooks a subclass would override
    are recorded in the returned log. */
module Services {
  import opened Wrappers
  import opened StateMachine
  import opened Tables
  import opened ServiceTree
  import opened ServiceProperties

  /** The position of the first element of `xs` equal to `x`, or `|xs|`. */
  function FirstIndex<T(==)>(xs: seq<T>, x: T): (r: nat)
    ensures r <= |xs|
    ensures r < |xs| ==> xs[r] == x
    ensures forall k :: 0 <= k < r ==> xs[k] != x
    ensures r == |xs| <==> x !in xs
  {
    if xs == [] then 0
    else if xs[0] == x then 0
    else 1 + FirstIndex(xs[1..], x)
  }

  class Service {
    const name: string
    const kind: Kind
    /** `start_before`: run `do_start` before starting the children. */
    const startBefore: bool
    /** Whether `do_start` answers not-ready (returns `NOT_READY`). */
    const deferReady: bool
    /** `self.state`. */
    const machine: Machine
    /** `_children`, in the order they were added. */
    var children: seq<Service>

    ghost var Model: Tree
    ghost var Repr: set<object>

    /** The service and its children each own their machine and their
        subtree; no object is shared between two children; and `Model`
        tells the service's name, flags, current state and children. */
    ghost predicate Valid()
      reads this, Repr
      decreases Repr
    {
      && this in Repr && machine in Repr
      && machine.table == TableOf(kind) && machine.subject == LifecycleHooks && machine.Valid()
      && Model.name == name && Model.kind == kind
      && Model.startBefore == startBefore && Model.deferReady == deferReady
      && Model.state == machine.state
      && |Model.children| == |children|
      && (forall i :: 0 <= i < |children| ==>
            && children[i] in Repr && children[i].Repr <= Repr
            && this !in children[i].Repr && machine !in children[i].Repr
            && children[i].Valid()
            && Model.children[i] == children[i].Model)
      && (forall i, j :: 0 <= i < j < |children| ==> children[i].Repr !! children[j].Repr)
    }

    /** A fresh service in "init" with no children. `passthrough` chooses
        the machine's signals: real events when the service has an async
        manager, PassthroughEvents otherwise. */
    constructor (name: string, kind: Kind, startBefore: bool, deferReady: bool, passthrough: bool)
      ensures Valid() && fresh(Repr)
      ensures Model == Node(name, kind, startBefore, deferReady, "init", []) && children == []
    {
      this.name := name;
      this.kind := kind;
      this.startBefore := startBefore;
      this.deferReady := deferReady;
      var m := new Machine(TableOf(kind), LifecycleHooks, passthrough);
      machine := m;
      children := [];
      Model := Node(name, kind, startBefore, deferReady, m.state, []);
      Repr := {this, m};
    }

    /** The `ready` property. */
    function Ready(): (r: bool)
      requires Valid()
      reads this, Repr
      ensures r <==> Model.state == "ready"
    {
      machine.state == "ready"
    }

    /** `self.state(event)`, recording the callback it ran. */
    method FireHook(event: EventName) returns (log: seq<Entry>, r: Outcome)
      requires Valid()
      modifies this, machine
      ensures Valid() && Repr == old(Repr) && children == old(children)
      ensures Effect(Model, log, r) == FireOn(old(Model), event)
    {
      var res := machine.Fire(event);
      match res
      case Ok(cb) =>
        Model := Model.(state := machine.state);
        MachineMoved();
        log := if cb.Some? then [Entry(name, cb.value)] else [];
        r := Done;
      case Err(e) =>
        log := [];
        r := Raised(e);
    }

    /** After the service's own machine changed state and `Model` took
        the new state, the service is valid again. */
    twostate lemma MachineMoved()
      requires old(Valid()) && machine.Valid()
      requires children == old(children) && Repr == old(Repr)
      requires forall j :: 0 <= j < |children| ==> unchanged(old(children[j].Repr))
      requires Model == old(Model).(state := machine.state)
      ensures Valid()
    {
      forall j | 0 <= j < |children|
        ensures children[j].Valid() && Model.children[j] == children[j].Model
      {
        assert old(children[j].Valid());
      }
    }

    /** `start(block_until_ready)`, as the class of the service defines it. */
    method Start(block: bool) returns (log: seq<Entry>, r: Outcome)
      requires Valid()
      modifies Repr
      decreases Repr, 4
      ensures Valid() && Repr == old(Repr) && children == old(children)
      ensures Effect(Model, log, r) == StartTree(old(Model), block)
    {
      match kind
      case SinglePhaseService => log, r := BasicStart(block);
      case ContainerService => log, r := ContainerStart(block);
      case TwoPhaseService => log, r := TwoPhaseStart(block);
    }

    /** BasicService.start. */
    method BasicStart(block: bool) returns (log: seq<Entry>, r: Outcome)
      requires Valid() && kind == SinglePhaseService
      modifies Repr
      decreases Repr, 3
      ensures Valid() && Repr == old(Repr) && children == old(children)
      ensures Effect(Model, log, r) == StartTree(old(Model), block)
    {
      ghost var t := Model;
      assert StartTree(t, block) == StartSinglePhase(t, block);
      ghost var f := FireOn(t, "start");
      log, r := FireHook("start");
      if r.Raised? {
        return;
      }
      ghost var early := if t.startBefore then [Entry(t.name, "do_start")] else [];
      if startBefore {
        log := log + [Entry(name, "do_start")];
      }
      assert log == f.log + early;
      ghost var k := StartKids(t.children, block, SkipOf(kind));
      var klog, kr := StartChildren(block, SkipOf(kind));
      ghost var t2 := f.value.(children := k.value);
      assert Model == t2;
      log := log + klog;
      assert log == f.log + early + k.log;
      if kr.Raised? {
        return log, kr;
      }
      if !startBefore {
        log := log + [Entry(name, "do_start")];
        if deferReady {
          if block {
            var w := machine.Wait("ready");
            assert w.Ok?;
          }
          return log, Done;
        }
      }
      var glog, gr := FireHook("ready");
      log := log + glog;
      r := gr;
    }

    /** Container.start. */
    method ContainerStart(block: bool) returns (log: seq<Entry>, r: Outcome)
      requires Valid() && kind == ContainerService
      modifies Repr
      decreases Repr, 3
      ensures Valid() && Repr == old(Repr) && children == old(children)
      ensures Effect(Model, log, r) == StartTree(old(Model), block)
    {
      ghost var t := Model;
      ghost var f := FireOn(t, "start");
      log, r := FireHook("start");
      if r.Raised? {
        assert StartTree(t, block) == f;
        return;
      }
      log := log + [Entry(name, "do_start")];
      ghost var s := if !t.deferReady then FireOn(f.value, "started")
                     else if block then WaitOn(f.value, "starting:services")
                     else Effect(f.value, [], Done);
      if !deferReady {
        var slog, sr := FireHook("started");
        if sr.Raised? {
          assert StartTree(t, block) == After(log, s);
          return log + slog, sr;
        }
        log := log + slog;
      } else if block {
        var w := machine.Wait("starting:services");
        if w.Err? {
          assert StartTree(t, block) == After(log, s);
          return log, Raised(w.error);
        }
      }
      assert Model == s.value && log == f.log + [Entry(name, "do_start")] + s.log;
      ghost var k := StartKids(t.children, block, SkipOf(kind));
      var klog, kr := StartChildren(block, SkipOf(kind));
      assert Model == s.value.(children := k.value);
      log := log + klog;
      if kr.Raised? {
        assert StartTree(t, block) == Effect(Model, log, kr);
        return log, kr;
      }
      ghost var g := FireOn(Model, "ready");
      assert StartTree(t, block) == After(log, g);
      var glog, gr := FireHook("ready");
      log := log + glog;
      r := gr;
    }

    /** The two-phase start. */
    method TwoPhaseStart(block: bool) returns (log: seq<Entry>, r: Outcome)
      requires Valid() && kind == TwoPhaseService
      modifies Repr
      decreases Repr, 3
      ensures Valid() && Repr == old(Repr) && children == old(children)
      ensures Effect(Model, log, r) == StartTree(old(Model), block)
    {
      ghost var t := Model;
      ghost var f := FireOn(t, "start_services");
      log, r := FireHook("start_services");
      if r.Raised? {
        assert StartTree(t, block) == f;
        return;
      }
      ghost var k := StartKids(t.children, block, SkipOf(kind));
      var klog, kr := StartChildren(block, SkipOf(kind));
      assert Model == f.value.(children := k.value);
      log := log + klog;
      if kr.Raised? {
        assert StartTree(t, block) == Effect(Model, log, kr);
        return log, kr;
      }
      ghost var g := FireOn(Model, "services_started");
      var slog, sr := FireHook("services_started");
      log := log + slog;
      if sr.Raised? {
        assert StartTree(t, block) == Effect(Model, log, sr);
        return log, sr;
      }
      log := log + [Entry(name, "do_start")];
      if deferReady {
        if block {
          var w := machine.Wait("ready");
          assert w.Ok?;
          assert StartTree(t, block) == After(log, WaitOn(Model, "ready"));
        } else {
          assert StartTree(t, block) == Effect(Model, log, Done);
        }
        return log, Done;
      }
      ghost var h := FireOn(Model, "ready");
      assert StartTree(t, block) == After(log, h);
      var glog, gr := FireHook("ready");
      log := log + glog;
      r := gr;
    }

    /** The loop `for child in self._children`, starting each child whose
        state is not in `skip`, until one raises. */
    method StartChildren(block: bool, skip: seq<State>) returns (log: seq<Entry>, r: Outcome)
      requires Valid()
      modifies Repr
      decreases Repr, 2
      ensures Valid() && Repr == old(Repr) && children == old(children)
      ensures var k := StartKids(old(Model).children, block, skip);
              Model == old(Model).(children := k.value) && log == k.log && r == k.outcome
    {
      ghost var kids := Model.children;
      log := [];
      var i := 0;
      while i < |children|
        invariant 0 <= i <= |children| == |kids|
        invariant Valid() && Repr == old(Repr) && children == old(children)
        invariant Model == old(Model).(children := Model.children)
        invariant StartedUpTo(kids, i, block, skip, log, Model.children, Done)
      {
        log, r := StartTurn(i, block, skip, kids, log);
        if r.Raised? {
          return;
        }
        i := i + 1;
      }
      StartedUpToAll(kids, block, skip, log, Model.children);
      r := Done;
    }

    /** One turn of that loop: the child at position `i` is started unless
        its state is in `skip`; `before` is the log so far. */
    method StartTurn(i: nat, block: bool, skip: seq<State>, ghost kids: seq<Tree>, before: seq<Entry>)
      returns (log: seq<Entry>, r: Outcome)
      requires Valid() && i < |children| && |kids| == |children|
      requires StartedUpTo(kids, i, block, skip, before, Model.children, Done)
      modifies Repr
      decreases Repr, 1
      ensures Valid() && Repr == old(Repr) && children == old(children)
      ensures Model == old(Model).(children := Model.children)
      ensures r == Done ==> StartedUpTo(kids, i + 1, block, skip, log, Model.children, Done)
      ensures r.Raised? ==> StartKids(kids, block, skip) == Effect(Model.children, log, r)
    {
      StartedUpToNext(kids, i, block, skip, before, Model.children);
      var clog;
      if children[i].machine.state !in skip {
        clog, r := StartChildAt(i, block);
      } else {
        clog, r := [], Done;
      }
      log := before + clog;
      if r.Raised? {
        StartedUpToRaised(kids, i + 1, block, skip, log, Model.children, r);
      }
    }

    /** `child.start(block_until_ready)` for the child at position `i`:
        only that child's subtree changes. */
    method StartChildAt(i: nat, block: bool) returns (log: seq<Entry>, r: Outcome)
      requires Valid() && i < |children|
      modifies Repr
      decreases Repr, 0
      ensures Valid() && Repr == old(Repr) && children == old(children)
      ensures var c := StartTree(old(Model).children[i], block);
              Model == old(Model).(children := old(Model).children[i := c.value]) &&
              log == c.log && r == c.outcome
    {
      var child := children[i];
      assert child.Repr < Repr;
      log, r := child.Start(block);
      Model := Model.(children := Model.children[i := child.Model]);
      ChildUpdated(i);
    }

    /** After the child at position `i` changed inside its own subtree
        and the parent's `Model` took the child's new model, the parent
        is valid again. */
    twostate lemma ChildUpdated(i: nat)
      requires old(Valid()) && i < |old(children)|
      requires children == old(children) && Repr == old(Repr)
      requires unchanged(machine)
      requires forall j :: 0 <= j < |children| && j != i ==> unchanged(old(children[j].Repr))
      requires children[i].Valid() && children[i].Repr == old(children[i].Repr)
      requires Model == old(Model).(children := old(Model).children[i := children[i].Model])
      ensures Valid()
    {
      forall j | 0 <= j < |children| && j != i
        ensures children[j].Valid() && Model.children[j] == children[j].Model
      {
        assert old(children[j].Valid());
      }
    }

    /** BasicService.stop (the two-phase service also fires
        `services_stopped` after its children). */
    method Stop() returns (log: seq<Entry>, r: Outcome)
      requires Valid()
      modifies Repr
      decreases Repr, 3
      ensures Valid() && Repr == old(Repr) && children == old(children)
      ensures Effect(Model, log, r) == StopTree(old(Model))
    {
      ghost var t := Model;
      if machine.state in ["init", "stopped"] {
        return [], Done;
      }
      var wasReady := Ready();
      ghost var f := FireOn(t, StopEvent(kind));
      log, r := FireHook(StopEvent(kind));
      if r.Raised? {
        return;
      }
      ghost var k := StopKids(t.children);
      ghost var t2 := f.value.(children := k.value);
      var klog, kr := StopChildren();
      assert Model == t2;
      log := log + klog;
      if kr.Raised? {
        return log, kr;
      }
      ghost var m := if kind == TwoPhaseService then FireOn(t2, "services_stopped") else Effect(t2, [], Done);
      if kind == TwoPhaseService {
        var mlog, mr := FireHook("services_stopped");
        log := log + mlog;
        if mr.Raised? {
          return log, mr;
        }
      } else {
        log := log + [];
      }
      assert Model == m.value && log == f.log + k.log + m.log;
      if wasReady {
        log := log + [Entry(name, "do_stop")];
      }
      var glog, gr := FireHook("stopped");
      log := log + glog;
      r := gr;
    }

    /** The loop `for child in reversed(self._children)`, until one raises. */
    method StopChildren() returns (log: seq<Entry>, r: Outcome)
      requires Valid()
      modifies Repr
      decreases Repr, 2
      ensures Valid() && Repr == old(Repr) && children == old(children)
      ensures var k := StopKids(old(Model).children);
              Model == old(Model).(children := k.value) && log == k.log && r == k.outcome
    {
      ghost var kids := Model.children;
      log := [];
      var i := |children|;
      StoppedFromNone(kids);
      while i > 0
        invariant 0 <= i <= |children| == |kids|
        invariant Valid() && Repr == old(Repr) && children == old(children)
        invariant Model == old(Model).(children := Model.children)
        invariant StoppedFrom(kids, i, log, Model.children, Done)
      {
        log, r := StopTurn(i, kids, log);
        if r.Raised? {
          return;
        }
        i := i - 1;
      }
      StoppedFromAll(kids, log, Model.children);
      r := Done;
    }

    /** One turn of that loop, once the children from position `i` on are
        stopped: the child at position `i - 1` is stopped; `before` is the
        log so far. */
    method StopTurn(i: nat, ghost kids: seq<Tree>, before: seq<Entry>) returns (log: seq<Entry>, r: Outcome)
      requires Valid() && 0 < i <= |children| && |kids| == |children|
      requires StoppedFrom(kids, i, before, Model.children, Done)
      modifies Repr
      decreases Repr, 1
      ensures Valid() && Repr == old(Repr) && children == old(children)
      ensures Model == old(Model).(children := Model.children)
      ensures r == Done ==> StoppedFrom(kids, i - 1, log, Model.children, Done)
      ensures r.Raised? ==> StopKids(kids) == Effect(Model.children, log, r)
    {
      StoppedFromNext(kids, i, before, Model.children);
      var clog;
      clog, r := StopChildAt(i - 1);
      log := before + clog;
      if r.Raised? {
        StoppedFromRaised(kids, i - 1, log, Model.children, r);
      }
    }

    /** `child.stop()` for the child at position `i`: only that child's
        subtree changes. */
    method StopChildAt(i: nat) returns (log: seq<Entry>, r: Outcome)
      requires Valid() && i < |children|
      modifies Repr
      decreases Repr, 0
      ensures Valid() && Repr == old(Repr) && children == old(children)
      ensures var c := StopTree(old(Model).children[i]);
              Model == old(Model).(children := old(Model).children[i := c.value]) &&
              log == c.log && r == c.outcome
    {
      var child := children[i];
      assert child.Repr < Repr;
      log, r := child.Stop();
      Model := Model.(children := Model.children[i := child.Model]);
      ChildUpdated(i);
    }

    /** BasicService.reload: nothing changes but the hooks that run. */
    method Reload() returns (log: seq<Entry>)
      requires Valid()
      decreases Repr, 1
      ensures log == ReloadTree(Model)
    {
      var klog := ReloadChildren();
      if startBefore {
        log := [Entry(name, "do_reload")] + klog;
      } else {
        log := klog + [Entry(name, "do_reload")];
      }
    }

    method ReloadChildren() returns (log: seq<Entry>)
      requires Valid()
      decreases Repr, 0
      ensures log == ReloadKids(Model.children)
    {
      log := [];
      var i := 0;
      while i < |children|
        invariant 0 <= i <= |children|
        invariant log == ReloadKids(Model.children[..i])
      {
        assert Model.children[..i + 1][..i] == Model.children[..i];
        var clog := children[i].Reload();
        log := log + clog;
        i := i + 1;
      }
      assert Model.children[..i] == Model.children;
    }

    /** serve_forever: start (blocking), swallowing a RuntimeWarning, then
        wait for "stopped", which every service table allows. */
    method ServeForever() returns (log: seq<Entry>, r: Outcome)
      requires Valid()
      modifies Repr
      ensures Valid() && Repr == old(Repr) && children == old(children)
      ensures Effect(Model, log, r) == ServeTree(old(Model))
    {
      log, r := Start(true);
      if r.Raised? && r.error.IsRuntimeWarning() {
        r := Done;
      }
      var w := machine.Wait("stopped");
      assert w.Ok?;
    }

    /** The `require_ready` guard: the wait is attempted and its errors
        ignored; the call goes ahead only when the service is ready. */
    method RequireReady() returns (r: Outcome)
      requires Valid()
      ensures r == Done <==> Model.state == "ready"
      ensures r.Raised? ==> r.error == NotReady
    {
      var w := machine.Wait("ready");
      if Ready() {
        r := Done;
      } else {
        r := Raised(NotReady);
      }
    }

    /** add_service: append a child that shares nothing with this tree. */
    method AddService(s: Service)
      requires Valid() && s.Valid() && Repr !! s.Repr
      modifies this
      ensures Valid() && Repr == old(Repr) + s.Repr
      ensures children == old(children) + [s]
      ensures Model == old(Model).(children := old(Model).children + [s.Model])
    {
      children := children + [s];
      Model := Model.(children := Model.children + [s.Model]);
      Repr := Repr + s.Repr;
    }

    /** After the child at position `i` left the list of children, `Model`
        and the footprint, the service is valid again. */
    twostate lemma ChildRemoved(i: nat)
      requires old(Valid()) && i < |old(children)|
      requires children == old(children)[..i] + old(children)[i + 1..]
      requires Repr == old(Repr) - old(children[i].Repr)
      requires unchanged(machine)
      requires forall j :: 0 <= j < |old(children)| ==> unchanged(old(children[j].Repr))
      requires Model == old(Model).(children := old(Model).children[..i] + old(Model).children[i + 1..])
      ensures Valid()
    {
      forall j | 0 <= j < |children|
        ensures var k := if j < i then j else j + 1;
                children[j] == old(children[k]) && Model.children[j] == old(Model.children[k])
      {
      }
      forall j | 0 <= j < |children|
        ensures children[j].Valid() && Model.children[j] == children[j].Model
      {
        var k := if j < i then j else j + 1;
        assert old(children[k].Valid());
        assert old(children[k].Repr) !! old(children[i].Repr);
      }
    }

    /** remove_service: `list.remove` drops the first occurrence of the
        child, and raises ValueError when it is not a child.  The removed
        child keeps its state and leaves this service's footprint, so what
        this service does later cannot touch it. */
    method RemoveService(s: Service) returns (r: Outcome)
      requires Valid()
      modifies this
      ensures Valid()
      ensures var i := FirstIndex(old(children), s);
              && (r == Done <==> s in old(children))
              && (r.Raised? ==> r.error == NotAChild && children == old(children) && Model == old(Model) &&
                                Repr == old(Repr))
              && (r == Done ==>
                    children == old(children)[..i] + old(children)[i + 1..] &&
                    Model == old(Model).(children := old(Model).children[..i] + old(Model).children[i + 1..]) &&
                    Repr == old(Repr) - s.Repr && s.Repr <= old(Repr) && this !in s.Repr)
    {
      var i := 0;
      while i < |children| && children[i] != s
        invariant 0 <= i <= |children|
        invariant forall k :: 0 <= k < i ==> children[k] != s
      {
        i := i + 1;
      }
      if i == |children| {
        return Raised(NotAChild);
      }
      Repr := Repr - children[i].Repr;
      children := children[..i] + children[i + 1..];
      Model := Model.(children := Model.children[..i] + Model.children[i + 1..]);
      ChildRemoved(i);
      r := Done;
    }
  }

  /** A child removed from a running parent is not stopped with it: after
      `remove_service` and the parent's `stop`, the removed child is still
      valid and in the state it had, "ready" stays "ready". */
  method RemovedChildStillRuns(p: Service, c: Service) returns (r: Outcome)
    requires p.Valid() && c in p.children
    modifies p.Repr
    ensures c.Valid() && c.Model == old(c.Model) && c.machine.state == old(c.machine.state)
    ensures c.Ready() <==> old(c.Model.state) == "ready"
  {
    assert c.Valid() && c.Repr <= p.Repr;
    var removed := p.RemoveService(c);
    var log;
    log, r := p.Stop();
  }
}
