/** What the start, stop and reload rules of module ServiceTree guarantee. */
module ServiceProperties {
  import opened Wrappers
  import opened StateMachine
  import opened Tables
  import opened ServiceTree

  // ----- helpers about logs and traversals -----

  lemma {:induction false} HookNamesAppend(a: seq<Entry>, b: seq<Entry>, hook: string)
    ensures HookNames(a + b, hook) == HookNames(a, hook) + HookNames(b, hook)
    decreases |a|
  {
    if a == [] {
      assert a + b == b;
    } else {
      assert (a + b)[0] == a[0];
      assert (a + b)[1..] == a[1..] + b;
      HookNamesAppend(a[1..], b, hook);
      var head := if a[0].hook == hook then [a[0].service] else [];
      calc {
        HookNames(a + b, hook);
        head + HookNames(a[1..] + b, hook);
        head + (HookNames(a[1..], hook) + HookNames(b, hook));
        (head + HookNames(a[1..], hook)) + HookNames(b, hook);
      }
    }
  }

  lemma {:induction false} ReverseAppend<T>(a: seq<T>, b: seq<T>)
    ensures Reverse(a + b) == Reverse(b) + Reverse(a)
    decreases |a|
  {
    if a == [] {
      assert a + b == b;
    } else {
      assert (a + b)[0] == a[0];
      assert (a + b)[1..] == a[1..] + b;
      ReverseAppend(a[1..], b);
    }
  }

  /** Pre-order of a child list, split at its first child. */
  lemma PreKidsFirst(kids: seq<Tree>)
    requires kids != []
    ensures PreKids(kids) == Preorder(kids[0]) + PreKids(kids[1..])
  {
    PreKidsAppend([kids[0]], kids[1..]);
    assert [kids[0]] + kids[1..] == kids;
    assert [kids[0]][..0] == [];
  }

  /** Pre-order of a child list is the pre-orders of its parts. */
  lemma {:induction false} PreKidsAppend(a: seq<Tree>, b: seq<Tree>)
    ensures PreKids(a + b) == PreKids(a) + PreKids(b)
    decreases |b|
  {
    if b == [] {
      assert a + b == a;
    } else {
      var n := |b| - 1;
      var ab := a + b;
      assert ab[..|ab| - 1] == a + b[..n];
      assert ab[|ab| - 1] == b[n];
      PreKidsAppend(a, b[..n]);
      calc {
        PreKids(ab);
        PreKids(a + b[..n]) + Preorder(b[n]);
        (PreKids(a) + PreKids(b[..n])) + Preorder(b[n]);
        PreKids(a) + (PreKids(b[..n]) + Preorder(b[n]));
        PreKids(a) + PreKids(b);
      }
    }
  }

  lemma AllInWeaken(t: Tree, small: set<State>, large: set<State>)
    requires AllIn(t, small) && small <= large
    ensures AllIn(t, large)
    decreases t
  {
    forall i | 0 <= i < |t.children|
      ensures AllIn(t.children[i], large)
    {
      AllInWeaken(t.children[i], small, large);
    }
  }

  // ----- start from a fully stopped tree -----

  /** Starting a tree in which every service is "init" or "stopped" and
      every `do_start` answers ready succeeds and leaves every service
      "ready". */
  lemma {:induction false} StartFromAllDown(t: Tree, block: bool)
    requires AllIn(t, {"init", "stopped"}) && Eager(t)
    ensures StartTree(t, block).outcome == Done
    ensures AllIn(StartTree(t, block).value, {"ready"}) && Eager(StartTree(t, block).value)
    decreases t, 1
  {
    StartKidsFromAllDown(t.children, block, SkipOf(t.kind));
    StartUp(t, block);
  }

  lemma {:induction false} StartKidsFromAllDown(kids: seq<Tree>, block: bool, skip: seq<State>)
    requires forall i :: 0 <= i < |kids| ==> AllIn(kids[i], {"init", "stopped"}) && Eager(kids[i])
    requires "init" !in skip && "stopped" !in skip
    ensures StartKids(kids, block, skip).outcome == Done
    ensures forall i :: 0 <= i < |kids| ==>
              AllIn(StartKids(kids, block, skip).value[i], {"ready"}) &&
              Eager(StartKids(kids, block, skip).value[i])
    decreases kids, 0
  {
    if kids != [] {
      var n := |kids| - 1;
      StartKidsFromAllDown(kids[..n], block, skip);
      StartFromAllDown(kids[n], block);
      var k, c := StartKids(kids[..n], block, skip), StartTree(kids[n], block);
      assert StartKids(kids, block, skip) == Effect(k.value + [c.value], k.log + c.log, c.outcome);
      forall i | 0 <= i < |kids|
        ensures AllIn((k.value + [c.value])[i], {"ready"}) && Eager((k.value + [c.value])[i])
      {
        if i < n {
          assert (k.value + [c.value])[i] == k.value[i];
        }
      }
    }
  }

  // ----- stop from a fully ready tree -----

  /** Stopping a tree in which every service is "ready" succeeds and leaves
      every service "stopped". */
  lemma {:induction false} StopFromAllReady(t: Tree)
    requires AllIn(t, {"ready"})
    ensures StopTree(t).outcome == Done && AllIn(StopTree(t).value, {"stopped"})
    ensures Eager(t) ==> Eager(StopTree(t).value)
    decreases t, 1
  {
    StopKidsFromAllReady(t.children);
    StopDown(t, StopKids(t.children));
  }

  lemma {:induction false} StopKidsFromAllReady(kids: seq<Tree>)
    requires forall i :: 0 <= i < |kids| ==> AllIn(kids[i], {"ready"})
    ensures StopKids(kids).outcome == Done
    ensures forall i :: 0 <= i < |kids| ==> AllIn(StopKids(kids).value[i], {"stopped"})
    ensures forall i :: 0 <= i < |kids| ==> Eager(kids[i]) ==> Eager(StopKids(kids).value[i])
    decreases kids, 0
  {
    if kids != [] {
      StopKidsFromAllReady(kids[1..]);
      StopFromAllReady(kids[0]);
      var r := StopKids(kids);
      forall i | 0 <= i < |kids|
        ensures AllIn(r.value[i], {"stopped"}) && (Eager(kids[i]) ==> Eager(r.value[i]))
      {
        if i > 0 {
          assert r.value[i] == StopKids(kids[1..]).value[i - 1];
          assert kids[i] == kids[1..][i - 1];
        }
      }
    }
  }

  /** The lifecycle is reusable: start, stop and start again brings a whole
      tree back to "ready", because "stopped" is a source of the start event. */
  lemma StartStopStart(t: Tree, block: bool)
    requires AllIn(t, {"init", "stopped"}) && Eager(t)
    ensures var up := StartTree(t, block);
            var down := StopTree(up.value);
            var again := StartTree(down.value, block);
            up.outcome == Done && down.outcome == Done && again.outcome == Done &&
            AllIn(down.value, {"stopped"}) && AllIn(again.value, {"ready"})
  {
    StartFromAllDown(t, block);
    var up := StartTree(t, block);
    StopFromAllReady(up.value);
    var down := StopTree(up.value);
    AllInWeaken(down.value, {"stopped"}, {"init", "stopped"});
    StartFromAllDown(down.value, block);
  }

  lemma HookNamesSandwich(x: seq<Entry>, mid: seq<Entry>, y: seq<Entry>, hook: string)
    ensures HookNames(x + mid + y, hook) == HookNames(x, hook) + HookNames(mid, hook) + HookNames(y, hook)
  {
    HookNamesAppend(x + mid, y, hook);
    HookNamesAppend(x, mid, hook);
  }

  // ----- the order in which hooks run -----

  /** A service in "init" or "stopped" whose `do_start` answers ready and
      whose children all start: it ends "ready" with the started children,
      having run its hooks around theirs. */
  lemma StartUp(t: Tree, block: bool)
    requires t.state in {"init", "stopped"} && !t.deferReady
    requires StartKids(t.children, block, SkipOf(t.kind)).outcome == Done
    ensures var k := StartKids(t.children, block, SkipOf(t.kind));
            StartTree(t, block) == Effect(t.(state := "ready", children := k.value), StartShape(t, k.log), Done)
  {
    var k := StartKids(t.children, block, SkipOf(t.kind));
    match t.kind
    case SinglePhaseService => SinglePhaseStartUp(t, block, k);
    case ContainerService => ContainerStartUp(t, block, k);
    case TwoPhaseService => TwoPhaseStartUp(t, block, k);
  }

  lemma SinglePhaseStartUp(t: Tree, block: bool, k: Effect<seq<Tree>>)
    requires t.kind == SinglePhaseService && t.state in {"init", "stopped"} && !t.deferReady
    requires k.outcome == Done
    ensures SinglePhaseAround(t, block, k) ==
              Effect(t.(state := "ready", children := k.value), StartShape(t, k.log), Done)
  {
    SinglePhaseMoves(t.state, "start");
    SinglePhaseMoves("starting", "ready");
    var f := FireOn(t, "start");
    assert f == Effect(t.(state := "starting"), [Entry(t.name, "pre_start")], Done);
    var t2 := f.value.(children := k.value);
    assert FireOn(t2, "ready") == Effect(t2.(state := "ready"), [Entry(t.name, "post_start")], Done);
  }

  lemma ContainerStartUp(t: Tree, block: bool, k: Effect<seq<Tree>>)
    requires t.kind == ContainerService && t.state in {"init", "stopped"} && !t.deferReady
    requires k.outcome == Done
    ensures ContainerAround(t, block, k) ==
              Effect(t.(state := "ready", children := k.value), StartShape(t, k.log), Done)
  {
    ContainerMoves(t.state, "start");
    ContainerMoves("starting", "started");
    ContainerMoves("starting:services", "ready");
    var f := FireOn(t, "start");
    assert f == Effect(t.(state := "starting"), [Entry(t.name, "pre_start")], Done);
    var st := FireOn(f.value, "started");
    assert st == Effect(t.(state := "starting:services"), [], Done);
    var t2 := st.value.(children := k.value);
    assert FireOn(t2, "ready") == Effect(t2.(state := "ready"), [Entry(t.name, "post_start")], Done);
  }

  lemma TwoPhaseStartUp(t: Tree, block: bool, k: Effect<seq<Tree>>)
    requires t.kind == TwoPhaseService && t.state in {"init", "stopped"} && !t.deferReady
    requires k.outcome == Done
    ensures TwoPhaseAround(t, block, k) ==
              Effect(t.(state := "ready", children := k.value), StartShape(t, k.log), Done)
  {
    TwoPhaseMoves(t.state, "start_services");
    TwoPhaseMoves("starting:services", "services_started");
    TwoPhaseMoves("starting", "ready");
    var f := FireOn(t, "start_services");
    assert f == Effect(t.(state := "starting:services"), [Entry(t.name, "pre_start")], Done);
    var t2 := f.value.(children := k.value);
    var g := FireOn(t2, "services_started");
    assert g == Effect(t2.(state := "starting"), [], Done);
    assert FireOn(g.value, "ready") == Effect(t2.(state := "ready"), [Entry(t.name, "post_start")], Done);
  }

  /** The services of a log of two entries that ran `hook`. */
  lemma HookNamesPair(x: Entry, y: Entry, hook: string)
    ensures HookNames([x, y], hook) ==
              (if x.hook == hook then [x.service] else []) + (if y.hook == hook then [y.service] else [])
  {
    assert [x, y][1..] == [y];
    assert [y][1..] == [];
    assert HookNames([y], hook) == (if y.hook == hook then [y.service] else []) + HookNames([], hook);
  }

  /** The services of a log of one entry that ran `hook`. */
  lemma HookNamesSingle(x: Entry, hook: string)
    ensures HookNames([x], hook) == if x.hook == hook then [x.service] else []
  {
    assert [x][1..] == [];
  }

  /** The log of one service's start around the log `mid` of its children's. */
  function StartShape(t: Tree, mid: seq<Entry>): seq<Entry>
  {
    var pre, go, post := Entry(t.name, "pre_start"), Entry(t.name, "do_start"), Entry(t.name, "post_start");
    if StartsSelfFirst(t) then [pre, go] + mid + [post] else [pre] + mid + [go, post]
  }

  /** Around its children's starts a service runs `pre_start` first. */
  lemma PreStartAround(t: Tree, mid: seq<Entry>)
    ensures HookNames(StartShape(t, mid), "pre_start") == [t.name] + HookNames(mid, "pre_start")
  {
    var pre, go, post := Entry(t.name, "pre_start"), Entry(t.name, "do_start"), Entry(t.name, "post_start");
    if StartsSelfFirst(t) {
      HookNamesSandwich([pre, go], mid, [post], "pre_start");
      HookNamesPair(pre, go, "pre_start");
      HookNamesSingle(post, "pre_start");
    } else {
      HookNamesSandwich([pre], mid, [go, post], "pre_start");
      HookNamesSingle(pre, "pre_start");
      HookNamesPair(go, post, "pre_start");
    }
  }


  /** Around its children's starts a service runs `post_start` last. */
  lemma PostStartAround(t: Tree, mid: seq<Entry>)
    ensures HookNames(StartShape(t, mid), "post_start") == HookNames(mid, "post_start") + [t.name]
  {
    var pre, go, post := Entry(t.name, "pre_start"), Entry(t.name, "do_start"), Entry(t.name, "post_start");
    if StartsSelfFirst(t) {
      HookNamesSandwich([pre, go], mid, [post], "post_start");
      HookNamesPair(pre, go, "post_start");
      HookNamesSingle(post, "post_start");
    } else {
      HookNamesSandwich([pre], mid, [go, post], "post_start");
      HookNamesSingle(pre, "post_start");
      HookNamesPair(go, post, "post_start");
    }
  }


  /** Around its children's starts a service runs `do_start` first when it
      starts itself first, last otherwise. */
  lemma DoStartAround(t: Tree, mid: seq<Entry>)
    ensures HookNames(StartShape(t, mid), "do_start") ==
              if StartsSelfFirst(t) then [t.name] + HookNames(mid, "do_start")
              else HookNames(mid, "do_start") + [t.name]
  {
    var pre, go, post := Entry(t.name, "pre_start"), Entry(t.name, "do_start"), Entry(t.name, "post_start");
    if StartsSelfFirst(t) {
      HookNamesSandwich([pre, go], mid, [post], "do_start");
      HookNamesPair(pre, go, "do_start");
      HookNamesSingle(post, "do_start");
    } else {
      HookNamesSandwich([pre], mid, [go, post], "do_start");
      HookNamesSingle(pre, "do_start");
      HookNamesPair(go, post, "do_start");
    }
  }


  /** Starting a fully stopped, eager tree runs `pre_start` in pre-order:
      every service fires `start` before any of its children. */
  lemma {:induction false} StartPreOrder(t: Tree, block: bool)
    requires AllIn(t, {"init", "stopped"}) && Eager(t)
    ensures HookNames(StartTree(t, block).log, "pre_start") == Preorder(t)
    decreases t, 1
  {
    var skip := SkipOf(t.kind);
    StartKidsFromAllDown(t.children, block, skip);
    StartKidsPreOrder(t.children, block, skip);
    StartUp(t, block);
    PreStartAround(t, StartKids(t.children, block, skip).log);
  }

  lemma {:induction false} StartKidsPreOrder(kids: seq<Tree>, block: bool, skip: seq<State>)
    requires forall i :: 0 <= i < |kids| ==> AllIn(kids[i], {"init", "stopped"}) && Eager(kids[i])
    requires "init" !in skip && "stopped" !in skip
    ensures HookNames(StartKids(kids, block, skip).log, "pre_start") == PreKids(kids)
    decreases kids, 0
  {
    if kids != [] {
      var n := |kids| - 1;
      StartKidsFromAllDown(kids[..n], block, skip);
      StartKidsPreOrder(kids[..n], block, skip);
      StartPreOrder(kids[n], block);
      HookNamesAppend(StartKids(kids[..n], block, skip).log, StartTree(kids[n], block).log, "pre_start");
    }
  }

  /** Starting a fully stopped, eager tree runs `post_start` in post-order:
      a service becomes ready only after all its children. */
  lemma {:induction false} StartPostOrder(t: Tree, block: bool)
    requires AllIn(t, {"init", "stopped"}) && Eager(t)
    ensures HookNames(StartTree(t, block).log, "post_start") == Postorder(t)
    decreases t, 1
  {
    var skip := SkipOf(t.kind);
    StartKidsFromAllDown(t.children, block, skip);
    StartKidsPostOrder(t.children, block, skip);
    StartUp(t, block);
    PostStartAround(t, StartKids(t.children, block, skip).log);
  }

  lemma {:induction false} StartKidsPostOrder(kids: seq<Tree>, block: bool, skip: seq<State>)
    requires forall i :: 0 <= i < |kids| ==> AllIn(kids[i], {"init", "stopped"}) && Eager(kids[i])
    requires "init" !in skip && "stopped" !in skip
    ensures HookNames(StartKids(kids, block, skip).log, "post_start") == PostKids(kids)
    decreases kids, 0
  {
    if kids != [] {
      var n := |kids| - 1;
      StartKidsFromAllDown(kids[..n], block, skip);
      StartKidsPostOrder(kids[..n], block, skip);
      StartPostOrder(kids[n], block);
      HookNamesAppend(StartKids(kids[..n], block, skip).log, StartTree(kids[n], block).log, "post_start");
    }
  }

  /** Starting a fully stopped, eager tree runs `do_start` before the
      children at Containers and `start_before` services, after them elsewhere. */
  lemma {:induction false} StartDoStartOrder(t: Tree, block: bool)
    requires AllIn(t, {"init", "stopped"}) && Eager(t)
    ensures HookNames(StartTree(t, block).log, "do_start") == StartOrder(t)
    decreases t, 1
  {
    var skip := SkipOf(t.kind);
    StartKidsFromAllDown(t.children, block, skip);
    StartKidsDoStartOrder(t.children, block, skip);
    StartUp(t, block);
    DoStartAround(t, StartKids(t.children, block, skip).log);
  }

  lemma {:induction false} StartKidsDoStartOrder(kids: seq<Tree>, block: bool, skip: seq<State>)
    requires forall i :: 0 <= i < |kids| ==> AllIn(kids[i], {"init", "stopped"}) && Eager(kids[i])
    requires "init" !in skip && "stopped" !in skip
    ensures HookNames(StartKids(kids, block, skip).log, "do_start") == StartOrderKids(kids)
    decreases kids, 0
  {
    if kids != [] {
      var n := |kids| - 1;
      StartKidsFromAllDown(kids[..n], block, skip);
      StartKidsDoStartOrder(kids[..n], block, skip);
      StartDoStartOrder(kids[n], block);
      assert StartKids(kids, block, skip).log == StartKids(kids[..n], block, skip).log + StartTree(kids[n], block).log;
      HookNamesAppend(StartKids(kids[..n], block, skip).log, StartTree(kids[n], block).log, "do_start");
    }
  }

  /** The hooks a successful stop of a ready service runs around those of
      its children. */
  lemma StopLogShape(t: Tree)
    requires t.state == "ready" && StopKids(t.children).outcome == Done
    ensures StopTree(t).log == [Entry(t.name, "pre_stop")] + StopKids(t.children).log +
                               [Entry(t.name, "do_stop"), Entry(t.name, "post_stop")]
  {
    StopDown(t, StopKids(t.children));
  }

  /** A ready service whose children all stop: it ends "stopped" with the
      stopped children, having run `pre_stop` before theirs and `do_stop`
      and `post_stop` after. */
  lemma StopDown(t: Tree, k: Effect<seq<Tree>>)
    requires t.state == "ready" && k.outcome == Done
    ensures StopAround(t, k) ==
              Effect(t.(state := "stopped", children := k.value),
                     [Entry(t.name, "pre_stop")] + k.log + [Entry(t.name, "do_stop"), Entry(t.name, "post_stop")],
                     Done)
  {
    if t.kind == TwoPhaseService {
      TwoPhaseStopDown(t, k);
    } else {
      OnePhaseStopDown(t, k);
    }
  }

  lemma OnePhaseStopDown(t: Tree, k: Effect<seq<Tree>>)
    requires t.kind != TwoPhaseService && t.state == "ready" && k.outcome == Done
    ensures StopAround(t, k) ==
              Effect(t.(state := "stopped", children := k.value),
                     [Entry(t.name, "pre_stop")] + k.log + [Entry(t.name, "do_stop"), Entry(t.name, "post_stop")],
                     Done)
  {
    var f := FireOn(t, "stop");
    if t.kind == SinglePhaseService {
      SinglePhaseMoves("ready", "stop");
      SinglePhaseMoves("stopping", "stopped");
    } else {
      ContainerMoves("ready", "stop");
      ContainerMoves("stopping", "stopped");
    }
    assert f == Effect(t.(state := "stopping"), [Entry(t.name, "pre_stop")], Done);
    var t2 := f.value.(children := k.value);
    assert FireOn(t2, "stopped") == Effect(t2.(state := "stopped"), [Entry(t.name, "post_stop")], Done);
  }

  lemma TwoPhaseStopDown(t: Tree, k: Effect<seq<Tree>>)
    requires t.kind == TwoPhaseService && t.state == "ready" && k.outcome == Done
    ensures StopAround(t, k) ==
              Effect(t.(state := "stopped", children := k.value),
                     [Entry(t.name, "pre_stop")] + k.log + [Entry(t.name, "do_stop"), Entry(t.name, "post_stop")],
                     Done)
  {
    TwoPhaseMoves("ready", "stop_services");
    TwoPhaseMoves("stopping:services", "services_stopped");
    TwoPhaseMoves("stopping", "stopped");
    var f := FireOn(t, "stop_services");
    assert f == Effect(t.(state := "stopping:services"), [Entry(t.name, "pre_stop")], Done);
    var t2 := f.value.(children := k.value);
    var m := FireOn(t2, "services_stopped");
    assert m == Effect(t2.(state := "stopping"), [], Done);
    assert FireOn(m.value, "stopped") == Effect(m.value.(state := "stopped"), [Entry(t.name, "post_stop")], Done);
  }

  /** Stopping a fully ready tree runs `do_stop` and `post_stop` in reverse
      pre-order: the last-added child first, every service after its
      children, the root last. */
  lemma {:induction false} StopHookOrder(t: Tree)
    requires AllIn(t, {"ready"})
    ensures HookNames(StopTree(t).log, "do_stop") == Reverse(Preorder(t))
    ensures HookNames(StopTree(t).log, "post_stop") == Reverse(Preorder(t))
    decreases t, 1
  {
    var n := t.name;
    StopKidsFromAllReady(t.children);
    StopKidsHookOrder(t.children);
    var k := StopKids(t.children);
    StopAroundLast(t, k, "do_stop");
    StopAroundLast(t, k, "post_stop");
    ReverseAppend([n], PreKids(t.children));
    assert Reverse([n]) == [n] by {
      assert [n][1..] == [];
    }
  }

  /** A ready service whose children stopped runs its own `do_stop` and
      `post_stop` after all of theirs. */
  lemma StopAroundLast(t: Tree, k: Effect<seq<Tree>>, hook: string)
    requires t.state == "ready" && k.outcome == Done && hook in {"do_stop", "post_stop"}
    ensures HookNames(StopAround(t, k).log, hook) == HookNames(k.log, hook) + [t.name]
  {
    var pre, go, post := Entry(t.name, "pre_stop"), Entry(t.name, "do_stop"), Entry(t.name, "post_stop");
    StopDown(t, k);
    HookNamesSandwich([pre], k.log, [go, post], hook);
    HookNamesPair(go, post, hook);
    HookNamesSingle(pre, hook);
  }

  /** The children are stopped last-added first: `do_stop` and `post_stop`
      run in the reverse of the children's pre-order. */
  lemma {:induction false} StopKidsHookOrder(kids: seq<Tree>)
    requires forall i :: 0 <= i < |kids| ==> AllIn(kids[i], {"ready"})
    ensures HookNames(StopKids(kids).log, "do_stop") == Reverse(PreKids(kids))
    ensures HookNames(StopKids(kids).log, "post_stop") == Reverse(PreKids(kids))
    decreases kids, 0
  {
    if kids != [] {
      StopKidsFromAllReady(kids[1..]);
      StopKidsHookOrder(kids[1..]);
      StopHookOrder(kids[0]);
      var later := StopKids(kids[1..]);
      var c := StopTree(kids[0]);
      HookNamesAppend(later.log, c.log, "do_stop");
      HookNamesAppend(later.log, c.log, "post_stop");
      PreKidsFirst(kids);
      ReverseAppend(Preorder(kids[0]), PreKids(kids[1..]));
    }
  }

  // ----- where a start or stop goes wrong -----

  /** The first event a start fires, and the state it enters. */
  function StartTarget(kind: Kind): State
  {
    if kind == TwoPhaseService then "starting:services" else "starting"
  }

  /** `start` on a service that is not "init" or "stopped" raises a
      RuntimeWarning before anything runs, leaving the whole tree as it was. */
  lemma StartWhenBusy(t: Tree, block: bool)
    requires t.state !in {"init", "stopped"}
    ensures StartTree(t, block) == Effect(t, [], Raised(CannotEnter(StartTarget(t.kind), t.state)))
    ensures StartTree(t, block).outcome.error.IsRuntimeWarning()
  {
    match t.kind
    case SinglePhaseService => SinglePhaseMoves(t.state, "start");
    case ContainerService => ContainerMoves(t.state, "start");
    case TwoPhaseService => TwoPhaseMoves(t.state, "start_services");
  }

  /** serve_forever on a service that is already running does nothing: the
      "already started" warning is swallowed. */
  lemma ServeWhenBusy(t: Tree)
    requires t.state !in {"init", "stopped"}
    ensures ServeTree(t) == Effect(t, [], Done)
  {
    StartWhenBusy(t, true);
  }

  /** Once a child raises, the children after it are neither started nor
      changed, and the raise is what the whole loop reports. */
  lemma {:induction false} StartKidsStopsAtRaise(kids: seq<Tree>, j: nat, block: bool, skip: seq<State>)
    requires j <= |kids| && StartKids(kids[..j], block, skip).outcome.Raised?
    ensures var before := StartKids(kids[..j], block, skip);
            StartKids(kids, block, skip) == Effect(before.value + kids[j..], before.log, before.outcome)
    decreases |kids| - j
  {
    var before := StartKids(kids[..j], block, skip);
    if j == |kids| {
      assert kids[..j] == kids;
      assert kids[j..] == [];
      assert before.value + kids[j..] == before.value;
    } else {
      var longer := kids[..j + 1];
      assert longer[..j] == kids[..j];
      assert StartKids(longer, block, skip) == Effect(before.value + [kids[j]], before.log, before.outcome);
      StartKidsStopsAtRaise(kids, j + 1, block, skip);
      assert (before.value + [kids[j]]) + kids[j + 1..] == before.value + kids[j..];
    }
  }

  /** Replacing the first element after `a` in `a + rest`. */
  lemma SpliceAt<T>(a: seq<T>, rest: seq<T>, y: T)
    requires rest != []
    ensures (a + rest)[|a|] == rest[0]
    ensures (a + rest)[|a| := y] == (a + [y]) + rest[1..]
    ensures a + rest == (a + [rest[0]]) + rest[1..]
  {
    assert (a + rest)[|a| := y] == (a + [y]) + rest[1..];
  }

  /** One more turn of the start loop, after `i` children have been
      handled: the child at `i` is skipped when its state is in `skip` and
      started otherwise. */
  lemma StartedUpToNext(kids: seq<Tree>, i: nat, block: bool, skip: seq<State>,
                        before: seq<Entry>, now: seq<Tree>)
    requires i < |kids| && StartedUpTo(kids, i, block, skip, before, now, Done)
    ensures now[i] == kids[i]
    ensures kids[i].state in skip ==> StartedUpTo(kids, i + 1, block, skip, before, now, Done)
    ensures kids[i].state !in skip ==>
              var c := StartTree(kids[i], block);
              StartedUpTo(kids, i + 1, block, skip, before + c.log, now[i := c.value], c.outcome)
  {
    var k := StartKids(kids[..i], block, skip);
    assert kids[..i + 1] == kids[..i] + [kids[i]];
    StartKidsSnoc(kids[..i], kids[i], block, skip);
    assert kids[i..][1..] == kids[i + 1..];
    SpliceAt(k.value, kids[i..], StartTree(kids[i], block).value);
  }

  /** The start loop over one more child: what the loop does with the
      children before it, then that child's turn. */
  lemma StartKidsSnoc(kids: seq<Tree>, x: Tree, block: bool, skip: seq<State>)
    ensures var k := StartKids(kids, block, skip);
            StartKids(kids + [x], block, skip) ==
              if k.outcome.Raised? then Effect(k.value + [x], k.log, k.outcome)
              else if x.state in skip then Effect(k.value + [x], k.log, Done)
              else After(k.log, Effect(k.value + [StartTree(x, block).value], StartTree(x, block).log, StartTree(x, block).outcome))
  {
    assert (kids + [x])[..|kids|] == kids;
    assert (kids + [x])[|kids|] == x;
  }

  /** Children are stopped last first: once a child raises, the children
      before it are neither stopped nor changed. */
  lemma {:induction false} StopKidsStopsAtRaise(kids: seq<Tree>, j: nat)
    requires j <= |kids| && StopKids(kids[j..]).outcome.Raised?
    ensures var after := StopKids(kids[j..]);
            StopKids(kids) == Effect(kids[..j] + after.value, after.log, after.outcome)
    decreases j
  {
    var after := StopKids(kids[j..]);
    if j == 0 {
      assert kids[j..] == kids;
      assert kids[..j] + after.value == after.value;
    } else {
      assert kids[j - 1..][1..] == kids[j..];
      assert kids[j - 1..][0] == kids[j - 1];
      StopKidsStopsAtRaise(kids, j - 1);
      assert kids[..j - 1] + ([kids[j - 1]] + after.value) == kids[..j] + after.value;
    }
  }

  /** One more turn of the stop loop, after the children from `i` on
      have been stopped: the child at `i - 1` is stopped next. */
  lemma StoppedFromNext(kids: seq<Tree>, i: nat, before: seq<Entry>, now: seq<Tree>)
    requires 0 < i <= |kids| && StoppedFrom(kids, i, before, now, Done)
    ensures now[i - 1] == kids[i - 1]
    ensures var c := StopTree(kids[i - 1]);
            StoppedFrom(kids, i - 1, before + c.log, now[i - 1 := c.value], c.outcome)
  {
    var k := StopKids(kids[i..]);
    assert kids[i - 1..][1..] == kids[i..];
    assert kids[i - 1..][0] == kids[i - 1];
    assert kids[..i] == kids[..i - 1] + [kids[i - 1]];
    SpliceAt(kids[..i - 1], [kids[i - 1]] + k.value, StopTree(kids[i - 1]).value);
    assert ([kids[i - 1]] + k.value)[1..] == k.value;
  }

  /** After the first `i` turns of the start loop over `kids`, `log`
      holds the hooks run so far, `now` the children as the loop leaves
      them and `r` how the last turn ended. */
  ghost predicate StartedUpTo(kids: seq<Tree>, i: nat, block: bool, skip: seq<State>,
                              log: seq<Entry>, now: seq<Tree>, r: Outcome)
  {
    && i <= |kids|
    && var k := StartKids(kids[..i], block, skip);
       k.outcome == r && log == k.log && now == k.value + kids[i..]
  }

  /** A start loop that went through every child without a raise has done
      what StartKids says. */
  lemma StartedUpToAll(kids: seq<Tree>, block: bool, skip: seq<State>, log: seq<Entry>, now: seq<Tree>)
    requires StartedUpTo(kids, |kids|, block, skip, log, now, Done)
    ensures StartKids(kids, block, skip) == Effect(now, log, Done)
  {
    var k := StartKids(kids[..|kids|], block, skip);
    assert kids[..|kids|] == kids && kids[|kids|..] == [];
    assert now == k.value + [] == k.value;
  }

  /** A turn of the start loop that raised ends the loop with what it has
      done so far. */
  lemma StartedUpToRaised(kids: seq<Tree>, i: nat, block: bool, skip: seq<State>,
                          log: seq<Entry>, now: seq<Tree>, r: Outcome)
    requires StartedUpTo(kids, i, block, skip, log, now, r) && r.Raised?
    ensures StartKids(kids, block, skip) == Effect(now, log, r)
  {
    StartKidsStopsAtRaise(kids, i, block, skip);
  }

  /** After the stop loop over `kids` has stopped the children from `i`
      on, `log` holds the hooks run so far, `now` the children as the loop
      leaves them and `r` how the last turn ended. */
  ghost predicate StoppedFrom(kids: seq<Tree>, i: nat, log: seq<Entry>, now: seq<Tree>, r: Outcome)
  {
    && i <= |kids|
    && var k := StopKids(kids[i..]);
       k.outcome == r && log == k.log && now == kids[..i] + k.value
  }

  /** Before its first turn the stop loop has done nothing. */
  lemma StoppedFromNone(kids: seq<Tree>)
    ensures StoppedFrom(kids, |kids|, [], kids, Done)
  {
    assert kids[|kids|..] == [] && kids[..|kids|] == kids;
    assert kids + [] == kids;
  }

  /** A stop loop that went through every child without a raise has done
      what StopKids says. */
  lemma StoppedFromAll(kids: seq<Tree>, log: seq<Entry>, now: seq<Tree>)
    requires StoppedFrom(kids, 0, log, now, Done)
    ensures StopKids(kids) == Effect(now, log, Done)
  {
    var k := StopKids(kids[0..]);
    assert kids[0..] == kids && kids[..0] == [];
    assert now == [] + k.value == k.value;
  }

  /** A turn of the stop loop that raised ends the loop with what it has
      done so far. */
  lemma StoppedFromRaised(kids: seq<Tree>, i: nat, log: seq<Entry>, now: seq<Tree>, r: Outcome)
    requires StoppedFrom(kids, i, log, now, r) && r.Raised?
    ensures StopKids(kids) == Effect(now, log, r)
  {
    StopKidsStopsAtRaise(kids, i);
  }

  /** The two-phase pseudo-code starts every child whatever its state, so a
      first child that is already running makes the parent's start raise,
      with the parent left in "starting:services" and the other children
      untouched. */
  lemma TwoPhaseStartWithBusyChild(t: Tree, block: bool)
    requires t.kind == TwoPhaseService && t.state in {"init", "stopped"}
    requires |t.children| > 0 && t.children[0].state !in {"init", "stopped"}
    ensures StartTree(t, block).outcome ==
              Raised(CannotEnter(StartTarget(t.children[0].kind), t.children[0].state))
    ensures StartTree(t, block).value == t.(state := "starting:services")
  {
    FirstKidBusy(t.children, block);
    TwoPhaseKidsRaised(t, block, StartKids(t.children, block, []));
  }

  /** The loop of the two-phase start stops at a first child that is
      already running, and changes nothing. */
  lemma FirstKidBusy(kids: seq<Tree>, block: bool)
    requires |kids| > 0 && kids[0].state !in {"init", "stopped"}
    ensures StartKids(kids, block, []) ==
              Effect(kids, [], Raised(CannotEnter(StartTarget(kids[0].kind), kids[0].state)))
  {
    StartWhenBusy(kids[0], block);
    assert kids[..1][..0] == [] && kids[..1][0] == kids[0];
    assert [] + [kids[0]] == [kids[0]];
    assert StartKids(kids[..1], block, []) ==
             Effect([kids[0]], [], Raised(CannotEnter(StartTarget(kids[0].kind), kids[0].state)));
    StartKidsStopsAtRaise(kids, 1, block, []);
    assert [kids[0]] + kids[1..] == kids;
  }

  /** When the loop over the children raises, the two-phase start raises
      the same error and leaves the service in "starting:services". */
  lemma TwoPhaseKidsRaised(t: Tree, block: bool, k: Effect<seq<Tree>>)
    requires t.kind == TwoPhaseService && t.state in {"init", "stopped"} && k.outcome.Raised?
    ensures TwoPhaseAround(t, block, k).outcome == k.outcome
    ensures TwoPhaseAround(t, block, k).value == t.(state := "starting:services", children := k.value)
  {
    TwoPhaseMoves(t.state, "start_services");
  }

  /** A single-phase service whose `do_start` answers not-ready (and that
      does not start before its children) is left "starting": the service
      itself must fire `ready` later, and `post_start` has not run. */
  lemma DeferredStaysStarting(t: Tree, block: bool)
    requires t.kind == SinglePhaseService && !t.startBefore && t.deferReady
    requires t.state in {"init", "stopped"}
    requires StartKids(t.children, block, SkipOf(t.kind)).outcome == Done
    ensures var k := StartKids(t.children, block, SkipOf(t.kind));
            StartTree(t, block) ==
              Effect(t.(state := "starting", children := k.value),
                     [Entry(t.name, "pre_start")] + k.log + [Entry(t.name, "do_start")], Done)
  {
    SinglePhaseMoves(t.state, "start");
    Waitables("ready");
  }

  /** With `start_before` the answer of `do_start` is ignored: the service
      runs `do_start` first and always ends "ready". */
  lemma StartBeforeIgnoresDefer(t: Tree, block: bool)
    requires t.kind == SinglePhaseService && t.startBefore
    requires t.state in {"init", "stopped"}
    requires StartKids(t.children, block, SkipOf(t.kind)).outcome == Done
    ensures var k := StartKids(t.children, block, SkipOf(t.kind));
            StartTree(t, block) ==
              Effect(t.(state := "ready", children := k.value),
                     [Entry(t.name, "pre_start"), Entry(t.name, "do_start")] + k.log +
                     [Entry(t.name, "post_start")], Done)
  {
    SinglePhaseMoves(t.state, "start");
    SinglePhaseMoves("starting", "ready");
  }

  /** A Container whose `do_start` answers not-ready, started blocking,
      tries to wait for "starting:services", which is not waitable: the
      start raises after `do_start` and before any child is started. */
  lemma ContainerDeferredBlockingRaises(t: Tree)
    requires t.kind == ContainerService && t.deferReady && t.state in {"init", "stopped"}
    ensures StartTree(t, true) ==
              Effect(t.(state := "starting"), [Entry(t.name, "pre_start"), Entry(t.name, "do_start")],
                     Raised(CannotWait("starting:services")))
  {
    ContainerMoves(t.state, "start");
    Waitables("starting:services");
  }

  /** The same Container started without blocking skips `started`, starts
      its children, and then raises on `ready`, which cannot be entered
      from "starting". */
  lemma ContainerDeferredNonBlockingRaises(t: Tree)
    requires t.kind == ContainerService && t.deferReady && t.state in {"init", "stopped"}
    requires StartKids(t.children, false, SkipOf(t.kind)).outcome == Done
    ensures var k := StartKids(t.children, false, SkipOf(t.kind));
            StartTree(t, false) ==
              Effect(t.(state := "starting", children := k.value),
                     [Entry(t.name, "pre_start"), Entry(t.name, "do_start")] + k.log,
                     Raised(CannotEnter("ready", "starting")))
  {
    ContainerMoves(t.state, "start");
    ContainerMoves("starting", "ready");
  }

  /** A stop that returns leaves the service "init" or "stopped", and
      stopping it again does nothing. */
  lemma StopSettles(t: Tree)
    requires StopTree(t).outcome == Done
    ensures StopTree(t).value.state in {"init", "stopped"}
    ensures StopTree(StopTree(t).value) == Effect(StopTree(t).value, [], Done)
  {
    if t.state !in ["init", "stopped"] {
      match t.kind
      case SinglePhaseService => SinglePhaseMoves("stopping", "stopped");
      case ContainerService => ContainerMoves("stopping", "stopped");
      case TwoPhaseService =>
        TwoPhaseMoves("stopping", "stopped");
        TwoPhaseMoves("stopping:services", "stopped");
    }
  }

  // ----- which services a stop touches -----

  lemma {:induction false} KidsNamesMember(kids: seq<Tree>, x: string)
    ensures x in KidsNames(kids) <==> exists i :: 0 <= i < |kids| && x in Names(kids[i])
    decreases |kids|
  {
    if kids != [] {
      var n := |kids| - 1;
      KidsNamesMember(kids[..n], x);
      if x in KidsNames(kids[..n]) {
        var i :| 0 <= i < n && x in Names(kids[..n][i]);
        assert kids[..n][i] == kids[i];
      }
      if exists i :: 0 <= i < |kids| && x in Names(kids[i]) {
        var i :| 0 <= i < |kids| && x in Names(kids[i]);
        if i < n {
          assert kids[..n][i] == kids[i];
        }
      }
    }
  }

  /** Every hook a stop runs belongs to a service of the stopped subtree. */
  lemma {:induction false} StopLogWithin(t: Tree)
    ensures forall e :: e in StopTree(t).log ==> e.service in Names(t)
    decreases t, 1
  {
    StopKidsLogWithin(t.children);
    StopAroundHooks(t, StopKids(t.children));
  }

  lemma {:induction false} StopKidsLogWithin(kids: seq<Tree>)
    ensures forall e :: e in StopKids(kids).log ==> e.service in KidsNames(kids)
    decreases kids, 0
  {
    if kids != [] {
      StopKidsLogWithin(kids[1..]);
      StopLogWithin(kids[0]);
      forall e | e in StopKids(kids).log
        ensures e.service in KidsNames(kids)
      {
        KidsNamesMember(kids, e.service);
        if e in StopKids(kids[1..]).log {
          KidsNamesMember(kids[1..], e.service);
          var i :| 0 <= i < |kids[1..]| && e.service in Names(kids[1..][i]);
          assert kids[1..][i] == kids[i + 1];
        } else {
          assert e.service in Names(kids[0]);
        }
      }
    }
  }

  /** The hooks of a stop that belong to the stopped service itself:
      `pre_stop`, `post_stop`, and `do_stop` only when it was ready. */
  lemma StopOwnHooks(t: Tree)
    ensures forall e :: e in StopTree(t).log ==>
              e.service in KidsNames(t.children) ||
              e == Entry(t.name, "pre_stop") || e == Entry(t.name, "post_stop") ||
              (e == Entry(t.name, "do_stop") && t.state == "ready")
  {
    StopKidsLogWithin(t.children);
    StopAroundHooks(t, StopKids(t.children));
  }

  /** The hooks a stop runs besides its children's (`k`): `pre_stop`,
      `post_stop`, and `do_stop` only when the service was ready. */
  lemma StopAroundHooks(t: Tree, k: Effect<seq<Tree>>)
    ensures forall e :: e in StopAround(t, k).log ==>
              e in k.log ||
              e == Entry(t.name, "pre_stop") || e == Entry(t.name, "post_stop") ||
              (e == Entry(t.name, "do_stop") && t.state == "ready")
  {
    if t.state !in ["init", "stopped"] {
      if t.kind == TwoPhaseService {
        TwoPhaseStopHooks(t, k);
      } else {
        OnePhaseStopHooks(t, k);
      }
    }
  }

  lemma OnePhaseStopHooks(t: Tree, k: Effect<seq<Tree>>)
    requires t.kind != TwoPhaseService && t.state !in ["init", "stopped"]
    ensures forall e :: e in StopAround(t, k).log ==>
              e in k.log ||
              e == Entry(t.name, "pre_stop") || e == Entry(t.name, "post_stop") ||
              (e == Entry(t.name, "do_stop") && t.state == "ready")
  {
    var n := t.name;
    var table := TableOf(t.kind);
    var f := FireOn(t, "stop");
    FireOnLog(t, "stop");
    assert table.events["stop"].callback == Some("pre_stop");
    if f.outcome.Done? {
      var t2 := f.value.(children := k.value);
      var m := Effect(t2, [], Done);
            var extra := if t.state == "ready" then [Entry(n, "do_stop")] else [];
      var g := FireOn(m.value, "stopped");
      FireOnLog(m.value, "stopped");
      assert table.events["stopped"].callback == Some("post_stop");
      var log := f.log + k.log + m.log + extra + g.log;
      assert k.outcome.Done? && m.outcome.Done? ==> StopAround(t, k).log == log;
      assert k.outcome.Done? && m.outcome.Done? ==> forall e :: e in log ==>
               e in f.log || e in k.log || e in extra || e in g.log;
    }
  }

  lemma TwoPhaseStopHooks(t: Tree, k: Effect<seq<Tree>>)
    requires t.kind == TwoPhaseService && t.state !in ["init", "stopped"]
    ensures forall e :: e in StopAround(t, k).log ==>
              e in k.log ||
              e == Entry(t.name, "pre_stop") || e == Entry(t.name, "post_stop") ||
              (e == Entry(t.name, "do_stop") && t.state == "ready")
  {
    var n := t.name;
    var table := TableOf(t.kind);
    var f := FireOn(t, "stop_services");
    FireOnLog(t, "stop_services");
    assert table.events["stop_services"].callback == Some("pre_stop");
    if f.outcome.Done? {
      var t2 := f.value.(children := k.value);
      var m := FireOn(t2, "services_stopped");
      FireOnLog(t2, "services_stopped");
      assert m.log == [];
      var extra := if t.state == "ready" then [Entry(n, "do_stop")] else [];
      var g := FireOn(m.value, "stopped");
      FireOnLog(m.value, "stopped");
      assert table.events["stopped"].callback == Some("post_stop");
      var log := f.log + k.log + m.log + extra + g.log;
      assert k.outcome.Done? && m.outcome.Done? ==> StopAround(t, k).log == log;
      assert k.outcome.Done? && m.outcome.Done? ==> forall e :: e in log ==>
               e in f.log || e in k.log || e in extra || e in g.log;
    }
  }

  /** The hooks `FireOn` logs: at most the callback of `event`, run by `t`. */
  lemma FireOnLog(t: Tree, event: EventName)
    ensures forall e :: e in FireOn(t, event).log ==>
              e.service == t.name && event in TableOf(t.kind).events &&
              TableOf(t.kind).events[event].callback == Some(e.hook)
  {
  }

  /** A ready service whose stop returns has run `do_stop`. */
  lemma StopReadyRunsDoStop(t: Tree)
    requires t.state == "ready" && StopTree(t).outcome == Done
    ensures Entry(t.name, "do_stop") in StopTree(t).log
  {
    var f := FireOn(t, StopEvent(t.kind));
    var k := StopKids(t.children);
    var t2 := f.value.(children := k.value);
    var m := if t.kind == TwoPhaseService then FireOn(t2, "services_stopped") else Effect(t2, [], Done);
    var log := f.log + k.log + m.log + [Entry(t.name, "do_stop")];
    assert StopTree(t) == After(log, FireOn(m.value, "stopped"));
    assert log[|log| - 1] == Entry(t.name, "do_stop");
  }

  /** A service runs `do_stop` only if it was "ready" when the stop began,
      and a ready service whose stop returns has run it (when no service
      below it shares its name). */
  lemma DoStopOnlyIfReady(t: Tree)
    requires t.name !in KidsNames(t.children)
    ensures Entry(t.name, "do_stop") in StopTree(t).log ==> t.state == "ready"
    ensures t.state == "ready" && StopTree(t).outcome == Done ==> Entry(t.name, "do_stop") in StopTree(t).log
  {
    StopOwnHooks(t);
    if t.state == "ready" && StopTree(t).outcome == Done {
      StopReadyRunsDoStop(t);
    }
  }

  // ----- reload -----

  /** Reload runs only `do_reload`, once for every service of the tree. */
  lemma {:induction false} ReloadRunsEveryService(t: Tree)
    ensures forall e :: e in ReloadTree(t) ==> e.hook == "do_reload"
    ensures multiset(HookNames(ReloadTree(t), "do_reload")) == multiset(Preorder(t))
    decreases t, 1
  {
    ReloadKidsRunsEveryService(t.children);
    var r := [Entry(t.name, "do_reload")];
    HookNamesSingle(r[0], "do_reload");
    HookNamesAppend(r, ReloadKids(t.children), "do_reload");
    HookNamesAppend(ReloadKids(t.children), r, "do_reload");
  }

  lemma {:induction false} ReloadKidsRunsEveryService(kids: seq<Tree>)
    ensures forall e :: e in ReloadKids(kids) ==> e.hook == "do_reload"
    ensures multiset(HookNames(ReloadKids(kids), "do_reload")) == multiset(PreKids(kids))
    decreases kids, 0
  {
    if kids != [] {
      var n := |kids| - 1;
      ReloadKidsRunsEveryService(kids[..n]);
      ReloadRunsEveryService(kids[n]);
      HookNamesAppend(ReloadKids(kids[..n]), ReloadTree(kids[n]), "do_reload");
    }
  }

  /** With `start_before` set throughout, reload runs in pre-order (a
      service before its children); with it clear throughout, in post-order. */
  lemma {:induction false} ReloadOrder(t: Tree)
    ensures UniformStartBefore(t, true) ==> HookNames(ReloadTree(t), "do_reload") == Preorder(t)
    ensures UniformStartBefore(t, false) ==> HookNames(ReloadTree(t), "do_reload") == Postorder(t)
    decreases t, 1
  {
    ReloadKidsOrder(t.children);
    var r := [Entry(t.name, "do_reload")];
    HookNamesSingle(r[0], "do_reload");
    HookNamesAppend(r, ReloadKids(t.children), "do_reload");
    HookNamesAppend(ReloadKids(t.children), r, "do_reload");
  }

  lemma {:induction false} ReloadKidsOrder(kids: seq<Tree>)
    ensures (forall i :: 0 <= i < |kids| ==> UniformStartBefore(kids[i], true)) ==>
              HookNames(ReloadKids(kids), "do_reload") == PreKids(kids)
    ensures (forall i :: 0 <= i < |kids| ==> UniformStartBefore(kids[i], false)) ==>
              HookNames(ReloadKids(kids), "do_reload") == PostKids(kids)
    decreases kids, 0
  {
    if kids != [] {
      var n := |kids| - 1;
      ReloadKidsOrder(kids[..n]);
      ReloadOrder(kids[n]);
      HookNamesAppend(ReloadKids(kids[..n]), ReloadTree(kids[n]), "do_reload");
      assert forall i :: 0 <= i < n ==> kids[..n][i] == kids[i];
    }
  }

  // ----- two concrete trees -----

  /** A root R with one child C, both fresh single-phase services: the
      child's whole start runs between R's `pre_start` and R's `do_start`. */
  lemma ParentAndChildStart(block: bool)
    ensures var c := Node("C", SinglePhaseService, false, false, "init", []);
            var root := Node("R", SinglePhaseService, false, false, "init", [c]);
            StartTree(root, block).log ==
              [Entry("R", "pre_start"), Entry("C", "pre_start"), Entry("C", "do_start"),
               Entry("C", "post_start"), Entry("R", "do_start"), Entry("R", "post_start")]
  {
    var c := Node("C", SinglePhaseService, false, false, "init", []);
    var root := Node("R", SinglePhaseService, false, false, "init", [c]);
    OnlyChildStart(root, block);
  }

  /** A fresh single-phase service whose only child is a fresh single-phase
      leaf: the child's start runs between the parent's `pre_start` and
      its `do_start`. */
  lemma OnlyChildStart(root: Tree, block: bool)
    requires root.kind == SinglePhaseService && !root.startBefore && !root.deferReady && root.state == "init"
    requires |root.children| == 1
    requires var c := root.children[0];
             c.kind == SinglePhaseService && !c.startBefore && !c.deferReady && c.state == "init" && c.children == []
    ensures var r, c := root.name, root.children[0].name;
            StartTree(root, block).log ==
              [Entry(r, "pre_start"), Entry(c, "pre_start"), Entry(c, "do_start"),
               Entry(c, "post_start"), Entry(r, "do_start"), Entry(r, "post_start")]
  {
    var c := root.children[0];
    var cs := [Entry(c.name, "pre_start"), Entry(c.name, "do_start"), Entry(c.name, "post_start")];
    FreshLeafKid(root.children, block, SkipOf(SinglePhaseService));
    StartUp(root, block);
    assert StartTree(root, block).log == [Entry(root.name, "pre_start")] + cs +
                                         [Entry(root.name, "do_start"), Entry(root.name, "post_start")];
  }

  /** A fresh, eager single-phase leaf starts with its three hooks. */
  lemma FreshLeafStart(c: Tree, block: bool)
    requires c.kind == SinglePhaseService && !c.startBefore && !c.deferReady && c.state == "init" && c.children == []
    ensures StartTree(c, block).outcome == Done
    ensures StartTree(c, block).log ==
              [Entry(c.name, "pre_start"), Entry(c.name, "do_start"), Entry(c.name, "post_start")]
  {
    assert StartKids([], block, SkipOf(SinglePhaseService)) == Effect([], [], Done);
    StartUp(c, block);
    StartFromAllDown(c, block);
  }

  /** A list of one fresh, eager single-phase leaf starts it with its three hooks. */
  lemma FreshLeafKid(kids: seq<Tree>, block: bool, skip: seq<State>)
    requires |kids| == 1 && "init" !in skip
    requires var c := kids[0];
             c.kind == SinglePhaseService && !c.startBefore && !c.deferReady && c.state == "init" && c.children == []
    ensures StartKids(kids, block, skip).outcome == Done
    ensures StartKids(kids, block, skip).log ==
              [Entry(kids[0].name, "pre_start"), Entry(kids[0].name, "do_start"), Entry(kids[0].name, "post_start")]
  {
    FreshLeafStart(kids[0], block);
    OnlyKidStart(kids, block, skip);
  }

  /** A list of one child whose state is not skipped starts that child. */
  lemma OnlyKidStart(kids: seq<Tree>, block: bool, skip: seq<State>)
    requires |kids| == 1 && kids[0].state !in skip
    ensures StartKids(kids, block, skip).log == StartTree(kids[0], block).log
    ensures StartKids(kids, block, skip).outcome == StartTree(kids[0], block).outcome
  {
    assert kids[..0] == [];
    assert StartKids([], block, skip) == Effect([], [], Done);
  }

  /** Leaves named A, B and C under P, in pre-order. */
  lemma FlatPreorder(p: Tree)
    requires |p.children| == 3
    requires forall i :: 0 <= i < 3 ==> p.children[i].children == []
    ensures Preorder(p) == [p.name, p.children[0].name, p.children[1].name, p.children[2].name]
  {
    var kids := p.children;
    assert kids[..2][..1] == kids[..1] && kids[..1][..0] == [];
    assert kids[..2][1] == kids[1] && kids[..1][0] == kids[0];
    assert Preorder(kids[0]) == [kids[0].name];
    assert Preorder(kids[1]) == [kids[1].name];
    assert Preorder(kids[2]) == [kids[2].name];
    assert PreKids(kids[..1]) == [kids[0].name];
    assert PreKids(kids[..2]) == [kids[0].name, kids[1].name];
  }

  /** The reverse of a four-element list. */
  lemma ReverseFour<T>(s: seq<T>)
    requires |s| == 4
    ensures Reverse(s) == [s[3], s[2], s[1], s[0]]
  {
    assert s[1..][1..][1..][1..] == [];
    assert Reverse(s[1..][1..][1..]) == [s[3]];
    assert Reverse(s[1..][1..]) == [s[3], s[2]];
    assert Reverse(s[1..]) == [s[3], s[2], s[1]];
  }

  /** A ready parent P with ready children A, B, C added in that order:
      `do_stop` runs C, B, A, then P. */
  lemma ThreeChildrenStop()
    ensures var a := Node("A", SinglePhaseService, false, false, "ready", []);
            var b := Node("B", SinglePhaseService, false, false, "ready", []);
            var c := Node("C", SinglePhaseService, false, false, "ready", []);
            var p := Node("P", SinglePhaseService, false, false, "ready", [a, b, c]);
            HookNames(StopTree(p).log, "do_stop") == ["C", "B", "A", "P"]
  {
    var a := Node("A", SinglePhaseService, false, false, "ready", []);
    var b := Node("B", SinglePhaseService, false, false, "ready", []);
    var c := Node("C", SinglePhaseService, false, false, "ready", []);
    var p := Node("P", SinglePhaseService, false, false, "ready", [a, b, c]);
    var kids := [a, b, c];
    assert AllIn(a, {"ready"}) && AllIn(b, {"ready"}) && AllIn(c, {"ready"});
    assert forall i :: 0 <= i < |kids| ==> AllIn(kids[i], {"ready"});
    StopHookOrder(p);
    FlatPreorder(p);
    ReverseFour(Preorder(p));
  }
}
