/** GlobalContext (ginkgo/util.py): a mixin whose classes name a singleton
    attribute (`singleton_attr`, an (owner, attribute) pair) and save the
    value it holds on a stack before overwriting it, so that entering a
    context installs an object and leaving it puts the previous one back.
    The stacks are one dictionary shared by every subclass and keyed by
    the class's `__name__`. */
module GlobalContexts {

  import opened Wrappers

  /** A value a singleton attribute can hold; `NoneRef` is Python's None. */
  datatype Ref = NoneRef | Obj(id: nat)

  /** Where a class keeps its singleton: `getattr(owner, attr)`. */
  datatype Slot = Slot(owner: string, attr: string)

  /** A GlobalContext subclass: its `__name__` and its `singleton_attr`
      (`None` when it is not set, and then the mixin does nothing). */
  datatype ContextClass = ContextClass(name: string, singletonAttr: Option<Slot>)

  /** `getattr` of an attribute that does not exist, and `pop` from an
      empty list. */
  datatype ContextError = AttributeError | IndexError

  datatype Status = Ok | Failed(error: ContextError)

  /** `_singleton_stacks`, and the attributes the singletons live in. */
  datatype Globals = Globals(stacks: map<string, seq<Ref>>, slots: map<Slot, Ref>)

  /** The new globals and what the call reported. */
  datatype Step = Step(globals: Globals, status: Status)

  /** `_singleton_stacks.get(name, [])`. */
  function StackOf(stacks: map<string, seq<Ref>>, name: string): seq<Ref>
  {
    if name in stacks then stacks[name] else []
  }

  /** The stacks once the class's stack exists: what a push creates even
      when it fails afterwards. */
  function Touch(g: Globals, cls: ContextClass): map<string, seq<Ref>>
  {
    if cls.singletonAttr.None? then g.stacks
    else g.stacks[cls.name := StackOf(g.stacks, cls.name)]
  }

  /** `_push_context(obj)`: create the class's stack if needed, push the
      current singleton onto it and install `obj`. */
  function Push(g: Globals, cls: ContextClass, obj: Ref): (r: Step)
    ensures r.status == Ok <==> cls.singletonAttr.None? || cls.singletonAttr.value in g.slots
    ensures cls.singletonAttr.None? ==> r.globals == g
    ensures cls.singletonAttr.Some? && r.status == Ok ==>
              && r.globals.slots == g.slots[cls.singletonAttr.value := obj]
              && r.globals.stacks ==
                   g.stacks[cls.name := StackOf(g.stacks, cls.name) + [g.slots[cls.singletonAttr.value]]]
    ensures r.status.Failed? ==>
              r.globals == Globals(Touch(g, cls), g.slots) && r.status.error == AttributeError
  {
    match cls.singletonAttr
    case None => Step(g, Ok)
    case Some(slot) =>
      var stack := StackOf(g.stacks, cls.name);
      if slot !in g.slots then Step(Globals(g.stacks[cls.name := stack], g.slots), Failed(AttributeError))
      else Step(Globals(g.stacks[cls.name := stack + [g.slots[slot]]], g.slots[slot := obj]), Ok)
  }

  /** `_pop_context()`: pop the class's stack into the singleton; a missing
      stack is read as an empty one and not created. */
  function Pop(g: Globals, cls: ContextClass): (r: Step)
    ensures r.status == Ok <==> cls.singletonAttr.None? || StackOf(g.stacks, cls.name) != []
    ensures r.status.Failed? ==> r.globals == g && r.status.error == IndexError
    ensures cls.singletonAttr.None? ==> r.globals == g
    ensures cls.singletonAttr.Some? && r.status == Ok ==>
              var stack := StackOf(g.stacks, cls.name);
              && r.globals.slots == g.slots[cls.singletonAttr.value := stack[|stack| - 1]]
              && r.globals.stacks == g.stacks[cls.name := stack[..|stack| - 1]]
  {
    match cls.singletonAttr
    case None => Step(g, Ok)
    case Some(slot) =>
      var stack := StackOf(g.stacks, cls.name);
      if stack == [] then Step(g, Failed(IndexError))
      else Step(Globals(g.stacks[cls.name := stack[..|stack| - 1]], g.slots[slot := stack[|stack| - 1]]), Ok)
  }

  /** Entering the contexts of `objs` in order, stopping at a failure. */
  function PushAll(g: Globals, cls: ContextClass, objs: seq<Ref>): Step
  {
    if objs == [] then Step(g, Ok)
    else
      var before := PushAll(g, cls, objs[..|objs| - 1]);
      if before.status.Failed? then before else Push(before.globals, cls, objs[|objs| - 1])
  }

  /** Leaving `n` contexts, stopping at a failure. */
  function PopN(g: Globals, cls: ContextClass, n: nat): Step
    decreases n
  {
    if n == 0 then Step(g, Ok)
    else
      var first := Pop(g, cls);
      if first.status.Failed? then first else PopN(first.globals, cls, n - 1)
  }

  /** Whether the class has a singleton attribute that exists. */
  predicate Installed(g: Globals, cls: ContextClass)
  {
    cls.singletonAttr.Some? && cls.singletonAttr.value in g.slots
  }

  /** Entering then leaving one context puts the previous singleton back
      and leaves every stack as it was (the class's own stack now exists). */
  lemma PushThenPop(g: Globals, cls: ContextClass, obj: Ref)
    requires Push(g, cls, obj).status == Ok
    ensures Pop(Push(g, cls, obj).globals, cls) == Step(Globals(Touch(g, cls), g.slots), Ok)
  {
    if cls.singletonAttr.Some? {
      var slot := cls.singletonAttr.value;
      var stack := StackOf(g.stacks, cls.name);
      var h := Push(g, cls, obj).globals;
      assert StackOf(h.stacks, cls.name) == stack + [g.slots[slot]];
      assert (stack + [g.slots[slot]])[..|stack|] == stack;
      assert h.slots[slot := g.slots[slot]] == g.slots;
    }
  }

  /** While contexts are entered one after another, the singleton is the
      last object entered and the stack holds, under what it held before,
      the singleton that each push replaced. */
  lemma {:induction false} PushAllState(g: Globals, cls: ContextClass, objs: seq<Ref>)
    requires Installed(g, cls) && objs != []
    ensures var r := PushAll(g, cls, objs);
            var slot := cls.singletonAttr.value;
            && r.status == Ok
            && r.globals.slots == g.slots[slot := objs[|objs| - 1]]
            && r.globals.stacks ==
                 g.stacks[cls.name := StackOf(g.stacks, cls.name) + [g.slots[slot]] + objs[..|objs| - 1]]
  {
    var slot := cls.singletonAttr.value;
    var n := |objs| - 1;
    if n == 0 {
      assert PushAll(g, cls, objs[..0]) == Step(g, Ok);
      assert StackOf(g.stacks, cls.name) + [g.slots[slot]] + objs[..0] ==
               StackOf(g.stacks, cls.name) + [g.slots[slot]];
    } else {
      var prefix := objs[..n];
      var base := StackOf(g.stacks, cls.name) + [g.slots[slot]];
      PushAllState(g, cls, prefix);
      var before := PushAll(g, cls, prefix);
      assert prefix[|prefix| - 1] == objs[n - 1];
      assert prefix[..|prefix| - 1] == objs[..n - 1];
      assert StackOf(before.globals.stacks, cls.name) == base + objs[..n - 1];
      assert before.globals.slots[slot] == objs[n - 1];
      assert PushAll(g, cls, objs) == Push(before.globals, cls, objs[n]);
      assert (base + objs[..n - 1]) + [objs[n - 1]] == base + objs[..n];
    }
  }

  /** Nested contexts are left in LIFO order: after `|objs|` pushes, as
      many pops restore the singleton and the stacks. */
  lemma {:induction false} PushesThenPops(g: Globals, cls: ContextClass, objs: seq<Ref>)
    requires Installed(g, cls) && objs != []
    ensures PopN(PushAll(g, cls, objs).globals, cls, |objs|) == Step(Globals(Touch(g, cls), g.slots), Ok)
    decreases |objs|
  {
    var n := |objs| - 1;
    var prefix := objs[..n];
    var before := PushAll(g, cls, prefix);
    if prefix == [] {
      assert before == Step(g, Ok);
      PushThenPop(g, cls, objs[n]);
    } else {
      PushAllState(g, cls, prefix);
      PushThenPop(before.globals, cls, objs[n]);
      assert Touch(before.globals, cls) == before.globals.stacks;
      PushesThenPops(g, cls, prefix);
    }
  }

  /** A push touches only its class's stack and its own attribute. */
  lemma PushElsewhere(g: Globals, cls: ContextClass, obj: Ref, n: string, s: Slot)
    requires n != cls.name && cls.singletonAttr != Some(s)
    ensures var r := Push(g, cls, obj).globals;
            StackOf(r.stacks, n) == StackOf(g.stacks, n) &&
            (s in g.slots ==> s in r.slots && r.slots[s] == g.slots[s])
  {
  }

  /** So does a pop. */
  lemma PopElsewhere(g: Globals, cls: ContextClass, n: string, s: Slot)
    requires n != cls.name && cls.singletonAttr != Some(s)
    ensures var r := Pop(g, cls).globals;
            StackOf(r.stacks, n) == StackOf(g.stacks, n) &&
            (s in g.slots ==> s in r.slots && r.slots[s] == g.slots[s])
  {
  }

  /** Two classes with different names and different singleton attributes
      do not disturb each other: pushing the first, pushing the second,
      popping the first and popping the second puts both singletons back. */
  lemma IndependentContexts(g: Globals, a: ContextClass, b: ContextClass, x: Ref, y: Ref)
    requires Installed(g, a) && Installed(g, b)
    requires a.name != b.name && a.singletonAttr != b.singletonAttr
    ensures var g1 := Push(g, a, x).globals;
            var g2 := Push(g1, b, y).globals;
            var g3 := Pop(g2, a);
            var g4 := Pop(g3.globals, b);
            && g2.slots[a.singletonAttr.value] == x && g2.slots[b.singletonAttr.value] == y
            && g3.status == Ok && g3.globals.slots[a.singletonAttr.value] == g.slots[a.singletonAttr.value]
            && g3.globals.slots[b.singletonAttr.value] == y
            && g4.status == Ok && g4.globals.slots == g.slots
  {
    var sa, sb := a.singletonAttr.value, b.singletonAttr.value;
    var g1 := Push(g, a, x).globals;
    PushElsewhere(g, a, x, b.name, sb);
    var g2 := Push(g1, b, y).globals;
    PushElsewhere(g1, b, y, a.name, sa);
    assert StackOf(g2.stacks, a.name) == StackOf(g.stacks, a.name) + [g.slots[sa]];
    var g3 := Pop(g2, a).globals;
    PopElsewhere(g2, a, b.name, sb);
    assert StackOf(g3.stacks, b.name) == StackOf(g.stacks, b.name) + [g.slots[sb]];
    assert g3.slots == g.slots[sa := x][sb := y][sa := g.slots[sa]];
    var g4 := Pop(g3, b).globals;
    assert g4.slots == g3.slots[sb := g.slots[sb]];
    assert g4.slots == g.slots;
  }

  /** The stacks are keyed by class name, so two classes that share a name
      but keep their singletons in different places share one stack:
      popping the first after pushing both hands it the singleton the
      second one saved. */
  lemma SharedNameSharesStack(g: Globals, a: ContextClass, b: ContextClass, x: Ref, y: Ref)
    requires Installed(g, a) && Installed(g, b)
    requires a.name == b.name && a.singletonAttr != b.singletonAttr
    ensures var g2 := Push(Push(g, a, x).globals, b, y).globals;
            Pop(g2, a).globals.slots[a.singletonAttr.value] == g.slots[b.singletonAttr.value]
  {
    var g1 := Push(g, a, x).globals;
    var g2 := Push(g1, b, y).globals;
    var top := g1.slots[b.singletonAttr.value];
    assert StackOf(g2.stacks, a.name) == StackOf(g1.stacks, a.name) + [top];
  }

  /** A class without `singleton_attr` pushes and pops nothing. */
  lemma UnsetAttributeDoesNothing(g: Globals, cls: ContextClass, obj: Ref)
    requires cls.singletonAttr.None?
    ensures Push(g, cls, obj) == Step(g, Ok) && Pop(g, cls) == Step(g, Ok)
  {
  }

  /** `_singleton_stacks` and the singleton attributes, updated in place:
      `__enter__` is `PushContext(self)` and `__exit__` is `PopContext`. */
  class ContextRegistry {
    var stacks: map<string, seq<Ref>>
    var slots: map<Slot, Ref>

    /** No stacks yet; `slots` are the attributes that exist. */
    constructor (slots: map<Slot, Ref>)
      ensures this.stacks == map[] && this.slots == slots
    {
      this.stacks := map[];
      this.slots := slots;
    }

    function Snapshot(): Globals
      reads this
    {
      Globals(stacks, slots)
    }

    /** `cls._push_context(obj)`. */
    method PushContext(cls: ContextClass, obj: Ref) returns (status: Status)
      modifies this
      ensures Step(Snapshot(), status) == Push(old(Snapshot()), cls, obj)
    {
      status := Ok;
      if cls.singletonAttr.Some? {
        var slot := cls.singletonAttr.value;
        if cls.name !in stacks {
          stacks := stacks[cls.name := []];
        }
        if slot !in slots {
          return Failed(AttributeError);
        }
        stacks := stacks[cls.name := stacks[cls.name] + [slots[slot]]];
        slots := slots[slot := obj];
      }
    }

    /** `cls._pop_context()`. */
    method PopContext(cls: ContextClass) returns (status: Status)
      modifies this
      ensures Step(Snapshot(), status) == Pop(old(Snapshot()), cls)
    {
      status := Ok;
      if cls.singletonAttr.Some? {
        var stack := if cls.name in stacks then stacks[cls.name] else [];
        if stack == [] {
          return Failed(IndexError);
        }
        stacks := stacks[cls.name := stack[..|stack| - 1]];
        slots := slots[cls.singletonAttr.value := stack[|stack| - 1]];
      }
    }
  }
}
