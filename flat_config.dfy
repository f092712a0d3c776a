/** gservice/config.py and gevent_tools/config.py: a module-level registry
    filled by `load` and read through `Setting` (gservice; `Option` is the
    same class) and `Option` (gevent_tools) descriptors.  The two `load`
    functions differ only in what counts as a namespace (a `Namespace` in
    gservice, any `dict` in gevent_tools): both are `Node.Group` here. */
module FlatConfig {
  import opened ConfigTree

  import opened Wrappers

  /** The registry writes of `load(context, basepath)`, in order: a
      namespace item is loaded with prefix `key + "."`, built from its own
      key only, so the outer prefix is not carried down; any other item is
      stored under `(basepath + key).lower()`. */
  function Writes(items: seq<Item>, basepath: string): seq<(string, Value)>
    decreases items, 1
  {
    if items == [] then []
    else Writes(items[..|items| - 1], basepath) + ItemWrites(items[|items| - 1], basepath)
  }

  function ItemWrites(item: Item, basepath: string): seq<(string, Value)>
    decreases item, 0
  {
    match item.node
    case Leaf(v) => [(Lower(basepath + item.key), v)]
    case Group(items) => Writes(items, item.key + ".")
  }

  /** The registry after storing every write in order. */
  function Apply(registry: map<string, Value>, writes: seq<(string, Value)>): map<string, Value>
  {
    if writes == [] then registry
    else
      var last := writes[|writes| - 1];
      Apply(registry, writes[..|writes| - 1])[last.0 := last.1]
  }

  lemma {:induction false} ApplyAppend(registry: map<string, Value>, a: seq<(string, Value)>, b: seq<(string, Value)>)
    ensures Apply(registry, a + b) == Apply(Apply(registry, a), b)
    decreases |b|
  {
    if b == [] {
      assert a + b == a;
    } else {
      var n := |b| - 1;
      assert (a + b)[..|a + b| - 1] == a + b[..n];
      assert (a + b)[|a + b| - 1] == b[n];
      ApplyAppend(registry, a, b[..n]);
    }
  }

  /** The value of the last write to key `k`, if any. */
  function LastWrite(writes: seq<(string, Value)>, k: string): Option<Value>
  {
    if writes == [] then None
    else
      var last := writes[|writes| - 1];
      if last.0 == k then Some(last.1) else LastWrite(writes[..|writes| - 1], k)
  }

  /** Later loads overwrite earlier ones: every key holds the last value
      written to it, and keys nobody wrote keep what they held. */
  lemma {:induction false} ApplySpec(registry: map<string, Value>, writes: seq<(string, Value)>, k: string)
    ensures var r := Apply(registry, writes);
            && (LastWrite(writes, k).Some? ==> k in r && r[k] == LastWrite(writes, k).value)
            && (LastWrite(writes, k).None? ==> (k in r <==> k in registry) && (k in registry ==> r[k] == registry[k]))
  {
    if writes != [] {
      ApplySpec(registry, writes[..|writes| - 1], k);
    }
  }

  /** Every key `load` stores is lowercase. */
  lemma {:induction false} WritesLowercase(items: seq<Item>, basepath: string)
    ensures forall i :: 0 <= i < |Writes(items, basepath)| ==> IsLower(Writes(items, basepath)[i].0)
    decreases items, 1
  {
    if items != [] {
      var n := |items| - 1;
      WritesLowercase(items[..n], basepath);
      ItemWritesLowercase(items[n], basepath);
    }
  }

  lemma {:induction false} ItemWritesLowercase(item: Item, basepath: string)
    ensures forall i :: 0 <= i < |ItemWrites(item, basepath)| ==> IsLower(ItemWrites(item, basepath)[i].0)
    decreases item, 0
  {
    match item.node
    case Leaf(v) => LowerFacts(basepath + item.key);
    case Group(items) => WritesLowercase(items, item.key + ".");
  }

  /** `s.lower()` of a string literal, character by character. */
  lemma LowerIs(s: string, r: string)
    requires |s| == |r| && forall i :: 0 <= i < |s| ==> LowerChar(s[i]) == r[i]
    ensures Lower(s) == r
  {
  }

  /** The sample configuration in gevent_tools/config.py. */
  function Sample(): seq<Item>
  {
    var bar, qux := Leaf(Str("bar")), Leaf(Str("qux"));
    [Item("FOO", bar), Item("baz", qux),
     Item("section1", Group([Item("foo", bar)])),
     Item("section2", Group([Item("foo", bar), Item("SUBSECTION", Group([Item("baz", qux)]))]))]
  }

  /** The writes `load` makes for the sample: top-level keys lowercased,
      and the key nested two levels deep under `subsection.baz`, without
      `section2.`. */
  lemma SampleWrites()
    ensures Writes(Sample(), "") ==
              [("foo", Str("bar")), ("baz", Str("qux")), ("section1.foo", Str("bar")),
               ("section2.foo", Str("bar")), ("subsection.baz", Str("qux"))]
  {
    var bar, qux := Leaf(Str("bar")), Leaf(Str("qux"));
    var inner := [Item("baz", qux)];
    var s2 := [Item("foo", bar), Item("SUBSECTION", Group(inner))];
    var s1 := [Item("foo", bar)];
    var sample := Sample();
    assert sample == [Item("FOO", bar), Item("baz", qux), Item("section1", Group(s1)), Item("section2", Group(s2))];
    var w1 := [("section1.foo", Str("bar"))];
    var w2 := [("section2.foo", Str("bar")), ("subsection.baz", Str("qux"))];
    SectionWrites(s1, s2, inner);
    assert "" + "FOO" == "FOO" && "" + "baz" == "baz";
    LowerIs("FOO", "foo");
    LowerIs("baz", "baz");
    assert sample[..3][..2][..1][..0] == [];
    assert Writes(sample[..3][..2][..1], "") == [("foo", Str("bar"))];
    assert Writes(sample[..3][..2], "") == [("foo", Str("bar")), ("baz", Str("qux"))];
    assert Writes(sample[..3], "") == [("foo", Str("bar")), ("baz", Str("qux"))] + w1;
  }

  lemma SectionWrites(s1: seq<Item>, s2: seq<Item>, inner: seq<Item>)
    requires inner == [Item("baz", Leaf(Str("qux")))]
    requires s1 == [Item("foo", Leaf(Str("bar")))]
    requires s2 == [Item("foo", Leaf(Str("bar"))), Item("SUBSECTION", Group(inner))]
    ensures ItemWrites(Item("section1", Group(s1)), "") == [("section1.foo", Str("bar"))]
    ensures ItemWrites(Item("section2", Group(s2)), "") ==
              [("section2.foo", Str("bar")), ("subsection.baz", Str("qux"))]
  {
    assert "section1." + "foo" == "section1.foo";
    LowerIs("section1.foo", "section1.foo");
    assert "section2." + "foo" == "section2.foo";
    LowerIs("section2.foo", "section2.foo");
    assert "SUBSECTION." + "baz" == "SUBSECTION.baz";
    LowerIs("SUBSECTION.baz", "subsection.baz");
    assert "section1" + "." == "section1." && "section2" + "." == "section2." && "SUBSECTION" + "." == "SUBSECTION.";
    assert inner[..0] == [] && s1[..0] == [];
    assert Writes(inner, "SUBSECTION.") == [("subsection.baz", Str("qux"))];
    assert s2[..1] == s1;
    assert Writes(s1, "section1.") == [("section1.foo", Str("bar"))];
    assert ItemWrites(Item("section1", Group(s1)), "") == Writes(s1, "section1.");
    assert Writes(s2[..1], "section2.") == [("section2.foo", Str("bar"))];
    assert ItemWrites(s2[1], "section2.") == Writes(inner, "SUBSECTION.");
    assert Writes(s2, "section2.") == [("section2.foo", Str("bar")), ("subsection.baz", Str("qux"))];
    assert ItemWrites(Item("section2", Group(s2)), "") == Writes(s2, "section2.");
  }

  /** So `Option("section1.foo")` reads "bar", and the registry holds
      exactly these five keys. */
  lemma SampleLoad()
    ensures Apply(map[], Writes(Sample(), "")) ==
              map["foo" := Str("bar"), "baz" := Str("qux"), "section1.foo" := Str("bar"),
                  "section2.foo" := Str("bar"), "subsection.baz" := Str("qux")]
  {
    SampleWrites();
    var ws := [("foo", Str("bar")), ("baz", Str("qux")), ("section1.foo", Str("bar")),
               ("section2.foo", Str("bar")), ("subsection.baz", Str("qux"))];
    assert ws[..4][..3][..2][..1][..0] == [];
    assert ws[..2][..1] == ws[..1] && ws[..3][..2] == ws[..2] && ws[..4][..3] == ws[..3] && ws[..4] == ws[..|ws| - 1];
    assert Apply(map[], ws[..1]) == map["foo" := Str("bar")];
    assert Apply(map[], ws[..2]) == map["foo" := Str("bar"), "baz" := Str("qux")];
    assert Apply(map[], ws[..3]) == map["foo" := Str("bar"), "baz" := Str("qux"), "section1.foo" := Str("bar")];
    assert Apply(map[], ws[..4]) == map["foo" := Str("bar"), "baz" := Str("qux"), "section1.foo" := Str("bar"),
                                        "section2.foo" := Str("bar")];
  }

  /** What `changed` answers, read once with each value of `values` in
      turn, starting from the recorded None. */
  function ChangedTrace(values: seq<Value>): (r: seq<bool>)
    ensures |r| == |values|
  {
    if values == [] then []
    else
      var n := |values| - 1;
      ChangedTrace(values[..n]) + [!PyEq(values[n], if n == 0 then NoneValue else values[n - 1])]
  }

  /** `changed` is true exactly when the value differs from the one seen
      on the previous read (None before the first), so the first read
      after a load reports the loaded value and an immediate repeat does
      not. */
  lemma {:induction false} ChangedTraceSpec(values: seq<Value>)
    ensures var r := ChangedTrace(values);
            && (|values| > 0 ==> r[0] == (values[0] != NoneValue))
            && forall i :: 0 < i < |values| ==> r[i] == !PyEq(values[i], values[i - 1])
  {
    if values != [] {
      var n := |values| - 1;
      ChangedTraceSpec(values[..n]);
      assert forall i :: 0 <= i < n ==> ChangedTrace(values)[i] == ChangedTrace(values[..n])[i];
    }
  }

  /** Python's `!=` sees no change from 1 to `True`, but does from 1 to 2. */
  lemma NumbersCompareByValue()
    ensures ChangedTrace([Int(1), Bool(true), Int(1), Int(2)]) == [true, false, false, true]
  {
    ChangedTraceSpec([Int(1), Bool(true), Int(1), Int(2)]);
  }

  /** The module-level `_registry`, changed in place by `load`. */
  class Registry {
    var entries: map<string, Value>

    constructor ()
      ensures entries == map[]
    {
      entries := map[];
    }

    /** `load(context, basepath)`. */
    method Load(items: seq<Item>, basepath: string)
      modifies this
      decreases items
      ensures entries == Apply(old(entries), Writes(items, basepath))
    {
      var i := 0;
      while i < |items|
        invariant 0 <= i <= |items|
        invariant entries == Apply(old(entries), Writes(items[..i], basepath))
        decreases |items| - i
      {
        var item := items[i];
        assert items[..i + 1][..i] == items[..i] && items[..i + 1][i] == item;
        ApplyAppend(old(entries), Writes(items[..i], basepath), ItemWrites(item, basepath));
        match item.node {
          case Group(nested) =>
            Load(nested, item.key + ".");
          case Leaf(v) =>
            ghost var before := entries;
            entries := entries[Lower(basepath + item.key) := v];
            assert entries == Apply(before, [(Lower(basepath + item.key), v)]);
        }
        i := i + 1;
      }
      assert items[..i] == items;
    }
  }

  /** What assigning through an instance reports. */
  datatype Assignment = AttributeError

  /** A `Setting` (gservice) or `Option` (gevent_tools) descriptor: the
      registry value of its lowercased path, or its default.  Only the
      gservice class has `changed`. */
  class Setting {
    const registry: Registry
    const path: string
    const default: Value
    /** `_last_value`, None at first. */
    var last: Value

    constructor (registry: Registry, path: string, default: Value)
      ensures this.registry == registry && this.path == Lower(path) && this.default == default
      ensures last == NoneValue
    {
      this.registry := registry;
      this.path := Lower(path);
      this.default := default;
      last := NoneValue;
    }

    /** `value`, and what `__get__` returns from the class or an instance. */
    function Value(): (r: Value)
      reads this, registry
      ensures path in registry.entries ==> r == registry.entries[path]
      ensures path !in registry.entries ==> r == default
    {
      if path in registry.entries then registry.entries[path] else default
    }

    /** `changed`: whether the value differs, by Python's `!=`, from the
        recorded one; only a change is recorded, so afterwards the
        recorded value equals the current one either way. */
    method Changed() returns (r: bool)
      modifies this
      ensures r == !PyEq(old(last), Value())
      ensures last == if r then Value() else old(last)
      ensures PyEq(last, Value())
    {
      r := !PyEq(last, Value());
      if r {
        last := Value();
      }
      PyEqFacts(last, Value(), last);
    }

    /** `__set__`: the descriptor refuses assignment through an instance
        and nothing changes. */
    method Assign(value: Value) returns (r: Assignment)
      ensures r == AttributeError
    {
      r := AttributeError;
    }
  }

  /** Loading a single top-level value stores it under its lowercased key. */
  lemma LoadOne(registry: map<string, Value>, key: string, v: Value)
    ensures Apply(registry, Writes([Item(key, Leaf(v))], "")) == registry[Lower(key) := v]
  {
    assert [Item(key, Leaf(v))][..0] == [];
    assert "" + key == key;
  }

  /** `Option(key)` with no default, then for each of `values` a
      `load({key: value})` followed by a read of `changed`, as
      gevent_tools/tests/test_config.py does: the reads report exactly
      `ChangedTrace`. */
  method ObserveChanges(registry: Registry, key: string, values: seq<Value>) returns (r: seq<bool>)
    modifies registry
    ensures r == ChangedTrace(values)
  {
    var s := new Setting(registry, key, NoneValue);
    r := [];
    var i := 0;
    while i < |values|
      invariant 0 <= i <= |values|
      invariant s.registry == registry && s.path == Lower(key)
      invariant r == ChangedTrace(values[..i])
      invariant PyEq(s.last, if i == 0 then NoneValue else values[i - 1])
    {
      ghost var entries := registry.entries;
      registry.Load([Item(key, Leaf(values[i]))], "");
      LoadOne(entries, key, values[i]);
      ghost var before := s.last;
      var c := s.Changed();
      PyEqFacts(values[i], before, if i == 0 then NoneValue else values[i - 1]);
      PyEqFacts(before, values[i], if i == 0 then NoneValue else values[i - 1]);
      assert values[..i + 1][..i] == values[..i];
      r := r + [c];
      i := i + 1;
    }
    assert values[..i] == values;
  }
}
