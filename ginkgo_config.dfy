/** ginkgo/config.py: a store of settings keyed by normalised dotted paths,
    some of which are forced and then survive every unforced write; a
    `load` that flattens nested namespaces into dotted paths; read-only
    `Group` views of one prefix; and the `changed` flag of a setting. */
module GinkgoConfig {
  import opened ConfigTree

  import opened Wrappers

  /** `lstrip(".")`: drop every leading dot. */
  function StripDots(s: string): (r: string)
    ensures r == [] || r[0] != '.'
    ensures |r| <= |s| && r == s[|s| - |r|..]
    ensures forall i :: 0 <= i < |s| - |r| ==> s[i] == '.'
  {
    if s != [] && s[0] == '.' then StripDots(s[1..]) else s
  }

  /** A path as the store keeps it: lowercase, without a leading dot. */
  predicate Normal(p: string)
  {
    IsLower(p) && (p == [] || p[0] != '.')
  }

  /** A lowercase string has lowercase suffixes. */
  lemma SuffixLower(s: string, k: nat)
    requires IsLower(s) && k <= |s|
    ensures IsLower(s[k..])
  {
    assert forall i :: 0 <= i < |s| - k ==> s[k..][i] == s[k + i];
  }

  /** `_normalize_path`: lowercase, then strip the leading dots. */
  function NormalizePath(path: string): (r: string)
    ensures Normal(r)
    ensures Normal(path) ==> r == path
  {
    LowerFacts(path);
    SuffixLower(Lower(path), |Lower(path)| - |StripDots(Lower(path))|);
    StripDots(Lower(path))
  }

  /** Normalising twice is normalising once, and capitals and leading dots
      never matter: `get` and `set` see `.Foo.Bar` and `foo.bar` alike. */
  lemma NormalizeFacts(path: string)
    ensures NormalizePath(NormalizePath(path)) == NormalizePath(path)
    ensures NormalizePath(Lower(path)) == NormalizePath(path)
    ensures NormalizePath("." + path) == NormalizePath(path)
  {
    NormalizeLower(path);
    NormalizeDot(path);
  }

  lemma NormalizeLower(path: string)
    ensures NormalizePath(Lower(path)) == NormalizePath(path)
  {
    LowerFacts(path);
  }

  lemma NormalizeDot(path: string)
    ensures NormalizePath("." + path) == NormalizePath(path)
  {
    LowerAppend(".", path);
    assert Lower(".") == ".";
    assert ("." + Lower(path))[1..] == Lower(path);
    assert StripDots("." + Lower(path)) == StripDots(Lower(path));
  }

  /** `_settings` and `_forced_settings`. */
  datatype Store = Store(settings: map<string, Value>, forced: set<string>)

  /** `get(path, default)`: the value stored under the normalised path, or
      the default when nothing is. */
  function Get(settings: map<string, Value>, path: string, default: Value): (r: Value)
    ensures NormalizePath(path) in settings ==> r == settings[NormalizePath(path)]
    ensures NormalizePath(path) !in settings ==> r == default
  {
    var p := NormalizePath(path);
    if p in settings then settings[p] else default
  }

  /** `get` is blind to capitals and leading dots: `get(".Foo.Bar")` and
      `get("foo.bar")` answer alike, whatever the store holds. */
  lemma GetIgnoresSpelling(settings: map<string, Value>, path: string, default: Value)
    ensures Get(settings, Lower(path), default) == Get(settings, path, default)
    ensures Get(settings, "." + path, default) == Get(settings, path, default)
    ensures Get(settings, NormalizePath(path), default) == Get(settings, path, default)
  {
    NormalizeFacts(path);
  }

  /** `set(path, value, force)`: an unforced write to a forced path is
      dropped; a forced write always lands and forces the path. */
  function SetValue(st: Store, path: string, value: Value, force: bool): (r: Store)
    ensures r.forced == if force then st.forced + {NormalizePath(path)} else st.forced
    ensures forall p :: p != NormalizePath(path) ==>
              (p in r.settings <==> p in st.settings) &&
              (p in st.settings ==> r.settings[p] == st.settings[p])
  {
    var p := NormalizePath(path);
    if force || p !in st.forced then
      Store(st.settings[p := value], if force then st.forced + {p} else st.forced)
    else st
  }

  /** A write that is let through is what `get` returns afterwards, under
      any spelling of the path. */
  lemma SetThenGet(st: Store, path: string, spelling: string, value: Value, force: bool, default: Value)
    requires NormalizePath(spelling) == NormalizePath(path)
    requires force || NormalizePath(path) !in st.forced
    ensures Get(SetValue(st, path, value, force).settings, spelling, default) == value
  {
  }

  /** An unforced write to a forced path changes nothing. */
  lemma ForcedSticks(st: Store, path: string, value: Value)
    requires NormalizePath(path) in st.forced
    ensures SetValue(st, path, value, false) == st
  {
  }

  /** The calls `_load` makes to `set`, in order: every item whose key does
      not start with "_", at `prefix + "." + key`, a namespace item
      recursively with that path as its prefix. */
  function Writes(items: seq<Item>, prefix: string): seq<(string, Value)>
    decreases items, 1
  {
    if items == [] then []
    else Writes(items[..|items| - 1], prefix) + ItemWrites(items[|items| - 1], prefix)
  }

  function ItemWrites(item: Item, prefix: string): seq<(string, Value)>
    decreases item, 0
  {
    if StartsWith(item.key, "_") then []
    else
      var path := prefix + "." + item.key;
      match item.node
      case Leaf(v) => [(path, v)]
      case Group(items) => Writes(items, path)
  }

  /** Unforced `set` of every write, in order. */
  function SetAll(st: Store, writes: seq<(string, Value)>): Store
  {
    if writes == [] then st
    else
      var last := writes[|writes| - 1];
      SetValue(SetAll(st, writes[..|writes| - 1]), last.0, last.1, false)
  }

  /** `load(config_dict)`. */
  function Loaded(st: Store, items: seq<Item>): Store
  {
    SetAll(st, Writes(items, ""))
  }

  lemma {:induction false} SetAllAppend(st: Store, a: seq<(string, Value)>, b: seq<(string, Value)>)
    ensures SetAll(st, a + b) == SetAll(SetAll(st, a), b)
    decreases |b|
  {
    if b == [] {
      assert a + b == a;
    } else {
      var n := |b| - 1;
      assert (a + b)[..|a + b| - 1] == a + b[..n];
      assert (a + b)[|a + b| - 1] == b[n];
      SetAllAppend(st, a, b[..n]);
    }
  }

  /** The value of the last write to normalised path `p`, if any. */
  function LastWrite(writes: seq<(string, Value)>, p: string): Option<Value>
  {
    if writes == [] then None
    else
      var last := writes[|writes| - 1];
      if NormalizePath(last.0) == p then Some(last.1) else LastWrite(writes[..|writes| - 1], p)
  }

  /** Loading never forces a path and never touches a forced one; every
      other path ends up holding the last value written to it, or what it
      held before. */
  lemma {:induction false} SetAllSpec(st: Store, writes: seq<(string, Value)>, p: string)
    ensures var r := SetAll(st, writes);
            && r.forced == st.forced
            && (p in st.forced || LastWrite(writes, p).None? ==>
                  (p in r.settings <==> p in st.settings) &&
                  (p in st.settings ==> r.settings[p] == st.settings[p]))
            && (p !in st.forced && LastWrite(writes, p).Some? ==>
                  p in r.settings && r.settings[p] == LastWrite(writes, p).value)
  {
    if writes != [] {
      SetAllSpec(st, writes[..|writes| - 1], p);
    }
  }

  /** Which leaves a group item contributes: nothing under a key that
      starts with "_", whatever it holds. */
  lemma PrivateKeysSkipped(items: seq<Item>, prefix: string, key: string, node: Node)
    requires StartsWith(key, "_")
    ensures Writes(items + [Item(key, node)], prefix) == Writes(items, prefix)
  {
    assert (items + [Item(key, node)])[..|items|] == items;
  }

  /** What `Group.__getattr__` answers. */
  datatype Lookup = Found(value: Value) | SubGroup(path: string) | Missing

  /** `Group.__getattr__(name)`, which Python calls only for names that
      `Group` and `Mapping` do not define: the setting at the exact path,
      else a sub-group when some key lies under that path, else None. */
  function GroupAttr(settings: map<string, Value>, group: string, name: string): (r: Lookup)
    ensures var path := NormalizePath(group + "." + name);
            && (r.Found? <==> path in settings)
            && (r.Found? ==> r.value == settings[path])
            && (r.SubGroup? ==> r.path == path)
            && (r.Missing? <==> path !in settings && forall k :: k in settings ==> !StartsWith(k, path + "."))
  {
    var path := NormalizePath(group + "." + name);
    if path in settings then Found(settings[path])
    else if exists k :: k in settings && StartsWith(k, path + ".") then SubGroup(path)
    else Missing
  }

  /** `key.split('.', 1)[0]`. */
  function FirstComponent(s: string): (r: string)
    ensures StartsWith(s, r) && '.' !in r
    ensures r == s || StartsWith(s, r + ".")
  {
    if s == [] || s[0] == '.' then []
    else
      var rest := FirstComponent(s[1..]);
      assert [s[0]] + rest == s[..|rest| + 1];
      assert rest != s[1..] ==> [s[0]] + rest + "." == s[..|rest| + 2];
      [s[0]] + rest
  }

  /** The key a setting has inside group `group`. */
  function Inside(key: string, group: string): string
    requires InGroup(key, group)
  {
    if group == [] then key else key[|group| + 1..]
  }

  predicate InGroup(key: string, group: string)
  {
    group == [] || StartsWith(key, group + ".")
  }

  /** `Group._dict().keys()`, which `len`, `iter` and `in` go by: the first
      component of every key under the group's prefix. */
  function ChildNames(settings: map<string, Value>, group: string): set<string>
  {
    set k | k in settings && InGroup(k, group) :: FirstComponent(Inside(k, group))
  }

  /** `group(path)`: a group over `path` itself, taken as given, or none
      for a path that is itself a setting. */
  function GroupOf(settings: map<string, Value>, path: string): (r: Option<string>)
    ensures r.None? <==> path in settings
    ensures r.Some? ==> r.value == path
  {
    if path in settings then None else Some(path)
  }

  /** An attribute of `group(path)` is the setting, the sub-group or the
      None that the joined path `path + "." + name` names. */
  lemma GroupOfLookup(settings: map<string, Value>, path: string, name: string)
    requires path !in settings
    ensures GroupOf(settings, path).Some?
    ensures var q := NormalizePath(path + "." + name);
            var r := GroupAttr(settings, GroupOf(settings, path).value, name);
            && (q in settings ==> r == Found(settings[q]))
            && (q !in settings && (exists k :: k in settings && StartsWith(k, q + ".")) ==> r == SubGroup(q))
            && (q !in settings && (forall k :: k in settings ==> !StartsWith(k, q + ".")) ==> r == Missing)
  {
  }

  /** The documented example: `c.group().foo` is the setting "foo" and
      `c.group("bar.baz").qux` the setting "bar.baz.qux". */
  lemma GroupDocExample(settings: map<string, Value>)
    requires "foo" in settings && "bar.baz.qux" in settings
    requires "" !in settings && "bar.baz" !in settings
    ensures GroupOf(settings, "") == Some("")
    ensures GroupAttr(settings, GroupOf(settings, "").value, "foo") == Found(settings["foo"])
    ensures GroupOf(settings, "bar.baz") == Some("bar.baz")
    ensures GroupAttr(settings, GroupOf(settings, "bar.baz").value, "qux") == Found(settings["bar.baz.qux"])
  {
    assert Normal("foo") && Normal("bar.baz.qux");
    NormalizeFacts("foo");
    assert "" + "." + "foo" == "." + "foo";
    assert "bar.baz" + "." + "qux" == "bar.baz.qux";
  }

  /** In a store whose keys were all written through `set` (so they are
      normal), every name a group lists resolves to a setting or to a
      sub-group, never to None. */
  lemma ChildNamesResolve(settings: map<string, Value>, group: string, name: string)
    requires forall k :: k in settings ==> Normal(k)
    requires Normal(group)
    requires name in ChildNames(settings, group)
    ensures !GroupAttr(settings, group, name).Missing?
  {
    var k :| k in settings && InGroup(k, group) && FirstComponent(Inside(k, group)) == name;
    if group == [] {
      RootChildResolves(k, name);
    } else {
      NestedChildResolves(k, group, name);
    }
  }

  /** Every key of the store is normal. */
  predicate NormalKeys(st: Store)
  {
    forall k :: k in st.settings ==> Normal(k)
  }

  /** `set` keeps every key normal: the one key it writes is normalised. */
  lemma SetValueKeepsNormal(st: Store, path: string, value: Value, force: bool)
    requires NormalKeys(st)
    ensures NormalKeys(SetValue(st, path, value, force))
  {
    var r := SetValue(st, path, value, force);
    forall k | k in r.settings
      ensures Normal(k)
    {
      if k != NormalizePath(path) {
        assert k in st.settings;
      }
    }
  }

  /** So does every sequence of unforced writes. */
  lemma {:induction false} SetAllKeepsNormal(st: Store, writes: seq<(string, Value)>)
    requires NormalKeys(st)
    ensures NormalKeys(SetAll(st, writes))
    decreases |writes|
  {
    if writes != [] {
      var n := |writes| - 1;
      SetAllKeepsNormal(st, writes[..n]);
      SetValueKeepsNormal(SetAll(st, writes[..n]), writes[n].0, writes[n].1, false);
    }
  }

  /** In a store that `load` filled, starting from an empty one or one
      written through `set`, every name a group lists resolves to a
      setting or a sub-group. */
  lemma LoadedNamesResolve(st: Store, items: seq<Item>, group: string, name: string)
    requires NormalKeys(st) && Normal(group)
    requires name in ChildNames(Loaded(st, items).settings, group)
    ensures !GroupAttr(Loaded(st, items).settings, group, name).Missing?
  {
    SetAllKeepsNormal(st, Writes(items, ""));
    ChildNamesResolve(Loaded(st, items).settings, group, name);
  }

  /** At the top level a listed name is the key itself or the start of
      a dotted key. */
  lemma RootChildResolves(k: string, name: string)
    requires Normal(k) && name == FirstComponent(k)
    ensures var path := NormalizePath("" + "." + name);
            path == k || StartsWith(k, path + ".")
  {
    assert "" + "." + name == "." + name;
    assert Normal(name) by {
      assert forall i :: 0 <= i < |name| ==> name[i] == k[..|name|][i] == k[i];
    }
    NormalizeFacts(name);
    assert NormalizePath("." + name) == name;
  }

  /** Inside a named group a listed name, after the group's prefix, is the
      key itself or the start of a dotted key. */
  lemma NestedChildResolves(k: string, group: string, name: string)
    requires Normal(k) && Normal(group) && group != []
    requires InGroup(k, group) && name == FirstComponent(Inside(k, group))
    ensures var path := NormalizePath(group + "." + name);
            path == k || StartsWith(k, path + ".")
  {
    var rest := Inside(k, group);
    assert k == (group + ".") + rest;
    assert forall i :: 0 <= i < |name| ==> name[i] == k[|group| + 1 + i];
    assert Normal(group + "." + name);
    var path := group + "." + name;
    if rest != name {
      assert StartsWith(rest, name + ".");
      assert k[..|path| + 1] == path + ".";
    }
  }

  /** Observing the value `now` from the last observed value `last`
      (`None` before the first access): whether it changed. */
  function ChangedAt(last: Option<Value>, now: Value): bool
  {
    last.Some? && !PyEq(now, last.value)
  }

  /** What `changed` answers when it is read once with each value of
      `values` in turn. */
  function ChangedTrace(values: seq<Value>): (r: seq<bool>)
    ensures |r| == |values|
  {
    if values == [] then []
    else
      var n := |values| - 1;
      ChangedTrace(values[..n]) + [ChangedAt(if n == 0 then None else Some(values[n - 1]), values[n])]
  }

  /** `changed` is false on first access, and afterwards true exactly when
      the value differs from the one seen on the previous access. */
  lemma {:induction false} ChangedTraceSpec(values: seq<Value>)
    ensures var r := ChangedTrace(values);
            && (|values| > 0 ==> !r[0])
            && forall i :: 0 < i < |values| ==> r[i] == !PyEq(values[i], values[i - 1])
  {
    if values != [] {
      var n := |values| - 1;
      ChangedTraceSpec(values[..n]);
      assert forall i :: 0 <= i < n ==> ChangedTrace(values)[i] == ChangedTrace(values[..n])[i];
    }
  }

  /** Python's `!=` sees no change from 1 to `True`, but does from 1 to 2. */
  lemma NumbersCompareByValue()
    ensures ChangedTrace([Int(1), Bool(true), Int(1), Int(2)]) == [false, false, false, true]
  {
    ChangedTraceSpec([Int(1), Bool(true), Int(1), Int(2)]);
  }

  /** The configuration object; its `_settings` and `_forced_settings`
      change in place. */
  class Config {
    var settings: map<string, Value>
    var forced: set<string>

    constructor ()
      ensures settings == map[] && forced == {}
    {
      settings := map[];
      forced := {};
    }

    function Snapshot(): Store
      reads this
    {
      Store(settings, forced)
    }

    /** `set(path, value, force)`. */
    method Set(path: string, value: Value, force: bool)
      modifies this
      ensures Snapshot() == SetValue(old(Snapshot()), path, value, force)
      ensures NormalKeys(old(Snapshot())) ==> NormalKeys(Snapshot())
    {
      if NormalKeys(Snapshot()) {
        SetValueKeepsNormal(Snapshot(), path, value, force);
      }
      var p := NormalizePath(path);
      if force || p !in forced {
        settings := settings[NormalizePath(p) := value];
        if force {
          forced := forced + {p};
        }
      }
    }

    /** `load(config_dict)`. */
    method Load(items: seq<Item>)
      modifies this
      ensures Snapshot() == Loaded(old(Snapshot()), items)
      ensures NormalKeys(old(Snapshot())) ==> NormalKeys(Snapshot())
    {
      LoadItems(items, "");
      if NormalKeys(old(Snapshot())) {
        SetAllKeepsNormal(old(Snapshot()), Writes(items, ""));
      }
    }

    /** The nested `_load(d, prefix)`. */
    method LoadItems(items: seq<Item>, prefix: string)
      modifies this
      decreases items
      ensures Snapshot() == SetAll(old(Snapshot()), Writes(items, prefix))
    {
      var i := 0;
      while i < |items|
        invariant 0 <= i <= |items|
        invariant Snapshot() == SetAll(old(Snapshot()), Writes(items[..i], prefix))
        decreases |items| - i
      {
        var item := items[i];
        ghost var before := Snapshot();
        assert items[..i + 1][..i] == items[..i] && items[..i + 1][i] == item;
        SetAllAppend(old(Snapshot()), Writes(items[..i], prefix), ItemWrites(item, prefix));
        if !StartsWith(item.key, "_") {
          var path := prefix + "." + item.key;
          match item.node
          case Leaf(v) =>
            Set(path, v, false);
            assert Snapshot() == SetAll(before, [(path, v)]);
          case Group(nested) =>
            LoadItems(nested, path);
        }
        i := i + 1;
      }
      assert items[..i] == items;
    }
  }

  /** A `_Setting` descriptor: the current value of `path` in `config`,
      and the value seen by the last read of `changed`. */
  class Setting {
    const config: Config
    const path: string
    const default: Value
    var last: Option<Value>

    constructor (config: Config, path: string, default: Value)
      ensures this.config == config && this.path == path && this.default == default
      ensures last == None
    {
      this.config := config;
      this.path := path;
      this.default := default;
      last := None;
    }

    /** `value`. */
    function Value(): Value
      reads this, config
    {
      Get(config.settings, path, default)
    }

    /** `changed`: record the current value and tell whether it differs,
        by Python's `!=`, from the one recorded before (never on the
        first read). */
    method Changed() returns (r: bool)
      modifies this
      ensures last == Some(Value())
      ensures r == ChangedAt(old(last), Value())
    {
      var previous := last;
      last := Some(Value());
      r := previous.Some? && !PyEq(Value(), previous.value);
    }
  }

  /** A fresh setting whose path is forced to each of `values` in turn,
      with `changed` read after every write, reports exactly
      `ChangedTrace`. */
  method ObserveChanges(s: Setting, values: seq<Value>) returns (r: seq<bool>)
    requires s.last == None
    modifies s, s.config
    ensures r == ChangedTrace(values)
  {
    r := [];
    var i := 0;
    while i < |values|
      invariant 0 <= i <= |values|
      invariant r == ChangedTrace(values[..i])
      invariant s.last == if i == 0 then None else Some(values[i - 1])
    {
      ghost var before := s.config.Snapshot();
      s.config.Set(s.path, values[i], true);
      SetThenGet(before, s.path, s.path, values[i], true, s.default);
      assert s.Value() == values[i];
      var c := s.Changed();
      ChangedTraceStep(values, i);
      r := r + [c];
      i := i + 1;
    }
    assert values[..i] == values;
  }

  /** One more reading extends the trace by the answer `changed` gives
      after the previous value. */
  lemma ChangedTraceStep(values: seq<Value>, i: nat)
    requires i < |values|
    ensures ChangedTrace(values[..i + 1]) ==
            ChangedTrace(values[..i]) + [ChangedAt(if i == 0 then None else Some(values[i - 1]), values[i])]
  {
    assert values[..i + 1][..i] == values[..i];
  }
}
