/** What the three configuration stores share: the values they hold, the
    nested input their `load` functions flatten, and Python 2's
    `str.lower`, which on byte strings folds only the ASCII capitals. */
module ConfigTree {

  /** A configuration value; `NoneValue` is Python's None. */
  datatype Value = NoneValue | Bool(b: bool) | Int(i: int) | Str(s: string)

  /** Nested configuration input: a value, or a namespace whose items are
      listed in iteration order.  A namespace is a classic-style class in
      ginkgo/config.py, a `Namespace` in gservice/config.py and a `dict` in
      gevent_tools/config.py. */
  datatype Node = Leaf(value: Value) | Group(items: seq<Item>)

  datatype Item = Item(key: string, node: Node)

  function LowerChar(c: char): char
  {
    if 'A' <= c <= 'Z' then (c as int + 32) as char else c
  }

  /** `s.lower()`. */
  function Lower(s: string): (r: string)
    ensures |r| == |s|
    ensures forall i :: 0 <= i < |s| ==> r[i] == LowerChar(s[i])
  {
    seq(|s|, i requires 0 <= i < |s| => LowerChar(s[i]))
  }

  predicate IsLower(s: string)
  {
    forall i :: 0 <= i < |s| ==> 'A' > s[i] || s[i] > 'Z'
  }

  /** Lowercasing yields a lowercase string and leaves one unchanged, so
      it is idempotent. */
  lemma LowerFacts(s: string)
    ensures IsLower(Lower(s))
    ensures IsLower(s) ==> Lower(s) == s
    ensures Lower(Lower(s)) == Lower(s)
  {
    var l := Lower(s);
    assert forall i :: 0 <= i < |l| ==> LowerChar(l[i]) == l[i];
    assert Lower(l) == l;
  }

  /** Lowercasing works character by character. */
  lemma LowerAppend(a: string, b: string)
    ensures Lower(a + b) == Lower(a) + Lower(b)
  {
    assert forall i :: 0 <= i < |a + b| ==> Lower(a + b)[i] == (Lower(a) + Lower(b))[i];
  }

  /** A bool or an int: the values Python 2 compares as numbers. */
  predicate IsNumber(v: Value)
  {
    v.Bool? || v.Int?
  }

  /** The number a bool or an int stands for: `True` is 1, `False` is 0. */
  function Number(v: Value): int
    requires IsNumber(v)
  {
    if v.Bool? then (if v.b then 1 else 0) else v.i
  }

  /** Python 2's `==` on configuration values: bools and ints compare as
      numbers (`True == 1`, `False == 0`); otherwise two values are equal
      only when they are the same value. */
  predicate PyEq(a: Value, b: Value)
  {
    if IsNumber(a) && IsNumber(b) then Number(a) == Number(b) else a == b
  }

  /** `==` is an equivalence that equates exactly the same values and the
      bools with the ints 1 and 0, so `!=` does not see 1 become `True`. */
  lemma PyEqFacts(a: Value, b: Value, c: Value)
    ensures PyEq(a, a)
    ensures PyEq(a, b) == PyEq(b, a)
    ensures PyEq(a, b) && PyEq(b, c) ==> PyEq(a, c)
    ensures PyEq(a, b) <==> a == b || (a.Bool? && b == Int(Number(a))) || (b.Bool? && a == Int(Number(b)))
    ensures PyEq(Bool(true), Int(1)) && PyEq(Bool(false), Int(0)) && !PyEq(Bool(true), Int(2))
  {
    if PyEq(a, b) && IsNumber(a) && IsNumber(b) && a != b && !a.Bool? {
      assert b.Bool?;
    }
  }

  predicate StartsWith(s: string, prefix: string)
  {
    |prefix| <= |s| && s[..|prefix|] == prefix
  }
}
