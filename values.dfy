/**
 * The Python runtime values the type-metadata core inspects: None, bool, int,
 * str, the built-in containers, callables and other objects. A value's class
 * and its ancestors (its method resolution order) decide `isinstance`.
 */
module Values {

  datatype Value =
    | VNone
    | VBool(b: bool)
    | VInt(i: int)
    /** A finite float, `mantissa / 2^exponent`. */
    | VFloat(mantissa: int, exponent: nat)
    | VStr(s: string)
    | VList(items: seq<Value>)
    /** A set, listed in its iteration order. */
    | VSet(items: seq<Value>)
    | VTuple(items: seq<Value>)
    /** A dict, listed in insertion order. */
    | VDict(entries: seq<(Value, Value)>)
    /**
     * A callable: a function, a class, a `functools.partial` or an object
     * with `__call__`, known only by its identity.
     */
    | VFunc(id: nat)
    /**
     * Any other object. `mro` lists its class first, then the classes it
     * derives from. Two objects of one class compare equal exactly when their
     * `key`s agree: the key is the object's identity under the default
     * `__eq__`, and stands for the compared state under a class's own `__eq__`
     * (an enum member, a dataclass instance). `truthy` is what `bool(v)`
     * answers through the class's `__bool__` or `__len__`.
     */
    | VObject(mro: seq<string>, key: nat, truthy: bool)

  /** The sentinel `dataclasses.MISSING`, meaning "no default". */
  const MISSING: Value := VObject(["_MISSING_TYPE", "object"], 0, true)

  /** A `FlattenOpts()` instance; all of them compare equal, as dataclass instances without fields do. */
  const FLATTEN_OPTS: Value := VObject(["FlattenOpts", "object"], 0, true)

  /** The method resolution order of the value's class. */
  function Mro(v: Value): seq<string>
  {
    match v
    case VNone => ["NoneType", "object"]
    case VBool(_) => ["bool", "int", "object"]
    case VInt(_) => ["int", "object"]
    case VFloat(_, _) => ["float", "object"]
    case VStr(_) => ["str", "object"]
    case VList(_) => ["list", "object"]
    case VSet(_) => ["set", "object"]
    case VTuple(_) => ["tuple", "object"]
    case VDict(_) => ["dict", "object"]
    case VFunc(_) => ["function", "object"]
    case VObject(mro, _, _) => mro
  }

  /** Python's `isinstance(v, cls)` for a class named `cls`. */
  predicate IsA(v: Value, cls: string)
  {
    cls in Mro(v)
  }

  /**
   * Python's `bool(v)`: None, False, 0, 0.0, "" and empty containers are
   * falsy; another object answers for itself.
   */
  predicate Truthy(v: Value)
  {
    match v
    case VNone => false
    case VBool(b) => b
    case VInt(i) => i != 0
    case VFloat(m, _) => m != 0
    case VStr(s) => s != ""
    case VList(xs) => xs != []
    case VSet(xs) => xs != []
    case VTuple(xs) => xs != []
    case VDict(es) => es != []
    case VFunc(_) => true
    case VObject(_, _, truthy) => truthy
  }

  /** Python's `callable(v)`. */
  predicate IsCallable(v: Value)
  {
    v.VFunc?
  }

  /** bool, int and float values compare with each other as numbers. */
  predicate IsNumber(v: Value)
  {
    v.VBool? || v.VInt? || v.VFloat?
  }

  function Pow2(e: nat): (r: nat)
    ensures r > 0
  {
    if e == 0 then 1 else 2 * Pow2(e - 1)
  }

  /** The number as a mantissa over a power of two: a bool or an int has exponent 0. */
  function Mantissa(v: Value): int
    requires IsNumber(v)
  {
    match v
    case VBool(b) => if b then 1 else 0
    case VInt(i) => i
    case VFloat(m, _) => m
  }

  function Exponent(v: Value): nat
    requires IsNumber(v)
  {
    if v.VFloat? then v.exponent else 0
  }

  /** Numeric `a == b`: `m1 / 2^e1 == m2 / 2^e2`, compared without division. */
  predicate NumEq(a: Value, b: Value)
    requires IsNumber(a) && IsNumber(b)
  {
    Mantissa(a) * Pow2(Exponent(b)) == Mantissa(b) * Pow2(Exponent(a))
  }

  /**
   * Python's `a == b`. Numbers compare by value at every depth (`1 == True`,
   * `1 == 1.0`, `(1,) == (True,)`); lists and tuples compare element by
   * element; a set or dict equals another of the same size whose elements
   * (or entries) match each of its own, in any order, and the other way
   * round, which for distinct elements and keys is Python's size-and-subset
   * test; functions compare by identity; other objects by class and key.
   * Values of different kinds are unequal.
   */
  predicate PyEq(a: Value, b: Value)
    decreases a, 2
  {
    if IsNumber(a) && IsNumber(b) then NumEq(a, b)
    else
      match a
      case VNone => b.VNone?
      case VStr(s) => b.VStr? && b.s == s
      case VList(xs) => b.VList? && |xs| == |b.items| && Pointwise(a, b)
      case VTuple(xs) => b.VTuple? && |xs| == |b.items| && Pointwise(a, b)
      case VSet(xs) => b.VSet? && |xs| == |b.items| && Covers(a, b) && CoveredBy(a, b)
      case VDict(es) => b.VDict? && |es| == |b.entries| && EntriesCover(a, b) && EntriesCoveredBy(a, b)
      case VFunc(id) => b.VFunc? && b.id == id
      case VObject(mro, key, _) => b.VObject? && b.mro == mro && b.key == key
      case _ => false
  }

  /** Element `i` of one sequence equals element `i` of the other. */
  predicate Pointwise(a: Value, b: Value)
    requires (a.VList? || a.VTuple?) && (b.VList? || b.VTuple?) && |a.items| == |b.items|
    decreases a, 1
  {
    forall i :: 0 <= i < |a.items| ==> PyEq(a.items[i], b.items[i])
  }

  /** Every element of `a` equals some element of `b`. */
  predicate Covers(a: Value, b: Value)
    requires a.VSet? && b.VSet?
    decreases a, 1
  {
    forall i :: 0 <= i < |a.items| ==> Has(a.items[i], b)
  }

  /** Every element of `b` equals some element of `a`. */
  predicate CoveredBy(a: Value, b: Value)
    requires a.VSet? && b.VSet?
    decreases a, 1
  {
    forall j :: 0 <= j < |b.items| ==> Hit(a, b.items[j])
  }

  /** `x` equals some element of the set `b`. */
  predicate Has(x: Value, b: Value)
    requires b.VSet?
    decreases x, 3
  {
    exists j :: 0 <= j < |b.items| && PyEq(x, b.items[j])
  }

  /** Some element of the set `a` equals `y`. */
  predicate Hit(a: Value, y: Value)
    requires a.VSet?
    decreases a, 0
  {
    exists i :: 0 <= i < |a.items| && PyEq(a.items[i], y)
  }

  /** Every entry of `a` has an entry of `b` with an equal key and an equal value. */
  predicate EntriesCover(a: Value, b: Value)
    requires a.VDict? && b.VDict?
    decreases a, 1
  {
    forall i :: 0 <= i < |a.entries| ==> HasEntry(a.entries[i], b)
  }

  /** Every entry of `b` has an entry of `a` with an equal key and an equal value. */
  predicate EntriesCoveredBy(a: Value, b: Value)
    requires a.VDict? && b.VDict?
    decreases a, 1
  {
    forall j :: 0 <= j < |b.entries| ==> HitEntry(a, b.entries[j])
  }

  predicate HasEntry(e: (Value, Value), b: Value)
    requires b.VDict?
    decreases e, 2
  {
    exists j :: 0 <= j < |b.entries| && EntryEq(e, b.entries[j])
  }

  predicate HitEntry(a: Value, f: (Value, Value))
    requires a.VDict?
    decreases a, 0
  {
    exists i :: 0 <= i < |a.entries| && EntryEq(a.entries[i], f)
  }

  /** Two dict entries match when their keys and their values are equal. */
  predicate EntryEq(e: (Value, Value), f: (Value, Value))
    decreases e, 1
  {
    PyEq(e.0, f.0) && PyEq(e.1, f.1)
  }

  /** Every value equals itself (floats here are finite, so there is no NaN). */
  lemma {:induction false} PyEqReflexive(a: Value)
    ensures PyEq(a, a)
    decreases a
  {
    if !IsNumber(a) {
      match a
      case VList(_) =>
        forall i | 0 <= i < |a.items| ensures PyEq(a.items[i], a.items[i]) { PyEqReflexive(a.items[i]); }
        assert Pointwise(a, a);
      case VTuple(_) =>
        forall i | 0 <= i < |a.items| ensures PyEq(a.items[i], a.items[i]) { PyEqReflexive(a.items[i]); }
        assert Pointwise(a, a);
      case VSet(_) =>
        forall i | 0 <= i < |a.items| ensures Has(a.items[i], a) && Hit(a, a.items[i]) {
          PyEqReflexive(a.items[i]);
        }
        assert Covers(a, a) && CoveredBy(a, a);
      case VDict(_) =>
        forall i | 0 <= i < |a.entries| ensures HasEntry(a.entries[i], a) && HitEntry(a, a.entries[i]) {
          PyEqReflexive(a.entries[i].0);
          PyEqReflexive(a.entries[i].1);
          assert EntryEq(a.entries[i], a.entries[i]);
        }
        assert EntriesCover(a, a) && EntriesCoveredBy(a, a);
      case _ =>
    }
  }

  /** Equality is symmetric. */
  lemma {:induction false} PyEqSymmetric(a: Value, b: Value)
    requires PyEq(a, b)
    ensures PyEq(b, a)
    decreases a, 1
  {
    if !(IsNumber(a) && IsNumber(b)) {
      match a
      case VList(_) =>
        forall i | 0 <= i < |b.items| ensures PyEq(b.items[i], a.items[i]) { PyEqSymmetric(a.items[i], b.items[i]); }
        assert Pointwise(b, a);
      case VTuple(_) =>
        forall i | 0 <= i < |b.items| ensures PyEq(b.items[i], a.items[i]) { PyEqSymmetric(a.items[i], b.items[i]); }
        assert Pointwise(b, a);
      case VSet(_) =>
        SetSymmetric(a, b);
      case VDict(_) =>
        DictSymmetric(a, b);
      case _ =>
    }
  }

  lemma {:induction false} SetSymmetric(a: Value, b: Value)
    requires a.VSet? && b.VSet? && Covers(a, b) && CoveredBy(a, b)
    ensures Covers(b, a) && CoveredBy(b, a)
    decreases a, 0
  {
    forall i | 0 <= i < |b.items| ensures Has(b.items[i], a) {
      assert Hit(a, b.items[i]);
      var j :| 0 <= j < |a.items| && PyEq(a.items[j], b.items[i]);
      PyEqSymmetric(a.items[j], b.items[i]);
    }
    forall j | 0 <= j < |a.items| ensures Hit(b, a.items[j]) {
      assert Has(a.items[j], b);
      var i :| 0 <= i < |b.items| && PyEq(a.items[j], b.items[i]);
      PyEqSymmetric(a.items[j], b.items[i]);
    }
  }

  lemma {:induction false} DictSymmetric(a: Value, b: Value)
    requires a.VDict? && b.VDict? && EntriesCover(a, b) && EntriesCoveredBy(a, b)
    ensures EntriesCover(b, a) && EntriesCoveredBy(b, a)
    decreases a, 0
  {
    forall i | 0 <= i < |b.entries| ensures HasEntry(b.entries[i], a) {
      assert HitEntry(a, b.entries[i]);
      var j :| 0 <= j < |a.entries| && EntryEq(a.entries[j], b.entries[i]);
      EntrySymmetric(a.entries[j], b.entries[i]);
    }
    forall j | 0 <= j < |a.entries| ensures HitEntry(b, a.entries[j]) {
      assert HasEntry(a.entries[j], b);
      var i :| 0 <= i < |b.entries| && EntryEq(a.entries[j], b.entries[i]);
      EntrySymmetric(a.entries[j], b.entries[i]);
    }
  }

  lemma {:induction false} EntrySymmetric(e: (Value, Value), f: (Value, Value))
    requires EntryEq(e, f)
    ensures EntryEq(f, e)
    decreases e, 2
  {
    PyEqSymmetric(e.0, f.0);
    PyEqSymmetric(e.1, f.1);
  }

  /** Numbers compare by value inside containers, and a list never equals a tuple. */
  lemma NumbersInsideExample()
    ensures PyEq(VTuple([VInt(1)]), VTuple([VBool(true)]))
    ensures !PyEq(VList([VInt(1)]), VTuple([VInt(1)]))
  {
    var one, yes := VTuple([VInt(1)]), VTuple([VBool(true)]);
    assert PyEq(one.items[0], yes.items[0]);
    assert Pointwise(one, yes);
  }

  /** A dict's insertion order does not matter: two entries in either order give equal dicts. */
  lemma DictOrderExample(e1: (Value, Value), e2: (Value, Value))
    ensures PyEq(VDict([e1, e2]), VDict([e2, e1]))
  {
    EntryReflexive(e1);
    EntryReflexive(e2);
    SwapCovers(e1, e2);
    SwapCoveredBy(e1, e2);
  }

  lemma EntryReflexive(e: (Value, Value))
    ensures EntryEq(e, e)
  {
    PyEqReflexive(e.0);
    PyEqReflexive(e.1);
  }

  lemma SwapCovers(e1: (Value, Value), e2: (Value, Value))
    requires EntryEq(e1, e1) && EntryEq(e2, e2)
    ensures EntriesCover(VDict([e1, e2]), VDict([e2, e1]))
  {
    var d2 := VDict([e2, e1]);
    assert HasEntry(e1, d2) by { assert EntryEq(e1, d2.entries[1]); }
    assert HasEntry(e2, d2) by { assert EntryEq(e2, d2.entries[0]); }
  }

  lemma SwapCoveredBy(e1: (Value, Value), e2: (Value, Value))
    requires EntryEq(e1, e1) && EntryEq(e2, e2)
    ensures EntriesCoveredBy(VDict([e1, e2]), VDict([e2, e1]))
  {
    var d1 := VDict([e1, e2]);
    assert HitEntry(d1, e1) by { assert EntryEq(d1.entries[0], e1); }
    assert HitEntry(d1, e2) by { assert EntryEq(d1.entries[1], e2); }
  }

  /** Members of one enum with different keys differ, and a float equals an int of the same value. */
  lemma ScalarExamples()
    ensures !PyEq(VObject(["Color", "Enum", "object"], 1, true), VObject(["Color", "Enum", "object"], 2, true))
    ensures PyEq(VFloat(2, 1), VInt(1)) && !PyEq(VFloat(0, 0), VFloat(3, 1))
  {
    assert Pow2(1) == 2;
  }
}
