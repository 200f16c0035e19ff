/**
 * The structural instance checker `is_instance(obj, typ)`: `isinstance` that
 * also accepts subscripted generics. It dispatches on the kind of the type,
 * samples only the first element of a list, a set or a dict, scans the
 * variants of a union in declaration order and walks the declared positions
 * of a tuple. The checker is not total: a non-empty tuple shorter than the
 * type's argument list, whose elements all match, makes it index out of
 * range, and the IndexError escapes to the caller.
 */
module Instance {

  import opened Values
  import opened Types

  /** What `is_instance` does: return True or False, or let an IndexError escape. */
  datatype Check = Answer(b: bool) | IndexError

  /**
   * The generated `typecheck` functions of dataclasses. `registered` holds the
   * classes that carry a serde scope; `passes(cls, v)` says whether looking up
   * and running that class's `typecheck` on `v` returns without raising (a
   * scope without a `typecheck` entry raises KeyError, which also counts as
   * not passing).
   */
  datatype TypeCheckOracle = TypeCheckOracle(registered: set<string>, passes: (string, Value) -> bool)

  /**
   * `is_instance(v, t)`. Only a tuple with declared positions, somewhere
   * inside the type, can make it raise.
   */
  function IsInstance(v: Value, t: Type, o: TypeCheckOracle): (r: Check)
    ensures r == IndexError ==> !NoPositionalTuple(t)
    decreases t, 2, 0
  {
    match t
    case Dataclass(name) =>
      // A failing typecheck is caught and reported as False; otherwise `isinstance` decides.
      if name in o.registered && !o.passes(name, v) then Answer(false) else Answer(IsA(v, name))
    case Optional(arg) =>
      if v.VNone? then Answer(true) else IsInstance(v, arg, o)
    case Union(_) => UnionFrom(v, t, 0, o)
    case List(elem) =>
      if !v.VList? then Answer(false)
      else if v.items == [] then Answer(true)
      else IsInstance(v.items[0], elem, o)
    case BareList => Answer(v.VList?)
    case Set(elem) =>
      if !v.VSet? then Answer(false)
      else if v.items == [] then Answer(true)
      else IsInstance(v.items[0], elem, o)
    case BareSet => Answer(v.VSet?)
    case Tuple(_) => TupleInstance(v, t, o)
    case VarTuple(_) => TupleInstance(v, t, o)
    case BareTuple => TupleInstance(v, t, o)
    case Dict(kt, vt) =>
      if !v.VDict? then Answer(false)
      else if v.entries == [] then Answer(true)
      else
        // `is_instance(k, ktyp) and is_instance(v, vtyp)` on the first pair only.
        (match IsInstance(v.entries[0].0, kt, o)
         case Answer(true) => IsInstance(v.entries[0].1, vt, o)
         case other => other)
    case BareDict => Answer(v.VDict?)
    case Generic(origin, _) => IsInstance(v, origin, o)
    case Literal(_) => Answer(true)
    case NewType(_, supertype) => Answer(IsA(v, supertype))
    case Ellipsis => Answer(true)
    case Nominal(name) => Answer(IsA(v, name))
  }

  /** The loop of `is_union_instance` from variant `i` on: the first variant that answers True wins. */
  function UnionFrom(v: Value, t: Type, i: nat, o: TypeCheckOracle): (r: Check)
    requires t.Union? && i <= |t.args|
    ensures r == IndexError ==> !NoPositionalTuple(t)
    decreases t, 0, |t.args| - i
  {
    if i == |t.args| then Answer(false)
    else
      match IsInstance(v, t.args[i], o)
      case Answer(false) => UnionFrom(v, t, i + 1, o)
      case other => other
  }

  /** `is_tuple_instance(v, t)`: bare `tuple` is plain `isinstance`, and only a non-empty tuple can raise. */
  function TupleInstance(v: Value, t: Type, o: TypeCheckOracle): (r: Check)
    requires t.Tuple? || t.VarTuple? || t.BareTuple?
    ensures t.BareTuple? ==> r == Answer(v.VTuple?)
    ensures r == IndexError ==> v.VTuple? && v.items != []
    decreases t, 1, 0
  {
    if !v.VTuple? then Answer(false)
    else
      var every := if t.VarTuple? then AllFrom(v.items, t, 0, o) else Answer(true);
      if every != Answer(true) then every
      else if v.items == [] || t.BareTuple? then Answer(true)
      else PositionsFrom(v.items, t, 0, o)
  }

  /** The scan of a variable-length tuple from element `i` on: every element must match. */
  function AllFrom(items: seq<Value>, t: Type, i: nat, o: TypeCheckOracle): (r: Check)
    requires t.VarTuple? && i <= |items|
    ensures r != Answer(true) ==> exists j :: i <= j < |items| && IsInstance(items[j], t.elem, o) == r
    decreases t, 0, |items| - i
  {
    if i == |items| then Answer(true)
    else
      match IsInstance(items[i], t.elem, o)
      case Answer(true) => AllFrom(items, t, i + 1, o)
      case other => other
  }

  /**
   * The loop `for i, arg in enumerate(type_args(t))` from position `i` on:
   * `items[i]` is checked against the `i`-th argument, and an argument past
   * the end of the tuple indexes out of range. `Ellipsis` always matches.
   */
  function PositionsFrom(items: seq<Value>, t: Type, i: nat, o: TypeCheckOracle): (r: Check)
    requires t.Tuple? || t.VarTuple?
    requires i <= |TypeArgs(t)|
    ensures r == Answer(false) ==>
      exists j :: i <= j < |TypeArgs(t)| && j < |items| && !TypeArgs(t)[j].Ellipsis? &&
        IsInstance(items[j], TypeArgs(t)[j], o) == Answer(false)
    decreases t, 0, |TypeArgs(t)| - i
  {
    var args := TypeArgs(t);
    if i == |args| then Answer(true)
    else if i >= |items| then IndexError
    else
      var here := if args[i].Ellipsis? then Answer(true) else IsInstance(items[i], args[i], o);
      if here == Answer(true) then PositionsFrom(items, t, i + 1, o) else here
  }

  // ---------------------------------------------------------------------------
  // The checker as the source runs it: recursive methods with early-exit loops.
  // ---------------------------------------------------------------------------

  method CheckInstance(v: Value, t: Type, o: TypeCheckOracle) returns (r: Check)
    ensures r == IsInstance(v, t, o)
    decreases t, 2, 0
  {
    match t {
      case Dataclass(name) =>
        if name in o.registered && !o.passes(name, v) {
          return Answer(false);
        }
        r := Answer(IsA(v, name));
      case Optional(arg) =>
        if v.VNone? {
          return Answer(true);
        }
        r := CheckInstance(v, arg, o);
      case Union(_) =>
        r := CheckUnion(v, t, o);
      case List(elem) =>
        if !v.VList? {
          return Answer(false);
        }
        if |v.items| == 0 {
          return Answer(true);
        }
        r := CheckInstance(v.items[0], elem, o);
      case BareList =>
        r := Answer(v.VList?);
      case Set(elem) =>
        if !v.VSet? {
          return Answer(false);
        }
        if |v.items| == 0 {
          return Answer(true);
        }
        r := CheckInstance(v.items[0], elem, o);
      case BareSet =>
        r := Answer(v.VSet?);
      case Tuple(_) =>
        r := CheckTuple(v, t, o);
      case VarTuple(_) =>
        r := CheckTuple(v, t, o);
      case BareTuple =>
        r := CheckTuple(v, t, o);
      case Dict(kt, vt) =>
        r := CheckDict(v, t, o);
      case BareDict =>
        r := Answer(v.VDict?);
      case Generic(origin, _) =>
        r := CheckInstance(v, origin, o);
      case Literal(_) =>
        r := Answer(true);
      case NewType(_, supertype) =>
        r := Answer(IsA(v, supertype));
      case Ellipsis =>
        r := Answer(true);
      case Nominal(name) =>
        r := Answer(IsA(v, name));
    }
  }

  /** `is_union_instance`: stop at the first variant that matches. */
  method CheckUnion(v: Value, t: Type, o: TypeCheckOracle) returns (r: Check)
    requires t.Union?
    ensures r == IsInstance(v, t, o)
    decreases t, 1, 0
  {
    var i := 0;
    while i < |t.args|
      invariant 0 <= i <= |t.args|
      invariant UnionFrom(v, t, i, o) == UnionFrom(v, t, 0, o)
    {
      var c := CheckInstance(v, t.args[i], o);
      if c != Answer(false) {
        return c;
      }
      i := i + 1;
    }
    return Answer(false);
  }

  /** `is_tuple_instance`. */
  method CheckTuple(v: Value, t: Type, o: TypeCheckOracle) returns (r: Check)
    requires t.Tuple? || t.VarTuple? || t.BareTuple?
    ensures r == IsInstance(v, t, o)
    decreases t, 1, 0
  {
    if !v.VTuple? {
      return Answer(false);
    }
    var items := v.items;
    if t.VarTuple? {
      var j := 0;
      while j < |items|
        invariant 0 <= j <= |items|
        invariant AllFrom(items, t, j, o) == AllFrom(items, t, 0, o)
      {
        var c := CheckInstance(items[j], t.elem, o);
        if c != Answer(true) {
          return c;
        }
        j := j + 1;
      }
    }
    if |items| == 0 || t.BareTuple? {
      return Answer(true);
    }
    var args := TypeArgs(t);
    var i := 0;
    while i < |args|
      invariant 0 <= i <= |args|
      invariant PositionsFrom(items, t, i, o) == PositionsFrom(items, t, 0, o)
    {
      if i >= |items| {
        // `obj[i]` past the end of the tuple.
        return IndexError;
      }
      var c;
      if args[i].Ellipsis? {
        c := Answer(true);
      } else {
        c := CheckInstance(items[i], args[i], o);
      }
      if c != Answer(true) {
        return c;
      }
      i := i + 1;
    }
    return Answer(true);
  }

  /** `is_dict_instance`: the loop over `obj.items()` returns on its first pair. */
  method CheckDict(v: Value, t: Type, o: TypeCheckOracle) returns (r: Check)
    requires t.Dict?
    ensures r == IsInstance(v, t, o)
    decreases t, 1, 0
  {
    if !v.VDict? {
      return Answer(false);
    }
    if |v.entries| == 0 {
      return Answer(true);
    }
    var (key, value) := v.entries[0];
    r := CheckInstance(key, t.key, o);
    if r == Answer(true) {
      r := CheckInstance(value, t.value, o);
    }
  }

  // ---------------------------------------------------------------------------
  // What the checker promises.
  // ---------------------------------------------------------------------------

  /** `Optional[T]` accepts None and otherwise defers to `T`; a plain class rejects None. */
  lemma OptionalInstance(v: Value, arg: Type, o: TypeCheckOracle)
    ensures IsInstance(VNone, Optional(arg), o) == Answer(true)
    ensures v != VNone ==> IsInstance(v, Optional(arg), o) == IsInstance(v, arg, o)
    ensures IsInstance(VNone, Nominal("int"), o) == Answer(false)
  {
  }

  lemma {:induction false} UnionFromMeaning(v: Value, t: Type, k: nat, o: TypeCheckOracle)
    requires t.Union? && k <= |t.args|
    ensures UnionFrom(v, t, k, o) == Answer(true) <==>
      exists i :: k <= i < |t.args| && IsInstance(v, t.args[i], o) == Answer(true) &&
        forall j :: k <= j < i ==> IsInstance(v, t.args[j], o) == Answer(false)
    ensures UnionFrom(v, t, k, o) == Answer(false) <==>
      forall i :: k <= i < |t.args| ==> IsInstance(v, t.args[i], o) == Answer(false)
    decreases |t.args| - k
  {
    if k < |t.args| {
      UnionFromMeaning(v, t, k + 1, o);
      var here := IsInstance(v, t.args[k], o);
      if here == Answer(true) {
        assert !(forall i :: k <= i < |t.args| ==> IsInstance(v, t.args[i], o) == Answer(false));
      } else if here == Answer(false) {
        if UnionFrom(v, t, k, o) == Answer(true) {
          var i :| k + 1 <= i < |t.args| && IsInstance(v, t.args[i], o) == Answer(true) &&
            forall j :: k + 1 <= j < i ==> IsInstance(v, t.args[j], o) == Answer(false);
          assert forall j :: k <= j < i ==> IsInstance(v, t.args[j], o) == Answer(false);
        }
      } else {
        assert !(forall i :: k <= i < |t.args| ==> IsInstance(v, t.args[i], o) == Answer(false));
      }
    }
  }

  /**
   * A union matches exactly when some variant matches and every variant
   * before it answers False; it answers False exactly when every variant
   * does. Variants are tried in declaration order.
   */
  lemma UnionInstance(v: Value, args: seq<Type>, o: TypeCheckOracle)
    ensures IsInstance(v, Union(args), o) == Answer(true) <==>
      exists i :: 0 <= i < |args| && IsInstance(v, args[i], o) == Answer(true) &&
        forall j :: 0 <= j < i ==> IsInstance(v, args[j], o) == Answer(false)
    ensures IsInstance(v, Union(args), o) == Answer(false) <==>
      forall i :: 0 <= i < |args| ==> IsInstance(v, args[i], o) == Answer(false)
  {
    UnionFromMeaning(v, Union(args), 0, o);
  }

  /**
   * Declaration order is observable: a short tuple raises under a fixed
   * tuple variant tried first, but matches when the bare `tuple` comes first.
   * And `True` matches `Union[bool, int]` at its first variant.
   */
  lemma UnionOrderExample(o: TypeCheckOracle)
    ensures IsInstance(VTuple([VInt(1)]), Union([Tuple([Nominal("int"), Nominal("int")]), BareTuple]), o) == IndexError
    ensures IsInstance(VTuple([VInt(1)]), Union([BareTuple, Tuple([Nominal("int"), Nominal("int")])]), o) == Answer(true)
    ensures IsInstance(VBool(true), Nominal("bool"), o) == Answer(true)
    ensures IsInstance(VBool(true), Union([Nominal("bool"), Nominal("int")]), o) == Answer(true)
  {
    var fixed := Tuple([Nominal("int"), Nominal("int")]);
    assert PositionsFrom([VInt(1)], fixed, 1, o) == IndexError;
    assert PositionsFrom([VInt(1)], fixed, 0, o) == IndexError;
  }

  /** A list is judged by its first element alone. */
  lemma ListInstance(v: Value, elem: Type, o: TypeCheckOracle)
    ensures !v.VList? ==> IsInstance(v, List(elem), o) == Answer(false)
    ensures v == VList([]) ==> IsInstance(v, List(elem), o) == Answer(true)
    ensures v.VList? && v.items != [] ==> IsInstance(v, List(elem), o) == IsInstance(v.items[0], elem, o)
    ensures IsInstance(v, BareList, o) == Answer(v.VList?)
  {
  }

  /** `[1, "x"]` matches `List[int]` but `["x", 1]` does not. */
  lemma ListSamplingExample(o: TypeCheckOracle)
    ensures IsInstance(VList([VInt(1), VStr("x")]), List(Nominal("int")), o) == Answer(true)
    ensures IsInstance(VList([VStr("x"), VInt(1)]), List(Nominal("int")), o) == Answer(false)
  {
  }

  /** A set is judged by the first element its iteration yields. */
  lemma SetInstance(v: Value, elem: Type, o: TypeCheckOracle)
    ensures !v.VSet? ==> IsInstance(v, Set(elem), o) == Answer(false)
    ensures v == VSet([]) ==> IsInstance(v, Set(elem), o) == Answer(true)
    ensures v.VSet? && v.items != [] ==> IsInstance(v, Set(elem), o) == IsInstance(v.items[0], elem, o)
    ensures IsInstance(v, BareSet, o) == Answer(v.VSet?)
  {
  }

  /** A dict is judged by its first key and value; the value is looked at only when the key matches. */
  lemma DictInstance(v: Value, kt: Type, vt: Type, o: TypeCheckOracle)
    ensures !v.VDict? ==> IsInstance(v, Dict(kt, vt), o) == Answer(false)
    ensures v == VDict([]) ==> IsInstance(v, Dict(kt, vt), o) == Answer(true)
    ensures v.VDict? && v.entries != [] && IsInstance(v.entries[0].0, kt, o) == Answer(true)
      ==> IsInstance(v, Dict(kt, vt), o) == IsInstance(v.entries[0].1, vt, o)
    ensures v.VDict? && v.entries != [] && IsInstance(v.entries[0].0, kt, o) != Answer(true)
      ==> IsInstance(v, Dict(kt, vt), o) == IsInstance(v.entries[0].0, kt, o)
    ensures IsInstance(v, BareDict, o) == Answer(v.VDict?)
  {
  }

  /** A dataclass runs its generated typecheck when it has one; a failure is False, otherwise `isinstance` decides. */
  lemma DataclassInstance(v: Value, name: string, o: TypeCheckOracle)
    ensures name in o.registered && !o.passes(name, v) ==> IsInstance(v, Dataclass(name), o) == Answer(false)
    ensures !(name in o.registered && !o.passes(name, v)) ==> IsInstance(v, Dataclass(name), o) == Answer(IsA(v, name))
  {
  }

  lemma {:induction false} PositionsFromMeaning(items: seq<Value>, t: Type, k: nat, o: TypeCheckOracle)
    requires t.Tuple? && k <= |t.args|
    ensures PositionsFrom(items, t, k, o) == Answer(true) <==>
      k == |t.args| ||
      (|t.args| <= |items| && forall i :: k <= i < |t.args| ==> IsInstance(items[i], t.args[i], o) == Answer(true))
    ensures k < |t.args| && |items| < |t.args| &&
      (forall i :: k <= i < |items| ==> IsInstance(items[i], t.args[i], o) == Answer(true))
      ==> PositionsFrom(items, t, k, o) == IndexError
    decreases |t.args| - k
  {
    assert TypeArgs(t) == t.args;
    if k == |t.args| {
      assert PositionsFrom(items, t, k, o) == Answer(true);
    } else if k >= |items| {
      assert PositionsFrom(items, t, k, o) == IndexError;
    } else {
      PositionsFromMeaning(items, t, k + 1, o);
      var here := IsInstance(items[k], t.args[k], o);
      if t.args[k].Ellipsis? {
        assert here == Answer(true);
      }
      if here == Answer(true) {
        assert PositionsFrom(items, t, k, o) == PositionsFrom(items, t, k + 1, o);
      } else {
        assert PositionsFrom(items, t, k, o) == here;
      }
    }
  }

  /**
   * A non-empty tuple matches `Tuple[T0, ..., Tn]` exactly when it has at
   * least n + 1 elements and each of the first n + 1 matches its declared
   * type: trailing elements are never looked at and the lengths need not be
   * equal.
   */
  lemma FixedTupleInstance(items: seq<Value>, args: seq<Type>, o: TypeCheckOracle)
    ensures IsInstance(VTuple(items), Tuple(args), o) == Answer(true) <==>
      items == [] || (|args| <= |items| && forall i :: 0 <= i < |args| ==> IsInstance(items[i], args[i], o) == Answer(true))
  {
    PositionsFromMeaning(items, Tuple(args), 0, o);
  }

  /** A non-empty tuple shorter than the declared argument list, whose elements all match, makes the check raise. */
  lemma ShortTupleRaises(items: seq<Value>, args: seq<Type>, o: TypeCheckOracle)
    requires 0 < |items| < |args|
    requires forall i :: 0 <= i < |items| ==> IsInstance(items[i], args[i], o) == Answer(true)
    ensures IsInstance(VTuple(items), Tuple(args), o) == IndexError
  {
    PositionsFromMeaning(items, Tuple(args), 0, o);
  }

  lemma {:induction false} AllFromMeaning(items: seq<Value>, t: Type, k: nat, o: TypeCheckOracle)
    requires t.VarTuple? && k <= |items|
    ensures AllFrom(items, t, k, o) == Answer(true) <==>
      forall i :: k <= i < |items| ==> IsInstance(items[i], t.elem, o) == Answer(true)
    decreases |items| - k
  {
    if k < |items| {
      AllFromMeaning(items, t, k + 1, o);
    }
  }

  /**
   * A tuple matches `Tuple[T, ...]` exactly when every element matches `T`
   * and it does not have exactly one element: for a single element the
   * position loop reaches the `...` argument at index 1 and raises.
   */
  lemma VarTupleInstance(items: seq<Value>, elem: Type, o: TypeCheckOracle)
    ensures IsInstance(VTuple(items), VarTuple(elem), o) == Answer(true) <==>
      |items| != 1 && forall i :: 0 <= i < |items| ==> IsInstance(items[i], elem, o) == Answer(true)
    ensures |items| == 1 && IsInstance(items[0], elem, o) == Answer(true)
      ==> IsInstance(VTuple(items), VarTuple(elem), o) == IndexError
  {
    var t := VarTuple(elem);
    AllFromMeaning(items, t, 0, o);
    assert TypeArgs(t) == [elem, Ellipsis];
    if AllFrom(items, t, 0, o) == Answer(true) && |items| > 0 {
      assert IsInstance(items[0], elem, o) == Answer(true);
      assert TupleInstance(VTuple(items), t, o) == PositionsFrom(items, t, 0, o);
      if |items| >= 2 {
        assert PositionsFrom(items, t, 2, o) == Answer(true);
        assert PositionsFrom(items, t, 1, o) == Answer(true);
        assert PositionsFrom(items, t, 0, o) == Answer(true);
      } else {
        assert PositionsFrom(items, t, 1, o) == IndexError;
        assert PositionsFrom(items, t, 0, o) == IndexError;
      }
    }
  }

  /** Type descriptors with no tuple of declared positions inside: on them the checker never raises. */
  predicate NoPositionalTuple(t: Type)
  {
    match t
    case Optional(a) => NoPositionalTuple(a)
    case Union(args) => forall i :: 0 <= i < |args| ==> NoPositionalTuple(args[i])
    case List(e) => NoPositionalTuple(e)
    case Set(e) => NoPositionalTuple(e)
    case Tuple(_) => false
    case VarTuple(_) => false
    case Dict(k, v) => NoPositionalTuple(k) && NoPositionalTuple(v)
    case Generic(origin, _) => NoPositionalTuple(origin)
    case _ => true
  }

  /**
   * The checker on tuples: trailing elements are ignored, a short tuple whose
   * elements match raises, and under `Tuple[int, ...]` a pair of ints matches
   * while a single int raises.
   */
  lemma TupleExamples(o: TypeCheckOracle)
    ensures IsInstance(VTuple([VInt(1), VStr("x")]), Tuple([Nominal("int")]), o) == Answer(true)
    ensures IsInstance(VTuple([VInt(1)]), Tuple([Nominal("int"), Nominal("str")]), o) == IndexError
    ensures IsInstance(VTuple([VInt(1), VInt(2)]), VarTuple(Nominal("int")), o) == Answer(true)
    ensures IsInstance(VTuple([VInt(1)]), VarTuple(Nominal("int")), o) == IndexError
  {
    FixedTupleInstance([VInt(1), VStr("x")], [Nominal("int")], o);
    ShortTupleRaises([VInt(1)], [Nominal("int"), Nominal("str")], o);
    VarTupleInstance([VInt(1), VInt(2)], Nominal("int"), o);
    VarTupleInstance([VInt(1)], Nominal("int"), o);
  }
}
