/**
 * Type descriptors: the annotations the core dispatches on. `typing.Optional[T]`
 * is its own kind (it is the two-argument union with None that the
 * compatibility layer recognises), and the bare forms `List`, `Set`, `Tuple` and
 * `Dict` carry no arguments.
 */
module Types {

  import opened Values

  datatype Type =
    /** A class decorated with `@dataclass`. */
    | Dataclass(name: string)
    | Optional(arg: Type)
    | Union(args: seq<Type>)
    | List(elem: Type)
    | BareList
    | Set(elem: Type)
    | BareSet
    | Tuple(args: seq<Type>)
    /** `Tuple[T, ...]`. */
    | VarTuple(elem: Type)
    | BareTuple
    | Dict(key: Type, value: Type)
    | BareDict
    /** A parameterised generic class other than the containers above. */
    | Generic(origin: Type, params: seq<Type>)
    | Literal(values: seq<Value>)
    /** `NewType(name, supertype)` over a primitive class. */
    | NewType(name: string, supertype: string)
    /** The `...` marker inside `Tuple[T, ...]`. */
    | Ellipsis
    /** Any other class, such as `int`, `str` or `NoneType`. */
    | Nominal(name: string)

  const NONE_TYPE: Type := Nominal("NoneType")

  /**
   * `type_args(t)`: the arguments of a subscripted type. `Optional[T]` has
   * `(T, NoneType)` and `Tuple[T, ...]` has `(T, Ellipsis)`. A literal's
   * arguments are values, not types; they are not listed here.
   */
  function TypeArgs(t: Type): (args: seq<Type>)
    ensures t.Union? || t.Tuple? ==> args == t.args
    ensures t.Optional? ==> args == [t.arg, NONE_TYPE]
    ensures t.VarTuple? ==> args == [t.elem, Ellipsis]
    ensures t.List? || t.Set? ==> args == [t.elem]
    ensures t.Dict? ==> args == [t.key, t.value]
    ensures t.Generic? ==> args == t.params
    ensures t.BareList? || t.BareSet? || t.BareTuple? || t.BareDict? ==> args == []
    ensures t.Dataclass? || t.Nominal? || t.NewType? || t.Ellipsis? || t.Literal? ==> args == []
  {
    match t
    case Optional(a) => [a, NONE_TYPE]
    case Union(args) => args
    case List(e) => [e]
    case Set(e) => [e]
    case Tuple(args) => args
    case VarTuple(e) => [e, Ellipsis]
    case Dict(k, v) => [k, v]
    case Generic(_, params) => params
    case _ => []
  }

  /** The names `typename` gives the arguments, in order. */
  function TypeNames(typename: Type -> string, ts: seq<Type>): (names: seq<string>)
    ensures |names| == |ts|
    ensures forall i :: 0 <= i < |ts| ==> names[i] == typename(ts[i])
  {
    seq(|ts|, i requires 0 <= i < |ts| => typename(ts[i]))
  }
}
