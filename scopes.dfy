/**
 * The registries that generated code lives in: the per-class `Scope`, which
 * holds the generated functions (and their source text in debug mode), and
 * the `GlobalScope`, which keeps one wrapper dataclass per union signature.
 */
module Scopes {

  import opened Wrappers
  import opened Values
  import opened Types
  import opened Errors
  import Names
  import Config

  /** The code-generation context of one class. */
  class Scope {
    /** The exact class the scope belongs to (scopes of derived classes are distinct). */
    const cls: Type
    /** Generated serialize and deserialize functions, by name. */
    var funcs: map<string, Value>
    /** Defaults (values and factories) of the class's fields, by field name. */
    var defaults: map<string, Value>
    /** Source text of the generated functions; filled only in debug mode. */
    var code: map<string, string>
    /** The type lists the union serializers refer to, by function name. */
    var unionSeArgs: map<string, seq<Type>>
    var reuseInstancesDefault: bool
    var convertSetsDefault: bool

    constructor (cls: Type)
      ensures this.cls == cls
      ensures funcs == map[] && defaults == map[] && code == map[] && unionSeArgs == map[]
      ensures reuseInstancesDefault && !convertSetsDefault
    {
      this.cls := cls;
      funcs := map[];
      defaults := map[];
      code := map[];
      unionSeArgs := map[];
      reuseInstancesDefault := true;
      convertSetsDefault := false;
    }
  }

  /**
   * What `gen` hands back after executing a function's source: the text it
   * ran (black-formatted in debug mode) and the globals dictionary as the
   * execution left it.
   */
  datatype Generated = Generated(code: string, globals: map<string, Value>)

  /**
   * `add_func(scope, func_name, func_code, globals)`, after `gen` has run:
   * the function the execution bound to `funcName` is registered under that
   * name, and its source text is kept only in debug mode. When the execution
   * bound no such name the lookup raises KeyError and the scope is untouched.
   */
  method AddFunc(scope: Scope, funcName: string, generated: Generated, settings: Config.Settings) returns (r: Option<Error>)
    modifies scope
    ensures funcName !in generated.globals ==> r == Some(KeyError(funcName)) && unchanged(scope)
    ensures funcName in generated.globals ==> r.None?
    ensures funcName in generated.globals ==> scope.funcs == old(scope.funcs)[funcName := generated.globals[funcName]]
    ensures funcName in generated.globals ==>
      scope.code == if settings.debug then old(scope.code)[funcName := generated.code] else old(scope.code)
    ensures scope.defaults == old(scope.defaults) && scope.unionSeArgs == old(scope.unionSeArgs)
    ensures scope.reuseInstancesDefault == old(scope.reuseInstancesDefault)
    ensures scope.convertSetsDefault == old(scope.convertSetsDefault)
  {
    if funcName !in generated.globals {
      return Some(KeyError(funcName));
    }
    scope.funcs := scope.funcs[funcName := generated.globals[funcName]];
    if settings.debug {
      scope.code := scope.code[funcName := generated.code];
    }
    return None;
  }

  /** A dataclass made by `make_dataclass(name, [("v", cls)])`. */
  class WrapperClass {
    const name: string
    /** The type of its single field `v`. */
    const fieldType: Type
    /** The `__serde__` attribute that `serde(wrapper)` attaches; null before that. */
    var scope: Scope?

    constructor (name: string, fieldType: Type)
      ensures this.name == name && this.fieldType == fieldType && scope == null
    {
      this.name := name;
      this.fieldType := fieldType;
      scope := null;
    }
  }

  /** The prefix of the wrapper class names. */
  const GLOBAL_PREFIX: string := "global"

  /**
   * `union_func_name("global", type_args(t))`: the key of a union's wrapper.
   * `typename` names each type argument.
   */
  function UnionKey(typename: Type -> string, t: Type): (key: string)
    ensures key == Names.UnionFuncName(GLOBAL_PREFIX, TypeNames(typename, TypeArgs(t)))
    ensures Names.IsIdent(key)
  {
    Names.UnionFuncName(GLOBAL_PREFIX, TypeNames(typename, TypeArgs(t)))
  }

  /** The registry of union wrapper classes. */
  class GlobalScope {
    var classes: map<string, WrapperClass>

    /** Every wrapper is stored under its own class name. */
    ghost predicate Valid()
      reads this
    {
      forall key :: key in classes ==> classes[key].name == key
    }

    constructor ()
      ensures classes == map[] && Valid()
    {
      classes := map[];
    }

    /** `get_union(t)`: the wrapper stored under the union's key, or None. */
    function GetUnion(typename: Type -> string, t: Type): (r: Option<WrapperClass>)
      reads this
      ensures r.Some? <==> UnionKey(typename, t) in classes
      ensures r.Some? ==> r.value == classes[UnionKey(typename, t)]
      ensures Valid() && r.Some? ==> r.value.name == UnionKey(typename, t)
    {
      var key := UnionKey(typename, t);
      if key in classes then Some(classes[key]) else None
    }

    /**
     * `add_union(t)`: make a fresh wrapper dataclass for the union, let
     * `serde(wrapper)` attach its scope (`registered`, produced outside this
     * model), store it under the union's key and return it. That store is
     * the only change to `classes`; an earlier wrapper under the same key is
     * replaced.
     */
    method AddUnion(typename: Type -> string, t: Type, registered: Scope) returns (w: WrapperClass)
      requires Valid()
      modifies this
      ensures fresh(w)
      ensures w.name == UnionKey(typename, t) && w.fieldType == t && w.scope == registered
      ensures classes == old(classes)[UnionKey(typename, t) := w]
      ensures Valid()
      ensures GetUnion(typename, t) == Some(w)
      ensures forall u :: TypeNames(typename, TypeArgs(u)) == TypeNames(typename, TypeArgs(t)) ==> GetUnion(typename, u) == Some(w)
    {
      var key := UnionKey(typename, t);
      w := new WrapperClass(key, t);
      w.scope := registered;
      classes := classes[key := w];
    }

    /**
     * The lookup `serialize_union` and `deserialize_union` perform before
     * calling the generated function: the wrapper's `__serde__` scope
     * (AttributeError when the union has no wrapper or the wrapper no
     * scope), then the function named `union_func_name(prefix, type_args(t))`
     * in it (KeyError when absent).
     */
    method UnionFunc(typename: Type -> string, t: Type, prefix: string) returns (r: Result<Value, Error>)
      ensures UnionKey(typename, t) !in classes ==> r == Failure(AttributeError("__serde__"))
      ensures UnionKey(typename, t) in classes && classes[UnionKey(typename, t)].scope == null ==>
        r == Failure(AttributeError("__serde__"))
      ensures UnionKey(typename, t) in classes && classes[UnionKey(typename, t)].scope != null ==>
        var funcs := classes[UnionKey(typename, t)].scope.funcs;
        var name := Names.UnionFuncName(prefix, TypeNames(typename, TypeArgs(t)));
        r == if name in funcs then Success(funcs[name]) else Failure(KeyError(name))
    {
      var wrapper := GetUnion(typename, t);
      if wrapper.None? || wrapper.value.scope == null {
        return Failure(AttributeError("__serde__"));
      }
      var funcs := wrapper.value.scope.funcs;
      var name := Names.UnionFuncName(prefix, TypeNames(typename, TypeArgs(t)));
      if name !in funcs {
        return Failure(KeyError(name));
      }
      return Success(funcs[name]);
    }
  }
}
