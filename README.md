# pyserde type-metadata core in Dafny

This project models the layer of pyserde (`serde/core.py`) that its
encoders and decoders rely on. The model has six parts:

- **Name mangling.** `union_func_name`, `literal_func_name` and
  `Field.mangle` build the identifiers that generated functions are
  registered under (`names.dfy`).
- **Field attributes.** `field()` records pyserde's options in a field's
  metadata dictionary, filling a caller's non-empty dictionary in place.
  `Field.from_dataclass` reads them back into one `Field` record. `conv`
  works out a field's name on the wire. The skip predicates, `supports_default`
  and `is_self_referencing` are modelled too (`fields.dfy`).
- **Configuration values.** These are the union `Tagging` and its `check`,
  the `TypeCheck` flavours, `coerce` and `is_coercible`, and the module's
  `SETTINGS` with `init` (`config.dfy`).
- **The structural instance checker.** `is_instance` and its `is_*_instance`
  helpers become a recursive function over type descriptors (`types.dfy`) and
  Python values (`values.dfy`). Recursive methods with the source's
  early-exit loops are proved equal to it (`instance.dfy`).
- **The registries.** `Scope` is a class whose dictionaries the methods
  update. `add_func` registers a generated function. `GlobalScope`'s
  `get_union` and `add_union` manage the wrapper dataclass kept for each
  union signature, and a lookup models what `serialize_union` and
  `deserialize_union` do before calling the generated function
  (`scopes.dfy`).
- **`should_impl_dataclass`.** It decides whether a class still needs
  `@dataclass` (`dataclasses.dfy`).

Several things are parameters of the model:

- Python values are a datatype. `isinstance` follows each value's method
  resolution order, so `bool` is a subclass of `int`.
- Callables are opaque values.
- `typename` is a function parameter. The case converters are a map from
  case name to conversion function.
- A dataclass's generated `typecheck` is an oracle that passes or fails.
- What `exec` defines is the globals dictionary handed to `add_func`.
- `serde(wrapper)` registration is the scope handed to `add_union`.

Errors are values. `Result`, `Option<Error>` and the `Check` answer of the
instance checker stand for raised exceptions.

Behaviour of the code worth knowing:

- `is_instance` is not total. A non-empty tuple shorter than a fixed tuple
  type's argument list, whose elements all match, makes `obj[i]` index out
  of range, and so does a one-element tuple whose element matches, checked
  against `Tuple[T, ...]`, because that type's arguments are
  `(T, Ellipsis)`. A tuple with an element that does not match is rejected
  first. The `IndexError` escapes, and the model
  returns `Check.IndexError`.
- A fixed-length tuple's length is never compared with the arity. Extra
  trailing elements pass unchecked.
- `Tagging` is validated by `check()`, not when the value is constructed.
- `coerce` calls the type on every value except None. It does not first
  test whether the value already conforms.
- `add_union` always makes a new wrapper and replaces any earlier one under
  the same key. It never returns a cached one.

## Model

| member | source | states |
|---|---|---|
| Names.Sanitize | serde/core.py:637 | each character outside [A-Za-z0-9] becomes `_` and every other is kept; the length is unchanged and the result holds only identifier characters |
| Names.UnionFuncName | serde/core.py:625-637 | the name is the sanitised `prefix_name1_name2...`; it is as long as that text, is an identifier, and starts with the sanitised prefix and `_` |
| Names.LiteralParts | serde/core.py:651 | each literal contributes `value_typename`, in order |
| Names.LiteralFuncName | serde/core.py:640-652 | a literal function name is the union function name under prefix `literal_de` over the `value_typename` parts, so it is an identifier |
| Names.Mangle | serde/core.py:574-578 | the mangled name is the field name, `_`, then the purpose |
| Names.SanitizeConcat | serde/core.py:637 | sanitising distributes over concatenation |
| Names.SanitizeIdent | serde/core.py:637 | text that is already an identifier is left unchanged |
| Names.SanitizeIdempotent | serde/core.py:637 | sanitising twice is sanitising once |
| Names.JoinIdent | serde/core.py:637 | joining identifiers with `_` gives an identifier |
| Names.UnionFuncNameOfIdents | serde/core.py:625-637 | when the prefix and all type names are identifiers, the union function name is the plain joined text |
| Names.IdentConcat | serde/core.py:637 | concatenating identifiers gives an identifier |
| Names.UnionFuncNameCollision | serde/core.py:625-637 | two type-name lists give the same name under one prefix exactly when their sanitised joins are equal |
| Names.UnionFuncNameCollisionExample | serde/core.py:625-637 | `List[str]` and a type named `List_str_` get the same union function name |
| Names.UnionFuncNameExample | serde/core.py:632-635 | the documented example: `int`, `List[str]`, `IPv4Address` under `union_se` give `union_se_int_List_str__IPv4Address` |
| Names.LiteralFuncNameExample | serde/core.py:647-648 | the documented example: the eight file modes give `literal_de_r_str_w_str_a_str_x_str_r__str_w__str_a__str_x__str` |
| Names.JoinAppend | serde/core.py:637 | joining two non-empty lists is joining each and gluing the results with the separator |
| Names.MangleInjective | serde/core.py:574-578 | one field's wrappers for different purposes get different names, and two differently named fields' wrappers for one purpose do too |
| Values.Truthy | serde/core.py:354-355 | reference definition of `bool(v)`: None, False, zero numbers and empty containers and strings are falsy, an object answers its `__bool__` |
| Values.PyEq | serde/core.py:358-359 | reference definition of `==`: numbers by value across `bool`, `int` and `float`; lists and tuples elementwise and never with each other; sets and dicts regardless of order; objects of one class by their key |
| Values.PyEqReflexive | serde/core.py:358-359 | every value equals itself, so a value is skipped when it is its own default |
| Values.PyEqSymmetric | serde/core.py:358-359 | equality is symmetric, so comparing with the default does not depend on the side |
| Values.NumbersInsideExample | serde/core.py:358-359 | `(1,) == (True,)` and `[1] != (1,)` |
| Values.DictOrderExample | serde/core.py:358-359 | two dicts with the same two entries in either order are equal |
| Values.ScalarExamples | serde/core.py:358-359 | enum members with different values differ; `1.0 == 1`; `0.0 != 1.5` |
| Types.TypeArgs | serde/core.py:234-319 | `Optional[T]` has arguments `(T, NoneType)`, `Tuple[T, ...]` has `(T, Ellipsis)`, unions and fixed tuples their own list, `List[T]` and `Set[T]` `(T,)`, `Dict[K, V]` `(K, V)`, another generic its parameters, and the bare containers, dataclasses, plain classes, new types and `...` none |
| Types.TypeNames | serde/core.py:637 | one name per type argument, in order |
| Instance.CheckInstance | serde/core.py:221-256 | the dispatching checker answers exactly what `IsInstance` does, on every value and type |
| Instance.CheckUnion | serde/core.py:266-270 | the early-exit variant loop answers what `IsInstance` does on the union |
| Instance.CheckTuple | serde/core.py:293-306 | the element loop for variable tuples and the position loop answer what `IsInstance` does, including the out-of-range index |
| Instance.CheckDict | serde/core.py:309-319 | reading only the first pair, as the loop that returns on its first iteration does, answers what `IsInstance` does |
| Instance.OptionalInstance | serde/core.py:259-263 | `Optional[T]` accepts None and otherwise gives T's answer; `int` rejects None |
| Instance.UnionInstance | serde/core.py:266-270 | a union matches exactly when some variant matches and every earlier one answers False, and answers False exactly when every variant does |
| Instance.UnionOrderExample | serde/core.py:266-270 | variant order is observable: a short tuple raises when a fixed tuple variant comes first and matches when bare `tuple` does; `True` matches `Union[bool, int]` |
| Instance.ListInstance | serde/core.py:273-280 | a non-list is rejected, an empty list accepted, otherwise only the first element is checked; bare `List` accepts any list |
| Instance.ListSamplingExample | serde/core.py:273-280 | `[1, "x"]` matches `List[int]` and `["x", 1]` does not |
| Instance.SetInstance | serde/core.py:283-290 | a non-set is rejected, an empty set accepted, otherwise only the first element in iteration order is checked; bare `Set` accepts any set |
| Instance.DictInstance | serde/core.py:309-319 | a non-dict is rejected, an empty dict accepted, otherwise the first key is checked and the first value only when that key matches; bare `Dict` accepts any dict |
| Instance.DataclassInstance | serde/core.py:226-233 | a dataclass whose generated typecheck fails is rejected; otherwise `isinstance` decides |
| Instance.FixedTupleInstance | serde/core.py:293-306 | a non-empty tuple matches `Tuple[T0..Tn]` exactly when it has at least n+1 elements and the first n+1 match their types |
| Instance.ShortTupleRaises | serde/core.py:303-305 | a non-empty tuple shorter than the argument list whose elements all match raises IndexError |
| Instance.VarTupleInstance | serde/core.py:293-306 | a tuple matches `Tuple[T, ...]` exactly when every element matches T and it does not have exactly one element; a matching single element raises |
| Instance.IsInstance | serde/core.py:221-256 | the reference checker: it can raise only when a tuple with declared positions occurs somewhere inside the type, so on all other types it answers True or False |
| Instance.UnionFrom | serde/core.py:266-270 | the variant scan raises only when a variant holds a positional tuple |
| Instance.TupleInstance | serde/core.py:293-306 | bare `tuple` is plain `isinstance`; only a non-empty tuple can make the tuple check raise |
| Instance.AllFrom | serde/core.py:296-300 | a scan of a variable tuple that does not answer True answers what some element answered |
| Instance.PositionsFrom | serde/core.py:303-306 | a position loop that answers False does so because some present, non-`...` position answered False |
| Instance.UnionFromMeaning | serde/core.py:266-270 | from variant k on, the scan matches exactly when some variant matches and all before it answer False, and answers False exactly when all do |
| Instance.PositionsFromMeaning | serde/core.py:303-306 | from position k on, the loop matches exactly when no positions remain or the tuple is long enough and every remaining position matches; a short tuple whose present positions match raises |
| Instance.AllFromMeaning | serde/core.py:296-300 | from element k on, the scan matches exactly when every remaining element matches |
| Instance.TupleExamples | serde/core.py:293-306 | `(1, "x")` matches `Tuple[int]`; `(1,)` raises under `Tuple[int, str]` and under `Tuple[int, ...]`; `(1, 2)` matches `Tuple[int, ...]` |
| Fields.KeyInjective | serde/core.py:386-406 | no two field attributes share a metadata key |
| Fields.FieldMetadataMeaning | serde/core.py:369-408 | after `field()` the metadata holds the caller's keys plus exactly the stored options; each stored option sits under its key and every other entry is unchanged |
| Fields.MetadataDict.constructor | serde/core.py:386-387 | a new dictionary holds the given entries |
| Fields.DeclareField | serde/core.py:369-408 | a non-empty caller dictionary is filled in place and returned; a missing or empty one is replaced by a fresh dictionary and left untouched; the result holds the `field()` metadata |
| Fields.StoreOptions | serde/core.py:389-406 | the writes of `field()` turn the dictionary into the `field()` metadata of its old entries |
| Fields.StoreGiven | serde/core.py:389-400 | the options that are not None are stored under their keys |
| Fields.StoreTruthy | serde/core.py:401-406 | the serializer, deserializer and flatten options are stored only when truthy |
| Fields.SkipIfOf | serde/core.py:502-515 | a callable `serde_skip_if` wins, then a truthy `serde_skip_if_false`, then a truthy `serde_skip_if_default` that compares with the default; a non-callable `serde_skip_if` is ignored; the wrapper carries the mangled name; none survives exactly when none of the three applies |
| Fields.UserFunc | serde/core.py:517-525 | a serializer or deserializer is wrapped under its mangled name exactly when the option is truthy |
| Fields.FromDataclass | serde/core.py:497-549 | the field keeps the declared type, name, default, factory, metadata and parent; `serde_rename` becomes the rename when it is a string and None otherwise, `serde_alias` the alias with `[]` when absent, `serde_skip` the skip flag; the skip predicate is the one picked by priority, a serializer or deserializer is present exactly when truthy, and `serde_flatten` of True becomes `FlattenOpts()` |
| Fields.ReadBack | serde/core.py:369-408 | `metadata.get(key)` on the `field()` metadata gives the option when it was stored and None otherwise |
| Fields.FieldRoundTrip | serde/core.py:369-549 | reading back what `field()` declared recovers rename, skip and alias, a serializer, deserializer and flatten exactly when truthy, and the skip predicate by priority |
| Fields.RenameAndSkipDefaultExample | serde/core.py:369-622 | a field declared with `rename="ID"` is called "ID" with no case or any known case, while an unknown case still fails; one with default "anon" and `skip_if_default` is skipped exactly for "anon" |
| Fields.Conv | serde/core.py:608-622 | an unknown non-empty case raises, reporting the field's own case; a known case converts the name (None cannot be converted); a non-empty rename replaces the result; a final None name raises |
| Fields.ConvName | serde/core.py:580-585 | the case used is the given one when non-empty and the field's own otherwise; a success is the non-empty rename if there is one, else the converted name under a known case, else the plain name; it fails exactly when the case used is unknown, or the name is None and no rename rescues it, and the error names the field's case, a failed conversion or the missing name |
| Fields.SkipPredicates | serde/core.py:354-359 | `skip_if_false` skips falsy values, including `0.0` and objects whose `__bool__` is false; `skip_if_default` skips values equal to the default, symmetrically, with `1 == True`, `3/2 != 0.0` and enum members of one class differing by value |
| Fields.SupportsDefaultCases | serde/core.py:587-588 | a field with neither default nor factory, or an iterable-based one, supports no default; a None default counts as a default |
| Fields.SelfReferencingCases | serde/core.py:566-571 | without a type or a parent a field is not self-referencing; with both equal it is |
| Fields.FieldMetadata | serde/core.py:386-406 | reference definition of the dictionary `field()` leaves: the given options over the caller's entries, then the truthy ones; `FieldMetadataMeaning` and `ReadBack` state its content |
| Fields.SkipsFalsy | serde/core.py:354-355 | reference definition of `skip_if_false`: skip exactly the values Python finds falsy |
| Fields.SkipsDefault | serde/core.py:358-359 | reference definition of `skip_if_default`: skip exactly the values `==` the default |
| Fields.Skips | serde/core.py:343-344 | reference definition of calling a `Func` wrapper: the wrapped predicate decides |
| Fields.IsSelfReferencing | serde/core.py:566-571 | reference definition: a declared type equal to the declaring class |
| Fields.SupportsDefault | serde/core.py:587-588 | reference definition: not iterable-based, and a default or a default factory is given |
| Config.CheckTagging | serde/core.py:688-692 | check raises exactly for internal tagging without a tag and for adjacent tagging without tag or content |
| Config.Tagging.IsExternal | serde/core.py:672-673 | reference definition: the kind is external |
| Config.Tagging.IsInternal | serde/core.py:675-676 | reference definition: the kind is internal |
| Config.Tagging.IsAdjacent | serde/core.py:678-679 | reference definition: the kind is adjacent |
| Config.Tagging.IsUntagged | serde/core.py:681-682 | reference definition: the kind is untagged |
| Config.TaggingCheckCases | serde/core.py:655-703 | external and untagged tagging never raise, `ExternalTagging`, `Untagged` and `DefaultTagging` pass and the default is external, and the internal and adjacent constructors pass exactly when their keys are given |
| Config.InternalTagging | serde/core.py:697 | the tagging is internal and keeps the given tag and content |
| Config.AdjacentTagging | serde/core.py:699 | the tagging is adjacent and keeps the given tag and content |
| Config.IsTaggable | serde/core.py:684-686 | reference definition: only dataclasses can be tagged |
| Config.IsCoercible | serde/core.py:832-835 | reference definition: every value except None is coerced |
| Config.TypeCheck.IsStrict | serde/core.py:810-811 | reference definition: the flavour is `Strict`; the module values `NoCheck`, `Coerce` and `Strict` are the constants `NO_CHECK`, `COERCE` and `STRICT` |
| Config.TypeCheck.IsCoerce | serde/core.py:813-814 | reference definition: the flavour is `Coerce` |
| Config.CoerceTo | serde/core.py:828-835 | None is returned as it is; any other value is passed to the type, and a type that raises makes coercion raise the same error |
| Config.CoerceIdempotent | serde/core.py:828-835 | coercing a successful result again changes nothing when the type's constructor is idempotent on its own results |
| Config.Settings.constructor | serde/core.py:63 | debug mode starts off |
| Config.Settings.Init | serde/core.py:66-67 | `init` sets the debug switch |
| Scopes.Scope.constructor | serde/core.py:111-135 | a new scope has empty dictionaries, reuses instances by default and does not convert sets |
| Scopes.AddFunc | serde/core.py:204-218 | the function the execution defined is registered under its name, and its text is kept only in debug mode; a name the execution did not define raises KeyError and changes nothing; the other fields are unchanged |
| Scopes.WrapperClass.constructor | serde/core.py:86 | a wrapper dataclass has the union key as its name, the union as its field type, and no scope yet |
| Scopes.UnionKey | serde/core.py:79 | the key is `union_func_name("global", ...)` over the union's argument names and is an identifier |
| Scopes.GlobalScope.constructor | serde/core.py:70-76 | the registry starts empty |
| Scopes.GlobalScope.GetUnion | serde/core.py:78-80 | the wrapper under the union's key, or None for a key never added; in a consistent registry a found wrapper is named by that key |
| Scopes.GlobalScope.AddUnion | serde/core.py:82-89 | a fresh wrapper is stored under the union's key, which is the only change to `classes`, and returned; afterwards every union with the same argument names finds it |
| Scopes.GlobalScope.UnionFunc | serde/core.py:91-105 | no wrapper, or a wrapper without a scope, raises AttributeError; otherwise the function named by the prefix and the argument names, or KeyError |
| Dataclasses.ShouldImplDataclass | serde/core.py:711-745 | the early-exit loop decides as the closed form does: not a dataclass, or own annotations that differ in number from the fields or name a non-field |
| Dataclasses.ShouldImpl | serde/core.py:711-745 | reference definition of the decision, in closed form, that the loop is proved against |
| Dataclasses.ShouldImplMeansFieldsDiffer | serde/core.py:711-745 | for a dataclass without repeated names, the decorator is needed exactly when it has own annotations and they do not name the same set as its fields |
| Dataclasses.BaseDerivedExample | serde/core.py:716-728 | the documented `Base` needs no decorator; `Derived`, whose inherited fields are `a` and whose own annotation is `b`, does, because the counts agree and `b` is not a field; a non-dataclass always does |

## Left out

- `gen` (the `exec` call and black formatting) is not modelled. Its outcome, the executed text and the globals it left, is a parameter of `Scopes.AddFunc`. A syntax error raised by `exec` is not modelled.
- `render_type_check`, which renders Python source text from a jinja2 template, is not modelled. The generated typecheck is an oracle of the instance checker.
- `Scope.__repr__`, `_justify`, logging and the `TypeCheck.__call__` stub produce output or do nothing, so they are left out.
- The casefy converters, `typename` and the `compat` predicates (`is_opt`, `type_args`, `has_default`, ...) are external. `compat` is not part of this model.
  - Converters and names are parameters.
  - The kinds of type are constructors of `Types.Type`.
  - `has_default` is read as "not an instance of `_MISSING_TYPE`".
- numpy types are not modelled.
- `serialize_union` and `deserialize_union` are modelled only up to the function lookup (`Scopes.GlobalScope.UnionFunc`). Invoking the generated function is left out.
- `Field.to_dataclass`, the `init`/`repr`/`hash`/`compare` fields of `Field`, and the `fields()` collector are left out. `to_dataclass` asserts that the field has a name and rebuilds a `dataclasses.Field`; `fields()` maps `from_dataclass` over the dataclass fields and, when `serialize_class_var` is set, adds the class variables.
- `raise_unsupported_type` and `ensure` only raise an exception with a message built from their arguments, so they are left out.
- Fields.FromDataclass: a `serde_rename` value that is not a string is treated as absent. `Field.rename` is a string or None.
- Fields.FromDataclass: the `skip_if_false` and `skip_if_default` fields of `Field` are not modelled. `from_dataclass` never sets them.
- Fields.Conv: a case converter that raises on a string is not modelled. Only a None name makes conversion fail.
- Instance.CheckInstance: `isinstance` is modelled through method resolution order lists. Container subclasses and `isinstance` on special forms are not modelled. The set element checked is the one the value's iteration yields first.
- Types.TypeArgs: a `Literal[...]` is given no arguments, though `type_args` returns its values. The checker accepts every value for a literal without looking at its arguments, and no modelled caller reads them.
- Fields.SkipsDefault: NaN and infinite floats are not modelled; a float is a dyadic rational, so `nan != nan` is not captured.
- Fields.SkipsDefault: objects of different classes never compare equal, so a cross-class `__eq__` (for example `Decimal(0) == 0`) is not captured. Objects of one class compare by a key that stands for identity or for the state their `__eq__` compares.
- Fields.SkipsDefault: set and dict equality assume that a set's elements and a dict's keys are pairwise unequal, as Python guarantees; the model does not enforce it.
- Fields.MetaKey: a metadata key of another library is assumed never to spell one of pyserde's own keys.
- Scopes.GlobalScope.AddUnion: the `serde(wrapper)` registration that builds the wrapper's scope is outside the model and is passed in.
- The module globals `SETTINGS` and `GLOBAL_SCOPE` are explicit objects, and concurrent access to them is not modelled.
- End-to-end encoding through JSON, MsgPack, YAML, TOML and pickle is not part of this model.
