/**
 * Field attributes: `field()` records pyserde's options in a field's
 * metadata dictionary under `serde_`-prefixed keys, `Field.from_dataclass`
 * reads them back into one `Field` record (keeping at most one skip
 * predicate), and `conv` works out the name a field has on the wire.
 */
module Fields {

  import opened Wrappers
  import opened Values
  import opened Types
  import opened Errors
  import Names

  /** pyserde's field attributes. */
  datatype Attr = Rename | Alias | Skip | SkipIf | SkipIfFalse | SkipIfDefault | Serializer | Deserializer | Flatten

  const ALL_ATTRS: set<Attr> := {Rename, Alias, Skip, SkipIf, SkipIfFalse, SkipIfDefault, Serializer, Deserializer, Flatten}

  lemma AllAttrsListed()
    ensures forall a :: a in ALL_ATTRS
  {
    forall a
      ensures a in ALL_ATTRS
    {
      match a
      case Rename =>
      case Alias =>
      case Skip =>
      case SkipIf =>
      case SkipIfFalse =>
      case SkipIfDefault =>
      case Serializer =>
      case Deserializer =>
      case Flatten =>
    }
  }

  /** The metadata key an attribute is stored under. */
  function Key(a: Attr): string
  {
    match a
    case Rename => "serde_rename"
    case Alias => "serde_alias"
    case Skip => "serde_skip"
    case SkipIf => "serde_skip_if"
    case SkipIfFalse => "serde_skip_if_false"
    case SkipIfDefault => "serde_skip_if_default"
    case Serializer => "serde_serializer"
    case Deserializer => "serde_deserializer"
    case Flatten => "serde_flatten"
  }

  /** No two attributes share a metadata key. */
  lemma KeyInjective(a: Attr, b: Attr)
    ensures Key(a) == Key(b) ==> a == b
  {
    if a == SkipIf && b == Flatten {
      assert Key(a)[11] != Key(b)[11];
    }
    if a == Flatten && b == SkipIf {
      assert Key(a)[11] != Key(b)[11];
    }
  }

  /**
   * A key of a field's metadata dictionary: one of pyserde's own, or a key
   * some other library stores there (never one of pyserde's key strings).
   */
  datatype MetaKey = Serde(attr: Attr) | Foreign(name: string)

  /** The keyword arguments of `field()` that pyserde reads; `VNone` is an argument left out. */
  datatype FieldOptions = FieldOptions(
    rename: Value,
    alias: Value,
    skip: Value,
    skipIf: Value,
    skipIfFalse: Value,
    skipIfDefault: Value,
    serializer: Value,
    deserializer: Value,
    flatten: Value)

  /** `field()` with none of pyserde's options. */
  const NO_OPTIONS: FieldOptions := FieldOptions(VNone, VNone, VNone, VNone, VNone, VNone, VNone, VNone, VNone)

  /** The argument of `field()` that belongs to an attribute. */
  function Given(opts: FieldOptions, a: Attr): Value
  {
    match a
    case Rename => opts.rename
    case Alias => opts.alias
    case Skip => opts.skip
    case SkipIf => opts.skipIf
    case SkipIfFalse => opts.skipIfFalse
    case SkipIfDefault => opts.skipIfDefault
    case Serializer => opts.serializer
    case Deserializer => opts.deserializer
    case Flatten => opts.flatten
  }

  /**
   * Whether `field()` stores an attribute: the serializer, deserializer and
   * flatten options only when they are truthy, the others when they are not None.
   */
  predicate Writes(opts: FieldOptions, a: Attr)
  {
    match a
    case Serializer => Truthy(opts.serializer)
    case Deserializer => Truthy(opts.deserializer)
    case Flatten => Truthy(opts.flatten)
    case _ => Given(opts, a) != VNone
  }

  /** Whether `field()` stores an entry under `k`, counting only the attributes in `done`. */
  predicate StoresIn(opts: FieldOptions, done: set<Attr>, k: MetaKey)
  {
    k.Serde? && k.attr in done && Writes(opts, k.attr)
  }

  /** Whether `field()` stores an entry under `k`. */
  predicate Stores(opts: FieldOptions, k: MetaKey)
  {
    k.Serde? && Writes(opts, k.attr)
  }

  /** One statement of `field()`: store the attribute's argument when it is to be written. */
  function Put(m: map<MetaKey, Value>, opts: FieldOptions, a: Attr): (r: map<MetaKey, Value>)
  {
    if Writes(opts, a) then m[Serde(a) := Given(opts, a)] else m
  }

  /** `m` is `base` after the statements of `field()` for the attributes in `done`. */
  ghost predicate Filled(m: map<MetaKey, Value>, base: map<MetaKey, Value>, opts: FieldOptions, done: set<Attr>)
  {
    && (forall k :: k in m <==> k in base || StoresIn(opts, done, k))
    && (forall k :: k in m ==> m[k] == if StoresIn(opts, done, k) then Given(opts, k.attr) else base[k])
  }

  lemma PutFills(m: map<MetaKey, Value>, base: map<MetaKey, Value>, opts: FieldOptions, done: set<Attr>, a: Attr)
    requires Filled(m, base, opts, done)
    ensures Filled(Put(m, opts, a), base, opts, done + {a})
  {
  }

  /** The metadata `field()` leaves behind, starting from `base`, as its statements run in order. */
  function FieldMetadata(base: map<MetaKey, Value>, opts: FieldOptions): (m: map<MetaKey, Value>)
  {
    PutTruthy(PutGiven(base, opts), opts)
  }

  /** The statements that store the options that are not None. */
  function PutGiven(m: map<MetaKey, Value>, opts: FieldOptions): (r: map<MetaKey, Value>)
  {
    Put(Put(Put(Put(Put(Put(m, opts, Rename), opts, Alias), opts, Skip), opts, SkipIf), opts, SkipIfFalse), opts, SkipIfDefault)
  }

  /** The statements that store the options that are truthy. */
  function PutTruthy(m: map<MetaKey, Value>, opts: FieldOptions): (r: map<MetaKey, Value>)
  {
    Put(Put(Put(m, opts, Serializer), opts, Deserializer), opts, Flatten)
  }

  /**
   * What `field()` leaves in the metadata: each option it stores sits under
   * its key, every other entry of `base` is kept as it was, and no other key
   * appears.
   */
  lemma FieldMetadataMeaning(base: map<MetaKey, Value>, opts: FieldOptions)
    ensures forall k :: k in FieldMetadata(base, opts) <==> k in base || Stores(opts, k)
    ensures forall k :: k in FieldMetadata(base, opts) ==>
      FieldMetadata(base, opts)[k] == if Stores(opts, k) then Given(opts, k.attr) else base[k]
  {
    GivenFills(base, opts);
    TruthyFills(PutGiven(base, opts), base, opts);
    AllAttrsListed();
  }

  lemma GivenFills(base: map<MetaKey, Value>, opts: FieldOptions)
    ensures Filled(PutGiven(base, opts), base, opts, {Rename, Alias, Skip, SkipIf, SkipIfFalse, SkipIfDefault})
  {
    var m1 := Put(base, opts, Rename);
    var m2 := Put(m1, opts, Alias);
    var m3 := Put(m2, opts, Skip);
    var m4 := Put(m3, opts, SkipIf);
    var m5 := Put(m4, opts, SkipIfFalse);
    PutFills(base, base, opts, {}, Rename);
    PutFills(m1, base, opts, {Rename}, Alias);
    PutFills(m2, base, opts, {Rename, Alias}, Skip);
    PutFills(m3, base, opts, {Rename, Alias, Skip}, SkipIf);
    PutFills(m4, base, opts, {Rename, Alias, Skip, SkipIf}, SkipIfFalse);
    PutFills(m5, base, opts, {Rename, Alias, Skip, SkipIf, SkipIfFalse}, SkipIfDefault);
  }

  lemma TruthyFills(m6: map<MetaKey, Value>, base: map<MetaKey, Value>, opts: FieldOptions)
    requires Filled(m6, base, opts, {Rename, Alias, Skip, SkipIf, SkipIfFalse, SkipIfDefault})
    ensures Filled(PutTruthy(m6, opts), base, opts, ALL_ATTRS)
  {
    var m7 := Put(m6, opts, Serializer);
    var m8 := Put(m7, opts, Deserializer);
    PutFills(m6, base, opts, {Rename, Alias, Skip, SkipIf, SkipIfFalse, SkipIfDefault}, Serializer);
    PutFills(m7, base, opts, {Rename, Alias, Skip, SkipIf, SkipIfFalse, SkipIfDefault, Serializer}, Deserializer);
    PutFills(m8, base, opts, {Rename, Alias, Skip, SkipIf, SkipIfFalse, SkipIfDefault, Serializer, Deserializer}, Flatten);
  }

  /** A metadata dictionary a caller may hand to `field()`, which then fills it in place. */
  class MetadataDict {
    var entries: map<MetaKey, Value>

    constructor (entries: map<MetaKey, Value>)
      ensures this.entries == entries
    {
      this.entries := entries;
    }
  }

  /**
   * `field(..., metadata=metadata)`: a non-empty dictionary from the caller is
   * filled in place and becomes the field's metadata; a missing or empty one
   * is replaced by a new dictionary and left alone.
   */
  method DeclareField(opts: FieldOptions, metadata: MetadataDict?) returns (d: MetadataDict)
    modifies metadata
    ensures metadata != null && old(metadata.entries) != map[] ==> d == metadata
    ensures metadata == null ==> fresh(d)
    ensures metadata != null && old(metadata.entries) == map[] ==> fresh(d) && unchanged(metadata)
    ensures d.entries == FieldMetadata(if metadata == null then map[] else old(metadata.entries), opts)
  {
    if metadata == null || metadata.entries == map[] {
      d := new MetadataDict(map[]);
    } else {
      d := metadata;
    }
    StoreOptions(d, opts);
  }

  /** The statements of `field()` that write into its metadata dictionary. */
  method StoreOptions(d: MetadataDict, opts: FieldOptions)
    modifies d
    ensures d.entries == FieldMetadata(old(d.entries), opts)
  {
    StoreGiven(d, opts);
    StoreTruthy(d, opts);
  }

  /** Store the options that are not None. */
  method StoreGiven(d: MetadataDict, opts: FieldOptions)
    modifies d
    ensures d.entries == PutGiven(old(d.entries), opts)
  {
    if opts.rename != VNone {
      d.entries := d.entries[Serde(Rename) := opts.rename];
    }
    if opts.alias != VNone {
      d.entries := d.entries[Serde(Alias) := opts.alias];
    }
    if opts.skip != VNone {
      d.entries := d.entries[Serde(Skip) := opts.skip];
    }
    if opts.skipIf != VNone {
      d.entries := d.entries[Serde(SkipIf) := opts.skipIf];
    }
    if opts.skipIfFalse != VNone {
      d.entries := d.entries[Serde(SkipIfFalse) := opts.skipIfFalse];
    }
    if opts.skipIfDefault != VNone {
      d.entries := d.entries[Serde(SkipIfDefault) := opts.skipIfDefault];
    }
  }

  /** Store the serializer, deserializer and flatten options when they are truthy. */
  method StoreTruthy(d: MetadataDict, opts: FieldOptions)
    modifies d
    ensures d.entries == PutTruthy(old(d.entries), opts)
  {
    if Truthy(opts.serializer) {
      d.entries := d.entries[Serde(Serializer) := opts.serializer];
    }
    if Truthy(opts.deserializer) {
      d.entries := d.entries[Serde(Deserializer) := opts.deserializer];
    }
    if Truthy(opts.flatten) {
      d.entries := d.entries[Serde(Flatten) := opts.flatten];
    }
  }

  /** A `dataclasses.Field` as the dataclass machinery hands it over. */
  datatype RawField = RawField(typ: Type, name: string, default: Value, defaultFactory: Value, metadata: map<MetaKey, Value>)

  /** What a `Func` wraps: a user callable, or one of the two built-in skip predicates. */
  datatype Callable =
    | UserFn(fn: Value)
    | SkipIfFalseFn
    /** `functools.partial(skip_if_default, default=...)`. */
    | SkipIfDefaultFn(default: Value)

  /** A callable together with the mangled name it is published under. */
  datatype Func = Func(inner: Callable, mangled: string)

  /** pyserde's own view of a field. */
  datatype Field = Field(
    typ: Option<Type>,
    name: Option<string>,
    default: Value,
    defaultFactory: Value,
    metadata: map<MetaKey, Value>,
    caseName: Option<string>,
    alias: Value,
    rename: Option<string>,
    skip: Value,
    skipIf: Option<Func>,
    serializer: Option<Func>,
    deserializer: Option<Func>,
    flatten: Value,
    parent: Option<Type>,
    /** Set by the iterable-based field classes that derive from `Field`. */
    iterBased: bool)

  /** `metadata.get(key)`. */
  function Get(m: map<MetaKey, Value>, key: MetaKey): (v: Value)
  {
    if key in m then m[key] else VNone
  }

  /** `Func(inner, mangle(f, purpose))`. */
  function Wrap(f: RawField, inner: Callable, purpose: string): (w: Func)
  {
    Func(inner, Names.Mangle(f.name, purpose))
  }

  /** Python's `a or b` on optional wrappers (a `Func` object is always truthy). */
  function OrElse(a: Option<Func>, b: Option<Func>): (r: Option<Func>)
  {
    if a.Some? then a else b
  }

  /**
   * The skip predicate `from_dataclass` keeps. Of the three at most one
   * survives: a callable `serde_skip_if` first, then a truthy
   * `serde_skip_if_false`, then a truthy `serde_skip_if_default` (which
   * compares against the field's default); a `serde_skip_if` that is not
   * callable is ignored.
   */
  function SkipIfOf(f: RawField): (r: Option<Func>)
    ensures IsCallable(Get(f.metadata, Serde(SkipIf))) ==>
      r == Some(Func(UserFn(Get(f.metadata, Serde(SkipIf))), Names.Mangle(f.name, "skip_if")))
    ensures !IsCallable(Get(f.metadata, Serde(SkipIf))) && Truthy(Get(f.metadata, Serde(SkipIfFalse))) ==>
      r == Some(Func(SkipIfFalseFn, Names.Mangle(f.name, "skip_if_false")))
    ensures (!IsCallable(Get(f.metadata, Serde(SkipIf))) && !Truthy(Get(f.metadata, Serde(SkipIfFalse)))
      && Truthy(Get(f.metadata, Serde(SkipIfDefault)))) ==>
      r == Some(Func(SkipIfDefaultFn(f.default), Names.Mangle(f.name, "skip_if_default")))
    ensures r.None? <==>
      !IsCallable(Get(f.metadata, Serde(SkipIf))) && !Truthy(Get(f.metadata, Serde(SkipIfFalse)))
      && !Truthy(Get(f.metadata, Serde(SkipIfDefault)))
  {
    var skipIfFalse := if Truthy(Get(f.metadata, Serde(SkipIfFalse))) then Some(Wrap(f, SkipIfFalseFn, "skip_if_false")) else None;
    var skipIfDefault := if Truthy(Get(f.metadata, Serde(SkipIfDefault))) then Some(Wrap(f, SkipIfDefaultFn(f.default), "skip_if_default")) else None;
    var userSkipIf := Get(f.metadata, Serde(SkipIf));
    var skipIf := if Truthy(userSkipIf) && IsCallable(userSkipIf) then Some(Wrap(f, UserFn(userSkipIf), "skip_if")) else None;
    OrElse(skipIf, OrElse(skipIfFalse, skipIfDefault))
  }

  /** A user serializer or deserializer is wrapped only when the option is truthy. */
  function UserFunc(f: RawField, a: Attr, purpose: string): (r: Option<Func>)
    ensures r.Some? <==> Truthy(Get(f.metadata, Serde(a)))
    ensures r.Some? ==> r.value == Func(UserFn(f.metadata[Serde(a)]), Names.Mangle(f.name, purpose))
  {
    var user := Get(f.metadata, Serde(a));
    if Truthy(user) then Some(Wrap(f, UserFn(user), purpose)) else None
  }

  /**
   * `Field.from_dataclass(f, parent)`: the skip predicate is the one
   * `SkipIfOf` picks, a serializer or deserializer is kept only when
   * truthy, and `serde_flatten` set to `True` becomes a fresh
   * `FlattenOpts()`.
   */
  function FromDataclass(f: RawField, parent: Option<Type>): (r: Field)
    ensures r.name == Some(f.name) && r.typ == Some(f.typ) && r.parent == parent
    ensures r.default == f.default && r.defaultFactory == f.defaultFactory && r.metadata == f.metadata
    ensures r.caseName == None && !r.iterBased
    ensures Get(f.metadata, Serde(Rename)).VStr? ==> r.rename == Some(Get(f.metadata, Serde(Rename)).s)
    ensures !Get(f.metadata, Serde(Rename)).VStr? ==> r.rename.None?
    ensures Serde(Alias) in f.metadata ==> r.alias == f.metadata[Serde(Alias)]
    ensures Serde(Alias) !in f.metadata ==> r.alias == VList([])
    ensures r.skip == Get(f.metadata, Serde(Skip))
    ensures r.skipIf == SkipIfOf(f)
    ensures r.serializer.Some? <==> Truthy(Get(f.metadata, Serde(Serializer)))
    ensures r.serializer.Some? ==> r.serializer.value == Func(UserFn(f.metadata[Serde(Serializer)]), Names.Mangle(f.name, "serializer"))
    ensures r.deserializer.Some? <==> Truthy(Get(f.metadata, Serde(Deserializer)))
    ensures r.deserializer.Some? ==> r.deserializer.value == Func(UserFn(f.metadata[Serde(Deserializer)]), Names.Mangle(f.name, "deserializer"))
    ensures r.flatten == if Get(f.metadata, Serde(Flatten)) == VBool(true) then FLATTEN_OPTS else Get(f.metadata, Serde(Flatten))
  {
    var flatten := Get(f.metadata, Serde(Flatten));
    var rename := Get(f.metadata, Serde(Rename));
    Field(
      typ := Some(f.typ),
      name := Some(f.name),
      default := f.default,
      defaultFactory := f.defaultFactory,
      metadata := f.metadata,
      caseName := None,
      alias := if Serde(Alias) in f.metadata then f.metadata[Serde(Alias)] else VList([]),
      rename := if rename.VStr? then Some(rename.s) else None,
      skip := Get(f.metadata, Serde(Skip)),
      skipIf := SkipIfOf(f),
      serializer := UserFunc(f, Serializer, "serializer"),
      deserializer := UserFunc(f, Deserializer, "deserializer"),
      flatten := if flatten == VBool(true) then FLATTEN_OPTS else flatten,
      parent := parent,
      iterBased := false)
  }

  /** `skip_if_false(v)`: skip a falsy value. */
  predicate SkipsFalsy(v: Value)
  {
    !Truthy(v)
  }

  /** `skip_if_default(v, default)`: skip a value equal to the default. */
  predicate SkipsDefault(v: Value, default: Value)
  {
    PyEq(v, default)
  }

  /**
   * `Func.__call__(v)`: whether the wrapped predicate says to skip `v`;
   * `user(fn, v)` is the truthiness of what a user callable returns.
   */
  predicate Skips(func: Func, v: Value, user: (Value, Value) -> bool)
  {
    match func.inner
    case UserFn(fn) => user(fn, v)
    case SkipIfFalseFn => SkipsFalsy(v)
    case SkipIfDefaultFn(d) => SkipsDefault(v, d)
  }

  /** `Field.is_self_referencing()`: the field's type is the class that declares it. */
  predicate IsSelfReferencing(f: Field)
  {
    f.typ.Some? && f.parent.Some? && f.typ.value == f.parent.value
  }

  /** The `has_default` / `has_default_factory` test: the value is not the MISSING sentinel. */
  predicate IsGiven(v: Value)
  {
    !IsA(v, "_MISSING_TYPE")
  }

  /** `Field.supports_default()`. */
  predicate SupportsDefault(f: Field)
  {
    !f.iterBased && (IsGiven(f.default) || IsGiven(f.defaultFactory))
  }

  /**
   * `conv(f, case)`: the field's name, passed through the case converter
   * named by a non-empty `case`, then replaced by a non-empty `rename`.
   * `converters` holds the case converters that exist, by name.
   */
  function Conv(f: Field, caseName: Option<string>, converters: map<string, string -> string>): (r: Result<string, Error>)
    ensures caseName.Some? && caseName.value != "" && caseName.value !in converters ==> r == Failure(UnknownCase(f.caseName))
    ensures caseName.Some? && caseName.value != "" && caseName.value in converters && f.name.None? ==> r == Failure(CaseConversionFailed)
    ensures (caseName.None? || caseName.value == "") && f.rename.None? && f.name.None? ==> r == Failure(FieldNameIsNone)
    ensures r.Success? && f.rename.Some? && f.rename.value != "" ==> r.value == f.rename.value
    ensures r.Success? && (f.rename.None? || f.rename.value == "") ==>
      f.name.Some? &&
      r.value == if caseName.Some? && caseName.value != "" then converters[caseName.value](f.name.value) else f.name.value
    ensures r.Failure? <==>
      (caseName.Some? && caseName.value != "" && (caseName.value !in converters || f.name.None?)) ||
      ((caseName.None? || caseName.value == "") && (f.rename.None? || f.rename.value == "") && f.name.None?)
  {
    var converted :=
      if caseName.None? || caseName.value == "" then Success(f.name)
      else if caseName.value !in converters then Failure(UnknownCase(f.caseName))
      else if f.name.None? then Failure(CaseConversionFailed)
      else Success(Some(converters[caseName.value](f.name.value)));
    if converted.Failure? then Failure(converted.error)
    else
      var name := if f.rename.Some? && f.rename.value != "" then f.rename else converted.value;
      if name.None? then Failure(FieldNameIsNone) else Success(name.value)
  }

  /**
   * `Field.conv_name(case)`: the name on the wire. A non-empty `rename` wins
   * over any case; otherwise the name is converted by the given case when it
   * is non-empty, else by the field's own case when that is non-empty, else
   * left as it is. It fails only for an unknown case (reporting the field's
   * own case), a missing name to convert, or no name at all.
   */
  function ConvName(f: Field, caseName: Option<string>, converters: map<string, string -> string>): (r: Result<string, Error>)
    ensures r.Success? && f.rename.Some? && f.rename.value != "" ==> r.value == f.rename.value
    ensures r.Success? && (f.rename.None? || f.rename.value == "") && caseName.Some? && caseName.value != "" ==>
      caseName.value in converters && f.name.Some? && r.value == converters[caseName.value](f.name.value)
    ensures (r.Success? && (f.rename.None? || f.rename.value == "") && (caseName.None? || caseName.value == "")
      && f.caseName.Some? && f.caseName.value != "") ==>
      f.caseName.value in converters && f.name.Some? && r.value == converters[f.caseName.value](f.name.value)
    ensures (r.Success? && (f.rename.None? || f.rename.value == "") && (caseName.None? || caseName.value == "")
      && (f.caseName.None? || f.caseName.value == "")) ==>
      f.name.Some? && r.value == f.name.value
    ensures caseName.Some? && caseName.value != "" ==>
      (r.Failure? <==> caseName.value !in converters || f.name.None?)
    ensures (caseName.None? || caseName.value == "") && f.caseName.Some? && f.caseName.value != "" ==>
      (r.Failure? <==> f.caseName.value !in converters || f.name.None?)
    ensures (caseName.None? || caseName.value == "") && (f.caseName.None? || f.caseName.value == "") ==>
      (r.Failure? <==> (f.rename.None? || f.rename.value == "") && f.name.None?)
    ensures r.Failure? ==> r.error in {UnknownCase(f.caseName), CaseConversionFailed, FieldNameIsNone}
  {
    Conv(f, if caseName.Some? && caseName.value != "" then caseName else f.caseName, converters)
  }

  // ---------------------------------------------------------------------------
  // Properties.
  // ---------------------------------------------------------------------------

  /** What `field()` stored can be read back with `metadata.get`: the option, or None when it was not stored. */
  lemma ReadBack(opts: FieldOptions, a: Attr)
    ensures Get(FieldMetadata(map[], opts), Serde(a)) == if Writes(opts, a) then Given(opts, a) else VNone
  {
    FieldMetadataMeaning(map[], opts);
  }

  /** A field declared with `field(...)` and collected by `fields()` through `from_dataclass`. */
  function Declared(typ: Type, name: string, default: Value, opts: FieldOptions, parent: Option<Type>): Field
  {
    FromDataclass(RawField(typ, name, default, MISSING, FieldMetadata(map[], opts)), parent)
  }

  /**
   * Declaring a field with `field(...)` and reading it back with
   * `from_dataclass` recovers the options: `rename`, `skip` and `alias` as
   * given (a missing alias reads as `[]`), a serializer, deserializer and
   * flatten option exactly when truthy, and the skip predicate chosen by
   * priority.
   */
  lemma FieldRoundTrip(typ: Type, name: string, default: Value, opts: FieldOptions, parent: Option<Type>)
    ensures Declared(typ, name, default, opts, parent).rename == if opts.rename.VStr? then Some(opts.rename.s) else None
    ensures Declared(typ, name, default, opts, parent).skip == opts.skip
    ensures Declared(typ, name, default, opts, parent).alias == if opts.alias != VNone then opts.alias else VList([])
    ensures Declared(typ, name, default, opts, parent).skipIf ==
      if IsCallable(opts.skipIf) then Some(Func(UserFn(opts.skipIf), Names.Mangle(name, "skip_if")))
      else if Truthy(opts.skipIfFalse) then Some(Func(SkipIfFalseFn, Names.Mangle(name, "skip_if_false")))
      else if Truthy(opts.skipIfDefault) then Some(Func(SkipIfDefaultFn(default), Names.Mangle(name, "skip_if_default")))
      else None
    ensures Declared(typ, name, default, opts, parent).serializer ==
      if Truthy(opts.serializer) then Some(Func(UserFn(opts.serializer), Names.Mangle(name, "serializer"))) else None
    ensures Declared(typ, name, default, opts, parent).deserializer ==
      if Truthy(opts.deserializer) then Some(Func(UserFn(opts.deserializer), Names.Mangle(name, "deserializer"))) else None
    ensures Declared(typ, name, default, opts, parent).flatten ==
      if opts.flatten == VBool(true) then FLATTEN_OPTS else if Truthy(opts.flatten) then opts.flatten else VNone
  {
    RoundTripPlain(typ, name, default, opts, parent);
    RoundTripSkipIf(typ, name, default, opts, parent);
    RoundTripCallables(typ, name, default, opts, parent);
    RoundTripFlatten(typ, name, default, opts, parent);
  }

  lemma RoundTripPlain(typ: Type, name: string, default: Value, opts: FieldOptions, parent: Option<Type>)
    ensures Declared(typ, name, default, opts, parent).rename == if opts.rename.VStr? then Some(opts.rename.s) else None
    ensures Declared(typ, name, default, opts, parent).skip == opts.skip
    ensures Declared(typ, name, default, opts, parent).alias == if opts.alias != VNone then opts.alias else VList([])
  {
    ReadBack(opts, Rename);
    ReadBack(opts, Alias);
    ReadBack(opts, Skip);
    var m := FieldMetadata(map[], opts);
    if opts.alias != VNone {
      assert m[Serde(Alias)] == opts.alias;
    }
  }

  lemma RoundTripFlatten(typ: Type, name: string, default: Value, opts: FieldOptions, parent: Option<Type>)
    ensures Declared(typ, name, default, opts, parent).flatten ==
      if opts.flatten == VBool(true) then FLATTEN_OPTS else if Truthy(opts.flatten) then opts.flatten else VNone
  {
    ReadBack(opts, Flatten);
  }

  lemma RoundTripSkipIf(typ: Type, name: string, default: Value, opts: FieldOptions, parent: Option<Type>)
    ensures Declared(typ, name, default, opts, parent).skipIf ==
      if IsCallable(opts.skipIf) then Some(Func(UserFn(opts.skipIf), Names.Mangle(name, "skip_if")))
      else if Truthy(opts.skipIfFalse) then Some(Func(SkipIfFalseFn, Names.Mangle(name, "skip_if_false")))
      else if Truthy(opts.skipIfDefault) then Some(Func(SkipIfDefaultFn(default), Names.Mangle(name, "skip_if_default")))
      else None
  {
    ReadBack(opts, SkipIf);
    ReadBack(opts, SkipIfFalse);
    ReadBack(opts, SkipIfDefault);
  }

  lemma RoundTripCallables(typ: Type, name: string, default: Value, opts: FieldOptions, parent: Option<Type>)
    ensures Declared(typ, name, default, opts, parent).serializer ==
      if Truthy(opts.serializer) then Some(Func(UserFn(opts.serializer), Names.Mangle(name, "serializer"))) else None
    ensures Declared(typ, name, default, opts, parent).deserializer ==
      if Truthy(opts.deserializer) then Some(Func(UserFn(opts.deserializer), Names.Mangle(name, "deserializer"))) else None
  {
    var m := FieldMetadata(map[], opts);
    ReadBack(opts, Serializer);
    ReadBack(opts, Deserializer);
    if Truthy(opts.serializer) {
      assert m[Serde(Serializer)] == opts.serializer;
    }
    if Truthy(opts.deserializer) {
      assert m[Serde(Deserializer)] == opts.deserializer;
    }
  }

  /**
   * A field declared with `rename="ID"` is called "ID" on the wire with no
   * case or with any known case, but an unknown case still fails before the
   * rename is applied; a field declared with default "anon" and
   * `skip_if_default=True` is skipped exactly when its value equals "anon".
   */
  lemma RenameAndSkipDefaultExample(typ: Type, caseName: Option<string>, converters: map<string, string -> string>, v: Value, user: (Value, Value) -> bool)
    ensures caseName.None? || caseName.value == "" || caseName.value in converters ==>
      Conv(Declared(typ, "id", MISSING, NO_OPTIONS.(rename := VStr("ID")), None), caseName, converters) == Success("ID")
    ensures caseName.Some? && caseName.value != "" && caseName.value !in converters ==>
      Conv(Declared(typ, "id", MISSING, NO_OPTIONS.(rename := VStr("ID")), None), caseName, converters).Failure?
    ensures var defaulted := Declared(typ, "name", VStr("anon"), NO_OPTIONS.(skipIfDefault := VBool(true)), None);
      defaulted.skipIf.Some? && (Skips(defaulted.skipIf.value, v, user) <==> v == VStr("anon"))
  {
    FieldRoundTrip(typ, "id", MISSING, NO_OPTIONS.(rename := VStr("ID")), None);
    FieldRoundTrip(typ, "name", VStr("anon"), NO_OPTIONS.(skipIfDefault := VBool(true)), None);
  }

  /**
   * The built-in skip predicates: falsy values (an object answers for itself,
   * as `Decimal(0)` or an empty `deque` do), and values equal to the default
   * (`1 == True`, but `1.5 != 0.0` and two members of one enum differ).
   */
  lemma SkipPredicates(v: Value, d: Value, mro: seq<string>)
    ensures SkipsFalsy(VList([])) && SkipsFalsy(VStr("")) && SkipsFalsy(VInt(0)) && SkipsFalsy(VNone) && SkipsFalsy(VFloat(0, 0))
    ensures !SkipsFalsy(VList([VInt(0)]))
    ensures SkipsFalsy(VObject(mro, 0, false)) && !SkipsFalsy(VObject(mro, 0, true))
    ensures SkipsDefault(d, d)
    ensures SkipsDefault(VInt(1), VBool(true))
    ensures !SkipsDefault(VFloat(3, 1), VFloat(0, 0))
    ensures !SkipsDefault(VObject(mro, 2, true), VObject(mro, 1, true))
    ensures SkipsDefault(v, d) <==> SkipsDefault(d, v)
  {
    PyEqReflexive(d);
    if SkipsDefault(v, d) {
      PyEqSymmetric(v, d);
    }
    if SkipsDefault(d, v) {
      PyEqSymmetric(d, v);
    }
  }

  /** A field declared with no default and no default factory supports none, and an iterable-based field never does. */
  lemma SupportsDefaultCases(f: Field)
    ensures f.default == MISSING && f.defaultFactory == MISSING ==> !SupportsDefault(f)
    ensures f.iterBased ==> !SupportsDefault(f)
    ensures !f.iterBased && f.default == VNone ==> SupportsDefault(f)
  {
    assert "_MISSING_TYPE" in Mro(MISSING);
  }

  /** A field whose declaring class is unknown, or whose type is unknown, is never self-referencing. */
  lemma SelfReferencingCases(f: Field, t: Type)
    ensures f.parent.None? ==> !IsSelfReferencing(f)
    ensures f.typ.None? ==> !IsSelfReferencing(f)
    ensures f.typ == Some(t) && f.parent == Some(t) ==> IsSelfReferencing(f)
  {
  }
}
