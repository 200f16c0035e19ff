/**
 * Configuration values: how a union is tagged on the wire, which flavour of
 * type checking a class asks for, coercion of a value into its declared
 * type, and the module-wide debug switch.
 */
module Config {

  import opened Wrappers
  import opened Values
  import opened Types
  import opened Errors

  /** The four union representations (the same concept as serde-rs's enum representations). */
  datatype TagKind = External | Internal | Adjacent | Untagged

  datatype Tagging = Tagging(tag: Option<string>, content: Option<string>, kind: TagKind)
  {
    predicate IsExternal() { kind == External }
    predicate IsInternal() { kind == Internal }
    predicate IsAdjacent() { kind == Adjacent }
    predicate IsUntagged() { kind == Untagged }
  }

  /** `Tagging()`: no tag, no content, and the external kind. */
  const EXTERNAL_TAGGING: Tagging := Tagging(None, None, External)

  const UNTAGGED: Tagging := Tagging(None, None, Untagged)

  const DEFAULT_TAGGING: Tagging := EXTERNAL_TAGGING

  /** `InternalTagging(tag, content)`: `Tagging` with the internal kind fixed. */
  function InternalTagging(tag: Option<string>, content: Option<string>): (t: Tagging)
    ensures t.IsInternal() && t.tag == tag && t.content == content
  {
    Tagging(tag, content, Internal)
  }

  /** `AdjacentTagging(tag, content)`: `Tagging` with the adjacent kind fixed. */
  function AdjacentTagging(tag: Option<string>, content: Option<string>): (t: Tagging)
    ensures t.IsAdjacent() && t.tag == tag && t.content == content
  {
    Tagging(tag, content, Adjacent)
  }

  /**
   * `Tagging.check()`: the error it raises, if any. Internal tagging needs a
   * tag; adjacent tagging needs both a tag and a content key.
   */
  function CheckTagging(t: Tagging): (r: Option<Error>)
    ensures r == Some(TagRequired) <==> t.IsInternal() && t.tag.None?
    ensures r == Some(TagAndContentRequired) <==> t.IsAdjacent() && (t.tag.None? || t.content.None?)
    ensures r.None? <==> !(t.IsInternal() && t.tag.None?) && !(t.IsAdjacent() && (t.tag.None? || t.content.None?))
  {
    if t.IsInternal() && t.tag.None? then Some(TagRequired)
    else if t.IsAdjacent() && (t.tag.None? || t.content.None?) then Some(TagAndContentRequired)
    else None
  }

  /** Only two configurations are rejected; the predefined external and untagged values, and the default, always pass. */
  lemma TaggingCheckCases(tag: Option<string>, content: Option<string>)
    ensures CheckTagging(Tagging(tag, content, External)).None?
    ensures CheckTagging(Tagging(tag, content, Untagged)).None?
    ensures DEFAULT_TAGGING.IsExternal() && CheckTagging(DEFAULT_TAGGING).None?
    ensures CheckTagging(EXTERNAL_TAGGING).None? && CheckTagging(UNTAGGED).None?
    ensures CheckTagging(InternalTagging(tag, content)).None? <==> tag.Some?
    ensures CheckTagging(AdjacentTagging(tag, content)).None? <==> tag.Some? && content.Some?
    ensures CheckTagging(InternalTagging(Some("type"), None)).None?
    ensures CheckTagging(AdjacentTagging(Some("type"), None)) == Some(TagAndContentRequired)
  {
  }

  /** `Tagging.is_taggable(typ)`: only dataclasses carry a tag. */
  predicate IsTaggable(t: Type)
  {
    t.Dataclass?
  }

  /** The type-check flavours. */
  datatype TypeCheckKind = NoCheck | Coerce | Strict

  datatype TypeCheck = TypeCheck(kind: TypeCheckKind)
  {
    predicate IsStrict() { kind == Strict }
    predicate IsCoerce() { kind == Coerce }
  }

  /** The module-level flavours `NoCheck`, `Coerce` and `Strict`. */
  const NO_CHECK: TypeCheck := TypeCheck(NoCheck)

  const COERCE: TypeCheck := TypeCheck(Coerce)

  const STRICT: TypeCheck := TypeCheck(Strict)

  /** `is_coercible(typ, obj)`: everything but None. */
  predicate IsCoercible(obj: Value)
  {
    obj != VNone
  }

  /**
   * `coerce(typ, obj)`: call the type on the value unless it is None.
   * `construct(v)` is what calling the type on `v` returns, or the exception
   * the call raises (as `int("x")` raises ValueError), which `coerce` lets
   * through.
   */
  function CoerceTo(construct: Value -> Result<Value, Error>, obj: Value): (r: Result<Value, Error>)
    ensures obj == VNone ==> r == Success(VNone)
    ensures obj != VNone ==> r == construct(obj)
    ensures r.Failure? ==> IsCoercible(obj) && construct(obj).Failure? && r.error == construct(obj).error
  {
    if IsCoercible(obj) then construct(obj) else Success(obj)
  }

  /**
   * Coercing a coerced value again gives the same result whenever calling
   * the type on a value it produced gives that value back (as with `int` or
   * `str`).
   */
  lemma CoerceIdempotent(construct: Value -> Result<Value, Error>, obj: Value)
    requires forall v :: construct(v).Success? ==> construct(construct(v).value) == construct(v)
    ensures CoerceTo(construct, obj).Success? ==>
      CoerceTo(construct, CoerceTo(construct, obj).value) == CoerceTo(construct, obj)
  {
    if obj != VNone && construct(obj).Success? && construct(obj).value == VNone {
      assert construct(VNone) == construct(obj);
    }
  }

  /** The module-wide settings; only `debug` exists. */
  class Settings {
    var debug: bool

    /** `SETTINGS = dict(debug=False)`. */
    constructor ()
      ensures !debug
    {
      debug := false;
    }

    /** `init(debug)`. */
    method Init(debug: bool)
      modifies this
      ensures this.debug == debug
    {
      this.debug := debug;
    }
  }
}
