/**
 * `should_impl_dataclass`: whether `@dataclass` still has to be applied to a
 * class. `dataclasses.is_dataclass` also holds for an undecorated class that
 * derives from a dataclass, so the decision compares the class's own
 * annotations with the dataclass fields it has.
 */
module Dataclasses {

  /**
   * The decision in closed form: a class that is not a dataclass needs the
   * decorator; one without own annotations does not; otherwise it does when
   * the annotation count differs from the field count or some annotation is
   * not a field.
   */
  predicate ShouldImpl(isDataclass: bool, annotations: seq<string>, fieldNames: seq<string>)
  {
    !isDataclass ||
    (|annotations| > 0 &&
     (|annotations| != |fieldNames| || exists i :: 0 <= i < |annotations| && annotations[i] !in fieldNames))
  }

  /**
   * `should_impl_dataclass(cls)`, given `is_dataclass(cls)`, the names in
   * `cls.__annotations__` and the names of `dataclasses.fields(cls)`.
   */
  method ShouldImplDataclass(isDataclass: bool, annotations: seq<string>, fieldNames: seq<string>) returns (r: bool)
    ensures r == ShouldImpl(isDataclass, annotations, fieldNames)
  {
    if !isDataclass {
      return true;
    }
    if |annotations| == 0 {
      return false;
    }
    if |annotations| != |fieldNames| {
      return true;
    }
    var i := 0;
    while i < |annotations|
      invariant 0 <= i <= |annotations|
      invariant forall j :: 0 <= j < i ==> annotations[j] in fieldNames
    {
      if annotations[i] !in fieldNames {
        return true;
      }
      i := i + 1;
    }
    return false;
  }

  predicate NoDuplicates(xs: seq<string>)
  {
    forall i, j :: 0 <= i < j < |xs| ==> xs[i] != xs[j]
  }

  function SetOf(xs: seq<string>): (r: set<string>)
  {
    set x | x in xs
  }

  /** A list without repeats has as many distinct elements as entries. */
  lemma {:induction false} DistinctCount(xs: seq<string>)
    requires NoDuplicates(xs)
    ensures |SetOf(xs)| == |xs|
  {
    if xs != [] {
      var rest := xs[1..];
      DistinctCount(rest);
      assert xs[0] !in rest;
      assert SetOf(xs) == SetOf(rest) + {xs[0]};
    }
  }

  lemma ProperSubsetSmaller(a: set<string>, b: set<string>)
    requires a <= b && a != b
    ensures |a| < |b|
  {
    var x :| x in b && x !in a;
    assert a <= b - {x};
    assert |b - {x}| == |b| - 1;
    SubsetNotLarger(a, b - {x});
  }

  lemma {:induction false} SubsetNotLarger(a: set<string>, b: set<string>)
    requires a <= b
    ensures |a| <= |b|
    decreases |a|
  {
    if a != {} {
      var x :| x in a;
      SubsetNotLarger(a - {x}, b - {x});
    }
  }

  /**
   * For a dataclass, whose annotation names and field names are both free of
   * repeats, the decorator is needed exactly when the class has own
   * annotations and they do not name the same fields.
   */
  lemma ShouldImplMeansFieldsDiffer(annotations: seq<string>, fieldNames: seq<string>)
    requires NoDuplicates(annotations) && NoDuplicates(fieldNames)
    ensures ShouldImpl(true, annotations, fieldNames) <==>
      |annotations| > 0 && SetOf(annotations) != SetOf(fieldNames)
  {
    DistinctCount(annotations);
    DistinctCount(fieldNames);
    if |annotations| > 0 && SetOf(annotations) != SetOf(fieldNames) && !ShouldImpl(true, annotations, fieldNames) {
      assert SetOf(annotations) <= SetOf(fieldNames);
      ProperSubsetSmaller(SetOf(annotations), SetOf(fieldNames));
    }
    if ShouldImpl(true, annotations, fieldNames) {
      if |annotations| != |fieldNames| {
        assert |SetOf(annotations)| != |SetOf(fieldNames)|;
      } else {
        var i :| 0 <= i < |annotations| && annotations[i] !in fieldNames;
        assert annotations[i] in SetOf(annotations) && annotations[i] !in SetOf(fieldNames);
      }
    }
  }

  /**
   * The documented example: `Base` is decorated and declares `a`; `Derived`
   * derives from it undecorated and declares `b`. `Derived` inherits the
   * dataclass fields of `Base`, so its fields are just `a` while its own
   * annotation is `b`: the counts agree, and it is the name test that finds
   * `b` missing from the fields.
   */
  lemma BaseDerivedExample()
    ensures !ShouldImpl(true, ["a"], ["a"])
    ensures |["b"]| == |["a"]| && ShouldImpl(true, ["b"], ["a"])
    ensures ShouldImpl(false, ["a"], ["a"])
  {
    var annotations, fieldNames := ["b"], ["a"];
    assert annotations[0] !in fieldNames;
  }
}
