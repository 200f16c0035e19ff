/**
 * Name mangling: the identifiers under which generated functions are
 * registered. A union or literal function name joins the names of its
 * arguments with underscores behind a direction prefix and then replaces
 * every character outside [A-Za-z0-9] by an underscore; a field function
 * name is the field name, an underscore and the purpose.
 */
module Names {

  /** Prefixes that tell the direction of a union function apart. */
  const UNION_SE_PREFIX: string := "union_se"
  const UNION_DE_PREFIX: string := "union_de"
  const LITERAL_DE_PREFIX: string := "literal_de"

  predicate IsAlnum(c: char)
  {
    ('A' <= c <= 'Z') || ('a' <= c <= 'z') || ('0' <= c <= '9')
  }

  predicate IsIdentChar(c: char)
  {
    IsAlnum(c) || c == '_'
  }

  /** A string made only of [A-Za-z0-9_]. */
  predicate IsIdent(s: string)
  {
    forall i :: 0 <= i < |s| ==> IsIdentChar(s[i])
  }

  function SanitizeChar(c: char): char
  {
    if IsAlnum(c) then c else '_'
  }

  /** `re.sub(r"[^A-Za-z0-9]", "_", s)`: each character is kept or replaced in place. */
  function Sanitize(s: string): (r: string)
    ensures |r| == |s|
    ensures forall i :: 0 <= i < |s| ==> r[i] == SanitizeChar(s[i])
    ensures IsIdent(r)
  {
    seq(|s|, i requires 0 <= i < |s| => SanitizeChar(s[i]))
  }

  /** `sep.join(xs)`. */
  function Join(sep: string, xs: seq<string>): (r: string)
  {
    if |xs| == 0 then ""
    else if |xs| == 1 then xs[0]
    else xs[0] + sep + Join(sep, xs[1..])
  }

  /** `union_func_name(prefix, union_args)`, given the type names of the union's arguments. */
  function UnionFuncName(prefix: string, typeNames: seq<string>): (r: string)
    ensures r == Sanitize(prefix + "_" + Join("_", typeNames))
    ensures |r| == |prefix| + 1 + |Join("_", typeNames)|
    ensures IsIdent(r)
    ensures r[..|prefix|] == Sanitize(prefix) && r[|prefix|] == '_'
  {
    var raw := prefix + "_" + Join("_", typeNames);
    SanitizeConcat(prefix, "_" + Join("_", typeNames));
    Sanitize(raw)
  }

  /** A literal argument as `literal_func_name` sees it: `str(a)` and `typename(type(a))`. */
  datatype LiteralArg = LiteralArg(text: string, typeName: string)

  /** The `f"{a}_{typename(type(a))}"` parts joined by `literal_func_name`. */
  function LiteralParts(args: seq<LiteralArg>): (parts: seq<string>)
    ensures |parts| == |args|
    ensures forall i :: 0 <= i < |args| ==> parts[i] == args[i].text + "_" + args[i].typeName
  {
    seq(|args|, i requires 0 <= i < |args| => args[i].text + "_" + args[i].typeName)
  }

  /** `literal_func_name(literal_args)`. */
  function LiteralFuncName(args: seq<LiteralArg>): (r: string)
    ensures r == UnionFuncName(LITERAL_DE_PREFIX, LiteralParts(args))
    ensures IsIdent(r)
  {
    Sanitize(LITERAL_DE_PREFIX + "_" + Join("_", LiteralParts(args)))
  }

  /** `Field.mangle(field, purpose)`: `f"{field.name}_{purpose}"`. */
  function Mangle(fieldName: string, purpose: string): (r: string)
    ensures |r| == |fieldName| + 1 + |purpose|
    ensures r[..|fieldName|] == fieldName && r[|fieldName|] == '_' && r[|fieldName| + 1..] == purpose
  {
    fieldName + "_" + purpose
  }

  /** Sanitising works character by character, so it distributes over concatenation. */
  lemma SanitizeConcat(a: string, b: string)
    ensures Sanitize(a + b) == Sanitize(a) + Sanitize(b)
  {
    var l, r := Sanitize(a + b), Sanitize(a) + Sanitize(b);
    assert |l| == |r|;
    forall i | 0 <= i < |l| ensures l[i] == r[i] {
      if i < |a| {
        assert (a + b)[i] == a[i];
      } else {
        assert (a + b)[i] == b[i - |a|];
      }
    }
  }

  /** A string already made of [A-Za-z0-9_] is left as it is. */
  lemma SanitizeIdent(s: string)
    requires IsIdent(s)
    ensures Sanitize(s) == s
  {
    var r := Sanitize(s);
    forall i | 0 <= i < |s| ensures r[i] == s[i] {
      assert IsIdentChar(s[i]);
    }
  }

  /** Sanitising twice is sanitising once. */
  lemma SanitizeIdempotent(s: string)
    ensures Sanitize(Sanitize(s)) == Sanitize(s)
  {
    SanitizeIdent(Sanitize(s));
  }

  lemma {:induction false} JoinIdent(sep: string, xs: seq<string>)
    requires IsIdent(sep)
    requires forall i :: 0 <= i < |xs| ==> IsIdent(xs[i])
    ensures IsIdent(Join(sep, xs))
    decreases |xs|
  {
    if |xs| > 1 {
      JoinIdent(sep, xs[1..]);
      var tail := Join(sep, xs[1..]);
      assert IsIdent(xs[0]);
      var j := xs[0] + sep + tail;
      forall i | 0 <= i < |j| ensures IsIdentChar(j[i]) {
        if i < |xs[0]| {
          assert j[i] == xs[0][i];
        } else if i < |xs[0]| + |sep| {
          assert j[i] == sep[i - |xs[0]|];
        } else {
          assert j[i] == tail[i - |xs[0]| - |sep|];
        }
      }
    }
  }

  /**
   * When the prefix and every type name are already identifiers, the union
   * function name is the plain underscore-joined string: nothing is replaced.
   */
  lemma UnionFuncNameOfIdents(prefix: string, typeNames: seq<string>)
    requires IsIdent(prefix)
    requires forall i :: 0 <= i < |typeNames| ==> IsIdent(typeNames[i])
    ensures UnionFuncName(prefix, typeNames) == prefix + "_" + Join("_", typeNames)
  {
    var j := Join("_", typeNames);
    JoinIdent("_", typeNames);
    IdentConcat(prefix, "_");
    IdentConcat(prefix + "_", j);
    SanitizeIdent(prefix + "_" + j);
  }

  lemma IdentConcat(a: string, b: string)
    requires IsIdent(a) && IsIdent(b)
    ensures IsIdent(a + b)
  {
    forall i | 0 <= i < |a + b| ensures IsIdentChar((a + b)[i]) {
      if i >= |a| {
        assert (a + b)[i] == b[i - |a|];
      }
    }
  }

  /**
   * Two type-name lists give the same union function name under one prefix
   * exactly when their underscore-joined forms agree after sanitising: the
   * name is collision-resistant only up to that (for instance `List[str]`
   * and `List_str_` collide).
   */
  lemma UnionFuncNameCollision(prefix: string, xs: seq<string>, ys: seq<string>)
    ensures UnionFuncName(prefix, xs) == UnionFuncName(prefix, ys)
        <==> Sanitize(Join("_", xs)) == Sanitize(Join("_", ys))
  {
    var jx, jy := Join("_", xs), Join("_", ys);
    SanitizeConcat(prefix + "_", jx);
    SanitizeConcat(prefix + "_", jy);
    assert prefix + "_" + jx == (prefix + "_") + jx;
    assert prefix + "_" + jy == (prefix + "_") + jy;
    var p := Sanitize(prefix + "_");
    if UnionFuncName(prefix, xs) == UnionFuncName(prefix, ys) {
      assert (p + Sanitize(jx))[|p|..] == Sanitize(jx);
      assert (p + Sanitize(jy))[|p|..] == Sanitize(jy);
    }
  }

  /** An example collision: `List[str]` and `List_str_` mangle alike. */
  lemma UnionFuncNameCollisionExample(prefix: string)
    ensures UnionFuncName(prefix, ["List[str]"]) == UnionFuncName(prefix, ["List_str_"])
  {
    assert Join("_", ["List[str]"]) == "List[str]";
    assert Join("_", ["List_str_"]) == "List_str_";
    var a := Sanitize("List[str]");
    assert a == "List_str_" by {
      assert |a| == 9;
      assert a[4] == '_' && a[8] == '_';
    }
    SanitizeIdent("List_str_");
    UnionFuncNameCollision(prefix, ["List[str]"], ["List_str_"]);
  }

  /** Sanitising a character that is not [A-Za-z0-9] yields one underscore. */
  lemma SanitizeOther(c: char)
    requires !IsAlnum(c)
    ensures Sanitize([c]) == "_"
  {
    assert Sanitize([c])[0] == SanitizeChar(c);
  }

  /** The docstring example of `union_func_name`. */
  lemma UnionFuncNameExample()
    ensures UnionFuncName(UNION_SE_PREFIX, ["int", "List[str]", "IPv4Address"])
         == "union_se_int_List_str__IPv4Address"
  {
    var a, c := "union_se_int_List", "_IPv4Address";
    ExampleRaw(["int", "List[str]", "IPv4Address"], a, c);
    ExampleSanitized(a, c);
  }

  lemma ExampleRaw(names: seq<string>, a: string, c: string)
    requires names == ["int", "List[str]", "IPv4Address"]
    requires a == "union_se_int_List" && c == "_IPv4Address"
    ensures UNION_SE_PREFIX + "_" + Join("_", names) == a + "[" + "str" + "]" + c
  {
    ExampleJoin(names);
  }

  lemma ExampleSanitized(a: string, c: string)
    requires a == "union_se_int_List" && c == "_IPv4Address"
    ensures Sanitize(a + "[" + "str" + "]" + c) == "union_se_int_List_str__IPv4Address"
  {
    SanitizeConcat(a + "[" + "str" + "]", c);
    SanitizeConcat(a + "[" + "str", "]");
    SanitizeConcat(a + "[", "str");
    SanitizeConcat(a, "[");
    ExampleSegments(a, c);
    ExampleGlue(a, c);
  }

  lemma ExampleGlue(a: string, c: string)
    requires a == "union_se_int_List" && c == "_IPv4Address"
    ensures a + "_" + "str" + "_" + c == "union_se_int_List_str__IPv4Address"
  {
  }

  lemma ExampleJoin(names: seq<string>)
    requires names == ["int", "List[str]", "IPv4Address"]
    ensures Join("_", names) == "int_List[str]_IPv4Address"
  {
    var rest := names[1..];
    assert rest == ["List[str]", "IPv4Address"];
    assert rest[1..] == ["IPv4Address"];
    assert Join("_", rest[1..]) == "IPv4Address";
    assert Join("_", rest) == "List[str]" + "_" + "IPv4Address";
    assert Join("_", names) == "int" + "_" + ("List[str]" + "_" + "IPv4Address");
  }

  lemma ExampleSegments(a: string, c: string)
    requires a == "union_se_int_List" && c == "_IPv4Address"
    ensures Sanitize(a) == a && Sanitize(c) == c && Sanitize("str") == "str"
    ensures Sanitize("[") == "_" && Sanitize("]") == "_"
  {
    SanitizeIdent(a);
    SanitizeIdent(c);
    SanitizeIdent("str");
    SanitizeOther('[');
    SanitizeOther(']');
  }

  /** Joining two non-empty lists is joining each and gluing the results with the separator. */
  lemma {:induction false} JoinAppend(sep: string, xs: seq<string>, ys: seq<string>)
    requires xs != [] && ys != []
    ensures Join(sep, xs + ys) == Join(sep, xs) + sep + Join(sep, ys)
    decreases |xs|
  {
    assert (xs + ys)[0] == xs[0];
    if |xs| == 1 {
      assert (xs + ys)[1..] == ys;
    } else {
      assert (xs + ys)[1..] == xs[1..] + ys;
      JoinAppend(sep, xs[1..], ys);
    }
  }

  /** The docstring example of `literal_func_name` over the file modes of `open`. */
  lemma LiteralFuncNameExample()
    ensures LiteralFuncName([LiteralArg("r", "str"), LiteralArg("w", "str"), LiteralArg("a", "str"),
                             LiteralArg("x", "str"), LiteralArg("r+", "str"), LiteralArg("w+", "str"),
                             LiteralArg("a+", "str"), LiteralArg("x+", "str")])
         == "literal_de_r_str_w_str_a_str_x_str_r__str_w__str_a__str_x__str"
  {
    var args := [LiteralArg("r", "str"), LiteralArg("w", "str"), LiteralArg("a", "str"),
                 LiteralArg("x", "str"), LiteralArg("r+", "str"), LiteralArg("w+", "str"),
                 LiteralArg("a+", "str"), LiteralArg("x+", "str")];
    var head := "literal_de_r_str_w_str_a_str_x_str_";
    var tail := "r+_str_w+_str_a+_str_x+_str";
    LiteralExampleRaw(args, head, tail);
    SanitizeConcat(head, tail);
    LiteralExampleHead(head);
    LiteralExampleTail(tail);
    LiteralExampleGlue(head, "r__str_w__str_a__str_x__str");
  }

  lemma LiteralExampleRaw(args: seq<LiteralArg>, head: string, tail: string)
    requires args == [LiteralArg("r", "str"), LiteralArg("w", "str"), LiteralArg("a", "str"),
                      LiteralArg("x", "str"), LiteralArg("r+", "str"), LiteralArg("w+", "str"),
                      LiteralArg("a+", "str"), LiteralArg("x+", "str")]
    requires head == "literal_de_r_str_w_str_a_str_x_str_"
    requires tail == "r+_str_w+_str_a+_str_x+_str"
    ensures LITERAL_DE_PREFIX + "_" + Join("_", LiteralParts(args)) == head + tail
  {
    var plain := ["r_str", "w_str", "a_str", "x_str"];
    var plus := ["r+_str", "w+_str", "a+_str", "x+_str"];
    LiteralExampleParts(args, plain, plus);
    JoinAppend("_", plain, plus);
    var left := Join("_", plain);
    LiteralExampleJoinPlain(plain);
    LiteralExampleJoinPlus(plus, tail);
    LiteralExampleHeadGlue(left, head);
    assert Join("_", LiteralParts(args)) == left + "_" + tail;
    assert LITERAL_DE_PREFIX + "_" + (left + "_" + tail) == (LITERAL_DE_PREFIX + "_" + left + "_") + tail;
  }

  lemma LiteralExampleHeadGlue(left: string, head: string)
    requires left == "r_str_w_str_a_str_x_str"
    requires head == "literal_de_r_str_w_str_a_str_x_str_"
    ensures LITERAL_DE_PREFIX + "_" + left + "_" == head
  {
  }

  lemma LiteralExampleParts(args: seq<LiteralArg>, plain: seq<string>, plus: seq<string>)
    requires args == [LiteralArg("r", "str"), LiteralArg("w", "str"), LiteralArg("a", "str"),
                      LiteralArg("x", "str"), LiteralArg("r+", "str"), LiteralArg("w+", "str"),
                      LiteralArg("a+", "str"), LiteralArg("x+", "str")]
    requires plain == ["r_str", "w_str", "a_str", "x_str"]
    requires plus == ["r+_str", "w+_str", "a+_str", "x+_str"]
    ensures LiteralParts(args) == plain + plus
  {
    var parts := LiteralParts(args);
    forall i | 0 <= i < 8 ensures parts[i] == (plain + plus)[i] {
      assert parts[i] == args[i].text + "_" + args[i].typeName;
    }
  }

  lemma LiteralExampleJoinPlain(plain: seq<string>)
    requires plain == ["r_str", "w_str", "a_str", "x_str"]
    ensures Join("_", plain) == "r_str_w_str_a_str_x_str"
  {
    JoinFour("_", "r_str", "w_str", "a_str", "x_str");
  }

  lemma LiteralExampleJoinPlus(plus: seq<string>, tail: string)
    requires plus == ["r+_str", "w+_str", "a+_str", "x+_str"]
    requires tail == "r+_str_w+_str_a+_str_x+_str"
    ensures Join("_", plus) == tail
  {
    JoinFour("_", "r+_str", "w+_str", "a+_str", "x+_str");
  }

  lemma JoinFour(sep: string, a: string, b: string, c: string, d: string)
    ensures Join(sep, [a, b, c, d]) == a + sep + (b + sep + (c + sep + d))
  {
    assert [c, d][1..] == [d];
    assert Join(sep, [c, d]) == c + sep + d;
    assert [b, c, d][1..] == [c, d];
    assert Join(sep, [b, c, d]) == b + sep + Join(sep, [c, d]);
    assert [a, b, c, d][1..] == [b, c, d];
  }

  lemma LiteralExampleHead(head: string)
    requires head == "literal_de_r_str_w_str_a_str_x_str_"
    ensures Sanitize(head) == head
  {
    SanitizeIdent(head);
  }

  lemma LiteralExampleTail(tail: string)
    requires tail == "r+_str_w+_str_a+_str_x+_str"
    ensures Sanitize(tail) == "r__str_w__str_a__str_x__str"
  {
    var t := Sanitize(tail);
    var e := "r__str_w__str_a__str_x__str";
    forall i | 0 <= i < |t| ensures t[i] == e[i] {
      assert t[i] == SanitizeChar(tail[i]);
    }
  }

  lemma LiteralExampleGlue(head: string, tail: string)
    requires head == "literal_de_r_str_w_str_a_str_x_str_"
    requires tail == "r__str_w__str_a__str_x__str"
    ensures head + tail == "literal_de_r_str_w_str_a_str_x_str_r__str_w__str_a__str_x__str"
  {
  }

  /**
   * Mangling keeps wrappers apart: one field's names differ whenever the
   * purposes differ, and two fields' names for one purpose differ whenever
   * the fields' names do.
   */
  lemma MangleInjective(fieldName: string, other: string, p: string, q: string)
    ensures Mangle(fieldName, p) == Mangle(fieldName, q) ==> p == q
    ensures Mangle(fieldName, p) == Mangle(other, p) ==> fieldName == other
  {
    if Mangle(fieldName, p) == Mangle(fieldName, q) {
      assert Mangle(fieldName, p)[|fieldName| + 1..] == p;
    }
    if Mangle(fieldName, p) == Mangle(other, p) {
      assert Mangle(fieldName, p)[..|fieldName|] == other;
    }
  }
}
