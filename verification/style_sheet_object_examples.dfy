/** The extractor on the inputs of its own test suite
    (test/transformObjectExpressionIntoStyleSheetObject.js and
    test/transformIntoStyleSheetObject.js). The evaluator is a parameter; each
    example states only what it must return on the expressions it is given. */
module StyleSheetObjectExamples {
  import opened Wrappers
  import opened StyleSheetObject

  function Str(s: string): Expr { Lit(StringLiteral(s)) }
  function Num(n: int): Expr { Lit(NumericLiteral(n)) }
  function Prop(key: string, value: Expr): Property { Property(Identifier(key), value) }

  /** `{ foo: { <inner> } }` */
  function FooWith(inner: seq<Property>): Expr { ObjectExpr([Prop("foo", ObjectExpr(inner))]) }

  lemma AssignToEmpty<V>(key: string, v: V)
    ensures OrderedMap.Assign([], key, v) == [(key, v)]
  {
    assert OrderedMap.KeySet<V>([]) == {};
  }

  /** A one-property object evaluates to the one-entry map of its value. */
  lemma OneProperty(key: string, e: Expr, ctx: Context, v: Value)
    requires ProcessValue(key, e, ctx) == Success(v)
    ensures ProcessProperties(ObjectExpr([Prop(key, e)]), 0, [], ctx) == Success([(key, v)])
  {
    AssignToEmpty(key, v);
    assert ProcessProperty(Prop(key, e), [], ctx) == Success([(key, v)]);
  }

  lemma OnePropertyFails(key: string, e: Expr, ctx: Context, err: Error)
    requires ProcessValue(key, e, ctx) == Failure(err)
    ensures TransformObjectExpression(FooWith([Prop(key, e)]), ctx) == Failure(err)
  {
    assert ProcessProperty(Prop(key, e), [], ctx) == Failure(err);
    assert ProcessProperties(ObjectExpr([Prop(key, e)]), 0, [], ctx) == Failure(err);
  }

  /** A one-style sheet evaluates to the one-entry map of its properties. */
  lemma OneStyle(key: Expr, name: string, inner: seq<Property>, ctx: Context, entries: OrderedMap.OMap<Value>)
    requires KeyToName(key) == Success(name)
    requires ProcessProperties(ObjectExpr(inner), 0, [], ctx) == Success(entries)
    ensures TransformObjectExpression(ObjectExpr([Property(key, ObjectExpr(inner))]), ctx) == Success([(name, entries)])
  {
    AssignToEmpty(name, entries);
    var e := ObjectExpr([Property(key, ObjectExpr(inner))]);
    assert ProcessTopLevelProperty(e.properties[0], [], ctx) == Success([(name, entries)]);
    assert ProcessTopLevelProperties(e, 1, [(name, entries)], ctx) == Success([(name, entries)]);
  }

  lemma EmptyObjectExample(ctx: Context)
    ensures TransformObjectExpression(ObjectExpr([]), ctx) == Success([])
    ensures TransformObjectExpression(FooWith([]), ctx) == Success([("foo", [])])
  {
    OneStyle(Identifier("foo"), "foo", [], ctx, []);
  }

  lemma QuotedKeyExample(ctx: Context)
    ensures TransformObjectExpression(ObjectExpr([Property(Str("foo foo"), ObjectExpr([]))]), ctx)
      == Success([("foo foo", [])])
  {
    OneStyle(Str("foo foo"), "foo foo", [], ctx, []);
  }

  lemma NumberValueExample(ctx: Context)
    requires ctx.evaluate(Num(123)) == JsNumber(123)
    ensures TransformObjectExpression(FooWith([Prop("bar", Num(123))]), ctx)
      == Success([("foo", [("bar", Number(123))])])
  {
    OneProperty("bar", Num(123), ctx, Number(123));
    OneStyle(Identifier("foo"), "foo", [Prop("bar", Num(123))], ctx, [("bar", Number(123))]);
  }

  lemma StringValueExample(ctx: Context)
    requires ctx.evaluate(Str("baz")) == JsString("baz")
    ensures TransformObjectExpression(FooWith([Prop("bar", Str("baz"))]), ctx)
      == Success([("foo", [("bar", Text("baz"))])])
  {
    assert !IsBlank("baz") by { assert !IsJsWhitespace("baz"[0]); }
    OneProperty("bar", Str("baz"), ctx, Text("baz"));
    OneStyle(Identifier("foo"), "foo", [Prop("bar", Str("baz"))], ctx, [("bar", Text("baz"))]);
  }

  lemma ContextValueExample(ctx: Context)
    requires ctx.names == {"baz"}
    requires ctx.evaluate(Identifier("baz")) == JsString("BAZ")
    ensures TransformObjectExpression(FooWith([Prop("bar", Identifier("baz"))]), ctx)
      == Success([("foo", [("bar", Text("BAZ"))])])
  {
    assert !IsBlank("BAZ") by { assert !IsJsWhitespace("BAZ"[0]); }
    OneProperty("bar", Identifier("baz"), ctx, Text("BAZ"));
    OneStyle(Identifier("foo"), "foo", [Prop("bar", Identifier("baz"))], ctx, [("bar", Text("BAZ"))]);
  }

  lemma NestedObjectExample(ctx: Context)
    requires ctx.evaluate(Str("test5")) == JsString("test5")
    ensures TransformObjectExpression(
        ObjectExpr([Prop("test2", ObjectExpr([Property(Str("test 3"), ObjectExpr([Prop("test4", Str("test5"))]))]))]),
        ctx)
      == Success([("test2", [("test 3", Nested([("test4", Text("test5"))]))])])
  {
    assert !IsBlank("test5") by { assert !IsJsWhitespace("test5"[0]); }
    var test3 := [Prop("test4", Str("test5"))];
    OneProperty("test4", Str("test5"), ctx, Text("test5"));
    AssignToEmpty("test 3", Nested([("test4", Text("test5"))]));
    var test2 := [Property(Str("test 3"), ObjectExpr(test3))];
    assert ProcessProperty(test2[0], [], ctx) == Success([("test 3", Nested([("test4", Text("test5"))]))]);
    assert ProcessProperties(ObjectExpr(test2), 0, [], ctx) == Success([("test 3", Nested([("test4", Text("test5"))]))]);
    OneStyle(Identifier("test2"), "test2", test2, ctx, [("test 3", Nested([("test4", Text("test5"))]))]);
  }

  /** `{ foo: { bar: "baz" + "bam" } }` with no context: a binary
      expression of literals is evaluated. */
  lemma LiteralSumExample(ctx: Context)
    requires ctx.names == {}
    requires ctx.evaluate(Binary("+", Str("baz"), Str("bam"))) == JsString("bazbam")
    ensures TransformObjectExpression(FooWith([Prop("bar", Binary("+", Str("baz"), Str("bam")))]), ctx)
      == Success([("foo", [("bar", Text("bazbam"))])])
  {
    var e := Binary("+", Str("baz"), Str("bam"));
    assert CanEvaluate(e, ctx);
    assert !IsBlank("bazbam") by { assert !IsJsWhitespace("bazbam"[0]); }
    OneProperty("bar", e, ctx, Text("bazbam"));
    OneStyle(Identifier("foo"), "foo", [Prop("bar", e)], ctx, [("bar", Text("bazbam"))]);
  }

  /** `{ foo: { bar: baz + " " + bam } }` with the context
      `{ baz: "BAZ", bam: "BAM" }`. */
  lemma ContextSumExample(ctx: Context)
    requires ctx.names == {"baz", "bam"}
    requires ctx.evaluate(Binary("+", Binary("+", Identifier("baz"), Str(" ")), Identifier("bam"))) == JsString("BAZ BAM")
    ensures TransformObjectExpression(FooWith([Prop("bar", Binary("+", Binary("+", Identifier("baz"), Str(" ")), Identifier("bam")))]), ctx)
      == Success([("foo", [("bar", Text("BAZ BAM"))])])
  {
    var e := Binary("+", Binary("+", Identifier("baz"), Str(" ")), Identifier("bam"));
    assert CanEvaluate(Identifier("baz"), ctx) && CanEvaluate(Identifier("bam"), ctx);
    assert CanEvaluate(e, ctx);
    assert !IsBlank("BAZ BAM") by { assert !IsJsWhitespace("BAZ BAM"[0]); }
    OneProperty("bar", e, ctx, Text("BAZ BAM"));
    OneStyle(Identifier("foo"), "foo", [Prop("bar", e)], ctx, [("bar", Text("BAZ BAM"))]);
  }

  /** `{ foo: { bar: a * (b + c) + "px" } }` with the context
      `{ a: 2, b: 3, c: 4 }`. */
  lemma ArithmeticExample(ctx: Context)
    requires ctx.names == {"a", "b", "c"}
    requires ctx.evaluate(Binary("+", Binary("*", Identifier("a"), Binary("+", Identifier("b"), Identifier("c"))), Str("px")))
      == JsString("14px")
    ensures TransformObjectExpression(
        FooWith([Prop("bar", Binary("+", Binary("*", Identifier("a"), Binary("+", Identifier("b"), Identifier("c"))), Str("px")))]),
        ctx)
      == Success([("foo", [("bar", Text("14px"))])])
  {
    var sum := Binary("+", Identifier("b"), Identifier("c"));
    var e := Binary("+", Binary("*", Identifier("a"), sum), Str("px"));
    assert CanEvaluate(Identifier("b"), ctx) && CanEvaluate(Identifier("c"), ctx);
    assert CanEvaluate(Identifier("a"), ctx) && CanEvaluate(sum, ctx);
    assert CanEvaluate(Binary("*", Identifier("a"), sum), ctx);
    assert CanEvaluate(e, ctx);
    assert !IsBlank("14px") by { assert !IsJsWhitespace("14px"[0]); }
    OneProperty("bar", e, ctx, Text("14px"));
    OneStyle(Identifier("foo"), "foo", [Prop("bar", e)], ctx, [("bar", Text("14px"))]);
  }

  /** `{ foo: { bar: a.b } }` with the context `{ a: { b: "c" } }`. */
  lemma MemberValueExample(ctx: Context)
    requires ctx.names == {"a"}
    requires ctx.evaluate(Member(Identifier("a"), Identifier("b"))) == JsString("c")
    ensures TransformObjectExpression(FooWith([Prop("bar", Member(Identifier("a"), Identifier("b")))]), ctx)
      == Success([("foo", [("bar", Text("c"))])])
  {
    var e := Member(Identifier("a"), Identifier("b"));
    assert CanEvaluate(Identifier("a"), ctx);
    assert CanEvaluate(e, ctx);
    assert !IsBlank("c") by { assert !IsJsWhitespace("c"[0]); }
    OneProperty("bar", e, ctx, Text("c"));
    OneStyle(Identifier("foo"), "foo", [Prop("bar", e)], ctx, [("bar", Text("c"))]);
  }

  /** A repeated key keeps its first position and takes its last value. */
  lemma RepeatedKeyExample(ctx: Context)
    requires ctx.evaluate(Num(1)) == JsNumber(1)
    requires ctx.evaluate(Num(2)) == JsNumber(2)
    requires ctx.evaluate(Num(3)) == JsNumber(3)
    ensures TransformObjectExpression(FooWith([Prop("a", Num(1)), Prop("b", Num(2)), Prop("a", Num(3))]), ctx)
      == Success([("foo", [("a", Number(3)), ("b", Number(2))])])
  {
    var inner := [Prop("a", Num(1)), Prop("b", Num(2)), Prop("a", Num(3))];
    var obj := ObjectExpr(inner);
    var m1: OrderedMap.OMap<Value> := [("a", Number(1))];
    var m2: OrderedMap.OMap<Value> := [("a", Number(1)), ("b", Number(2))];
    var m3: OrderedMap.OMap<Value> := [("a", Number(3)), ("b", Number(2))];
    RepeatedKeyAssigns();
    AssignToEmpty("a", Number(1));
    PropertyStep(obj, 0, [], ctx, "a", Number(1));
    PropertyStep(obj, 1, m1, ctx, "b", Number(2));
    PropertyStep(obj, 2, m2, ctx, "a", Number(3));
    assert ProcessProperties(obj, 3, m3, ctx) == Success(m3);
    OneStyle(Identifier("foo"), "foo", inner, ctx, m3);
  }

  /** The assignments of the repeated-key example: a new key is appended,
      a known key is overwritten in place. */
  lemma RepeatedKeyAssigns()
    ensures OrderedMap.Assign<Value>([("a", Number(1))], "b", Number(2)) == [("a", Number(1)), ("b", Number(2))]
    ensures OrderedMap.Assign<Value>([("a", Number(1)), ("b", Number(2))], "a", Number(3)) == [("a", Number(3)), ("b", Number(2))]
  {
    var m1: OrderedMap.OMap<Value> := [("a", Number(1))];
    assert "b" !in OrderedMap.KeySet(m1);
    var m2: OrderedMap.OMap<Value> := [("a", Number(1)), ("b", Number(2))];
    assert OrderedMap.IndexOf(m2, "a") == Some(0);
  }

  /** One successful member of an object expression. */
  lemma PropertyStep(obj: Expr, i: nat, acc: OrderedMap.OMap<Value>, ctx: Context, name: string, v: Value)
    requires obj.ObjectExpr? && i < |obj.properties|
    requires KeyToName(obj.properties[i].key) == Success(name)
    requires ProcessValue(name, obj.properties[i].value, ctx) == Success(v)
    ensures ProcessProperties(obj, i, acc, ctx) == ProcessProperties(obj, i + 1, OrderedMap.Assign(acc, name, v), ctx)
  {
    assert ProcessProperty(obj.properties[i], acc, ctx) == Success(OrderedMap.Assign(acc, name, v));
  }

  lemma NegatedNumberExample(ctx: Context)
    requires ctx.names == {}
    ensures TransformObjectExpression(FooWith([Prop("bar", Unary("-", true, Num(5)))]), ctx)
      == Success([("foo", [("bar", Number(-5))])])
  {
    OneProperty("bar", Unary("-", true, Num(5)), ctx, Number(-5));
    OneStyle(Identifier("foo"), "foo", [Prop("bar", Unary("-", true, Num(5)))], ctx, [("bar", Number(-5))]);
  }

  lemma BlankContentExample(ctx: Context)
    requires ctx.evaluate(Str("")) == JsString("")
    ensures TransformObjectExpression(FooWith([Prop("content", Str(""))]), ctx)
      == Success([("foo", [("content", Text(""))])])
  {
    OneProperty("content", Str(""), ctx, Text(""));
    OneStyle(Identifier("foo"), "foo", [Prop("content", Str(""))], ctx, [("content", Text(""))]);
  }

  lemma NotAnObjectExample(ctx: Context)
    ensures TransformObjectExpression(Str("foo"), ctx) == Failure(MustBeObjectExpression)
    ensures TransformObjectExpression(Num(123), ctx) == Failure(MustBeObjectExpression)
    ensures TransformObjectExpression(OtherExpr, ctx) == Failure(MustBeObjectExpression)
    ensures TransformObjectExpression(Lit(BooleanLiteral(true)), ctx) == Failure(MustBeObjectExpression)
    ensures TransformObjectExpression(Lit(BooleanLiteral(false)), ctx) == Failure(MustBeObjectExpression)
    ensures TransformObjectExpression(Lit(NullLiteral), ctx) == Failure(MustBeObjectExpression)
    ensures TransformObjectExpression(Identifier("undefined"), ctx) == Failure(MustBeObjectExpression)
  {}

  /** `{ ["foo"]: {} }` and `{ undefined: {} }`: a computed string-literal
      key names its style by its value, as a quoted key does, and the
      identifier `undefined` as a key is the name "undefined". */
  lemma KeyFormsExample(ctx: Context)
    ensures TransformObjectExpression(ObjectExpr([Property(Str("foo"), ObjectExpr([]))]), ctx)
      == Success([("foo", [])])
    ensures TransformObjectExpression(ObjectExpr([Prop("undefined", ObjectExpr([]))]), ctx)
      == Success([("undefined", [])])
  {
    OneStyle(Str("foo"), "foo", [], ctx, []);
    OneStyle(Identifier("undefined"), "undefined", [], ctx, []);
  }

  /** `{ foo: { bar: a.b.c } }` with the context `{ a: {} }`: the path can be
      evaluated, but reading `c` of undefined throws, and the exception
      propagates. */
  lemma ThrowingEvaluationExample(ctx: Context)
    requires ctx.names == {"a"}
    requires ctx.evaluate(Member(Member(Identifier("a"), Identifier("b")), Identifier("c"))) == JsThrows
    ensures TransformObjectExpression(FooWith([Prop("bar", Member(Member(Identifier("a"), Identifier("b")), Identifier("c")))]), ctx)
      == Failure(EvaluationThrew)
  {
    var path := Member(Member(Identifier("a"), Identifier("b")), Identifier("c"));
    assert CanEvaluate(Identifier("a"), ctx);
    assert CanEvaluate(path, ctx);
    OnePropertyFails("bar", path, ctx, EvaluationThrew);
  }

  lemma TopLevelNotObjectExample(ctx: Context)
    ensures TransformObjectExpression(ObjectExpr([Prop("foo", Str("bar"))]), ctx)
      == Failure(TopLevelValueMustBeObjectExpression)
    ensures TransformObjectExpression(ObjectExpr([Prop("foo", OtherExpr)]), ctx)
      == Failure(TopLevelValueMustBeObjectExpression)
  {}

  lemma NullValueExample(ctx: Context)
    requires ctx.evaluate(Lit(NullLiteral)) == JsOther
    requires ctx.evaluate(Lit(BooleanLiteral(true))) == JsOther
    ensures TransformObjectExpression(FooWith([Prop("bar", Lit(NullLiteral))]), ctx)
      == Failure(ValueMustBeStringOrNumber)
    ensures TransformObjectExpression(FooWith([Prop("bar", Lit(BooleanLiteral(true)))]), ctx)
      == Failure(ValueMustBeStringOrNumber)
  {}

  lemma BlankValueExample(ctx: Context)
    requires ctx.evaluate(Str("")) == JsString("")
    requires ctx.evaluate(Str("  ")) == JsString("  ")
    ensures TransformObjectExpression(FooWith([Prop("bar", Str(""))]), ctx)
      == Failure(StringValueCannotBeBlank)
    ensures TransformObjectExpression(FooWith([Prop("bar", Str("  "))]), ctx)
      == Failure(StringValueCannotBeBlank)
  {}

  /** `Math.PI`, `undefined`, `missing + "bam"`, `baz[0]` and `[]` without a
      context. */
  lemma InvalidValueExample(ctx: Context)
    requires ctx.names == {}
    ensures TransformObjectExpression(FooWith([Prop("bar", Member(Identifier("Math"), Identifier("PI")))]), ctx)
      == Failure(InvalidValueExpressionType)
    ensures TransformObjectExpression(FooWith([Prop("bar", Identifier("undefined"))]), ctx)
      == Failure(InvalidValueExpressionType)
    ensures TransformObjectExpression(FooWith([Prop("bar", Binary("+", Identifier("missing"), Str("bam")))]), ctx)
      == Failure(InvalidValueExpressionType)
    ensures TransformObjectExpression(FooWith([Prop("bar", Member(Identifier("baz"), Num(0)))]), ctx)
      == Failure(InvalidValueExpressionType)
    ensures TransformObjectExpression(FooWith([Prop("bar", OtherExpr)]), ctx)
      == Failure(InvalidValueExpressionType)
  {
    NotOwned(ctx);
    UnevaluableFails("bar", Member(Identifier("Math"), Identifier("PI")), ctx);
    UnevaluableFails("bar", Identifier("undefined"), ctx);
    assert !CanEvaluate(Identifier("missing"), ctx);
    UnevaluableFails("bar", Binary("+", Identifier("missing"), Str("bam")), ctx);
    UnevaluableFails("bar", Member(Identifier("baz"), Num(0)), ctx);
    UnevaluableFails("bar", OtherExpr, ctx);
  }

  lemma NotOwned(ctx: Context)
    requires ctx.names == {}
    ensures !Owns(ctx, "Math") && !Owns(ctx, "missing") && !Owns(ctx, "undefined")
  {
    assert |"Math"| != |"evaluate"|;
    assert |"missing"| != |"evaluate"|;
    assert |"undefined"| != |"evaluate"|;
  }

  /** A value that is neither evaluable, nor an object, nor a negation is
      refused. */
  lemma UnevaluableFails(key: string, e: Expr, ctx: Context)
    requires !CanEvaluate(e, ctx) && !e.ObjectExpr? && !e.Unary?
    ensures TransformObjectExpression(FooWith([Prop(key, e)]), ctx) == Failure(InvalidValueExpressionType)
  {
    OnePropertyFails(key, e, ctx, InvalidValueExpressionType);
  }

  lemma InvalidUnaryExample(ctx: Context)
    requires ctx.names == {}
    ensures TransformObjectExpression(FooWith([Prop("bar", Unary("-", true, Identifier("x")))]), ctx)
      == Failure(InvalidUnaryArgumentType)
  {}

  lemma InvalidKeyExample(ctx: Context)
    ensures TransformObjectExpression(ObjectExpr([Property(Lit(NullLiteral), ObjectExpr([]))]), ctx)
      == Failure(KeyMustBeStringOrIdentifier)
    ensures TransformObjectExpression(ObjectExpr([Property(Num(123), ObjectExpr([]))]), ctx)
      == Failure(KeyMustBeStringOrIdentifier)
    ensures TransformObjectExpression(ObjectExpr([Property(Lit(BooleanLiteral(false)), ObjectExpr([]))]), ctx)
      == Failure(KeyMustBeStringOrIdentifier)
  {}

  lemma DispatcherExample(ctx: Context, functionPath: Expr -> Result<StyleSheet, Error>)
    requires functionPath(ArrowFunctionExpr) == Success([("foo", [])])
    ensures TransformIntoStyleSheetObject(Str("foo"), ctx, functionPath) == Failure(MustBeObjectOrFunctionExpression)
    ensures TransformIntoStyleSheetObject(Lit(NullLiteral), ctx, functionPath) == Failure(MustBeObjectOrFunctionExpression)
    ensures TransformIntoStyleSheetObject(ArrowFunctionExpr, ctx, functionPath) == Success([("foo", [])])
    ensures TransformIntoStyleSheetObject(ObjectExpr([Prop("foo", ObjectExpr([]))]), ctx, functionPath)
      == Success([("foo", [])])
  {
    OneStyle(Identifier("foo"), "foo", [], ctx, []);
  }
}
