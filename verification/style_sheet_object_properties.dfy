/** What the style-sheet extractor guarantees: which expressions it can
    evaluate, exactly which inputs it accepts, and the shape of what it
    returns. */
module StyleSheetObjectProperties {
  import opened Wrappers
  import opened OrderedMap
  import opened StyleSheetObject

  // ---------------------------------------------------------------------
  // Evaluable expressions

  /** Built only from literals, identifiers, binary operators and member
      accesses by name (`a.b`, not `a[0]`). */
  predicate PureShape(e: Expr) {
    match e
    case Lit(_) => true
    case Identifier(_) => true
    case Member(target, property) => property.Identifier? && PureShape(target)
    case Binary(_, left, right) => PureShape(left) && PureShape(right)
    case _ => false
  }

  /** The identifiers an expression reads from the context: every identifier
      except the names after a `.`. */
  function Roots(e: Expr): set<string> {
    match e
    case Identifier(name) => {name}
    case Member(target, _) => Roots(target)
    case Binary(_, left, right) => Roots(left) + Roots(right)
    case _ => {}
  }

  /** The names the evaluation context owns. */
  function OwnedNames(ctx: Context): set<string> {
    ctx.names + {"evaluate"}
  }

  /** An expression can be evaluated exactly when it has a pure shape and
      reads only names the context owns. */
  lemma {:induction false} CanEvaluateIff(e: Expr, ctx: Context)
    ensures CanEvaluate(e, ctx) <==> PureShape(e) && Roots(e) <= OwnedNames(ctx)
  {
    match e
    case Lit(_) =>
    case Identifier(name) =>
    case Member(target, property) => CanEvaluateIff(target, ctx);
    case Binary(_, left, right) => CanEvaluateIff(left, ctx); CanEvaluateIff(right, ctx);
    case _ =>
  }

  /** A context that owns more names can evaluate at least as much, whatever
      its evaluator. */
  lemma CanEvaluateMonotone(e: Expr, ctx1: Context, ctx2: Context)
    requires ctx1.names <= ctx2.names
    requires CanEvaluate(e, ctx1)
    ensures CanEvaluate(e, ctx2)
  {
    CanEvaluateIff(e, ctx1);
    CanEvaluateIff(e, ctx2);
  }

  /** Without any context, exactly the literal-only pure expressions (and
      those reading `evaluate`) can be evaluated. */
  lemma EmptyContextEvaluates(e: Expr, f: Expr -> JsValue)
    ensures CanEvaluate(e, Context({}, f)) <==> PureShape(e) && Roots(e) <= {"evaluate"}
  {
    CanEvaluateIff(e, Context({}, f));
    assert OwnedNames(Context({}, f)) == {"evaluate"};
  }

  // ---------------------------------------------------------------------
  // Exactly which inputs are accepted

  /** An evaluated value passes the checks for the property `name`. */
  predicate AcceptableValue(name: string, v: JsValue) {
    v.JsNumber? || (v.JsString? && (name == "content" || !IsBlank(v.s)))
  }

  /** The value expression of property `name` is accepted: an evaluable
      expression with an acceptable value, an object expression whose every
      property is accepted, or `-` applied to a literal. */
  predicate Accepted(name: string, e: Expr, ctx: Context)
    decreases e
  {
    if CanEvaluate(e, ctx) then AcceptableValue(name, ctx.evaluate(e))
    else match e
      case ObjectExpr(ps) => forall j :: 0 <= j < |ps| ==> PropertyAccepted(ps[j], ctx)
      case Unary(op, prefix, argument) => op == "-" && prefix && argument.Lit?
      case _ => false
  }

  /** A property is accepted: its key names it and its value is accepted. */
  predicate PropertyAccepted(p: Property, ctx: Context)
    decreases p
  {
    KeyToName(p.key).Success? && Accepted(KeyToName(p.key).value, p.value, ctx)
  }

  /** A top-level property is accepted: its key names it and its value is an
      object expression whose every property is accepted. */
  predicate TopLevelAccepted(p: Property, ctx: Context) {
    && KeyToName(p.key).Success?
    && p.value.ObjectExpr?
    && forall j :: 0 <= j < |p.value.properties| ==> PropertyAccepted(p.value.properties[j], ctx)
  }

  /** Processing a value succeeds exactly for accepted values. */
  lemma {:induction false} ProcessValueSucceeds(name: string, e: Expr, ctx: Context)
    ensures ProcessValue(name, e, ctx).Success? <==> Accepted(name, e, ctx)
    decreases e, 1
  {
    if !CanEvaluate(e, ctx) && e.ObjectExpr? {
      ProcessPropertiesSucceeds(e, 0, [], ctx);
    }
  }

  /** Processing the properties from index `i` succeeds exactly when each of
      them is accepted, whatever has been collected so far. */
  lemma {:induction false} ProcessPropertiesSucceeds(obj: Expr, i: nat, acc: OMap<Value>, ctx: Context)
    requires obj.ObjectExpr? && i <= |obj.properties|
    ensures ProcessProperties(obj, i, acc, ctx).Success?
      <==> forall j :: i <= j < |obj.properties| ==> PropertyAccepted(obj.properties[j], ctx)
    decreases obj, 0, |obj.properties| - i
  {
    var ps := obj.properties;
    if i < |ps| {
      ProcessPropertySucceeds(ps[i], acc, ctx);
      var step := ProcessProperty(ps[i], acc, ctx);
      if step.Success? {
        ProcessPropertiesSucceeds(obj, i + 1, step.value, ctx);
      }
      assert (forall j :: i <= j < |ps| ==> PropertyAccepted(ps[j], ctx))
        <==> PropertyAccepted(ps[i], ctx) && (forall j :: i + 1 <= j < |ps| ==> PropertyAccepted(ps[j], ctx));
    }
  }

  /** Processing one property succeeds exactly when it is accepted. */
  lemma {:induction false} ProcessPropertySucceeds(p: Property, acc: OMap<Value>, ctx: Context)
    ensures ProcessProperty(p, acc, ctx).Success? <==> PropertyAccepted(p, ctx)
    decreases p
  {
    var name := KeyToName(p.key);
    if name.Success? {
      ProcessValueSucceeds(name.value, p.value, ctx);
    }
  }

  lemma {:induction false} ProcessTopLevelPropertiesSucceeds(expr: Expr, i: nat, acc: StyleSheet, ctx: Context)
    requires expr.ObjectExpr? && i <= |expr.properties|
    ensures ProcessTopLevelProperties(expr, i, acc, ctx).Success?
      <==> forall j :: i <= j < |expr.properties| ==> TopLevelAccepted(expr.properties[j], ctx)
    decreases |expr.properties| - i
  {
    var ps := expr.properties;
    if i < |ps| {
      TopLevelPropertySucceeds(ps[i], acc, ctx);
      var step := ProcessTopLevelProperty(ps[i], acc, ctx);
      if step.Success? {
        ProcessTopLevelPropertiesSucceeds(expr, i + 1, step.value, ctx);
      }
      assert (forall j :: i <= j < |ps| ==> TopLevelAccepted(ps[j], ctx))
        <==> TopLevelAccepted(ps[i], ctx) && (forall j :: i + 1 <= j < |ps| ==> TopLevelAccepted(ps[j], ctx));
    }
  }

  /** Processing one top-level property succeeds exactly when it is accepted. */
  lemma TopLevelPropertySucceeds(p: Property, acc: StyleSheet, ctx: Context)
    ensures ProcessTopLevelProperty(p, acc, ctx).Success? <==> TopLevelAccepted(p, ctx)
  {
    if p.value.ObjectExpr? {
      ProcessPropertiesSucceeds(p.value, 0, [], ctx);
    }
  }

  /** The extractor succeeds exactly on object expressions whose every
      top-level property is accepted. */
  lemma TransformSucceeds(expr: Expr, ctx: Context)
    ensures TransformObjectExpression(expr, ctx).Success?
      <==> expr.ObjectExpr? && forall j :: 0 <= j < |expr.properties| ==> TopLevelAccepted(expr.properties[j], ctx)
  {
    if expr.ObjectExpr? {
      ProcessTopLevelPropertiesSucceeds(expr, 0, [], ctx);
    }
  }

  // ---------------------------------------------------------------------
  // The shape of the result

  /** A value of the extracted object satisfies the checks: no blank string
      except under `content`, and nested maps with one entry per key whose
      values satisfy the checks in turn. */
  ghost predicate WellFormedValue(name: string, v: Value)
    decreases v
  {
    match v
    case Text(s) => name == "content" || !IsBlank(s)
    case Number(_) => true
    case NegatedLiteral(_) => true
    case Nested(entries) =>
      && UniqueKeys(entries)
      && forall j :: 0 <= j < |entries| ==> WellFormedValue(entries[j].0, entries[j].1)
  }

  ghost predicate WellFormedEntries(m: OMap<Value>) {
    && UniqueKeys(m)
    && forall j :: 0 <= j < |m| ==> WellFormedValue(m[j].0, m[j].1)
  }

  lemma AssignWellFormed(m: OMap<Value>, key: string, v: Value)
    requires WellFormedEntries(m) && WellFormedValue(key, v)
    ensures WellFormedEntries(Assign(m, key, v))
  {
    var r := Assign(m, key, v);
    forall j | 0 <= j < |r|
      ensures WellFormedValue(r[j].0, r[j].1)
    {
      assert r[j] == (key, v) || (j < |m| && r[j] == m[j]);
    }
  }

  lemma {:induction false} ProcessValueWellFormed(name: string, e: Expr, ctx: Context)
    requires ProcessValue(name, e, ctx).Success?
    ensures WellFormedValue(name, ProcessValue(name, e, ctx).value)
    decreases e, 1
  {
    if !CanEvaluate(e, ctx) && e.ObjectExpr? {
      ProcessPropertiesWellFormed(e, 0, [], ctx);
    }
  }

  lemma {:induction false} ProcessPropertiesWellFormed(obj: Expr, i: nat, acc: OMap<Value>, ctx: Context)
    requires obj.ObjectExpr? && i <= |obj.properties|
    requires WellFormedEntries(acc)
    requires ProcessProperties(obj, i, acc, ctx).Success?
    ensures WellFormedEntries(ProcessProperties(obj, i, acc, ctx).value)
    decreases obj, 0, |obj.properties| - i
  {
    if i < |obj.properties| {
      var p := obj.properties[i];
      var name := KeyToName(p.key).value;
      ProcessValueWellFormed(name, p.value, ctx);
      AssignWellFormed(acc, name, ProcessValue(name, p.value, ctx).value);
      ProcessPropertiesWellFormed(obj, i + 1, ProcessProperty(p, acc, ctx).value, ctx);
    }
  }

  /** The names a run of properties assigns, for those whose key is valid. */
  function AssignedNames(ps: seq<Property>): set<string> {
    set j | 0 <= j < |ps| && KeyToName(ps[j].key).Success? :: KeyToName(ps[j].key).value
  }

  /** After a successful run the map holds exactly the keys it held before
      and the names of the processed properties, each once. */
  lemma {:induction false} ProcessPropertiesKeys(obj: Expr, i: nat, acc: OMap<Value>, ctx: Context)
    requires obj.ObjectExpr? && i <= |obj.properties|
    requires UniqueKeys(acc)
    requires ProcessProperties(obj, i, acc, ctx).Success?
    ensures UniqueKeys(ProcessProperties(obj, i, acc, ctx).value)
    ensures KeySet(ProcessProperties(obj, i, acc, ctx).value) == KeySet(acc) + AssignedNames(obj.properties[i..])
    decreases |obj.properties| - i
  {
    var ps := obj.properties;
    if i == |ps| {
      assert AssignedNames(ps[i..]) == {};
    } else {
      var next := ProcessProperty(ps[i], acc, ctx).value;
      ProcessPropertyKeys(ps[i], acc, ctx);
      ProcessPropertiesKeys(obj, i + 1, next, ctx);
      AssignedNamesCons(ps, i);
    }
  }

  /** One successful property adds its name to the map's keys. */
  lemma ProcessPropertyKeys(p: Property, acc: OMap<Value>, ctx: Context)
    requires UniqueKeys(acc)
    requires ProcessProperty(p, acc, ctx).Success?
    ensures KeyToName(p.key).Success?
    ensures UniqueKeys(ProcessProperty(p, acc, ctx).value)
    ensures KeySet(ProcessProperty(p, acc, ctx).value) == KeySet(acc) + {KeyToName(p.key).value}
  {
  }

  lemma AssignedNamesCons(ps: seq<Property>, i: nat)
    requires i < |ps| && KeyToName(ps[i].key).Success?
    ensures AssignedNames(ps[i..]) == {KeyToName(ps[i].key).value} + AssignedNames(ps[i + 1..])
  {
    assert ps[i..] == [ps[i]] + ps[i + 1..];
  }

  lemma {:induction false} ProcessTopLevelPropertiesWellFormed(expr: Expr, i: nat, acc: StyleSheet, ctx: Context)
    requires expr.ObjectExpr? && i <= |expr.properties|
    requires UniqueKeys(acc) && forall j :: 0 <= j < |acc| ==> WellFormedEntries(acc[j].1)
    requires ProcessTopLevelProperties(expr, i, acc, ctx).Success?
    ensures UniqueKeys(ProcessTopLevelProperties(expr, i, acc, ctx).value)
    ensures forall j :: 0 <= j < |ProcessTopLevelProperties(expr, i, acc, ctx).value| ==>
      WellFormedEntries(ProcessTopLevelProperties(expr, i, acc, ctx).value[j].1)
    decreases |expr.properties| - i
  {
    if i < |expr.properties| {
      var p := expr.properties[i];
      var name := KeyToName(p.key).value;
      var entries := ProcessProperties(p.value, 0, [], ctx).value;
      ProcessPropertiesWellFormed(p.value, 0, [], ctx);
      var next := Assign(acc, name, entries);
      forall j | 0 <= j < |next|
        ensures WellFormedEntries(next[j].1)
      {
        assert next[j] == (name, entries) || (j < |acc| && next[j] == acc[j]);
      }
      ProcessTopLevelPropertiesWellFormed(expr, i + 1, next, ctx);
    }
  }

  /** A successful extraction yields one entry per style name, each a map
      with one entry per property name, with no blank string value except
      under `content`. */
  lemma TransformWellFormed(expr: Expr, ctx: Context)
    requires TransformObjectExpression(expr, ctx).Success?
    ensures UniqueKeys(TransformObjectExpression(expr, ctx).value)
    ensures forall j :: 0 <= j < |TransformObjectExpression(expr, ctx).value| ==>
      WellFormedEntries(TransformObjectExpression(expr, ctx).value[j].1)
  {
    ProcessTopLevelPropertiesWellFormed(expr, 0, [], ctx);
  }

  // ---------------------------------------------------------------------
  // The two entry points

  /** On anything but a function expression the dispatcher behaves as the
      object path, except that its rejection of a non-object names both
      accepted kinds. */
  lemma DispatcherAgreesWithObjectPath(expr: Expr, ctx: Context, functionPath: Expr -> Result<StyleSheet, Error>)
    requires !expr.FunctionExpr? && !expr.ArrowFunctionExpr?
    ensures TransformObjectExpression(expr, ctx) == Failure(MustBeObjectExpression)
      ==> TransformIntoStyleSheetObject(expr, ctx, functionPath) == Failure(MustBeObjectOrFunctionExpression)
    ensures TransformObjectExpression(expr, ctx) != Failure(MustBeObjectExpression)
      ==> TransformIntoStyleSheetObject(expr, ctx, functionPath) == TransformObjectExpression(expr, ctx)
  {
    if expr.ObjectExpr? {
      NeverMustBeObject(expr, 0, [], ctx);
    }
  }

  /** Once past the first check the object path never reports a non-object. */
  lemma {:induction false} NeverMustBeObject(expr: Expr, i: nat, acc: StyleSheet, ctx: Context)
    requires expr.ObjectExpr? && i <= |expr.properties|
    ensures ProcessTopLevelProperties(expr, i, acc, ctx) != Failure(MustBeObjectExpression)
    decreases |expr.properties| - i
  {
    if i < |expr.properties| {
      var step := ProcessTopLevelProperty(expr.properties[i], acc, ctx);
      if step.Success? {
        NeverMustBeObject(expr, i + 1, step.value, ctx);
      } else if expr.properties[i].value.ObjectExpr? && KeyToName(expr.properties[i].key).Success? {
        NeverMustBeObjectInside(expr.properties[i].value, 0, [], ctx);
      }
    }
  }

  lemma {:induction false} NeverMustBeObjectInside(obj: Expr, i: nat, acc: OMap<Value>, ctx: Context)
    requires obj.ObjectExpr? && i <= |obj.properties|
    ensures ProcessProperties(obj, i, acc, ctx) != Failure(MustBeObjectExpression)
    ensures ProcessProperties(obj, i, acc, ctx) != Failure(TopLevelValueMustBeObjectExpression)
    ensures ProcessProperties(obj, i, acc, ctx) != Failure(MustBeObjectOrFunctionExpression)
    decreases obj, 0, |obj.properties| - i
  {
    if i < |obj.properties| {
      var p := obj.properties[i];
      var name := KeyToName(p.key);
      if name.Success? {
        NeverMustBeObjectValue(name.value, p.value, ctx);
        var step := ProcessProperty(p, acc, ctx);
        if step.Success? {
          NeverMustBeObjectInside(obj, i + 1, step.value, ctx);
        }
      }
    }
  }

  lemma {:induction false} NeverMustBeObjectValue(name: string, e: Expr, ctx: Context)
    ensures ProcessValue(name, e, ctx) != Failure(MustBeObjectExpression)
    ensures ProcessValue(name, e, ctx) != Failure(TopLevelValueMustBeObjectExpression)
    ensures ProcessValue(name, e, ctx) != Failure(MustBeObjectOrFunctionExpression)
    decreases e, 1
  {
    if !CanEvaluate(e, ctx) && e.ObjectExpr? {
      NeverMustBeObjectInside(e, 0, [], ctx);
    }
  }
}
