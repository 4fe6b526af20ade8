/** Extraction of a plain style-sheet object from the object expression
    written in the source file (src/transformObjectExpressionIntoStyleSheetObject.js,
    and its identical copy in src/transformIntoStyleSheetObject.js).

    The expression is a small syntax tree. Leaves the extractor can evaluate
    (literals, identifiers the context owns, member and binary expressions
    built from them) are handed to an evaluation oracle; nested object
    expressions become nested maps; a prefix `-` on a literal is negated;
    everything else is rejected. Every check of the source is an error of the
    result. */
module StyleSheetObject {
  import opened Wrappers
  import opened OrderedMap

  datatype Literal =
    | StringLiteral(value: string)
    | NumericLiteral(n: int)
    | BooleanLiteral(b: bool)
    | NullLiteral
    | OtherLiteral  // regular-expression and template literals

  datatype Expr =
    | Lit(literal: Literal)
    | Identifier(name: string)
    | Member(target: Expr, property: Expr)
    | Binary(operator: string, left: Expr, right: Expr)
    | Unary(operator: string, prefix: bool, argument: Expr)
    | ObjectExpr(properties: seq<Property>)
    | FunctionExpr
    | ArrowFunctionExpr
    | OtherExpr  // arrays, calls, logical expressions, ...

  /** An object-expression member. A spread element or a method is a
      `Property` whose key or value is `OtherExpr`. */
  datatype Property = Property(key: Expr, value: Expr)

  /** The outcomes of evaluating an expression: a string, a number, any
      other value (null, a boolean, undefined, an object, a function), or an
      exception thrown by the evaluated code (`a.b.c` where `a.b` is
      undefined, a template literal reading a missing name). */
  datatype JsValue = JsString(s: string) | JsNumber(n: int) | JsOther | JsThrows

  /** A value of the extracted object. `NegatedLiteral(l)` is the number
      `-l.value` for a literal that is not numeric (JavaScript coerces it). */
  datatype Value =
    | Text(s: string)
    | Number(n: int)
    | NegatedLiteral(literal: Literal)
    | Nested(entries: OMap<Value>)

  /** The extracted object: style name -> property map. */
  type StyleSheet = OMap<OMap<Value>>

  datatype Error =
    | MustBeObjectExpression
    | TopLevelValueMustBeObjectExpression
    | KeyMustBeStringOrIdentifier
    | ValueMustBeStringOrNumber
    | StringValueCannotBeBlank
    | InvalidUnaryArgumentType
    | InvalidValueExpressionType
    | MustBeObjectOrFunctionExpression
    | EvaluationThrew  // the exception raised by the evaluated code, propagated

  /** The evaluation context: the names the caller's context object owns and
      the evaluator that runs an expression in it. */
  datatype Context = Context(names: set<string>, evaluate: Expr -> JsValue)

  /** `context.hasOwnProperty(name)`. The extractor installs its own
      `evaluate` function on the context, so that name is always owned. */
  predicate Owns(ctx: Context, name: string) {
    name in ctx.names || name == "evaluate"
  }

  /** The characters the `\s` class of a JavaScript regular expression matches. */
  predicate IsJsWhitespace(c: char) {
    || c == ' ' || c == '\t' || c == '\n' || c == '\U{000B}' || c == '\U{000C}' || c == '\r'
    || c == '\U{00A0}' || c == '\U{1680}' || ('\U{2000}' <= c <= '\U{200A}')
    || c == '\U{2028}' || c == '\U{2029}' || c == '\U{202F}' || c == '\U{205F}'
    || c == '\U{3000}' || c == '\U{FEFF}'
  }

  /** `/^\s*$/.test(s)`. */
  predicate IsBlank(s: string) {
    forall i :: 0 <= i < |s| ==> IsJsWhitespace(s[i])
  }

  /** keyToName: an identifier's name or a string literal's value. */
  function KeyToName(key: Expr): (r: Result<string, Error>)
    ensures r.Success? <==> key.Identifier? || (key.Lit? && key.literal.StringLiteral?)
    ensures key.Identifier? ==> r == Success(key.name)
    ensures key.Lit? && key.literal.StringLiteral? ==> r == Success(key.literal.value)
    ensures r.Failure? ==> r.error == KeyMustBeStringOrIdentifier
  {
    match key
    case Identifier(name) => Success(name)
    case Lit(StringLiteral(value)) => Success(value)
    case _ => Failure(KeyMustBeStringOrIdentifier)
  }

  /** canEvaluate. */
  predicate CanEvaluate(e: Expr, ctx: Context) {
    match e
    case Lit(_) => true
    case Identifier(name) => Owns(ctx, name)
    case Member(target, property) => property.Identifier? && CanEvaluate(target, ctx)
    case Binary(_, left, right) => CanEvaluate(left, ctx) && CanEvaluate(right, ctx)
    case _ => false
  }

  /** `-literal.value`. */
  function Negate(literal: Literal): (v: Value)
    ensures literal.NumericLiteral? ==> v == Number(-literal.n)
    ensures v.Number? || v.NegatedLiteral?
  {
    match literal
    case NumericLiteral(n) => Number(-n)
    case _ => NegatedLiteral(literal)
  }

  /** The checks on an evaluated value: a string or a number, and a string
      is not blank unless the property is `content`. An exception of the
      evaluation itself propagates before any check. */
  function CheckEvaluated(name: string, v: JsValue): (r: Result<Value, Error>)
    ensures r.Success? ==> r.value.Text? || r.value.Number?
    ensures r.Success? && r.value.Text? ==> name == "content" || !IsBlank(r.value.s)
    ensures v.JsOther? ==> r == Failure(ValueMustBeStringOrNumber)
    ensures v.JsThrows? ==> r == Failure(EvaluationThrew)
    ensures v.JsNumber? ==> r == Success(Number(v.n))
    ensures v.JsString? && name != "content" && IsBlank(v.s) ==> r == Failure(StringValueCannotBeBlank)
    ensures v.JsString? && (name == "content" || !IsBlank(v.s)) ==> r == Success(Text(v.s))
  {
    match v
    case JsString(s) => if name != "content" && IsBlank(s) then Failure(StringValueCannotBeBlank) else Success(Text(s))
    case JsNumber(n) => Success(Number(n))
    case JsOther => Failure(ValueMustBeStringOrNumber)
    case JsThrows => Failure(EvaluationThrew)
  }

  /** processProperty's treatment of the value of the property `name`. */
  function ProcessValue(name: string, value: Expr, ctx: Context): Result<Value, Error>
    decreases value, 1
  {
    if CanEvaluate(value, ctx) then CheckEvaluated(name, ctx.evaluate(value))
    else if value.ObjectExpr? then
      match ProcessProperties(value, 0, [], ctx)
      case Success(entries) => Success(Nested(entries))
      case Failure(e) => Failure(e)
    else if value.Unary? && value.prefix && value.operator == "-" then
      if value.argument.Lit? then Success(Negate(value.argument.literal))
      else Failure(InvalidUnaryArgumentType)
    else Failure(InvalidValueExpressionType)
  }

  /** processProperty: `result[keyToName(key)] = <value>`. */
  function ProcessProperty(property: Property, result: OMap<Value>, ctx: Context): Result<OMap<Value>, Error>
    decreases property
  {
    var name :- KeyToName(property.key);
    var v :- ProcessValue(name, property.value, ctx);
    Success(Assign(result, name, v))
  }

  /** processProperties over the members of `obj` from index `i`, stopping at
      the first error. */
  function ProcessProperties(obj: Expr, i: nat, result: OMap<Value>, ctx: Context): Result<OMap<Value>, Error>
    requires obj.ObjectExpr? && i <= |obj.properties|
    decreases obj, 0, |obj.properties| - i
  {
    if i == |obj.properties| then Success(result)
    else
      var result' :- ProcessProperty(obj.properties[i], result, ctx);
      ProcessProperties(obj, i + 1, result', ctx)
  }

  /** processTopLevelProperty: the value must itself be an object expression,
      and becomes a fresh property map. */
  function ProcessTopLevelProperty(property: Property, result: StyleSheet, ctx: Context): Result<StyleSheet, Error> {
    var name :- KeyToName(property.key);
    if !property.value.ObjectExpr? then Failure(TopLevelValueMustBeObjectExpression)
    else
      var entries :- ProcessProperties(property.value, 0, [], ctx);
      Success(Assign(result, name, entries))
  }

  function ProcessTopLevelProperties(expr: Expr, i: nat, result: StyleSheet, ctx: Context): Result<StyleSheet, Error>
    requires expr.ObjectExpr? && i <= |expr.properties|
    decreases |expr.properties| - i
  {
    if i == |expr.properties| then Success(result)
    else
      var result' :- ProcessTopLevelProperty(expr.properties[i], result, ctx);
      ProcessTopLevelProperties(expr, i + 1, result', ctx)
  }

  /** transformObjectExpressionIntoStyleSheetObject(expr, context). */
  function TransformObjectExpression(expr: Expr, ctx: Context): Result<StyleSheet, Error> {
    if !expr.ObjectExpr? then Failure(MustBeObjectExpression)
    else ProcessTopLevelProperties(expr, 0, [], ctx)
  }

  /** transformIntoStyleSheetObject(expr, context, code) dispatches on the
      kind of expression. Functions and arrow functions are handed to
      `functionPath`, the path for function expressions, whose evaluation of
      the source text is not part of this model; an object expression
      takes the object path; anything else is rejected. */
  function TransformIntoStyleSheetObject(expr: Expr, ctx: Context, functionPath: Expr -> Result<StyleSheet, Error>): (r: Result<StyleSheet, Error>)
    ensures expr.FunctionExpr? || expr.ArrowFunctionExpr? ==> r == functionPath(expr)
  {
    if expr.FunctionExpr? || expr.ArrowFunctionExpr? then functionPath(expr)
    else if expr.ObjectExpr? then TransformObjectExpression(expr, ctx)
    else Failure(MustBeObjectOrFunctionExpression)
  }
}
