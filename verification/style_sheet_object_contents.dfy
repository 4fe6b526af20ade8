/** What the style-sheet extractor stores: `result[name] = value` keeps a
    name at the position of its first assignment and leaves it holding the
    value of its last one, both inside a property map and among the styles
    of the sheet, where a repeated style name replaces the earlier map
    outright. */
module StyleSheetObjectContents {
  import opened Wrappers
  import opened OrderedMap
  import opened StyleSheetObject

  /** The keys of `m`, in order. */
  function Keys<V>(m: OMap<V>): (r: seq<string>)
    ensures |r| == |m|
    ensures forall i :: 0 <= i < |m| ==> r[i] == m[i].0
  {
    seq(|m|, i requires 0 <= i < |m| => m[i].0)
  }

  lemma KeysKeySet<V>(m: OMap<V>, key: string)
    ensures key in Keys(m) <==> key in KeySet(m)
  {
    if key in KeySet(m) {
      var i :| 0 <= i < |m| && m[i].0 == key;
      assert Keys(m)[i] == key;
    }
  }

  /** The index of the last property of `ps`, from `i` on, whose key names
      `name`. */
  function LastNaming(ps: seq<Property>, i: nat, name: string): (r: Option<nat>)
    requires i <= |ps|
    ensures r.Some? ==> i <= r.value < |ps| && KeyToName(ps[r.value].key) == Success(name)
    ensures r.Some? ==> forall j :: r.value < j < |ps| ==> KeyToName(ps[j].key) != Success(name)
    ensures r.None? ==> forall j :: i <= j < |ps| ==> KeyToName(ps[j].key) != Success(name)
    decreases |ps| - i
  {
    if i == |ps| then None
    else match LastNaming(ps, i + 1, name)
      case Some(k) => Some(k)
      case None => if KeyToName(ps[i].key) == Success(name) then Some(i) else None
  }

  /** The names `ps[i..]` assigns that are not in `seen`, each once, in the
      order of their first assignment. */
  function NewNames(ps: seq<Property>, i: nat, seen: seq<string>): (r: seq<string>)
    requires i <= |ps|
    ensures forall j :: 0 <= j < |r| ==> r[j] !in seen
    decreases |ps| - i
  {
    if i == |ps| then []
    else match KeyToName(ps[i].key)
      case Success(n) =>
        if n in seen then NewNames(ps, i + 1, seen) else [n] + NewNames(ps, i + 1, seen + [n])
      case Failure(_) => NewNames(ps, i + 1, seen)
  }

  /** `m[key] = value` leaves the key order alone when the key is present
      and appends the key otherwise. */
  lemma {:induction false} AssignKeys<V>(m: OMap<V>, key: string, value: V)
    ensures Keys(Assign(m, key, value)) == if key in Keys(m) then Keys(m) else Keys(m) + [key]
  {
    var r := Assign(m, key, value);
    KeysKeySet(m, key);
    if key in KeySet(m) {
      forall i | 0 <= i < |m|
        ensures r[i].0 == m[i].0
      {
        if m[i].0 != key {
          assert r[i] == m[i];
        } else {
          assert r[i] == (key, value) || r[i] == m[i];
        }
      }
    } else {
      assert r == m + [(key, value)];
    }
  }

  /** The step of a new name in NewNames. */
  lemma {:induction false} NewNamesStep(ps: seq<Property>, i: nat, seen: seq<string>, n: string)
    requires i < |ps| && KeyToName(ps[i].key) == Success(n)
    ensures n in seen ==> NewNames(ps, i, seen) == NewNames(ps, i + 1, seen)
    ensures n !in seen ==> NewNames(ps, i, seen) == [n] + NewNames(ps, i + 1, seen + [n])
  {
  }

  /** The key order after one assignment, followed by the names still to
      come, is the order before it followed by every name from here on. */
  lemma {:induction false} OrderStep<V>(ps: seq<Property>, i: nat, acc: OMap<V>, n: string, v: V)
    requires i < |ps| && KeyToName(ps[i].key) == Success(n)
    ensures var next := Assign(acc, n, v);
      Keys(next) + NewNames(ps, i + 1, Keys(next)) == Keys(acc) + NewNames(ps, i, Keys(acc))
  {
    var keys := Keys(acc);
    AssignKeys(acc, n, v);
    NewNamesStep(ps, i, keys, n);
    if n !in keys {
      AppendNewName(keys, n, NewNames(ps, i + 1, keys + [n]));
    }
  }

  lemma AppendNewName(keys: seq<string>, n: string, rest: seq<string>)
    ensures (keys + [n]) + rest == keys + ([n] + rest)
  {
  }

  // ---------------------------------------------------------------------
  // Inside a property map

  /** A successful run keeps the keys already collected in their order and
      appends every new name at the position of its first assignment. */
  lemma {:induction false} ProcessPropertiesOrder(obj: Expr, i: nat, acc: OMap<Value>, ctx: Context)
    requires obj.ObjectExpr? && i <= |obj.properties|
    requires ProcessProperties(obj, i, acc, ctx).Success?
    ensures Keys(ProcessProperties(obj, i, acc, ctx).value) == Keys(acc) + NewNames(obj.properties, i, Keys(acc))
    decreases |obj.properties| - i
  {
    var ps := obj.properties;
    if i == |ps| {
      assert Keys(acc) + [] == Keys(acc);
    } else {
      var n := KeyToName(ps[i].key).value;
      var v := ProcessValue(n, ps[i].value, ctx).value;
      var next := Assign(acc, n, v);
      assert ProcessProperties(obj, i, acc, ctx) == ProcessProperties(obj, i + 1, next, ctx);
      ProcessPropertiesOrder(obj, i + 1, next, ctx);
      OrderStep(ps, i, acc, n, v);
    }
  }

  /** After a successful run each name holds the processed value of the last
      property naming it, and a name no property from `i` on assigns reads
      as it did before. */
  lemma {:induction false} ProcessPropertiesValues(obj: Expr, i: nat, acc: OMap<Value>, ctx: Context, name: string)
    requires obj.ObjectExpr? && i <= |obj.properties|
    requires ProcessProperties(obj, i, acc, ctx).Success?
    ensures var r := ProcessProperties(obj, i, acc, ctx).value;
      match LastNaming(obj.properties, i, name)
      case None => Get(r, name) == Get(acc, name)
      case Some(k) => Get(r, name).Some? && ProcessValue(name, obj.properties[k].value, ctx) == Success(Get(r, name).value)
    decreases |obj.properties| - i
  {
    var ps := obj.properties;
    if i < |ps| {
      var n := KeyToName(ps[i].key).value;
      var v := ProcessValue(n, ps[i].value, ctx).value;
      var next := Assign(acc, n, v);
      assert ProcessProperties(obj, i, acc, ctx) == ProcessProperties(obj, i + 1, next, ctx);
      ProcessPropertiesValues(obj, i + 1, next, ctx, name);
      AssignThenGet(acc, n, v, name);
    }
  }

  // ---------------------------------------------------------------------
  // Among the styles of the sheet

  /** A successful run of top-level properties orders the style names by
      their first assignment. */
  lemma {:induction false} ProcessTopLevelPropertiesOrder(expr: Expr, i: nat, acc: StyleSheet, ctx: Context)
    requires expr.ObjectExpr? && i <= |expr.properties|
    requires ProcessTopLevelProperties(expr, i, acc, ctx).Success?
    ensures Keys(ProcessTopLevelProperties(expr, i, acc, ctx).value) == Keys(acc) + NewNames(expr.properties, i, Keys(acc))
    decreases |expr.properties| - i
  {
    var ps := expr.properties;
    if i == |ps| {
      assert Keys(acc) + [] == Keys(acc);
    } else {
      var n := KeyToName(ps[i].key).value;
      var entries := ProcessProperties(ps[i].value, 0, [], ctx).value;
      var next := Assign(acc, n, entries);
      assert ProcessTopLevelProperties(expr, i, acc, ctx) == ProcessTopLevelProperties(expr, i + 1, next, ctx);
      ProcessTopLevelPropertiesOrder(expr, i + 1, next, ctx);
      OrderStep(ps, i, acc, n, entries);
    }
  }

  /** After a successful run each style name holds the property map of the
      last top-level property naming it alone: an earlier style of the same
      name is replaced, not merged. */
  lemma {:induction false} ProcessTopLevelPropertiesValues(expr: Expr, i: nat, acc: StyleSheet, ctx: Context, name: string)
    requires expr.ObjectExpr? && i <= |expr.properties|
    requires ProcessTopLevelProperties(expr, i, acc, ctx).Success?
    ensures var r := ProcessTopLevelProperties(expr, i, acc, ctx).value;
      match LastNaming(expr.properties, i, name)
      case None => Get(r, name) == Get(acc, name)
      case Some(k) =>
        && Get(r, name).Some?
        && expr.properties[k].value.ObjectExpr?
        && ProcessProperties(expr.properties[k].value, 0, [], ctx) == Success(Get(r, name).value)
    decreases |expr.properties| - i
  {
    var ps := expr.properties;
    if i < |ps| {
      var n := KeyToName(ps[i].key).value;
      var entries := ProcessProperties(ps[i].value, 0, [], ctx).value;
      var next := Assign(acc, n, entries);
      assert ProcessTopLevelProperties(expr, i, acc, ctx) == ProcessTopLevelProperties(expr, i + 1, next, ctx);
      ProcessTopLevelPropertiesValues(expr, i + 1, next, ctx, name);
      AssignThenGet(acc, n, entries, name);
    }
  }

  /** A successful extraction lists the style names in the order of their
      first occurrence; each holds the properties of its last occurrence,
      and a name no top-level key gives is absent. */
  lemma TransformContents(expr: Expr, ctx: Context, name: string)
    requires TransformObjectExpression(expr, ctx).Success?
    ensures expr.ObjectExpr?
    ensures Keys(TransformObjectExpression(expr, ctx).value) == NewNames(expr.properties, 0, [])
    ensures var r := TransformObjectExpression(expr, ctx).value;
      match LastNaming(expr.properties, 0, name)
      case None => Get(r, name) == None
      case Some(k) =>
        && Get(r, name).Some?
        && expr.properties[k].value.ObjectExpr?
        && ProcessProperties(expr.properties[k].value, 0, [], ctx) == Success(Get(r, name).value)
  {
    ProcessTopLevelPropertiesOrder(expr, 0, [], ctx);
    ProcessTopLevelPropertiesValues(expr, 0, [], ctx, name);
    assert Keys<OMap<Value>>([]) == [];
  }
}
