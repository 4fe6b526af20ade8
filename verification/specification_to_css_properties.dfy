/** Properties of the CSS generator: the order of the output, the layout of
    the blocks, which Specifications produce no CSS at all, indentation,
    global and parent-scoped selectors, and the "\n" join of the lines. */
module SpecificationToCssProperties {
  import opened Wrappers
  import opened OrderedMap
  import opened Specification
  import opened SpecificationToCss

  // ---------------------------------------------------------------------
  // Flatten and the order of the output.
  // ---------------------------------------------------------------------

  lemma {:induction false} FlattenAppend<T>(a: seq<seq<T>>, b: seq<seq<T>>)
    ensures Flatten(a + b) == Flatten(a) + Flatten(b)
    decreases |a|
  {
    if |a| == 0 {
      assert a + b == b;
    } else {
      assert (a + b)[1..] == a[1..] + b;
      FlattenAppend(a[1..], b);
    }
  }

  lemma {:induction false} FlattenEmpty<T>(xss: seq<seq<T>>)
    ensures Flatten(xss) == [] <==> forall i :: 0 <= i < |xss| ==> xss[i] == []
    decreases |xss|
  {
    if |xss| > 0 {
      FlattenEmpty(xss[1..]);
      if Flatten(xss[1..]) == [] {
        assert forall i :: 1 <= i < |xss| ==> xss[i] == xss[1..][i - 1];
      }
    }
  }

  /** Styles are emitted in map order: the CSS of two consecutive groups of
      styles is the CSS of the first group followed by that of the second. */
  lemma {:induction false} StylesInMapOrder(a: StyleMap, b: StyleMap, options: CssOptions, c: Collaborators)
    ensures StylesLines(a + b, options, c) == StylesLines(a, options, c) + StylesLines(b, options, c)
    decreases |a|
  {
    if |a| == 0 {
      assert a + b == b;
    } else {
      assert (a + b)[1..] == a[1..] + b;
      assert (a + b)[0] == a[0];
      StylesInMapOrder(a[1..], b, options, c);
    }
  }

  /** Selector fragments are emitted in map order. */
  lemma SelectorsInMapOrder(name: string, a: OMap<SelectorSpec>, b: OMap<SelectorSpec>, level: nat, parent: Option<string>, options: CssOptions, c: Collaborators)
    ensures SelectorLines(name, a + b, level, parent, options, c)
      == SelectorLines(name, a, level, parent, options, c) + SelectorLines(name, b, level, parent, options, c)
  {
    SelectorLinesFlatten(name, a + b, level, parent, options, c);
    SelectorLinesFlatten(name, a, level, parent, options, c);
    SelectorLinesFlatten(name, b, level, parent, options, c);
    var block := (entry: (string, SelectorSpec)) => RuleBlock(name + entry.0, entry.1.rules, level, parent, options, c);
    var xab := SelectorBlocks(name, a + b, level, parent, options, c);
    var xa := SelectorBlocks(name, a, level, parent, options, c);
    var xb := SelectorBlocks(name, b, level, parent, options, c);
    PointwiseAppend(xab, xa, xb, a, b, block);
    FlattenAppend(xa, xb);
  }

  /** The rule block of each selector entry, in map order. */
  function SelectorBlocks(name: string, selectors: OMap<SelectorSpec>, level: nat, parent: Option<string>, options: CssOptions, c: Collaborators): (r: seq<seq<string>>)
    ensures |r| == |selectors|
    ensures forall i :: 0 <= i < |selectors| ==>
      r[i] == RuleBlock(name + selectors[i].0, selectors[i].1.rules, level, parent, options, c)
  {
    seq(|selectors|, i requires 0 <= i < |selectors| =>
      RuleBlock(name + selectors[i].0, selectors[i].1.rules, level, parent, options, c))
  }

  /** The selector output is the selector entries' blocks one after the other. */
  lemma {:induction false} SelectorLinesFlatten(name: string, selectors: OMap<SelectorSpec>, level: nat, parent: Option<string>, options: CssOptions, c: Collaborators)
    ensures SelectorLines(name, selectors, level, parent, options, c) == Flatten(SelectorBlocks(name, selectors, level, parent, options, c))
    decreases |selectors|
  {
    if |selectors| > 0 {
      var xs := SelectorBlocks(name, selectors, level, parent, options, c);
      var tail := SelectorBlocks(name, selectors[1..], level, parent, options, c);
      assert xs[1..] == tail by {
        forall i | 0 <= i < |tail| ensures xs[1..][i] == tail[i] {
          assert selectors[1..][i] == selectors[i + 1];
        }
      }
      SelectorLinesFlatten(name, selectors[1..], level, parent, options, c);
    }
  }

  /** A list computed element by element from `a + b` is the lists computed
      from `a` and from `b`, one after the other. */
  lemma PointwiseAppend<X, Y>(l: seq<Y>, la: seq<Y>, lb: seq<Y>, a: seq<X>, b: seq<X>, f: X -> Y)
    requires |l| == |a| + |b| && |la| == |a| && |lb| == |b|
    requires forall i :: 0 <= i < |a + b| ==> l[i] == f((a + b)[i])
    requires forall i :: 0 <= i < |a| ==> la[i] == f(a[i])
    requires forall i :: 0 <= i < |b| ==> lb[i] == f(b[i])
    ensures l == la + lb
  {
    forall i | 0 <= i < |l|
      ensures l[i] == (la + lb)[i]
    {
      if i < |a| {
        assert (a + b)[i] == a[i];
      } else {
        assert (a + b)[i] == b[i - |a|];
      }
    }
  }

  /** A selector entry is the rule block of `name + fragment` (no space), at
      the same level and under the same parent. */
  lemma OneSelector(name: string, fragment: string, sel: SelectorSpec, level: nat, parent: Option<string>, options: CssOptions, c: Collaborators)
    ensures SelectorLines(name, [(fragment, sel)], level, parent, options, c)
      == RuleBlock(name + fragment, sel.rules, level, parent, options, c)
  {
    assert [(fragment, sel)][1..] == [];
  }

  /** Parents entries are emitted in map order. */
  lemma ParentsInMapOrder(name: string, spec: Spec, a: OMap<Spec>, b: OMap<Spec>, level: nat, options: CssOptions, c: Collaborators)
    requires spec.parents == a + b
    ensures ParentsLines(name, spec, level, options, c)
      == ParentsLines(name, spec.(parents := a), level, options, c) + ParentsLines(name, spec.(parents := b), level, options, c)
  {
    var xa := ParentBlocks(name, spec.(parents := a), level, options, c);
    var xb := ParentBlocks(name, spec.(parents := b), level, options, c);
    var xab := ParentBlocks(name, spec, level, options, c);
    var block := (entry: (string, Spec)) => StyleLines(name, entry.1, level, Some(entry.0), options, c);
    PointwiseAppend(xab, xa, xb, a, b, block);
    FlattenAppend(xa, xb);
  }

  /** A parents entry re-runs the whole style at the same level, with the
      entry's key as the active parent. */
  lemma OneParent(name: string, spec: Spec, key: string, inner: Spec, level: nat, options: CssOptions, c: Collaborators)
    requires spec.parents == [(key, inner)]
    ensures ParentsLines(name, spec, level, options, c) == StyleLines(name, inner, level, Some(key), options, c)
  {
    var xss := ParentBlocks(name, spec, level, options, c);
    assert xss[0] == StyleLines(name, inner, level, Some(key), options, c);
    assert Flatten(xss) == xss[0] + Flatten(xss[1..]);
  }

  // ---------------------------------------------------------------------
  // Which Specifications produce no CSS.
  // ---------------------------------------------------------------------

  /** None of the selectors has a rule. */
  predicate NoSelectorRules(selectors: OMap<SelectorSpec>) {
    forall i :: 0 <= i < |selectors| ==> |selectors[i].1.rules| == 0
  }

  /** A media query with no rule anywhere in it. */
  predicate SilentMediaQuery(content: MediaQuerySpec) {
    |content.rules| == 0 && NoSelectorRules(content.selectors)
  }

  /** A Specification with no rule anywhere in it, parents included. */
  ghost predicate Silent(spec: Spec)
    decreases spec
  {
    && |spec.rules| == 0
    && NoSelectorRules(spec.selectors)
    && (forall i :: 0 <= i < |spec.mediaQueries| ==> SilentMediaQuery(spec.mediaQueries[i].1))
    && (forall i :: 0 <= i < |spec.parents| ==> Silent(spec.parents[i].1))
  }

  lemma {:induction false} SelectorLinesEmpty(name: string, selectors: OMap<SelectorSpec>, level: nat, parent: Option<string>, options: CssOptions, c: Collaborators)
    ensures SelectorLines(name, selectors, level, parent, options, c) == [] <==> NoSelectorRules(selectors)
    decreases |selectors|
  {
    if |selectors| > 0 {
      SelectorLinesEmpty(name, selectors[1..], level, parent, options, c);
      assert NoSelectorRules(selectors) <==> |selectors[0].1.rules| == 0 && NoSelectorRules(selectors[1..]) by {
        assert forall i :: 1 <= i < |selectors| ==> selectors[i] == selectors[1..][i - 1];
      }
    }
  }

  /** A media query block is emitted exactly when its rules or selectors
      produce a line. When it is, it opens with `@<resolved name> {`, closes
      with `}` at the query's level, and every line between sits at least one
      level deeper. */
  lemma MediaQueryElision(name: string, query: string, content: MediaQuerySpec, level: nat, parent: Option<string>, options: CssOptions, c: Collaborators)
    ensures var r := MediaQueryLines(name, query, content, level, parent, options, c);
      && (r == [] <==> SilentMediaQuery(content))
      && (r != [] ==>
        && |r| >= 4
        && r[0] == Indent(level) + "@" + MediaQueryName(query, options) + " {"
        && r[|r| - 1] == Indent(level) + "}"
        && IndentedAt(r[1..|r| - 1], level + 1))
  {
    SelectorLinesEmpty(name, content.selectors, level + 1, parent, options, c);
    var rb := RuleBlock(name, content.rules, level + 1, parent, options, c);
    var sl := SelectorLines(name, content.selectors, level + 1, parent, options, c);
    RuleBlockIndented(name, content.rules, level + 1, parent, options, c);
    SelectorLinesIndented(name, content.selectors, level + 1, parent, options, c);
    IndentedConcat(rb, sl, level + 1);
    SelectorLinesBlocks(name, content.selectors, level + 1, parent, options, c);
    var open := Indent(level) + "@" + MediaQueryName(query, options) + " {";
    var close := Indent(level) + "}";
    assert MediaQueryLines(name, query, content, level, parent, options, c)
      == if |rb + sl| == 0 then [] else [open] + (rb + sl) + [close];
    if |rb + sl| > 0 {
      Wrapped(open, rb + sl, close);
    }
  }

  lemma Wrapped<T>(open: T, body: seq<T>, close: T)
    ensures var r := [open] + body + [close];
      |r| == |body| + 2 && r[0] == open && r[|r| - 1] == close && r[1..|r| - 1] == body
  {
    var r := [open] + body + [close];
    assert r[1..|r| - 1] == body;
  }

  /** A non-empty selector list output has at least one whole block. */
  lemma {:induction false} SelectorLinesBlocks(name: string, selectors: OMap<SelectorSpec>, level: nat, parent: Option<string>, options: CssOptions, c: Collaborators)
    ensures var r := SelectorLines(name, selectors, level, parent, options, c); r == [] || |r| >= 3
    decreases |selectors|
  {
    if |selectors| > 0 {
      SelectorLinesBlocks(name, selectors[1..], level, parent, options, c);
    }
  }

  lemma {:induction false} MediaQueriesLinesEmpty(name: string, queries: OMap<MediaQuerySpec>, level: nat, parent: Option<string>, options: CssOptions, c: Collaborators)
    ensures MediaQueriesLines(name, queries, level, parent, options, c) == []
      <==> forall i :: 0 <= i < |queries| ==> SilentMediaQuery(queries[i].1)
    decreases |queries|
  {
    if |queries| > 0 {
      MediaQueryElision(name, queries[0].0, queries[0].1, level, parent, options, c);
      MediaQueriesLinesEmpty(name, queries[1..], level, parent, options, c);
      assert forall i :: 1 <= i < |queries| ==> queries[i] == queries[1..][i - 1];
    }
  }

  /** A style produces no line at all exactly when it holds no rule anywhere:
      missing or empty rules, selectors, media queries and parents contribute
      nothing, and media blocks with nothing inside are left out. */
  lemma {:induction false} StyleLinesEmpty(name: string, spec: Spec, level: nat, parent: Option<string>, options: CssOptions, c: Collaborators)
    ensures StyleLines(name, spec, level, parent, options, c) == [] <==> Silent(spec)
    decreases spec
  {
    SelectorLinesEmpty(name, spec.selectors, level, parent, options, c);
    MediaQueriesLinesEmpty(name, spec.mediaQueries, level, parent, options, c);
    var ps := spec.parents;
    var xss := ParentBlocks(name, spec, level, options, c);
    FlattenEmpty(xss);
    forall i | 0 <= i < |ps| ensures xss[i] == [] <==> Silent(ps[i].1) {
      StyleLinesEmpty(name, ps[i].1, level, Some(ps[i].0), options, c);
    }
  }

  lemma EmptySpecEmitsNothing(name: string, level: nat, parent: Option<string>, options: CssOptions, c: Collaborators)
    ensures StyleLines(name, EmptySpec, level, parent, options, c) == []
  {
    StyleLinesEmpty(name, EmptySpec, level, parent, options, c);
  }

  // ---------------------------------------------------------------------
  // Indentation.
  // ---------------------------------------------------------------------

  /** Every line starts with the indentation of `level`. */
  predicate IndentedAt(lines: seq<string>, level: nat) {
    forall i :: 0 <= i < |lines| ==> Indent(level) <= lines[i]
  }

  lemma IndentGrows(level: nat)
    ensures Indent(level) <= Indent(level + 1)
  {
  }

  lemma RuleBlockIndented(name: string, rules: Rules, level: nat, parent: Option<string>, options: CssOptions, c: Collaborators)
    ensures IndentedAt(RuleBlock(name, rules, level, parent, options, c), level)
  {
    var r := RuleBlock(name, rules, level, parent, options, c);
    forall i | 0 <= i < |r| ensures Indent(level) <= r[i] {
      if 0 < i < |r| - 1 {
        IndentGrows(level);
        assert r[i] == Indent(level + 1) + c.cssRule(rules[i - 1].0, rules[i - 1].1);
      }
    }
  }

  lemma {:induction false} SelectorLinesIndented(name: string, selectors: OMap<SelectorSpec>, level: nat, parent: Option<string>, options: CssOptions, c: Collaborators)
    ensures IndentedAt(SelectorLines(name, selectors, level, parent, options, c), level)
    decreases |selectors|
  {
    if |selectors| > 0 {
      RuleBlockIndented(name + selectors[0].0, selectors[0].1.rules, level, parent, options, c);
      SelectorLinesIndented(name, selectors[1..], level, parent, options, c);
    }
  }

  lemma {:induction false} MediaQueriesLinesIndented(name: string, queries: OMap<MediaQuerySpec>, level: nat, parent: Option<string>, options: CssOptions, c: Collaborators)
    ensures IndentedAt(MediaQueriesLines(name, queries, level, parent, options, c), level)
    decreases |queries|
  {
    if |queries| > 0 {
      var r := MediaQueryLines(name, queries[0].0, queries[0].1, level, parent, options, c);
      var rest := MediaQueriesLines(name, queries[1..], level, parent, options, c);
      MediaQueryIndented(name, queries[0].0, queries[0].1, level, parent, options, c);
      MediaQueriesLinesIndented(name, queries[1..], level, parent, options, c);
      IndentedConcat(r, rest, level);
    }
  }

  lemma MediaQueryIndented(name: string, query: string, content: MediaQuerySpec, level: nat, parent: Option<string>, options: CssOptions, c: Collaborators)
    ensures IndentedAt(MediaQueryLines(name, query, content, level, parent, options, c), level)
  {
    var r := MediaQueryLines(name, query, content, level, parent, options, c);
    MediaQueryElision(name, query, content, level, parent, options, c);
    if r != [] {
      IndentGrows(level);
      forall i | 0 <= i < |r| ensures Indent(level) <= r[i] {
        if 0 < i < |r| - 1 {
          assert r[i] == r[1..|r| - 1][i - 1];
        }
      }
    }
  }

  lemma {:induction false} FlattenIndented(xss: seq<seq<string>>, level: nat)
    requires forall i :: 0 <= i < |xss| ==> IndentedAt(xss[i], level)
    ensures IndentedAt(Flatten(xss), level)
    decreases |xss|
  {
    if |xss| > 0 {
      FlattenIndented(xss[1..], level);
    }
  }

  /** Every line a style emits at `level` is indented by at least `level`
      steps of two spaces: rule lines and media bodies sit deeper, parents
      re-run at the same level. */
  lemma {:induction false} StyleLinesIndented(name: string, spec: Spec, level: nat, parent: Option<string>, options: CssOptions, c: Collaborators)
    ensures IndentedAt(StyleLines(name, spec, level, parent, options, c), level)
    decreases spec
  {
    var rb := RuleBlock(name, spec.rules, level, parent, options, c);
    var sl := SelectorLines(name, spec.selectors, level, parent, options, c);
    var mq := MediaQueriesLines(name, spec.mediaQueries, level, parent, options, c);
    var pl := ParentsLines(name, spec, level, options, c);
    RuleBlockIndented(name, spec.rules, level, parent, options, c);
    SelectorLinesIndented(name, spec.selectors, level, parent, options, c);
    MediaQueriesLinesIndented(name, spec.mediaQueries, level, parent, options, c);
    var ps := spec.parents;
    var xss := ParentBlocks(name, spec, level, options, c);
    forall i | 0 <= i < |ps| ensures IndentedAt(xss[i], level) {
      StyleLinesIndented(name, ps[i].1, level, Some(ps[i].0), options, c);
    }
    FlattenIndented(xss, level);
    assert pl == Flatten(xss);
    IndentedConcat(rb, sl, level);
    IndentedConcat(rb + sl, mq, level);
    IndentedConcat(rb + sl + mq, pl, level);
    assert StyleLines(name, spec, level, parent, options, c) == rb + sl + mq + pl;
  }

  lemma IndentedConcat(a: seq<string>, b: seq<string>, level: nat)
    requires IndentedAt(a, level) && IndentedAt(b, level)
    ensures IndentedAt(a + b, level)
  {
    assert forall i :: |a| <= i < |a + b| ==> (a + b)[i] == b[i - |a|];
  }

  // ---------------------------------------------------------------------
  // Selectors: global names, parents, composition.
  // ---------------------------------------------------------------------

  /** A `$` name is its own selector minus the `$`; a fragment composed onto
      it is appended with no space. */
  lemma GlobalSelectorText(name: string, fragment: string, parent: Option<string>, options: CssOptions, c: Collaborators)
    requires IsGlobal(name)
    ensures SelectorText(name, parent, options, c) == name[1..]
    ensures SelectorText(name + fragment, parent, options, c) == name[1..] + fragment
  {
    assert (name + fragment)[1..] == name[1..] + fragment;
  }

  /** Under a non-empty parent a class selector is `parent + " " + .class`;
      an empty parent key acts as no parent. */
  lemma ParentScopedSelector(name: string, parent: string, options: CssOptions, c: Collaborators)
    requires !IsGlobal(name)
    ensures parent != "" ==> SelectorText(name, Some(parent), options, c) == parent + " " + SelectorText(name, None, options, c)
    ensures parent == "" ==> SelectorText(name, Some(parent), options, c) == SelectorText(name, None, options, c)
    ensures SelectorText(name, None, options, c) == "." + c.className(name, options)
  {
  }

  /** The output of a global style depends neither on the active parent nor
      on the class-name generator: it never carries a class name or a parent. */
  lemma {:induction false} GlobalStyleIgnoresParentAndClassName(
    name: string, spec: Spec, level: nat, p1: Option<string>, p2: Option<string>, options: CssOptions,
    className1: (string, CssOptions) -> string, className2: (string, CssOptions) -> string, cssRule: (string, RuleValue) -> string)
    requires IsGlobal(name)
    ensures StyleLines(name, spec, level, p1, options, Collaborators(className1, cssRule))
         == StyleLines(name, spec, level, p2, options, Collaborators(className2, cssRule))
    decreases spec
  {
    var c1 := Collaborators(className1, cssRule);
    var c2 := Collaborators(className2, cssRule);
    GlobalRulesIgnoreParent(name, spec.rules, level, p1, p2, options, c1, c2);
    GlobalSelectorsIgnoreParent(name, spec.selectors, level, p1, p2, options, c1, c2);
    GlobalQueriesIgnoreParent(name, spec.mediaQueries, level, p1, p2, options, c1, c2);
    var ps := spec.parents;
    var xs1 := ParentBlocks(name, spec, level, options, c1);
    var xs2 := ParentBlocks(name, spec, level, options, c2);
    forall i | 0 <= i < |ps| ensures xs1[i] == xs2[i] {
      GlobalStyleIgnoresParentAndClassName(name, ps[i].1, level, Some(ps[i].0), Some(ps[i].0), options, className1, className2, cssRule);
    }
    assert xs1 == xs2;
  }

  lemma GlobalRulesIgnoreParent(name: string, rules: Rules, level: nat, p1: Option<string>, p2: Option<string>, options: CssOptions, c1: Collaborators, c2: Collaborators)
    requires IsGlobal(name) && c1.cssRule == c2.cssRule
    ensures RuleBlock(name, rules, level, p1, options, c1) == RuleBlock(name, rules, level, p2, options, c2)
  {
    assert SelectorText(name, p1, options, c1) == SelectorText(name, p2, options, c2);
    assert RuleLines(rules, level + 1, c1) == RuleLines(rules, level + 1, c2);
  }

  lemma {:induction false} GlobalSelectorsIgnoreParent(name: string, selectors: OMap<SelectorSpec>, level: nat, p1: Option<string>, p2: Option<string>, options: CssOptions, c1: Collaborators, c2: Collaborators)
    requires IsGlobal(name) && c1.cssRule == c2.cssRule
    ensures SelectorLines(name, selectors, level, p1, options, c1) == SelectorLines(name, selectors, level, p2, options, c2)
    decreases |selectors|
  {
    if |selectors| > 0 {
      assert IsGlobal(name + selectors[0].0);
      GlobalRulesIgnoreParent(name + selectors[0].0, selectors[0].1.rules, level, p1, p2, options, c1, c2);
      GlobalSelectorsIgnoreParent(name, selectors[1..], level, p1, p2, options, c1, c2);
    }
  }

  lemma {:induction false} GlobalQueriesIgnoreParent(name: string, queries: OMap<MediaQuerySpec>, level: nat, p1: Option<string>, p2: Option<string>, options: CssOptions, c1: Collaborators, c2: Collaborators)
    requires IsGlobal(name) && c1.cssRule == c2.cssRule
    ensures MediaQueriesLines(name, queries, level, p1, options, c1) == MediaQueriesLines(name, queries, level, p2, options, c2)
    decreases |queries|
  {
    if |queries| > 0 {
      var q := queries[0];
      GlobalRulesIgnoreParent(name, q.1.rules, level + 1, p1, p2, options, c1, c2);
      GlobalSelectorsIgnoreParent(name, q.1.selectors, level + 1, p1, p2, options, c1, c2);
      assert MediaQueryLines(name, q.0, q.1, level, p1, options, c1) == MediaQueryLines(name, q.0, q.1, level, p2, options, c2);
      GlobalQueriesIgnoreParent(name, queries[1..], level, p1, p2, options, c1, c2);
    }
  }

  /** Parents do not compose: a parents entry nested under another parent
      opens its rule block with its own key alone, whatever parent was active
      around it. */
  lemma NestedParentReplacesOuter(name: string, key: string, inner: Spec, level: nat, outer: Option<string>, options: CssOptions, c: Collaborators)
    requires !IsGlobal(name) && key != "" && |inner.rules| > 0
    ensures var r := StyleLines(name, Spec([], [], [], [(key, inner)]), level, outer, options, c);
      |r| > 0 && r[0] == Indent(level) + key + " ." + c.className(name, options) + " {"
  {
    var spec := Spec([], [], [], [(key, inner)]);
    OnlyParentsStyle(name, spec, level, outer, options, c);
    OneParent(name, spec, key, inner, level, options, c);
    FirstLineIsRuleBlock(name, inner, level, Some(key), options, c);
    ParentSelectorText(name, key, level, options, c);
  }

  /** A style with nothing but parents emits just its parents' output. */
  lemma OnlyParentsStyle(name: string, spec: Spec, level: nat, parent: Option<string>, options: CssOptions, c: Collaborators)
    requires spec.rules == [] && spec.selectors == [] && spec.mediaQueries == []
    ensures StyleLines(name, spec, level, parent, options, c) == ParentsLines(name, spec, level, options, c)
  {
    assert RuleBlock(name, [], level, parent, options, c) == [];
    assert SelectorLines(name, [], level, parent, options, c) == [];
    assert MediaQueriesLines(name, [], level, parent, options, c) == [];
  }

  /** A style with rules opens with the selector line of its rule block. */
  lemma FirstLineIsRuleBlock(name: string, spec: Spec, level: nat, parent: Option<string>, options: CssOptions, c: Collaborators)
    requires |spec.rules| > 0
    ensures var r := StyleLines(name, spec, level, parent, options, c);
      |r| > 0 && r[0] == Indent(level) + SelectorText(name, parent, options, c) + " {"
  {
    var block := RuleBlock(name, spec.rules, level, parent, options, c);
    var sl := SelectorLines(name, spec.selectors, level, parent, options, c);
    var mq := MediaQueriesLines(name, spec.mediaQueries, level, parent, options, c);
    var pl := ParentsLines(name, spec, level, options, c);
    HeadOfConcat(block, sl, mq, pl);
  }

  lemma HeadOfConcat<T>(a: seq<T>, b: seq<T>, d: seq<T>, e: seq<T>)
    requires |a| > 0
    ensures |a + b + d + e| > 0 && (a + b + d + e)[0] == a[0]
  {
  }

  lemma ParentSelectorText(name: string, key: string, level: nat, options: CssOptions, c: Collaborators)
    requires !IsGlobal(name) && key != ""
    ensures Indent(level) + SelectorText(name, Some(key), options, c) + " {"
      == Indent(level) + key + " ." + c.className(name, options) + " {"
  {
    var cn := c.className(name, options);
    assert SelectorText(name, Some(key), options, c) == key + " " + "." + cn;
    assert key + " " + "." + cn == key + " ." + cn;
  }

  // ---------------------------------------------------------------------
  // Media query names.
  // ---------------------------------------------------------------------

  /** The aliases of the source's media-query shortcut test. */
  lemma MediaMapAliases()
    ensures var options := CssOptions([], map["mobile" := "media mobile-sized", "tablet" := "media tablet-sized"]);
      && MediaQueryName("mobile", options) == "media mobile-sized"
      && MediaQueryName("tablet", options) == "media tablet-sized"
      && MediaQueryName("media no-shortcut", options) == "media no-shortcut"
    ensures MediaQueryName("mobile", CssOptions([], map["mobile" := ""])) == "mobile"
  {
  }

  // ---------------------------------------------------------------------
  // The "\n" join and its inverse.
  // ---------------------------------------------------------------------

  predicate NoNewline(s: string) {
    forall i :: 0 <= i < |s| ==> s[i] != '\n'
  }

  /** `s.split("\n")`. */
  function Split(s: string): (r: seq<string>)
    ensures |r| >= 1
    decreases |s|
  {
    if |s| == 0 then [""]
    else if s[0] == '\n' then [""] + Split(s[1..])
    else
      var rest := Split(s[1..]);
      [[s[0]] + rest[0]] + rest[1..]
  }

  lemma {:induction false} SplitSingle(line: string)
    requires NoNewline(line)
    ensures Split(line) == [line]
    decreases |line|
  {
    if |line| > 0 {
      SplitSingle(line[1..]);
      assert [line[0]] + line[1..] == line;
    }
  }

  lemma {:induction false} SplitCons(line: string, rest: string)
    requires NoNewline(line)
    ensures Split(line + "\n" + rest) == [line] + Split(rest)
    decreases |line|
  {
    var s := line + "\n" + rest;
    if |line| == 0 {
      assert s == "\n" + rest;
      assert s[1..] == rest;
    } else {
      assert s[1..] == line[1..] + "\n" + rest;
      SplitCons(line[1..], rest);
      assert [line[0]] + line[1..] == line;
    }
  }

  /** Splitting the join at "\n" gives the lines back, when no line holds a
      newline of its own. */
  lemma {:induction false} SplitJoin(lines: seq<string>)
    requires |lines| > 0
    requires forall i :: 0 <= i < |lines| ==> NoNewline(lines[i])
    ensures Split(Join(lines, "\n")) == lines
    decreases |lines|
  {
    if |lines| == 1 {
      SplitSingle(lines[0]);
    } else {
      var rest := Join(lines[1..], "\n");
      assert Join(lines, "\n") == lines[0] + "\n" + rest;
      assert forall i :: 0 <= i < |lines[1..]| ==> lines[1..][i] == lines[i + 1];
      SplitJoin(lines[1..]);
      SplitCons(lines[0], rest);
      assert [lines[0]] + lines[1..] == lines;
    }
  }

  /** The CSS text is the emitted lines joined with "\n": empty when no line
      is emitted, and split back into exactly those lines otherwise. */
  lemma CssIsJoinedLines(styles: StyleMap, options: CssOptions, c: Collaborators)
    ensures var lines := StylesLines(styles, options, c);
      && (lines == [] ==> TransformSpecificationIntoCss(styles, options, c) == "")
      && ((lines != [] && forall i :: 0 <= i < |lines| ==> NoNewline(lines[i]))
          ==> Split(TransformSpecificationIntoCss(styles, options, c)) == lines)
  {
    var lines := StylesLines(styles, options, c);
    if lines != [] && forall i :: 0 <= i < |lines| ==> NoNewline(lines[i]) {
      SplitJoin(lines);
    }
  }

  // ---------------------------------------------------------------------
  // The source's own examples.
  // ---------------------------------------------------------------------

  /** A class-name generator that keeps the name, and a rule serializer for
      the two rules the examples use. */
  function ExampleCollaborators(): Collaborators {
    Collaborators(
      (name: string, options: CssOptions) => name,
      (property: string, value: RuleValue) =>
        match value
        case Text(s) => property + ": " + s + ";"
        case Number(n) => property + ": " + Decimal(n) + "px;")
  }

  /** The decimal digits of `n`, most significant first. */
  function Digits(n: nat): (r: string)
    ensures |r| > 0
    ensures forall i :: 0 <= i < |r| ==> '0' <= r[i] <= '9'
  {
    if n < 10 then ["0123456789"[n]] else Digits(n / 10) + ["0123456789"[n % 10]]
  }

  /** `String(n)` for an integer. */
  function Decimal(n: int): string {
    if n < 0 then "-" + Digits(-n) else Digits(n)
  }

  lemma OneRuleLine(property: string, value: RuleValue, level: nat, c: Collaborators)
    ensures RuleLines([(property, value)], level, c) == [Indent(level) + c.cssRule(property, value)]
  {
    var r := RuleLines([(property, value)], level, c);
    assert |r| == 1;
  }

  /** A one-rule block at `level` under the literal selector `selector`. */
  lemma OneRuleBlock(name: string, selector: string, property: string, value: RuleValue, level: nat, options: CssOptions, c: Collaborators)
    requires SelectorText(name, None, options, c) == selector
    ensures RuleBlock(name, [(property, value)], level, None, options, c)
      == [Indent(level) + selector + " {", Indent(level + 1) + c.cssRule(property, value), Indent(level) + "}"]
  {
    OneRuleLine(property, value, level + 1, c);
  }

  lemma ExampleFooParts()
    ensures ExampleCollaborators().cssRule("margin", Number(0)) == "margin: 0px;"
    ensures ExampleCollaborators().cssRule("margin", Number(1)) == "margin: 1px;"
    ensures SelectorText("foo", None, CssOptions([], map[]), ExampleCollaborators()) == ".foo"
  {
    assert Decimal(0) == "0" && Decimal(1) == "1";
  }

  lemma SmallIndents()
    ensures Indent(0) == "" && Indent(1) == "  " && Indent(2) == "    "
  {
    assert Indent(1) == Indent(0) + "  ";
    assert Indent(2) == Indent(1) + "  ";
  }

  lemma ExampleFooBlock()
    ensures RuleBlock("foo", [("margin", Number(0))], 0, None, CssOptions([], map[]), ExampleCollaborators())
      == [".foo {", "  margin: 0px;", "}"]
  {
    ExampleFooParts();
    OneRuleBlock("foo", ".foo", "margin", Number(0), 0, CssOptions([], map[]), ExampleCollaborators());
    FooLines();
  }

  lemma FooLines()
    ensures [Indent(0) + ".foo" + " {", Indent(1) + "margin: 0px;", Indent(0) + "}"] == [".foo {", "  margin: 0px;", "}"]
  {
    SmallIndents();
    assert "" + ".foo" + " {" == ".foo {";
    assert "  " + "margin: 0px;" == "  margin: 0px;";
    assert "" + "}" == "}";
  }

  lemma ExampleFooInnerBlock()
    ensures RuleBlock("foo", [("margin", Number(1))], 1, None, CssOptions([], map[]), ExampleCollaborators())
      == ["  .foo {", "    margin: 1px;", "  }"]
  {
    ExampleFooParts();
    OneRuleBlock("foo", ".foo", "margin", Number(1), 1, CssOptions([], map[]), ExampleCollaborators());
    FooInnerLines();
  }

  lemma FooInnerLines()
    ensures [Indent(1) + ".foo" + " {", Indent(2) + "margin: 1px;", Indent(1) + "}"] == ["  .foo {", "    margin: 1px;", "  }"]
  {
    SmallIndents();
    assert "  " + ".foo" + " {" == "  .foo {";
    assert "    " + "margin: 1px;" == "    margin: 1px;";
    assert "  " + "}" == "  }";
  }

  /** A media query holding rules only wraps their block, one level deeper,
      in its `@` lines. */
  lemma RulesOnlyMediaQuery(name: string, query: string, rules: Rules, level: nat, parent: Option<string>, options: CssOptions, c: Collaborators)
    requires |rules| > 0
    ensures MediaQueryLines(name, query, MediaQuerySpec(rules, []), level, parent, options, c)
      == [Indent(level) + "@" + MediaQueryName(query, options) + " {"]
        + RuleBlock(name, rules, level + 1, parent, options, c) + [Indent(level) + "}"]
  {
    var rb := RuleBlock(name, rules, level + 1, parent, options, c);
    assert SelectorLines(name, [], level + 1, parent, options, c) == [];
    assert rb + [] == rb;
  }

  lemma Media1Lines()
    ensures Indent(0) + "@" + MediaQueryName("media1", CssOptions([], map[])) + " {" == "@media1 {"
    ensures Indent(0) + "}" == "}"
  {
    SmallIndents();
    assert "" + "@" + "media1" + " {" == "@media1 {";
  }

  lemma ExampleFooMediaBlock()
    ensures MediaQueryLines("foo", "media1", MediaQuerySpec([("margin", Number(1))], []), 0, None, CssOptions([], map[]), ExampleCollaborators())
      == ["@media1 {", "  .foo {", "    margin: 1px;", "  }", "}"]
  {
    RulesOnlyMediaQuery("foo", "media1", [("margin", Number(1))], 0, None, CssOptions([], map[]), ExampleCollaborators());
    ExampleFooInnerBlock();
    Media1Lines();
  }

  /** A media query whose body is empty leaves no `@` block behind. */
  lemma EmptyMediaQueryExample()
    ensures var spec := Spec([("margin", Number(0))], [],
        [("media1", MediaQuerySpec([("margin", Number(1))], [])), ("media2", MediaQuerySpec([], []))], []);
      StylesLines([("foo", spec)], CssOptions([], map[]), ExampleCollaborators())
        == [".foo {", "  margin: 0px;", "}", "@media1 {", "  .foo {", "    margin: 1px;", "  }", "}"]
  {
    var o := CssOptions([], map[]);
    var c := ExampleCollaborators();
    var q1 := ("media1", MediaQuerySpec([("margin", Number(1))], []));
    var q2 := ("media2", MediaQuerySpec([], []));
    var block := [".foo {", "  margin: 0px;", "}"];
    var media := ["@media1 {", "  .foo {", "    margin: 1px;", "  }", "}"];
    ExampleFooBlock();
    ExampleFooQueries();
    RulesAndQueriesStyle("foo", [("margin", Number(0))], [q1, q2], o, c, block, media);
    ExampleFooAllLines();
  }

  lemma ExampleFooQueries()
    ensures MediaQueriesLines("foo", [("media1", MediaQuerySpec([("margin", Number(1))], [])), ("media2", MediaQuerySpec([], []))],
        0, None, CssOptions([], map[]), ExampleCollaborators())
      == ["@media1 {", "  .foo {", "    margin: 1px;", "  }", "}"]
  {
    var o := CssOptions([], map[]);
    var c := ExampleCollaborators();
    var media := ["@media1 {", "  .foo {", "    margin: 1px;", "  }", "}"];
    ExampleFooMediaBlock();
    EmptyMediaQueryLines("foo", "media2", 0, None, o, c);
    TwoQueries("foo", ("media1", MediaQuerySpec([("margin", Number(1))], [])), ("media2", MediaQuerySpec([], [])), 0, None, o, c);
    assert media + [] == media;
  }

  lemma ExampleFooAllLines()
    ensures [".foo {", "  margin: 0px;", "}"] + ["@media1 {", "  .foo {", "    margin: 1px;", "  }", "}"]
      == [".foo {", "  margin: 0px;", "}", "@media1 {", "  .foo {", "    margin: 1px;", "  }", "}"]
  {
  }

  /** A stylesheet of one style made of rules and media queries emits the
      rule block and then the media blocks. */
  lemma RulesAndQueriesStyle(name: string, rules: Rules, queries: OMap<MediaQuerySpec>, options: CssOptions, c: Collaborators,
                             block: seq<string>, media: seq<string>)
    requires RuleBlock(name, rules, 0, None, options, c) == block
    requires MediaQueriesLines(name, queries, 0, None, options, c) == media
    ensures StylesLines([(name, Spec(rules, [], queries, []))], options, c) == block + media
  {
    OneStyleLines(name, Spec(rules, [], queries, []), options, c);
    NoParentsNoSelectors(name, rules, queries, 0, None, options, c);
  }

  lemma EmptyMediaQueryLines(name: string, query: string, level: nat, parent: Option<string>, options: CssOptions, c: Collaborators)
    ensures MediaQueryLines(name, query, MediaQuerySpec([], []), level, parent, options, c) == []
  {
    assert RuleBlock(name, [], level + 1, parent, options, c) == [];
    assert SelectorLines(name, [], level + 1, parent, options, c) == [];
  }

  /** A stylesheet of one style emits that style's lines at level 0. */
  lemma OneStyleLines(name: string, spec: Spec, options: CssOptions, c: Collaborators)
    ensures StylesLines([(name, spec)], options, c) == StyleLines(name, spec, 0, None, options, c)
  {
    assert [(name, spec)][1..] == [];
  }

  /** Without selectors and parents, a style emits its rule block and its
      media blocks. */
  lemma NoParentsNoSelectors(name: string, rules: Rules, queries: OMap<MediaQuerySpec>, level: nat, parent: Option<string>, options: CssOptions, c: Collaborators)
    ensures StyleLines(name, Spec(rules, [], queries, []), level, parent, options, c)
      == RuleBlock(name, rules, level, parent, options, c) + MediaQueriesLines(name, queries, level, parent, options, c)
  {
    var spec := Spec(rules, [], queries, []);
    StyleLinesParts(name, spec, level, parent, options, c);
    NoParents(name, spec, level, options, c);
    assert SelectorLines(name, [], level, parent, options, c) == [];
    DropEmpty(RuleBlock(name, rules, level, parent, options, c), SelectorLines(name, [], level, parent, options, c),
      MediaQueriesLines(name, queries, level, parent, options, c), ParentsLines(name, spec, level, options, c));
  }

  /** A style's output: rule block, selector blocks, media blocks, parents. */
  lemma StyleLinesParts(name: string, spec: Spec, level: nat, parent: Option<string>, options: CssOptions, c: Collaborators)
    ensures StyleLines(name, spec, level, parent, options, c)
      == RuleBlock(name, spec.rules, level, parent, options, c)
        + SelectorLines(name, spec.selectors, level, parent, options, c)
        + MediaQueriesLines(name, spec.mediaQueries, level, parent, options, c)
        + ParentsLines(name, spec, level, options, c)
  {
  }

  lemma DropEmpty<T>(a: seq<T>, b: seq<T>, d: seq<T>, e: seq<T>)
    requires b == [] && e == []
    ensures a + b + d + e == a + d
  {
  }

  lemma NoParents(name: string, spec: Spec, level: nat, options: CssOptions, c: Collaborators)
    requires spec.parents == []
    ensures ParentsLines(name, spec, level, options, c) == []
  {
    var xss := ParentBlocks(name, spec, level, options, c);
    assert xss == [];
  }

  lemma TwoQueries(name: string, q1: (string, MediaQuerySpec), q2: (string, MediaQuerySpec), level: nat, parent: Option<string>, options: CssOptions, c: Collaborators)
    ensures MediaQueriesLines(name, [q1, q2], level, parent, options, c)
      == MediaQueryLines(name, q1.0, q1.1, level, parent, options, c) + MediaQueryLines(name, q2.0, q2.1, level, parent, options, c)
  {
    var m1 := MediaQueryLines(name, q1.0, q1.1, level, parent, options, c);
    var m2 := MediaQueryLines(name, q2.0, q2.1, level, parent, options, c);
    assert [q1, q2][1..] == [q2];
    assert [q2][1..] == [];
    assert MediaQueriesLines(name, [q2], level, parent, options, c) == m2 + MediaQueriesLines(name, [], level, parent, options, c);
    assert MediaQueriesLines(name, [q2], level, parent, options, c) == m2;
    assert MediaQueriesLines(name, [q1, q2], level, parent, options, c) == m1 + MediaQueriesLines(name, [q2], level, parent, options, c);
  }

  lemma ExampleBodyParts()
    ensures ExampleCollaborators().cssRule("border", Text("solid 1px black")) == "border: solid 1px black;"
    ensures SelectorText("$body", None, CssOptions([], map[]), ExampleCollaborators()) == "body"
  {
    assert "border" + ": " + "solid 1px black" + ";" == "border: solid 1px black;";
    assert "$body"[1..] == "body";
  }

  lemma ExampleBodyBlock()
    ensures RuleBlock("$body", [("border", Text("solid 1px black"))], 0, None, CssOptions([], map[]), ExampleCollaborators())
      == ["body {", "  border: solid 1px black;", "}"]
  {
    var o := CssOptions([], map[]);
    var c := ExampleCollaborators();
    ExampleBodyParts();
    OneRuleBlock("$body", "body", "border", Text("solid 1px black"), 0, o, c);
    ExampleBodyLines();
  }

  lemma ExampleBodyLines()
    ensures [Indent(0) + "body" + " {", Indent(1) + "border: solid 1px black;", Indent(0) + "}"]
      == ["body {", "  border: solid 1px black;", "}"]
  {
    SmallIndents();
    BorderLine();
    assert "" + "body" + " {" == "body {";
    assert "" + "}" == "}";
  }

  lemma BorderLine()
    ensures "  " + "border: solid 1px black;" == "  border: solid 1px black;"
  {
  }

  /** A style with rules only emits just its rule block. */
  lemma RulesOnlyStyle(name: string, rules: Rules, options: CssOptions, c: Collaborators)
    ensures StylesLines([(name, Spec(rules, [], [], []))], options, c) == RuleBlock(name, rules, 0, None, options, c)
  {
    var spec := Spec(rules, [], [], []);
    assert ParentsLines(name, spec, 0, options, c) == Flatten<string>([]);
    assert StyleLines(name, spec, 0, None, options, c) == RuleBlock(name, rules, 0, None, options, c);
    assert [(name, spec)][1..] == [];
  }

  lemma JoinThree(a: string, b: string, d: string)
    ensures Join([a, b, d], "\n") == a + "\n" + b + "\n" + d
  {
    assert [b, d][1..] == [d];
    assert Join([d], "\n") == d;
    assert Join([b, d], "\n") == b + "\n" + d;
    assert [a, b, d][1..] == [b, d];
  }

  lemma BodyText()
    ensures "body {" + "\n" + "  border: solid 1px black;" + "\n" + "}" == "body {\n  border: solid 1px black;\n}"
  {
  }

  /** A global style is emitted under its literal selector. */
  lemma GlobalStyleExample()
    ensures TransformSpecificationIntoCss([("$body", Spec([("border", Text("solid 1px black"))], [], [], []))],
        CssOptions([], map[]), ExampleCollaborators())
      == "body {\n  border: solid 1px black;\n}"
  {
    var rules := [("border", Text("solid 1px black"))];
    var o := CssOptions([], map[]);
    var c := ExampleCollaborators();
    RulesOnlyStyle("$body", rules, o, c);
    ExampleBodyBlock();
    JoinThree("body {", "  border: solid 1px black;", "}");
    BodyText();
  }
}
