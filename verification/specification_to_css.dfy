/** CSS text generation from a Specification tree
    (src/transformSpecificationIntoCSS.js).

    The generator emits a list of lines and joins them with "\n". Per style
    it emits, in this order, the rule block of the style's own rules, one rule
    block per selector fragment, one `@` block per media query and, for every
    parent selector, the whole style again under that parent. */
module SpecificationToCss {
  import opened Wrappers
  import opened OrderedMap
  import opened Specification

  /** The options the generator reads itself (`mediaMap`) or hands to the
      class-name generator (`prefixes`). A missing `mediaMap` behaves as an
      empty one. */
  datatype CssOptions = CssOptions(prefixes: seq<string>, mediaMap: map<string, string>)

  /** The two collaborators whose code is not part of this model:
      generateClassName(name, options) and buildCSSRule(property, value). */
  datatype Collaborators = Collaborators(
    className: (string, CssOptions) -> string,
    cssRule: (string, RuleValue) -> string)

  /** indent(level): two spaces per level. */
  function Indent(level: nat): (r: string)
    ensures |r| == 2 * level
    ensures forall i :: 0 <= i < |r| ==> r[i] == ' '
  {
    if level == 0 then "" else Indent(level - 1) + "  "
  }

  /** A `$`-prefixed style name is a global selector, emitted literally. */
  predicate IsGlobal(name: string) {
    |name| > 0 && name[0] == '$'
  }

  /** The selector of a rule block: the global name without its `$`, or the
      generated class name, after the active parent selector and a space when
      there is a (non-empty) parent. */
  function SelectorText(name: string, parent: Option<string>, options: CssOptions, c: Collaborators): string {
    if IsGlobal(name) then name[1..]
    else
      var scope := if parent.Some? && parent.value != "" then parent.value + " " else "";
      scope + "." + c.className(name, options)
  }

  /** One line per rule, in rule order. */
  function RuleLines(rules: Rules, level: nat, c: Collaborators): (r: seq<string>)
    ensures |r| == |rules|
    ensures forall i :: 0 <= i < |rules| ==> r[i] == Indent(level) + c.cssRule(rules[i].0, rules[i].1)
  {
    if |rules| == 0 then [] else [Indent(level) + c.cssRule(rules[0].0, rules[0].1)] + RuleLines(rules[1..], level, c)
  }

  /** processRules: nothing for no rules; otherwise the selector line, the
      rule lines one level deeper, and the closing brace. */
  function RuleBlock(name: string, rules: Rules, level: nat, parent: Option<string>, options: CssOptions, c: Collaborators): (r: seq<string>)
    ensures r == [] <==> |rules| == 0
    ensures |rules| > 0 ==>
      && |r| == |rules| + 2
      && r[0] == Indent(level) + SelectorText(name, parent, options, c) + " {"
      && (forall i :: 0 <= i < |rules| ==> r[i + 1] == Indent(level + 1) + c.cssRule(rules[i].0, rules[i].1))
      && r[|r| - 1] == Indent(level) + "}"
  {
    if |rules| == 0 then []
    else
      [Indent(level) + SelectorText(name, parent, options, c) + " {"]
      + RuleLines(rules, level + 1, c)
      + [Indent(level) + "}"]
  }

  /** processSelectors: a rule block for `name + fragment` per entry. */
  function SelectorLines(name: string, selectors: OMap<SelectorSpec>, level: nat, parent: Option<string>, options: CssOptions, c: Collaborators): seq<string>
    decreases |selectors|
  {
    if |selectors| == 0 then []
    else
      RuleBlock(name + selectors[0].0, selectors[0].1.rules, level, parent, options, c)
      + SelectorLines(name, selectors[1..], level, parent, options, c)
  }

  /** generateMediaQueryName: the `mediaMap` entry when it is present and
      non-empty (`mediaMap[name] || name`), otherwise the name itself. */
  function MediaQueryName(query: string, options: CssOptions): (r: string)
    ensures query in options.mediaMap && options.mediaMap[query] != "" ==> r == options.mediaMap[query]
    ensures query !in options.mediaMap ==> r == query
    ensures query in options.mediaMap && options.mediaMap[query] == "" ==> r == query
    ensures r == "" ==> query == ""
  {
    if query in options.mediaMap && options.mediaMap[query] != "" then options.mediaMap[query] else query
  }

  /** processMediaQuery: the query's rules and selectors one level deeper,
      wrapped in `@name { ... }`, or nothing when they produce no line. */
  function MediaQueryLines(name: string, query: string, content: MediaQuerySpec, level: nat, parent: Option<string>, options: CssOptions, c: Collaborators): seq<string> {
    var body := RuleBlock(name, content.rules, level + 1, parent, options, c)
      + SelectorLines(name, content.selectors, level + 1, parent, options, c);
    if |body| == 0 then []
    else [Indent(level) + "@" + MediaQueryName(query, options) + " {"] + body + [Indent(level) + "}"]
  }

  /** processMediaQueries. */
  function MediaQueriesLines(name: string, queries: OMap<MediaQuerySpec>, level: nat, parent: Option<string>, options: CssOptions, c: Collaborators): seq<string>
    decreases |queries|
  {
    if |queries| == 0 then []
    else
      MediaQueryLines(name, queries[0].0, queries[0].1, level, parent, options, c)
      + MediaQueriesLines(name, queries[1..], level, parent, options, c)
  }

  /** The concatenation of a list of line lists, in order. */
  function Flatten<T>(xss: seq<seq<T>>): seq<T>
    decreases |xss|
  {
    if |xss| == 0 then [] else xss[0] + Flatten(xss[1..])
  }

  /** processStyle. */
  function StyleLines(name: string, spec: Spec, level: nat, parent: Option<string>, options: CssOptions, c: Collaborators): seq<string>
    decreases spec, 2
  {
    RuleBlock(name, spec.rules, level, parent, options, c)
    + SelectorLines(name, spec.selectors, level, parent, options, c)
    + MediaQueriesLines(name, spec.mediaQueries, level, parent, options, c)
    + ParentsLines(name, spec, level, options, c)
  }

  /** processParents over `spec.parents`: the whole style again, at the same
      level, once per parent selector, with that selector as the active
      parent; the caller's own active parent is not passed on. */
  function ParentsLines(name: string, spec: Spec, level: nat, options: CssOptions, c: Collaborators): seq<string>
    decreases spec, 1
  {
    Flatten(ParentBlocks(name, spec, level, options, c))
  }

  /** The output of each parents entry, in map order. */
  function ParentBlocks(name: string, spec: Spec, level: nat, options: CssOptions, c: Collaborators): (r: seq<seq<string>>)
    ensures |r| == |spec.parents|
    ensures forall i :: 0 <= i < |spec.parents| ==>
      r[i] == StyleLines(name, spec.parents[i].1, level, Some(spec.parents[i].0), options, c)
    decreases spec, 0
  {
    var parents := spec.parents;
    seq(|parents|, i requires 0 <= i < |parents| =>
      StyleLines(name, parents[i].1, level, Some(parents[i].0), options, c))
  }

  /** The styles of a stylesheet, in map order, at level 0 with no parent. */
  function StylesLines(styles: StyleMap, options: CssOptions, c: Collaborators): seq<string>
    decreases |styles|
  {
    if |styles| == 0 then []
    else StyleLines(styles[0].0, styles[0].1, 0, None, options, c) + StylesLines(styles[1..], options, c)
  }

  /** `lines.join(sep)`. */
  function Join(lines: seq<string>, sep: string): string
    decreases |lines|
  {
    if |lines| == 0 then ""
    else if |lines| == 1 then lines[0]
    else lines[0] + sep + Join(lines[1..], sep)
  }

  /** transformSpecificationIntoCSS(spec, options). */
  function TransformSpecificationIntoCss(styles: StyleMap, options: CssOptions, c: Collaborators): string {
    Join(StylesLines(styles, options, c), "\n")
  }
}
