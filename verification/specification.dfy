/** The normalized Specification tree the CSS generator walks. Every
    collection is an insertion-ordered map; a field the normalizer leaves out
    is an empty map (the generator treats a missing field and an empty one
    alike). */
module Specification {
  import opened OrderedMap

  /** A rule value: a string, or a number (integers only in this model). */
  datatype RuleValue = Text(s: string) | Number(n: int)

  /** property name -> value, in declaration order. */
  type Rules = OMap<RuleValue>

  /** The body of a pseudo-class or attribute selector: rules only. */
  datatype SelectorSpec = SelectorSpec(rules: Rules)

  /** The body of a media query: rules, and selectors with their rules. */
  datatype MediaQuerySpec = MediaQuerySpec(rules: Rules, selectors: OMap<SelectorSpec>)

  /** One style: its own rules, its selector fragments, its media queries and
      the styles it takes on under a parent selector. */
  datatype Spec = Spec(
    rules: Rules,
    selectors: OMap<SelectorSpec>,
    mediaQueries: OMap<MediaQuerySpec>,
    parents: OMap<Spec>)

  /** A stylesheet: style name -> Specification. */
  type StyleMap = OMap<Spec>

  const EmptySpec := Spec([], [], [], [])
}
