/** What the stylesheet concatenation guarantees. */
module BuildCssProperties {
  import opened Wrappers
  import opened OrderedMap
  import opened Specification
  import opened SpecificationToCss
  import opened SpecificationToCssProperties
  import opened BuildCss

  /** The concatenation is empty exactly when every fragment is. */
  lemma {:induction false} ConcatenationEmpty(frags: seq<string>)
    ensures Concatenation(frags) == "" <==> forall i :: 0 <= i < |frags| ==> frags[i] == ""
  {
    TerminatedEmpty(SkipEmpty(frags));
    if SkipEmpty(frags) != [] {
      var k := |frags| - |SkipEmpty(frags)|;
      assert frags[k] == SkipEmpty(frags)[0];
    }
  }

  /** Without empty fragments, every fragment is followed by one newline. */
  lemma NonEmptyFragmentsTerminated(frags: seq<string>)
    requires forall i :: 0 <= i < |frags| ==> frags[i] != ""
    ensures Concatenation(frags) == Terminated(frags)
  {
    if |frags| > 0 {
      assert frags[0] != "";
    }
  }

  /** An empty fragment after non-empty text still contributes its newline:
      the output then ends in a blank line. */
  lemma EmptyLaterSheetAddsBlankLine(frags: seq<string>)
    requires Concatenation(frags) != ""
    ensures Concatenation(frags + [""]) == Concatenation(frags) + "\n"
  {
    ConcatenationStep(frags, "");
    assert Concatenation(frags) + "" == Concatenation(frags);
  }

  /** `k` empty renderings. */
  function Blanks(k: nat): (r: seq<string>)
    ensures |r| == k
    ensures forall i :: 0 <= i < k ==> r[i] == ""
  {
    if k == 0 then [] else [""] + Blanks(k - 1)
  }

  /** Any number of empty fragments before the others contribute nothing. */
  lemma LeadingEmptySheetsVanish(k: nat, frags: seq<string>)
    ensures Concatenation(Blanks(k) + frags) == Concatenation(frags)
  {
    LeadingEmptySkipped(k, frags);
  }

  lemma {:induction false} LeadingEmptySkipped(k: nat, frags: seq<string>)
    ensures SkipEmpty(Blanks(k) + frags) == SkipEmpty(frags)
    decreases k
  {
    if k > 0 {
      BlanksCons(k, frags);
      SkipEmptyBlank(Blanks(k - 1) + frags);
      LeadingEmptySkipped(k - 1, frags);
    } else {
      assert Blanks(k) + frags == frags;
    }
  }

  lemma BlanksCons(k: nat, frags: seq<string>)
    requires k > 0
    ensures Blanks(k) + frags == [""] + (Blanks(k - 1) + frags)
  {
  }

  lemma SkipEmptyBlank(frags: seq<string>)
    ensures SkipEmpty([""] + frags) == SkipEmpty(frags)
  {
    assert ([""] + frags)[1..] == frags;
  }

  /** A stylesheet whose every style is silent renders to nothing. */
  lemma {:induction false} SilentStylesRenderNothing(styles: StyleMap, options: CssOptions, c: Collaborators)
    requires forall i :: 0 <= i < |styles| ==> Silent(styles[i].1)
    ensures TransformSpecificationIntoCss(styles, options, c) == ""
    decreases |styles|
  {
    SilentStylesNoLines(styles, options, c);
  }

  lemma {:induction false} SilentStylesNoLines(styles: StyleMap, options: CssOptions, c: Collaborators)
    requires forall i :: 0 <= i < |styles| ==> Silent(styles[i].1)
    ensures StylesLines(styles, options, c) == []
    decreases |styles|
  {
    if |styles| > 0 {
      StyleLinesEmpty(styles[0].0, styles[0].1, 0, None, options, c);
      assert forall i :: 0 <= i < |styles[1..]| ==> styles[1..][i] == styles[i + 1];
      SilentStylesNoLines(styles[1..], options, c);
    }
  }

  /** When every style of every stylesheet is silent (in particular when
      every stylesheet is `{}`), the build produces the empty string. */
  lemma SilentSheetsConcatenateToNothing(sheets: OMap<StyleMap>, options: BuildOptions, c: Collaborators)
    requires forall i, j :: 0 <= i < |sheets| && 0 <= j < |sheets[i].1| ==> Silent(sheets[i].1[j].1)
    ensures Concatenation(Fragments(sheets, options, c)) == ""
  {
    var frags := Fragments(sheets, options, c);
    forall i | 0 <= i < |frags|
      ensures frags[i] == ""
    {
      SilentStylesRenderNothing(sheets[i].1, SheetOptions(options, sheets[i].0), c);
    }
    ConcatenationEmpty(frags);
  }

  /** The fragments of two runs of stylesheets are those of each run in turn. */
  lemma FragmentsInMapOrder(a: OMap<StyleMap>, b: OMap<StyleMap>, options: BuildOptions, c: Collaborators)
    ensures Fragments(a + b, options, c) == Fragments(a, options, c) + Fragments(b, options, c)
  {
    var render := (sheet: (string, StyleMap)) => TransformSpecificationIntoCss(sheet.1, SheetOptions(options, sheet.0), c);
    PointwiseAppend(Fragments(a + b, options, c), Fragments(a, options, c), Fragments(b, options, c), a, b, render);
  }
}
