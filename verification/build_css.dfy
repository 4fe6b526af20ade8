/** Stylesheet concatenation and post-processing (src/buildCSS.js).

    Every stylesheet is rendered with the class-name prefixes
    `[filename, stylesheet name]` and appended; once the accumulated text is
    non-empty each rendering is followed by a newline. Empty output is
    returned at once; otherwise vendor prefixing and then minification are
    applied when their options are truthy. Both post-processors are
    libraries whose code is not part of this model and are parameters. */
module BuildCss {
  import opened Wrappers
  import opened OrderedMap
  import opened Specification
  import opened SpecificationToCss

  /** The JavaScript values an option can hold. `Obj` carries the settings
      object handed to the prefixer. */
  datatype OptionValue =
    | Undefined
    | Null
    | Bool(b: bool)
    | Num(n: int)
    | Str(s: string)
    | Obj(settings: seq<(string, string)>)

  /** JavaScript truthiness; `NaN` is not modelled. */
  predicate Truthy(v: OptionValue) {
    match v
    case Undefined => false
    case Null => false
    case Bool(b) => b
    case Num(n) => n != 0
    case Str(s) => s != ""
    case Obj(_) => true
  }

  datatype BuildOptions = BuildOptions(
    filename: string,
    mediaMap: map<string, string>,
    vendorPrefixes: OptionValue,
    minify: OptionValue)

  /** The two post-processors: the prefixer, with its settings object when
      one is configured and its defaults otherwise, and the minifier. */
  datatype PostProcessors = PostProcessors(
    autoprefix: (Option<seq<(string, string)>>, string) -> string,
    minify: string -> string)

  /** The generator options of the stylesheet `name`: a copy of the build
      options whose `prefixes` are the file name and the stylesheet name. */
  function SheetOptions(options: BuildOptions, name: string): (r: CssOptions)
    ensures r.prefixes == [options.filename, name]
    ensures r.mediaMap == options.mediaMap
  {
    CssOptions([options.filename, name], options.mediaMap)
  }

  /** The rendering of every stylesheet, in map order. */
  function Fragments(sheets: OMap<StyleMap>, options: BuildOptions, c: Collaborators): (r: seq<string>)
    ensures |r| == |sheets|
    ensures forall i :: 0 <= i < |sheets| ==>
      r[i] == TransformSpecificationIntoCss(sheets[i].1, SheetOptions(options, sheets[i].0), c)
  {
    seq(|sheets|, i requires 0 <= i < |sheets| =>
      TransformSpecificationIntoCss(sheets[i].1, SheetOptions(options, sheets[i].0), c))
  }

  /** Each fragment followed by a newline. */
  function Terminated(frags: seq<string>): string
    decreases |frags|
  {
    if |frags| == 0 then "" else frags[0] + "\n" + Terminated(frags[1..])
  }

  /** The fragments from the first non-empty one on. */
  function SkipEmpty(frags: seq<string>): (r: seq<string>)
    ensures |r| <= |frags|
    ensures r == frags[|frags| - |r|..]
    ensures r == [] || r[0] != ""
    ensures forall i :: 0 <= i < |frags| - |r| ==> frags[i] == ""
    decreases |frags|
  {
    if |frags| == 0 then []
    else if frags[0] == "" then SkipEmpty(frags[1..])
    else frags
  }

  /** What the concatenation produces, stated without the loop: empty when
      every fragment is empty, and otherwise every fragment from the first
      non-empty one on, each followed by a newline. */
  function Concatenation(frags: seq<string>): string {
    Terminated(SkipEmpty(frags))
  }

  lemma {:induction false} TerminatedAppend(frags: seq<string>, f: string)
    ensures Terminated(frags + [f]) == Terminated(frags) + f + "\n"
    decreases |frags|
  {
    if |frags| == 0 {
      assert Terminated([f]) == f + "\n" + Terminated([]);
    } else {
      var head := frags[0] + "\n";
      assert (frags + [f])[1..] == frags[1..] + [f];
      assert Terminated(frags + [f]) == head + Terminated(frags[1..] + [f]);
      assert Terminated(frags) == head + Terminated(frags[1..]);
      TerminatedAppend(frags[1..], f);
      assert head + (Terminated(frags[1..]) + f + "\n") == head + Terminated(frags[1..]) + f + "\n";
    }
  }

  lemma {:induction false} SkipEmptyAppend(frags: seq<string>, f: string)
    ensures SkipEmpty(frags) == [] ==> SkipEmpty(frags + [f]) == (if f == "" then [] else [f])
    ensures SkipEmpty(frags) != [] ==> SkipEmpty(frags + [f]) == SkipEmpty(frags) + [f]
    decreases |frags|
  {
    if |frags| == 0 {
      assert SkipEmpty([f]) == (if f == "" then SkipEmpty([f][1..]) else [f]);
    } else if frags[0] == "" {
      assert (frags + [f])[1..] == frags[1..] + [f];
      assert (frags + [f])[0] == "";
      assert SkipEmpty(frags) == SkipEmpty(frags[1..]);
      SkipEmptyAppend(frags[1..], f);
    } else {
      assert (frags + [f])[0] != "";
      assert SkipEmpty(frags) == frags;
    }
  }

  lemma TerminatedEmpty(frags: seq<string>)
    ensures Terminated(frags) == "" <==> frags == []
  {
    if frags != [] {
      assert |Terminated(frags)| >= 1;
    }
  }

  /** One step of the loop: the text grows by the fragment and, when it is
      non-empty, by a newline. */
  lemma ConcatenationStep(frags: seq<string>, f: string)
    ensures var css := Concatenation(frags) + f;
      Concatenation(frags + [f]) == if |css| > 0 then css + "\n" else css
  {
    SkipEmptyAppend(frags, f);
    TerminatedEmpty(SkipEmpty(frags));
    if SkipEmpty(frags) == [] {
      assert Terminated([f]) == f + "\n" + Terminated([]);
    } else {
      TerminatedAppend(SkipEmpty(frags), f);
    }
  }

  /** The loop of buildCSS over the rendered stylesheets: append each
      rendering and, when the text is then non-empty, a newline. */
  method ConcatenateFragments(frags: seq<string>) returns (css: string)
    ensures css == Concatenation(frags)
  {
    css := "";
    var i := 0;
    while i < |frags|
      invariant 0 <= i <= |frags|
      invariant css == Concatenation(frags[..i])
    {
      ConcatenationStep(frags[..i], frags[i]);
      css := css + frags[i];
      if |css| > 0 {
        css := css + "\n";
      }
      assert frags[..i + 1] == frags[..i] + [frags[i]];
      i := i + 1;
    }
    assert frags[..i] == frags;
  }

  /** The loop of buildCSS over the stylesheets, each rendered with its own
      class-name prefixes. */
  method Concatenate(sheets: OMap<StyleMap>, options: BuildOptions, c: Collaborators) returns (css: string)
    ensures css == Concatenation(Fragments(sheets, options, c))
  {
    css := ConcatenateFragments(Fragments(sheets, options, c));
  }

  /** The tail of buildCSS: empty text is returned at once; otherwise the
      post-processors run in order. */
  method PostProcess(raw: string, options: BuildOptions, post: PostProcessors) returns (css: string)
    ensures raw == "" ==> css == ""
    ensures raw != "" ==> Finished(css, raw, options, post)
  {
    css := raw;
    if |css| == 0 {
      return css;
    }
    var vp := options.vendorPrefixes;
    if Truthy(vp) {
      if vp.Obj? {
        css := post.autoprefix(Some(vp.settings), css);
      } else {
        css := post.autoprefix(None, css);
      }
    }
    if Truthy(options.minify) {
      css := post.minify(css);
    }
  }

  /** buildCSS(stylesheets, options). */
  method BuildCss(sheets: OMap<StyleMap>, options: BuildOptions, c: Collaborators, post: PostProcessors) returns (css: string)
    ensures Concatenation(Fragments(sheets, options, c)) == "" ==> css == ""
    ensures Concatenation(Fragments(sheets, options, c)) != "" ==>
      Finished(css, Concatenation(Fragments(sheets, options, c)), options, post)
  {
    var raw := Concatenate(sheets, options, c);
    css := PostProcess(raw, options, post);
  }

  /** What buildCSS makes of the non-empty text `raw`: a truthy
      `vendorPrefixes` prefixes it (with the settings when it is an object,
      with the defaults otherwise), and then a truthy `minify` minifies the
      result. */
  predicate Finished(css: string, raw: string, options: BuildOptions, post: PostProcessors) {
    var vp := options.vendorPrefixes;
    && (!Truthy(vp) && !Truthy(options.minify) ==> css == raw)
    && (vp.Obj? && !Truthy(options.minify) ==> css == post.autoprefix(Some(vp.settings), raw))
    && (Truthy(vp) && !vp.Obj? && !Truthy(options.minify) ==> css == post.autoprefix(None, raw))
    && (!Truthy(vp) && Truthy(options.minify) ==> css == post.minify(raw))
    && (vp.Obj? && Truthy(options.minify) ==> css == post.minify(post.autoprefix(Some(vp.settings), raw)))
    && (Truthy(vp) && !vp.Obj? && Truthy(options.minify) ==> css == post.minify(post.autoprefix(None, raw)))
  }
}
